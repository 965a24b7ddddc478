/** Commands, notifications and their wire forms (src/protocol.rs). */
module Protocol {
  import opened Common
  import opened Clubs

  // ---------------------------------------------------------------- commands

  datatype SpinMode = Standard | Advanced
  datatype SpeedUnit = MetersPerSecond | MilesPerHour
  datatype DistanceUnit = Meter | YardFeet | YardYard

  datatype Command =
    | DetectBall(on: bool, spin: SpinMode)
    | SelectClub(club: Club, handed: Handed)
    | Heartbeat
    | Query
    | RequestClubMetrics
    | SetUnits(speed: SpeedUnit, distance: DistanceUnit)
    | SetGreenSpeed(stimpIndex: Byte)
    | SetCarryAdjustment(percent: Byte)
  {
    function TypeByte(): Byte {
      match this
      case DetectBall(_, _) => 0x81
      case SelectClub(_, _) => 0x82
      case Heartbeat => 0x83
      case Query => 0x86
      case RequestClubMetrics => 0x87
      case SetUnits(_, _) => 0x88
      case SetGreenSpeed(_) => 0x89
      case SetCarryAdjustment(_) => 0x8A
    }

    /** The payload columns of section 5 of docs/WIRE.md, before padding. */
    function Payload(): (p: Frame)
      ensures |p| <= 6
    {
      match this
      case DetectBall(on, spin) => [if on then 1 else 0, if spin.Standard? then 0x10 else 0x11]
      case SelectClub(club, handed) => [club.Code().0, club.Code().1.Code(), handed.Code()]
      case SetUnits(speed, distance) =>
        [0, if speed.MetersPerSecond? then 0 else 1,
         match distance case Meter => 0 case YardFeet => 1 case YardYard => 2]
      case SetGreenSpeed(v) => [v]
      case SetCarryAdjustment(v) => [v]
      case _ => []
    }
  }

  const COMMAND_LEN: nat := 9

  function Zeros(n: nat): Frame {
    seq(n, _ => 0)
  }

  /** The 9-byte wire form: direction, type, sequence number, payload padded with zeros. */
  function Encode(cmd: Command, seqNo: Byte): (b: Frame)
    ensures |b| == COMMAND_LEN
  {
    var p := cmd.Payload();
    [0, cmd.TypeByte(), seqNo] + p + Zeros(6 - |p|)
  }

  lemma EncodeAt(cmd: Command, seqNo: Byte)
    ensures var b, p := Encode(cmd, seqNo), cmd.Payload();
            b[0] == 0 && b[1] == cmd.TypeByte() && b[2] == seqNo
            && forall k :: 3 <= k < COMMAND_LEN ==> b[k] == if k < 3 + |p| then p[k - 3] else 0
  {}

  /** The encoder as the source writes it, byte by byte into a zeroed buffer. */
  method EncodeInto(cmd: Command, seqNo: Byte) returns (b: array<Byte>)
    ensures fresh(b) && b[..] == Encode(cmd, seqNo)
  {
    hide Encode;
    EncodeAt(cmd, seqNo);
    b := new Byte[COMMAND_LEN](_ => 0);
    b[0] := 0x00;
    b[1] := cmd.TypeByte();
    b[2] := seqNo;
    match cmd {
      case DetectBall(on, spin) =>
        b[3] := if on then 1 else 0;
        b[4] := match spin case Standard => 0x10 case Advanced => 0x11;
      case SelectClub(club, handed) =>
        var (number, category) := club.Code();
        b[3] := number;
        b[4] := category.Code();
        b[5] := handed.Code();
      case SetUnits(speed, distance) =>
        b[4] := match speed case MetersPerSecond => 0 case MilesPerHour => 1;
        b[5] := match distance case Meter => 0 case YardFeet => 1 case YardYard => 2;
      case SetGreenSpeed(v) => b[3] := v;
      case SetCarryAdjustment(v) => b[3] := v;
      case Heartbeat =>
      case Query =>
      case RequestClubMetrics =>
    }
    assert forall k :: 0 <= k < COMMAND_LEN ==> b[k] == Encode(cmd, seqNo)[k];
  }

  /** Reads a command back from its wire form, as the device would. */
  function Decode(b: Frame): Option<(Command, Byte)> {
    if |b| != COMMAND_LEN || b[0] != 0 then None
    else
      var cmd :=
        match b[1]
        case 0x81 => if b[3] <= 1 && (b[4] == 0x10 || b[4] == 0x11)
                     then Some(DetectBall(b[3] == 1, if b[4] == 0x10 then Standard else Advanced)) else None
        case 0x82 => (match FromCode(b[3], b[4])
                      case Some(c) => if b[5] <= 1 then Some(SelectClub(c, if b[5] == 0 then Right else Left)) else None
                      case None => None)
        case 0x83 => Some(Heartbeat)
        case 0x86 => Some(Query)
        case 0x87 => Some(RequestClubMetrics)
        case 0x88 => if b[4] <= 1 && b[5] <= 2
                     then Some(SetUnits(if b[4] == 0 then MetersPerSecond else MilesPerHour,
                                        if b[5] == 0 then Meter else if b[5] == 1 then YardFeet else YardYard))
                     else None
        case 0x89 => Some(SetGreenSpeed(b[3]))
        case 0x8A => Some(SetCarryAdjustment(b[3]))
        case _ => None;
      match cmd case Some(c) => Some((c, b[2])) case None => None
  }

  /** Every command and sequence number can be read back from the wire. */
  lemma DecodeEncode(cmd: Command, seqNo: Byte)
    ensures Decode(Encode(cmd, seqNo)) == Some((cmd, seqNo))
  {
    hide FindCode, FromCode;
    var b := Encode(cmd, seqNo);
    if cmd.SelectClub? {
      CodeIdentifiesClub(b[3], b[4], cmd.club);
    }
  }

  // ------------------------------------------------------------ notifications

  /** A double: a finite value, or one of the special ones. */
  datatype F64 = Finite(r: real) | PosInf | NegInf | NaN

  datatype DeviceState = Nothing | Idle | Init | Detect | Ready | Shot | Done | Unknown(code: Byte)

  function DeviceStateFrom(v: Byte): DeviceState {
    match v
    case 0 => Nothing
    case 1 => Idle
    case 2 => Init
    case 3 => Detect
    case 4 => Ready
    case 5 => DeviceState.Shot
    case 6 => Done
    case other => Unknown(other)
  }

  datatype ChargingState = NotCharging | Discharging | Charging | Full | NoBattery | UnknownCharge

  function ChargingStateFrom(v: Byte): ChargingState {
    match v
    case 0 => NotCharging
    case 1 => Discharging
    case 2 => Charging
    case 3 => Full
    case 4 => NoBattery
    case _ => UnknownCharge
  }

  type I16 = i: int | -0x8000 <= i < 0x8000
  type I32 = i: int | -0x8000_0000 <= i < 0x8000_0000

  datatype BallMetrics = BallMetrics(
    shotType: Byte, speed: F64, launchAngle: F64, direction: F64,
    totalSpin: I16, spinAxis: F64, backSpin: I16, sideSpin: I16)

  datatype ClubMetrics = ClubMetrics(
    mask: Byte, path: Option<F64>, faceAngle: Option<F64>, attackAngle: Option<F64>, dynamicLoft: Option<F64>,
    impactHorizontal: Option<F64>, impactVertical: Option<F64>, clubSpeed: Option<F64>, smashFactor: Option<F64>)
  {
    predicate IsEmpty() {
      clubSpeed.None? && path.None? && faceAngle.None?
    }

    /** The eight fields in wire order. */
    function Fields(): (f: seq<Option<F64>>)
      ensures |f| == 8
    {
      [path, faceAngle, attackAngle, dynamicLoft, impactHorizontal, impactVertical, clubSpeed, smashFactor]
    }
  }

  datatype Sensor = Sensor(ready: bool, detected: bool, x: I32, y: I32, z: I32)

  datatype Notification =
    | SensorNote(sensor: Sensor)
    | BallNote(ball: BallMetrics)
    | HeartbeatAck(state: DeviceState)
    | AlignmentNote(angle: F64)
    | QueryResponse(payload: Frame)
    | ClubNote(club: ClubMetrics)
    | BatteryNote(percent: Byte, charging: ChargingState)
    | ClockNote(ticks: nat)

  datatype ParseError =
    | Truncated(len: nat, need: nat)
    | UnknownFamily(family: Byte)
    | UnknownNotification(kind: Byte)
    | EmptyPayload

  datatype Parsed = Parsed(note: Notification) | Malformed(error: ParseError)

  // --------------------------------------------------------- integers in bytes

  function I16At(b: Frame, off: nat): I16
    requires off + 2 <= |b|
  {
    var u: int := b[off] as int + 0x100 * b[off + 1] as int;
    if u < 0x8000 then u else u - 0x1_0000
  }

  function I32At(b: Frame, off: nat): I32
    requires off + 4 <= |b|
  {
    var u: int := b[off] as int + 0x100 * b[off + 1] as int
                  + 0x1_0000 * b[off + 2] as int + 0x100_0000 * b[off + 3] as int;
    if u < 0x8000_0000 then u else u - 0x1_0000_0000
  }

  function BigEndian(b: Frame): nat {
    if b == [] then 0 else 0x100 * BigEndian(b[..|b| - 1]) + b[|b| - 1]
  }

  /** Bit `i` of a byte. */
  predicate Bit(m: nat, i: nat) {
    if i == 0 then m % 2 == 1 else Bit(m / 2, i - 1)
  }

  // ------------------------------------------------------------------ parsing

  /** How double arithmetic rounds an exact result. */
  type Rounding = real -> real

  const CLUB_SENTINEL: int := -1

  /** A double as parsed: the correctly rounded quotient, `fp` being the rounding. */
  function Scaled(fp: Rounding, raw: I16): F64 {
    Finite(fp(raw as real / 100.0))
  }

  function ClubField(fp: Rounding, raw: I16, mask: Byte, bit: nat): Option<F64> {
    if raw == CLUB_SENTINEL || !Bit(mask, bit) then None else Some(Scaled(fp, raw))
  }

  function FieldAt(fp: Rounding, body: Frame, mask: Byte, i: nat): Option<F64> {
    if |body| < 2 * (i + 1) then None else ClubField(fp, I16At(body, 2 * i), mask, i)
  }

  function ClubFrom(fp: Rounding, mask: Byte, body: Frame): ClubMetrics {
    ClubMetrics(mask, FieldAt(fp, body, mask, 0), FieldAt(fp, body, mask, 1), FieldAt(fp, body, mask, 2),
                FieldAt(fp, body, mask, 3), FieldAt(fp, body, mask, 4), FieldAt(fp, body, mask, 5),
                FieldAt(fp, body, mask, 6), FieldAt(fp, body, mask, 7))
  }

  function Parse(fp: Rounding, data: Frame): Parsed {
    if data == [] then Malformed(EmptyPayload)
    else
      match data[0]
      case 0x91 =>
        if |data| < 3 then Malformed(Truncated(|data|, 3))
        else Parsed(BatteryNote(data[1], ChargingStateFrom(data[2])))
      case 0x71 =>
        if |data| < 9 then Malformed(Truncated(|data|, 9))
        else Parsed(ClockNote(BigEndian(data[1..9])))
      case 0x11 => Parse11(fp, data)
      case other => Malformed(UnknownFamily(other))
  }

  function Parse11(fp: Rounding, data: Frame): Parsed
    requires data != []
  {
    if |data| < 2 then Malformed(Truncated(|data|, 2))
    else
      match data[1]
      case 0x01 =>
        if |data| < 17 then Malformed(Truncated(|data|, 17))
        else Parsed(SensorNote(Sensor(data[3] == 0x01 || data[3] == 0x02, data[4] == 0x01,
                                      I32At(data, 5), I32At(data, 9), I32At(data, 13))))
      case 0x02 =>
        if |data| < 17 then Malformed(Truncated(|data|, 17))
        else Parsed(BallNote(BallMetrics(
          data[2], Scaled(fp, I16At(data, 3)), Scaled(fp, I16At(data, 5)), Scaled(fp, I16At(data, 7)),
          I16At(data, 9), Scaled(fp, I16At(data, 11)), I16At(data, 13), I16At(data, 15))))
      case 0x03 =>
        if |data| < 4 then Malformed(Truncated(|data|, 4))
        else Parsed(HeartbeatAck(DeviceStateFrom(data[3])))
      case 0x04 =>
        if |data| < 7 then Malformed(Truncated(|data|, 7))
        else Parsed(AlignmentNote(Scaled(fp, I16At(data, 5))))
      case 0x06 => Parsed(QueryResponse(data[2..]))
      case 0x07 =>
        if |data| < 3 then Malformed(Truncated(|data|, 3))
        else Parsed(ClubNote(ClubFrom(fp, data[2], data[3..])))
      case other => Malformed(UnknownNotification(other))
  }

  /** Shortest frame of each kind that the parser accepts (section 6 of
      docs/WIRE.md), or `None` for a kind it does not know. */
  function MinLength(data: Frame): Option<nat> {
    if data == [] then None
    else if data[0] == 0x91 then Some(3)
    else if data[0] == 0x71 then Some(9)
    else if data[0] != 0x11 then None
    else if |data| < 2 then Some(2)
    else
      match data[1]
      case 0x01 => Some(17)
      case 0x02 => Some(17)
      case 0x03 => Some(4)
      case 0x04 => Some(7)
      case 0x06 => Some(2)
      case 0x07 => Some(3)
      case _ => None
  }

  /** A frame parses exactly when its kind is known and it is long enough; a
      short frame of a known kind is reported as truncated, never read past its
      end; and only the empty payload reads as a teardown. */
  lemma ParseAccepts(fp: Rounding, data: Frame)
    ensures Parse(fp, data).Parsed? <==> MinLength(data).Some? && |data| >= MinLength(data).value
    ensures Parse(fp, data).Malformed? ==>
              Parse(fp, data).error == if data == [] then EmptyPayload
                                       else if MinLength(data).Some? then Truncated(|data|, MinLength(data).value)
                                       else if data[0] != 0x11 then UnknownFamily(data[0])
                                       else UnknownNotification(data[1])
  {}
}
