/** The poll client (src/client.rs): its state, every operation as a function
    on that state, and the class whose methods compute those functions. */
module Client {
  import opened Common
  import opened Clubs
  import opened Protocol
  import FirmwareScan

  datatype Event =
    | Connected(firmware: FirmwareScan.Firmware, hardware: string, deviceId: string, model: string)
    | StateChanged(state: DeviceState)
    | SensorEvent(sensor: Sensor)
    | ShotEvent(ball: BallMetrics, club: Option<ClubMetrics>)
    | Battery(percent: Byte, charging: ChargingState)
    | Clock(ticks: nat)
    | Alignment(angle: F64)

  datatype PollResult = Ok(event: Option<Event>) | Disconnected | TransportError

  datatype Phase = Connecting | Active

  /** One write to the device: the command, its bytes, whether the write succeeded. */
  datatype Attempt = Attempt(cmd: Command, bytes: Frame, ok: bool)

  /** What a shot's vertical impact is corrected by: the active club and the
      offsets by club. */
  datatype Setting = Setting(club: Option<Club>, calibration: map<Club, real>)

  /** A frame that got past duplicate suppression, with the setting in force when
      it did. */
  datatype Handled = Handled(frame: Frame, setting: Setting)

  /** Nanoseconds on the monotonic clock. */
  type Time = int

  const HEARTBEAT: Time := 5_000_000_000
  const LINK_TIMEOUT: Time := 3 * HEARTBEAT
  const UNANSWERED_HEARTBEATS: nat := 2
  const BUFFER: nat := 64

  /** The rounding of its arithmetic, the client's fields, and after them what it
      has done so far: the writes it attempted, the frames it read, those it handled,
      the events it returned. */
  datatype State = State(
    fp: Rounding,
    phase: Phase,
    seqNo: Byte,
    lastRx: Frame,
    queue: seq<Event>,
    lastHeartbeat: Time,
    interval: Time,
    lastData: Time,
    unanswered: Word32,
    timeout: Time,
    state: Option<DeviceState>,
    pending: Option<BallMetrics>,
    awaiting: bool,
    handed: Handed,
    activeClub: Option<Club>,
    calibration: map<Club, real>,
    attempts: seq<Attempt>,
    received: seq<Frame>,
    handled: seq<Handled>,
    events: seq<Event>)

  function New(fp: Rounding, now1: Time, now2: Time, calibration: map<Club, real>): State {
    State(fp, Connecting, 0, [], [], now1, HEARTBEAT, now2, 0, LINK_TIMEOUT, None, None, false, Right, None,
          calibration, [], [], [], [])
  }

  /** What a read yields: a payload (empty when the link is gone), nothing yet, or an I/O error. */
  datatype ReadOutcome = Payload(bytes: Frame) | WouldBlock | IoFailed

  /** The identity characteristics; `None` for a read that fails. */
  datatype Identity = Identity(
    firmware: Option<string>, hardware: Option<string>, deviceId: Option<string>,
    gapName: Option<string>, hint: Option<string>, queryOk: bool)

  /** What the outside world answers during one poll: the clock at the up to
      three moments it is read, the outcome of each write, and the read. */
  datatype Answers = Answers(
    t1: Time, t2: Time, t3: Time, beatOk: bool, requestOk: bool, read: ReadOutcome, identity: Identity)

  // ------------------------------------------------------------- one operation

  /** The sequence number advances before the write, so a failed write uses one up. */
  function Send(s: State, cmd: Command, ok: bool): State {
    var n: Byte := (s.seqNo + 1) % 0x100;
    s.(seqNo := n, attempts := s.attempts + [Attempt(cmd, Encode(cmd, n), ok)])
  }

  function SelectClubStep(s: State, club: Club, ok: bool): State {
    var s1 := Send(s, SelectClub(club, s.handed), ok);
    if ok then s1.(activeClub := Some(club)) else s1
  }

  function ArmStep(s: State, club: Club, spin: SpinMode, ok1: bool, ok2: bool): State {
    var s1 := SelectClubStep(s, club, ok1);
    if ok1 then Send(s1, DetectBall(true, spin), ok2) else s1
  }

  function ModelName(id: Identity): string {
    if id.gapName.Some? && id.gapName.value != "" then id.gapName.value else id.hint.GetOr("")
  }

  function ReadIdentity(s: State, a: Answers): (State, PollResult) {
    var id := a.identity;
    if id.firmware.None? || id.hardware.None? || id.deviceId.None? then (s, TransportError)
    else
      var s1 := Send(s, Query, id.queryOk);
      if !id.queryOk then (s1, TransportError)
      else
        var s2 := Send(s1.(lastHeartbeat := a.t1), Heartbeat, a.beatOk);
        if !a.beatOk then (s2, TransportError)
        else
          (s2.(lastData := a.t2, unanswered := 1),
           Ok(Some(Connected(
             FirmwareScan.Parse(id.firmware.value), id.hardware.value, id.deviceId.value, ModelName(id)))))
  }

  function SettingOf(s: State): Setting {
    Setting(s.activeClub, s.calibration)
  }

  function OffsetOf(x: Setting): Option<real> {
    if x.club.Some? && x.club.value in x.calibration then Some(x.calibration[x.club.value]) else None
  }

  function Shift(fp: Rounding, v: Option<F64>, offset: Option<real>): Option<F64> {
    match (v, offset)
    case (Some(Finite(r)), Some(o)) => Some(Finite(fp(r + o)))
    case (Some(x), Some(_)) => Some(x)
    case _ => None
  }

  function WithOffset(fp: Rounding, club: ClubMetrics, offset: Option<real>): ClubMetrics {
    club.(impactVertical := Shift(fp, club.impactVertical, offset))
  }

  function ShotOf(fp: Rounding, ball: BallMetrics, club: ClubMetrics, setting: Setting): Event {
    var c := WithOffset(fp, club, OffsetOf(setting));
    ShotEvent(ball, if c.IsEmpty() then None else Some(c))
  }

  function Handle(s: State, note: Notification, requestOk: bool): (State, PollResult) {
    match note
    case BallNote(ball) =>
      var s1 := Send(s.(pending := Some(ball), awaiting := true), RequestClubMetrics, requestOk);
      (s1, if requestOk then Ok(None) else TransportError)
    case ClubNote(club) =>
      if !s.awaiting then (s, Ok(None))
      else
        var s1 := s.(awaiting := false, pending := None);
        (s1, if s.pending.None? then Ok(None) else Ok(Some(ShotOf(s.fp, s.pending.value, club, SettingOf(s)))))
    case HeartbeatAck(state) =>
      if s.state == Some(state) then (s, Ok(None)) else (s.(state := Some(state)), Ok(Some(StateChanged(state))))
    case SensorNote(sensor) => (s, Ok(Some(SensorEvent(sensor))))
    case BatteryNote(percent, charging) => (s, Ok(Some(Battery(percent, charging))))
    case ClockNote(ticks) => (s, Ok(Some(Clock(ticks))))
    case AlignmentNote(angle) => (s, Ok(Some(Alignment(angle))))
    case QueryResponse(_) => (s, Ok(None))
  }

  /** The heartbeat, when due. A failed write leaves the timer and the count alone. */
  function Beat(s: State, a: Answers): (State, bool) {
    if a.t1 - s.lastHeartbeat >= s.interval then
      var s1 := Send(s, Heartbeat, a.beatOk);
      if a.beatOk then
        (s1.(lastHeartbeat := a.t2,
             unanswered := if s.unanswered < WORD32_SIZE - 1 then s.unanswered + 1 else s.unanswered),
         true)
      else (s1, false)
    else (s, true)
  }

  function Receive(s: State, data: Frame, a: Answers): (State, PollResult) {
    var s1 := s.(lastData := a.t3, unanswered := 0, received := s.received + [data]);
    if data == s.lastRx then (s1, Ok(None))
    else
      var s2 := s1.(lastRx := data, handled := s.handled + [Handled(data, SettingOf(s))]);
      match Parse(s.fp, data)
      case Parsed(note) => Handle(s2, note, a.requestOk)
      case Malformed(EmptyPayload) => (s2, Disconnected)
      case Malformed(_) => (s2, Ok(None))
  }

  /** The watchdog's verdict on a read that found nothing. */
  predicate LinkLost(s: State, now: Time) {
    s.unanswered >= UNANSWERED_HEARTBEATS && now - s.lastData >= s.timeout
  }

  function PollActive(s: State, a: Answers): (State, PollResult) {
    var (s1, ok) := Beat(s, a);
    if !ok then (s1, TransportError)
    else
      match a.read
      case Payload(bytes) => if bytes == [] then (s1, Disconnected) else Receive(s1, Cut(bytes, BUFFER), a)
      case WouldBlock => (s1, if LinkLost(s1, a.t3) then Disconnected else Ok(None))
      case IoFailed => (s1, TransportError)
  }

  function PollCore(s: State, a: Answers): (State, PollResult) {
    if s.queue != [] then (s.(queue := s.queue[1..]), Ok(Some(s.queue[0])))
    else if s.phase.Connecting? then
      var (s1, r) := ReadIdentity(s, a);
      (if r.Ok? then s1.(phase := Active) else s1, r)
    else PollActive(s, a)
  }

  /** One poll, with the event it returns recorded. */
  function Poll(s: State, a: Answers): (State, PollResult) {
    var (s1, r) := PollCore(s, a);
    (if r.Ok? && r.event.Some? then s1.(events := s1.events + [r.event.value]) else s1, r)
  }

  // --------------------------------------------------------- what a poll answers

  predicate BeatDue(s: State, a: Answers) {
    a.t1 - s.lastHeartbeat >= s.interval
  }

  /** The heartbeat is due and cannot be written. */
  predicate Refused(s: State, a: Answers) {
    BeatDue(s, a) && !a.beatOk
  }

  /** Nothing to read, two heartbeats or more unanswered, this poll's included, and
      no data for the length of the timeout. */
  predicate GoneQuiet(s: State, a: Answers) {
    && a.read.WouldBlock? && a.t3 - s.lastData >= s.timeout
    && s.unanswered + (if BeatDue(s, a) then 1 else 0) >= 2
  }

  /** What is read is a ball frame, new, and its club metrics cannot be asked for. */
  predicate RequestRefused(s: State, a: Answers) {
    && a.read.Payload? && !a.requestOk
    && var f := if |a.read.bytes| <= 64 then a.read.bytes else a.read.bytes[..64];
       f != s.lastRx && |f| >= 17 && f[0] == 0x11 && f[1] == 0x02
  }

  /** The answer of an active client's poll, from its fields and what the world
      answers. A zero-length read, the transport's end of link, is never missed; a
      lost link is reported without any frame, event or shot being touched. */
  lemma PollVerdict(s: State, a: Answers)
    requires s.phase.Active? && s.queue == []
    ensures var (t, r) := Poll(s, a);
            && (r.Disconnected? <==> !Refused(s, a) && (a.read == Payload([]) || GoneQuiet(s, a)))
            && (r.TransportError? <==> Refused(s, a) || a.read.IoFailed? || RequestRefused(s, a))
            && (r.Disconnected? ==>
                  && t.received == s.received && t.handled == s.handled && t.events == s.events && t.lastRx == s.lastRx
                  && t.pending == s.pending && t.awaiting == s.awaiting && t.state == s.state
                  && t.lastData == s.lastData && t.phase == s.phase && t.queue == [])
  {
    hide Encode, Receive;
    if a.read.Payload? && a.read.bytes != [] {
      ReceiveVerdict(Beat(s, a).0, Cut(a.read.bytes, BUFFER), a);
    }
  }

  lemma ReceiveVerdict(s: State, data: Frame, a: Answers)
    requires data != []
    ensures var r := Receive(s, data, a).1;
            && !r.Disconnected?
            && (r.TransportError? <==>
                  !a.requestOk && data != s.lastRx && |data| >= 17 && data[0] == 0x11 && data[1] == 0x02)
  {
    hide Encode, Scaled, I16At, I32At, BigEndian, ClubFrom;
  }

  // -------------------------------------------------------------- any operation

  /** Everything a caller can do with a client, with the world's answers. */
  datatype Action =
    | DoPoll(answers: Answers)
    | DoArm(club: Club, spin: SpinMode, ok1: bool, ok2: bool)
    | DoDisarm(ok: bool)
    | DoSelectClub(club: Club, ok: bool)
    | DoSetUnits(speed: SpeedUnit, distance: DistanceUnit, ok: bool)
    | DoSetGreenSpeed(stimpIndex: Byte, ok: bool)
    | DoSetCarryAdjustment(percent: Byte, ok: bool)
    | DoSetHanded(handed: Handed)
    | DoSetCalibration(calibration: map<Club, real>)

  function Step(s: State, action: Action): State {
    match action
    case DoPoll(a) => Poll(s, a).0
    case DoArm(club, spin, ok1, ok2) => ArmStep(s, club, spin, ok1, ok2)
    case DoDisarm(ok) => Send(s, DetectBall(false, Advanced), ok)
    case DoSelectClub(club, ok) => SelectClubStep(s, club, ok)
    case DoSetUnits(speed, distance, ok) => Send(s, SetUnits(speed, distance), ok)
    case DoSetGreenSpeed(index, ok) => Send(s, SetGreenSpeed(if index < 5 then index else 5), ok)
    case DoSetCarryAdjustment(percent, ok) => Send(s, SetCarryAdjustment(percent), ok)
    case DoSetHanded(handed) => s.(handed := handed)
    case DoSetCalibration(calibration) => s.(calibration := calibration)
  }

  function Run(s: State, actions: seq<Action>): State {
    if actions == [] then s else Step(Run(s, actions[..|actions| - 1]), actions[|actions| - 1])
  }

  // ------------------------------------------------------------------ the class

  /** Corrects vertical impact in place, or clears it when no offset is known. */
  method ApplyImpactVerticalOffset(
    fp: Rounding, club: ClubMetrics, activeClub: Option<Club>, calibration: map<Club, real>)
    returns (corrected: ClubMetrics)
    ensures corrected.impactVertical.Some? <==>
              club.impactVertical.Some? && activeClub.Some? && activeClub.value in calibration
    ensures corrected.impactVertical.Some? && club.impactVertical.value.Finite? ==>
              corrected.impactVertical
              == Some(Finite(fp(club.impactVertical.value.r + calibration[activeClub.value])))
    ensures corrected.impactVertical.Some? && !club.impactVertical.value.Finite? ==>
              corrected.impactVertical == club.impactVertical
    ensures corrected.(impactVertical := None) == club.(impactVertical := None)
    ensures corrected == WithOffset(fp, club, OffsetOf(Setting(activeClub, calibration)))
  {
    corrected := club;
    var offset := if activeClub.Some? && activeClub.value in calibration
                  then Some(calibration[activeClub.value]) else None;
    match offset {
      case Some(o) =>
        match corrected.impactVertical {
          case Some(Finite(r)) => corrected := corrected.(impactVertical := Some(Finite(fp(r + o))));
          case _ =>
        }
      case None => corrected := corrected.(impactVertical := None);
    }
  }

  class PollClient {
    const fp: Rounding
    var phase: Phase
    var seqNo: Byte
    var lastRx: Frame
    var queue: seq<Event>
    var lastHeartbeat: Time
    var interval: Time
    var lastData: Time
    var unanswered: Word32
    var timeout: Time
    var state: Option<DeviceState>
    var pending: Option<BallMetrics>
    var awaiting: bool
    var handed: Handed
    var activeClub: Option<Club>
    var calibration: map<Club, real>
    ghost var attempts: seq<Attempt>
    ghost var received: seq<Frame>
    ghost var handled: seq<Handled>
    ghost var events: seq<Event>

    ghost function View(): State
      reads this
    {
      State(fp, phase, seqNo, lastRx, queue, lastHeartbeat, interval, lastData, unanswered, timeout, state, pending,
            awaiting, handed, activeClub, calibration, attempts, received, handled, events)
    }

    constructor (fp: Rounding, now1: Time, now2: Time, calibration: map<Club, real>)
      ensures View() == New(fp, now1, now2, calibration)
    {
      this.fp := fp;
      phase, seqNo, lastRx, queue := Connecting, 0, [], [];
      lastHeartbeat, interval, lastData, unanswered, timeout := now1, HEARTBEAT, now2, 0, LINK_TIMEOUT;
      state, pending, awaiting, handed, activeClub := None, None, false, Right, None;
      this.calibration := calibration;
      attempts, received, handled, events := [], [], [], [];
    }

    method SendCommand(cmd: Command, ok: bool)
      modifies this`seqNo, this`attempts
      ensures View() == Send(old(View()), cmd, ok)
    {
      seqNo := if seqNo == 0xff then 0 else seqNo + 1;
      var bytes := EncodeInto(cmd, seqNo);
      attempts := attempts + [Attempt(cmd, bytes[..], ok)];
    }

    method Arm(club: Club, spin: SpinMode, ok1: bool, ok2: bool) returns (ok: bool)
      modifies this`seqNo, this`attempts, this`activeClub
      ensures View() == ArmStep(old(View()), club, spin, ok1, ok2) && ok == (ok1 && ok2)
    {
      SendCommand(SelectClub(club, handed), ok1);
      if !ok1 {
        return false;
      }
      activeClub := Some(club);
      SendCommand(DetectBall(true, spin), ok2);
      return ok2;
    }

    method Disarm(ok: bool)
      modifies this`seqNo, this`attempts
      ensures View() == Step(old(View()), DoDisarm(ok))
    {
      SendCommand(DetectBall(false, Advanced), ok);
    }

    method SelectActiveClub(club: Club, ok: bool)
      modifies this`seqNo, this`attempts, this`activeClub
      ensures View() == SelectClubStep(old(View()), club, ok)
    {
      SendCommand(SelectClub(club, handed), ok);
      if ok {
        activeClub := Some(club);
      }
    }

    method SetDisplayUnits(speed: SpeedUnit, distance: DistanceUnit, ok: bool)
      modifies this`seqNo, this`attempts
      ensures View() == Step(old(View()), DoSetUnits(speed, distance, ok))
    {
      SendCommand(SetUnits(speed, distance), ok);
    }

    method SetGreen(stimpIndex: Byte, ok: bool)
      modifies this`seqNo, this`attempts
      ensures View() == Step(old(View()), DoSetGreenSpeed(stimpIndex, ok))
    {
      SendCommand(SetGreenSpeed(if stimpIndex <= 5 then stimpIndex else 5), ok);
    }

    method SetCarry(percent: Byte, ok: bool)
      modifies this`seqNo, this`attempts
      ensures View() == Step(old(View()), DoSetCarryAdjustment(percent, ok))
    {
      SendCommand(SetCarryAdjustment(percent), ok);
    }

    method SetPlayerHand(handed: Handed)
      modifies this`handed
      ensures View() == Step(old(View()), DoSetHanded(handed))
    {
      this.handed := handed;
    }

    method SetCalibration(calibration: map<Club, real>)
      modifies this`calibration
      ensures View() == Step(old(View()), DoSetCalibration(calibration))
    {
      this.calibration := calibration;
    }

    method ReadIdentityNow(a: Answers) returns (r: PollResult)
      modifies this
      ensures (View(), r) == ReadIdentity(old(View()), a)
    {
      hide Send, FirmwareScan.Parse, ModelName;
      r := TransportError;
      var id := a.identity;
      if id.firmware.None? || id.hardware.None? || id.deviceId.None? { return; }
      SendCommand(Query, id.queryOk);
      if !id.queryOk { return; }
      lastHeartbeat := a.t1;
      SendCommand(Heartbeat, a.beatOk);
      if !a.beatOk { return; }
      lastData := a.t2;
      unanswered := 1;
      r := Ok(Some(Connected(
        FirmwareScan.Parse(id.firmware.value), id.hardware.value, id.deviceId.value, ModelName(id))));
    }

    method HandleNote(note: Notification, requestOk: bool) returns (r: PollResult)
      modifies this
      ensures (View(), r) == Handle(old(View()), note, requestOk)
    {
      hide Send;
      r := Ok(None);
      match note {
        case BallNote(ball) =>
          pending := Some(ball);
          awaiting := true;
          SendCommand(RequestClubMetrics, requestOk);
          if !requestOk {
            r := TransportError;
          }
        case ClubNote(club) =>
          if awaiting {
            awaiting := false;
            var taken := pending;
            pending := None;
            if taken.Some? {
              var c := ApplyImpactVerticalOffset(fp, club, activeClub, calibration);
              r := Ok(Some(ShotEvent(taken.value, if c.IsEmpty() then None else Some(c))));
            }
          }
        case HeartbeatAck(newState) =>
          if state != Some(newState) {
            state := Some(newState);
            r := Ok(Some(StateChanged(newState)));
          }
        case SensorNote(sensor) => r := Ok(Some(SensorEvent(sensor)));
        case BatteryNote(percent, charging) => r := Ok(Some(Battery(percent, charging)));
        case ClockNote(ticks) => r := Ok(Some(Clock(ticks)));
        case AlignmentNote(angle) => r := Ok(Some(Alignment(angle)));
        case QueryResponse(_) =>
      }
    }

    method HeartbeatIfDue(a: Answers) returns (ok: bool)
      modifies this
      ensures (View(), ok) == Beat(old(View()), a)
    {
      if a.t1 - lastHeartbeat >= interval {
        SendCommand(Heartbeat, a.beatOk);
        if !a.beatOk { return false; }
        lastHeartbeat := a.t2;
        unanswered := if unanswered == WORD32_SIZE - 1 then unanswered else unanswered + 1;
      }
      return true;
    }

    method ReceivePayload(data: Frame, a: Answers) returns (r: PollResult)
      modifies this
      ensures (View(), r) == Receive(old(View()), data, a)
    {
      hide Handle, Parse;
      ghost var setting := SettingOf(View());
      r := Ok(None);
      received := received + [data];
      lastData := a.t3;
      unanswered := 0;
      if data == lastRx { return; }
      handled := handled + [Handled(data, setting)];
      lastRx := data;
      match Parse(fp, data) {
        case Parsed(note) => r := HandleNote(note, a.requestOk);
        case Malformed(EmptyPayload) => r := Disconnected;
        case Malformed(_) =>
      }
    }

    method PollUnrecorded(a: Answers) returns (r: PollResult)
      modifies this
      ensures (View(), r) == PollCore(old(View()), a)
    {
      hide Beat, Receive, ReadIdentity;
      if queue != [] {
        r := Ok(Some(queue[0]));
        queue := queue[1..];
        return;
      }
      if phase == Connecting {
        r := ReadIdentityNow(a);
        if r.Ok? {
          phase := Active;
        }
        return;
      }
      var ok := HeartbeatIfDue(a);
      if !ok { return TransportError; }
      match a.read {
        case Payload(bytes) =>
          if bytes == [] { return Disconnected; }
          r := ReceivePayload(Cut(bytes, BUFFER), a);
        case WouldBlock =>
          if unanswered >= UNANSWERED_HEARTBEATS && a.t3 - lastData >= timeout { return Disconnected; }
          r := Ok(None);
        case IoFailed => r := TransportError;
      }
    }

    /** Advances the client by one poll. */
    method PollOnce(a: Answers) returns (r: PollResult)
      modifies this
      ensures (View(), r) == Poll(old(View()), a)
      ensures old(phase).Active? && old(queue) == [] ==>
                && (r.Disconnected? <==>
                      !Refused(old(View()), a) && (a.read == Payload([]) || GoneQuiet(old(View()), a)))
                && (r.TransportError? <==>
                      Refused(old(View()), a) || a.read.IoFailed? || RequestRefused(old(View()), a))
    {
      hide PollCore, GoneQuiet, Refused, RequestRefused;
      ghost var s := View();
      r := PollUnrecorded(a);
      if r.Ok? && r.event.Some? {
        events := events + [r.event.value];
      }
      if s.phase.Active? && s.queue == [] {
        PollVerdict(s, a);
      }
    }
  }
}
