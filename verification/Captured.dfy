/** Which byte of a notification means what (section 6 of docs/WIRE.md), and frames
    as the device and the official app sent them. */
module Captured {
  import opened Common
  import opened Clubs
  import opened Protocol

  /** A signed little-endian pair. */
  function Signed(lo: Byte, hi: Byte): int {
    lo as int + 256 * hi as int - if hi >= 128 then 65536 else 0
  }

  function Hundredths(fp: Rounding, lo: Byte, hi: Byte): F64 {
    Finite(fp(Signed(lo, hi) as real / 100.0))
  }

  /** The battery's percentage is byte 1 and its charging state byte 2. */
  lemma BatteryBytes(fp: Rounding, f: Frame)
    requires |f| >= 3 && f[0] == 0x91
    ensures var p := Parse(fp, f);
            && p.Parsed? && p.note.BatteryNote? && p.note.percent == f[1]
            && (p.note.charging == NotCharging <==> f[2] == 0) && (p.note.charging == Discharging <==> f[2] == 1)
            && (p.note.charging == Charging <==> f[2] == 2) && (p.note.charging == Full <==> f[2] == 3)
            && (p.note.charging == NoBattery <==> f[2] == 4) && (p.note.charging == UnknownCharge <==> f[2] > 4)
  {}

  /** The angle is bytes 5 and 6. */
  lemma AlignmentBytes(fp: Rounding, f: Frame)
    requires |f| >= 7 && f[0] == 0x11 && f[1] == 0x04
    ensures Parse(fp, f) == Parsed(AlignmentNote(Hundredths(fp, f[5], f[6])))
  {}

  /** The state is byte 3. */
  lemma StateByteOf(fp: Rounding, f: Frame)
    requires |f| >= 4 && f[0] == 0x11 && f[1] == 0x03
    ensures var p := Parse(fp, f);
            && p.Parsed? && p.note.HeartbeatAck?
            && var st := p.note.state;
            && (st == DeviceState.Nothing <==> f[3] == 0) && (st == DeviceState.Idle <==> f[3] == 1)
            && (st == DeviceState.Init <==> f[3] == 2) && (st == DeviceState.Detect <==> f[3] == 3)
            && (st == DeviceState.Ready <==> f[3] == 4) && (st == DeviceState.Shot <==> f[3] == 5)
            && (st == DeviceState.Done <==> f[3] == 6) && (st == DeviceState.Unknown(f[3]) <==> f[3] > 6)
  {}

  /** A ball's bytes from 2 on: shot type, speed, launch angle, direction, total spin,
      spin axis, back spin, side spin. */
  lemma BallBytes(fp: Rounding, f: Frame)
    requires |f| >= 17 && f[0] == 0x11 && f[1] == 0x02
    ensures var p := Parse(fp, f);
            && p.Parsed? && p.note.BallNote?
            && var b := p.note.ball;
            && b.shotType == f[2] && b.speed == Hundredths(fp, f[3], f[4])
            && b.launchAngle == Hundredths(fp, f[5], f[6]) && b.direction == Hundredths(fp, f[7], f[8])
            && b.totalSpin == Signed(f[9], f[10])
            && b.spinAxis == Hundredths(fp, f[11], f[12])
            && b.backSpin == Signed(f[13], f[14])
            && b.sideSpin == Signed(f[15], f[16])
  {}

  /** A club's: the mask, then eight fields, each there if its mask bit is set, its
      two bytes are in the frame, and they are not both 0xff. */
  lemma ClubBytes(fp: Rounding, f: Frame)
    requires |f| >= 3 && f[0] == 0x11 && f[1] == 0x07
    ensures var p := Parse(fp, f);
            && p.Parsed? && p.note.ClubNote? && p.note.club.mask == f[2]
            && var c := p.note.club;
            && Field(fp, f, 0, c.path) && Field(fp, f, 1, c.faceAngle) && Field(fp, f, 2, c.attackAngle)
            && Field(fp, f, 3, c.dynamicLoft) && Field(fp, f, 4, c.impactHorizontal)
            && Field(fp, f, 5, c.impactVertical) && Field(fp, f, 6, c.clubSpeed) && Field(fp, f, 7, c.smashFactor)
  {
    hide Field, Bit, FieldAt;
    FieldIs(fp, f, 0);
    FieldIs(fp, f, 1);
    FieldIs(fp, f, 2);
    FieldIs(fp, f, 3);
    FieldIs(fp, f, 4);
    FieldIs(fp, f, 5);
    FieldIs(fp, f, 6);
    FieldIs(fp, f, 7);
  }

  ghost predicate Field(fp: Rounding, f: Frame, i: nat, v: Option<F64>)
    requires |f| >= 3
  {
    var at := 3 + 2 * i;
    if |f| >= at + 2 && Bit(f[2], i) && !(f[at] == 0xff && f[at + 1] == 0xff)
    then v == Some(Hundredths(fp, f[at], f[at + 1])) else v == None
  }

  lemma FieldIs(fp: Rounding, f: Frame, i: nat)
    requires |f| >= 3
    ensures Field(fp, f, i, FieldAt(fp, f[3..], f[2], i))
  {
    hide Bit;
  }

  /** A putt as the device sent it. */
  lemma CapturedPutt(fp: Rounding)
    ensures Parse(fp, [0x11, 0x02, 0x37, 0x9f, 0x00, 0x48, 0x00, 0xdc, 0xff, 0, 0, 0, 0, 0, 0, 0, 0])
         == Parsed(BallNote(BallMetrics(
              0x37, Finite(fp(1.59)), Finite(fp(0.72)), Finite(fp(-0.36)), 0, Finite(fp(0.0)), 0, 0)))
  {}

  const CHIP: Frame :=
    [0x11, 0x07, 0xff, 0xbd, 0x01, 0x2d, 0x03, 0xd6, 0x00, 0xe9, 0x0f, 0x6d, 0xf3, 0x31, 0xf9, 0x46, 0x01, 0x65, 0x00]

  /** A wedge chip's club data, all eight fields measured. */
  lemma CapturedChip(fp: Rounding)
    ensures Parse(fp, CHIP).Parsed? && Parse(fp, CHIP).note.ClubNote?
    ensures var c := Parse(fp, CHIP).note.club;
            && c.mask == 0xff && c.path == Some(Finite(fp(4.45))) && c.faceAngle == Some(Finite(fp(8.13)))
            && c.dynamicLoft == Some(Finite(fp(40.73))) && c.impactHorizontal == Some(Finite(fp(-32.19)))
            && !c.IsEmpty()
  {
    hide Parse, Bit;
    ClubBytes(fp, CHIP);
    AllBits();
  }

  lemma AllBits()
    ensures forall i :: 0 <= i < 8 ==> Bit(0xff, i)
  {
    assert Bit(0x0f, 0) && Bit(0x0f, 1) && Bit(0x0f, 2) && Bit(0x0f, 3);
    assert Bit(0xff, 4) == Bit(0x7f, 3) == Bit(0x3f, 2) == Bit(0x1f, 1) == Bit(0x0f, 0);
    assert Bit(0xff, 5) == Bit(0x7f, 4) == Bit(0x3f, 3) == Bit(0x1f, 2) == Bit(0x0f, 1);
    assert Bit(0xff, 6) == Bit(0x7f, 5) == Bit(0x3f, 4) == Bit(0x1f, 3) == Bit(0x0f, 2);
    assert Bit(0xff, 7) == Bit(0x7f, 6) == Bit(0x3f, 5) == Bit(0x1f, 4) == Bit(0x0f, 3);
  }

  /** Commands as the official app sent them. */
  lemma CapturedCommands()
    ensures Encode(Heartbeat, 0x1c) == [0x00, 0x83, 0x1c, 0, 0, 0, 0, 0, 0]
    ensures Encode(DetectBall(true, Advanced), 0x0a) == [0x00, 0x81, 0x0a, 0x01, 0x11, 0, 0, 0, 0]
    ensures Encode(SelectClub(PitchingWedge, Right), 0x06) == [0x00, 0x82, 0x06, 0x0a, 0x02, 0x00, 0, 0, 0]
    ensures Encode(RequestClubMetrics, 0x10) == [0x00, 0x87, 0x10, 0, 0, 0, 0, 0, 0]
  {}
}
