/** Device-side encoders: those of src/testing.rs, and for the notifications it
    has none for, the layouts of section 6 of docs/WIRE.md. */
module Encoders {
  import opened Common
  import opened Protocol

  // ------------------------------------------------------------- quantisation

  /** Nearest integer, halves away from zero. */
  function RoundAway(x: real): int {
    if x >= 0.0 then (x + 0.5).Floor else -((0.5 - x).Floor)
  }

  function ClampI16(v: int): I16 {
    if v < -0x8000 then -0x8000 else if v > 0x7fff then 0x7fff else v
  }

  /** A wire value: scaled by 100, rounded, clamped; not-a-number becomes 0. A
      finite product too large for a double is infinite, which clamps the same. */
  function Wire(fp: Rounding, value: F64): I16 {
    match value
    case NaN => 0
    case PosInf => 0x7fff
    case NegInf => -0x8000
    case Finite(r) => ClampI16(RoundAway(fp(r * 100.0)))
  }

  /** Two's complement, little-endian. */
  function Le16(v: I16): (b: Frame)
    ensures |b| == 2 && I16At(b, 0) == v
  {
    var u: int := if v < 0 then v as int + 0x1_0000 else v as int;
    [u % 0x100, u / 0x100]
  }

  function Le32(v: I32): (b: Frame)
    ensures |b| == 4 && I32At(b, 0) == v
  {
    var u: int := if v < 0 then v as int + 0x1_0000_0000 else v as int;
    var lo, hi := u % 0x1_0000, u / 0x1_0000;
    [lo % 0x100, lo / 0x100, hi % 0x100, hi / 0x100]
  }

  function Pow(base: nat, n: nat): (r: nat)
    ensures base > 0 ==> r > 0
  {
    if n == 0 then 1 else base * Pow(base, n - 1)
  }

  /** `v` in `len` bytes, most significant first. */
  function ToBigEndian(v: nat, len: nat): (b: Frame)
    ensures |b| == len
    ensures v < Pow(0x100, len) ==> BigEndian(b) == v
    decreases len
  {
    if len == 0 then []
    else
      var high := ToBigEndian(v / 0x100, len - 1);
      assert (high + [v % 0x100])[..len - 1] == high;
      high + [v % 0x100]
  }

  // ---------------------------------------------------------------- mask bits

  /** `m` with bit `i` set. */
  function SetBit(m: nat, i: nat): (r: nat)
    ensures forall j: nat :: Bit(r, j) <==> j == i || Bit(m, j)
    ensures Bit(m, i) ==> r == m
    decreases i
  {
    if i == 0 then
      var r := if m % 2 == 1 then m else m + 1;
      assert r / 2 == m / 2;
      assert forall j: nat :: j > 0 ==> Bit(r, j) == Bit(r / 2, j - 1) == Bit(m, j);
      r
    else
      var h := SetBit(m / 2, i - 1);
      var r := 2 * h + m % 2;
      assert r / 2 == h && r % 2 == m % 2;
      assert forall j: nat :: j > 0 ==> Bit(r, j) == Bit(h, j - 1) && Bit(m, j) == Bit(m / 2, j - 1);
      r
  }

  lemma SetBitBound(m: nat, i: nat, k: nat)
    requires i < k && m < Pow(2, k)
    ensures SetBit(m, i) < Pow(2, k)
  {}

  lemma EightBits(m: nat)
    ensures m < Pow(2, 8) <==> m < 0x100
  {}

  function SetMaskBit(mask: Byte, i: nat): (r: Byte)
    requires i < 8
    ensures forall j: nat :: Bit(r, j) <==> j == i || Bit(mask, j)
    ensures Bit(mask, i) ==> r == mask
  {
    SetBitBound(mask, i, 8);
    EightBits(mask);
    EightBits(SetBit(mask, i));
    SetBit(mask, i)
  }

  /** `mask` widened by one bit for every present field among the first `n`. */
  function Widen(mask: Byte, fields: seq<Option<F64>>, n: nat): (r: Byte)
    requires n <= |fields| <= 8
    ensures forall j: nat :: Bit(r, j) <==> Bit(mask, j) || (j < n && fields[j].Some?)
    ensures (forall j :: 0 <= j < n && fields[j].Some? ==> Bit(mask, j)) ==> r == mask
    decreases n
  {
    if n == 0 then mask
    else
      var m := Widen(mask, fields, n - 1);
      if fields[n - 1].None? then m else SetMaskBit(m, n - 1)
  }

  // ----------------------------------------------------------------- encoders

  function BallFrame(fp: Rounding, ball: BallMetrics): (b: Frame)
    ensures |b| == 17
  {
    [0x11, 0x02, ball.shotType]
    + Le16(Wire(fp, ball.speed)) + Le16(Wire(fp, ball.launchAngle)) + Le16(Wire(fp, ball.direction))
    + Le16(ball.totalSpin) + Le16(Wire(fp, ball.spinAxis)) + Le16(ball.backSpin) + Le16(ball.sideSpin)
  }

  /** Copies a two-byte value into a buffer. */
  method Put16(b: array<Byte>, off: nat, v: I16)
    requires off + 2 <= b.Length
    modifies b
    ensures b[..off + 2] == old(b[..off]) + Le16(v)
    ensures b[off + 2..] == old(b[off + 2..])
  {
    var w := Le16(v);
    b[off] := w[0];
    b[off + 1] := w[1];
  }

  /** The ball encoder as the source writes it, filling a zeroed buffer. */
  method BallNotification(fp: Rounding, ball: BallMetrics) returns (b: array<Byte>)
    ensures fresh(b) && b[..] == BallFrame(fp, ball)
  {
    b := new Byte[17](_ => 0);
    b[0] := 0x11;
    b[1] := 0x02;
    b[2] := ball.shotType;
    assert b[..3] == [0x11, 0x02, ball.shotType];
    Put16(b, 3, Wire(fp, ball.speed));
    Put16(b, 5, Wire(fp, ball.launchAngle));
    Put16(b, 7, Wire(fp, ball.direction));
    Put16(b, 9, ball.totalSpin);
    Put16(b, 11, Wire(fp, ball.spinAxis));
    Put16(b, 13, ball.backSpin);
    Put16(b, 15, ball.sideSpin);
    assert b[..] == b[..17];
  }

  /** The wire value of a club field: the sentinel when there is none. */
  function RawField(fp: Rounding, field: Option<F64>): I16 {
    match field
    case Some(v) => Wire(fp, v)
    case None => CLUB_SENTINEL
  }

  /** The first `n` club fields, two bytes each. */
  function Body(fp: Rounding, fields: seq<Option<F64>>, n: nat): (b: Frame)
    requires n <= |fields|
    ensures |b| == 2 * n
  {
    if n == 0 then [] else Body(fp, fields, n - 1) + Le16(RawField(fp, fields[n - 1]))
  }

  lemma BodyAt(fp: Rounding, fields: seq<Option<F64>>, n: nat, i: nat)
    requires i < n <= |fields|
    ensures I16At(Body(fp, fields, n), 2 * i) == RawField(fp, fields[i])
  {}

  function ClubFrame(fp: Rounding, club: ClubMetrics): (b: Frame)
    ensures |b| == 19
  {
    [0x11, 0x07, Widen(club.mask, club.Fields(), 8)] + Body(fp, club.Fields(), 8)
  }

  /** The head of a club frame, its mask still to come, and the first `n` fields. */
  function Partial(fp: Rounding, fields: seq<Option<F64>>, n: nat): (b: Frame)
    requires n <= |fields|
    ensures |b| == 3 + 2 * n
  {
    [0x11, 0x07, 0x00] + Body(fp, fields, n)
  }

  lemma PartialSnoc(fp: Rounding, fields: seq<Option<F64>>, n: nat)
    requires n < |fields|
    ensures Partial(fp, fields, n + 1) == Partial(fp, fields, n) + Le16(RawField(fp, fields[n]))
  {
    hide Le16, RawField;
  }

  lemma PartialWhole(fp: Rounding, club: ClubMetrics)
    ensures Partial(fp, club.Fields(), 8)[2 := Widen(club.mask, club.Fields(), 8)] == ClubFrame(fp, club)
  {
    hide Body, Widen;
  }

  /** The club encoder as the source writes it: one pass over the fields that
      fills the body and widens the mask, which is stored last. */
  method ClubNotification(fp: Rounding, club: ClubMetrics) returns (b: array<Byte>)
    ensures fresh(b) && b[..] == ClubFrame(fp, club)
  {
    hide Bit, SetMaskBit, Le16, Wire, I16At, Partial, Body;
    var fields := club.Fields();
    b := new Byte[19](_ => 0);
    b[0] := 0x11;
    b[1] := 0x07;
    var mask := club.mask;
    assert b[..3] == Partial(fp, fields, 0) by { PartialNone(fp, fields); }
    for i := 0 to 8
      invariant mask == Widen(club.mask, fields, i)
      invariant b[..3 + 2 * i] == Partial(fp, fields, i)
    {
      var raw := CLUB_SENTINEL;
      if fields[i].Some? {
        mask := SetMaskBit(mask, i);
        raw := Wire(fp, fields[i].value);
      }
      PartialSnoc(fp, fields, i);
      Put16(b, 3 + 2 * i, raw);
    }
    PartialWhole(fp, club);
    assert b[..] == b[..19];
    b[2] := mask;
  }

  lemma PartialNone(fp: Rounding, fields: seq<Option<F64>>)
    ensures Partial(fp, fields, 0) == [0x11, 0x07, 0x00]
  {}

  function StateByte(state: DeviceState): Byte {
    match state
    case Nothing => 0
    case Idle => 1
    case Init => 2
    case Detect => 3
    case Ready => 4
    case Shot => 5
    case Done => 6
    case Unknown(v) => v
  }

  function HeartbeatAckFrame(state: DeviceState): Frame {
    [0x11, 0x03, 0x85, StateByte(state), 0x04, 0x03, 0x00, 0x00, 0x00]
  }

  function QueryResponseFrame(payload: Frame): Frame {
    [0x11, 0x06] + payload
  }

  /** Section 6.1 of docs/WIRE.md. */
  function SensorFrame(counter: Byte, ready: Byte, detected: Byte, x: I32, y: I32, z: I32): Frame {
    [0x11, 0x01, counter, ready, detected] + Le32(x) + Le32(y) + Le32(z)
  }

  /** Sections 6.8 and 7: a big-endian 64-bit count. */
  function ClockFrame(ticks: nat): Frame {
    [0x71] + ToBigEndian(ticks, 8)
  }
}
