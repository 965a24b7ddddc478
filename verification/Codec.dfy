/** The parser and the encoders undo each other, whatever the rounding. */
module Codec {
  import opened Common
  import opened Protocol
  import opened Encoders

  /** 2^-53. */
  const EPS: real := 1.0 / 9007199254740992.0

  function Abs(x: real): real {
    if x < 0.0 then -x else x
  }

  /** What round-to-nearest binary64 arithmetic promises (section 4.3.1 of
      IEEE 754-2019): a relative error of at most 2^-53, and near zero, where
      doubles are subnormal, an absolute error far below 2^-53. Nothing else is
      assumed of `fp`. */
  ghost predicate CorrectlyRounded(fp: Rounding) {
    forall x :: Abs(fp(x) - x) <= EPS * (Abs(x) + 1.0)
  }

  lemma RoundingError(fp: Rounding, x: real)
    requires CorrectlyRounded(fp)
    ensures Abs(fp(x) - x) <= 0.000001 * (Abs(x) + 1.0)
  {}

  lemma RoundsTo(z: real, i: I16)
    requires Abs(z - i as real) < 0.25
    ensures ClampI16(RoundAway(z)) == i
  {}

  /** Dividing a wire value by 100 and scaling it back survives both roundings. */
  lemma WireOfScaled(fp: Rounding, i: I16)
    requires CorrectlyRounded(fp)
    ensures Wire(fp, Scaled(fp, i)) == i
  {
    hide CorrectlyRounded, RoundAway;
    var x := i as real / 100.0;
    var y := fp(x);
    RoundingError(fp, x);
    RoundingError(fp, y * 100.0);
    RoundsTo(fp(y * 100.0), i);
  }

  /** A double on the wire grid: what parsing some 16-bit value yields. */
  ghost predicate OnGrid(fp: Rounding, v: F64) {
    exists i: I16 :: v == Scaled(fp, i)
  }

  /** A value survives the wire exactly when it is on the grid. */
  lemma ScaledOfWire(fp: Rounding, v: F64)
    requires CorrectlyRounded(fp)
    ensures Scaled(fp, Wire(fp, v)) == v <==> OnGrid(fp, v)
  {
    if OnGrid(fp, v) {
      var i: I16 :| v == Scaled(fp, i);
      WireOfScaled(fp, i);
    }
  }

  /** Out-of-range values saturate, not-a-number becomes zero. */
  lemma WireSaturates(fp: Rounding, v: F64)
    requires CorrectlyRounded(fp)
    ensures v == PosInf || (v.Finite? && v.r >= 327.67) ==> Wire(fp, v) == 0x7fff
    ensures v == NegInf || (v.Finite? && v.r <= -327.68) ==> Wire(fp, v) == -0x8000
    ensures v == NaN ==> Wire(fp, v) == 0
  {
    if v.Finite? {
      var y := v.r * 100.0;
      RoundingError(fp, y);
    }
  }

  /** Within the range of the wire, what is written is a nearest wire value: off by
      no more than half a unit and the error of the one product. */
  lemma WireIsNearest(fp: Rounding, r: real)
    requires CorrectlyRounded(fp) && -327.0 <= r <= 327.0
    ensures Abs(Wire(fp, Finite(r)) as real - r * 100.0) <= 0.5 + EPS * (Abs(r * 100.0) + 1.0)
  {
    hide CorrectlyRounded;
    var x := r * 100.0;
    var z := fp(x);
    assert Abs(z - x) <= EPS * (Abs(x) + 1.0) by { WithinEps(fp, x); }
    RoundingError(fp, x);
    HalfUnit(z);
  }

  lemma WithinEps(fp: Rounding, x: real)
    requires CorrectlyRounded(fp)
    ensures Abs(fp(x) - x) <= EPS * (Abs(x) + 1.0)
  {}

  /** Rounding moves a number by half a unit at most, and a half away from zero. */
  lemma HalfUnit(z: real)
    ensures Abs(RoundAway(z) as real - z) <= 0.5
    ensures Abs(RoundAway(z) as real - z) == 0.5 ==> Abs(RoundAway(z) as real) > Abs(z)
    ensures Abs(z) <= 32767.0 ==> ClampI16(RoundAway(z)) == RoundAway(z)
  {}

  lemma Le16OfI16At(b: Frame, off: nat)
    requires off + 2 <= |b|
    ensures Le16(I16At(b, off)) == b[off..off + 2]
  {}

  // --------------------------------------------------------------- ball codec

  /** Decoding then encoding a ball frame gives the same 17 bytes. */
  lemma BallFrameRoundTrip(fp: Rounding, f: Frame)
    requires CorrectlyRounded(fp)
    requires |f| == 17 && f[0] == 0x11 && f[1] == 0x02
    ensures Parse(fp, f).Parsed? && Parse(fp, f).note.BallNote?
    ensures BallFrame(fp, Parse(fp, f).note.ball) == f
  {
    hide Le16, I16At, Wire, Scaled;
    var ball := Parse(fp, f).note.ball;
    WireOfScaled(fp, I16At(f, 3));
    WireOfScaled(fp, I16At(f, 5));
    WireOfScaled(fp, I16At(f, 7));
    WireOfScaled(fp, I16At(f, 11));
    forall k | k in {3, 5, 7, 9, 11, 13, 15} ensures Le16(I16At(f, k)) == f[k..k + 2] {
      Le16OfI16At(f, k);
    }
    assert f == f[..3] + f[3..5] + f[5..7] + f[7..9] + f[9..11] + f[11..13] + f[13..15] + f[15..17];
    assert f[..3] == [0x11, 0x02, ball.shotType];
  }

  ghost predicate BallOnGrid(fp: Rounding, b: BallMetrics) {
    OnGrid(fp, b.speed) && OnGrid(fp, b.launchAngle) && OnGrid(fp, b.direction) && OnGrid(fp, b.spinAxis)
  }

  /** What arrives when ball metrics are sent: each angle and the speed as
      quantised by the wire, the rest untouched. */
  lemma BallFrameParses(fp: Rounding, b: BallMetrics)
    ensures Parse(fp, BallFrame(fp, b)) == Parsed(BallNote(b.(
              speed := Scaled(fp, Wire(fp, b.speed)), launchAngle := Scaled(fp, Wire(fp, b.launchAngle)),
              direction := Scaled(fp, Wire(fp, b.direction)), spinAxis := Scaled(fp, Wire(fp, b.spinAxis)))))
  {
    hide Wire, Scaled;
  }

  /** Arbitrary ball metrics survive the wire exactly when they are on its
      grid; encoding what was parsed back changes nothing further. */
  lemma BallMetricsRoundTrip(fp: Rounding, b: BallMetrics)
    requires CorrectlyRounded(fp)
    ensures Parse(fp, BallFrame(fp, b)) == Parsed(BallNote(b)) <==> BallOnGrid(fp, b)
    ensures BallFrame(fp, Parse(fp, BallFrame(fp, b)).note.ball) == BallFrame(fp, b)
  {
    hide Wire, Scaled;
    BallFrameParses(fp, b);
    ScaledOfWire(fp, b.speed);
    ScaledOfWire(fp, b.launchAngle);
    ScaledOfWire(fp, b.direction);
    ScaledOfWire(fp, b.spinAxis);
    BallFrameRoundTrip(fp, BallFrame(fp, b));
  }

  // --------------------------------------------------------------- club codec

  /** A club field after a trip over the wire with its mask bit as given. */
  function Received(fp: Rounding, field: Option<F64>, covered: bool): Option<F64> {
    if !covered || RawField(fp, field) == CLUB_SENTINEL then None else Some(Scaled(fp, RawField(fp, field)))
  }

  lemma FieldAtBody(fp: Rounding, mask: Byte, fields: seq<Option<F64>>, i: nat)
    requires i < 8 == |fields|
    ensures FieldAt(fp, Body(fp, fields, 8), mask, i) == Received(fp, fields[i], Bit(mask, i))
  {
    BodyAt(fp, fields, 8, i);
  }

  lemma ClubFrameParses(fp: Rounding, c: ClubMetrics) returns (r: ClubMetrics)
    ensures Parse(fp, ClubFrame(fp, c)) == Parsed(ClubNote(r))
    ensures r.mask == Widen(c.mask, c.Fields(), 8)
    ensures forall i :: 0 <= i < 8 ==> r.Fields()[i] == Received(fp, c.Fields()[i], Bit(r.mask, i))
  {
    hide Body, Received, Bit, Widen, FieldAt;
    var f := ClubFrame(fp, c);
    r := Parse(fp, f).note.club;
    assert f[3..] == Body(fp, c.Fields(), 8);
    forall i | 0 <= i < 8 ensures r.Fields()[i] == Received(fp, c.Fields()[i], Bit(r.mask, i)) {
      FieldAtBody(fp, r.mask, c.Fields(), i);
    }
  }

  lemma SameFields(a: ClubMetrics, b: ClubMetrics)
    requires a.mask == b.mask && forall i :: 0 <= i < 8 ==> a.Fields()[i] == b.Fields()[i]
    ensures a == b
  {
    assert a.Fields()[0] == b.Fields()[0] && a.Fields()[1] == b.Fields()[1];
    assert a.Fields()[2] == b.Fields()[2] && a.Fields()[3] == b.Fields()[3];
    assert a.Fields()[4] == b.Fields()[4] && a.Fields()[5] == b.Fields()[5];
    assert a.Fields()[6] == b.Fields()[6] && a.Fields()[7] == b.Fields()[7];
  }

  /** A field that can come off the wire: covered by the mask, on the grid, and
      not the value the device uses for "not measured". */
  ghost predicate Deliverable(fp: Rounding, field: Option<F64>, covered: bool) {
    field.Some? ==> covered && OnGrid(fp, field.value) && field.value != Scaled(fp, CLUB_SENTINEL)
  }

  lemma ReceivedIsSent(fp: Rounding, field: Option<F64>, covered: bool)
    requires CorrectlyRounded(fp)
    requires field.Some? ==> covered
    ensures Received(fp, field, covered) == field <==> Deliverable(fp, field, covered)
  {
    if field.Some? {
      ScaledOfWire(fp, field.value);
      WireOfScaled(fp, CLUB_SENTINEL);
    }
  }

  /** Club metrics survive the wire exactly when the mask already covers every
      measured field and each measured value is on the grid and is not the
      sentinel. */
  lemma ClubMetricsRoundTrip(fp: Rounding, c: ClubMetrics)
    requires CorrectlyRounded(fp)
    ensures Parse(fp, ClubFrame(fp, c)) == Parsed(ClubNote(c))
       <==> forall i :: 0 <= i < 8 ==> Deliverable(fp, c.Fields()[i], Bit(c.mask, i))
  {
    hide Received, Deliverable, Bit, Parse, ClubFrame;
    var r := ClubFrameParses(fp, c);
    forall i | 0 <= i < 8
      ensures c.Fields()[i].Some? ==> Bit(r.mask, i)
      ensures r.Fields()[i] == c.Fields()[i] <==> Deliverable(fp, c.Fields()[i], Bit(r.mask, i))
    {
      ReceivedIsSent(fp, c.Fields()[i], Bit(r.mask, i));
    }
    if r == c {
      forall i | 0 <= i < 8 ensures Deliverable(fp, c.Fields()[i], Bit(c.mask, i)) {
        assert r.Fields()[i] == c.Fields()[i];
      }
    }
    if forall i :: 0 <= i < 8 ==> Deliverable(fp, c.Fields()[i], Bit(c.mask, i)) {
      forall i | 0 <= i < 8 && c.Fields()[i].Some? ensures Bit(c.mask, i) {
        DeliverableIsCovered(fp, c.Fields()[i], Bit(c.mask, i));
      }
      assert r.mask == c.mask;
      SameFields(r, c);
    }
  }

  /** That the mask covers the measured fields is not enough: a path of -0.01
      degrees, covered by bit 0, goes out as the sentinel and comes back as not
      measured. */
  lemma CoveringMaskIsNotEnough(fp: Rounding)
    requires CorrectlyRounded(fp)
    ensures var c := ClubMetrics(1, Some(Scaled(fp, -1)), None, None, None, None, None, None, None);
            && (forall i :: 0 <= i < 8 && c.Fields()[i].Some? ==> Bit(c.mask, i))
            && Parse(fp, ClubFrame(fp, c)) != Parsed(ClubNote(c))
  {
    hide Parse, ClubFrame;
    var c := ClubMetrics(1, Some(Scaled(fp, -1)), None, None, None, None, None, None, None);
    ClubMetricsRoundTrip(fp, c);
    assert !Deliverable(fp, c.Fields()[0], Bit(c.mask, 0));
  }

  lemma DeliverableIsCovered(fp: Rounding, field: Option<F64>, covered: bool)
    requires Deliverable(fp, field, covered) && field.Some?
    ensures covered
  {}

  /** Everything the parser produces is deliverable, from a frame of any length. */
  lemma ParsedFieldDeliverable(fp: Rounding, body: Frame, mask: Byte, i: nat)
    requires CorrectlyRounded(fp)
    ensures Deliverable(fp, FieldAt(fp, body, mask, i), Bit(mask, i))
  {
    if FieldAt(fp, body, mask, i).Some? {
      var raw := I16At(body, 2 * i);
      WireOfScaled(fp, raw);
      WireOfScaled(fp, CLUB_SENTINEL);
    }
  }

  /** For every club frame the parser accepts, short and odd bodies included:
      encoding what was parsed and parsing it again gives the same metrics, so
      encode-after-parse is idempotent on frames. */
  lemma ClubFrameRetraction(fp: Rounding, f: Frame)
    requires CorrectlyRounded(fp)
    requires |f| >= 3 && f[0] == 0x11 && f[1] == 0x07
    ensures Parse(fp, f).Parsed? && Parse(fp, f).note.ClubNote?
    ensures Parse(fp, ClubFrame(fp, Parse(fp, f).note.club)) == Parse(fp, f)
  {
    var c := Parse(fp, f).note.club;
    hide Deliverable, Bit, FieldAt, ClubFrame;
    forall i | 0 <= i < 8 ensures Deliverable(fp, c.Fields()[i], Bit(c.mask, i)) {
      ParsedFieldDeliverable(fp, f[3..], f[2], i);
    }
    ClubMetricsRoundTrip(fp, c);
  }

  // ------------------------------------------------------ other notifications

  /** A state survives unless it is an out-of-range value that is in range. */
  lemma HeartbeatAckRoundTrip(fp: Rounding, s: DeviceState)
    ensures Parse(fp, HeartbeatAckFrame(s)) == Parsed(HeartbeatAck(s)) <==> !(s.Unknown? && s.code <= 6)
  {}

  lemma QueryResponseRoundTrip(fp: Rounding, payload: Frame)
    ensures Parse(fp, QueryResponseFrame(payload)) == Parsed(QueryResponse(payload))
  {}

  /** Section 6.1 of docs/WIRE.md: the flags and the three signed coordinates. */
  lemma SensorRoundTrip(fp: Rounding, counter: Byte, ready: Byte, detected: Byte, x: I32, y: I32, z: I32)
    ensures Parse(fp, SensorFrame(counter, ready, detected, x, y, z))
         == Parsed(SensorNote(Sensor(ready in {1, 2}, detected == 1, x, y, z)))
  {}

  lemma EightBytes()
    ensures Pow(0x100, 8) == 0x1_0000_0000_0000_0000
  {
    assert Pow(0x100, 4) == 0x1_0000_0000;
  }

  /** The clock is big-endian, unlike everything else on the wire. */
  lemma ClockRoundTrip(fp: Rounding, ticks: nat)
    requires ticks < 0x1_0000_0000_0000_0000
    ensures Parse(fp, ClockFrame(ticks)) == Parsed(ClockNote(ticks))
  {
    hide Pow, BigEndian, ToBigEndian;
    EightBytes();
    assert ClockFrame(ticks)[1..9] == ToBigEndian(ticks, 8);
  }
}
