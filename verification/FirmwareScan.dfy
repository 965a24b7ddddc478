/** The hand-written firmware scanner (`Firmware::parse` in src/client.rs). */
module FirmwareScan {
  import opened Common
  import opened Text

  const QUOTE: char := '"'

  datatype Firmware = Firmware(launcher: string, mmi: string, lm: string)

  function Quoted(key: string): string {
    [QUOTE] + key + [QUOTE]
  }

  /** The value part of the scan: past the first colon, the text between the
      next two quotes, or nothing if any of the three is missing. */
  function ValueAfter(rest: string): (v: string)
    ensures QUOTE !in v
    ensures v != [] ==> exists i, j :: 0 <= i <= j <= |rest| && v == rest[i..j]
  {
    match Find(rest, ":")
    case None => ""
    case Some(colon) =>
      var rest1 := rest[colon + 1..];
      match Find(rest1, [QUOTE])
      case None => ""
      case Some(open) =>
        var rest2 := rest1[open + 1..];
        match Find(rest2, [QUOTE])
        case None => ""
        case Some(close) =>
          UpToChar(rest2, QUOTE);
          var from := colon + 1 + open + 1;
          assert rest2[..close] == rest[from..from + close];
          rest2[..close]
  }

  /** The value of `key`, or the empty string. */
  function Field(s: string, key: string): (v: string)
    ensures QUOTE !in v
  {
    match Find(s, Quoted(key))
    case None => ""
    case Some(start) => ValueAfter(s[start + |Quoted(key)|..])
  }

  function Parse(s: string): Firmware {
    Firmware(Field(s, "launcher"), Field(s, "mmi"), Field(s, "lm"))
  }

  // -------------------------------------------- text as segments between quotes

  predicate HasColon(s: string) {
    ':' in s
  }

  ghost predicate QuoteFree(segs: seq<string>) {
    forall i :: 0 <= i < |segs| ==> QUOTE !in segs[i]
  }

  /** Segments joined by quotes; every text is such a join. */
  function Join(segs: seq<string>): string
    requires segs != []
  {
    if |segs| == 1 then segs[0] else segs[0] + [QUOTE] + Join(segs[1..])
  }

  lemma Join2(segs: seq<string>)
    requires |segs| > 1
    ensures Join(segs) == segs[0] + [QUOTE] + Join(segs[1..])
    ensures |segs| > 2 ==> Join(segs[1..]) == segs[1] + [QUOTE] + Join(segs[2..])
  {}

  /** A quoted key starts at a quote, so never inside a segment. */
  lemma QuotedOccurs(head: string, tail: string, key: string, p: int)
    requires QUOTE !in head
    ensures OccursAt(head + [QUOTE] + tail, Quoted(key), p)
       <==> (p == |head| && key + [QUOTE] <= tail) || (p > |head| && OccursAt(tail, Quoted(key), p - |head| - 1))
  {
    var s, pat := head + [QUOTE] + tail, Quoted(key);
    assert s[|head| + 1..] == tail;
    OccursInSuffix(s, |head| + 1, pat, p - |head| - 1);
    if OccursAt(s, pat, p) && p <= |head| {
      assert s[p] == s[p..p + |pat|][0] == QUOTE;
    }
    if p == |head| && p + |pat| <= |s| {
      assert s[p..p + |pat|] == [QUOTE] + tail[..|key| + 1];
      assert pat == [QUOTE] + (key + [QUOTE]);
      assert pat[1..] == key + [QUOTE];
      if s[p..p + |pat|] == pat {
        assert tail[..|key| + 1] == s[p..p + |pat|][1..] == key + [QUOTE];
      }
    }
  }

  /** A quoted text is a prefix only as a whole segment. */
  lemma SegmentPrefix(seg: string, tail: string, key: string)
    requires QUOTE !in seg && QUOTE !in key
    ensures key + [QUOTE] <= seg + [QUOTE] + tail <==> key == seg
  {
    var s, k := seg + [QUOTE] + tail, key + [QUOTE];
    assert forall i :: 0 <= i < |seg| ==> s[i] == seg[i];
    if k <= s {
      assert forall i :: 0 <= i < |k| ==> s[i] == k[i];
      assert s[|key|] == QUOTE && s[|seg|] == QUOTE;
      assert |key| == |seg|;
      assert forall i :: 0 <= i < |key| ==> key[i] == k[i] == seg[i];
    }
  }

  /** A quoted key is found at the first inner segment that equals it. */
  lemma {:induction false} FindKey(segs: seq<string>, key: string, i: nat)
    requires QuoteFree(segs) && QUOTE !in key
    requires 0 < i < |segs| - 1 && segs[i] == key && forall j :: 0 < j < i ==> segs[j] != key
    ensures Find(Join(segs), Quoted(key)).Some?
    ensures Join(segs)[Find(Join(segs), Quoted(key)).value + |Quoted(key)|..] == Join(segs[i + 1..])
  {
    hide Find, Join;
    var s, pat, head, tail := Join(segs), Quoted(key), segs[0], Join(segs[1..]);
    Join2(segs);
    forall p {
      QuotedOccurs(head, tail, key, p);
    }
    SegmentPrefix(segs[1], Join(segs[2..]), key);
    if i == 1 {
      assert OccursAt(s, pat, |head|);
      assert s[|head| + |pat|..] == Join(segs[2..]);
    } else {
      FindKey(segs[1..], key, i - 1);
      assert segs[1..][i..] == segs[i + 1..];
      var q := Find(tail, pat).value;
      assert OccursAt(s, pat, |head| + 1 + q);
      var p := Find(s, pat).value;
      assert p == |head| + 1 + q by {
        if p > |head| { assert OccursAt(tail, pat, p - |head| - 1); }
      }
      assert s[p + |pat|..] == tail[q + |pat|..];
    }
  }

  /** The value scan reads the segment after the first one that has a colon. */
  lemma {:induction false} ValueOfSegments(segs: seq<string>, i: nat)
    requires QuoteFree(segs) && i + 2 < |segs|
    requires HasColon(segs[i]) && forall j :: 0 <= j < i ==> !HasColon(segs[j])
    ensures ValueAfter(Join(segs)) == segs[i + 1]
    decreases i
  {
    hide Find, Join;
    var s := Join(segs);
    Join2(segs);
    if i == 0 {
      ColonIn(segs[0], segs[1] + [QUOTE] + Join(segs[2..]));
      FindChar(segs[1], QUOTE, Join(segs[2..]));
      assert segs[1] == (segs[1] + [QUOTE] + Join(segs[2..]))[..|segs[1]|];
    } else {
      var tail, n := Join(segs[1..]), |segs[0]| + 1;
      ValueOfSegments(segs[1..], i - 1);
      NoColonIn(segs[0] + [QUOTE], tail);
    }
  }

  /** The scan up to the opening quote, when the first segment has the colon. */
  lemma ColonIn(seg: string, value: string)
    requires QUOTE !in seg && ':' in seg
    ensures var s := seg + [QUOTE] + value; var colon := Find(s, ":");
            colon.Some? && Find(s[colon.value + 1..], [QUOTE]).Some? &&
            s[colon.value + 1..][Find(s[colon.value + 1..], [QUOTE]).value + 1..] == value
  {
    hide Find, OccursAt;
    FirstChar(seg, ':');
    var c := Find(seg, ":").value;
    var before, after := seg[..c], seg[c + 1..];
    var rest := after + [QUOTE] + value;
    var s := seg + [QUOTE] + value;
    assert s == before + [':'] + rest;
    FindChar(before, ':', rest);
    assert s[c + 1..] == rest;
    FindChar(after, QUOTE, value);
    assert rest[|after| + 1..] == value;
  }

  lemma NoColonIn(head: string, tail: string)
    requires ':' !in head
    ensures ValueAfter(head + tail) == ValueAfter(tail)
  {
    hide Find, OccursAt;
    FindPast(head, tail);
    if Find(tail, ":").Some? {
      var q := Find(tail, ":").value;
      assert (head + tail)[|head| + q + 1..] == tail[q + 1..];
    }
  }

  /** The first colon is past a text that has none. */
  lemma FindPast(head: string, tail: string)
    requires ':' !in head
    ensures Find(head + tail, ":")
         == match Find(tail, ":") case Some(q) => Some(|head| + q) case None => None
    ensures Find(tail, ":").Some? ==> Find(tail, ":").value < |tail|
  {
    hide Find, OccursAt;
    FirstChar(tail, ':');
    if Find(tail, ":").Some? {
      PastIs(head, tail, Find(tail, ":").value);
    } else {
      assert ':' !in head + tail;
      FirstChar(head + tail, ':');
    }
  }

  lemma PastIs(head: string, tail: string, q: nat)
    requires ':' !in head && q < |tail| && tail[q] == ':' && ':' !in tail[..q]
    ensures Find(head + tail, ":") == Some(|head| + q)
  {
    hide *;
    var start, after := tail[..q], tail[q + 1..];
    assert tail == start + [':'] + after;
    Regroup(head, start, [':'], after);
    NotInEither(':', head, start);
    FindChar(head + start, ':', after);
  }

  lemma Regroup(a: string, b: string, c: string, d: string)
    ensures a + (b + c + d) == (a + b) + c + d
  {}

  lemma NotInEither(c: char, a: string, b: string)
    requires c !in a && c !in b
    ensures c !in a + b
  {}

  // ------------------------------------------------------- the device's object

  /** The separators a JSON writer may choose: `{`, `:`, `,` and `}` with any
      quote-free padding. */
  datatype Layout = Layout(open: string, colon: string, comma: string, close: string) {
    ghost predicate Valid() {
      && QUOTE !in open && QUOTE !in colon && QUOTE !in comma && QUOTE !in close
      && ':' in colon && ',' in comma && ':' !in comma
    }
  }

  const COMPACT := Layout("{", ":", ",", "}")
  const SPACED := Layout("{", ": ", ", ", "}")

  function Segments(l: Layout, k1: string, v1: string, k2: string, v2: string, k3: string, v3: string): seq<string> {
    [l.open, k1, l.colon, v1, l.comma, k2, l.colon, v2, l.comma, k3, l.colon, v3, l.close]
  }

  function Render(l: Layout, f: Firmware): string {
    Join(Segments(l, "launcher", f.launcher, "mmi", f.mmi, "lm", f.lm))
  }

  /** Reading `key` back when its first match is segment `at`, and the first
      colon after that is in segment `colon`. */
  lemma FieldOfSegments(segs: seq<string>, key: string, at: nat, colon: nat)
    requires QuoteFree(segs) && QUOTE !in key
    requires 0 < at < colon && colon + 2 < |segs|
    requires segs[at] == key && forall j :: 0 < j < at ==> segs[j] != key
    requires HasColon(segs[colon]) && forall j :: at < j < colon ==> !HasColon(segs[j])
    ensures Field(Join(segs), key) == segs[colon + 1]
  {
    hide Find, Join, ValueAfter, Quoted, HasColon, OccursAt;
    FindKey(segs, key, at);
    var rest, n := segs[at + 1..], colon - at - 1;
    assert QuoteFree(rest);
    assert forall j :: 0 <= j < |rest| ==> rest[j] == segs[at + 1 + j];
    ValueOfSegments(rest, n);
    assert rest[n + 1] == segs[colon + 1];
    assert Field(Join(segs), key) == ValueAfter(Join(rest));
  }

  /** A key or separator cannot be mistaken for another. */
  ghost predicate Key(k: string) {
    QUOTE !in k && ':' !in k && ',' !in k
  }

  lemma FieldsOfObject(l: Layout, k1: string, v1: string, k2: string, v2: string, k3: string, v3: string)
    requires l.Valid() && Key(k1) && Key(k2) && Key(k3) && k1 != k2 && k1 != k3 && k2 != k3
    requires QUOTE !in v1 && QUOTE !in v2 && QUOTE !in v3
    ensures var s := Join(Segments(l, k1, v1, k2, v2, k3, v3));
            Field(s, k1) == v1 && Field(s, k2) == v2 && Field(s, k3) == if v1 == k3 then v2 else v3
  {
    hide Field, Join;
    var segs := Segments(l, k1, v1, k2, v2, k3, v3);
    assert QuoteFree(segs) by {
      assert QUOTE !in l.open && QUOTE !in l.colon && QUOTE !in l.comma && QUOTE !in l.close;
    }
    FieldOfSegments(segs, k1, 1, 2);
    FieldOfSegments(segs, k2, if v1 == k2 then 3 else 5, 6);
    if v1 == k3 {
      FieldOfSegments(segs, k3, 3, 6);
    } else {
      FieldOfSegments(segs, k3, if v2 == k3 then 7 else 9, 10);
    }
  }

  /** The scanner against the rendered object, for values free of quotes and any
      layout. The launcher and MMI versions always come back. The launch
      monitor's comes back exactly when the launcher value is not the text `lm`
      (unless the MMI value, which is then read instead, happens to equal it);
      a value equal to `mmi`, or an MMI value equal to `lm`, does no harm. */
  lemma FirmwareRoundTrip(l: Layout, f: Firmware)
    requires l.Valid() && QUOTE !in f.launcher && QUOTE !in f.mmi && QUOTE !in f.lm
    ensures Parse(Render(l, f)).launcher == f.launcher && Parse(Render(l, f)).mmi == f.mmi
    ensures Parse(Render(l, f)).lm == if f.launcher == "lm" then f.mmi else f.lm
    ensures Parse(Render(l, f)) == f <==> f.launcher != "lm" || f.mmi == f.lm
  {
    hide Field, Join;
    FieldsOfObject(l, "launcher", f.launcher, "mmi", f.mmi, "lm", f.lm);
  }

  /** A launcher version of `lm` makes the scanner report the MMI's version. */
  lemma FirmwareConfusion()
    ensures Parse(Render(COMPACT, Firmware("lm", "1.4.0", "1.5.8"))) == Firmware("lm", "1.4.0", "1.4.0")
  {
    hide Field, Join;
    FirmwareRoundTrip(COMPACT, Firmware("lm", "1.4.0", "1.5.8"));
  }

  lemma KnownLayouts()
    ensures COMPACT.Valid() && SPACED.Valid()
  {}
}
