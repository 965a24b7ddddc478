/** Values shared by every module, and the "drop adjacent repeats" view of a stream. */
module Common {
  type Byte = b: int | 0 <= b < 256

  /** One notification payload or one command, as bytes. */
  type Frame = seq<Byte>

  /** A 32-bit unsigned integer. */
  const WORD32_SIZE: nat := 0x1_0000_0000
  type Word32 = n: nat | n < WORD32_SIZE

  /** As much of a payload as fits a buffer. */
  function Cut(bytes: Frame, size: nat): Frame {
    if |bytes| > size then bytes[..size] else bytes
  }

  datatype Option<+T> = None | Some(value: T) {
    function GetOr(default: T): T {
      if Some? then value else default
    }
  }

  function Last<T>(s: seq<T>): Option<T> {
    if s == [] then None else Some(s[|s| - 1])
  }

  function AsSeq<T>(o: Option<T>): seq<T> {
    if o.Some? then [o.value] else []
  }

  function One(b: bool): nat {
    if b then 1 else 0
  }

  function Max(a: int, b: int): int {
    if a < b then b else a
  }

  /** `s` with every element equal to its immediate predecessor removed. */
  function Collapse<T(==)>(s: seq<T>): seq<T> {
    if s == [] then []
    else
      var n := |s| - 1;
      if n > 0 && s[n] == s[n - 1] then Collapse(s[..n]) else Collapse(s[..n]) + [s[n]]
  }

  lemma CollapseSnoc<T>(s: seq<T>, x: T)
    ensures Collapse(s + [x]) == if Last(s) == Some(x) then Collapse(s) else Collapse(s) + [x]
  {}

  function Copies<T>(x: T, n: nat): seq<T> {
    seq(n, _ => x)
  }

  ghost predicate Positive(counts: seq<nat>) {
    forall i :: 0 <= i < |counts| ==> counts[i] > 0
  }

  /** `s` with its `i`-th element sent `counts[i]` times in a row. */
  function Stutter<T>(s: seq<T>, counts: seq<nat>): seq<T>
    requires |s| == |counts|
  {
    if s == [] then []
    else
      var n := |s| - 1;
      Stutter(s[..n], counts[..n]) + Copies(s[n], counts[n])
  }

  lemma {:induction false} CollapseCopies<T>(s: seq<T>, x: T, n: nat)
    requires n > 0
    ensures Collapse(s + Copies(x, n)) == Collapse(s + [x])
    ensures Last(s + Copies(x, n)) == Some(x)
  {
    if n == 1 {
      assert Copies(x, n) == [x];
    } else {
      CollapseCopies(s, x, n - 1);
      assert s + Copies(x, n) == (s + Copies(x, n - 1)) + [x];
      CollapseSnoc(s + Copies(x, n - 1), x);
    }
  }

  lemma {:induction false} CollapseStutter<T>(s: seq<T>, counts: seq<nat>)
    requires |s| == |counts| && Positive(counts)
    ensures Collapse(Stutter(s, counts)) == Collapse(s)
    ensures Last(Stutter(s, counts)) == Last(s)
  {
    hide Collapse, Copies;
    if s != [] {
      var n := |s| - 1;
      CollapseStutter(s[..n], counts[..n]);
      var head := Stutter(s[..n], counts[..n]);
      CollapseCopies(head, s[n], counts[n]);
      CollapseSnoc(head, s[n]);
      CollapseSnoc(s[..n], s[n]);
      assert s == s[..n] + [s[n]];
    }
  }

  ghost predicate NoAdjacentRepeat<T>(s: seq<T>) {
    forall i :: 0 < i < |s| ==> s[i - 1] != s[i]
  }

  /** What `Collapse` means: a stream without adjacent repeats of which the
      input is a stutter. With `CollapseStutter` this determines it. */
  lemma {:induction false} CollapseCharacterised<T>(s: seq<T>) returns (counts: seq<nat>)
    ensures NoAdjacentRepeat(Collapse(s)) && Last(Collapse(s)) == Last(s)
    ensures |counts| == |Collapse(s)| && Positive(counts)
    ensures s == Stutter(Collapse(s), counts)
  {
    if s == [] {
      counts := [];
      assert Collapse(s) == [];
    } else {
      hide Collapse, Stutter, NoAdjacentRepeat;
      var n := |s| - 1;
      counts := CollapseCharacterised(s[..n]);
      assert s == s[..n] + [s[n]];
      CollapseSnoc(s[..n], s[n]);
      if Last(s[..n]) == Some(s[n]) {
        counts := OneMore(Collapse(s[..n]), counts);
      } else {
        StutterSnoc(Collapse(s[..n]), counts, s[n]);
        NoRepeatSnoc(Collapse(s[..n]), s[n]);
        counts := counts + [1];
      }
    }
  }

  /** A stutter that repeats its last element once more. */
  lemma OneMore<T>(s: seq<T>, counts: seq<nat>) returns (more: seq<nat>)
    requires s != [] && |counts| == |s| && Positive(counts)
    ensures |more| == |s| && Positive(more) && Stutter(s, more) == Stutter(s, counts) + [s[|s| - 1]]
  {
    var m := |s| - 1;
    more := counts[..m] + [counts[m] + 1];
    assert more[..m] == counts[..m];
    assert Copies(s[m], counts[m] + 1) == Copies(s[m], counts[m]) + [s[m]];
  }

  lemma NoRepeatSnoc<T>(s: seq<T>, x: T)
    requires NoAdjacentRepeat(s) && Last(s) != Some(x)
    ensures NoAdjacentRepeat(s + [x])
  {}

  lemma StutterSnoc<T>(s: seq<T>, counts: seq<nat>, x: T)
    requires |counts| == |s|
    ensures Stutter(s + [x], counts + [1]) == Stutter(s, counts) + [x]
  {
    assert (s + [x])[..|s|] == s && (counts + [1])[..|s|] == counts;
    assert Copies(x, 1) == [x];
  }
}
