/** Substring search. */
module Text {
  import opened Common

  /** `pat` occurs in `s` at `i`. */
  predicate OccursAt(s: string, pat: string, i: int) {
    0 <= i && i + |pat| <= |s| && s[i..i + |pat|] == pat
  }

  lemma OccursInSuffix(s: string, n: nat, pat: string, i: int)
    requires n <= |s|
    ensures OccursAt(s[n..], pat, i) <==> i >= 0 && OccursAt(s, pat, n + i)
  {}

  lemma OccursInPrefix(s: string, n: nat, pat: string, i: int)
    requires n <= |s|
    ensures OccursAt(s[..n], pat, i) <==> i + |pat| <= n && OccursAt(s, pat, i)
  {}

  /** First occurrence of `pat` in `s`. */
  function Find(s: string, pat: string): (r: Option<nat>)
    ensures r.Some? ==> OccursAt(s, pat, r.value) && forall i :: i < r.value ==> !OccursAt(s, pat, i)
    ensures r.None? ==> forall i :: !OccursAt(s, pat, i)
    decreases |s|
  {
    if OccursAt(s, pat, 0) then Some(0)
    else if s == [] then None
    else
      assert forall i :: i > 0 ==> (OccursAt(s, pat, i) <==> OccursAt(s[1..], pat, i - 1)) by {
        forall i | i > 0 ensures OccursAt(s, pat, i) <==> OccursAt(s[1..], pat, i - 1) {
          OccursInSuffix(s, 1, pat, i - 1);
        }
      }
      match Find(s[1..], pat)
      case Some(i) => Some(i + 1)
      case None => None
  }

  /** Last occurrence of `pat` in `s`. */
  function FindLast(s: string, pat: string): (r: Option<nat>)
    requires pat != []
    ensures r.Some? ==> OccursAt(s, pat, r.value) && forall i :: i > r.value ==> !OccursAt(s, pat, i)
    ensures r.None? ==> forall i :: !OccursAt(s, pat, i)
    decreases |s|
  {
    if |s| < |pat| then None
    else if OccursAt(s, pat, |s| - |pat|) then Some(|s| - |pat|)
    else
      assert forall i :: OccursAt(s, pat, i) <==> OccursAt(s[..|s| - 1], pat, i) by {
        forall i ensures OccursAt(s, pat, i) <==> OccursAt(s[..|s| - 1], pat, i) {
          OccursInPrefix(s, |s| - 1, pat, i);
        }
      }
      FindLast(s[..|s| - 1], pat)
  }

  lemma OccursAtChar(s: string, c: char, i: int)
    ensures OccursAt(s, [c], i) <==> 0 <= i < |s| && s[i] == c
  {}

  lemma UpToChar(s: string, c: char)
    ensures Find(s, [c]).Some? ==> c !in s[..Find(s, [c]).value]
  {}

  /** Searching for a character finds its first place. */
  lemma FirstChar(s: string, c: char)
    ensures Find(s, [c]).Some? ==> var i := Find(s, [c]).value; i < |s| && s[i] == c && c !in s[..i]
    ensures Find(s, [c]).None? <==> c !in s
  {
    hide Find;
    UpToChar(s, c);
    if Find(s, [c]).Some? {
      OccursAtChar(s, c, Find(s, [c]).value);
    } else if c in s {
      var i :| 0 <= i < |s| && s[i] == c;
      OccursAtChar(s, c, i);
    }
  }

  /** Searching for a character skips a prefix that does not contain it. */
  lemma FindChar(a: string, c: char, b: string)
    requires c !in a
    ensures Find(a + [c] + b, [c]) == Some(|a|)
  {
    var s := a + [c] + b;
    forall i ensures OccursAt(s, [c], i) <==> 0 <= i < |s| && s[i] == c {
      OccursAtChar(s, c, i);
    }
    assert OccursAt(s, [c], |a|);
  }
}
