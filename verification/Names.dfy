/** Advertised names and device pins (src/protocol.rs, src/ble.rs). */
module Names {
  import opened Common
  import opened Text

  const NAME_PREFIX: string := "SquareGolf"
  const OMNI_GAP_NAME: string := "SGO300A"

  /** The part after the last ` [`, when the text ends in `]`; else all of it. */
  function Bracketed(reported: string): string {
    if reported == [] || reported[|reported| - 1] != ']' then reported
    else
      var s := reported[..|reported| - 1];
      match FindLast(s, " [")
      case Some(i) => s[i + 2..]
      case None => reported
  }

  function AdvertisedName(reported: string): Option<string> {
    var advertised := Bracketed(reported);
    if NAME_PREFIX <= advertised then Some(advertised) else None
  }

  ghost predicate Contains(s: string, pat: string) {
    exists i :: OccursAt(s, pat, i)
  }

  /** A name that a stack can report bare or in brackets. */
  ghost predicate Plain(n: string) {
    NAME_PREFIX <= n && !Contains(n, " [")
  }

  /** A plain name is recovered from itself and from any cached GAP name that
      is followed by it in brackets. */
  lemma NameRecovered(gap: string, n: string)
    requires Plain(n)
    ensures AdvertisedName(n) == Some(n)
    ensures AdvertisedName(gap + " [" + n + "]") == Some(n)
  {
    if n[|n| - 1] == ']' {
      var s := n[..|n| - 1];
      forall i ensures !OccursAt(s, " [", i) {
        OccursInPrefix(n, |n| - 1, " [", i);
      }
    }
    var r := gap + " [" + n + "]";
    var s := r[..|r| - 1];
    assert s == gap + " [" + n && s[|gap| + 2..] == n;
    assert s[|gap|..|gap| + 2] == " [";
    assert OccursAt(s, " [", |gap|);
    forall i | i > |gap| ensures !OccursAt(s, " [", i) {
      if OccursAt(s, " [", i) {
        assert s[i] == s[i..i + 2][0] == ' ';
        OccursInSuffix(s, |gap| + 2, " [", i - |gap| - 2);
      }
    }
  }

  /** What is extracted is a suffix-in-brackets or the whole text, and extracting
      again changes nothing. */
  lemma NameIdempotent(reported: string)
    ensures var n := AdvertisedName(reported); n.Some? ==> AdvertisedName(n.value) == n
  {
    if AdvertisedName(reported).Some? {
      var n := AdvertisedName(reported).value;
      if n != reported {
        var s := reported[..|reported| - 1];
        var at := FindLast(s, " [").value;
        forall i ensures !OccursAt(n, " [", i) {
          OccursInSuffix(s, at + 2, " [", i);
        }
        NameRecovered("", n);
      }
    }
  }

  predicate BracketedAs(reported: string, gap: string, n: string) {
    reported == gap + " [" + n + "]"
  }

  lemma BracketEnds(gap: string, n: string)
    ensures EndsInBracket(gap + " [" + n + "]")
  {
    var s := gap + " [" + n;
    assert (s + "]")[..|s|] == s;
    assert s[|gap|..|gap| + 2] == " [";
    assert OccursAt(s, " [", |gap|);
  }

  lemma BracketParts(reported: string, at: nat)
    requires reported != [] && reported[|reported| - 1] == ']' && OccursAt(reported[..|reported| - 1], " [", at)
    ensures BracketedAs(reported, reported[..at], reported[..|reported| - 1][at + 2..])
  {
    var s := reported[..|reported| - 1];
    assert s[at..at + 2] == " [";
    assert s == s[..at] + s[at..at + 2] + s[at + 2..];
    assert reported == s + "]";
    assert s[..at] == reported[..at];
  }

  /** Which names are extracted, exactly: the text after the last ` [` of a text that
      ends in `]`, or a text without such a bracket itself; if it has the prefix. */
  lemma NameExactly(reported: string, n: string)
    ensures AdvertisedName(reported) == Some(n) <==>
              && NAME_PREFIX <= n
              && ((n == reported && !EndsInBracket(reported))
                  || (!Contains(n, " [") && exists gap :: BracketedAs(reported, gap, n)))
  {
    if EndsInBracket(reported) {
      var s := reported[..|reported| - 1];
      var at := FindLast(s, " [").value;
      var tail := s[at + 2..];
      BracketParts(reported, at);
      forall i ensures !OccursAt(tail, " [", i) {
        OccursInSuffix(s, at + 2, " [", i);
      }
      if !Contains(n, " [") && NAME_PREFIX <= n {
        forall gap | BracketedAs(reported, gap, n) ensures AdvertisedName(reported) == Some(n) {
          NameRecovered(gap, n);
        }
      }
    } else {
      forall gap ensures !BracketedAs(reported, gap, n) {
        BracketEnds(gap, n);
      }
    }
  }

  /** A text that ends in `]` with ` [` before it. */
  ghost predicate EndsInBracket(s: string) {
    s != [] && s[|s| - 1] == ']' && Contains(s[..|s| - 1], " [")
  }

  /** A text without the prefix anywhere in it names no device of this make. */
  lemma ForeignName(reported: string)
    requires !Contains(reported, NAME_PREFIX)
    ensures AdvertisedName(reported) == None
  {
    var advertised := Bracketed(reported);
    if NAME_PREFIX <= advertised {
      var s := reported[..|reported| - 1];
      var at := if advertised == reported then 0 else FindLast(s, " [").value + 2;
      assert advertised == if advertised == reported then reported[at..] else s[at..];
      assert reported[at..at + |NAME_PREFIX|] == advertised[..|NAME_PREFIX|] == NAME_PREFIX;
      assert OccursAt(reported, NAME_PREFIX, at);
    }
  }

  // ---------------------------------------------------------------- discovery

  const MANUFACTURER_ID: nat := 0xffff
  const OMNI_MODEL: Frame := [0x30, 0x33, 0x30, 0x30, 0x41]

  predicate IsSquareGolf(reported: string, manufacturerData: seq<(nat, Frame)>) {
    || AdvertisedName(reported).Some?
    || reported == OMNI_GAP_NAME
    || (exists i :: 0 <= i < |manufacturerData| && manufacturerData[i] == (MANUFACTURER_ID, OMNI_MODEL))
  }

  /** Discovery turns away a device with another name, other than the Omni's, and
      without the Omni's manufacturer data. */
  lemma DiscoveryRejects(reported: string, data: seq<(nat, Frame)>)
    requires !Contains(reported, "SquareGolf") && reported != "SGO300A"
    requires (0xffff, [0x30, 0x33, 0x30, 0x30, 0x41]) !in data
    ensures !IsSquareGolf(reported, data)
  {
    ForeignName(reported);
  }

  /** And takes the Omni by its GAP name alone, or by its manufacturer data. */
  lemma DiscoveryAccepts(reported: string, data: seq<(nat, Frame)>)
    ensures IsSquareGolf("SGO300A", data)
    ensures (0xffff, [0x30, 0x33, 0x30, 0x30, 0x41]) in data ==> IsSquareGolf(reported, data)
  {}

  // --------------------------------------------------------------------- pins

  /** Unicode White_Space. */
  predicate IsSpace(c: char) {
    var v := c as int;
    9 <= v <= 13 || v == 0x20 || v == 0x85 || v == 0xA0 || v == 0x1680 || 0x2000 <= v <= 0x200A
    || v == 0x2028 || v == 0x2029 || v == 0x202F || v == 0x205F || v == 0x3000
  }

  function Trim(s: string): (r: string)
    ensures s == [] || (!IsSpace(s[0]) && !IsSpace(s[|s| - 1])) ==> r == s
    ensures r != [] ==> !IsSpace(r[0]) && !IsSpace(r[|r| - 1])
    ensures (exists i :: 0 <= i < |s| && !IsSpace(s[i])) ==> r != []
    decreases |s|
  {
    if s == [] then s
    else if IsSpace(s[0]) then
      assert forall i :: 0 < i < |s| ==> s[i] == s[1..][i - 1];
      Trim(s[1..])
    else if IsSpace(s[|s| - 1]) then
      assert s[..|s| - 1][0] == s[0];
      Trim(s[..|s| - 1])
    else s
  }

  function Lower(c: char): char {
    if 'A' <= c <= 'Z' then c - 'A' + 'a' else c
  }

  predicate EqIgnoreCase(a: string, b: string) {
    |a| == |b| && forall i :: 0 <= i < |a| ==> Lower(a[i]) == Lower(b[i])
  }

  /** Two letters, or none, apart by case alone. */
  lemma CaseIgnored(a: string, b: string)
    ensures EqIgnoreCase(a, b) <==>
              |a| == |b| && forall i :: 0 <= i < |a| ==>
                || a[i] == b[i]
                || ('A' <= a[i] <= 'Z' && b[i] as int == a[i] as int + 32)
                || ('A' <= b[i] <= 'Z' && a[i] as int == b[i] as int + 32)
  {
    if |a| == |b| {
      forall i | 0 <= i < |a|
        ensures Lower(a[i]) == Lower(b[i]) <==>
                  || a[i] == b[i]
                  || ('A' <= a[i] <= 'Z' && b[i] as int == a[i] as int + 32)
                  || ('A' <= b[i] <= 'Z' && a[i] as int == b[i] as int + 32)
      {
        LowerIs(a[i]);
        LowerIs(b[i]);
      }
    }
  }

  lemma LowerIs(c: char)
    ensures Lower(c) as int == if 65 <= c as int <= 90 then c as int + 32 else c as int
  {}

  predicate MatchesPin(want: string, address: string, reported: string) {
    var w := Trim(want);
    w != [] && (EqIgnoreCase(address, w)
                || (var n := AdvertisedName(reported); n.Some? && EqIgnoreCase(n.value, w)))
  }

  /** Pinning by a device's name selects it under either reported form, in any
      case, with any padding around the pin; and so does discovery without a pin. */
  lemma PinByName(pin: string, address: string, gap: string, n: string)
    requires Plain(n) && EqIgnoreCase(n, Trim(pin))
    ensures MatchesPin(pin, address, n) && MatchesPin(pin, address, gap + " [" + n + "]")
    ensures forall data :: IsSquareGolf(n, data) && IsSquareGolf(gap + " [" + n + "]", data)
  {
    NameRecovered(gap, n);
  }

  /** In particular by the very name, when it carries no outer whitespace. */
  lemma PinByOwnName(address: string, gap: string, n: string)
    requires Plain(n) && !IsSpace(n[|n| - 1])
    ensures MatchesPin(n, address, n) && MatchesPin(n, address, gap + " [" + n + "]")
  {
    assert n[0] == NAME_PREFIX[0] == 'S';
    PinByName(n, address, gap, n);
  }

  /** Pinning by address selects the device whatever it reports, ignoring case and
      padding; and a pin that matches no name selects by address only. */
  lemma PinByAddress(pin: string, address: string, reported: string)
    ensures Trim(pin) != [] && EqIgnoreCase(address, Trim(pin)) ==> MatchesPin(pin, address, reported)
    ensures MatchesPin(pin, address, reported) && !Contains(reported, "SquareGolf") ==> EqIgnoreCase(address, Trim(pin))
    ensures Trim(pin) == [] ==> !MatchesPin(pin, address, reported)
  {
    if !Contains(reported, NAME_PREFIX) {
      ForeignName(reported);
    }
  }

  /** A pin selects nothing when blank, and never a device that reports another
      plain name and has another address. */
  lemma PinRejects(pin: string, address: string, gap: string, n: string)
    requires !EqIgnoreCase(address, Trim(pin))
    requires Trim(pin) == [] || (Plain(n) && !EqIgnoreCase(n, Trim(pin)))
    ensures !MatchesPin(pin, address, n) && !MatchesPin(pin, address, gap + " [" + n + "]")
  {
    if Plain(n) {
      NameRecovered(gap, n);
    }
  }
}
