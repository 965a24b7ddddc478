/** Who owns which OS Bluetooth session (src/btleplug_transport.rs): one slot
    shared by any number of connection attempts running at once. */
module Sessions {
  import opened Common

  /** Sessions are numbered in the order they are opened. */
  type Session = nat

  /** How far a connection attempt has got, and the session it has in hand. */
  datatype Attempt =
    | Opening                       // found the slot empty
    | Scanning(session: Session)
    | Linking(session: Session)     // a device was found, connecting to it
    | Parking(session: Session)     // about to return the session to the slot
    | Subscribing(session: Session) // connected; services and notifications to come
  {
    function Held(): Option<Session> {
      if Opening? then None else Some(session)
    }

    predicate Unconnected() {
      Scanning? || Linking? || Parking?
    }
  }

  /** The slot, the attempts under way and the live transports; and what became
      of sessions that have none of these: retired after a connection, seen with
      Bluetooth off, or discarded because the slot was taken. `overlapped` once
      two attempts have been under way together. */
  datatype Pool = Pool(
    slot: Option<Session>,
    attempts: map<nat, Attempt>,
    transports: set<Session>,
    openCount: nat,
    connected: set<Session>,
    poweredOff: set<Session>,
    discarded: set<Session>,
    overlapped: bool)

  const EMPTY: Pool := Pool(None, map[], {}, 0, {}, {}, {}, false)

  datatype Step =
    | Begin(a: nat)          // lock the slot and take what is in it
    | Open(a: nat)           // open a session
    | OpenFails(a: nat)
    | Found(a: nat)          // the scan found a device
    | NotFound(a: nat)       // it did not, or failed while Bluetooth was on
    | BluetoothOff(a: nat)
    | LinkUp(a: nat)
    | LinkFails(a: nat)
    | Park(a: nat)           // lock the slot and return the session, if there is room
    | Subscribed(a: nat)     // the attempt becomes a transport
    | SubscribeFails(a: nat)
    | DropTransport(s: Session)

  predicate Enabled(p: Pool, step: Step) {
    match step
    case Begin(a) => a !in p.attempts
    case Open(a) => a in p.attempts && p.attempts[a].Opening?
    case OpenFails(a) => a in p.attempts && p.attempts[a].Opening?
    case Found(a) => a in p.attempts && p.attempts[a].Scanning?
    case NotFound(a) => a in p.attempts && p.attempts[a].Scanning?
    case BluetoothOff(a) => a in p.attempts && p.attempts[a].Scanning?
    case LinkUp(a) => a in p.attempts && p.attempts[a].Linking?
    case LinkFails(a) => a in p.attempts && p.attempts[a].Linking?
    case Park(a) => a in p.attempts && p.attempts[a].Parking?
    case Subscribed(a) => a in p.attempts && p.attempts[a].Subscribing?
    case SubscribeFails(a) => a in p.attempts && p.attempts[a].Subscribing?
    case DropTransport(s) => s in p.transports
  }

  function Next(p: Pool, step: Step): Pool
    requires Enabled(p, step)
  {
    match step
    case Begin(a) =>
      p.(slot := None, overlapped := p.overlapped || p.attempts != map[],
         attempts := p.attempts[a := match p.slot case Some(s) => Scanning(s) case None => Opening])
    case Open(a) => p.(attempts := p.attempts[a := Scanning(p.openCount)], openCount := p.openCount + 1)
    case OpenFails(a) => p.(attempts := p.attempts - {a})
    case Found(a) => p.(attempts := p.attempts[a := Linking(p.attempts[a].session)])
    case NotFound(a) => p.(attempts := p.attempts[a := Parking(p.attempts[a].session)])
    case BluetoothOff(a) =>
      p.(attempts := p.attempts - {a}, poweredOff := p.poweredOff + {p.attempts[a].session})
    case LinkUp(a) =>
      p.(attempts := p.attempts[a := Subscribing(p.attempts[a].session)],
         connected := p.connected + {p.attempts[a].session})
    case LinkFails(a) => p.(attempts := p.attempts[a := Parking(p.attempts[a].session)])
    case Park(a) =>
      var s := p.attempts[a].session;
      if p.slot.None? then p.(slot := Some(s), attempts := p.attempts - {a})
      else p.(attempts := p.attempts - {a}, discarded := p.discarded + {s})
    case Subscribed(a) =>
      p.(attempts := p.attempts - {a}, transports := p.transports + {p.attempts[a].session})
    case SubscribeFails(a) => p.(attempts := p.attempts - {a})
    case DropTransport(s) => p.(transports := p.transports - {s})
  }

  ghost predicate CanRun(p: Pool, steps: seq<Step>)
    decreases |steps|
  {
    steps == [] || (Enabled(p, steps[0]) && CanRun(Next(p, steps[0]), steps[1..]))
  }

  function Run(p: Pool, steps: seq<Step>): Pool
    requires CanRun(p, steps)
    decreases |steps|
  {
    if steps == [] then p else Run(Next(p, steps[0]), steps[1..])
  }

  // ------------------------------------------------------------- the invariant

  /** Sessions in the hands of attempts that have not connected. */
  function Unconnected(p: Pool): set<Session> {
    set a | a in p.attempts && p.attempts[a].Unconnected() :: p.attempts[a].session
  }

  function InSlot(p: Pool): set<Session> {
    if p.slot.Some? then {p.slot.value} else {}
  }

  /** Each session has one owner at most. */
  ghost predicate OneOwner(p: Pool) {
    && (forall a, b :: a in p.attempts && b in p.attempts && a != b && p.attempts[a].Held().Some? ==>
          p.attempts[a].Held() != p.attempts[b].Held())
    && (forall a :: a in p.attempts && p.attempts[a].Held().Some? ==>
          p.slot != p.attempts[a].Held() && p.attempts[a].Held().value !in p.transports)
    && (p.slot.Some? ==> p.slot.value !in p.transports)
  }

  /** Whatever holds a connection is retired. */
  ghost predicate Retired(p: Pool) {
    && p.transports <= p.connected
    && (forall a :: a in p.attempts && p.attempts[a].Subscribing? ==> p.attempts[a].session in p.connected)
  }

  /** Every session opened, and no other, is in exactly one of five places. */
  ghost predicate Partition(
    c: set<Session>, o: set<Session>, d: set<Session>, u: set<Session>, i: set<Session>, n: nat)
  {
    forall s: Session :: One(s in c) + One(s in o) + One(s in d) + One(s in u) + One(s in i) == One(s < n)
  }

  ghost predicate Ledger(p: Pool) {
    Retired(p) && Partition(p.connected, p.poweredOff, p.discarded, Unconnected(p), InSlot(p), p.openCount)
  }

  /** With attempts one at a time there is never more than one session spare. */
  ghost predicate Sequential(p: Pool) {
    !p.overlapped ==>
      && p.discarded == {}
      && (forall a, b :: a in p.attempts && b in p.attempts ==> a == b)
      && (p.attempts != map[] ==> p.slot.None?)
  }

  ghost predicate Inv(p: Pool) {
    OneOwner(p) && Ledger(p) && Sequential(p)
  }

  lemma StepKeepsOwner(p: Pool, step: Step)
    requires Inv(p) && Enabled(p, step)
    ensures OneOwner(Next(p, step))
  {
    hide OneOwner, Sequential, Ledger, Next;
    if step.Open? {
      OpenKeepsOwner(p, step.a);
    } else if step.Begin? || step.Park? {
      SlotKeepsOwner(p, step);
    } else {
      HandsKeepOwner(p, step);
    }
  }

  lemma OpenKeepsOwner(p: Pool, a: nat)
    requires OneOwner(p) && Ledger(p) && Enabled(p, Open(a))
    ensures OneOwner(Next(p, Open(a)))
  {
    hide Ledger;
    Fresh(p);
  }

  lemma SlotKeepsOwner(p: Pool, step: Step)
    requires OneOwner(p) && Ledger(p) && Enabled(p, step) && (step.Begin? || step.Park?)
    ensures OneOwner(Next(p, step))
  {}

  /** No step but these three gives anyone a session not already held. */
  lemma HandsKeepOwner(p: Pool, step: Step)
    requires OneOwner(p) && Enabled(p, step) && !step.Open? && !step.Begin? && !step.Park?
    ensures OneOwner(Next(p, step))
  {}

  /** A new session's number is in nobody's hands. */
  lemma Fresh(p: Pool)
    requires Ledger(p)
    ensures p.openCount !in p.transports && p.slot != Some(p.openCount)
    ensures forall a :: a in p.attempts ==> p.attempts[a].Held() != Some(p.openCount)
  {}

  /** An unconnected attempt's session is not used up. */
  lemma InHand(p: Pool, a: nat)
    requires Ledger(p) && a in p.attempts && p.attempts[a].Unconnected()
    ensures var s := p.attempts[a].session;
            s in Unconnected(p) && s !in p.connected && s !in p.poweredOff && s !in p.discarded && s !in p.transports
            && p.slot != Some(s)
  {}

  ghost predicate HandsMoved(p: Pool, q: Pool, a: nat) {
    Unconnected(q)
      == Unconnected(p) - (if a in p.attempts && p.attempts[a].Unconnected() then {p.attempts[a].session} else {})
         + (if a in q.attempts && q.attempts[a].Unconnected() then {q.attempts[a].session} else {})
  }

  /** Taking the session out of an attempt's hands, or putting one in. */
  lemma HandsAfter(p: Pool, q: Pool, a: nat)
    requires OneOwner(p) && (forall b :: b != a ==> (b in p.attempts <==> b in q.attempts))
    requires forall b :: b != a && b in p.attempts ==> p.attempts[b] == q.attempts[b]
    ensures HandsMoved(p, q, a)
  {
    var gone := if a in p.attempts && p.attempts[a].Unconnected() then {p.attempts[a].session} else {};
    var come := if a in q.attempts && q.attempts[a].Unconnected() then {q.attempts[a].session} else {};
    forall s | s in Unconnected(q) ensures s in Unconnected(p) - gone + come {
      var b :| b in q.attempts && q.attempts[b].Unconnected() && q.attempts[b].session == s;
      if b != a {
        assert p.attempts[b].Held() == Some(s);
      }
    }
    forall s | s in Unconnected(p) - gone + come ensures s in Unconnected(q) {
      if s !in come {
        var b :| b in p.attempts && p.attempts[b].Unconnected() && p.attempts[b].session == s;
        assert b != a;
      }
    }
  }

  lemma StepKeepsRetired(p: Pool, step: Step)
    requires Inv(p) && Enabled(p, step)
    ensures Retired(Next(p, step))
  {}

  lemma StepKeepsLedger(p: Pool, step: Step)
    requires Inv(p) && Enabled(p, step)
    ensures Ledger(Next(p, step))
  {
    hide Sequential, Unconnected, Retired, OneOwner, Partition;
    StepKeepsRetired(p, step);
    var q := Next(p, step);
    match step
    case DropTransport(_) => SameHands(p, q);
    case _ =>
      HandsAfter(p, q, step.a);
      StepKeepsPartition(p, step);
  }

  lemma StepKeepsPartition(p: Pool, step: Step)
    requires Inv(p) && Enabled(p, step) && !step.DropTransport?
    requires HandsMoved(p, Next(p, step), step.a)
    ensures var q := Next(p, step);
            Partition(q.connected, q.poweredOff, q.discarded, Unconnected(q), InSlot(q), q.openCount)
  {
    hide Sequential, Unconnected, OneOwner, Retired;
    if step.a in p.attempts && p.attempts[step.a].Unconnected() {
      InHand(p, step.a);
    }
  }

  lemma SameHands(p: Pool, q: Pool)
    requires p.attempts == q.attempts
    ensures Unconnected(p) == Unconnected(q)
  {}

  lemma StepKeepsSequential(p: Pool, step: Step)
    requires Inv(p) && Enabled(p, step)
    ensures Sequential(Next(p, step))
  {}

  lemma StepKeeps(p: Pool, step: Step)
    requires Inv(p) && Enabled(p, step)
    ensures Inv(Next(p, step))
  {
    hide OneOwner, Ledger, Sequential;
    StepKeepsOwner(p, step);
    StepKeepsLedger(p, step);
    StepKeepsSequential(p, step);
  }

  lemma {:induction false} RunKeeps(p: Pool, steps: seq<Step>)
    requires Inv(p) && CanRun(p, steps)
    ensures Inv(Run(p, steps))
    decreases |steps|
  {
    hide Inv;
    if steps != [] {
      StepKeeps(p, steps[0]);
      RunKeeps(Next(p, steps[0]), steps[1..]);
    }
  }

  lemma Reachable(steps: seq<Step>)
    requires CanRun(EMPTY, steps)
    ensures Inv(Run(EMPTY, steps))
  {
    EmptyInv();
    RunKeeps(EMPTY, steps);
  }

  lemma EmptyInv()
    ensures Inv(EMPTY)
  {}

  // -------------------------------------------------------------- main results

  /** Ownership, for any number of attempts at once: a session is in at most one
      of the slot, an attempt's hands and a transport; and the slot never holds
      one that has connected or has seen Bluetooth off. */
  lemma SessionOwnership(steps: seq<Step>, s: Session)
    requires CanRun(EMPTY, steps)
    ensures var p := Run(EMPTY, steps);
            && (forall a, b | a in p.attempts && b in p.attempts ::
                  p.attempts[a].Held() == p.attempts[b].Held() == Some(s) ==> a == b)
            && !(p.slot == Some(s) && s in p.transports)
            && (forall a :: a in p.attempts && p.attempts[a].Held() == Some(s) ==>
                  p.slot != Some(s) && s !in p.transports)
            && (p.slot == Some(s) ==> s !in p.connected && s !in p.poweredOff && s !in p.discarded)
  {
    hide Run, CanRun;
    Reachable(steps);
    var p := Run(EMPTY, steps);
    if p.slot == Some(s) {
      assert s in InSlot(p);
    }
  }

  /** Conservation: every session opened is retired by a connection, was seen with
      Bluetooth off, was discarded by `park`, is held by an attempt that has not
      connected, or is in the slot. */
  lemma SessionConservation(steps: seq<Step>)
    requires CanRun(EMPTY, steps)
    ensures var p := Run(EMPTY, steps);
            p.openCount == |p.connected| + |p.poweredOff| + |p.discarded| + |Unconnected(p)| + |InSlot(p)|
  {
    hide Run, CanRun, OneOwner, Sequential;
    Reachable(steps);
    var p := Run(EMPTY, steps);
    PartitionCount(p.connected, p.poweredOff, p.discarded, Unconnected(p), InSlot(p), p.openCount);
  }

  lemma {:induction false} PartitionCount(
    c: set<Session>, o: set<Session>, d: set<Session>, u: set<Session>, i: set<Session>, n: nat)
    requires Partition(c, o, d, u, i, n)
    ensures n == |c| + |o| + |d| + |u| + |i|
    decreases n
  {
    hide Partition;
    if n == 0 {
      NoneLeft(c, o, d, u, i);
    } else {
      var c1, o1, d1, u1, i1 := PartitionWithout(c, o, d, u, i, n - 1);
      PartitionCount(c1, o1, d1, u1, i1, n - 1);
    }
  }

  lemma NoneLeft(c: set<Session>, o: set<Session>, d: set<Session>, u: set<Session>, i: set<Session>)
    requires Partition(c, o, d, u, i, 0)
    ensures |c| + |o| + |d| + |u| + |i| == 0
  {}

  lemma PartitionWithout(
    c: set<Session>, o: set<Session>, d: set<Session>, u: set<Session>, i: set<Session>, s: Session)
    returns (c1: set<Session>, o1: set<Session>, d1: set<Session>, u1: set<Session>, i1: set<Session>)
    requires Partition(c, o, d, u, i, s + 1)
    ensures Partition(c1, o1, d1, u1, i1, s)
    ensures |c| + |o| + |d| + |u| + |i| == |c1| + |o1| + |d1| + |u1| + |i1| + 1
  {
    hide Without;
    assert One(s in c) + One(s in o) + One(s in d) + One(s in u) + One(s in i) == One(s < s + 1);
    c1, o1, d1, u1, i1 := Without(c, s), Without(o, s), Without(d, s), Without(u, s), Without(i, s);
    WithoutIsPartition(c, o, d, u, i, s);
  }

  lemma WithoutIsPartition(
    c: set<Session>, o: set<Session>, d: set<Session>, u: set<Session>, i: set<Session>, s: Session)
    requires Partition(c, o, d, u, i, s + 1)
    ensures Partition(Without(c, s), Without(o, s), Without(d, s), Without(u, s), Without(i, s), s)
  {}

  function Without(c: set<Session>, s: Session): (r: set<Session>)
    ensures |c| == |r| + One(s in c)
    ensures forall t: Session :: t in r <==> t in c && t != s
  {
    assert s in c ==> c == (c - {s}) + {s};
    assert s !in c ==> c == c - {s};
    c - {s}
  }

  /** The documented bound: attempts that do not overlap open at most one session
      more than they retire or lose to Bluetooth being off. */
  lemma SequentialBound(steps: seq<Step>)
    requires CanRun(EMPTY, steps) && !Run(EMPTY, steps).overlapped
    ensures var p := Run(EMPTY, steps); p.openCount <= |p.connected| + |p.poweredOff| + 1
  {
    hide Run, CanRun, OneOwner;
    Reachable(steps);
    SessionConservation(steps);
    var p := Run(EMPTY, steps);
    if p.attempts == map[] {
      assert Unconnected(p) == {};
    } else {
      var a :| a in p.attempts;
      if p.attempts[a].Unconnected() {
        assert Unconnected(p) == {p.attempts[a].session};
      } else {
        assert Unconnected(p) == {};
      }
    }
  }

  /** The times `park` found the slot taken, over some steps from `p`. */
  function Refused(p: Pool, steps: seq<Step>): nat
    requires CanRun(p, steps)
    decreases |steps|
  {
    if steps == [] then 0
    else Refused(Next(p, steps[0]), steps[1..]) + if steps[0].Park? && p.slot.Some? then 1 else 0
  }

  /** A session is discarded each time the slot is found taken, and at no other. */
  lemma {:induction false} DiscardedAreRefused(p: Pool, steps: seq<Step>)
    requires Inv(p) && CanRun(p, steps)
    ensures |Run(p, steps).discarded| == |p.discarded| + Refused(p, steps)
    decreases |steps|
  {
    hide Inv;
    if steps != [] {
      StepKeeps(p, steps[0]);
      DiscardedAreRefused(Next(p, steps[0]), steps[1..]);
      StepDiscards(p, steps[0]);
    }
  }

  lemma StepDiscards(p: Pool, step: Step)
    requires Inv(p) && Enabled(p, step)
    ensures |Next(p, step).discarded| == |p.discarded| + if step.Park? && p.slot.Some? then 1 else 0
  {
    hide Unconnected, Retired, OneOwner, Sequential, Partition;
    if step.Park? {
      InHand(p, step.a);
    }
  }

  /** When the bound holds, overlapping or not: once no attempt is under way, exactly
      when the sessions refused at a taken slot, and the one in the slot if there is
      one, are no more than one together. */
  lemma BoundExactly(steps: seq<Step>)
    requires CanRun(EMPTY, steps) && Run(EMPTY, steps).attempts == map[]
    ensures var p := Run(EMPTY, steps);
            p.openCount <= |p.connected| + |p.poweredOff| + 1 <==> Refused(EMPTY, steps) + One(p.slot.Some?) <= 1
    ensures Refused(EMPTY, steps) == 0 ==>
              var p := Run(EMPTY, steps); p.openCount <= |p.connected| + |p.poweredOff| + 1
  {
    hide Run, CanRun, Refused, OneOwner, Sequential;
    EmptyInv();
    SessionConservation(steps);
    DiscardedAreRefused(EMPTY, steps);
    assert Unconnected(Run(EMPTY, steps)) == {};
  }

  /** Overlapping attempts can exceed it: two that scan at once open two sessions,
      and the slot has room for one. */
  lemma OverlapDiscards()
    ensures exists steps :: CanRun(EMPTY, steps) && var p := Run(EMPTY, steps);
              p.attempts == map[] && p.connected == {} && p.poweredOff == {} && p.openCount == 2 && |p.discarded| == 1
  {
    hide Run, CanRun;
    var two := Pool(None, map[0 := Scanning(0), 1 := Scanning(1)], {}, 2, {}, {}, {}, true);
    var parking := Pool(None, map[0 := Parking(0), 1 := Parking(1)], {}, 2, {}, {}, {}, true);
    var over := Pool(Some(0), map[], {}, 2, {}, {}, {1}, true);
    RunNothing(over);
    ParkBoth(parking, over);
    BothMiss(two, parking, [Park(0), Park(1)]);
    BothOpen(two, [NotFound(0), NotFound(1)] + [Park(0), Park(1)]);
  }

  lemma BothOpen(q: Pool, rest: seq<Step>)
    requires q == Pool(None, map[0 := Scanning(0), 1 := Scanning(1)], {}, 2, {}, {}, {}, true)
    requires CanRun(q, rest)
    ensures var steps := [Begin(0), Begin(1), Open(0), Open(1)] + rest;
            CanRun(EMPTY, steps) && Run(EMPTY, steps) == Run(q, rest)
  {
    hide Run, CanRun;
    var p := Pool(None, map[0 := Opening, 1 := Opening], {}, 0, {}, {}, {}, true);
    OpenTwo(p, q, rest);
    BeginTwo(p, [Open(0), Open(1)] + rest);
    assert [Begin(0), Begin(1)] + ([Open(0), Open(1)] + rest) == [Begin(0), Begin(1), Open(0), Open(1)] + rest;
  }

  lemma BeginTwo(q: Pool, rest: seq<Step>)
    requires q == Pool(None, map[0 := Opening, 1 := Opening], {}, 0, {}, {}, {}, true) && CanRun(q, rest)
    ensures var steps := [Begin(0), Begin(1)] + rest; CanRun(EMPTY, steps) && Run(EMPTY, steps) == Run(q, rest)
  {
    hide Run, CanRun;
    var s1 := EMPTY.(attempts := map[0 := Opening]);
    assert 0 in s1.attempts;
    Take(s1, Begin(1), q, q.attempts, rest);
    Take(EMPTY, Begin(0), s1, s1.attempts, [Begin(1)] + rest);
    assert [Begin(0)] + ([Begin(1)] + rest) == [Begin(0), Begin(1)] + rest;
  }

  lemma OpenTwo(p: Pool, q: Pool, rest: seq<Step>)
    requires p.attempts == map[0 := Opening, 1 := Opening] && p.openCount == 0
    requires q == p.(attempts := map[0 := Scanning(0), 1 := Scanning(1)], openCount := 2) && CanRun(q, rest)
    ensures var steps := [Open(0), Open(1)] + rest; CanRun(p, steps) && Run(p, steps) == Run(q, rest)
  {
    hide Run, CanRun;
    var s1 := p.(attempts := map[0 := Scanning(0), 1 := Opening], openCount := 1);
    Take(s1, Open(1), q, map[0 := Scanning(0), 1 := Scanning(1)], rest);
    Take(p, Open(0), s1, s1.attempts, [Open(1)] + rest);
    assert [Open(0)] + ([Open(1)] + rest) == [Open(0), Open(1)] + rest;
  }

  lemma BothMiss(p: Pool, q: Pool, rest: seq<Step>)
    requires p.attempts == map[0 := Scanning(0), 1 := Scanning(1)]
    requires q == p.(attempts := map[0 := Parking(0), 1 := Parking(1)]) && CanRun(q, rest)
    ensures var steps := [NotFound(0), NotFound(1)] + rest; CanRun(p, steps) && Run(p, steps) == Run(q, rest)
  {
    hide Run, CanRun;
    var s1 := p.(attempts := map[0 := Parking(0), 1 := Scanning(1)]);
    Take(s1, NotFound(1), q, q.attempts, rest);
    var last1 := [NotFound(1)] + rest;
    Take(p, NotFound(0), s1, s1.attempts, last1);
    assert [NotFound(0)] + last1 == [NotFound(0), NotFound(1)] + rest;
  }

  lemma ParkBoth(p: Pool, q: Pool)
    requires p.slot == None && p.attempts == map[0 := Parking(0), 1 := Parking(1)] && p.discarded == {}
    requires q == p.(slot := Some(0), attempts := map[], discarded := {1})
    ensures var steps := [Park(0), Park(1)]; CanRun(p, steps) && Run(p, steps) == q
  {
    hide Run, CanRun;
    var s1 := p.(slot := Some(0), attempts := map[1 := Parking(1)]);
    RunNothing(q);
    Take(s1, Park(1), q, map[], []);
    Take(p, Park(0), s1, s1.attempts, [Park(1)] + []);
    assert [Park(0)] + ([Park(1)] + []) == [Park(0), Park(1)];
  }

  /** One step, to a pool that is `q`. */
  lemma Take(p: Pool, step: Step, q: Pool, hands: map<nat, Attempt>, rest: seq<Step>)
    requires Enabled(p, step) && CanRun(q, rest)
    requires var next := Next(p, step); next.attempts == hands == q.attempts && q == next.(attempts := q.attempts)
    ensures CanRun(p, [step] + rest) && Run(p, [step] + rest) == Run(q, rest)
  {
    hide Run, CanRun;
    assert Next(p, step) == q;
    Extend(p, step, rest);
  }

  lemma Extend(p: Pool, step: Step, rest: seq<Step>)
    requires Enabled(p, step) && CanRun(Next(p, step), rest)
    ensures CanRun(p, [step] + rest) && Run(p, [step] + rest) == Run(Next(p, step), rest)
  {
    hide Next, Enabled;
    assert ([step] + rest)[1..] == rest;
  }

  // ------------------------------------------------------------------ the class

  lemma {:induction false} RunThen(p: Pool, steps: seq<Step>, step: Step)
    requires CanRun(p, steps) && Enabled(Run(p, steps), step)
    ensures CanRun(p, steps + [step]) && Run(p, steps + [step]) == Next(Run(p, steps), step)
    decreases |steps|
  {
    if steps == [] {
      Extend(p, step, []);
      assert [] + [step] == [step] + [];
    } else {
      RunThen(Next(p, steps[0]), steps[1..], step);
      Extend(p, steps[0], steps[1..] + [step]);
      assert [steps[0]] + (steps[1..] + [step]) == steps + [step];
    }
  }

  /** How the outside world treats an attempt that has a session. */
  datatype Course = PoweredOff | Absent | Unreachable | NoSubscription | Succeeds

  /** The process-wide slot, driven by one attempt at a time. */
  class Bluetooth {
    var slot: Option<Session>
    var sessionsOpened: nat
    ghost var pool: Pool

    ghost predicate Agrees()
      reads this
    {
      pool.slot == slot && pool.openCount == sessionsOpened && pool.attempts == map[]
    }

    constructor ()
      ensures Agrees() && pool == EMPTY
    {
      slot, sessionsOpened := None, 0;
      pool := EMPTY;
    }

    /** Takes the cached session for exclusive use, or opens one. */
    method TakeScanner(opens: bool) returns (s: Option<Session>)
      modifies this`slot, this`sessionsOpened
      ensures slot == None
      ensures s == if old(slot).Some? then old(slot) else if opens then Some(old(sessionsOpened)) else None
      ensures sessionsOpened == old(sessionsOpened) + One(old(slot).None? && opens)
    {
      var cached := slot;
      slot := None;
      if cached.Some? { return cached; }
      if !opens { return None; }
      s := Some(sessionsOpened);
      sessionsOpened := sessionsOpened + 1;
    }

    /** Returns a session that has not connected, unless the slot is taken. */
    method ReturnSession(s: Session)
      modifies this`slot
      ensures slot == if old(slot).None? then Some(s) else old(slot)
    {
      if slot.None? {
        slot := Some(s);
      }
    }

    /** One whole attempt, a run of the protocol; `opens` says whether a session
        could be opened if there is none to reuse. An attempt that gets no further
        than a failed connect leaves its session in the slot for the next. */
    method Connect(opens: bool, course: Course) returns (transport: Option<Session>, ghost steps: seq<Step>)
      requires Agrees()
      modifies this
      ensures Agrees() && CanRun(old(pool), steps) && pool == Run(old(pool), steps)
      ensures sessionsOpened == old(sessionsOpened) + One(old(slot).None? && opens)
      ensures var session := if old(slot).Some? then old(slot) else if opens then Some(old(sessionsOpened)) else None;
              && transport == (if course.Succeeds? then session else None)
              && slot == (if course.Absent? || course.Unreachable? then session else None)
      ensures pool.transports == old(pool).transports + (if transport.Some? then {transport.value} else {})
    {
      hide Run, CanRun;
      transport, steps := None, [];
      ghost var start := pool;
      RunNothing(start);
      var s := TakeScanner(opens);
      steps := Advance(start, steps, Begin(0));
      if s.None? {
        steps := Advance(start, steps, OpenFails(0));
        return;
      }
      if old(slot).None? {
        steps := Advance(start, steps, Open(0));
      }
      assert pool.attempts == map[0 := Scanning(s.value)];
      transport, steps := Drive(s.value, course, start, steps);
    }

    /** The rest of an attempt that has a session. */
    method Drive(s: Session, course: Course, ghost start: Pool, ghost before: seq<Step>)
      returns (transport: Option<Session>, ghost steps: seq<Step>)
      requires CanRun(start, before) && pool == Run(start, before)
      requires pool.attempts == map[0 := Scanning(s)] && pool.slot == slot == None && pool.openCount == sessionsOpened
      modifies this
      ensures Agrees() && CanRun(start, steps) && pool == Run(start, steps)
      ensures sessionsOpened == old(sessionsOpened)
      ensures transport == (if course.Succeeds? then Some(s) else None)
      ensures slot == (if course.Absent? || course.Unreachable? then Some(s) else None)
      ensures pool.transports == old(pool).transports + (if transport.Some? then {s} else {})
    {
      hide Run, CanRun;
      transport := None;
      if course.PoweredOff? {
        steps := Advance(start, before, BluetoothOff(0));
        return;
      }
      if course.Absent? {
        steps := Advance(start, before, NotFound(0));
      } else {
        steps := Advance(start, before, Found(0));
        if course.Unreachable? {
          steps := Advance(start, steps, LinkFails(0));
        }
      }
      if course.Absent? || course.Unreachable? {
        steps := Advance(start, steps, Park(0));
        ReturnSession(s);
        return;
      }
      steps := Advance(start, steps, LinkUp(0));
      if course.NoSubscription? {
        steps := Advance(start, steps, SubscribeFails(0));
        return;
      }
      steps := Advance(start, steps, Subscribed(0));
      transport := Some(s);
    }

    ghost method Advance(start: Pool, before: seq<Step>, step: Step) returns (steps: seq<Step>)
      requires CanRun(start, before) && pool == Run(start, before) && Enabled(pool, step)
      modifies this`pool
      ensures CanRun(start, steps) && pool == Run(start, steps) && pool == Next(old(pool), step)
    {
      RunThen(start, before, step);
      steps := before + [step];
      pool := Next(pool, step);
    }
  }

  lemma RunNothing(p: Pool)
    ensures CanRun(p, []) && Run(p, []) == p
  {}
}
