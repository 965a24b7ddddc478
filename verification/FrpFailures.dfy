/** What a send that fails, other than by the controller leaving, does to the
    stream of a connection that stays up. */
module FrpFailures {
  import opened Common
  import opened Protocol
  import opened Frp
  import opened FrpStream
  import Client

  // ------------------------------------------------- outcomes of a call's sends

  /** The sends before the `k`-th succeed; the `k`-th fails. */
  ghost predicate FailsAt(out: nat -> SendOutcome, k: nat) {
    out(k) == SendFailed && forall j :: 0 <= j < k ==> out(j) == Sent
  }

  ghost predicate AllSent(out: nat -> SendOutcome) {
    forall j :: out(j) == Sent
  }

  function FailingAt(k: nat): (out: nat -> SendOutcome)
    ensures FailsAt(out, k)
  {
    i => if i == k then SendFailed else Sent
  }

  function Sending(): (out: nat -> SendOutcome)
    ensures AllSent(out)
  {
    i => Sent
  }

  function Wrap(name: string, events: seq<FrpEvent>): seq<Envelope> {
    seq(|events|, i requires 0 <= i < |events| => Envelope(name, events[i]))
  }

  /** The events before the first failure are sent. */
  lemma {:induction false} SendsUntil(w: World, events: seq<FrpEvent>, out: nat -> SendOutcome, i: nat, m: nat)
    requires w.d.conn.Some? && m <= |events|
    requires forall j :: i <= j < i + m ==> out(j) == Sent
    requires m < |events| ==> out(i + m) == SendFailed
    ensures SendEvents(w, events, out, i)
         == (w.(h := w.h.(live := w.h.live + Wrap(w.d.name, events[..m]), broken := w.h.broken || m < |events|)),
             m == |events|)
    decreases |events|
  {
    if m == 0 {
      assert w.h.live + Wrap(w.d.name, events[..m]) == w.h.live;
    } else {
      var env := Envelope(w.d.name, events[0]);
      var w1 := w.(h := w.h.(live := w.h.live + [env]));
      SendsUntil(w1, events[1..], out, i + 1, m - 1);
      assert w1.h.live + Wrap(w.d.name, events[1..][..m - 1]) == w.h.live + Wrap(w.d.name, events[..m]);
    }
  }

  // ------------------------------------------------------- the grammar afterwards

  /** Sending some of what is left of a block. */
  lemma {:induction false} ScanPart(stream: seq<Envelope>, from: nat, shots: seq<ShotData>, name: string, m: nat)
    requires Scan(stream, from, shots) != Bad && m <= |Scan(stream, from, shots).todo|
    ensures var p := Scan(stream, from, shots);
            Scan(stream + Wrap(name, p.todo[..m]), from, shots) == At(p.todo[m..], p.next, p.ready)
  {
    hide Scan;
    var todo := Scan(stream, from, shots).todo;
    if m == 0 {
      assert stream + Wrap(name, todo[..0]) == stream;
    } else {
      ScanPart(stream, from, shots, name, m - 1);
      var before := stream + Wrap(name, todo[..m - 1]);
      assert stream + Wrap(name, todo[..m]) == before + [Envelope(name, todo[m - 1])];
      ScanSnoc(before, from, shots, Envelope(name, todo[m - 1]));
    }
  }

  /** Once out of grammar, always. */
  lemma BadForever(stream: seq<Envelope>, from: nat, shots: seq<ShotData>, more: seq<Envelope>)
    requires Scan(stream, from, shots) == Bad
    ensures Scan(stream + more, from, shots) == Bad
  {
    hide Scan;
    assert (stream + more)[..|stream|] == stream;
    if Scan(stream + more, from, shots) != Bad {
      PrefixInGrammar(stream + more, from, shots, |stream|);
    }
  }

  /** A block cut short is never taken up again: neither telemetry nor the next
      shot's trigger, the only envelopes a later call begins with, continue it. */
  lemma CutBlockNeverResumes(stream: seq<Envelope>, from: nat, shots: seq<ShotData>, env: Envelope, more: seq<Envelope>)
    requires Scan(stream, from, shots) != Bad && Scan(stream, from, shots).todo != []
    requires env.event.Telemetry? || env.event.ShotTrigger?
    ensures Scan(stream + [env] + more, from, shots) == Bad
  {
    hide Scan;
    TodoNotTelemetry(stream, from, shots);
    TodoNotTrigger(stream, from, shots);
    ScanSnoc(stream, from, shots, env);
    BadForever(stream + [env], from, shots, more);
  }

  /** Telemetry fits between blocks only. */
  lemma ScanTelemetry(stream: seq<Envelope>, from: nat, shots: seq<ShotData>, env: Envelope)
    requires Scan(stream, from, shots) != Bad && env.event.Telemetry?
    ensures var p := Scan(stream, from, shots);
            Scan(stream + [env], from, shots) == if p.todo == [] then At([], p.next, Some(env.event.ready)) else Bad
  {
    hide Scan;
    TodoNotTelemetry(stream, from, shots);
    ScanSnoc(stream, from, shots, env);
  }

  /** The newest shot's block, or the first of its events, fit between blocks only,
      when no earlier shot is due and the controller was last told READY=false. */
  lemma ScanNewest(stream: seq<Envelope>, from: nat, shots: seq<ShotData>, name: string, m: nat)
    requires shots != [] && Scan(stream, from, shots) != Bad && 1 <= m <= |BlockOf(shots, |shots| - 1)|
    requires Scan(stream, from, shots).next < |shots| < Scan(stream, from, shots).next + WORD32_SIZE
    ensures var p, n := Scan(stream, from, shots), |shots| - 1;
            Scan(stream + Wrap(name, BlockOf(shots, n)[..m]), from, shots)
            == if p.todo == [] && p.next == n && p.ready == Some(false) then At(BlockOf(shots, n)[m..], n + 1, p.ready)
               else Bad
  {
    hide Scan, Block;
    var n, p := |shots| - 1, Scan(stream, from, shots);
    var block := BlockOf(shots, n);
    BlockShape(Number(n), shots[n]);
    BlockShape(Number(p.next), shots[p.next]);
    var first, rest := Envelope(name, block[0]), Wrap(name, block[1..m]);
    assert stream + Wrap(name, block[..m]) == stream + [first] + rest;
    if p.todo != [] {
      CutBlockNeverResumes(stream, from, shots, first, rest);
    } else {
      ScanSnoc(stream, from, shots, first);
      if p.next == n && p.ready == Some(false) {
        assert block[1..][..m - 1] == block[1..m] && block[1..][m - 1..] == block[m..];
        ScanPart(stream + [first], from, shots, name, m - 1);
      } else {
        assert p.next != n ==> KeyOf(block[0]) != KeyOf(BlockOf(shots, p.next)[0]);
        BadForever(stream + [first], from, shots, rest);
      }
    }
  }

  // -------------------------------------------------- a shot, whatever came before

  /** Where the stream stands after a shot whose sends before the `k`-th succeed.
      The 0th is the telemetry ahead of the block, made unless `told` already; the
      others are the block's. `n` shots were numbered before. */
  function ShotPos(p: Pos, told: bool, n: nat, block: seq<FrpEvent>, k: nat): Pos
    requires p != Bad && k <= |block| + 1
  {
    var ahead := if told || k == 0 then p else if p.todo == [] then At([], p.next, Some(false)) else Bad;
    if k <= 1 then ahead
    else if ahead != Bad && ahead.todo == [] && ahead.next == n && ahead.ready == Some(false)
    then At(block[k - 1..], n + 1, Some(false))
    else Bad
  }

  /** A connection on which anything may have failed, short of ending its stream's
      grammar. The counter agrees with the shots, and does not come round while the
      next shot due on the stream is passed over. */
  ghost predicate Standing(w: World) {
    && w.d.conn.Some? && w.d.shotNumber == |w.h.shots| % WORD32_SIZE
    && Scan(w.h.live, w.h.from, w.h.shots) != Bad
    && var next := Scan(w.h.live, w.h.from, w.h.shots).next; next <= |w.h.shots| < next + WORD32_SIZE - 1
  }

  /** Of a shot's sends, the `k`-th is the first to fail; or none does, and `k` is
      one past the last. The telemetry ahead counts only if it is made. */
  ghost predicate FirstFailure(out: nat -> SendOutcome, told: bool, sends: nat, k: nat) {
    && k <= sends && (k < sends ==> out(k) == SendFailed)
    && (told ==> k > 0)
    && forall j :: (if told then 1 else 0) <= j < k ==> out(j) == Sent
  }

  /** Every shot on such a connection, wherever its sends fail: what it leaves, and
      where it leaves the stream. */
  lemma ShotPosition(w: World, e: Client.Event, out: nat -> SendOutcome, id: string, k: nat)
    requires Standing(w) && e.ShotEvent?
    requires var block := Block(Number(|w.h.shots|), ShotData(e.ball, e.club, id));
             FirstFailure(out, w.d.lastReady == Some(false), |block| + 1, k)
    ensures var w1 := HandleEvent(w, e, out, id).0; var s := ShotData(e.ball, e.club, id);
            && w1.n == w.n && w1.d.conn == w.d.conn && w1.h.from == w.h.from && w1.d.lastReady == Some(false)
            && w1.h.shots == (if k == 0 then w.h.shots else w.h.shots + [s])
            && w1.d.shotNumber == |w1.h.shots| % WORD32_SIZE
            && Scan(w1.h.live, w1.h.from, w1.h.shots)
               == ShotPos(Scan(w.h.live, w.h.from, w.h.shots), w.d.lastReady == Some(false), |w.h.shots|,
                          Block(Number(|w.h.shots|), s), k)
  {
    hide Scan, Block, SendEvents;
    var s, told := ShotData(e.ball, e.club, id), w.d.lastReady == Some(false);
    if k > 0 {
      var w0 := SendTelemetry(w, Some(false), None, out(0)).0;
      var w2 := NumberShot(w0, s);
      NextNumber(|w.h.shots|);
      var block := Block(w2.d.shotNumber, s);
      SendsUntil(w2, block, out, 1, k - 1);
      ScanStable(w.h.live, w.h.from, w.h.shots, s);
      if !told {
        ScanTelemetry(w.h.live, w.h.from, w2.h.shots, TelemetryNow(w.d, Some(false), None));
      }
      SendsAfter(w2, s, k - 1, w.h.from);
    }
  }

  lemma NextNumber(n: nat)
    ensures (n % WORD32_SIZE + 1) % WORD32_SIZE == Number(n) == (n + 1) % WORD32_SIZE
  {}

  /** The block's part of that. */
  lemma SendsAfter(w: World, s: ShotData, m: nat, from: nat)
    requires w.h.shots != [] && w.h.shots[|w.h.shots| - 1] == s && w.d.shotNumber == Number(|w.h.shots| - 1)
    requires m <= |Block(w.d.shotNumber, s)|
    requires Scan(w.h.live, from, w.h.shots) != Bad ==>
               var p := Scan(w.h.live, from, w.h.shots); p.next < |w.h.shots| < p.next + WORD32_SIZE
    ensures var block, n := Block(w.d.shotNumber, s), |w.h.shots| - 1;
            Scan(w.h.live + Wrap(w.d.name, block[..m]), from, w.h.shots)
            == var p := Scan(w.h.live, from, w.h.shots);
               if m == 0 then p
               else if p != Bad && p.todo == [] && p.next == n && p.ready == Some(false)
               then At(block[m..], n + 1, Some(false)) else Bad
  {
    hide Scan, Block;
    var block := Block(w.d.shotNumber, s);
    assert block == BlockOf(w.h.shots, |w.h.shots| - 1);
    if m == 0 {
      assert w.h.live + Wrap(w.d.name, block[..0]) == w.h.live;
    } else if Scan(w.h.live, from, w.h.shots) == Bad {
      BadForever(w.h.live, from, w.h.shots, Wrap(w.d.name, block[..m]));
    } else {
      ScanNewest(w.h.live, from, w.h.shots, w.d.name, m);
    }
  }

  /** Whatever failed before, on a stream still in grammar a shot whose sends all
      succeed keeps it there exactly when no block was cut short, no shot was
      skipped, and READY=false is either sent now or was what the controller last
      heard. */
  lemma SentShotInGrammar(w: World, e: Client.Event, out: nat -> SendOutcome, id: string)
    requires Standing(w) && e.ShotEvent? && AllSent(out)
    ensures var p := Scan(w.h.live, w.h.from, w.h.shots); var w1 := HandleEvent(w, e, out, id).0;
            && w1.d.conn == w.d.conn
            && (Scan(w1.h.live, w1.h.from, w1.h.shots) != Bad <==>
                  p.todo == [] && p.next == |w.h.shots| && (w.d.lastReady != Some(false) || p.ready == Some(false)))
  {
    hide Scan, Block, HandleEvent;
    BlockShape(Number(|w.h.shots|), ShotData(e.ball, e.club, id));
    ShotPosition(w, e, out, id, |Block(Number(|w.h.shots|), ShotData(e.ball, e.club, id))| + 1);
  }

  // ------------------------------------------- each kind of failure, then a shot

  lemma SoundStands(w: World)
    requires StreamInv(w) && Sound(w)
    ensures Standing(w)
    ensures Scan(w.h.live, w.h.from, w.h.shots) == At([], |w.h.shots|, ReadyOf(LastTelemetry(w.h.live)))
  {
    hide Scan, LastTelemetry;
  }

  /** The sends of a shot: when they fail at the `k`-th, and another shot follows
      whose sends all succeed, the stream is in grammar exactly when it was the
      telemetry ahead of the block that failed, and the controller had been told
      READY=false before. */
  lemma GrammarAfterFailure(w: World, k: nat, e1: Client.Event, out1: nat -> SendOutcome, id1: string,
                            e2: Client.Event, out2: nat -> SendOutcome, id2: string)
    requires StreamInv(w) && Sound(w)
    requires e1.ShotEvent? && e2.ShotEvent? && FailsAt(out1, k) && AllSent(out2)
    requires k <= |Block(Number(|w.h.shots|), ShotData(e1.ball, e1.club, id1))|
    requires k == 0 ==> !Suppressed(w.d, Some(false), None)
    ensures var w2 := HandleEvent(HandleEvent(w, e1, out1, id1).0, e2, out2, id2).0;
            && w2.d.conn == w.d.conn
            && (Scan(w2.h.live, w2.h.from, w2.h.shots) != Bad
                <==> k == 0 && ReadyOf(LastTelemetry(w.h.live)) == Some(false))
  {
    hide Scan, LastTelemetry, Block, HandleEvent, StreamInv;
    SoundStands(w);
    if w.d.lastReady.Some? {
      ToldReady(w);
    }
    ShotPosition(w, e1, out1, id1, k);
    SentShotInGrammar(HandleEvent(w, e1, out1, id1).0, e2, out2, id2);
  }

  /** A sound connection's controller has heard what was last reported. */
  lemma ToldReady(w: World)
    requires StreamInv(w) && Sound(w) && w.d.lastReady.Some?
    ensures ReadyOf(LastTelemetry(w.h.live)) == w.d.lastReady
  {
    hide Scan, LastTelemetry;
  }

  /** Telemetry outside a shot: when it fails, and a shot follows whose sends all
      succeed, the stream is in grammar exactly when READY=false is still to be
      reported, or was what the controller last heard. */
  lemma GrammarAfterFailedTelemetry(w: World, ready: Option<bool>, battery: Option<Byte>,
                                    e: Client.Event, out: nat -> SendOutcome, id: string)
    requires StreamInv(w) && Sound(w)
    requires e.ShotEvent? && AllSent(out) && !Suppressed(w.d, ready, battery)
    ensures var w2 := HandleEvent(SendTelemetry(w, ready, battery, SendFailed).0, e, out, id).0;
            && w2.d.conn == w.d.conn
            && (Scan(w2.h.live, w2.h.from, w2.h.shots) != Bad <==>
                  (if ready.Some? then ready else w.d.lastReady) != Some(false)
                  || ReadyOf(LastTelemetry(w.h.live)) == Some(false))
  {
    hide Scan, LastTelemetry, HandleEvent, StreamInv;
    SoundStands(w);
    SentShotInGrammar(SendTelemetry(w, ready, battery, SendFailed).0, e, out, id);
  }

  /** The cached telemetry re-sent at adoption: when it fails, the connection is
      adopted all the same, its controller has nothing of what is cached, and a shot
      whose sends all succeed is in grammar exactly when READY=false was not what
      was last reported. */
  lemma AfterFailedAdoption(w: World, e: Client.Event, out: nat -> SendOutcome, id: string)
    requires StreamInv(w) && w.d.conn.None? && w.n.incoming != [] && w.d.telemetry.Some?
    requires e.ShotEvent? && AllSent(out)
    ensures var w1 := PollConnection(w, SendFailed).0; var w2 := HandleEvent(w1, e, out, id).0;
            && w1.d.conn == Some(w.n.incoming[0]) == w2.d.conn && w1.h.live == [] && w1.d.telemetry == w.d.telemetry
            && LastTelemetry(w1.h.live) != w1.d.telemetry
            && (Scan(w2.h.live, w2.h.from, w2.h.shots) != Bad <==> w.d.lastReady != Some(false))
  {
    hide HandleEvent;
    SentShotInGrammar(PollConnection(w, SendFailed).0, e, out, id);
  }

  // -------------------------------------------------------- runs that show it

  /** One more step of a run. */
  lemma {:induction false} RunSnoc(w: World, actions: seq<Action>, a: Action)
    requires CanRun(w, actions) && Enabled(Run(w, actions), a)
    ensures CanRun(w, actions + [a]) && Run(w, actions + [a]) == Step(Run(w, actions), a)
    decreases |actions|
  {
    hide Enabled, Step;
    if actions == [] {
      assert [] + [a] == [a] && [a][1..] == [];
    } else {
      assert (actions + [a])[1..] == actions[1..] + [a];
      RunSnoc(Step(w, actions[0]), actions[1..], a);
    }
  }

  /** A run from a new device that leads to `w`. */
  ghost predicate LeadsTo(actions: seq<Action>, w: World) {
    CanRun(SPAWNED, actions) && Run(SPAWNED, actions) == w
  }

  lemma Then(actions: seq<Action>, w: World, a: Action) returns (longer: seq<Action>)
    requires LeadsTo(actions, w) && Enabled(w, a)
    ensures LeadsTo(longer, Step(w, a))
  {
    hide CanRun, Run, Enabled, Step;
    RunSnoc(SPAWNED, actions, a);
    longer := actions + [a];
  }

  /** A connection established and adopted, the re-send of the cache having `o`. */
  lemma Adopting(actions: seq<Action>, w: World, o: SendOutcome) returns (longer: seq<Action>)
    requires LeadsTo(actions, w) && !w.n.deviceGone && w.n.acceptor.Waiting? && w.n.requests == 1 && w.n.incoming == []
    ensures var c := w.n.established;
            LeadsTo(longer, PollConnection(w.(n := Net(0, [c], Waiting, c + 1, false)), o).0)
  {
    hide LeadsTo, PollConnection;
    var c := w.n.established;
    var w1, w2 := w.(n := Net(0, [], Establishing, c, false)), w.(n := Net(0, [], Forwarding(c), c + 1, false));
    longer := Then(actions, w, AcceptorActs(TakeRequest));
    longer := Then(longer, w1, AcceptorActs(EstablishSucceeds));
    longer := Then(longer, w2, AcceptorActs(Forward));
    assert [] + [c] == [c];
    longer := Then(longer, w.(n := Net(0, [c], Waiting, c + 1, false)), DoPollConnection(o));
  }

  /** A device just after it adopted its first connection. */
  const ADOPTED: World := World(
    Device(Some(0), false, None, "", None, None, 0, None),
    Net(0, [], Waiting, 1, false),
    Hist([], 0, false, [], [], []))

  lemma FirstAdoption() returns (actions: seq<Action>)
    ensures LeadsTo(actions, ADOPTED) && StreamInv(ADOPTED)
  {
    actions := Adopting([], SPAWNED, Sent);
  }

  function Reporting(state: DeviceState, out: nat -> SendOutcome): Action {
    DoHandleEvent(Client.StateChanged(state), out, "")
  }

  /** A reachable connection whose controller has not been told what is cached: the
      first READY could not be sent. */
  lemma ViewBreaks() returns (actions: seq<Action>)
    ensures CanRun(SPAWNED, actions)
    ensures var w := Run(SPAWNED, actions);
            w.d.conn.Some? && LastTelemetry(w.h.live) == None && ReadyOf(w.d.telemetry) == Some(true)
  {
    hide CanRun, Run;
    actions := FirstAdoption();
    actions := Then(actions, ADOPTED, Reporting(DeviceState.Ready, FailingAt(0)));
  }

  /** A reachable connection out of grammar: the first shot's `BallFlight` could not
      be sent, and the second shot's block followed its bare trigger. */
  lemma GrammarBreaks(ball: BallMetrics) returns (actions: seq<Action>)
    ensures CanRun(SPAWNED, actions)
    ensures var w := Run(SPAWNED, actions); w.d.conn.Some? && Scan(w.h.live, w.h.from, w.h.shots) == Bad
  {
    hide CanRun, Run, Block, Scan, HandleEvent, StreamInv;
    var shot := Client.ShotEvent(ball, None);
    actions := FirstAdoption();
    BlockShape(Number(0), ShotData(ball, None, "a"));
    SoundStands(ADOPTED);
    ShotPosition(ADOPTED, shot, FailingAt(2), "a", 2);
    GrammarAfterFailure(ADOPTED, 2, shot, FailingAt(2), "a", shot, Sending(), "b");
    actions := Then(actions, ADOPTED, DoHandleEvent(shot, FailingAt(2), "a"));
    var w := HandleEvent(ADOPTED, shot, FailingAt(2), "a").0;
    actions := Then(actions, w, DoHandleEvent(shot, Sending(), "b"));
  }

  /** Another, on which no shot failed: READY=true was sent, READY=false was not, and
      a shot followed. */
  lemma UntoldReadyBreaksGrammar(ball: BallMetrics) returns (actions: seq<Action>)
    ensures CanRun(SPAWNED, actions)
    ensures var w := Run(SPAWNED, actions); w.d.conn.Some? && Scan(w.h.live, w.h.from, w.h.shots) == Bad
  {
    hide CanRun, Run, Block, Scan, StreamInv, SendTelemetry, SendEvents, NumberShot;
    var shot := Client.ShotEvent(ball, None);
    actions := FirstAdoption();
    actions := Then(actions, ADOPTED, Reporting(DeviceState.Ready, Sending()));
    var w1 := TellReady(ADOPTED);
    actions := Then(actions, w1, Reporting(DeviceState.Idle, FailingAt(0)));
    var w2 := SendTelemetry(w1, Some(false), None, SendFailed).0;
    GrammarAfterFailedTelemetry(w1, Some(false), None, shot, Sending(), "");
    actions := Then(actions, w2, DoHandleEvent(shot, Sending(), ""));
  }

  /** A sound connection on which READY=true has just been sent. */
  lemma TellReady(w: World) returns (w1: World)
    requires StreamInv(w) && Sound(w) && w.d.lastReady == None
    ensures w1 == SendTelemetry(w, Some(true), None, Sent).0 && StreamInv(w1) && Sound(w1)
    ensures w1.n == w.n && w1.h.shots == w.h.shots && w1.h.from == w.h.from && w1.d.lastReady == Some(true)
    ensures ReadyOf(LastTelemetry(w1.h.live)) == Some(true)
    ensures SendTelemetry(w1, Some(false), None, SendFailed).0.n == w.n
  {
    hide Scan, EndedInv;
    w1 := SendTelemetry(w, Some(true), None, Sent).0;
    SendTelemetryKeeps(w, Some(true), None, Sent);
  }

  /** And one on which only the re-send at adoption failed. */
  lemma FailedAdoptionBreaksGrammar(ball: BallMetrics) returns (actions: seq<Action>)
    ensures CanRun(SPAWNED, actions)
    ensures var w := Run(SPAWNED, actions); w.d.conn.Some? && Scan(w.h.live, w.h.from, w.h.shots) == Bad
  {
    hide CanRun, Run, Block, Scan, HandleEvent, StreamInv;
    var shot := Client.ShotEvent(ball, None);
    actions := IdleCached();
    actions := Adopting(actions, CACHED, SendFailed);
    var waiting := CACHED.(n := Net(0, [0], Waiting, 1, false));
    AfterFailedAdoption(waiting, shot, Sending(), "");
    actions := Then(actions, PollConnection(waiting, SendFailed).0, DoHandleEvent(shot, Sending(), ""));
  }

  /** A new device that has reported READY=false and awaits its first connection. */
  const CACHED: World :=
    SPAWNED.(d := SPAWNED.d.(lastReady := Some(false), telemetry := Some(TelemetryNow(SPAWNED.d, Some(false), None))))

  lemma IdleCached() returns (actions: seq<Action>)
    ensures LeadsTo(actions, CACHED) && StreamInv(CACHED.(n := Net(0, [0], Waiting, 1, false)))
  {
    actions := Then([], SPAWNED, Reporting(DeviceState.Idle, Sending()));
  }
}
