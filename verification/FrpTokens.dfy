/** The connection hand-over between the caller and the acceptor thread: under
    every interleaving there is one token, and no connection is lost. */
module FrpTokens {
  import opened Common
  import opened Frp
  import Client

  /** Connection held, request queued, acceptor at work, or connection waiting. */
  function Tokens(w: World): nat {
    One(w.d.conn.Some?) + w.n.requests + One(w.n.acceptor.Establishing? || w.n.acceptor.Forwarding?) + |w.n.incoming|
  }

  function EndedConns(ended: seq<Ended>): seq<nat> {
    seq(|ended|, i requires 0 <= i < |ended| => ended[i].conn)
  }

  /** Every connection's whereabouts, oldest first: over, held, waiting, being handed over. */
  function Whereabouts(w: World): seq<nat> {
    EndedConns(w.h.ended) + AsSeq(w.d.conn) + w.n.incoming
    + if w.n.acceptor.Forwarding? then [w.n.acceptor.conn] else []
  }

  function UpTo(n: nat): seq<nat> {
    seq(n, i => i)
  }

  /** While the device is alive the acceptor is too, there is exactly one token,
      `pending` says it is not a held connection, and the connections ever
      established are, in order, those in `Whereabouts`. */
  ghost predicate TokenInv(w: World) {
    !w.n.deviceGone ==>
      && !w.n.acceptor.Exited?
      && Tokens(w) == 1
      && (w.d.pending <==> w.d.conn.None?)
      && Whereabouts(w) == UpTo(w.n.established)
  }

  lemma DropKeeps(w: World)
    requires TokenInv(w) && !w.n.deviceGone && w.d.conn.Some?
    ensures TokenInv(DropConnection(w)) && DropConnection(w).d.conn.None?
    ensures DropConnection(w).n == w.n.(requests := 1)
  {}

  lemma SendKeeps(w: World, env: Envelope, o: SendOutcome)
    requires TokenInv(w) && !w.n.deviceGone
    ensures TokenInv(SendEnvelope(w, env, o).0) && !SendEnvelope(w, env, o).0.n.deviceGone
  {}

  lemma SameWhereabouts(a: World, b: World)
    requires a.n == b.n && a.d.conn == b.d.conn && a.h.ended == b.h.ended
    ensures Whereabouts(a) == Whereabouts(b)
  {}

  lemma {:induction false} SendEventsKeeps(w: World, events: seq<FrpEvent>, out: nat -> SendOutcome, i: nat)
    requires TokenInv(w) && !w.n.deviceGone
    ensures TokenInv(SendEvents(w, events, out, i).0)
    decreases |events|
  {
    hide TokenInv, SendEnvelope;
    if events != [] && w.d.conn.Some? {
      var env := Envelope(w.d.name, events[0]);
      SendKeeps(w, env, out(i));
      var (w1, ok) := SendEnvelope(w, env, out(i));
      if ok {
        SendEventsKeeps(w1, events[1..], out, i + 1);
      }
    }
  }

  lemma SendTelemetryKeeps(w: World, ready: Option<bool>, battery: Option<Byte>, o: SendOutcome)
    requires TokenInv(w) && !w.n.deviceGone
    ensures TokenInv(SendTelemetry(w, ready, battery, o).0) && !SendTelemetry(w, ready, battery, o).0.n.deviceGone
  {}

  lemma HandleEventKeeps(w: World, e: Client.Event, out: nat -> SendOutcome, id: string)
    requires TokenInv(w) && !w.n.deviceGone
    ensures TokenInv(HandleEvent(w, e, out, id).0)
  {
    hide Whereabouts, SendTelemetry, SendEvents, Block;
    match e
    case StateChanged(state) => SendTelemetryKeeps(w, Some(state.Ready?), None, out(0));
    case Battery(percent, _) => SendTelemetryKeeps(w, None, Some(percent), out(0));
    case ShotEvent(ball, club) =>
      SendTelemetryKeeps(w, Some(false), None, out(0));
      var w1 := SendTelemetry(w, Some(false), None, out(0)).0;
      SameWhereabouts(w1, w1.(h := w1.h.(numbered := w1.h.numbered + [false])));
      var s := ShotData(ball, club, id);
      var w2 := NumberShot(w1, s);
      SameWhereabouts(w1, w2);
      SendEventsKeeps(w2, Block(w2.d.shotNumber, s), out, 1);
    case _ =>
  }

  lemma AdoptKeeps(w: World, o: SendOutcome)
    requires TokenInv(w) && !w.n.deviceGone
    ensures TokenInv(PollConnection(w, o).0)
  {}

  lemma AcceptorKeeps(w: World, step: AcceptorStep)
    requires TokenInv(w) && AcceptorEnabled(w.n, step)
    ensures TokenInv(w.(n := AcceptorMove(w.n, step)))
  {
    var w1 := w.(n := AcceptorMove(w.n, step));
    if !w.n.deviceGone {
      if step.EstablishSucceeds? {
        assert UpTo(w.n.established + 1) == UpTo(w.n.established) + [w.n.established];
        assert Whereabouts(w1) == Whereabouts(w) + [w.n.established];
      } else {
        assert Whereabouts(w1) == Whereabouts(w);
      }
    }
  }

  lemma StepKeeps(w: World, a: Action)
    requires TokenInv(w) && Enabled(w, a)
    ensures TokenInv(Step(w, a))
  {
    hide Whereabouts, SendTelemetry, HandleEvent, PollConnection, DropConnection, AcceptorMove;
    SameWhereabouts(w, w);
    match a
    case AcceptorActs(step) => AcceptorKeeps(w, step);
    case DoPollConnection(o) => AdoptKeeps(w, o);
    case DoCheckController(r) =>
      if w.d.conn.Some? && r.RecvFailed? { DropKeeps(w); }
    case DoHandleEvent(e, out, id) => HandleEventKeeps(w, e, out, id);
    case DoSendDeviceInfo(o) => SendTelemetryKeeps(w, None, None, o);
    case DoDropDevice =>
    case _ => SameWhereabouts(w, Step(w, a));
  }

  lemma {:induction false} RunKeeps(w: World, actions: seq<Action>)
    requires TokenInv(w) && CanRun(w, actions)
    ensures TokenInv(Run(w, actions))
    decreases |actions|
  {
    hide TokenInv, Step;
    if actions != [] {
      StepKeeps(w, actions[0]);
      RunKeeps(Step(w, actions[0]), actions[1..]);
    }
  }

  /** Token conservation, over every interleaving of caller and acceptor: exactly
      one of held, requested, establishing and waiting while the device lives. */
  lemma TokenConservation(actions: seq<Action>)
    requires CanRun(SPAWNED, actions) && !Run(SPAWNED, actions).n.deviceGone
    ensures var w := Run(SPAWNED, actions);
            && Tokens(w) == 1 && !w.n.acceptor.Exited?
            && (w.d.pending <==> w.d.conn.None?)
            && Whereabouts(w) == UpTo(w.n.established)
  {
    hide Run, CanRun;
    assert UpTo(0) == [];
    RunKeeps(SPAWNED, actions);
  }

  /** While a connection is held the acceptor can do nothing, so a call into the
      device that works on a held connection cannot be interleaved with. */
  lemma AcceptorIdleWhileHeld(w: World, step: AcceptorStep)
    requires TokenInv(w) && !w.n.deviceGone && w.d.conn.Some?
    ensures !AcceptorEnabled(w.n, step)
  {}

  /** What the acceptor still has to do once the device is gone. */
  function Remaining(n: Net): nat {
    match n.acceptor
    case Exited => 0
    case Waiting => 3 * n.requests + 1
    case Forwarding(_) => 3 * n.requests + 2
    case Establishing => 3 * n.requests + 3
  }

  /** Dropping the device ends the acceptor: it hands over no further connection, each
      of its steps but a failed attempt to connect brings the end closer. */
  lemma AcceptorEnds(n: Net, step: AcceptorStep)
    requires n.deviceGone && AcceptorEnabled(n, step)
    ensures var m := AcceptorMove(n, step);
            && m.incoming == n.incoming && m.deviceGone
            && (if step == EstablishFails then m == n else Remaining(m) < Remaining(n))
  {}

  lemma AcceptorAlive(n: Net)
    requires n.deviceGone
    ensures Remaining(n) == 0 <==> forall step :: !AcceptorEnabled(n, step)
  {
    var step := if n.acceptor.Waiting? then TakeRequest
                else if n.acceptor.Establishing? then EstablishFails else Forward;
    assert AcceptorEnabled(n, step) <==> !n.acceptor.Exited?;
  }

  /** How far an established connection is from being adopted. */
  function Distance(w: World, c: nat): nat {
    if w.n.acceptor == Forwarding(c) then 2 else if w.n.incoming == [c] then 1 else 0
  }

  ghost predicate Adopted(w: World, c: nat) {
    w.d.conn == Some(c) || exists i :: 0 <= i < |w.h.ended| && w.h.ended[i].conn == c
  }

  /** An established connection is adopted after one hand-over and one call of
      `poll_connection`, and nothing else the two threads do sets it back. */
  lemma AdoptionProgress(w: World, a: Action, c: nat)
    requires TokenInv(w) && Enabled(w, a) && !w.n.deviceGone && !a.DoDropDevice? && Distance(w, c) > 0
    ensures var t := Step(w, a);
            && Distance(t, c) == (if a == AcceptorActs(Forward) || (a.DoPollConnection? && Distance(w, c) == 1)
                                  then Distance(w, c) - 1 else Distance(w, c))
            && (Distance(t, c) == 0 ==> Adopted(t, c))
  {
    hide Whereabouts, Block;
    assert w.d.conn.None?;
    if a.DoPollConnection? && Distance(w, c) == 1 {
      var t := Step(w, a);
      if t.d.conn.None? {
        assert t.h.ended[|t.h.ended| - 1].conn == c;
      }
    } else if a.DoHandleEvent? {
      NoConnectionNoEffect(w, a);
    }
  }

  lemma NoConnectionNoEffect(w: World, a: Action)
    requires w.d.conn.None? && a.DoHandleEvent? && Enabled(w, a)
    ensures Step(w, a).n == w.n && Step(w, a).d.conn.None?
  {}
}
