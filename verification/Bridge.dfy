/** The bridge program (src/bin/allsquare-frp.rs): one loop that joins the poll
    client and the FRP device. */
module Bridge {
  import opened Common
  import opened Clubs
  import opened Protocol
  import Client
  import ClientRuns
  import ClientTheorems
  import Frp
  import FrpStream

  /** The loop's variables; `halted` once it has returned. */
  datatype State = State(client: Client.State, frp: Frp.World, club: Club, armed: bool, halted: bool)

  /** The world's answers during one turn of the loop. */
  datatype Turn = Turn(
    poll: Client.Answers, info: Frp.SendOutcome, out: nat -> Frp.SendOutcome, id: string, armOk1: bool, armOk2: bool,
    adopt: Frp.SendOutcome, recv: Frp.RecvOutcome, selectOk: bool)

  function ClubFromFrp(club: Frp.FrpClub): Option<Club> {
    match club case Known(c) => Some(c) case OtherClub(_) => None
  }

  /** The club a command leaves in play. */
  function ClubAfter(club: Club, cmd: Frp.ControllerCommand): Club {
    if cmd.club.Some? then ClubFromFrp(cmd.club.value).GetOr(club) else club
  }

  function ApplyCommand(s: State, cmd: Frp.ControllerCommand, ok: bool): State {
    var c1 := if cmd.handed.Some? then s.client.(handed := cmd.handed.value) else s.client;
    var club := ClubAfter(s.club, cmd);
    s.(client := if s.armed && (cmd.club.Some? || cmd.handed.Some?) then Client.SelectClubStep(c1, club, ok) else c1,
       club := club)
  }

  /** A turn on which the client announced its device: report it, then arm. */
  function OnConnected(s: State, e: Client.Event, t: Turn): State
    requires e.Connected?
  {
    var w := s.frp.(d := s.frp.d.(firmware := Some(e.firmware.lm)));
    var w1 := Frp.SendTelemetry(Frp.SetModelStep(w, e.model), None, None, t.info).0;
    var c1 := Client.ArmStep(s.client, s.club, Advanced, t.armOk1, t.armOk2);
    if t.armOk1 && t.armOk2 then s.(client := c1, frp := w1, armed := true)
    else s.(client := c1, frp := w1, halted := true)
  }

  function OnEvent(s: State, e: Client.Event, t: Turn): State {
    var s1 := if e.Connected? then OnConnected(s, e, t) else s;
    if s1.halted then s1 else s1.(frp := Frp.HandleEvent(s1.frp, e, t.out, t.id).0)
  }

  /** A turn without an event: adopt a controller, then look for its commands. */
  function OnIdle(s: State, t: Turn): State {
    var w1 := Frp.PollConnection(s.frp, t.adopt).0;
    var (w2, cmd) := Frp.CheckController(w1, t.recv);
    var s1 := s.(frp := w2);
    if cmd.Some? then ApplyCommand(s1, cmd.value, t.selectOk) else s1
  }

  function TakeTurn(s: State, t: Turn): State {
    if s.halted then s
    else
      var (c1, r) := Client.Poll(s.client, t.poll);
      var s1 := s.(client := c1);
      match r
      case Ok(Some(e)) => OnEvent(s1, e, t)
      case Ok(None) => OnIdle(s1, t)
      case _ => s1.(halted := true)
  }

  /** Turns of the loop, with the acceptor thread's steps anywhere in between. */
  datatype Action = LoopTurns(turn: Turn) | AcceptorActs(step: Frp.AcceptorStep)

  ghost predicate Enabled(s: State, a: Action) {
    a.AcceptorActs? ==> Frp.AcceptorEnabled(s.frp.n, a.step)
  }

  function Step(s: State, a: Action): State
    requires Enabled(s, a)
  {
    match a
    case LoopTurns(t) => TakeTurn(s, t)
    case AcceptorActs(step) => s.(frp := s.frp.(n := Frp.AcceptorMove(s.frp.n, step)))
  }

  ghost predicate CanRun(s: State, actions: seq<Action>)
    decreases |actions|
  {
    actions == [] || (Enabled(s, actions[0]) && CanRun(Step(s, actions[0]), actions[1..]))
  }

  ghost function Run(s: State, actions: seq<Action>): State
    requires CanRun(s, actions)
    decreases |actions|
  {
    if actions == [] then s else Run(Step(s, actions[0]), actions[1..])
  }

  /** As the program starts, after naming the device it connected to. */
  function Started(
    fp: Rounding, now1: Client.Time, now2: Client.Time, cal: map<Club, real>, club: Club, name: string): State
  {
    State(Client.New(fp, now1, now2, cal), Frp.SPAWNED.(d := Frp.SPAWNED.d.(name := name)), club, false, false)
  }

  // ------------------------------------------------------------- the invariant

  /** The last club selection written or attempted. */
  function LastSelection(log: seq<Client.Attempt>): Option<Command> {
    if log == [] then None
    else if log[|log| - 1].cmd.SelectClub? then Some(log[|log| - 1].cmd)
    else LastSelection(log[..|log| - 1])
  }

  ghost predicate AllWritten(log: seq<Client.Attempt>) {
    forall k :: 0 <= k < |log| ==> log[k].ok
  }

  /** Once armed, the device's selection is the club and hand in play, unless a
      write has failed. */
  ghost predicate SelectionInv(s: State) {
    s.armed && AllWritten(s.client.attempts) ==>
      LastSelection(s.client.attempts) == Some(SelectClub(s.club, s.client.handed))
  }

  function ShotEvents(shots: seq<Frp.ShotData>): seq<Client.Event> {
    seq(|shots|, i requires 0 <= i < |shots| => Client.ShotEvent(shots[i].ball, shots[i].club))
  }

  /** The shots marked in `keep`. */
  function Kept(shots: seq<Client.Event>, keep: seq<bool>): seq<Client.Event>
    requires |shots| == |keep|
  {
    if shots == [] then []
    else
      var n := |shots| - 1;
      Kept(shots[..n], keep[..n]) + if keep[n] then [shots[n]] else []
  }

  /** The device has handled `shots`, and numbered those it marked as numbered. */
  ghost predicate Numbered(h: Frp.Hist, shots: seq<Client.Event>) {
    |h.numbered| == |shots| && ShotEvents(h.shots) == Kept(shots, h.numbered)
  }

  /** Both halves' invariants, and the shots numbered are the client's. */
  ghost predicate Inv(s: State) {
    && ClientRuns.Inv(s.client)
    && FrpStream.StreamInv(s.frp) && !s.frp.n.deviceGone
    && Numbered(s.frp.h, ClientRuns.Shots(s.client.events))
    && SelectionInv(s)
  }

  lemma SelectionSnoc(log: seq<Client.Attempt>, x: Client.Attempt)
    ensures LastSelection(log + [x]) == if x.cmd.SelectClub? then Some(x.cmd) else LastSelection(log)
    ensures AllWritten(log + [x]) <==> AllWritten(log) && x.ok
  {}

  /** What a poll does to the log besides heartbeats and club requests: nothing. */
  lemma PollSelection(s: Client.State, a: Client.Answers)
    ensures var t := Client.Poll(s, a).0;
            && t.handed == s.handed
            && LastSelection(t.attempts) == LastSelection(s.attempts)
            && (AllWritten(t.attempts) ==> AllWritten(s.attempts))
  {
    hide Encode, Client.ReadIdentity, Client.Receive, Client.Beat;
    IdentitySelection(s, a);
    BeatSelection(s, a);
    if a.read.Payload? {
      ReceiveSelection(Client.Beat(s, a).0, Cut(a.read.bytes, Client.BUFFER), a);
    }
  }

  lemma IdentitySelection(s: Client.State, a: Client.Answers)
    ensures var t := Client.ReadIdentity(s, a).0;
            t.handed == s.handed && LastSelection(t.attempts) == LastSelection(s.attempts)
            && (AllWritten(t.attempts) ==> AllWritten(s.attempts))
  {
    hide Encode, LastSelection, AllWritten;
    var n1: Byte := (s.seqNo + 1) % 0x100;
    var n2: Byte := (n1 + 1) % 0x100;
    var x := Client.Attempt(Query, Encode(Query, n1), a.identity.queryOk);
    SelectionSnoc(s.attempts, x);
    SelectionSnoc(s.attempts + [x], Client.Attempt(Heartbeat, Encode(Heartbeat, n2), a.beatOk));
  }

  lemma BeatSelection(s: Client.State, a: Client.Answers)
    ensures var t := Client.Beat(s, a).0;
            t.handed == s.handed && LastSelection(t.attempts) == LastSelection(s.attempts)
            && (AllWritten(t.attempts) ==> AllWritten(s.attempts))
  {}

  lemma ReceiveSelection(s: Client.State, data: Frame, a: Client.Answers)
    ensures var t := Client.Receive(s, data, a).0;
            t.handed == s.handed && LastSelection(t.attempts) == LastSelection(s.attempts)
            && (AllWritten(t.attempts) ==> AllWritten(s.attempts))
  {
    hide Encode, LastSelection, AllWritten, Parse;
    var n: Byte := (s.seqNo + 1) % 0x100;
    SelectionSnoc(s.attempts, Client.Attempt(RequestClubMetrics, Encode(RequestClubMetrics, n), a.requestOk));
  }

  /** A poll records exactly the event it returns. */
  lemma PollRecords(s: Client.State, a: Client.Answers)
    ensures var (t, r) := Client.Poll(s, a);
            t.events == s.events + if r.Ok? && r.event.Some? then [r.event.value] else []
  {
    hide Client.PollCore;
    CoreRecords(s, a);
    assert s.events + [] == s.events;
  }

  lemma CoreRecords(s: Client.State, a: Client.Answers)
    ensures Client.PollCore(s, a).0.events == s.events
  {
    hide Encode, Parse, Client.SettingOf, Client.ShotOf, Cut;
  }

  /** A selection made in play, or the arming that makes the first one. */
  lemma SelectKeeps(c: Client.State, club: Club, ok: bool)
    requires ClientRuns.Inv(c)
    ensures var t := Client.SelectClubStep(c, club, ok);
            && ClientRuns.Inv(t) && t.handed == c.handed && t.events == c.events
            && (AllWritten(t.attempts) ==> ok && AllWritten(c.attempts))
            && LastSelection(t.attempts) == Some(SelectClub(club, c.handed))
  {
    hide Encode, LastSelection, AllWritten, ClientRuns.Inv;
    ClientRuns.StepKeeps(c, Client.DoSelectClub(club, ok));
    var n: Byte := (c.seqNo + 1) % 0x100;
    var cmd := SelectClub(club, c.handed);
    SelectionSnoc(c.attempts, Client.Attempt(cmd, Encode(cmd, n), ok));
  }

  lemma ArmKeeps(c: Client.State, club: Club, ok1: bool, ok2: bool)
    requires ClientRuns.Inv(c)
    ensures var t := Client.ArmStep(c, club, Advanced, ok1, ok2);
            && ClientRuns.Inv(t) && t.handed == c.handed && t.events == c.events
            && LastSelection(t.attempts) == Some(SelectClub(club, c.handed))
  {
    hide Encode, LastSelection, AllWritten, ClientRuns.Inv;
    SelectKeeps(c, club, ok1);
    ClientRuns.StepKeeps(c, Client.DoArm(club, Advanced, ok1, ok2));
    var s1 := Client.SelectClubStep(c, club, ok1);
    var n: Byte := (s1.seqNo + 1) % 0x100;
    var cmd := DetectBall(true, Advanced);
    SelectionSnoc(s1.attempts, Client.Attempt(cmd, Encode(cmd, n), ok2));
  }

  lemma CommandKeeps(s: State, cmd: Frp.ControllerCommand, ok: bool)
    requires Inv(s)
    ensures Inv(ApplyCommand(s, cmd, ok)) && ApplyCommand(s, cmd, ok).frp == s.frp
  {
    hide ClientRuns.Inv, FrpStream.StreamInv, LastSelection, AllWritten, Client.SelectClubStep, Client.Step,
         ClientRuns.Shots;
    var c1 := if cmd.handed.Some? then s.client.(handed := cmd.handed.value) else s.client;
    if cmd.handed.Some? {
      HandKeeps(s.client, cmd.handed.value);
    }
    SelectKeeps(c1, ClubAfter(s.club, cmd), ok);
  }

  lemma HandKeeps(c: Client.State, handed: Handed)
    requires ClientRuns.Inv(c)
    ensures ClientRuns.Inv(c.(handed := handed))
  {}

  // --------------------------------------------------------- the device's shots

  /** A shot event is numbered, once, unless the telemetry ahead of it fails. */
  lemma HandleNumbers(w: Frp.World, e: Client.Event, out: nat -> Frp.SendOutcome, id: string)
    ensures var w1 := Frp.HandleEvent(w, e, out, id).0;
            && w1.n.deviceGone == w.n.deviceGone
            && if e.ShotEvent? then
                 var ok := Frp.SendTelemetry(w, Some(false), None, out(0)).1;
                 && w1.h.numbered == w.h.numbered + [ok]
                 && w1.h.shots == w.h.shots + if ok then [Frp.ShotData(e.ball, e.club, id)] else []
               else w1.h.numbered == w.h.numbered && w1.h.shots == w.h.shots
  {
    hide Frp.SendEvents, Frp.SendTelemetry, Frp.Block;
    match e
    case StateChanged(state) => TelemetryNumbers(w, Some(state.Ready?), None, out(0));
    case Battery(percent, _) => TelemetryNumbers(w, None, Some(percent), out(0));
    case ShotEvent(ball, club) =>
      TelemetryNumbers(w, Some(false), None, out(0));
      var w1 := Frp.SendTelemetry(w, Some(false), None, out(0)).0;
      var s := Frp.ShotData(ball, club, id);
      var w2 := Frp.NumberShot(w1, s);
      EventsNumber(w2, Frp.Block(w2.d.shotNumber, s), out, 1);
      assert w.h.shots + [] == w.h.shots;
    case _ =>
  }

  /** What sending changes neither numbers nor misses. */
  ghost predicate SameShots(a: Frp.World, b: Frp.World) {
    a.h.shots == b.h.shots && a.h.numbered == b.h.numbered && a.n.deviceGone == b.n.deviceGone
  }

  lemma TelemetryNumbers(w: Frp.World, ready: Option<bool>, battery: Option<Byte>, o: Frp.SendOutcome)
    ensures SameShots(w, Frp.SendTelemetry(w, ready, battery, o).0)
  {}

  lemma {:induction false} EventsNumber(w: Frp.World, events: seq<Frp.FrpEvent>, out: nat -> Frp.SendOutcome, i: nat)
    ensures SameShots(w, Frp.SendEvents(w, events, out, i).0)
    decreases |events|
  {
    if events != [] && w.d.conn.Some? {
      var (w1, ok) := Frp.SendEnvelope(w, Frp.Envelope(w.d.name, events[0]), out(i));
      if ok {
        EventsNumber(w1, events[1..], out, i + 1);
      }
    }
  }

  lemma EventsSnoc(shots: seq<Frp.ShotData>, s: Frp.ShotData)
    ensures ShotEvents(shots + [s]) == ShotEvents(shots) + [Client.ShotEvent(s.ball, s.club)]
  {}

  // ---------------------------------------------------------------- one turn

  /** The last of `shots` is `e`, if that is a shot, and still to be handled. */
  ghost predicate NumberedBut(h: Frp.Hist, shots: seq<Client.Event>, e: Client.Event) {
    if e.ShotEvent? then
      |shots| > 0 && shots[|shots| - 1] == e && Numbered(h, shots[..|shots| - 1])
    else Numbered(h, shots)
  }

  lemma NowNumbered(h: Frp.Hist, h1: Frp.Hist, shots: seq<Client.Event>, e: Client.Event, ok: bool, id: string)
    requires NumberedBut(h, shots, e) && e.ShotEvent? && h1.numbered == h.numbered + [ok]
    requires h1.shots == h.shots + if ok then [Frp.ShotData(e.ball, e.club, id)] else []
    ensures Numbered(h1, shots)
  {
    hide ShotEvents;
    var n := |shots| - 1;
    assert h1.numbered[..n] == h.numbered;
    if ok {
      EventsSnoc(h.shots, Frp.ShotData(e.ball, e.club, id));
    } else {
      assert h.shots + [] == h.shots;
      assert Kept(shots[..n], h.numbered) + [] == Kept(shots[..n], h.numbered);
    }
  }

  /** The invariant while an event the client returned is still to be handled. */
  ghost predicate Owing(s: State, e: Client.Event) {
    && ClientRuns.Inv(s.client)
    && FrpStream.StreamInv(s.frp) && !s.frp.n.deviceGone
    && NumberedBut(s.frp.h, ClientRuns.Shots(s.client.events), e)
    && SelectionInv(s)
  }

  lemma ConnectedKeeps(s: State, e: Client.Event, t: Turn)
    requires Owing(s, e) && e.Connected?
    ensures Owing(OnConnected(s, e, t), e)
  {
    hide ClientRuns.Inv, LastSelection, AllWritten, Frp.SendTelemetry, Client.ArmStep, ClientRuns.Shots, FrpStream.Scan,
         FrpStream.LastTelemetry, FrpStream.EndedInv;
    var w := Frp.SetModelStep(s.frp.(d := s.frp.d.(firmware := Some(e.firmware.lm))), e.model);
    FrpStream.SendTelemetryKeeps(w, None, None, t.info);
    TelemetryNumbers(w, None, None, t.info);
    ArmKeeps(s.client, s.club, t.armOk1, t.armOk2);
    if !(t.armOk1 && t.armOk2) {
      ArmUnarmed(s, t);
    }
  }

  lemma ArmUnarmed(s: State, t: Turn)
    requires ClientRuns.Inv(s.client)
    requires !(t.armOk1 && t.armOk2)
    ensures !AllWritten(Client.ArmStep(s.client, s.club, Advanced, t.armOk1, t.armOk2).attempts)
  {
    hide Encode;
    var log := Client.ArmStep(s.client, s.club, Advanced, t.armOk1, t.armOk2).attempts;
    assert !log[|log| - 1].ok;
  }

  lemma EventKeeps(s: State, e: Client.Event, t: Turn)
    requires Owing(s, e) && !s.halted
    ensures Inv(OnEvent(s, e, t))
  {
    hide ClientRuns.Inv, FrpStream.StreamInv, SelectionInv, ClientRuns.Shots, Frp.HandleEvent, OnConnected, ShotEvents,
         Kept, Frp.SendTelemetry;
    var s1 := s;
    if e.Connected? {
      ConnectedKeeps(s, e, t);
      s1 := OnConnected(s, e, t);
    }
    FrpStream.StepKeeps(s1.frp, Frp.DoHandleEvent(e, t.out, t.id));
    HandleNumbers(s1.frp, e, t.out, t.id);
    if e.ShotEvent? {
      var ok := Frp.SendTelemetry(s1.frp, Some(false), None, t.out(0)).1;
      var h1 := Frp.HandleEvent(s1.frp, e, t.out, t.id).0.h;
      NowNumbered(s1.frp.h, h1, ClientRuns.Shots(s.client.events), e, ok, t.id);
    }
    if !s1.halted {
      SelectionFrp(s1, Frp.HandleEvent(s1.frp, e, t.out, t.id).0);
    }
  }

  lemma SelectionFrp(s: State, w: Frp.World)
    requires SelectionInv(s)
    ensures SelectionInv(s.(frp := w))
  {}

  lemma IdleNumbers(w: Frp.World, o: Frp.SendOutcome, r: Frp.RecvOutcome)
    ensures var w1 := Frp.PollConnection(w, o).0; var w2 := Frp.CheckController(w1, r).0;
            SameShots(w, w1) && SameShots(w, w2)
  {}

  lemma IdleKeeps(s: State, t: Turn)
    requires Inv(s)
    ensures Inv(OnIdle(s, t))
  {
    hide ClientRuns.Inv, FrpStream.StreamInv, SelectionInv, Frp.PollConnection, Frp.CheckController, ApplyCommand,
         ClientRuns.Shots;
    var w1 := Frp.PollConnection(s.frp, t.adopt).0;
    IdleNumbers(s.frp, t.adopt, t.recv);
    FrpStream.StepKeeps(s.frp, Frp.DoPollConnection(t.adopt));
    FrpStream.StepKeeps(w1, Frp.DoCheckController(t.recv));
    var (w2, cmd) := Frp.CheckController(w1, t.recv);
    SelectionFrp(s, w2);
    if cmd.Some? {
      CommandKeeps(s.(frp := w2), cmd.value, t.selectOk);
    }
  }

  lemma TurnKeeps(s: State, t: Turn)
    requires Inv(s)
    ensures Inv(TakeTurn(s, t))
  {
    hide ClientRuns.Inv, FrpStream.StreamInv, SelectionInv, Client.Poll, OnEvent, OnIdle, ClientRuns.Shots, ShotEvents,
         Inv, Owing;
    if !s.halted {
      var (c1, r) := Client.Poll(s.client, t.poll);
      PollOwes(s, t.poll);
      if r.Ok? && r.event.Some? {
        EventKeeps(s.(client := c1), r.event.value, t);
      } else if r.Ok? {
        IdleKeeps(s.(client := c1), t);
      } else {
        HaltKeeps(s.(client := c1));
      }
    }
  }

  /** Whether the loop has returned plays no part in the invariant. */
  lemma HaltKeeps(s: State)
    requires Inv(s)
    ensures Inv(s.(halted := true))
  {}

  lemma PollOwes(s: State, a: Client.Answers)
    requires Inv(s)
    ensures var (c, r) := Client.Poll(s.client, a); var s1 := s.(client := c);
            if r.Ok? && r.event.Some? then Owing(s1, r.event.value) else Inv(s1)
  {
    hide ClientRuns.Inv, FrpStream.StreamInv, SelectionInv, Client.Poll, ClientRuns.Shots, Numbered;
    ClientRuns.PollKeeps(s.client, a);
    SelectionKept(s, a);
    PollShots(s.client, a);
    var r := Client.Poll(s.client, a).1;
    if r.Ok? && r.event.Some? {
      var shots := ClientRuns.Shots(s.client.events);
      assert (shots + [r.event.value])[..|shots|] == shots;
    }
  }

  lemma SelectionKept(s: State, a: Client.Answers)
    requires SelectionInv(s)
    ensures SelectionInv(s.(client := Client.Poll(s.client, a).0))
  {
    hide Client.Poll, LastSelection, AllWritten;
    PollSelection(s.client, a);
  }

  lemma PollShots(c: Client.State, a: Client.Answers)
    ensures var (t, r) := Client.Poll(c, a);
            ClientRuns.Shots(t.events)
            == if r.Ok? && r.event.Some? && r.event.value.ShotEvent? then ClientRuns.Shots(c.events) + [r.event.value]
               else ClientRuns.Shots(c.events)
  {
    hide Client.Poll, ClientRuns.Shots;
    PollRecords(c, a);
    assert c.events + [] == c.events;
    var r := Client.Poll(c, a).1;
    if r.Ok? && r.event.Some? {
      assert ClientRuns.Shots(c.events) + [] == ClientRuns.Shots(c.events);
      ClientRuns.SnocEvent(c.events, r.event.value);
    }
  }

  lemma StepKeeps(s: State, a: Action)
    requires Inv(s) && Enabled(s, a)
    ensures Inv(Step(s, a))
  {
    hide TakeTurn, ClientRuns.Inv, ClientRuns.Shots, LastSelection;
    match a
    case LoopTurns(t) => TurnKeeps(s, t);
    case AcceptorActs(step) => FrpStream.StepKeeps(s.frp, Frp.AcceptorActs(step));
  }

  lemma {:induction false} RunKeeps(s: State, actions: seq<Action>)
    requires Inv(s) && CanRun(s, actions)
    ensures Inv(Run(s, actions))
    decreases |actions|
  {
    hide Inv, Step;
    if actions != [] {
      StepKeeps(s, actions[0]);
      RunKeeps(Step(s, actions[0]), actions[1..]);
    }
  }

  /** The client's arithmetic rounds one way throughout. */
  lemma TurnKeepsRounding(s: State, t: Turn)
    requires ClientRuns.Inv(s.client)
    ensures TakeTurn(s, t).client.fp == s.client.fp
  {
    hide ClientRuns.Inv, Client.Poll, Frp.HandleEvent, Frp.PollConnection, Frp.CheckController, Frp.SendTelemetry,
         Encode;
    ClientRuns.PollKeeps(s.client, t.poll);
  }

  lemma {:induction false} RunKeepsRounding(s: State, actions: seq<Action>)
    requires Inv(s) && CanRun(s, actions)
    ensures Run(s, actions).client.fp == s.client.fp
    decreases |actions|
  {
    hide TakeTurn, ClientRuns.Inv, FrpStream.StreamInv, SelectionInv, ShotEvents, ClientRuns.Shots, Frp.AcceptorMove;
    if actions != [] {
      StepKeeps(s, actions[0]);
      if actions[0].LoopTurns? {
        TurnKeepsRounding(s, actions[0].turn);
      }
      RunKeepsRounding(Step(s, actions[0]), actions[1..]);
    }
  }

  lemma Reachable(fp: Rounding, now1: Client.Time, now2: Client.Time, cal: map<Club, real>, club: Club, name: string,
                  actions: seq<Action>)
    requires CanRun(Started(fp, now1, now2, cal, club, name), actions)
    ensures var s := Run(Started(fp, now1, now2, cal, club, name), actions); Inv(s) && s.client.fp == fp
  {
    hide Run, CanRun;
    ClientRuns.Always(fp, now1, now2, cal, []);
    assert ClientRuns.Inv(Client.New(fp, now1, now2, cal));
    RunKeeps(Started(fp, now1, now2, cal, club, name), actions);
    RunKeepsRounding(Started(fp, now1, now2, cal, club, name), actions);
  }

  // -------------------------------------------------------------- main results

  /** With every write succeeding, the last club selection the device received
      since arming is the club and hand currently in play. */
  lemma SelectionFollowsController(fp: Rounding, now1: Client.Time, now2: Client.Time, cal: map<Club, real>, club: Club,
                                   name: string, actions: seq<Action>)
    requires CanRun(Started(fp, now1, now2, cal, club, name), actions)
    ensures var s := Run(Started(fp, now1, now2, cal, club, name), actions);
            s.armed && AllWritten(s.client.attempts) ==>
              LastSelection(s.client.attempts) == Some(SelectClub(s.club, s.client.handed))
              && s.client.activeClub == ClientRuns.Selected(s.client.attempts)
  {
    hide Run, CanRun;
    Reachable(fp, now1, now2, cal, club, name, actions);
  }

  /** End to end. The shots the bridge has handled are the pairs of a ball and the
      first club frame after it, one for each and in order, in the frames read with
      repeats dropped: the `k`-th is the pair that ends at frame `js[k]`. The device
      has numbered them in that order, leaving out exactly those marked as not
      numbered. And a controller on whose connection no send has failed, otherwise
      than by its leaving, has been sent exactly the whole blocks of the shots
      numbered since it connected. */
  lemma EndToEnd(fp: Rounding, now1: Client.Time, now2: Client.Time, cal: map<Club, real>, club: Club, name: string,
                 actions: seq<Action>)
    returns (js: seq<nat>)
    requires CanRun(Started(fp, now1, now2, cal, club, name), actions)
    ensures var s := Run(Started(fp, now1, now2, cal, club, name), actions); var h := s.frp.h;
            var pairs := ClientRuns.Shots(ClientRuns.EventsOf(fp, s.client.handled));
            && ClientRuns.Frames(s.client.handled) == Collapse(s.client.received)
            && ClientTheorems.PairsShots(fp, s.client.handled, pairs, js)
            && |h.numbered| == |pairs| && ShotEvents(h.shots) == Kept(pairs, h.numbered)
            && (false !in h.numbered ==> ShotEvents(h.shots) == pairs)
            && h.from <= |h.shots|
            && (s.frp.d.conn.Some? && !h.broken ==>
                  FrpStream.NonTelemetry(h.live) == FrpStream.Blocks(h.shots, h.from, |h.shots|))
  {
    hide Run, CanRun, ClientRuns.Shots, ShotEvents, FrpStream.StreamInv, ClientTheorems.PairsShots, FrpStream.Blocks,
         FrpStream.NonTelemetry, Kept;
    Reachable(fp, now1, now2, cal, club, name, actions);
    var s := Run(Started(fp, now1, now2, cal, club, name), actions);
    js := ClientTheorems.ShotsAreThePairs(fp, s.client.handled);
    if s.client.phase.Active? {
      ClientTheorems.ShotsAfterFirst(s.client.events);
    } else {
      NoShots(s.client);
    }
    if false !in s.frp.h.numbered {
      AllKept(ClientRuns.Shots(s.client.events), s.frp.h.numbered);
    }
    FrpStream.SoundStream(s.frp);
  }

  lemma {:induction false} AllKept(shots: seq<Client.Event>, keep: seq<bool>)
    requires |shots| == |keep| && false !in keep
    ensures Kept(shots, keep) == shots
  {
    if shots != [] {
      var n := |shots| - 1;
      AllKept(shots[..n], keep[..n]);
      assert keep[n] in keep;
    }
  }

  lemma NoShots(c: Client.State)
    requires ClientRuns.Inv(c) && c.phase.Connecting?
    ensures ClientRuns.Shots(c.events) == ClientRuns.Shots(ClientRuns.EventsOf(c.fp, c.handled))
  {}

  // ------------------------------------------------------------------ the class

  class Program {
    const client: Client.PollClient
    const frp: Frp.FrpDevice
    var club: Club
    var armed: bool
    var halted: bool

    ghost function View(): State
      reads this, client, frp
    {
      State(client.View(), frp.View(), club, armed, halted)
    }

    constructor (client: Client.PollClient, frp: Frp.FrpDevice, club: Club)
      ensures this.client == client && this.frp == frp
      ensures View() == State(client.View(), frp.View(), club, false, false)
    {
      this.client, this.frp, this.club, armed, halted := client, frp, club, false, false;
    }

    method Apply(cmd: Frp.ControllerCommand, ok: bool)
      modifies this, client
      ensures View() == ApplyCommand(old(View()), cmd, ok)
    {
      if cmd.handed.Some? {
        client.SetPlayerHand(cmd.handed.value);
      }
      if cmd.club.Some? {
        match ClubFromFrp(cmd.club.value) {
          case Some(c) => club := c;
          case None =>
        }
      }
      if armed && (cmd.club.Some? || cmd.handed.Some?) {
        client.SelectActiveClub(club, ok);
      }
    }

    method Announce(e: Client.Event, t: Turn)
      requires e.Connected?
      modifies this, client, frp
      ensures View() == OnConnected(old(View()), e, t)
    {
      frp.SetFirmware(e.firmware.lm);
      frp.SetModel(e.model);
      var _ := frp.EmitTelemetry(None, None, t.info);
      var ok := client.Arm(club, Advanced, t.armOk1, t.armOk2);
      if !ok {
        halted := true;
        return;
      }
      armed := true;
    }

    /** One turn of the loop. */
    method RunTurn(t: Turn)
      modifies this, client, frp
      ensures View() == TakeTurn(old(View()), t)
    {
      hide Client.Poll, OnConnected, ApplyCommand, Frp.HandleEvent, Frp.PollConnection, Frp.CheckController;
      if halted { return; }
      var r := client.PollOnce(t.poll);
      match r {
        case Ok(Some(e)) =>
          if e.Connected? {
            Announce(e, t);
            if halted { return; }
          }
          var _ := frp.OnEvent(e, t.out, t.id);
        case Ok(None) =>
          var _ := frp.AdoptConnection(t.adopt);
          var cmd := frp.PollController(t.recv);
          if cmd.Some? {
            Apply(cmd.value, t.selectOk);
          }
        case _ => halted := true;
      }
    }
  }
}
