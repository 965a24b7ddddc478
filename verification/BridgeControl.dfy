/** The bridge and its controller: what the controller asks for is what the device
    is told, and what the device says is what the controller is told. */
module BridgeControl {
  import opened Common
  import opened Clubs
  import opened Protocol
  import opened Bridge
  import Client
  import ClientRuns
  import ClientTheorems
  import Frp
  import FrpReports
  import FrpStream

  // ------------------------------------------------------------------ one turn

  /** A failed poll, a lost link included, ends the loop and touches nothing else. */
  lemma PollErrorEnds(s: State, t: Turn)
    requires !s.halted && !Client.Poll(s.client, t.poll).1.Ok?
    ensures var s1 := TakeTurn(s, t);
            s1.halted && s1.frp == s.frp && s1.club == s.club && s1.armed == s.armed
            && s1.client == Client.Poll(s.client, t.poll).0
  {
    hide Client.Poll;
  }

  /** A loop that has ended does nothing more. */
  lemma HaltedStays(s: State, a: Action)
    requires s.halted && Enabled(s, a)
    ensures var s1 := Step(s, a);
            s1.halted && s1.client == s.client && s1.frp.d == s.frp.d && s1.frp.h == s.frp.h && s1.club == s.club
  {
    hide Frp.AcceptorMove;
  }

  /** A turn without an event adopts the connection that waits, if none is held; it
      keeps it unless the controller is found to have left. */
  lemma IdleTurnAdopts(s: State, t: Turn)
    requires !s.halted && Client.Poll(s.client, t.poll).1 == Client.Ok(None)
    requires s.frp.d.conn.None? && s.frp.n.incoming != []
    ensures var w := TakeTurn(s, t).frp; var c := s.frp.n.incoming[0];
            var left := (s.frp.d.telemetry.Some? && t.adopt.Closed?) || t.recv.RecvFailed?;
            && w.n.incoming == s.frp.n.incoming[1..]
            && (if left then
                  w.d.conn.None? && |w.h.ended| == |s.frp.h.ended| + 1 && w.h.ended[|s.frp.h.ended|].conn == c
                else w.d.conn == Some(c) && w.h.ended == s.frp.h.ended)
  {
    hide Client.Poll, OnIdle;
    CommandLeavesDevice(s.(client := Client.Poll(s.client, t.poll).0), t);
  }

  /** Applying a command is between the bridge and the client. */
  lemma CommandLeavesDevice(s: State, t: Turn)
    ensures OnIdle(s, t).frp == Frp.CheckController(Frp.PollConnection(s.frp, t.adopt).0, t.recv).0
  {
    hide Frp.CheckController, Frp.PollConnection, Client.SelectClubStep;
  }

  /** The turn on which the device announces itself reports it and arms it, with the
      club in play and advanced spin; a failure to arm ends the loop. */
  lemma ConnectedTurnArms(s: State, t: Turn)
    requires !s.halted && Client.Poll(s.client, t.poll).1.Ok?
    requires Client.Poll(s.client, t.poll).1.event.Some? && Client.Poll(s.client, t.poll).1.event.value.Connected?
    ensures var c, s1 := Client.Poll(s.client, t.poll).0, TakeTurn(s, t);
            var e := Client.Poll(s.client, t.poll).1.event.value; var d := s.frp.d;
            && (s1.halted <==> !(t.armOk1 && t.armOk2)) && s1.armed == (s.armed || (t.armOk1 && t.armOk2))
            && |s1.client.attempts| == |c.attempts| + (if t.armOk1 then 2 else 1)
            && s1.client.attempts[..|c.attempts|] == c.attempts
            && s1.client.attempts[|c.attempts|].cmd == SelectClub(s.club, c.handed)
            && (t.armOk1 ==> s1.client.attempts[|c.attempts| + 1].cmd == DetectBall(true, Advanced))
            && s1.frp.d.telemetry
               == Some(Frp.Envelope(d.name, Frp.Telemetry(
                    if e.model == "" then d.model else Some(e.model), Some(e.firmware.lm),
                    d.lastReady == Some(true), None)))
  {
    hide Client.Poll, Frp.SendTelemetry, Frp.HandleEvent, Encode;
    var e := Client.Poll(s.client, t.poll).1.event.value;
    var w := Frp.SetModelStep(s.frp.(d := s.frp.d.(firmware := Some(e.firmware.lm))), e.model);
    FrpReports.ReportLeaves(w, None, None, t.info);
    FrpReports.EventReported(Frp.SendTelemetry(w, None, None, t.info).0, e, t.out, t.id);
  }

  /** What an idle turn writes beyond the poll: nothing before the device is armed, or
      without a command that names a club or a hand; and else the selection of the
      club and the hand then in play. */
  lemma CommandWrites(s: State, t: Turn)
    requires !s.halted && Client.Poll(s.client, t.poll).1 == Client.Ok(None)
    ensures var c, s1 := Client.Poll(s.client, t.poll).0, TakeTurn(s, t);
            var cmds := Heard(s, LoopTurns(t));
            if s.armed && cmds != [] && (cmds[0].club.Some? || cmds[0].handed.Some?) then
              && |s1.client.attempts| == |c.attempts| + 1 && s1.client.attempts[..|c.attempts|] == c.attempts
              && s1.client.attempts[|c.attempts|].cmd == SelectClub(s1.club, s1.client.handed)
              && s1.client.attempts[|c.attempts|].ok == t.selectOk
            else s1.client.attempts == c.attempts
  {
    hide Client.Poll, Encode, OnIdle;
    IdleWrites(s.(client := Client.Poll(s.client, t.poll).0), t);
  }

  lemma IdleWrites(s: State, t: Turn)
    ensures var s1 := OnIdle(s, t); var c := s.client;
            var cmds := if Holds(s.frp, t.adopt) && t.recv.Message? && t.recv.msg.SetDetectionMode?
                        then [t.recv.msg.command] else [];
            if s.armed && cmds != [] && (cmds[0].club.Some? || cmds[0].handed.Some?) then
              && |s1.client.attempts| == |c.attempts| + 1 && s1.client.attempts[..|c.attempts|] == c.attempts
              && s1.client.attempts[|c.attempts|].cmd == SelectClub(s1.club, s1.client.handed)
              && s1.client.attempts[|c.attempts|].ok == t.selectOk
            else s1.client.attempts == c.attempts
  {
    hide Encode;
  }

  // ------------------------------------------------- what the controller asks for

  /** The command a step receives from the controller: the loop must be idle and a
      connection held, the one just adopted included. */
  function Heard(s: State, a: Action): seq<Frp.ControllerCommand> {
    if a.LoopTurns? && !s.halted && Client.Poll(s.client, a.turn.poll).1 == Client.Ok(None)
       && Holds(s.frp, a.turn.adopt) && a.turn.recv.Message? && a.turn.recv.msg.SetDetectionMode?
    then [a.turn.recv.msg.command] else []
  }

  /** A connection is held once the loop has adopted what waits. */
  predicate Holds(w: Frp.World, adopt: Frp.SendOutcome) {
    w.d.conn.Some? || (w.n.incoming != [] && !(w.d.telemetry.Some? && adopt.Closed?))
  }

  ghost function HeardIn(s: State, actions: seq<Action>): seq<Frp.ControllerCommand>
    requires CanRun(s, actions)
    decreases |actions|
  {
    if actions == [] then [] else Heard(s, actions[0]) + HeardIn(Step(s, actions[0]), actions[1..])
  }

  /** The last club named that the device has a code for, or `start`. */
  function ClubAsked(cmds: seq<Frp.ControllerCommand>, start: Club): Club {
    if cmds == [] then start
    else
      var n := |cmds| - 1;
      if cmds[n].club.Some? && cmds[n].club.value.Known? then cmds[n].club.value.club else ClubAsked(cmds[..n], start)
  }

  /** The last hand named, or `start`. */
  function HandAsked(cmds: seq<Frp.ControllerCommand>, start: Handed): Handed {
    if cmds == [] then start
    else
      var n := |cmds| - 1;
      if cmds[n].handed.Some? then cmds[n].handed.value else HandAsked(cmds[..n], start)
  }

  lemma {:induction false} AskedThen(xs: seq<Frp.ControllerCommand>, ys: seq<Frp.ControllerCommand>, c: Club, h: Handed)
    ensures ClubAsked(xs + ys, c) == ClubAsked(ys, ClubAsked(xs, c))
    ensures HandAsked(xs + ys, h) == HandAsked(ys, HandAsked(xs, h))
  {
    if ys == [] {
      assert xs + ys == xs;
    } else {
      var n := |ys| - 1;
      AskedThen(xs, ys[..n], c, h);
      assert (xs + ys)[..|xs| + n] == xs + ys[..n];
    }
  }

  lemma ClientKeepsHand(c: Client.State, club: Club, ok1: bool, ok2: bool)
    ensures Client.ArmStep(c, club, Advanced, ok1, ok2).handed == c.handed
    ensures Client.SelectClubStep(c, club, ok1).handed == c.handed
  {
    hide Encode;
  }

  /** A step changes the club and the hand in play as the command it receives asks,
      and not otherwise. */
  lemma StepAsks(s: State, a: Action)
    requires Enabled(s, a)
    ensures Step(s, a).club == ClubAsked(Heard(s, a), s.club)
    ensures Step(s, a).client.handed == HandAsked(Heard(s, a), s.client.handed)
  {
    hide Client.Poll, Frp.HandleEvent, Frp.SendTelemetry, Client.ArmStep, Client.SelectClubStep, OnIdle;
    if a.LoopTurns? && !s.halted {
      var t := a.turn;
      PollSelection(s.client, t.poll);
      var (c, r) := Client.Poll(s.client, t.poll);
      ClientKeepsHand(c, s.club, t.armOk1, t.armOk2);
      if r == Client.Ok(None) {
        IdleAsks(s.(client := c), t);
      }
    }
  }

  lemma IdleAsks(s: State, t: Turn)
    ensures var cmds := if Holds(s.frp, t.adopt) && t.recv.Message? && t.recv.msg.SetDetectionMode?
                        then [t.recv.msg.command] else [];
            OnIdle(s, t).club == ClubAsked(cmds, s.club)
            && OnIdle(s, t).client.handed == HandAsked(cmds, s.client.handed)
            && OnIdle(s, t).halted == s.halted
  {
    hide Client.SelectClubStep;
    ClientKeepsHand(s.client.(handed := Left), s.club, t.selectOk, true);
    forall c: Client.State, club ensures Client.SelectClubStep(c, club, t.selectOk).handed == c.handed {
      ClientKeepsHand(c, club, t.selectOk, true);
    }
  }

  lemma {:induction false} RunAsks(s: State, actions: seq<Action>)
    requires CanRun(s, actions)
    ensures Run(s, actions).club == ClubAsked(HeardIn(s, actions), s.club)
    ensures Run(s, actions).client.handed == HandAsked(HeardIn(s, actions), s.client.handed)
    decreases |actions|
  {
    hide Step, Enabled, Heard;
    if actions != [] {
      StepAsks(s, actions[0]);
      RunAsks(Step(s, actions[0]), actions[1..]);
      AskedThen(Heard(s, actions[0]), HeardIn(Step(s, actions[0]), actions[1..]), s.club, s.client.handed);
    }
  }

  /** Over every run, the club in play is the last one a controller named that the
      device has a code for, or the one the program started with; the hand is the last
      one named, or the right. Once armed, with every write succeeding, these are what
      the device was last told to select. */
  lemma SelectionIsAsked(fp: Rounding, now1: Client.Time, now2: Client.Time, cal: map<Club, real>, club: Club,
                         name: string, actions: seq<Action>)
    requires CanRun(Started(fp, now1, now2, cal, club, name), actions)
    ensures var s0 := Started(fp, now1, now2, cal, club, name); var s := Run(s0, actions);
            var asked, hand := ClubAsked(HeardIn(s0, actions), club), HandAsked(HeardIn(s0, actions), Right);
            && s.club == asked && s.client.handed == hand
            && (s.armed && AllWritten(s.client.attempts) ==>
                  LastSelection(s.client.attempts) == Some(SelectClub(asked, hand)))
  {
    hide Run, CanRun, HeardIn;
    RunAsks(Started(fp, now1, now2, cal, club, name), actions);
    SelectionFollowsController(fp, now1, now2, cal, club, name, actions);
  }

  // ------------------------------------------------ what the controller is told

  /** READY as the client's events have it: unknown before any state or shot, then
      true exactly after the state Ready. */
  function EventsReady(events: seq<Client.Event>): Option<bool> {
    if events == [] then None
    else
      var n := |events| - 1;
      if events[n].StateChanged? || events[n].ShotEvent? then Some(events[n] == Client.StateChanged(DeviceState.Ready))
      else EventsReady(events[..n])
  }

  /** The last report those events called for: the announcement, a change of READY, or
      the battery's percentage. */
  function EventsReport(events: seq<Client.Event>, name: string): Option<Frp.Envelope> {
    if events == [] || !events[0].Connected? then None
    else
      var n := |events| - 1;
      if events[n].Connected? || events[n].Battery? || EventsReady(events) != EventsReady(events[..n]) then
        Some(Frp.Envelope(name, Frp.Telemetry(
          if events[0].model == "" then None else Some(events[0].model), Some(events[0].firmware.lm),
          EventsReady(events) == Some(true), if events[n].Battery? then Some(events[n].percent) else None)))
      else EventsReport(events[..n], name)
  }

  /** What the adapter knows of the device is what the client announced and what the
      program named it. */
  ghost predicate Knows(d: Frp.Device, events: seq<Client.Event>, name: string) {
    && d.name == name && d.lastReady == EventsReady(events) && d.telemetry == EventsReport(events, name)
    && (events == [] ==> d.firmware == None && d.model == None)
    && (events != [] ==>
          && events[0].Connected? && d.firmware == Some(events[0].firmware.lm)
          && d.model == (if events[0].model == "" then None else Some(events[0].model)))
  }

  lemma TurnKnows(s: State, t: Turn, name: string)
    requires Inv(s) && Knows(s.frp.d, s.client.events, name)
    ensures Knows(TakeTurn(s, t).frp.d, TakeTurn(s, t).client.events, name)
  {
    hide Client.Poll, OnEvent, OnIdle, ClientRuns.Inv, FrpStream.StreamInv, SelectionInv, Numbered, Knows;
    if !s.halted {
      ClientRuns.PollKeeps(s.client, t.poll);
      PollRecords(s.client, t.poll);
      var (c, r) := Client.Poll(s.client, t.poll);
      assert s.client.events + [] == s.client.events;
      if r.Ok? && r.event.Some? {
        EventKnows(s.(client := c), s.client.events, r.event.value, t, name);
      } else if r.Ok? {
        IdleKnows(s.(client := c), t, name);
      }
    }
  }

  lemma IdleKnows(s: State, t: Turn, name: string)
    requires Knows(s.frp.d, s.client.events, name) && !s.frp.n.deviceGone
    ensures Knows(OnIdle(s, t).frp.d, OnIdle(s, t).client.events, name)
  {
    hide Frp.PollConnection, Frp.CheckController, EventsReady, Encode;
    var w1 := Frp.PollConnection(s.frp, t.adopt).0;
    FrpReports.OthersReport(s.frp, Frp.DoPollConnection(t.adopt));
    assert SameShots(s.frp, w1) by { IdleNumbers(s.frp, t.adopt, t.recv); }
    FrpReports.OthersReport(w1, Frp.DoCheckController(t.recv));
  }

  /** The client announces itself first, and once. */
  lemma AnnouncedFirst(c: Client.State, before: seq<Client.Event>, e: Client.Event)
    requires ClientRuns.Inv(c) && c.events == before + [e]
    ensures e.Connected? <==> before == []
  {
    ClientTheorems.ConnectedOnlyOnce(c.fp, c.handled);
    if before != [] {
      assert c.events[1..][|before| - 1] == e;
    } else {
      assert c.events[0] == e;
    }
  }

  lemma EventKnows(s: State, before: seq<Client.Event>, e: Client.Event, t: Turn, name: string)
    requires ClientRuns.Inv(s.client) && s.client.events == before + [e] && !s.halted
    requires Knows(s.frp.d, before, name)
    ensures Knows(OnEvent(s, e, t).frp.d, OnEvent(s, e, t).client.events, name)
  {
    hide ClientRuns.Inv, Frp.HandleEvent, Frp.SendTelemetry, Client.ArmStep;
    AnnouncedFirst(s.client, before, e);
    assert (before + [e])[..|before|] == before;
    ArmKeeps(s.client, s.club, t.armOk1, t.armOk2);
    if e.Connected? {
      var w := Frp.SetModelStep(s.frp.(d := s.frp.d.(firmware := Some(e.firmware.lm))), e.model);
      FrpReports.ReportLeaves(w, None, None, t.info);
      var w1 := Frp.SendTelemetry(w, None, None, t.info).0;
      FrpReports.EventReported(w1, e, t.out, t.id);
    } else {
      FrpReports.EventReported(s.frp, e, t.out, t.id);
      if e.StateChanged? {
        FrpReports.ReportLeaves(s.frp, Some(e.state == DeviceState.Ready), None, t.out(0));
      } else if e.Battery? {
        FrpReports.ReportLeaves(s.frp, None, Some(e.percent), t.out(0));
      } else if e.ShotEvent? {
        FrpReports.ReportLeaves(s.frp, Some(false), None, t.out(0));
      }
    }
  }

  lemma {:induction false} RunKnows(s: State, actions: seq<Action>, name: string)
    requires Inv(s) && CanRun(s, actions) && Knows(s.frp.d, s.client.events, name)
    ensures Knows(Run(s, actions).frp.d, Run(s, actions).client.events, name)
    decreases |actions|
  {
    hide Inv, TakeTurn, Knows, Frp.AcceptorMove;
    if actions != [] {
      StepKeeps(s, actions[0]);
      if actions[0].LoopTurns? {
        TurnKnows(s, actions[0].turn, name);
      }
      RunKnows(Step(s, actions[0]), actions[1..], name);
    }
  }

  /** Over every run: the READY last reported is that of the last state or shot among
      the events due for the frames read, and the name, model and firmware are the
      program's and the device's own. On a connection without a failed send it is what
      the controller last heard. */
  lemma ControllerHearsDevice(fp: Rounding, now1: Client.Time, now2: Client.Time, cal: map<Club, real>, club: Club,
                              name: string, actions: seq<Action>)
    requires CanRun(Started(fp, now1, now2, cal, club, name), actions)
    ensures var s := Run(Started(fp, now1, now2, cal, club, name), actions); var w := s.frp;
            && Knows(w.d, s.client.events, name)
            && (s.client.phase.Active? ==>
                  s.client.events != [] && s.client.events[1..] == ClientRuns.EventsOf(fp, s.client.handled))
            && (w.d.conn.Some? && !w.h.broken ==>
                  FrpStream.LastTelemetry(w.h.live) == EventsReport(s.client.events, name))
            && (w.d.conn.Some? && !w.h.broken && w.d.telemetry.Some? ==>
                  FrpStream.ReadyOf(FrpStream.LastTelemetry(w.h.live))
                  == Some(EventsReady(s.client.events) == Some(true)))
  {
    hide Run, CanRun, FrpStream.LastTelemetry, FrpStream.Scan, FrpStream.EndedInv, Numbered, SelectionInv;
    var s0 := Started(fp, now1, now2, cal, club, name);
    StartedInv(fp, now1, now2, cal, club, name);
    RunKnows(s0, actions, name);
    Reachable(fp, now1, now2, cal, club, name, actions);
  }

  lemma StartedInv(fp: Rounding, now1: Client.Time, now2: Client.Time, cal: map<Club, real>, club: Club, name: string)
    ensures Inv(Started(fp, now1, now2, cal, club, name))
    ensures Knows(Started(fp, now1, now2, cal, club, name).frp.d, [], name)
  {
    Reachable(fp, now1, now2, cal, club, name, []);
  }
}
