/** What the adapter reports of the device, over every interleaving, as a function
    of the events it was given. */
module FrpReports {
  import opened Common
  import opened Protocol
  import opened Frp
  import opened FrpStream
  import Client

  // ------------------------------------------------ what the actions ask for

  /** The events that say whether a ball is ready. */
  predicate SaysReady(a: Action) {
    a.DoHandleEvent? && (a.event.StateChanged? || a.event.ShotEvent?)
  }

  /** The last of them, with the READY it means: true for the device state Ready
      and for nothing else. */
  function LastReady(actions: seq<Action>): Option<bool> {
    if actions == [] then None
    else
      var n := |actions| - 1;
      if SaysReady(actions[n]) then Some(actions[n].event == Client.StateChanged(DeviceState.Ready))
      else LastReady(actions[..n])
  }

  function LastName(actions: seq<Action>): string {
    if actions == [] then ""
    else
      var n := |actions| - 1;
      if actions[n].DoSetName? then actions[n].name else LastName(actions[..n])
  }

  function LastFirmware(actions: seq<Action>): Option<string> {
    if actions == [] then None
    else
      var n := |actions| - 1;
      if actions[n].DoSetFirmware? then Some(actions[n].fw) else LastFirmware(actions[..n])
  }

  /** An empty model name is no news. */
  function LastModel(actions: seq<Action>): Option<string> {
    if actions == [] then None
    else
      var n := |actions| - 1;
      if actions[n].DoSetModel? && actions[n].model != "" then Some(actions[n].model) else LastModel(actions[..n])
  }

  /** Whether an action makes a report to the controller, given those before it. A
      READY value already reported makes none. */
  predicate MakesReport(before: seq<Action>, a: Action) {
    || a.DoSendDeviceInfo?
    || (a.DoHandleEvent? && a.event.Battery?)
    || (SaysReady(a) && LastReady(before) != LastReady(before + [a]))
  }

  /** The last report made: what was known of the device then, and the battery's
      percentage if the battery was its occasion. */
  function LastReport(actions: seq<Action>): Option<Envelope> {
    if actions == [] then None
    else
      var n := |actions| - 1;
      var a := actions[n];
      if MakesReport(actions[..n], a) then
        Some(Envelope(LastName(actions), Telemetry(
          LastModel(actions), LastFirmware(actions), LastReady(actions) == Some(true),
          if a.DoHandleEvent? && a.event.Battery? then Some(a.event.percent) else None)))
      else LastReport(actions[..n])
  }

  // ------------------------------------------------------------ what is reported

  ghost predicate Reported(actions: seq<Action>, d: Device) {
    && d.name == LastName(actions) && d.firmware == LastFirmware(actions) && d.model == LastModel(actions)
    && d.lastReady == LastReady(actions) && d.telemetry == LastReport(actions)
  }

  /** The fields of the device that only reports and settings touch. */
  ghost predicate SameReports(a: Device, b: Device) {
    a.name == b.name && a.firmware == b.firmware && a.model == b.model && a.lastReady == b.lastReady
    && a.telemetry == b.telemetry
  }

  lemma SendTouchesNone(w: World, env: Envelope, o: SendOutcome)
    ensures SameReports(w.d, SendEnvelope(w, env, o).0.d)
  {}

  lemma {:induction false} SendEventsTouchNone(w: World, events: seq<FrpEvent>, out: nat -> SendOutcome, i: nat)
    ensures SameReports(w.d, SendEvents(w, events, out, i).0.d)
    decreases |events|
  {
    if events != [] && w.d.conn.Some? {
      var env := Envelope(w.d.name, events[0]);
      SendTouchesNone(w, env, out(i));
      var (w1, ok) := SendEnvelope(w, env, out(i));
      if ok {
        SendEventsTouchNone(w1, events[1..], out, i + 1);
      }
    }
  }

  /** What a report leaves, whether or not it could be sent. */
  lemma ReportLeaves(w: World, ready: Option<bool>, battery: Option<Byte>, o: SendOutcome)
    ensures var d, d1 := w.d, SendTelemetry(w, ready, battery, o).0.d;
            && d1.name == d.name && d1.firmware == d.firmware && d1.model == d.model
            && if battery.None? && ready.Some? && ready == d.lastReady then SameReports(d, d1)
               else
                 && d1.lastReady == (if ready.Some? then ready else d.lastReady)
                 && d1.telemetry
                    == Some(Envelope(d.name, Telemetry(d.model, d.firmware, d1.lastReady == Some(true), battery)))
  {
    hide SendEnvelope;
    var env := TelemetryNow(w.d, ready, battery);
    SendTouchesNone(w.(d := w.d.(lastReady := LatestReady(w.d, ready), telemetry := Some(env))), env, o);
  }

  /** An event makes at most one report: READY for a state, false for a shot, the
      percentage for the battery; and none for anything else. */
  lemma EventReported(w: World, e: Client.Event, out: nat -> SendOutcome, id: string)
    ensures var d1 := HandleEvent(w, e, out, id).0.d;
            if e.StateChanged? then
              SameReports(SendTelemetry(w, Some(e.state == DeviceState.Ready), None, out(0)).0.d, d1)
            else if e.Battery? then SameReports(SendTelemetry(w, None, Some(e.percent), out(0)).0.d, d1)
            else if e.ShotEvent? then SameReports(SendTelemetry(w, Some(false), None, out(0)).0.d, d1)
            else SameReports(w.d, d1)
  {
    hide SendTelemetry, SendEvents, Block;
    if e.ShotEvent? {
      var w1 := SendTelemetry(w, Some(false), None, out(0)).0;
      var s := ShotData(e.ball, e.club, id);
      var w2 := NumberShot(w1, s);
      SendEventsTouchNone(w2, Block(w2.d.shotNumber, s), out, 1);
    }
  }

  /** Each step keeps the device's report what the actions ask for. */
  lemma ReportedSnoc(actions: seq<Action>, w: World, a: Action)
    requires Reported(actions, w.d) && Enabled(w, a)
    ensures Reported(actions + [a], Step(w, a).d)
  {
    hide SendTelemetry, HandleEvent, SendEnvelope, Step;
    assert (actions + [a])[..|actions|] == actions;
    if a.DoHandleEvent? {
      EventKeepsReport(actions, w, a);
    } else if a.DoSendDeviceInfo? {
      ReportLeaves(w, None, None, a.o);
      StepIs(w, a);
    } else {
      OthersReport(w, a);
    }
  }

  lemma StepIs(w: World, a: Action)
    requires Enabled(w, a)
    ensures a.DoSendDeviceInfo? ==> Step(w, a) == SendTelemetry(w, None, None, a.o).0
    ensures a.DoHandleEvent? ==> Step(w, a) == HandleEvent(w, a.event, a.out, a.id).0
  {
    hide SendTelemetry, HandleEvent;
  }

  lemma EventKeepsReport(actions: seq<Action>, w: World, a: Action)
    requires Reported(actions, w.d) && Enabled(w, a) && a.DoHandleEvent?
    ensures Reported(actions + [a], Step(w, a).d)
  {
    hide SendTelemetry, HandleEvent, SendEnvelope, Step;
    assert (actions + [a])[..|actions|] == actions;
    StepIs(w, a);
    var e := a.event;
    EventReported(w, e, a.out, a.id);
    if e.StateChanged? {
      ReportLeaves(w, Some(e.state == DeviceState.Ready), None, a.out(0));
    } else if e.Battery? {
      ReportLeaves(w, None, Some(e.percent), a.out(0));
    } else if e.ShotEvent? {
      ReportLeaves(w, Some(false), None, a.out(0));
    }
  }

  /** Steps that report nothing, settings included. */
  lemma OthersReport(w: World, a: Action)
    requires Enabled(w, a) && !a.DoHandleEvent? && !a.DoSendDeviceInfo?
    ensures var d, d1 := w.d, Step(w, a).d;
            && d1.name == (if a.DoSetName? then a.name else d.name)
            && d1.firmware == (if a.DoSetFirmware? then Some(a.fw) else d.firmware)
            && d1.model == (if a.DoSetModel? && a.model != "" then Some(a.model) else d.model)
            && d1.lastReady == d.lastReady && d1.telemetry == d.telemetry
  {
    hide SendEnvelope;
    if a.DoPollConnection? && w.d.conn.None? && w.n.incoming != [] && w.d.telemetry.Some? {
      var w1 := World(
        w.d.(pending := false, conn := Some(w.n.incoming[0])), w.n.(incoming := w.n.incoming[1..]),
        w.h.(live := [], from := |w.h.shots|, broken := false));
      SendTouchesNone(w1, w.d.telemetry.value, a.o);
    }
  }

  lemma {:induction false} RunReported(before: seq<Action>, w: World, actions: seq<Action>)
    requires Reported(before, w.d) && CanRun(w, actions)
    ensures Reported(before + actions, Run(w, actions).d)
    decreases |actions|
  {
    hide Reported, Step, Enabled;
    if actions == [] {
      assert before + actions == before;
    } else {
      ReportedSnoc(before, w, actions[0]);
      RunReported(before + [actions[0]], Step(w, actions[0]), actions[1..]);
      assert before + [actions[0]] + actions[1..] == before + actions;
    }
  }

  // -------------------------------------------------------------- main results

  /** Over every interleaving of the two threads, and whatever sends fail: what the
      device has cached for its controllers is the last report the events and
      settings called for, with the name, model, firmware and READY of that moment. */
  lemma CacheFollowsEvents(actions: seq<Action>)
    requires CanRun(SPAWNED, actions)
    ensures var d := Run(SPAWNED, actions).d;
            d.telemetry == LastReport(actions) && d.lastReady == LastReady(actions)
  {
    hide CanRun, Run;
    assert Reported([], SPAWNED.d);
    RunReported([], SPAWNED, actions);
    assert [] + actions == actions;
  }

  /** READY in so many words: unknown before any state or shot, and else true exactly
      when the last of those events was the state Ready. */
  lemma ReadyFollowsEvents(actions: seq<Action>, i: nat)
    requires CanRun(SPAWNED, actions) && i < |actions| && SaysReady(actions[i])
    requires forall j :: i < j < |actions| ==> !SaysReady(actions[j])
    ensures Run(SPAWNED, actions).d.lastReady == Some(actions[i].event == Client.StateChanged(DeviceState.Ready))
  {
    hide CanRun, Run;
    CacheFollowsEvents(actions);
    LastReadyIs(actions, i);
  }

  lemma {:induction false} LastReadyIs(actions: seq<Action>, i: nat)
    requires i < |actions| && SaysReady(actions[i])
    requires forall j :: i < j < |actions| ==> !SaysReady(actions[j])
    ensures LastReady(actions) == Some(actions[i].event == Client.StateChanged(DeviceState.Ready))
  {
    var n := |actions| - 1;
    if i < n {
      assert !SaysReady(actions[n]);
      LastReadyIs(actions[..n], i);
    }
  }

  /** What a controller knows: on a connection without a failed send, the last
      telemetry received is that report, and its READY that of the last state or
      shot. */
  lemma ControllerKnows(actions: seq<Action>)
    requires CanRun(SPAWNED, actions)
    ensures var w := Run(SPAWNED, actions);
            w.d.conn.Some? && !w.h.broken ==>
              && LastTelemetry(w.h.live) == LastReport(actions)
              && (LastReport(actions).Some? ==>
                    ReadyOf(LastTelemetry(w.h.live)) == Some(LastReady(actions) == Some(true)))
  {
    hide CanRun, Run, LastTelemetry, ReadyOf;
    ControllerView(actions);
    CacheFollowsEvents(actions);
    ReadyIs(LastReady(actions));
  }

  lemma ReadyIs(ready: Option<bool>)
    ensures ready.GetOr(false) == (ready == Some(true))
  {}
}
