/** A btleplug transport's link after it is connected (src/btleplug_transport.rs):
    the caller and the notification pump share two flags and a channel. */
module LinkLife {
  import opened Common

  /** What a read returns: a payload cut to the buffer, nothing yet, or end of link. */
  datatype ReadResult = Data(bytes: Frame) | Empty | End

  /** The pump: forwarding; told that the link ended and about to publish it, in
      two stores; or finished, which closes the channel. */
  datatype Pump = Forwarding | StoringReleased(reported: bool) | StoringDown | Finished

  /** The caller: between calls, or part way through `disconnect` or `drop`. */
  datatype Caller = Ready | Disconnecting(issue: bool) | Closing | Dropping(issue: bool) | Gone

  /** `disconnects` counts the requests issued to the BLE stack; `sawReleased`
      records that the flag was set when the caller looked; `forwarded` and
      `results` are everything the pump sent and every read's result. */
  datatype Link = Link(
    closed: bool, down: bool, released: bool, pump: Pump, abortAsked: bool, caller: Caller,
    channel: seq<Frame>, disconnects: nat, sawReleased: bool, forwarded: seq<Frame>, results: seq<ReadResult>)

  const CONNECTED: Link := Link(false, false, false, Forwarding, false, Ready, [], 0, false, [], [])

  datatype Step =
    | PumpData(bytes: Frame)          // a notification arrives
    | PumpClosed(reported: bool)      // the link ends; the stack may have reported it
    | PumpStoreReleased
    | PumpStoreDown
    | PumpAborted                     // a requested abort takes effect
    | CallDisconnect                  // looks at the flags
    | IssueDisconnect                 // asks the stack to disconnect
    | FinishDisconnect
    | CallDrop
    | CallRead(size: nat)

  predicate Enabled(l: Link, step: Step) {
    match step
    case PumpData(_) => l.pump.Forwarding?
    case PumpClosed(_) => l.pump.Forwarding?
    case PumpStoreReleased => l.pump.StoringReleased?
    case PumpStoreDown => l.pump.StoringDown?
    case PumpAborted => l.abortAsked && l.pump.Forwarding?
    case CallDisconnect => l.caller.Ready?
    case IssueDisconnect => (l.caller.Disconnecting? || l.caller.Dropping?) && l.caller.issue
    case FinishDisconnect => l.caller.Closing? || ((l.caller.Disconnecting? || l.caller.Dropping?) && !l.caller.issue)
    case CallDrop => l.caller.Ready?
    case CallRead(_) => l.caller.Ready?
  }

  function Next(l: Link, step: Step): Link
    requires Enabled(l, step)
  {
    match step
    case PumpData(bytes) =>
      if l.caller.Gone? then l.(pump := Finished)
      else l.(channel := l.channel + [bytes], forwarded := l.forwarded + [bytes])
    case PumpClosed(reported) => l.(pump := StoringReleased(reported))
    case PumpStoreReleased => l.(released := l.pump.reported, pump := StoringDown)
    case PumpStoreDown => l.(down := true, pump := Finished)
    case PumpAborted => l.(pump := Finished)
    case CallDisconnect =>
      if l.closed then l else l.(caller := Disconnecting(!l.released), sawReleased := l.released)
    case IssueDisconnect =>
      l.(disconnects := l.disconnects + 1, caller := if l.caller.Disconnecting? then Closing else Gone)
    case FinishDisconnect =>
      if l.caller.Dropping? then l.(caller := Gone)
      else l.(closed := true, down := true, abortAsked := true, caller := Ready)
    case CallDrop =>
      if l.closed then l.(abortAsked := true, caller := Gone)
      else l.(abortAsked := true, caller := Dropping(!l.released), sawReleased := l.released)
    case CallRead(size) =>
      if l.channel != [] then l.(channel := l.channel[1..], results := l.results + [Data(Cut(l.channel[0], size))])
      else l.(results := l.results + [if l.pump.Finished? then End else Empty])
  }

  ghost predicate CanRun(l: Link, steps: seq<Step>)
    decreases |steps|
  {
    steps == [] || (Enabled(l, steps[0]) && CanRun(Next(l, steps[0]), steps[1..]))
  }

  function Run(l: Link, steps: seq<Step>): Link
    requires CanRun(l, steps)
    decreases |steps|
  {
    if steps == [] then l else Run(Next(l, steps[0]), steps[1..])
  }

  // ------------------------------------------------------------- the invariant

  /** The payloads among some read results. */
  function Payloads(results: seq<ReadResult>): seq<Frame> {
    if results == [] then []
    else
      var n := |results| - 1;
      Payloads(results[..n]) + if results[n].Data? then [results[n].bytes] else []
  }

  /** `got` are the first frames of `sent`, each perhaps cut short. */
  ghost predicate CutsOf(got: seq<Frame>, sent: seq<Frame>) {
    |got| <= |sent| && forall i :: 0 <= i < |got| ==> got[i] <= sent[i]
  }

  /** One disconnect at the very most, and none that was not called for. */
  ghost predicate ReleaseInv(l: Link) {
    && (l.caller.Ready? && !l.closed ==> l.disconnects == 0)
    && (l.caller.Disconnecting? || l.caller.Dropping? ==>
          !l.closed && l.disconnects == 0 && (l.sawReleased <==> !l.caller.issue))
    && (l.caller.Closing? ==> !l.closed && l.disconnects == 1 && !l.sawReleased)
    && (l.closed || l.caller.Gone? ==> l.disconnects == if l.sawReleased then 0 else 1)
    && (l.closed ==> l.down)
  }

  /** The pump writes the released flag once, before the down flag. */
  ghost predicate PumpInv(l: Link) {
    && (l.pump.Forwarding? || l.pump.StoringReleased? ==> !l.released)
    && (l.released ==> l.pump.StoringDown? || l.pump.Finished?)
  }

  /** What was forwarded is what was read, in order, and what waits. */
  ghost predicate DrainInv(l: Link) {
    && |l.forwarded| == |Payloads(l.results)| + |l.channel|
    && l.forwarded[|Payloads(l.results)|..] == l.channel
    && CutsOf(Payloads(l.results), l.forwarded)
    && (End in l.results ==> l.pump.Finished? && l.channel == [])
    && (forall i, j :: 0 <= i < j < |l.results| && l.results[i] == End ==> l.results[j] == End)
  }

  ghost predicate Inv(l: Link) {
    ReleaseInv(l) && PumpInv(l) && DrainInv(l)
  }

  lemma PayloadsSnoc(results: seq<ReadResult>, r: ReadResult)
    ensures Payloads(results + [r]) == Payloads(results) + if r.Data? then [r.bytes] else []
  {}

  lemma ReadKeeps(l: Link, size: nat)
    requires DrainInv(l) && l.caller.Ready?
    ensures DrainInv(Next(l, CallRead(size)))
  {
    hide Payloads, Cut;
    var n := |Payloads(l.results)|;
    var r := if l.channel != [] then Data(Cut(l.channel[0], size)) else if l.pump.Finished? then End else Empty;
    PayloadsSnoc(l.results, r);
    var m := Next(l, CallRead(size));
    assert m.results == l.results + [r];
    if l.channel != [] {
      assert l.forwarded[n] == l.forwarded[n..][0] == l.channel[0];
      CutIsPrefix(l.channel[0], size);
      assert l.forwarded[n + 1..] == l.forwarded[n..][1..];
    } else {
      assert Payloads(l.results) + [] == Payloads(l.results);
    }
  }

  lemma CutIsPrefix(bytes: Frame, size: nat)
    ensures Cut(bytes, size) <= bytes
  {}

  lemma CutsOfMore(got: seq<Frame>, sent: seq<Frame>, bytes: Frame)
    requires CutsOf(got, sent)
    ensures CutsOf(got, sent + [bytes])
  {}

  lemma DataKeeps(l: Link, bytes: Frame)
    requires DrainInv(l) && l.pump.Forwarding?
    ensures DrainInv(Next(l, PumpData(bytes)))
  {
    hide Payloads, CutsOf;
    var n := |Payloads(l.results)|;
    assert (l.forwarded + [bytes])[n..] == l.forwarded[n..] + [bytes];
    CutsOfMore(Payloads(l.results), l.forwarded, bytes);
  }

  /** The other steps forward nothing and read nothing. */
  lemma OthersKeepDrain(l: Link, step: Step)
    requires DrainInv(l) && Enabled(l, step) && !step.CallRead? && !step.PumpData?
    ensures DrainInv(Next(l, step))
  {}

  lemma StepKeepsRelease(l: Link, step: Step)
    requires ReleaseInv(l) && PumpInv(l) && Enabled(l, step)
    ensures ReleaseInv(Next(l, step)) && PumpInv(Next(l, step)) && NoFlagCleared(l, Next(l, step))
  {
    hide Cut;
  }

  /** Each step keeps the invariant and never clears a flag. */
  lemma StepKeeps(l: Link, step: Step)
    requires Inv(l) && Enabled(l, step)
    ensures Inv(Next(l, step)) && NoFlagCleared(l, Next(l, step))
  {
    hide DrainInv, ReleaseInv, PumpInv, NoFlagCleared, Next;
    StepKeepsRelease(l, step);
    match step
    case CallRead(size) => ReadKeeps(l, size);
    case PumpData(bytes) => DataKeeps(l, bytes);
    case _ => OthersKeepDrain(l, step);
  }

  ghost predicate NoFlagCleared(l: Link, m: Link) {
    && (l.closed ==> m.closed) && (l.down ==> m.down) && (l.released ==> m.released)
    && (l.pump.Finished? ==> m.pump.Finished?) && l.disconnects <= m.disconnects && l.results <= m.results
  }

  lemma {:induction false} RunKeeps(l: Link, steps: seq<Step>)
    requires Inv(l) && CanRun(l, steps)
    ensures Inv(Run(l, steps)) && NoFlagCleared(l, Run(l, steps))
    decreases |steps|
  {
    hide Inv;
    if steps != [] {
      StepKeeps(l, steps[0]);
      RunKeeps(Next(l, steps[0]), steps[1..]);
    }
  }

  // -------------------------------------------------------------- main results

  /** Over a transport's whole life, and however the pump's stores fall between
      the caller's steps, the stack is asked to disconnect at most once; and
      exactly once by the time the transport is closed or dropped, unless the
      caller found the released flag set. */
  lemma DisconnectOnce(steps: seq<Step>)
    requires CanRun(CONNECTED, steps)
    ensures var l := Run(CONNECTED, steps);
            && l.disconnects <= 1
            && (l.closed || l.caller.Gone? ==> (l.disconnects == 1 <==> !l.sawReleased))
  {
    hide Run, CanRun;
    RunKeeps(CONNECTED, steps);
  }

  /** Flags and the end of the stream are for ever: from any reachable state on. */
  lemma FlagsNeverClear(before: seq<Step>, after: seq<Step>)
    requires CanRun(CONNECTED, before) && CanRun(Run(CONNECTED, before), after)
    ensures var l := Run(CONNECTED, before); var m := Run(l, after);
            && NoFlagCleared(l, m)
            && (l.closed ==> l.down)
            && (l.released ==> m.released)
  {
    hide CanRun;
    RunKeeps(CONNECTED, before);
    RunKeeps(Run(CONNECTED, before), after);
  }

  /** Where the caller first looks at the flags: `disconnect` or `drop`. */
  function FirstLook(steps: seq<Step>): nat {
    if steps == [] then 0
    else if steps[0].CallDisconnect? || steps[0].CallDrop? then 0
    else 1 + FirstLook(steps[1..])
  }

  /** The stack has reported the disconnect and the pump has published it. */
  predicate Reported(steps: seq<Step>) {
    PumpClosed(true) in steps && PumpStoreReleased in steps
  }

  /** What a run leaves of the pump and its flags, read off the steps. */
  ghost predicate PumpTold(steps: seq<Step>, l: Link) {
    && (l.released <==> Reported(steps))
    && (l.down <==> PumpStoreDown in steps || l.closed)
    && (l.pump.Forwarding? ==>
          && PumpClosed(true) !in steps && PumpClosed(false) !in steps
          && PumpStoreReleased !in steps && PumpStoreDown !in steps)
    && (l.pump.StoringReleased? ==>
          && PumpClosed(l.pump.reported) in steps && PumpClosed(!l.pump.reported) !in steps
          && PumpStoreReleased !in steps && PumpStoreDown !in steps)
    && (l.pump.StoringDown? ==> PumpStoreReleased in steps && PumpStoreDown !in steps)
  }

  /** The notifications that arrive. */
  function Arriving(steps: seq<Step>): seq<Frame> {
    if steps == [] then []
    else
      var last := steps[|steps| - 1];
      Arriving(steps[..|steps| - 1]) + if last.PumpData? then [last.bytes] else []
  }

  /** Every notification is forwarded while the transport lives; ending it asks the
      pump to stop. */
  ghost predicate ForwardTold(steps: seq<Step>, l: Link) {
    && (if l.caller.Gone? then l.forwarded <= Arriving(steps) else l.forwarded == Arriving(steps))
    && (l.closed || l.caller.Dropping? || l.caller.Gone? ==> l.abortAsked)
  }

  lemma ForwardToldSnoc(steps: seq<Step>, l: Link, step: Step)
    requires ForwardTold(steps, l) && Enabled(l, step)
    ensures ForwardTold(steps + [step], Next(l, step))
  {
    hide Cut;
    assert (steps + [step])[..|steps|] == steps;
    assert Arriving(steps) + [] == Arriving(steps);
  }

  /** What it leaves of the caller, and what the caller saw. */
  ghost predicate LookTold(steps: seq<Step>, l: Link) {
    var look := FirstLook(steps);
    && look <= |steps|
    && (look == |steps| <==> l.caller.Ready? && !l.closed)
    && (look < |steps| ==> (l.sawReleased <==> Reported(steps[..look])))
  }

  lemma {:induction false} RunSnoc(l: Link, steps: seq<Step>, step: Step)
    requires CanRun(l, steps + [step])
    ensures CanRun(l, steps) && Enabled(Run(l, steps), step) && Run(l, steps + [step]) == Next(Run(l, steps), step)
    decreases |steps|
  {
    hide Next, Enabled;
    if steps == [] {
      assert [] + [step] == [step] && [step][1..] == [];
    } else {
      assert (steps + [step])[1..] == steps[1..] + [step];
      RunSnoc(Next(l, steps[0]), steps[1..], step);
    }
  }

  lemma {:induction false} FirstLookSnoc(steps: seq<Step>, step: Step)
    ensures FirstLook(steps) <= |steps|
    ensures FirstLook(steps + [step])
         == if FirstLook(steps) < |steps| || step.CallDisconnect? || step.CallDrop? then FirstLook(steps)
            else |steps| + 1
  {
    if steps != [] {
      assert (steps + [step])[1..] == steps[1..] + [step];
      FirstLookSnoc(steps[1..], step);
    }
  }

  lemma PumpToldSnoc(steps: seq<Step>, l: Link, step: Step)
    requires PumpTold(steps, l) && Enabled(l, step)
    ensures PumpTold(steps + [step], Next(l, step))
  {
    hide Cut;
    assert forall x :: x in steps + [step] <==> x in steps || x == step;
  }

  lemma LookToldSnoc(steps: seq<Step>, l: Link, step: Step)
    requires LookTold(steps, l) && ReleaseInv(l) && Enabled(l, step) && (l.released <==> Reported(steps))
    ensures LookTold(steps + [step], Next(l, step))
  {
    hide FirstLook, Cut, Reported;
    FirstLookSnoc(steps, step);
    var look := FirstLook(steps);
    assert (steps + [step])[..look] == steps[..look];
    assert steps[..|steps|] == steps;
  }

  lemma {:induction false} RunTold(steps: seq<Step>)
    requires CanRun(CONNECTED, steps)
    ensures var l := Run(CONNECTED, steps); PumpTold(steps, l) && LookTold(steps, l) && ForwardTold(steps, l)
  {
    hide CanRun, Run, LookTold, ForwardTold, Inv, Reported;
    if steps == [] {
      NothingTold();
    } else {
      var n := |steps| - 1;
      assert steps == steps[..n] + [steps[n]];
      RunSnoc(CONNECTED, steps[..n], steps[n]);
      RunTold(steps[..n]);
      var l := Run(CONNECTED, steps[..n]);
      assert ReleaseInv(l) by { Reachable(steps[..n]); }
      PumpToldSnoc(steps[..n], l, steps[n]);
      LookToldSnoc(steps[..n], l, steps[n]);
      ForwardToldSnoc(steps[..n], l, steps[n]);
    }
  }

  lemma NothingTold()
    ensures CanRun(CONNECTED, []) && PumpTold([], CONNECTED) && LookTold([], CONNECTED) && ForwardTold([], CONNECTED)
            && Run(CONNECTED, []) == CONNECTED
  {}

  lemma Reachable(steps: seq<Step>)
    requires CanRun(CONNECTED, steps)
    ensures ReleaseInv(Run(CONNECTED, steps)) && PumpInv(Run(CONNECTED, steps)) && DrainInv(Run(CONNECTED, steps))
  {
    hide Run, CanRun;
    RunKeeps(CONNECTED, steps);
  }

  /** The flags mean what they say: released is set exactly when the stack has
      reported the disconnect and the pump has published that, down exactly when the
      pump has published the end of the link or the transport was closed. A
      transport that is closed or dropped has asked the stack to disconnect exactly
      once, unless the stack's report was already published when it first looked;
      and always, if the stack never reported anything. */
  lemma ReleaseIsReported(steps: seq<Step>)
    requires CanRun(CONNECTED, steps)
    ensures var l := Run(CONNECTED, steps);
            && (l.released <==> PumpClosed(true) in steps && PumpStoreReleased in steps)
            && (l.down <==> PumpStoreDown in steps || l.closed)
            && (l.closed || l.caller.Gone? ==>
                  var look := FirstLook(steps);
                  && look < |steps|
                  && (l.disconnects == 0 <==> PumpClosed(true) in steps[..look] && PumpStoreReleased in steps[..look])
                  && (l.disconnects == 1 <==> l.disconnects != 0)
                  && (PumpClosed(true) !in steps ==> l.disconnects == 1))
  {
    hide Run, CanRun, FirstLook;
    RunTold(steps);
    Reachable(steps);
  }

  /** Reads deliver what the pump forwarded, in order, each payload whole or cut to
      the buffer; once a read reports the end of the link everything forwarded has
      been read, and every later read reports the end too. */
  lemma DrainInOrder(steps: seq<Step>)
    requires CanRun(CONNECTED, steps)
    ensures var l := Run(CONNECTED, steps);
            && CutsOf(Payloads(l.results), l.forwarded)
            && (if l.caller.Gone? then l.forwarded <= Arriving(steps) else l.forwarded == Arriving(steps))
            && (End in l.results ==> |Payloads(l.results)| == |l.forwarded| && l.pump.Finished?)
            && (forall i, j :: 0 <= i < j < |l.results| && l.results[i] == End ==> l.results[j] == End)
  {
    hide Run, CanRun;
    RunKeeps(CONNECTED, steps);
    RunTold(steps);
  }

  /** With a buffer that fits, a read takes the oldest payload unchanged; with the
      pump finished and nothing left, it reports the end. */
  lemma NextRead(l: Link, size: nat)
    requires Inv(l) && l.caller.Ready?
    ensures var m := Next(l, CallRead(size)); var k := |Payloads(l.results)|;
            && |m.results| == |l.results| + 1
            && (k < |l.forwarded| ==> m.results[|l.results|] == Data(Cut(l.forwarded[k], size)))
            && (k == |l.forwarded| ==> m.results[|l.results|] == if l.pump.Finished? then End else Empty)
  {
    hide Payloads;
    if l.channel != [] {
      assert l.forwarded[|Payloads(l.results)|..][0] == l.channel[0];
    }
  }

  // ------------------------------------------------------------------ the class

  /** A whole call, with no step of the pump in between. */
  function DisconnectCall(l: Link): Link
    requires l.caller.Ready?
  {
    if l.closed then l
    else
      var l1 := Next(l, CallDisconnect);
      Next(if l1.caller.issue then Next(l1, IssueDisconnect) else l1, FinishDisconnect)
  }

  function DropCall(l: Link): Link
    requires l.caller.Ready?
  {
    var l1 := Next(l, CallDrop);
    if l1.caller.Gone? then l1 else Next(l1, if l1.caller.issue then IssueDisconnect else FinishDisconnect)
  }

  /** The transport as its caller's thread runs it, the pump standing still. */
  class BtleplugTransport {
    var closed: bool
    var down: bool
    var released: bool
    var pump: Pump
    var abortAsked: bool
    var channel: seq<Frame>
    var disconnects: nat
    ghost var caller: Caller
    ghost var sawReleased: bool
    ghost var forwarded: seq<Frame>
    ghost var results: seq<ReadResult>

    ghost function View(): Link
      reads this
    {
      Link(closed, down, released, pump, abortAsked, caller, channel, disconnects, sawReleased, forwarded, results)
    }

    constructor ()
      ensures View() == CONNECTED
    {
      closed, down, released, pump, abortAsked := false, false, false, Forwarding, false;
      channel, disconnects := [], 0;
      caller, sawReleased, forwarded, results := Ready, false, [], [];
    }

    /** Copies the next payload into the buffer, as much as fits. */
    method Read(buf: array<Byte>) returns (r: ReadResult)
      requires View().caller.Ready?
      modifies this`channel, this`results, buf
      ensures View() == Next(old(View()), CallRead(buf.Length)) && View().results == old(View()).results + [r]
      ensures r.Data? ==> |r.bytes| <= buf.Length
      ensures buf[..] == if r.Data? then r.bytes + old(buf[..])[|r.bytes|..] else old(buf[..])
    {
      if channel == [] {
        r := if pump == Finished then End else Empty;
        results := results + [r];
        return;
      }
      var v := channel[0];
      channel := channel[1..];
      var n := if |v| < buf.Length then |v| else buf.Length;
      for i := 0 to n
        invariant channel == old(channel)[1..] && results == old(results)
        invariant forall k :: 0 <= k < i ==> buf[k] == v[k]
        invariant forall k :: i <= k < buf.Length ==> buf[k] == old(buf[k])
      {
        buf[i] := v[i];
      }
      r := Data(v[..n]);
      assert v[..n] == Cut(v, buf.Length);
      results := results + [r];
    }

    /** Closes the transport; asks the stack to disconnect unless it already has. */
    method Disconnect()
      requires View().caller.Ready?
      modifies this
      ensures View() == DisconnectCall(old(View()))
    {
      if closed { return; }
      sawReleased := released;
      if !released {
        disconnects := disconnects + 1;
      }
      closed := true;
      down := true;
      abortAsked := true;
    }

    method Drop()
      requires View().caller.Ready?
      modifies this
      ensures View() == DropCall(old(View()))
    {
      abortAsked := true;
      caller := Gone;
      if closed { return; }
      sawReleased := released;
      if released { return; }
      disconnects := disconnects + 1;
    }
  }
}
