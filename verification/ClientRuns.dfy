/** What holds of a client after any sequence of operations, whatever the device
    and the link answer: the events are a simple function of the frames. */
module ClientRuns {
  import opened Common
  import opened Clubs
  import opened Protocol
  import opened Client
  import FirmwareScan

  // ------------------------------------------- the meaning of a frame sequence

  function NoteOf(fp: Rounding, f: Frame): Option<Notification> {
    match Parse(fp, f) case Parsed(n) => Some(n) case Malformed(_) => None
  }

  function BallOf(fp: Rounding, f: Frame): Option<BallMetrics> {
    match NoteOf(fp, f) case Some(BallNote(b)) => Some(b) case _ => None
  }

  function AckOf(fp: Rounding, f: Frame): Option<DeviceState> {
    match NoteOf(fp, f) case Some(HeartbeatAck(st)) => Some(st) case _ => None
  }

  predicate IsClub(fp: Rounding, f: Frame) {
    NoteOf(fp, f).Some? && NoteOf(fp, f).value.ClubNote?
  }

  function Frames(hs: seq<Handled>): (fs: seq<Frame>)
    ensures |fs| == |hs|
  {
    if hs == [] then [] else Frames(hs[..|hs| - 1]) + [hs[|hs| - 1].frame]
  }

  lemma {:induction false} FramesAt(hs: seq<Handled>, j: nat)
    requires j <= |hs|
    ensures Frames(hs[..j]) == Frames(hs)[..j] && (j < |hs| ==> Frames(hs)[j] == hs[j].frame)
  {
    if j < |hs| {
      FramesAt(hs[..|hs| - 1], j);
      assert hs[..|hs| - 1][..j] == hs[..j];
    } else {
      assert hs[..j] == hs;
    }
  }

  /** The ball that a club frame arriving next would belong to: the last ball
      frame, unless a club frame has followed it. */
  function OpenBall(fp: Rounding, fs: seq<Frame>): Option<BallMetrics> {
    if fs == [] then None
    else if BallOf(fp, fs[|fs| - 1]).Some? then BallOf(fp, fs[|fs| - 1])
    else if IsClub(fp, fs[|fs| - 1]) then None
    else OpenBall(fp, fs[..|fs| - 1])
  }

  /** The states carried by the heartbeat acknowledgments among `fs`. */
  function AckStates(fp: Rounding, fs: seq<Frame>): seq<DeviceState> {
    if fs == [] then [] else AckStates(fp, fs[..|fs| - 1]) + AsSeq(AckOf(fp, fs[|fs| - 1]))
  }

  /** The event due for a frame, given the frames before it. */
  function EventFor(fp: Rounding, before: seq<Frame>, h: Handled): Option<Event> {
    match NoteOf(fp, h.frame)
    case None => None
    case Some(BallNote(_)) => None
    case Some(QueryResponse(_)) => None
    case Some(ClubNote(club)) =>
      (match OpenBall(fp, before) case Some(ball) => Some(ShotOf(fp, ball, club, h.setting)) case None => None)
    case Some(HeartbeatAck(st)) => if Last(AckStates(fp, before)) == Some(st) then None else Some(StateChanged(st))
    case Some(SensorNote(sensor)) => Some(SensorEvent(sensor))
    case Some(BatteryNote(percent, charging)) => Some(Battery(percent, charging))
    case Some(ClockNote(ticks)) => Some(Clock(ticks))
    case Some(AlignmentNote(angle)) => Some(Alignment(angle))
  }

  /** The events due for a whole sequence of frames. */
  function EventsOf(fp: Rounding, hs: seq<Handled>): seq<Event> {
    if hs == [] then []
    else
      var n := |hs| - 1;
      EventsOf(fp, hs[..n]) + AsSeq(EventFor(fp, Frames(hs[..n]), hs[n]))
  }

  // --------------------------------------------------------- logs and tallies

  function Selected(log: seq<Attempt>): Option<Club> {
    if log == [] then None
    else if log[|log| - 1].ok && log[|log| - 1].cmd.SelectClub? then Some(log[|log| - 1].cmd.club)
    else Selected(log[..|log| - 1])
  }

  function Requests(log: seq<Attempt>): nat {
    if log == [] then 0
    else Requests(log[..|log| - 1]) + if log[|log| - 1].cmd.RequestClubMetrics? then 1 else 0
  }

  function Balls(fp: Rounding, fs: seq<Frame>): nat {
    if fs == [] then 0 else Balls(fp, fs[..|fs| - 1]) + if BallOf(fp, fs[|fs| - 1]).Some? then 1 else 0
  }

  /** Balls that a later ball replaced before any club frame. */
  function Superseded(fp: Rounding, fs: seq<Frame>): nat {
    if fs == [] then 0
    else
      var n := |fs| - 1;
      Superseded(fp, fs[..n]) + if BallOf(fp, fs[n]).Some? && OpenBall(fp, fs[..n]).Some? then 1 else 0
  }

  function Shots(events: seq<Event>): seq<Event> {
    if events == [] then []
    else Shots(events[..|events| - 1]) + if events[|events| - 1].ShotEvent? then [events[|events| - 1]] else []
  }

  function States(events: seq<Event>): seq<DeviceState> {
    if events == [] then []
    else
      States(events[..|events| - 1])
      + if events[|events| - 1].StateChanged? then [events[|events| - 1].state] else []
  }

  lemma SnocFrames(fp: Rounding, hs: seq<Handled>, h: Handled)
    ensures (hs + [h])[..|hs|] == hs && Frames(hs + [h]) == Frames(hs) + [h.frame]
    ensures EventsOf(fp, hs + [h]) == EventsOf(fp, hs) + AsSeq(EventFor(fp, Frames(hs), h))
  {}

  lemma SnocFrame(fp: Rounding, fs: seq<Frame>, f: Frame)
    ensures OpenBall(fp, fs + [f])
         == if BallOf(fp, f).Some? then BallOf(fp, f) else if IsClub(fp, f) then None else OpenBall(fp, fs)
    ensures AckStates(fp, fs + [f]) == AckStates(fp, fs) + AsSeq(AckOf(fp, f))
    ensures Balls(fp, fs + [f]) == Balls(fp, fs) + if BallOf(fp, f).Some? then 1 else 0
    ensures Superseded(fp, fs + [f])
         == Superseded(fp, fs) + if BallOf(fp, f).Some? && OpenBall(fp, fs).Some? then 1 else 0
  {}

  lemma SnocEvent(es: seq<Event>, e: Event)
    ensures Shots(es + [e]) == Shots(es) + if e.ShotEvent? then [e] else []
    ensures States(es + [e]) == States(es) + if e.StateChanged? then [e.state] else []
    ensures es != [] ==> (es + [e])[1..] == es[1..] + [e]
  {}

  lemma SnocAttempt(log: seq<Attempt>, x: Attempt)
    ensures Selected(log + [x]) == if x.ok && x.cmd.SelectClub? then Some(x.cmd.club) else Selected(log)
    ensures Requests(log + [x]) == Requests(log) + if x.cmd.RequestClubMetrics? then 1 else 0
  {}

  // ------------------------------------------------------------ the invariant

  /** The log carries consecutive sequence numbers, whether or not a write
      succeeded; the active club is the last one selected; there is one request
      for club metrics per ball. */
  ghost predicate LogInv(seqNo: Byte, log: seq<Attempt>, active: Option<Club>, balls: nat) {
    && seqNo == |log| % 0x100
    && (forall k :: 0 <= k < |log| ==> log[k].bytes == Encode(log[k].cmd, (k + 1) % 0x100))
    && active == Selected(log)
    && Requests(log) == balls
  }

  /** Frames are handled once per run of repeats. */
  ghost predicate StreamInv(handled: seq<Frame>, received: seq<Frame>, lastRx: Frame) {
    && handled == Collapse(received)
    && lastRx == Last(received).GetOr([])
    && (forall k :: 0 <= k < |received| ==> received[k] != [])
  }

  /** The ball held back is the open one; the state is the last acknowledged. */
  ghost predicate FieldInv(s: State) {
    && s.queue == []
    && s.pending == OpenBall(s.fp, Frames(s.handled))
    && (s.awaiting <==> s.pending.Some?)
    && s.state == Last(AckStates(s.fp, Frames(s.handled)))
    && s.state == Last(AckStates(s.fp, s.received))
  }

  /** The events are those due, after the one that announces the connection. */
  ghost predicate EventInv(
    fp: Rounding, phase: Phase, events: seq<Event>, handled: seq<Handled>, received: seq<Frame>)
  {
    && (phase.Connecting? ==> received == [] && handled == [] && events == [])
    && (phase.Active? ==> events != [] && events[0].Connected? && events[1..] == EventsOf(fp, handled))
    && States(events) == Collapse(AckStates(fp, received))
  }

  ghost predicate Inv(s: State) {
    && LogInv(s.seqNo, s.attempts, s.activeClub, Balls(s.fp, Frames(s.handled)))
    && StreamInv(Frames(s.handled), s.received, s.lastRx)
    && FieldInv(s)
    && EventInv(s.fp, s.phase, s.events, s.handled, s.received)
  }

  lemma LogSnoc(seqNo: Byte, log: seq<Attempt>, active: Option<Club>, balls: nat, cmd: Command, ok: bool)
    requires LogInv(seqNo, log, active, balls)
    ensures var n: Byte := (seqNo + 1) % 0x100;
            LogInv(n, log + [Attempt(cmd, Encode(cmd, n), ok)],
                   if ok && cmd.SelectClub? then Some(cmd.club) else active,
                   if cmd.RequestClubMetrics? then balls + 1 else balls)
  {
    hide Encode, Selected, Requests;
    var n: Byte := (seqNo + 1) % 0x100;
    SnocAttempt(log, Attempt(cmd, Encode(cmd, n), ok));
    assert n == (|log| + 1) % 0x100;
  }

  lemma SendKeeps(s: State, cmd: Command, ok: bool)
    requires Inv(s) && !cmd.RequestClubMetrics?
    ensures Inv(Send(s, cmd, ok).(activeClub := if ok && cmd.SelectClub? then Some(cmd.club) else s.activeClub))
  {
    hide LogInv, StreamInv, EventInv, Encode, Balls, OpenBall, AckStates;
    LogSnoc(s.seqNo, s.attempts, s.activeClub, Balls(s.fp, Frames(s.handled)), cmd, ok);
  }

  function Recorded(x: (State, PollResult)): State {
    if x.1.Ok? && x.1.event.Some? then x.0.(events := x.0.events + [x.1.event.value]) else x.0
  }

  /** What acting on a parsed frame does, said in terms of the frames before it. */
  lemma HandleFields(s: State, before: seq<Frame>, h: Handled, note: Notification, requestOk: bool)
    requires s.pending == OpenBall(s.fp, before) && (s.awaiting <==> s.pending.Some?)
    requires s.state == Last(AckStates(s.fp, before))
    requires NoteOf(s.fp, h.frame) == Some(note) && h.setting == SettingOf(s)
    ensures var (s1, r) := Handle(s, note, requestOk); var f := h.frame;
            && s1.pending == (if BallOf(s.fp, f).Some? then BallOf(s.fp, f)
                              else if IsClub(s.fp, f) then None else s.pending)
            && (s1.awaiting <==> s1.pending.Some?)
            && s1.state == (if AckOf(s.fp, f).Some? then AckOf(s.fp, f) else s.state)
            && AsSeq(EventFor(s.fp, before, h)) == (if r.Ok? then AsSeq(r.event) else [])
            && Others(s1) == Others(s)
            && (s1.seqNo, s1.attempts)
               == if BallOf(s.fp, f).None? then (s.seqNo, s.attempts)
                  else (Send(s, RequestClubMetrics, requestOk).seqNo, Send(s, RequestClubMetrics, requestOk).attempts)
  {
    hide Parse, Encode, OpenBall, AckStates, ShotOf, Frames;
  }

  /** The fields the invariant speaks of that acting on a frame leaves alone. */
  function Others(s: State): (Rounding, Phase, seq<Event>, Frame, seq<Frame>, seq<Handled>, seq<Event>, Option<Club>) {
    (s.fp, s.phase, s.queue, s.lastRx, s.received, s.handled, s.events, s.activeClub)
  }

  /** What receiving a new frame does. */
  lemma ReceiveFields(s: State, data: Frame, a: Answers)
    requires FieldInv(s) && data != [] && data != s.lastRx
    ensures var (s1, r) := Receive(s, data, a); var h := Handled(data, SettingOf(s)); var fs := Frames(s.handled);
            && Others(s1)
               == (s.fp, s.phase, s.queue, data, s.received + [data], s.handled + [h], s.events, s.activeClub)
            && s1.pending == (if BallOf(s.fp, data).Some? then BallOf(s.fp, data)
                              else if IsClub(s.fp, data) then None else s.pending)
            && (s1.awaiting <==> s1.pending.Some?)
            && s1.state == (if AckOf(s.fp, data).Some? then AckOf(s.fp, data) else s.state)
            && AsSeq(EventFor(s.fp, fs, h)) == (if r.Ok? then AsSeq(r.event) else [])
            && (s1.seqNo, s1.attempts)
               == if BallOf(s.fp, data).None? then (s.seqNo, s.attempts)
                  else var s2 := Send(s, RequestClubMetrics, a.requestOk); (s2.seqNo, s2.attempts)
  {
    hide Parse, Encode, OpenBall, AckStates, ShotOf, Frames, Handle;
    var h := Handled(data, SettingOf(s));
    var s2 := s.(lastData := a.t3, unanswered := 0, received := s.received + [data], lastRx := data,
                 handled := s.handled + [h]);
    match Parse(s.fp, data)
    case Parsed(note) => HandleFields(s2, Frames(s.handled), h, note, a.requestOk);
    case Malformed(_) =>
  }

  /** The fields after a new frame summarise the frames again. */
  lemma FieldNew(s: State, data: Frame, a: Answers)
    requires FieldInv(s) && data != [] && data != s.lastRx
    ensures FieldInv(Receive(s, data, a).0)
  {
    hide Receive, BallOf, IsClub, AckOf, OpenBall, AckStates, Frames, Balls, Superseded, EventFor, Send;
    var fs := Frames(s.handled);
    ReceiveFields(s, data, a);
    SnocFrames(s.fp, s.handled, Handled(data, SettingOf(s)));
    SnocFrame(s.fp, fs, data);
    SnocFrame(s.fp, s.received, data);
    assert AckStates(s.fp, fs) + [] == AckStates(s.fp, fs);
    assert AckStates(s.fp, s.received) + [] == AckStates(s.fp, s.received);
  }

  lemma StreamNew(handled: seq<Frame>, received: seq<Frame>, lastRx: Frame, data: Frame)
    requires StreamInv(handled, received, lastRx) && data != [] && data != lastRx
    ensures StreamInv(handled + [data], received + [data], data)
  {}

  lemma StreamRepeat(handled: seq<Frame>, received: seq<Frame>, lastRx: Frame, data: Frame)
    requires StreamInv(handled, received, lastRx) && data != [] && data == lastRx
    ensures StreamInv(handled, received + [data], data)
  {}

  lemma EventNew(fp: Rounding, events: seq<Event>, hs: seq<Handled>, received: seq<Frame>, h: Handled)
    requires EventInv(fp, Active, events, hs, received)
    requires Last(AckStates(fp, Frames(hs))) == Last(AckStates(fp, received))
    ensures EventInv(fp, Active, events + AsSeq(EventFor(fp, Frames(hs), h)), hs + [h], received + [h.frame])
  {
    hide EventFor, AckOf, BallOf, IsClub, Collapse, AckStates, EventsOf, States, Shots, Frames, OpenBall,
         Balls, Superseded;
    var fs, acks, ev := Frames(hs), AckStates(fp, received), EventFor(fp, Frames(hs), h);
    SnocFrames(fp, hs, h);
    SnocFrame(fp, received, h.frame);
    EventStates(fp, fs, h);
    assert acks + [] == acks && States(events) + [] == States(events) && EventsOf(fp, hs) + [] == EventsOf(fp, hs)
        && events + [] == events;
    if AckOf(fp, h.frame).Some? {
      CollapseSnoc(acks, AckOf(fp, h.frame).value);
    }
    if ev.Some? {
      SnocEvent(events, ev.value);
    }
  }

  /** Handling a frame that is not a repeat keeps the invariant. */
  lemma HandleKeeps(s: State, data: Frame, a: Answers)
    requires Inv(s) && s.phase.Active? && data != [] && data != s.lastRx
    ensures Inv(Recorded(Receive(s, data, a))) && Receive(s, data, a).0.fp == s.fp
  {
    hide Receive, BallOf, AckOf, IsClub, EventFor, Encode, Collapse, OpenBall, AckStates, EventsOf, States,
         Shots, Balls, Superseded, LogInv, StreamInv, EventInv, Frames;
    var h := Handled(data, SettingOf(s));
    var fs := Frames(s.handled);
    ReceiveFields(s, data, a);
    FieldNew(s, data, a);
    SnocFrames(s.fp, s.handled, h);
    SnocFrame(s.fp, fs, data);
    LogSnoc(s.seqNo, s.attempts, s.activeClub, Balls(s.fp, fs), RequestClubMetrics, a.requestOk);
    StreamNew(fs, s.received, s.lastRx, data);
    EventNew(s.fp, s.events, s.handled, s.received, h);
    assert s.events + [] == s.events;
  }

  /** A state change is announced exactly for an acknowledgment of a new state. */
  lemma EventStates(fp: Rounding, fs: seq<Frame>, h: Handled)
    ensures EventFor(fp, fs, h).Some? && EventFor(fp, fs, h).value.StateChanged?
       <==> AckOf(fp, h.frame).Some? && Last(AckStates(fp, fs)) != AckOf(fp, h.frame)
    ensures EventFor(fp, fs, h).Some? && EventFor(fp, fs, h).value.StateChanged?
        ==> EventFor(fp, fs, h).value.state == AckOf(fp, h.frame).value
  {}

  /** A repeated frame acknowledges nothing new. */
  lemma AckRepeat(fp: Rounding, received: seq<Frame>, data: Frame)
    requires Last(received) == Some(data)
    ensures Collapse(AckStates(fp, received + [data])) == Collapse(AckStates(fp, received))
    ensures Last(AckStates(fp, received + [data])) == Last(AckStates(fp, received))
  {
    hide AckOf, BallOf, IsClub, Collapse, AckStates, OpenBall, Balls, Superseded;
    var n := |received| - 1;
    assert received == received[..n] + [data];
    SnocFrame(fp, received, data);
    SnocFrame(fp, received[..n], data);
    if AckOf(fp, data).Some? {
      CollapseSnoc(AckStates(fp, received), AckOf(fp, data).value);
    } else {
      assert AckStates(fp, received) + [] == AckStates(fp, received);
    }
  }

  lemma LastReceived(handled: seq<Frame>, received: seq<Frame>, lastRx: Frame)
    requires StreamInv(handled, received, lastRx) && lastRx != []
    ensures Last(received) == Some(lastRx)
  {}

  lemma EventRepeat(fp: Rounding, events: seq<Event>, hs: seq<Handled>, received: seq<Frame>, data: Frame)
    requires EventInv(fp, Active, events, hs, received)
    requires Collapse(AckStates(fp, received + [data])) == Collapse(AckStates(fp, received))
    ensures EventInv(fp, Active, events, hs, received + [data])
  {}

  lemma RepeatKeeps(s: State, data: Frame, a: Answers)
    requires Inv(s) && s.phase.Active? && data != [] && data == s.lastRx
    ensures Inv(Recorded(Receive(s, data, a))) && Receive(s, data, a).0.fp == s.fp
  {
    hide Parse, Handle, OpenBall, AckStates, Balls, LogInv, StreamInv, EventInv, Frames, Collapse;
    LastReceived(Frames(s.handled), s.received, s.lastRx);
    AckRepeat(s.fp, s.received, data);
    StreamRepeat(Frames(s.handled), s.received, s.lastRx, data);
    EventRepeat(s.fp, s.events, s.handled, s.received, data);
  }

  lemma BeatKeeps(s: State, a: Answers)
    requires Inv(s)
    ensures Inv(Beat(s, a).0) && Beat(s, a).0.phase == s.phase && Beat(s, a).0.lastRx == s.lastRx
    ensures Beat(s, a).0.queue == [] && Beat(s, a).0.fp == s.fp
  {
    hide LogInv, StreamInv, EventInv, Encode, OpenBall, AckStates, Balls;
    SendKeeps(s, Heartbeat, a.beatOk);
  }

  lemma IdentityKeeps(s: State, a: Answers)
    requires Inv(s) && s.phase.Connecting?
    ensures var (s1, r) := ReadIdentity(s, a);
            Inv(Recorded((if r.Ok? then s1.(phase := Active) else s1, r))) && s1.fp == s.fp
  {
    hide LogInv, StreamInv, Encode, OpenBall, AckStates, Balls, Frames, FirmwareScan.Parse;
    var s1 := Send(s, Query, a.identity.queryOk);
    SendKeeps(s, Query, a.identity.queryOk);
    SendKeeps(s1, Heartbeat, a.beatOk);
    var (_, r) := ReadIdentity(s, a);
    if r.Ok? {
      SnocEvent([], r.event.value);
      assert [] + [r.event.value] == [r.event.value];
    }
  }

  lemma PollKeeps(s: State, a: Answers)
    requires Inv(s)
    ensures Inv(Poll(s, a).0) && Poll(s, a).0.fp == s.fp
  {
    hide LogInv, StreamInv, EventInv, Receive, Beat, ReadIdentity, OpenBall, AckStates, Balls;
    if s.phase.Connecting? {
      IdentityKeeps(s, a);
    } else {
      BeatKeeps(s, a);
      var (s1, ok) := Beat(s, a);
      if ok && a.read.Payload? && a.read.bytes != [] {
        var data := Cut(a.read.bytes, BUFFER);
        if data == s1.lastRx {
          RepeatKeeps(s1, data, a);
        } else {
          HandleKeeps(s1, data, a);
        }
      }
    }
  }

  lemma StepKeeps(s: State, action: Action)
    requires Inv(s)
    ensures Inv(Step(s, action)) && Step(s, action).fp == s.fp
  {
    hide LogInv, StreamInv, EventInv, OpenBall, AckStates, Balls, Poll, Encode;
    match action
    case DoPoll(a) => PollKeeps(s, a);
    case DoArm(club, spin, ok1, ok2) =>
      SendKeeps(s, SelectClub(club, s.handed), ok1);
      SendKeeps(SelectClubStep(s, club, ok1), DetectBall(true, spin), ok2);
    case DoDisarm(ok) => SendKeeps(s, DetectBall(false, Advanced), ok);
    case DoSelectClub(club, ok) => SendKeeps(s, SelectClub(club, s.handed), ok);
    case DoSetUnits(speed, distance, ok) => SendKeeps(s, SetUnits(speed, distance), ok);
    case DoSetGreenSpeed(index, ok) => SendKeeps(s, SetGreenSpeed(if index < 5 then index else 5), ok);
    case DoSetCarryAdjustment(percent, ok) => SendKeeps(s, SetCarryAdjustment(percent), ok);
    case _ =>
  }

  /** The invariant holds of a client after any operations at all. */
  lemma {:induction false} Always(fp: Rounding, now1: Time, now2: Time, cal: map<Club, real>, actions: seq<Action>)
    ensures Inv(Run(New(fp, now1, now2, cal), actions)) && Run(New(fp, now1, now2, cal), actions).fp == fp
  {
    hide Step;
    if actions == [] {
      assert Collapse<Frame>([]) == [];
      assert Collapse<DeviceState>([]) == [];
    } else {
      Always(fp, now1, now2, cal, actions[..|actions| - 1]);
      StepKeeps(Run(New(fp, now1, now2, cal), actions[..|actions| - 1]), actions[|actions| - 1]);
    }
  }
}
