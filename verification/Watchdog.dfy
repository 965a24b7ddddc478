/** The silence watchdog in real time (src/client.rs): it never fires on a
    device that answers, and fires in bounded time on one that does not. */
module Watchdog {
  import opened Common
  import opened Clubs
  import opened Protocol
  import opened Client

  // ------------------------------------------------- a link whose device answers

  /** A client and its link: frames that can be read, and the moments by which a
      nonempty frame must have become readable, one per heartbeat that none has
      followed yet. */
  datatype Link = Link(client: State, inbox: seq<Frame>, owed: seq<Time>, now: Time)

  /** The device sends something, between the caller's calls or, as `early`, during
      one: after what the call writes and before what it reads. */
  datatype LinkStep = Deliver(frame: Frame) | Call(action: Action, early: seq<Frame>)

  /** A heartbeat is among the writes that succeed on the way from `s` to `t`. */
  predicate HeartbeatWritten(s: State, t: State) {
    exists k :: |s.attempts| <= k < |t.attempts| && t.attempts[k].cmd.Heartbeat? && t.attempts[k].ok
  }

  /** Whether a poll gets as far as reading from the link. */
  predicate Reads(s: State, action: Action) {
    action.DoPoll? && s.queue == [] && s.phase.Active? && Beat(s, action.answers).1
  }

  predicate AnyData(frames: seq<Frame>) {
    exists i :: 0 <= i < |frames| && frames[i] != []
  }

  /** What the platform guarantees of a step: the clock never goes back, a read
      returns the oldest frame, and it blocks only when there is none, which is
      never so once an answer is due. Writes may fail and pauses may be long, also
      within a poll: the read takes place at `t2` or later, and the watchdog looks
      at the clock again at `t3`, by when answers may have come. */
  ghost predicate Legal(l: Link, step: LinkStep) {
    match step
    case Deliver(_) => true
    case Call(DoPoll(a), early) =>
      && l.now <= a.t1 <= a.t2 <= a.t3
      && (Reads(l.client, DoPoll(a)) ==>
            && (a.read.WouldBlock? ==>
                  l.inbox + early == [] && forall i :: 0 <= i < |l.owed| ==> a.t2 < l.owed[i])
            && (a.read.Payload? ==> l.inbox + early != [] && a.read.bytes == (l.inbox + early)[0]))
    case Call(_, _) => true
  }

  /** What is owed after a call: nothing if data came once it had written, else an
      answer within an interval of the heartbeat it wrote, if it did. */
  function Owed(s: State, t: State, owed: seq<Time>, heard: bool): seq<Time> {
    if heard then [] else if HeartbeatWritten(s, t) then owed + [t.lastHeartbeat + t.interval] else owed
  }

  function Advance(l: Link, step: LinkStep): Link {
    match step
    case Deliver(frame) => l.(inbox := l.inbox + [frame], owed := if frame != [] then [] else l.owed)
    case Call(action, early) =>
      var t, arrived := Step(l.client, action), l.inbox + early;
      Link(t,
           if Reads(l.client, action) && action.answers.read.Payload? && arrived != [] then arrived[1..] else arrived,
           Owed(l.client, t, l.owed, AnyData(early)),
           if action.DoPoll? then action.answers.t3 else l.now)
  }

  ghost predicate LegalRun(l: Link, steps: seq<LinkStep>)
    decreases |steps|
  {
    steps == [] || (Legal(l, steps[0]) && LegalRun(Advance(l, steps[0]), steps[1..]))
  }

  /** A poll that finds nothing to read and declares the link lost. */
  predicate FalseAlarm(l: Link, step: LinkStep) {
    && step.Call? && step.action.DoPoll? && step.action.answers.read.WouldBlock?
    && Poll(l.client, step.action.answers).1 == Disconnected
  }

  predicate AnyFalseAlarm(l: Link, steps: seq<LinkStep>)
    decreases |steps|
  {
    steps != [] && (FalseAlarm(l, steps[0]) || AnyFalseAlarm(Advance(l, steps[0]), steps[1..]))
  }

  /** Something waits to be read, or must arrive by `when`. */
  ghost predicate AnswerBy(inbox: seq<Frame>, owed: seq<Time>, when: Time) {
    AnyData(inbox) || exists i :: 0 <= i < |owed| && owed[i] <= when
  }

  /** One unanswered heartbeat has its answer due an interval after it; with two,
      the first one's is already due when the second is sent. */
  ghost predicate AnswersDue(l: Link) {
    var c := l.client;
    && c.queue == [] && c.interval > 0 && c.lastHeartbeat <= l.now
    && (c.unanswered >= 1 ==> AnswerBy(l.inbox, l.owed, c.lastHeartbeat + c.interval))
    && (c.unanswered >= 2 ==> AnswerBy(l.inbox, l.owed, c.lastHeartbeat))
  }

  lemma MoreOwed(inbox: seq<Frame>, owed: seq<Time>, when: Time, due: Time)
    requires AnswerBy(inbox, owed, when)
    ensures AnswerBy(inbox, owed + [due], when)
  {
    if !AnyData(inbox) {
      var i :| 0 <= i < |owed| && owed[i] <= when;
      assert (owed + [due])[i] == owed[i];
    }
  }

  lemma DataJoins(inbox: seq<Frame>, more: seq<Frame>)
    ensures AnyData(inbox + more) <==> AnyData(inbox) || AnyData(more)
  {
    forall i | 0 <= i < |more| ensures (inbox + more)[|inbox| + i] == more[i] {}
    if i :| 0 <= i < |inbox| && inbox[i] != [] {
      assert (inbox + more)[i] != [];
    }
  }

  /** The link when some frames have arrived, and nothing else has happened. */
  function Arrived(l: Link, frames: seq<Frame>): Link {
    l.(inbox := l.inbox + frames, owed := if AnyData(frames) then [] else l.owed)
  }

  /** Whatever arrives, an answer is still there or due. */
  lemma ArrivalKeeps(l: Link, frames: seq<Frame>)
    requires AnswersDue(l)
    ensures AnswersDue(Arrived(l, frames)) && (AnyData(frames) ==> AnyData(l.inbox + frames))
  {
    hide AnyData;
    DataJoins(l.inbox, frames);
  }

  /** The effect of a caller's step on what the watchdog looks at. */
  lemma CallEffect(l: Link, action: Action, early: seq<Frame>)
    requires AnswersDue(l) && Legal(l, Call(action, early))
    ensures AnswersDue(Advance(l, Call(action, early))) && !FalseAlarm(l, Call(action, early))
  {
    hide Encode, Parse, AnswerBy, AnyData, Poll, HeartbeatWritten, Beat;
    ArrivalKeeps(l, early);
    var s := l.client;
    if !action.DoPoll? {
      QuietAction(s, action);
    } else if s.phase.Connecting? {
      IdentityEffect(Arrived(l, early), action.answers, AnyData(early));
    } else {
      PollEffect(l, action.answers, early);
    }
  }

  lemma QuietAction(s: State, action: Action)
    requires !action.DoPoll?
    ensures var t := Step(s, action);
            !HeartbeatWritten(s, t) && t.lastHeartbeat == s.lastHeartbeat && t.unanswered == s.unanswered
            && t.interval == s.interval && t.queue == s.queue
  {}

  /** What reading the identity does to the watchdog's fields and the log. */
  lemma IdentityFields(s: State, a: Answers)
    requires s.phase.Connecting? && s.queue == []
    ensures var (t, r) := Poll(s, a);
            && t.interval == s.interval && t.queue == [] && r != Disconnected
            && (if r.Ok? then t.unanswered == 1 && t.lastHeartbeat == a.t1 && HeartbeatWritten(s, t)
                else
                  && t.unanswered == s.unanswered && t.lastHeartbeat in {s.lastHeartbeat, a.t1}
                  && !HeartbeatWritten(s, t))
  {
    hide Encode, FirmwareScan.Parse, ModelName;
    var t := Poll(s, a).0;
    if Poll(s, a).1.Ok? {
      assert t.attempts[|t.attempts| - 1].cmd.Heartbeat?;
    }
  }

  lemma IdentityEffect(l: Link, a: Answers, heard: bool)
    requires AnswersDue(l) && l.client.phase.Connecting? && l.now <= a.t1 <= a.t2 <= a.t3
    requires heard ==> AnyData(l.inbox) && l.owed == []
    ensures var (t, r) := Poll(l.client, a);
            AnswersDue(Link(t, l.inbox, Owed(l.client, t, l.owed, heard), a.t3)) && r != Disconnected
  {
    hide Poll, AnyData, HeartbeatWritten, AnswerBy;
    var s := l.client;
    var (t, r) := Poll(s, a);
    IdentityFields(s, a);
    if heard {
      DataAnswers(l.inbox, []);
    } else if r.Ok? {
      LastAnswer(l.inbox, l.owed, t.lastHeartbeat + t.interval);
    } else {
      if s.unanswered >= 1 {
        LaterAnswer(l.inbox, l.owed, s.lastHeartbeat + s.interval, t.lastHeartbeat + t.interval);
      }
      if s.unanswered >= 2 {
        LaterAnswer(l.inbox, l.owed, s.lastHeartbeat, t.lastHeartbeat);
      }
    }
  }

  lemma DataAnswers(inbox: seq<Frame>, owed: seq<Time>)
    requires AnyData(inbox)
    ensures forall when :: AnswerBy(inbox, owed, when)
  {}

  lemma LastAnswer(inbox: seq<Frame>, owed: seq<Time>, due: Time)
    ensures AnswerBy(inbox, owed + [due], due)
  {
    assert (owed + [due])[|owed|] == due;
  }

  lemma LaterAnswer(inbox: seq<Frame>, owed: seq<Time>, when: Time, later: Time)
    requires AnswerBy(inbox, owed, when) && when <= later
    ensures AnswerBy(inbox, owed, later)
  {}

  /** The heartbeat step: a second unanswered one comes only after the first
      one's answer is due. */
  lemma BeatEffect(l: Link, a: Answers, heard: bool)
    requires AnswersDue(l) && l.now <= a.t1 <= a.t2 <= a.t3
    requires heard ==> AnyData(l.inbox) && l.owed == []
    ensures var s1 := Beat(l.client, a).0;
            AnswersDue(Link(s1, l.inbox, Owed(l.client, s1, l.owed, heard), a.t3)) && s1.phase == l.client.phase
  {
    hide Encode, AnswerBy, AnyData;
    var s := l.client;
    var s1 := Beat(s, a).0;
    if heard {
      DataAnswers(l.inbox, []);
    } else if a.t1 - s.lastHeartbeat >= s.interval && a.beatOk {
      assert s1.attempts[|s1.attempts| - 1].cmd.Heartbeat? && HeartbeatWritten(s, s1);
      var due := s1.lastHeartbeat + s1.interval;
      LastAnswer(l.inbox, l.owed, due);
      if s.unanswered >= 1 {
        LaterAnswer(l.inbox, l.owed, s.lastHeartbeat + s.interval, s1.lastHeartbeat);
        MoreOwed(l.inbox, l.owed, s1.lastHeartbeat, due);
      }
    } else {
      assert !HeartbeatWritten(s, s1);
    }
  }

  /** The read: an empty frame is no answer, and a block means none was due. */
  lemma ReadEffect(l: Link, a: Answers)
    requires AnswersDue(l) && l.now <= a.t3
    requires a.read.WouldBlock? ==>
               l.inbox == [] && forall i :: 0 <= i < |l.owed| ==> l.owed[i] > l.client.lastHeartbeat
    requires a.read.Payload? ==> l.inbox != [] && a.read.bytes == l.inbox[0]
    ensures a.read.WouldBlock? ==> !LinkLost(l.client, a.t3)
    ensures a.read.Payload? && a.read.bytes == [] ==> AnswersDue(l.(inbox := l.inbox[1..], now := a.t3))
  {}

  lemma ReceiveEffect(s: State, data: Frame, a: Answers)
    ensures var t := Receive(s, data, a).0;
            && t.lastHeartbeat == s.lastHeartbeat && t.interval == s.interval && t.unanswered == 0 && t.queue == s.queue
            && s.attempts <= t.attempts
            && forall k :: |s.attempts| <= k < |t.attempts| ==> !t.attempts[k].cmd.Heartbeat?
  {
    hide Encode, Parse;
  }

  lemma PollEffect(l: Link, a: Answers, early: seq<Frame>)
    requires AnswersDue(l) && Legal(l, Call(DoPoll(a), early)) && l.client.phase.Active?
    ensures AnswersDue(Advance(l, Call(DoPoll(a), early))) && !FalseAlarm(l, Call(DoPoll(a), early))
  {
    hide Beat, Receive, AnswerBy, AnyData, HeartbeatWritten;
    var s, l1 := l.client, Arrived(l, early);
    ArrivalKeeps(l, early);
    var (s1, ok) := Beat(s, a);
    BeatEffect(l1, a, AnyData(early));
    var owed := Owed(s, s1, l1.owed, AnyData(early));
    BeatLog(s, a);
    if ok {
      ReadEffect(Link(s1, l1.inbox, owed, a.t3), a);
      if a.read.Payload? && a.read.bytes != [] {
        var t := Receive(s1, Cut(a.read.bytes, BUFFER), a).0;
        ReceiveEffect(s1, Cut(a.read.bytes, BUFFER), a);
        SameHeartbeats(s, s1, t);
      }
    }
  }

  lemma SameHeartbeats(s: State, s1: State, t: State)
    requires s.attempts <= s1.attempts <= t.attempts
    requires forall k :: |s1.attempts| <= k < |t.attempts| ==> !t.attempts[k].cmd.Heartbeat?
    ensures HeartbeatWritten(s, t) == HeartbeatWritten(s, s1)
  {}

  lemma BeatLog(s: State, a: Answers)
    ensures s.attempts <= Beat(s, a).0.attempts && Beat(s, a).0.interval == s.interval
    ensures s.lastHeartbeat <= a.t1 <= a.t2 ==> Beat(s, a).0.lastHeartbeat <= a.t2
  {}

  lemma StepEffect(l: Link, step: LinkStep)
    requires AnswersDue(l) && Legal(l, step)
    ensures AnswersDue(Advance(l, step)) && !FalseAlarm(l, step)
  {
    hide Step, AnyData;
    match step
    case Deliver(frame) =>
      ArrivalKeeps(l, [frame]);
      assert AnyData([frame]) <==> frame != [] by { OneFrame(frame); }
    case Call(action, early) => CallEffect(l, action, early);
  }

  lemma OneFrame(frame: Frame)
    ensures AnyData([frame]) <==> frame != []
  {
    assert [frame][0] == frame;
  }

  /** No false alarm: however the caller schedules its polls and whatever writes
      fail, the watchdog never declares a link lost whose device makes a nonempty
      frame readable after each heartbeat it was sent, within one interval of it. */
  lemma {:induction false} NoFalseAlarm(l: Link, steps: seq<LinkStep>)
    requires AnswersDue(l) && LegalRun(l, steps)
    ensures !AnyFalseAlarm(l, steps)
    decreases |steps|
  {
    if steps != [] {
      StepEffect(l, steps[0]);
      NoFalseAlarm(Advance(l, steps[0]), steps[1..]);
    }
  }

  /** A new client qualifies, whatever already waits on its link. */
  lemma NewLinkQualifies(fp: Rounding, now1: Time, now2: Time, cal: map<Club, real>, inbox: seq<Frame>)
    requires now1 <= now2
    ensures AnswersDue(Link(New(fp, now1, now2, cal), inbox, [], now2))
  {}
}
