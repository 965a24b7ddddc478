/** How soon the watchdog reports a device that has gone silent. */
module Detection {
  import opened Common
  import opened Clubs
  import opened Protocol
  import opened Client

  /** Polls that read nothing, with working writes and a clock that never goes
      back. Each poll may read the clock at up to three different moments. */
  ghost predicate Silent(polls: seq<Answers>) {
    forall k :: 0 <= k < |polls| ==>
      polls[k].read.WouldBlock? && polls[k].beatOk && polls[k].t1 <= polls[k].t2 <= polls[k].t3
  }

  /** No two consecutive polls span more than `d` from the start of one to the
      end of the next; the poll before the first one started at `start` and ended
      by `end`. */
  ghost predicate Spaced(polls: seq<Answers>, start: Time, end: Time, d: Time) {
    && (polls != [] ==> end <= polls[0].t1 && polls[0].t3 <= start + d)
    && forall k :: 0 < k < |polls| ==> polls[k - 1].t3 <= polls[k].t1 && polls[k].t3 <= polls[k - 1].t1 + d
  }

  function After(s: State, polls: seq<Answers>): State {
    if polls == [] then s else Poll(After(s, polls[..|polls| - 1]), polls[|polls| - 1]).0
  }

  /** The `k`-th poll reports the link lost. */
  predicate Lost(s: State, polls: seq<Answers>, k: nat)
    requires k < |polls|
  {
    Poll(After(s, polls[..k]), polls[k]).1 == Disconnected
  }

  /** Data last came at `t0`; the latest poll began at `p`, ended at `q`, and did
      not report a loss. At most one heartbeat is out unless time remains. */
  ghost predicate Watching(s: State, t0: Time, p: Time, q: Time, d: Time) {
    && s.phase.Active? && s.queue == [] && s.lastData == t0 && s.interval > 0 && p <= q
    && (s.unanswered == 0 ==> p < s.lastHeartbeat + s.interval && s.lastHeartbeat <= t0)
    && (s.unanswered == 1 ==> p < s.lastHeartbeat + s.interval && s.lastHeartbeat < t0 + s.interval + d)
    && (s.unanswered >= 2 ==> q < t0 + s.timeout)
  }

  /** Reading data starts the watch. */
  lemma DataStartsWatch(s: State, a: Answers, d: Time)
    requires s.phase.Active? && s.queue == [] && s.interval > 0 && d >= 0
    requires s.lastHeartbeat <= a.t1 <= a.t2 <= a.t3 && a.beatOk && a.read.Payload? && a.read.bytes != []
    ensures Watching(Poll(s, a).0, a.t3, a.t1, a.t3, d)
  {
    hide Encode, Receive;
    ReceiveResets(Beat(s, a).0, Cut(a.read.bytes, BUFFER), a);
  }

  lemma ReceiveResets(s: State, data: Frame, a: Answers)
    ensures var t := Receive(s, data, a).0;
            && t.lastData == a.t3 && t.unanswered == 0
            && t.lastHeartbeat == s.lastHeartbeat && t.queue == s.queue && t.phase == s.phase
            && t.interval == s.interval && t.timeout == s.timeout
  {
    hide Encode, Parse;
  }

  /** So does the identity read, whose heartbeat is the first one out. */
  lemma IdentityStartsWatch(s: State, a: Answers, d: Time)
    requires s.phase.Connecting? && s.queue == [] && s.interval > 0 && d >= 0 && a.t1 <= a.t2
    requires Poll(s, a).1.Ok?
    ensures Watching(Poll(s, a).0, a.t2, a.t1, a.t2, d)
  {}

  lemma OneSilentPoll(s: State, a: Answers, t0: Time, p: Time, q: Time, d: Time)
    requires Watching(s, t0, p, q, d) && d >= 0
    requires a.read.WouldBlock? && a.beatOk && q <= a.t1 <= a.t2 <= a.t3 <= p + d
    ensures var (t, r) := Poll(s, a);
            && t.interval == s.interval && t.timeout == s.timeout
            && (if r == Disconnected then t0 + s.timeout <= a.t3 < t0 + Max(s.timeout + d, 2 * s.interval + 2 * d)
                else Watching(t, t0, a.t1, a.t3, d) && a.t1 < t0 + Max(s.timeout, 2 * s.interval + d))
  {}

  lemma {:induction false} StillWatching(s: State, polls: seq<Answers>, t0: Time, p: Time, q: Time, d: Time)
    requires Watching(s, t0, p, q, d) && d >= 0 && Silent(polls) && Spaced(polls, p, q, d)
    requires forall k :: 0 <= k < |polls| ==> !Lost(s, polls, k)
    ensures var t := After(s, polls); var n := |polls|;
            && t.interval == s.interval && t.timeout == s.timeout
            && Watching(t, t0, if n == 0 then p else polls[n - 1].t1, if n == 0 then q else polls[n - 1].t3, d)
            && (n > 0 ==> polls[n - 1].t1 < t0 + Max(s.timeout, 2 * s.interval + d))
  {
    hide Poll;
    if polls != [] {
      var n := |polls| - 1;
      forall k | 0 <= k < n ensures !Lost(s, polls[..n], k) {
        assert polls[..n][..k] == polls[..k] && polls[..n][k] == polls[k];
        assert !Lost(s, polls, k);
      }
      StillWatching(s, polls[..n], t0, p, q, d);
      assert !Lost(s, polls, n);
      OneSilentPoll(After(s, polls[..n]), polls[n], t0,
                    if n == 0 then p else polls[n - 1].t1, if n == 0 then q else polls[n - 1].t3, d);
    }
  }

  /** The loss of a link silent since `t0` is reported no earlier than the timeout
      after `t0`, and strictly before the later of timeout + d and two intervals +
      2d after it: the first report falls in that window, and one is made once a
      poll starts as late as `t0 + max(timeout, 2 * interval + d)`. */
  lemma DetectedInTime(s: State, polls: seq<Answers>, t0: Time, p: Time, q: Time, d: Time, k: nat)
    requires Watching(s, t0, p, q, d) && d >= 0 && Silent(polls) && Spaced(polls, p, q, d) && k < |polls|
    requires forall j :: 0 <= j < k ==> !Lost(s, polls, j)
    ensures Lost(s, polls, k) ==> t0 + s.timeout <= polls[k].t3 < t0 + Max(s.timeout + d, 2 * s.interval + 2 * d)
    ensures polls[k].t1 >= t0 + Max(s.timeout, 2 * s.interval + d) ==> Lost(s, polls, k)
  {
    hide Poll;
    forall j | 0 <= j < k ensures !Lost(s, polls[..k], j) {
      assert polls[..k][..j] == polls[..j] && polls[..k][j] == polls[j];
      assert !Lost(s, polls, j);
    }
    StillWatching(s, polls[..k], t0, p, q, d);
    OneSilentPoll(After(s, polls[..k]), polls[k], t0,
                  if k == 0 then p else polls[k - 1].t1, if k == 0 then q else polls[k - 1].t3, d);
  }

  /** Nothing a caller does alters a client's timing. */
  lemma {:induction false} TimingFixed(fp: Rounding, now1: Time, now2: Time, cal: map<Club, real>, actions: seq<Action>)
    ensures var s := Run(New(fp, now1, now2, cal), actions); s.interval == HEARTBEAT && s.timeout == 3 * HEARTBEAT
  {
    hide Step;
    if actions != [] {
      var n := |actions| - 1;
      TimingFixed(fp, now1, now2, cal, actions[..n]);
      TimingKept(Run(New(fp, now1, now2, cal), actions[..n]), actions[n]);
    }
  }

  lemma TimingKept(s: State, action: Action)
    ensures Step(s, action).interval == s.interval && Step(s, action).timeout == s.timeout
  {
    hide Encode, Poll;
    if action.DoPoll? {
      PollTiming(s, action.answers);
    }
  }

  lemma PollTiming(s: State, a: Answers)
    ensures Poll(s, a).0.interval == s.interval && Poll(s, a).0.timeout == s.timeout
  {
    hide Beat, Receive, ReadIdentity;
    WriteTiming(s, a);
    if a.read.Payload? {
      ReceiveResets(Beat(s, a).0, Cut(a.read.bytes, BUFFER), a);
    }
  }

  lemma WriteTiming(s: State, a: Answers)
    ensures Beat(s, a).0.interval == s.interval && Beat(s, a).0.timeout == s.timeout
    ensures ReadIdentity(s, a).0.interval == s.interval && ReadIdentity(s, a).0.timeout == s.timeout
  {
    hide Encode;
  }

  /** In seconds, for any client however it got where it is, polled at least every
      five: the loss is reported no earlier than fifteen seconds after the last
      data and before fifteen plus the polling gap; and any poll that starts after
      fifteen reports it. */
  lemma DetectedInFifteenSeconds(fp: Rounding, now1: Time, now2: Time, cal: map<Club, real>, actions: seq<Action>,
                                 polls: seq<Answers>, t0: Time, p: Time, q: Time, d: Time, k: nat)
    requires Watching(Run(New(fp, now1, now2, cal), actions), t0, p, q, d) && 0 <= d <= 5_000_000_000
    requires Silent(polls) && Spaced(polls, p, q, d) && k < |polls|
    requires forall j :: 0 <= j < k ==> !Lost(Run(New(fp, now1, now2, cal), actions), polls, j)
    ensures var s := Run(New(fp, now1, now2, cal), actions);
            && (Lost(s, polls, k) ==> t0 + 15_000_000_000 <= polls[k].t3 < t0 + 15_000_000_000 + d)
            && (polls[k].t1 >= t0 + 15_000_000_000 ==> Lost(s, polls, k))
  {
    hide Run, Poll;
    TimingFixed(fp, now1, now2, cal, actions);
    DetectedInTime(Run(New(fp, now1, now2, cal), actions), polls, t0, p, q, d, k);
  }

  /** A report changes nothing, so it recurs on every later silent poll. */
  lemma {:induction false} LossRecurs(s: State, polls: seq<Answers>, j: nat, k: nat)
    requires s.phase.Active? && s.queue == [] && Silent(polls) && j <= k < |polls|
    requires forall i :: 0 < i < |polls| ==> polls[i - 1].t3 <= polls[i].t1
    requires Lost(s, polls, j)
    ensures Lost(s, polls, k)
    decreases k
  {
    hide Poll;
    if j < k {
      LossRecurs(s, polls, j, k - 1);
      StaysActive(s, polls[..k - 1]);
      assert polls[..k][..k - 1] == polls[..k - 1];
      LossRecursOnce(After(s, polls[..k - 1]), polls[k - 1], polls[k]);
    }
  }

  lemma {:induction false} StaysActive(s: State, polls: seq<Answers>)
    requires s.phase.Active? && s.queue == [] && Silent(polls)
    ensures After(s, polls).phase.Active? && After(s, polls).queue == []
  {
    hide Encode, Parse;
    if polls != [] {
      StaysActive(s, polls[..|polls| - 1]);
    }
  }

  lemma LossRecursOnce(s: State, a: Answers, b: Answers)
    requires s.phase.Active? && s.queue == [] && a.read.WouldBlock? && a.beatOk && b.read.WouldBlock? && b.beatOk
    requires a.t3 <= b.t1 <= b.t3 && Poll(s, a).1 == Disconnected
    ensures Poll(Poll(s, a).0, b).1 == Disconnected
  {}

  /** A heartbeat that could not be written is tried again by the very next poll,
      and until it is written nothing is read and the watchdog's view is frozen. */
  lemma HeartbeatRetried(s: State, a: Answers, b: Answers)
    requires s.phase.Active? && s.queue == [] && a.t1 - s.lastHeartbeat >= s.interval && !a.beatOk && a.t1 <= b.t1
    ensures var (t, r) := Poll(s, a);
            && r == TransportError && t.received == s.received && t.events == s.events
            && (t.lastHeartbeat, t.unanswered, t.lastData) == (s.lastHeartbeat, s.unanswered, s.lastData)
            && |t.attempts| == |s.attempts| + 1
            && |Poll(t, b).0.attempts| > |t.attempts| && Poll(t, b).0.attempts[|t.attempts|].cmd.Heartbeat?
  {
    hide Encode, Parse;
  }
}
