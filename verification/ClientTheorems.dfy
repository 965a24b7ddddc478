/** The client's guarantees over whole runs, each for every sequence of operations. */
module ClientTheorems {
  import opened Common
  import opened Clubs
  import opened Protocol
  import opened Client
  import opened ClientRuns

  // --------------------------------------------------------- refinement of the stream

  /** A frame sequence handled under one setting. */
  function At(fs: seq<Frame>, setting: Setting): seq<Handled> {
    seq(|fs|, i requires 0 <= i < |fs| => Handled(fs[i], setting))
  }

  ghost predicate SameSetting(hs: seq<Handled>, setting: Setting) {
    forall i :: 0 <= i < |hs| ==> hs[i].setting == setting
  }

  /** Once connected, a client has announced that first, and then exactly the
      events due for the frames it read with adjacent repeats dropped. */
  lemma EventsAreDue(fp: Rounding, now1: Time, now2: Time, cal: map<Club, real>, actions: seq<Action>)
    ensures var s := Run(New(fp, now1, now2, cal), actions);
            && s.queue == [] && Frames(s.handled) == Collapse(s.received)
            && (s.phase.Active? ==>
                  s.events != [] && s.events[0].Connected? && s.events[1..] == EventsOf(fp, s.handled))
            && (s.phase.Connecting? ==> s.events == [])
            && (forall i :: 0 < i < |s.events| ==> !s.events[i].Connected?)
  {
    hide Run;
    Always(fp, now1, now2, cal, actions);
    var s := Run(New(fp, now1, now2, cal), actions);
    ConnectedOnlyOnce(fp, s.handled);
    forall i | 0 < i < |s.events| ensures !s.events[i].Connected? {
      assert s.events[i] == s.events[1..][i - 1];
    }
  }

  lemma {:induction false} ConnectedOnlyOnce(fp: Rounding, hs: seq<Handled>)
    ensures forall i :: 0 <= i < |EventsOf(fp, hs)| ==> !EventsOf(fp, hs)[i].Connected?
  {
    hide NoteOf;
    if hs != [] {
      ConnectedOnlyOnce(fp, hs[..|hs| - 1]);
    }
  }

  /** The frames that polls find waiting, as they fit the buffer. */
  function Offered(actions: seq<Action>): seq<Frame> {
    if actions == [] then []
    else
      var last := actions[|actions| - 1];
      Offered(actions[..|actions| - 1])
      + if last.DoPoll? && last.answers.read.Payload? && last.answers.read.bytes != []
        then [Cut(last.answers.read.bytes, BUFFER)] else []
  }

  /** Only polls, none of whose heartbeat writes fails. */
  ghost predicate PollsOnly(actions: seq<Action>) {
    forall i :: 0 <= i < |actions| ==> actions[i].DoPoll? && actions[i].answers.beatOk
  }

  /** No frame is lost: polling reads every frame offered, in order, whatever the
      clock says and however many polls find nothing. */
  lemma {:induction false} AllFramesRead(s: State, actions: seq<Action>)
    requires Inv(s) && s.phase.Active? && PollsOnly(actions)
    ensures var t := Run(s, actions);
            && Inv(t) && t.fp == s.fp && t.phase.Active? && t.received == s.received + Offered(actions)
            && SettingOf(t) == SettingOf(s)
            && |t.handled| >= |s.handled| && t.handled[..|s.handled|] == s.handled
            && SameSetting(t.handled[|s.handled|..], SettingOf(s))
  {
    hide Inv, Parse, Encode;
    if actions != [] {
      var n := |actions| - 1;
      AllFramesRead(s, actions[..n]);
      var t := Run(s, actions[..n]);
      StepKeeps(t, actions[n]);
      PollReads(t, actions[n].answers);
    }
  }

  lemma PollReads(s: State, a: Answers)
    requires Inv(s) && s.phase.Active? && a.beatOk
    ensures var t := Poll(s, a).0;
            && t.fp == s.fp && t.phase.Active? && SettingOf(t) == SettingOf(s)
            && t.received
               == s.received + (if a.read.Payload? && a.read.bytes != [] then [Cut(a.read.bytes, BUFFER)] else [])
            && (t.handled == s.handled || exists f :: t.handled == s.handled + [Handled(f, SettingOf(s))])
  {
    hide Receive, Encode, LogInv, StreamInv, EventInv, OpenBall, AckStates;
    BeatReads(s, a);
    if a.read.Payload? && a.read.bytes != [] {
      ReceiveReads(Beat(s, a).0, Cut(a.read.bytes, BUFFER), a);
    }
  }

  lemma BeatReads(s: State, a: Answers)
    ensures var t := Beat(s, a).0;
            && t.fp == s.fp && t.phase == s.phase && SettingOf(t) == SettingOf(s)
            && t.received == s.received && t.handled == s.handled
  {}

  lemma ReceiveReads(s: State, data: Frame, a: Answers)
    ensures var t := Receive(s, data, a).0;
            && t.fp == s.fp && t.phase == s.phase && SettingOf(t) == SettingOf(s) && t.received == s.received + [data]
            && t.handled == s.handled + if data == s.lastRx then [] else [Handled(data, SettingOf(s))]
  {
    hide Parse, Encode;
    assert s.handled + [] == s.handled;
  }

  /** Sending every frame once or any number of times in a row makes no
      difference: the events are those of the collapsed stream. Polls that find
      nothing, heartbeats, watchdog verdicts, empty reads and failed club
      requests may come anywhere in between. */
  lemma StutterRefinement(s: State, actions: seq<Action>, fs: seq<Frame>, counts: seq<nat>)
    requires Inv(s) && s.phase.Active? && s.received == [] && PollsOnly(actions)
    requires |fs| == |counts| && Positive(counts) && Offered(actions) == Stutter(fs, counts)
    ensures var events := Run(s, actions).events;
            events != [] && events[1..] == EventsOf(s.fp, At(Collapse(fs), SettingOf(s)))
  {
    hide Run, Offered, Stutter, LogInv, FieldInv, Collapse, At, Frames;
    AllFramesRead(s, actions);
    CollapseStutter(fs, counts);
    var t := Run(s, actions);
    assert s.handled == [] by { NothingHandled(s.handled, s.received, s.lastRx); }
    assert t.handled[0..] == t.handled;
    HandledIsAt(t.handled, SettingOf(s));
    assert [] + Offered(actions) == Offered(actions);
  }

  lemma NothingHandled(hs: seq<Handled>, received: seq<Frame>, lastRx: Frame)
    requires StreamInv(Frames(hs), received, lastRx) && received == []
    ensures hs == []
  {}

  lemma {:induction false} HandledIsAt(hs: seq<Handled>, setting: Setting)
    requires SameSetting(hs, setting)
    ensures hs == At(Frames(hs), setting)
  {
    if hs != [] {
      var n := |hs| - 1;
      HandledIsAt(hs[..n], setting);
      var fs := Frames(hs[..n]);
      assert At(fs + [hs[n].frame], setting) == At(fs, setting) + [Handled(hs[n].frame, setting)];
    }
  }

  // -------------------------------------------------------------------- shots

  /** Neither a ball nor a club frame between `from` and `to`. */
  ghost predicate Quiet(fp: Rounding, fs: seq<Frame>, from: int, to: int)
    requires 0 <= from && to <= |fs|
  {
    forall k :: from <= k < to ==> BallOf(fp, fs[k]).None? && !IsClub(fp, fs[k])
  }

  /** The club frame at `j` answers the ball frame at `i`: it is the first club
      frame after it, and no other ball came in between. */
  ghost predicate Pair(fp: Rounding, fs: seq<Frame>, i: int, j: int) {
    0 <= i < j < |fs| && BallOf(fp, fs[i]).Some? && IsClub(fp, fs[j]) && Quiet(fp, fs, i + 1, j)
  }

  lemma {:induction false} OpenBallIsLatest(fp: Rounding, fs: seq<Frame>, b: BallMetrics)
    ensures OpenBall(fp, fs) == Some(b)
       <==> exists i :: 0 <= i < |fs| && BallOf(fp, fs[i]) == Some(b) && Quiet(fp, fs, i + 1, |fs|)
  {
    hide NoteOf, Parse;
    if fs != [] {
      var n := |fs| - 1;
      OpenBallIsLatest(fp, fs[..n], b);
      if OpenBall(fp, fs) == Some(b) {
        if BallOf(fp, fs[n]).Some? {
          assert Quiet(fp, fs, n + 1, |fs|);
        } else {
          var i :| 0 <= i < n && BallOf(fp, fs[..n][i]) == Some(b) && Quiet(fp, fs[..n], i + 1, n);
          assert BallOf(fp, fs[i]) == Some(b) && Quiet(fp, fs, i + 1, |fs|) by {
            forall k | i + 1 <= k < n ensures BallOf(fp, fs[k]).None? && !IsClub(fp, fs[k]) {
              assert fs[k] == fs[..n][k];
            }
          }
        }
      }
      if i :| 0 <= i < |fs| && BallOf(fp, fs[i]) == Some(b) && Quiet(fp, fs, i + 1, |fs|) {
        BallNotClub(fp, fs[i]);
        if i < n {
          assert BallOf(fp, fs[..n][i]) == Some(b) && Quiet(fp, fs[..n], i + 1, n);
        }
      }
    }
  }

  lemma BallNotClub(fp: Rounding, f: Frame)
    ensures BallOf(fp, f).Some? ==> !IsClub(fp, f)
  {}

  lemma PairMeansOpen(fp: Rounding, fs: seq<Frame>, i: int, j: int)
    requires Pair(fp, fs, i, j)
    ensures OpenBall(fp, fs[..j]) == BallOf(fp, fs[i])
  {
    hide OpenBall, NoteOf;
    var before := fs[..j];
    assert before[i] == fs[i];
    assert Quiet(fp, before, i + 1, j) by {
      forall k | i + 1 <= k < j ensures BallOf(fp, before[k]).None? && !IsClub(fp, before[k]) {
        assert before[k] == fs[k];
      }
    }
    OpenBallIsLatest(fp, before, BallOf(fp, fs[i]).value);
  }

  lemma OpenMeansPair(fp: Rounding, fs: seq<Frame>, j: nat)
    requires j < |fs| && IsClub(fp, fs[j]) && OpenBall(fp, fs[..j]).Some?
    ensures exists i :: Pair(fp, fs, i, j)
  {
    hide OpenBall, NoteOf;
    var before, ball := fs[..j], OpenBall(fp, fs[..j]).value;
    OpenBallIsLatest(fp, before, ball);
    var i :| 0 <= i < |before| && BallOf(fp, before[i]) == Some(ball) && Quiet(fp, before, i + 1, |before|);
    assert before[i] == fs[i];
    assert Pair(fp, fs, i, j) by {
      forall k | i + 1 <= k < j ensures BallOf(fp, fs[k]).None? && !IsClub(fp, fs[k]) { assert before[k] == fs[k]; }
    }
  }

  /** A shot spelled out. The ball's metrics and all of the club's but one are as
      parsed. Vertical impact is absent unless measured and the active club has an
      offset, and else is their sum, rounded. The club is absent when speed, path
      and face angle are all unmeasured. */
  ghost predicate IsShotOf(fp: Rounding, e: Event, ball: BallMetrics, club: ClubMetrics, setting: Setting) {
    && e.ShotEvent? && e.ball == ball
    && (e.club.None? <==> club.clubSpeed.None? && club.path.None? && club.faceAngle.None?)
    && (e.club.Some? ==>
          var c := e.club.value;
          && c.mask == club.mask && c.path == club.path && c.faceAngle == club.faceAngle
          && c.attackAngle == club.attackAngle && c.dynamicLoft == club.dynamicLoft
          && c.impactHorizontal == club.impactHorizontal && c.clubSpeed == club.clubSpeed
          && c.smashFactor == club.smashFactor
          && (c.impactVertical.Some? <==>
                club.impactVertical.Some? && setting.club.Some? && setting.club.value in setting.calibration)
          && (c.impactVertical.Some? ==>
                c.impactVertical.value
                == match club.impactVertical.value
                   case Finite(v) => Finite(fp(v + setting.calibration[setting.club.value]))
                   case special => special))
  }

  lemma ShotSpelledOut(fp: Rounding, ball: BallMetrics, club: ClubMetrics, setting: Setting)
    ensures IsShotOf(fp, ShotOf(fp, ball, club, setting), ball, club, setting)
  {}

  /** A shot is reported at a club frame exactly when that frame answers a ball,
      with that ball's metrics and that frame's club metrics; club frames with no
      outstanding ball yield nothing, and no other frame yields a shot. */
  lemma ShotsArePairs(fp: Rounding, hs: seq<Handled>, j: nat)
    requires j < |hs|
    ensures var e := EventFor(fp, Frames(hs[..j]), hs[j]); var fs := Frames(hs);
            && (e.Some? && e.value.ShotEvent? <==> exists i :: Pair(fp, fs, i, j))
            && (forall i :: Pair(fp, fs, i, j) ==>
                  && e.Some?
                  && IsShotOf(fp, e.value, BallOf(fp, fs[i]).value, NoteOf(fp, fs[j]).value.club, hs[j].setting))
  {
    hide Parse, ShotOf, OpenBall, Frames, Quiet, BallOf, AckStates, IsShotOf;
    var fs := Frames(hs);
    FramesAt(hs, j);
    forall i | Pair(fp, fs, i, j)
      ensures OpenBall(fp, fs[..j]) == BallOf(fp, fs[i])
      ensures IsShotOf(fp, ShotOf(fp, BallOf(fp, fs[i]).value, NoteOf(fp, fs[j]).value.club, hs[j].setting),
                       BallOf(fp, fs[i]).value, NoteOf(fp, fs[j]).value.club, hs[j].setting)
    {
      PairMeansOpen(fp, fs, i, j);
      ShotSpelledOut(fp, BallOf(fp, fs[i]).value, NoteOf(fp, fs[j]).value.club, hs[j].setting);
    }
    if IsClub(fp, fs[j]) && OpenBall(fp, fs[..j]).Some? {
      OpenMeansPair(fp, fs, j);
    }
    ShotOfIsShot(fp, fs[..j], hs[j]);
  }

  /** Where the club frames are that answer a ball. */
  function PairEnds(fp: Rounding, fs: seq<Frame>): seq<nat> {
    if fs == [] then []
    else
      var n := |fs| - 1;
      PairEnds(fp, fs[..n]) + if IsClub(fp, fs[n]) && OpenBall(fp, fs[..n]).Some? then [n] else []
  }

  ghost predicate Increasing(js: seq<nat>) {
    forall a, b :: 0 <= a < b < |js| ==> js[a] < js[b]
  }

  lemma {:induction false} PairEndsAre(fp: Rounding, fs: seq<Frame>)
    ensures var js := PairEnds(fp, fs);
            && Increasing(js)
            && (forall k :: 0 <= k < |js| ==> js[k] < |fs| && IsClub(fp, fs[js[k]]) && OpenBall(fp, fs[..js[k]]).Some?)
            && (forall j :: 0 <= j < |fs| && IsClub(fp, fs[j]) && OpenBall(fp, fs[..j]).Some? ==> j in js)
  {
    hide IsClub, OpenBall;
    if fs != [] {
      var n := |fs| - 1;
      PairEndsAre(fp, fs[..n]);
      forall j | 0 <= j <= n ensures fs[..n][..j] == fs[..j] && (j < n ==> fs[..n][j] == fs[j]) {}
    }
  }

  /** The event due at a position. */
  function Due(fp: Rounding, hs: seq<Handled>, j: nat): Option<Event>
    requires j < |hs|
  {
    EventFor(fp, Frames(hs[..j]), hs[j])
  }

  lemma DueStable(fp: Rounding, hs: seq<Handled>, h: Handled, j: nat)
    requires j <= |hs|
    ensures Due(fp, hs + [h], j) == if j < |hs| then Due(fp, hs, j) else EventFor(fp, Frames(hs), h)
  {
    hide EventFor, Frames;
    assert (hs + [h])[..j] == hs[..j];
    assert hs[..|hs|] == hs;
  }

  ghost predicate DueAt(fp: Rounding, hs: seq<Handled>, shots: seq<Event>, js: seq<nat>) {
    |shots| == |js| && forall k :: 0 <= k < |js| ==> js[k] < |hs| && Due(fp, hs, js[k]) == Some(shots[k])
  }

  lemma DueAtSnoc(fp: Rounding, hs: seq<Handled>, h: Handled, shots: seq<Event>, js: seq<nat>)
    requires DueAt(fp, hs, shots, js)
    ensures DueAt(fp, hs + [h], shots, js)
    ensures var e := EventFor(fp, Frames(hs), h);
            e.Some? ==> DueAt(fp, hs + [h], shots + [e.value], js + [|hs|])
  {
    hide Due, EventFor, Frames;
    forall k | 0 <= k < |js| ensures Due(fp, hs + [h], js[k]) == Some(shots[k]) {
      DueStable(fp, hs, h, js[k]);
    }
    DueStable(fp, hs, h, |hs|);
  }

  lemma {:induction false} ShotsAtPairEnds(fp: Rounding, hs: seq<Handled>)
    ensures DueAt(fp, hs, Shots(EventsOf(fp, hs)), PairEnds(fp, Frames(hs)))
  {
    hide EventFor, IsClub, OpenBall, Frames, EventsOf, Shots, DueAt;
    if hs == [] {
      NothingDue(fp);
    } else {
      var n := |hs| - 1;
      var fs := Frames(hs[..n]);
      ShotsAtPairEnds(fp, hs[..n]);
      assert hs == hs[..n] + [hs[n]];
      SnocFrames(fp, hs[..n], hs[n]);
      assert Frames(hs)[..n] == fs && Frames(hs)[n] == hs[n].frame;
      ShotOfIsShot(fp, fs, hs[n]);
      var shots, js := Shots(EventsOf(fp, hs[..n])), PairEnds(fp, fs);
      DueAtSnoc(fp, hs[..n], hs[n], shots, js);
      assert EventsOf(fp, hs[..n]) + [] == EventsOf(fp, hs[..n]) && shots + [] == shots && js + [] == js;
      if EventFor(fp, fs, hs[n]).Some? {
        SnocEvent(EventsOf(fp, hs[..n]), EventFor(fp, fs, hs[n]).value);
      }
    }
  }

  lemma NothingDue(fp: Rounding)
    ensures Frames([]) == [] && DueAt(fp, [], Shots(EventsOf(fp, [])), [])
  {}

  /** The `k`-th shot is that of the pair that ends at `js[k]`. */
  ghost predicate PairsShots(fp: Rounding, hs: seq<Handled>, shots: seq<Event>, js: seq<nat>) {
    var fs := Frames(hs);
    && |js| == |shots| && Increasing(js)
    && (forall j :: j in js <==> exists i :: Pair(fp, fs, i, j))
    && (forall k, i :: 0 <= k < |js| && Pair(fp, fs, i, js[k]) ==>
          IsShotOf(fp, shots[k], BallOf(fp, fs[i]).value, NoteOf(fp, fs[js[k]]).value.club, hs[js[k]].setting))
  }

  /** The shots are the pairs: one for each, in order, and no others. */
  lemma ShotsAreThePairs(fp: Rounding, hs: seq<Handled>) returns (js: seq<nat>)
    ensures PairsShots(fp, hs, Shots(EventsOf(fp, hs)), js)
  {
    hide NoteOf, OpenBall, Frames, EventFor, ShotOf, Quiet, BallOf, IsShotOf;
    var fs := Frames(hs);
    js := PairEnds(fp, fs);
    PairEndsAre(fp, fs);
    ShotsAtPairEnds(fp, hs);
    forall j ensures j in js <==> exists i :: Pair(fp, fs, i, j) {
      if j in js {
        OpenMeansPair(fp, fs, j);
      }
      if i :| Pair(fp, fs, i, j) {
        PairMeansOpen(fp, fs, i, j);
      }
    }
    forall k, i | 0 <= k < |js| && Pair(fp, fs, i, js[k])
      ensures IsShotOf(fp, Shots(EventsOf(fp, hs))[k], BallOf(fp, fs[i]).value, NoteOf(fp, fs[js[k]]).value.club,
                       hs[js[k]].setting)
    {
      ShotsArePairs(fp, hs, js[k]);
    }
  }

  lemma ShotOfIsShot(fp: Rounding, before: seq<Frame>, h: Handled)
    ensures EventFor(fp, before, h).Some? && EventFor(fp, before, h).value.ShotEvent?
       <==> IsClub(fp, h.frame) && OpenBall(fp, before).Some?
  {}

  lemma {:induction false} BallsAccountedFor(fp: Rounding, hs: seq<Handled>)
    ensures var fs := Frames(hs);
            Balls(fp, fs) == |Shots(EventsOf(fp, hs))| + Superseded(fp, fs) + if OpenBall(fp, fs).Some? then 1 else 0
  {
    hide EventFor, BallOf, IsClub, NoteOf;
    if hs != [] {
      var n := |hs| - 1;
      var fs := Frames(hs[..n]);
      BallsAccountedFor(fp, hs[..n]);
      assert hs == hs[..n] + [hs[n]];
      SnocFrames(fp, hs[..n], hs[n]);
      SnocFrame(fp, fs, hs[n].frame);
      ShotOfIsShot(fp, fs, hs[n]);
      BallNotClub(fp, hs[n].frame);
      if EventFor(fp, fs, hs[n]).Some? {
        SnocEvent(EventsOf(fp, hs[..n]), EventFor(fp, fs, hs[n]).value);
      } else {
        assert EventsOf(fp, hs[..n]) + [] == EventsOf(fp, hs[..n]);
      }
    }
  }

  lemma {:induction false} ShotsAfterFirst(es: seq<Event>)
    requires es != [] && !es[0].ShotEvent?
    ensures Shots(es) == Shots(es[1..])
  {
    var n := |es| - 1;
    if n > 0 {
      ShotsAfterFirst(es[..n]);
      assert es[1..][..n - 1] == es[..n][1..];
    }
  }

  /** Conservation, in every reachable state and whatever writes failed: a ball
      waits exactly while club metrics are awaited; each ball was requested once,
      and became a shot, was superseded, or is the one waiting. */
  lemma ShotConservation(fp: Rounding, now1: Time, now2: Time, cal: map<Club, real>, actions: seq<Action>)
    ensures var s := Run(New(fp, now1, now2, cal), actions); var fs := Collapse(s.received);
            && (s.awaiting <==> s.pending.Some?) && s.pending == OpenBall(fp, fs)
            && Requests(s.attempts) == Balls(fp, fs)
            && Balls(fp, fs) == |Shots(s.events)| + Superseded(fp, fs) + (if s.awaiting then 1 else 0)
  {
    hide LogInv;
    Always(fp, now1, now2, cal, actions);
    LogTheorem(fp, now1, now2, cal, actions);
    var s := Run(New(fp, now1, now2, cal), actions);
    BallsAccountedFor(fp, s.handled);
    if s.phase.Active? {
      ShotsAfterFirst(s.events);
    }
  }

  // -------------------------------------------------------------- command log

  /** The `k`-th write attempted, counting from one, carries `k` modulo 256 and
      decodes to the command that was issued. */
  lemma LogTheorem(fp: Rounding, now1: Time, now2: Time, cal: map<Club, real>, actions: seq<Action>)
    ensures var s := Run(New(fp, now1, now2, cal), actions);
            && (forall k :: 0 <= k < |s.attempts| ==>
                  Decode(s.attempts[k].bytes) == Some((s.attempts[k].cmd, (k + 1) % 0x100)))
            && s.activeClub == Selected(s.attempts)
            && Requests(s.attempts) == Balls(fp, Collapse(s.received))
  {
    hide Decode, Encode;
    Always(fp, now1, now2, cal, actions);
    var s := Run(New(fp, now1, now2, cal), actions);
    forall k | 0 <= k < |s.attempts|
      ensures Decode(s.attempts[k].bytes) == Some((s.attempts[k].cmd, (k + 1) % 0x100))
    {
      DecodeEncode(s.attempts[k].cmd, (k + 1) % 0x100);
    }
  }

  /** Any 256 consecutive attempts carry different sequence bytes, and the 257th
      repeats the first. */
  lemma SequenceWindow(fp: Rounding, now1: Time, now2: Time, cal: map<Club, real>, actions: seq<Action>, j: nat, k: nat)
    requires j < k < |Run(New(fp, now1, now2, cal), actions).attempts|
    ensures var log := Run(New(fp, now1, now2, cal), actions).attempts;
            |log[j].bytes| == |log[k].bytes| == 9
            && (k - j < 0x100 ==> log[j].bytes[2] != log[k].bytes[2])
            && (k - j == 0x100 ==> log[j].bytes[2] == log[k].bytes[2])
  {
    hide Run, LogInv, StreamInv, FieldInv, EventInv;
    Always(fp, now1, now2, cal, actions);
    var s := Run(New(fp, now1, now2, cal), actions);
    SequenceByte(s.seqNo, s.attempts, s.activeClub, Balls(fp, Frames(s.handled)), j);
    SequenceByte(s.seqNo, s.attempts, s.activeClub, Balls(fp, Frames(s.handled)), k);
  }

  lemma SequenceByte(seqNo: Byte, log: seq<Attempt>, active: Option<Club>, balls: nat, k: nat)
    requires LogInv(seqNo, log, active, balls) && k < |log|
    ensures |log[k].bytes| == 9 && log[k].bytes[2] == (k + 1) % 0x100
  {}

  // -------------------------------------------------------------------- states

  /** Filtering by frame and then by state loses nothing: the state changes
      reported are the acknowledged states, repeats included, with adjacent equal
      ones dropped; and the current state is the last acknowledged. */
  lemma StateFiltering(fp: Rounding, now1: Time, now2: Time, cal: map<Club, real>, actions: seq<Action>)
    ensures var s := Run(New(fp, now1, now2, cal), actions);
            States(s.events) == Collapse(AckStates(fp, s.received)) && s.state == Last(AckStates(fp, s.received))
  {
    Always(fp, now1, now2, cal, actions);
  }
}
