/** What each call on the client writes to the device, and what it announces. */
module ClientCalls {
  import opened Common
  import opened Clubs
  import opened Protocol
  import opened Client
  import FirmwareScan

  /** The commands a call has attempted, with the fate of each write. */
  ghost predicate Writes(s: State, t: State, cmds: seq<(Command, bool)>) {
    && |t.attempts| == |s.attempts| + |cmds| && t.attempts[..|s.attempts|] == s.attempts
    && forall i :: 0 <= i < |cmds| ==>
         t.attempts[|s.attempts| + i].cmd == cmds[i].0 && t.attempts[|s.attempts| + i].ok == cmds[i].1
  }

  /** The calls other than `poll`. Arming selects the club, with the player's hand,
      and only once that is written starts detection; the stimp index is capped at 5;
      the hand and the calibration are the client's own affair. */
  lemma CallWrites(s: State, action: Action)
    requires !action.DoPoll?
    ensures var t := Step(s, action);
            match action
            case DoArm(club, spin, ok1, ok2) =>
              Writes(s, t, [(SelectClub(club, s.handed), ok1)] + if ok1 then [(DetectBall(true, spin), ok2)] else [])
            case DoDisarm(ok) => Writes(s, t, [(DetectBall(false, Advanced), ok)])
            case DoSelectClub(club, ok) => Writes(s, t, [(SelectClub(club, s.handed), ok)])
            case DoSetUnits(speed, distance, ok) => Writes(s, t, [(SetUnits(speed, distance), ok)])
            case DoSetGreenSpeed(index, ok) => Writes(s, t, [(SetGreenSpeed(if index <= 5 then index else 5), ok)])
            case DoSetCarryAdjustment(percent, ok) => Writes(s, t, [(SetCarryAdjustment(percent), ok)])
            case _ => Writes(s, t, [])
  {
    hide Encode;
  }

  /** What the calls other than `poll` leave: only what they are for. */
  lemma CallLeaves(s: State, action: Action)
    requires !action.DoPoll?
    ensures var t := Step(s, action);
            && t.handed == (if action.DoSetHanded? then action.handed else s.handed)
            && t.calibration == (if action.DoSetCalibration? then action.calibration else s.calibration)
            && t.activeClub == (if action.DoArm? && action.ok1 then Some(action.club)
                                else if action.DoSelectClub? && action.ok then Some(action.club) else s.activeClub)
            && t == s.(handed := t.handed, calibration := t.calibration, activeClub := t.activeClub,
                       seqNo := t.seqNo, attempts := t.attempts)
  {
    hide Encode;
  }

  /** A poll of an active client: a heartbeat if one is due, then, if that did not
      fail and a new ball frame is read, the request for its club metrics. */
  lemma PollWrites(s: State, a: Answers)
    requires s.phase.Active? && s.queue == []
    ensures var t := Poll(s, a).0; var due := a.t1 - s.lastHeartbeat >= s.interval;
            var beat := if due then [(Heartbeat, a.beatOk)] else [];
            var asks := !(due && !a.beatOk) && a.read.Payload? && NewBall(s, a.read.bytes);
            Writes(s, t, beat + if asks then [(RequestClubMetrics, a.requestOk)] else [])
  {
    hide Encode, Receive, Writes, Beat;
    var s1 := Beat(s, a).0;
    var beat := if a.t1 - s.lastHeartbeat >= s.interval then [(Heartbeat, a.beatOk)] else [];
    BeatWrites(s, a);
    if a.read.Payload? && a.read.bytes != [] && Beat(s, a).1 {
      var data := Cut(a.read.bytes, BUFFER);
      ReceiveWrites(s1, data, a);
      var asks := if NewBall(s, a.read.bytes) then [(RequestClubMetrics, a.requestOk)] else [];
      WritesThen(s, s1, Receive(s1, data, a).0, beat, asks);
    }
    SameLog(s, s1, Poll(s, a).0, beat);
    assert beat + [] == beat;
  }

  lemma BeatWrites(s: State, a: Answers)
    ensures var (s1, ok) := Beat(s, a); var due := a.t1 - s.lastHeartbeat >= s.interval;
            && Writes(s, s1, if due then [(Heartbeat, a.beatOk)] else [])
            && (ok <==> !(due && !a.beatOk)) && s1.lastRx == s.lastRx
  {
    hide Encode;
  }

  lemma WritesThen(s: State, s1: State, t: State, xs: seq<(Command, bool)>, ys: seq<(Command, bool)>)
    requires Writes(s, s1, xs) && Writes(s1, t, ys)
    ensures forall u: State :: u.attempts == t.attempts ==> Writes(s, u, xs + ys)
  {
    assert t.attempts[..|s.attempts|] == s1.attempts[..|s.attempts|];
    forall k | 0 <= k < |s1.attempts| ensures t.attempts[k] == s1.attempts[k] {
      assert t.attempts[..|s1.attempts|][k] == s1.attempts[k];
    }
  }

  lemma SameLog(s: State, s1: State, t: State, xs: seq<(Command, bool)>)
    requires Writes(s, s1, xs)
    ensures t.attempts == s1.attempts ==> Writes(s, t, xs)
  {}

  /** The first 64 bytes are a ball frame other than the frame read last. */
  predicate NewBall(s: State, bytes: Frame) {
    var f := if |bytes| <= 64 then bytes else bytes[..64];
    f != s.lastRx && |f| >= 17 && f[0] == 0x11 && f[1] == 0x02
  }

  lemma ReceiveWrites(s: State, data: Frame, a: Answers)
    ensures Writes(s, Receive(s, data, a).0,
                   if data != s.lastRx && |data| >= 17 && data[0] == 0x11 && data[1] == 0x02
                   then [(RequestClubMetrics, a.requestOk)] else [])
  {
    hide Encode, Scaled, I16At, I32At, BigEndian, ClubFrom;
  }

  /** What a poll of an active client leaves: the heartbeat's time is taken once it is
      written, the data's once it is read; a frame not equal to the last is handled,
      under the active club and the calibration of that moment; and what polls are
      not for stays. */
  lemma PollLeaves(s: State, a: Answers)
    requires s.phase.Active? && s.queue == []
    ensures var t := Poll(s, a).0;
            var due := a.t1 - s.lastHeartbeat >= s.interval;
            var got := !(due && !a.beatOk) && a.read.Payload? && a.read.bytes != [];
            var f := if !got then [] else if |a.read.bytes| <= 64 then a.read.bytes else a.read.bytes[..64];
            && t.lastHeartbeat == (if due && a.beatOk then a.t2 else s.lastHeartbeat)
            && t.unanswered == (if got then 0
                                else if due && a.beatOk && s.unanswered < 0xFFFF_FFFF then s.unanswered + 1
                                else s.unanswered)
            && t.lastData == (if got then a.t3 else s.lastData)
            && t.lastRx == (if got then f else s.lastRx)
            && t.received == s.received + (if got then [f] else [])
            && t.handled == s.handled + (if got && f != s.lastRx
                                         then [Handled(f, Setting(s.activeClub, s.calibration))] else [])
            && (t.fp, t.phase, t.queue, t.interval, t.timeout, t.handed, t.activeClub, t.calibration)
               == (s.fp, s.phase, s.queue, s.interval, s.timeout, s.handed, s.activeClub, s.calibration)
  {
    hide Encode, Receive, Beat;
    BeatLeaves(s, a);
    if a.read.Payload? && a.read.bytes != [] {
      ReceiveLeaves(Beat(s, a).0, Cut(a.read.bytes, BUFFER), a);
    }
    assert s.received + [] == s.received && s.handled + [] == s.handled;
  }

  lemma BeatLeaves(s: State, a: Answers)
    ensures var (t, ok) := Beat(s, a); var due := a.t1 - s.lastHeartbeat >= s.interval;
            && (ok <==> !(due && !a.beatOk))
            && t == s.(seqNo := t.seqNo, attempts := t.attempts,
                       lastHeartbeat := if due && a.beatOk then a.t2 else s.lastHeartbeat,
                       unanswered := if due && a.beatOk && s.unanswered < 0xFFFF_FFFF then s.unanswered + 1
                                     else s.unanswered)
  {
    hide Encode;
  }

  lemma ReceiveLeaves(s: State, data: Frame, a: Answers)
    ensures var t := Receive(s, data, a).0;
            && t == s.(lastData := a.t3, unanswered := 0, received := s.received + [data], lastRx := data,
                       handled := s.handled + (if data != s.lastRx
                                               then [Handled(data, Setting(s.activeClub, s.calibration))] else []),
                       seqNo := t.seqNo, attempts := t.attempts, pending := t.pending, awaiting := t.awaiting,
                       state := t.state)
  {
    hide Encode, Parse;
    assert s.handled + [] == s.handled;
  }

  /** A connecting client's poll: it reads the identity, then writes a query and a
      heartbeat, stopping at the first of these to fail; and announces what it read,
      each value in its place, the model by its GAP name unless that is missing or
      empty, and else by the transport's hint. */
  lemma IdentityPoll(s: State, a: Answers)
    requires s.phase.Connecting? && s.queue == []
    ensures var (t, r) := Poll(s, a); var id := a.identity;
            var readable := id.firmware.Some? && id.hardware.Some? && id.deviceId.Some?;
            && Writes(s, t, if !readable then [] else if !id.queryOk then [(Query, false)]
                            else [(Query, true), (Heartbeat, a.beatOk)])
            && (t.phase.Active? <==> readable && id.queryOk && a.beatOk)
            && (if t.phase.Active? then
                  r.Ok? && r.event.Some? && r.event.value.Connected?
                  && var e := r.event.value;
                  && e.firmware == FirmwareScan.Parse(id.firmware.value)
                  && e.hardware == id.hardware.value && e.deviceId == id.deviceId.value
                  && e.model == (match id.gapName
                                 case Some(name) => if name != "" then name else id.hint.GetOr("")
                                 case None => id.hint.GetOr(""))
                  && t.lastData == a.t2 && t.lastHeartbeat == a.t1 && t.unanswered == 1 && t.events == s.events + [e]
                else r == TransportError && t.events == s.events)
  {
    hide Encode, FirmwareScan.Parse;
  }
}
