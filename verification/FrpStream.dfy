/** What each controller sees: the telemetry cached by the device, and whole shot
    blocks, over every interleaving. */
module FrpStream {
  import opened Common
  import opened Frp
  import Client

  // ------------------------------------------------------------ stream grammar

  function Number(k: nat): Word32 {
    (k + 1) % WORD32_SIZE
  }

  function BlockOf(shots: seq<ShotData>, k: nat): seq<FrpEvent>
    requires k < |shots|
  {
    Block(Number(k), shots[k])
  }

  /** Where a stream stands: the rest of the block being sent, the next shot due,
      and the last READY value sent; or out of grammar. */
  datatype Pos = Bad | At(todo: seq<FrpEvent>, next: nat, ready: Option<bool>)

  /** A connection carries telemetry between blocks, and the blocks of consecutive
      shots from `from` on, each begun only when the last telemetry said READY=false. */
  function Scan(stream: seq<Envelope>, from: nat, shots: seq<ShotData>): Pos {
    if stream == [] then At([], from, None)
    else
      match Scan(stream[..|stream| - 1], from, shots)
      case Bad => Bad
      case At(todo, next, ready) => Accept(todo, next, ready, stream[|stream| - 1].event, shots)
  }

  function Accept(todo: seq<FrpEvent>, next: nat, ready: Option<bool>, e: FrpEvent, shots: seq<ShotData>): Pos {
    if todo != [] then (if e == todo[0] then At(todo[1..], next, ready) else Bad)
    else if e.Telemetry? then At([], next, Some(e.ready))
    else if next < |shots| && ready == Some(false) && e == BlockOf(shots, next)[0]
    then At(BlockOf(shots, next)[1..], next + 1, ready)
    else Bad
  }

  lemma ScanSnoc(stream: seq<Envelope>, from: nat, shots: seq<ShotData>, env: Envelope)
    ensures Scan(stream + [env], from, shots)
         == match Scan(stream, from, shots) case Bad => Bad
            case At(todo, next, ready) => Accept(todo, next, ready, env.event, shots)
  {}

  /** Shots numbered later do not change what was sent before. */
  lemma {:induction false} ScanStable(stream: seq<Envelope>, from: nat, shots: seq<ShotData>, s: ShotData)
    requires Scan(stream, from, shots) != Bad
    ensures Scan(stream, from, shots + [s]) == Scan(stream, from, shots)
    ensures from <= Scan(stream, from, shots).next <= Max(from, |shots|)
  {
    hide Block;
    if stream != [] {
      ScanStable(stream[..|stream| - 1], from, shots, s);
    }
  }

  function LastTelemetry(stream: seq<Envelope>): Option<Envelope> {
    if stream == [] then None
    else if stream[|stream| - 1].event.Telemetry? then Some(stream[|stream| - 1])
    else LastTelemetry(stream[..|stream| - 1])
  }

  function ReadyOf(env: Option<Envelope>): Option<bool> {
    match env
    case Some(Envelope(_, Telemetry(_, _, ready, _))) => Some(ready)
    case _ => None
  }

  // ------------------------------------------------------------- the invariant

  /** The cached telemetry says what `lastReady` says, false by default. */
  ghost predicate CacheInv(d: Device) {
    && (d.telemetry.Some? ==> ReadyOf(d.telemetry) == Some(d.lastReady.GetOr(false)))
    && (d.lastReady.Some? ==> d.telemetry.Some?)
  }

  /** Past connections number disjoint, increasing ranges of shots, and are in
      grammar unless a send on them failed. */
  ghost predicate EndedInv(ended: seq<Ended>, from: nat, shots: seq<ShotData>) {
    && from <= |shots|
    && (forall i :: 0 <= i < |ended| ==> EndedWell(ended[i], shots) && ended[i].upTo <= from)
    && (forall i, j :: 0 <= i < j < |ended| ==> ended[i].upTo <= ended[j].from)
  }

  ghost predicate EndedWell(e: Ended, shots: seq<ShotData>) {
    && e.from <= e.upTo
    && (!e.broken ==> Scan(e.stream, e.from, shots) != Bad && e.from <= Scan(e.stream, e.from, shots).next <= e.upTo)
  }

  /** A connection is held and no send on it has failed. */
  predicate Sound(w: World) {
    w.d.conn.Some? && !w.h.broken
  }

  /** The held connection's stream stands at `todo`, all shots begun. */
  ghost predicate LiveInv(w: World, todo: seq<FrpEvent>, next: nat) {
    Sound(w) ==>
      && w.h.from <= next <= |w.h.shots|
      && LastTelemetry(w.h.live) == w.d.telemetry
      && Scan(w.h.live, w.h.from, w.h.shots) == At(todo, next, ReadyOf(w.d.telemetry))
  }

  ghost predicate MidInv(w: World, todo: seq<FrpEvent>, next: nat) {
    && w.d.shotNumber == |w.h.shots| % WORD32_SIZE
    && CacheInv(w.d)
    && EndedInv(w.h.ended, w.h.from, w.h.shots)
    && LiveInv(w, todo, next)
  }

  /** Between calls every block is complete. */
  ghost predicate StreamInv(w: World) {
    MidInv(w, [], |w.h.shots|)
  }

  /** Enough to drop the connection: what it carried is in grammar. */
  ghost predicate Droppable(w: World) {
    && w.d.shotNumber == |w.h.shots| % WORD32_SIZE
    && CacheInv(w.d)
    && EndedInv(w.h.ended, w.h.from, w.h.shots)
    && (Sound(w) ==>
          && Scan(w.h.live, w.h.from, w.h.shots) != Bad
          && w.h.from <= Scan(w.h.live, w.h.from, w.h.shots).next <= |w.h.shots|)
  }

  lemma DropKeeps(w: World)
    requires Droppable(w) && w.d.conn.Some?
    ensures StreamInv(DropConnection(w)) && DropConnection(w).d.conn.None?
  {
    hide Scan, LastTelemetry;
    var e := Ended(w.d.conn.value, w.h.live, w.h.from, |w.h.shots|, w.h.broken);
    assert EndedWell(e, w.h.shots);
  }

  /** A connection with a failed send is off the books, whatever follows on it. */
  lemma UnsoundSendKeeps(w: World, env: Envelope, o: SendOutcome)
    requires StreamInv(w) && !Sound(w)
    ensures var w1 := SendEnvelope(w, env, o).0; StreamInv(w1) && !Sound(w1)
  {
    hide Scan, LastTelemetry, EndedInv;
    if w.d.conn.Some? && o.Closed? {
      DropKeeps(w);
    }
  }

  /** A send that continues the grammar. */
  lemma SendKeeps(w: World, todo: seq<FrpEvent>, next: nat, env: Envelope, o: SendOutcome, todo1: seq<FrpEvent>)
    requires MidInv(w, todo, next) && Sound(w) && !env.event.Telemetry?
    requires Accept(todo, next, ReadyOf(w.d.telemetry), env.event, w.h.shots)
          == At(todo1, |w.h.shots|, ReadyOf(w.d.telemetry))
    ensures var (w1, ok) := SendEnvelope(w, env, o);
            && MidInv(w1, todo1, |w.h.shots|) && w1.d.telemetry == w.d.telemetry && w1.h.shots == w.h.shots
            && (!Sound(w1) ==> StreamInv(w1)) && (!ok ==> !Sound(w1))
  {
    hide Scan, LastTelemetry, Accept, EndedInv;
    if o.Closed? {
      DropKeeps(w);
    } else {
      ScanSnoc(w.h.live, w.h.from, w.h.shots, env);
      LastTelemetrySnoc(w.h.live, env);
    }
  }

  lemma LastTelemetrySnoc(stream: seq<Envelope>, env: Envelope)
    ensures LastTelemetry(stream + [env]) == if env.event.Telemetry? then Some(env) else LastTelemetry(stream)
  {}

  lemma SendTelemetryKeeps(w: World, ready: Option<bool>, battery: Option<Byte>, o: SendOutcome)
    requires StreamInv(w)
    ensures var w1 := SendTelemetry(w, ready, battery, o).0;
            && StreamInv(w1) && w1.h.shots == w.h.shots
            && (ready.Some? ==> w1.d.lastReady == ready)
  {
    hide EndedInv, Scan, LastTelemetry, DropConnection;
    if !Suppressed(w.d, ready, battery) {
      var env := TelemetryNow(w.d, ready, battery);
      var w1 := w.(d := w.d.(lastReady := LatestReady(w.d, ready), telemetry := Some(env)));
      SendCachedKeeps(w1, o);
      SendChangesLittle(w1, env, o);
    }
  }

  lemma SendChangesLittle(w: World, env: Envelope, o: SendOutcome)
    ensures var w1 := SendEnvelope(w, env, o).0;
            w1.d.lastReady == w.d.lastReady && w1.h.shots == w.h.shots
  {}

  /** Sending the cached telemetry between blocks makes the views agree. */
  lemma SendCachedKeeps(w: World, o: SendOutcome)
    requires Droppable(w) && w.d.telemetry.Some? && w.d.telemetry.value.event.Telemetry?
    requires Sound(w) ==> exists r :: Scan(w.h.live, w.h.from, w.h.shots) == At([], |w.h.shots|, r)
    ensures StreamInv(SendEnvelope(w, w.d.telemetry.value, o).0)
  {
    hide Scan, LastTelemetry, EndedInv;
    var env := w.d.telemetry.value;
    if !Sound(w) {
      UnsoundSendKeeps(w, env, o);
    } else if o.Closed? {
      DropKeeps(w);
    } else {
      ScanSnoc(w.h.live, w.h.from, w.h.shots, env);
      LastTelemetrySnoc(w.h.live, env);
    }
  }

  /** Sending the rest of a block. */
  lemma {:induction false} SendEventsKeeps(w: World, todo: seq<FrpEvent>, out: nat -> SendOutcome, i: nat)
    requires MidInv(w, todo, |w.h.shots|) && (!Sound(w) ==> StreamInv(w))
    requires forall k :: 0 <= k < |todo| ==> !todo[k].Telemetry?
    ensures StreamInv(SendEvents(w, todo, out, i).0)
    decreases |todo|
  {
    hide Scan, LastTelemetry, EndedInv, SendEnvelope;
    if !Sound(w) {
      UnsoundEventsKeep(w, todo, out, i);
    } else if todo != [] {
      var env := Envelope(w.d.name, todo[0]);
      SendKeeps(w, todo, |w.h.shots|, env, out(i), todo[1..]);
      var (w1, ok) := SendEnvelope(w, env, out(i));
      if ok {
        SendEventsKeeps(w1, todo[1..], out, i + 1);
      }
    }
  }

  lemma {:induction false} UnsoundEventsKeep(w: World, events: seq<FrpEvent>, out: nat -> SendOutcome, i: nat)
    requires StreamInv(w) && !Sound(w)
    ensures StreamInv(SendEvents(w, events, out, i).0)
    decreases |events|
  {
    hide StreamInv, SendEnvelope, Sound;
    if events != [] && w.d.conn.Some? {
      var env := Envelope(w.d.name, events[0]);
      UnsoundSendKeeps(w, env, out(i));
      var (w1, ok) := SendEnvelope(w, env, out(i));
      if ok {
        UnsoundEventsKeep(w1, events[1..], out, i + 1);
      }
    }
  }

  lemma NumberKeeps(w: World, s: ShotData)
    requires StreamInv(w)
    ensures var w2 := NumberShot(w, s);
            && MidInv(w2, [], |w.h.shots|) && (!Sound(w2) ==> StreamInv(w2)) && w2.h.shots == w.h.shots + [s]
            && w2.d.shotNumber == Number(|w.h.shots|)
  {
    hide Scan, LastTelemetry;
    var h := w.h;
    forall i | 0 <= i < |h.ended| ensures EndedWell(h.ended[i], h.shots + [s]) {
      assert EndedWell(h.ended[i], h.shots);
      if !h.ended[i].broken {
        ScanStable(h.ended[i].stream, h.ended[i].from, h.shots, s);
      }
    }
    if Sound(w) {
      ScanStable(h.live, h.from, h.shots, s);
    }
  }

  function KeyOf(e: FrpEvent): Option<ShotKey> {
    match e
    case Telemetry(_, _, _, _) => None
    case ShotTrigger(key) => Some(key)
    case BallFlight(key, _) => Some(key)
    case ClubPath(key, _) => Some(key)
    case FaceImpact(key, _, _) => Some(key)
    case ShotFinished(key) => Some(key)
  }

  /** A block opens with its trigger and closes with its finish, its other events
      in between: the ball, then the club if there is any club data, then the
      impact if any was measured; all under one key, and none of them telemetry. */
  lemma BlockShape(number: nat, s: ShotData)
    ensures var b := Block(number, s);
            && 3 <= |b| <= 5
            && b[0].ShotTrigger? && b[1] == BallFlight(ShotKey(s.id, number), s.ball) && b[|b| - 1].ShotFinished?
            && (s.club.Some? <==> |b| >= 4) && (s.club.Some? ==> b[2] == ClubPath(ShotKey(s.id, number), s.club.value))
            && (|b| == 5 <==>
                  s.club.Some? && (s.club.value.impactHorizontal.Some? || s.club.value.impactVertical.Some?))
            && (|b| == 5 ==>
                  b[3] == FaceImpact(
                    ShotKey(s.id, number), s.club.value.impactHorizontal, s.club.value.impactVertical))
            && (forall k :: 0 <= k < |b| ==> KeyOf(b[k]) == Some(ShotKey(s.id, number)) && !b[k].Telemetry?)
            && (forall k :: 0 < k < |b| ==> !b[k].ShotTrigger?)
  {}

  lemma HandleShotKeeps(w: World, e: Client.Event, out: nat -> SendOutcome, id: string)
    requires StreamInv(w) && e.ShotEvent?
    ensures StreamInv(HandleEvent(w, e, out, id).0)
  {
    hide StreamInv, MidInv, SendTelemetry, NumberShot, Block, SendEvents;
    SendTelemetryKeeps(w, Some(false), None, out(0));
    var (w1, ok) := SendTelemetry(w, Some(false), None, out(0));
    if ok {
      var s := ShotData(e.ball, e.club, id);
      NumberKeeps(w1, s);
      var w2 := NumberShot(w1, s);
      assert w2.d.lastReady == w1.d.lastReady && w2.d.telemetry == w1.d.telemetry by { NumberFields(w1, s); }
      SendBlockKeeps(w2, s, out);
    } else {
      MissedKeeps(w1);
    }
  }

  lemma MissedKeeps(w: World)
    requires StreamInv(w)
    ensures StreamInv(w.(h := w.h.(numbered := w.h.numbered + [false])))
  {
    hide Scan, LastTelemetry;
  }

  lemma NumberFields(w: World, s: ShotData)
    ensures var w2 := NumberShot(w, s); w2.d.lastReady == w.d.lastReady && w2.d.telemetry == w.d.telemetry
  {}

  /** Sending the block of a shot just numbered. */
  lemma SendBlockKeeps(w: World, s: ShotData, out: nat -> SendOutcome)
    requires w.h.shots != [] && w.h.shots[|w.h.shots| - 1] == s && w.d.lastReady == Some(false)
    requires MidInv(w, [], |w.h.shots| - 1) && (!Sound(w) ==> StreamInv(w))
    requires w.d.shotNumber == Number(|w.h.shots| - 1)
    ensures StreamInv(SendEvents(w, Block(w.d.shotNumber, s), out, 1).0)
  {
    hide Scan, LastTelemetry, EndedInv, Block, SendEnvelope;
    var n := |w.h.shots| - 1;
    var block := Block(w.d.shotNumber, s);
    BlockShape(w.d.shotNumber, s);
    if Sound(w) {
      assert block == BlockOf(w.h.shots, n);
      var env := Envelope(w.d.name, block[0]);
      SendKeeps(w, [], n, env, out(1), block[1..]);
      var (w1, ok) := SendEnvelope(w, env, out(1));
      if ok {
        SendEventsKeeps(w1, block[1..], out, 2);
      }
    } else {
      UnsoundEventsKeep(w, block, out, 1);
    }
  }

  lemma AdoptKeeps(w: World, o: SendOutcome)
    requires StreamInv(w)
    ensures StreamInv(PollConnection(w, o).0)
  {
    hide EndedInv, SendEnvelope;
    if w.d.conn.None? && w.n.incoming != [] {
      var w1 := World(
        w.d.(pending := false, conn := Some(w.n.incoming[0])), w.n.(incoming := w.n.incoming[1..]),
        w.h.(live := [], from := |w.h.shots|, broken := false));
      LaterFrom(w.h);
      assert Scan([], |w.h.shots|, w.h.shots) == At([], |w.h.shots|, None);
      if w.d.telemetry.Some? {
        SendCachedKeeps(w1, o);
      }
    }
  }

  lemma LaterFrom(h: Hist)
    requires EndedInv(h.ended, h.from, h.shots)
    ensures EndedInv(h.ended, |h.shots|, h.shots)
  {}

  lemma StepKeeps(w: World, a: Action)
    requires StreamInv(w) && Enabled(w, a)
    ensures StreamInv(Step(w, a))
  {
    hide Scan, LastTelemetry, EndedInv, SendTelemetry, SendEvents, PollConnection, DropConnection, AcceptorMove, Block;
    match a
    case DoPollConnection(o) => AdoptKeeps(w, o);
    case DoCheckController(r) =>
      if w.d.conn.Some? && r.RecvFailed? { DropKeeps(w); }
    case DoHandleEvent(e, out, id) =>
      match e {
        case StateChanged(state) => SendTelemetryKeeps(w, Some(state.Ready?), None, out(0));
        case Battery(percent, _) => SendTelemetryKeeps(w, None, Some(percent), out(0));
        case ShotEvent(_, _) => HandleShotKeeps(w, e, out, id);
        case _ =>
      }
    case DoSendDeviceInfo(o) => SendTelemetryKeeps(w, None, None, o);
    case _ =>
  }

  lemma {:induction false} RunKeeps(w: World, actions: seq<Action>)
    requires StreamInv(w) && CanRun(w, actions)
    ensures StreamInv(Run(w, actions))
    decreases |actions|
  {
    hide StreamInv, Step;
    if actions != [] {
      StepKeeps(w, actions[0]);
      RunKeeps(Step(w, actions[0]), actions[1..]);
    }
  }

  lemma Reachable(actions: seq<Action>)
    requires CanRun(SPAWNED, actions)
    ensures StreamInv(Run(SPAWNED, actions))
  {
    hide Run, CanRun;
    RunKeeps(SPAWNED, actions);
  }

  // -------------------------------------------------------------- main results

  /** A held controller's last telemetry is the cached envelope, whenever there is
      one, and says READY exactly as last reported; through suppression, drops and
      re-adoption, unless a send on this very connection has failed otherwise than
      by the peer leaving. */
  lemma ControllerView(actions: seq<Action>)
    requires CanRun(SPAWNED, actions)
    ensures var w := Run(SPAWNED, actions);
            && (w.d.conn.Some? && !w.h.broken ==> LastTelemetry(w.h.live) == w.d.telemetry)
            && (w.d.telemetry.Some? ==> ReadyOf(w.d.telemetry) == Some(w.d.lastReady.GetOr(false)))
            && (w.d.lastReady.Some? ==> w.d.telemetry.Some?)
  {
    hide Run, CanRun, Scan, LastTelemetry;
    Reachable(actions);
  }

  /** Why the exception is needed. A failed send leaves the connection up. If it was
      suppressed the controller's view is as right as before; else it is right
      exactly when what was to be sent is what the controller last received. */
  lemma FailedSendBreaksView(w: World, ready: Option<bool>, battery: Option<Byte>)
    requires w.d.conn.Some?
    ensures var w1 := SendTelemetry(w, ready, battery, SendFailed).0;
            && w1.d.conn == w.d.conn
            && (LastTelemetry(w1.h.live) == w1.d.telemetry <==>
                  LastTelemetry(w.h.live)
                  == if battery.None? && ready.Some? && ready == w.d.lastReady then w.d.telemetry
                     else Some(Envelope(w.d.name, Telemetry(
                       w.d.model, w.d.firmware, (if ready.Some? then ready else w.d.lastReady).GetOr(false), battery))))
  {}

  /** A READY value whose send failed is not sent again: repeating it is suppressed. */
  lemma FailedReadyNotRetried(w: World, ready: bool, o: SendOutcome)
    ensures var w1 := SendTelemetry(w, Some(ready), None, SendFailed).0;
            SendTelemetry(w1, Some(ready), None, o) == (w1, true)
  {}

  /** Any telemetry that is sent puts the view right, whatever failed before. */
  lemma SentTelemetryRestoresView(w: World, ready: Option<bool>, battery: Option<Byte>)
    requires w.d.conn.Some? && !Suppressed(w.d, ready, battery)
    ensures var w1 := SendTelemetry(w, ready, battery, Sent).0;
            w1.d.conn == w.d.conn && LastTelemetry(w1.h.live) == w1.d.telemetry
  {}

  function NonTelemetry(stream: seq<Envelope>): seq<FrpEvent> {
    if stream == [] then []
    else
      NonTelemetry(stream[..|stream| - 1])
      + if stream[|stream| - 1].event.Telemetry? then [] else [stream[|stream| - 1].event]
  }

  /** The blocks of shots `from` up to `to`, one after the other. */
  function Blocks(shots: seq<ShotData>, from: nat, to: nat): seq<FrpEvent>
    requires from <= to <= |shots|
  {
    if from == to then [] else Blocks(shots, from, to - 1) + BlockOf(shots, to - 1)
  }

  /** The declarative reading of the grammar: without its telemetry a stream is a
      run of consecutive blocks, the last one perhaps cut short by `todo`. */
  lemma {:induction false} ScanMeaning(stream: seq<Envelope>, from: nat, shots: seq<ShotData>)
    requires Scan(stream, from, shots) != Bad && from <= |shots|
    ensures var p := Scan(stream, from, shots);
            && from <= p.next <= |shots|
            && NonTelemetry(stream) + p.todo == Blocks(shots, from, p.next)
            && (p.todo != [] ==> p.next > from && |p.todo| < |BlockOf(shots, p.next - 1)|)
            && p.ready == ReadyOf(LastTelemetry(stream))
  {
    hide Accept, BlockOf;
    if stream != [] {
      var n := |stream| - 1;
      ScanMeaning(stream[..n], from, shots);
      var q := Scan(stream[..n], from, shots);
      TodoNotTelemetry(stream[..n], from, shots);
      AcceptMeaning(q, stream[n].event, shots, from, NonTelemetry(stream[..n]));
    }
  }

  /** One more event, in terms of the blocks it belongs to. */
  lemma AcceptMeaning(q: Pos, e: FrpEvent, shots: seq<ShotData>, from: nat, sent: seq<FrpEvent>)
    requires q != Bad && Accept(q.todo, q.next, q.ready, e, shots) != Bad && from <= q.next <= |shots|
    requires forall k :: 0 <= k < |q.todo| ==> !q.todo[k].Telemetry?
    requires sent + q.todo == Blocks(shots, from, q.next)
    requires q.todo != [] ==> q.next > from && |q.todo| < |BlockOf(shots, q.next - 1)|
    ensures var p := Accept(q.todo, q.next, q.ready, e, shots);
            && from <= p.next <= |shots|
            && sent + (if e.Telemetry? then [] else [e]) + p.todo == Blocks(shots, from, p.next)
            && (p.todo != [] ==> p.next > from && |p.todo| < |BlockOf(shots, p.next - 1)|)
            && p.ready == if e.Telemetry? then Some(e.ready) else q.ready
  {
    hide Block;
    var p := Accept(q.todo, q.next, q.ready, e, shots);
    if q.todo != [] {
      assert q.todo == [e] + p.todo;
      assert sent + [e] + p.todo == sent + q.todo;
    } else if e.Telemetry? {
      assert sent + [] + p.todo == sent + q.todo;
    } else {
      var block := BlockOf(shots, q.next);
      BlockShape(Number(q.next), shots[q.next]);
      assert block == [e] + p.todo;
      assert sent + [e] + p.todo == sent + q.todo + block;
    }
  }

  lemma {:induction false} TodoNotTelemetry(stream: seq<Envelope>, from: nat, shots: seq<ShotData>)
    requires Scan(stream, from, shots) != Bad
    ensures forall k :: 0 <= k < |Scan(stream, from, shots).todo| ==> !Scan(stream, from, shots).todo[k].Telemetry?
  {
    hide Block;
    if stream != [] {
      var n := |stream| - 1;
      TodoNotTelemetry(stream[..n], from, shots);
      var q := Scan(stream[..n], from, shots);
      if q.todo == [] && q.next < |shots| {
        BlockShape(Number(q.next), shots[q.next]);
      }
    }
  }

  lemma {:induction false} PrefixInGrammar(stream: seq<Envelope>, from: nat, shots: seq<ShotData>, j: nat)
    requires Scan(stream, from, shots) != Bad && j <= |stream|
    ensures Scan(stream[..j], from, shots) != Bad
  {
    hide Accept;
    if j < |stream| {
      PrefixInGrammar(stream[..|stream| - 1], from, shots, j);
      assert stream[..|stream| - 1][..j] == stream[..j];
    } else {
      assert stream[..j] == stream;
    }
  }

  /** Telemetry comes only between complete blocks, and a block begins only when
      the latest telemetry said READY=false. */
  lemma StreamOrder(stream: seq<Envelope>, from: nat, shots: seq<ShotData>, j: nat)
    requires Scan(stream, from, shots) != Bad && from <= |shots| && j < |stream|
    ensures stream[j].event.Telemetry? ==>
              exists to :: from <= to <= |shots| && NonTelemetry(stream[..j]) == Blocks(shots, from, to)
    ensures stream[j].event.ShotTrigger? ==> ReadyOf(LastTelemetry(stream[..j])) == Some(false)
  {
    hide Block, Blocks, NonTelemetry, LastTelemetry;
    PrefixInGrammar(stream, from, shots, j);
    PrefixInGrammar(stream, from, shots, j + 1);
    assert stream[..j + 1] == stream[..j] + [stream[j]];
    ScanSnoc(stream[..j], from, shots, stream[j]);
    ScanMeaning(stream[..j], from, shots);
    TodoNotTelemetry(stream[..j], from, shots);
    TodoNotTrigger(stream[..j], from, shots);
    assert NonTelemetry(stream[..j]) + [] == NonTelemetry(stream[..j]);
  }

  lemma {:induction false} TodoNotTrigger(stream: seq<Envelope>, from: nat, shots: seq<ShotData>)
    requires Scan(stream, from, shots) != Bad
    ensures forall k :: 0 <= k < |Scan(stream, from, shots).todo| ==> !Scan(stream, from, shots).todo[k].ShotTrigger?
  {
    hide Block;
    if stream != [] {
      var n := |stream| - 1;
      TodoNotTrigger(stream[..n], from, shots);
      var q := Scan(stream[..n], from, shots);
      if q.todo == [] && q.next < |shots| {
        BlockShape(Number(q.next), shots[q.next]);
        assert forall k :: 0 <= k < |BlockOf(shots, q.next)| - 1
                 ==> BlockOf(shots, q.next)[1..][k] == BlockOf(shots, q.next)[k + 1];
      }
    }
  }

  lemma SoundStream(w: World)
    requires StreamInv(w)
    ensures w.h.from <= |w.h.shots|
    ensures Sound(w) ==> NonTelemetry(w.h.live) == Blocks(w.h.shots, w.h.from, |w.h.shots|)
  {
    hide Scan, Blocks, NonTelemetry, LastTelemetry;
    if Sound(w) {
      ScanMeaning(w.h.live, w.h.from, w.h.shots);
      assert NonTelemetry(w.h.live) + [] == NonTelemetry(w.h.live);
    }
  }

  /** The held connection carries exactly the complete blocks of the shots
      numbered since it was adopted, unless a send on it has failed otherwise than
      by the peer leaving. */
  lemma HeldStream(actions: seq<Action>)
    requires CanRun(SPAWNED, actions)
    ensures var w := Run(SPAWNED, actions);
            w.d.conn.Some? && !w.h.broken ==>
              && Scan(w.h.live, w.h.from, w.h.shots) == At([], |w.h.shots|, ReadyOf(w.d.telemetry))
              && w.h.from <= |w.h.shots|
              && NonTelemetry(w.h.live) == Blocks(w.h.shots, w.h.from, |w.h.shots|)
  {
    hide Run, CanRun, Scan, Blocks, NonTelemetry, LastTelemetry;
    Reachable(actions);
    SoundStream(Run(SPAWNED, actions));
  }

  /** Every connection that ended carried complete consecutive blocks and at most
      one strict prefix of a block, at the very end, unless a send on it failed
      otherwise than by the peer leaving; no shot is shared between two
      connections, and later connections carry later shots. */
  lemma EndedStreams(actions: seq<Action>, i: nat)
    requires CanRun(SPAWNED, actions) && i < |Run(SPAWNED, actions).h.ended|
    ensures var h := Run(SPAWNED, actions).h; var e := h.ended[i];
            && e.from <= e.upTo <= h.from <= |h.shots|
            && (forall j :: i < j < |h.ended| ==> e.upTo <= h.ended[j].from)
            && (!e.broken ==>
                  && Scan(e.stream, e.from, h.shots) != Bad
                  && var p := Scan(e.stream, e.from, h.shots);
                  && e.from <= p.next <= e.upTo
                  && NonTelemetry(e.stream) + p.todo == Blocks(h.shots, e.from, p.next)
                  && (p.todo != [] ==> p.next > e.from && |p.todo| < |BlockOf(h.shots, p.next - 1)|))
  {
    hide Run, CanRun, Scan, Blocks, NonTelemetry, LastTelemetry, Block;
    Reachable(actions);
    var h := Run(SPAWNED, actions).h;
    assert EndedWell(h.ended[i], h.shots);
    if !h.ended[i].broken {
      ScanMeaning(h.ended[i].stream, h.ended[i].from, h.shots);
    }
  }

  /** Shot numbers strictly increase exactly as long as the 32-bit counter has not
      come round: for fewer than 2^32 shots. */
  lemma NumbersIncrease(n: nat)
    ensures (forall j, k :: 0 <= j < k < n ==> Number(j) < Number(k)) <==> n < WORD32_SIZE
  {
    if n >= WORD32_SIZE {
      assert Number(0) == 1 && Number(WORD32_SIZE - 1) == 0;
    }
  }
}
