/** The FRP device adapter and its acceptor thread (src/frp/mod.rs). */
module Frp {
  import opened Common
  import opened Protocol
  import Client
  import Clubs

  // ------------------------------------------------------------------ messages

  datatype ShotKey = ShotKey(id: string, number: nat)

  /** What is sent to a controller. Metrics are carried as the client reports
      them; their unit conversion (src/frp/convert.rs) is a pure function. */
  datatype FrpEvent =
    | Telemetry(model: Option<string>, firmware: Option<string>, ready: bool, battery: Option<Byte>)
    | ShotTrigger(key: ShotKey)
    | BallFlight(key: ShotKey, ball: BallMetrics)
    | ClubPath(key: ShotKey, club: ClubMetrics)
    | FaceImpact(key: ShotKey, horizontal: Option<F64>, vertical: Option<F64>)
    | ShotFinished(key: ShotKey)

  datatype Envelope = Envelope(device: string, event: FrpEvent)

  /** The clubs an FRP controller can name that this device has codes for, and the others. */
  datatype FrpClub = Known(club: Clubs.Club) | OtherClub(name: string)

  datatype ControllerCommand = ControllerCommand(
    mode: Option<string>, handed: Option<Clubs.Handed>, club: Option<FrpClub>)

  datatype FrpMessage = SetDetectionMode(command: ControllerCommand) | OtherMessage

  datatype SendOutcome = Sent | Closed | SendFailed
  datatype RecvOutcome = Message(msg: FrpMessage) | NoMessage | RecvFailed

  // --------------------------------------------------------------------- state

  /** The adapter's own fields. */
  datatype Device = Device(
    conn: Option<nat>, pending: bool, telemetry: Option<Envelope>, name: string,
    firmware: Option<string>, model: Option<string>, shotNumber: Word32, lastReady: Option<bool>)

  /** The acceptor thread: waiting for a request, establishing a connection,
      handing one over, or gone. */
  datatype Acceptor = Waiting | Establishing | Forwarding(conn: nat) | Exited

  /** The two channels, the thread between them, and how many connections it made. */
  datatype Net = Net(requests: nat, incoming: seq<nat>, acceptor: Acceptor, established: nat, deviceGone: bool)

  datatype ShotData = ShotData(ball: BallMetrics, club: Option<ClubMetrics>, id: string)

  /** A connection that is over: what it carried, the shots numbered while it was
      held, as a range of `Hist.shots`, and whether a send on it failed other than
      by the peer going away. */
  datatype Ended = Ended(conn: nat, stream: seq<Envelope>, from: nat, upTo: nat, broken: bool)

  /** What has happened: the envelopes delivered on the held connection, the shots
      numbered before it, whether a send on it has failed other than by the peer
      going away; the connections that ended; every shot numbered; and for every
      shot handled whether it was numbered, which it is unless the telemetry ahead
      of it failed so. */
  datatype Hist = Hist(
    live: seq<Envelope>, from: nat, broken: bool, ended: seq<Ended>, shots: seq<ShotData>, numbered: seq<bool>)

  datatype World = World(d: Device, n: Net, h: Hist)

  // -------------------------------------------------------------- the acceptor

  datatype AcceptorStep = TakeRequest | EstablishFails | EstablishSucceeds | Forward

  predicate AcceptorEnabled(n: Net, step: AcceptorStep) {
    match step
    case TakeRequest => n.acceptor.Waiting? && (n.requests > 0 || n.deviceGone)
    case EstablishFails => n.acceptor.Establishing?
    case EstablishSucceeds => n.acceptor.Establishing?
    case Forward => n.acceptor.Forwarding?
  }

  /** One step of the acceptor thread; it stops once the device is gone. */
  function AcceptorMove(n: Net, step: AcceptorStep): Net
    requires AcceptorEnabled(n, step)
  {
    match step
    case TakeRequest =>
      if n.requests > 0 then n.(requests := n.requests - 1, acceptor := Establishing) else n.(acceptor := Exited)
    case EstablishFails => n
    case EstablishSucceeds => n.(acceptor := Forwarding(n.established), established := n.established + 1)
    case Forward =>
      if n.deviceGone then n.(acceptor := Exited)
      else n.(incoming := n.incoming + [n.acceptor.conn], acceptor := Waiting)
  }

  // ---------------------------------------------------------------- the device

  /** Asking for a connection fails only when the acceptor thread has ended. */
  function RequestConnection(w: World): World {
    if !w.d.pending && !w.n.acceptor.Exited? then
      w.(d := w.d.(pending := true), n := w.n.(requests := w.n.requests + 1))
    else w
  }

  function DropConnection(w: World): World {
    RequestConnection(
      if w.d.conn.Some? then
        w.(d := w.d.(conn := None),
           h := w.h.(live := [], from := |w.h.shots|, broken := false,
                     ended := w.h.ended + [Ended(w.d.conn.value, w.h.live, w.h.from, |w.h.shots|, w.h.broken)]))
      else w)
  }

  /** A send; `false` when it fails for a reason other than the peer going away. */
  function SendEnvelope(w: World, env: Envelope, o: SendOutcome): (World, bool) {
    if w.d.conn.None? then (w, true)
    else
      match o
      case Sent => (w.(h := w.h.(live := w.h.live + [env])), true)
      case Closed => (DropConnection(w), true)
      case SendFailed => (w.(h := w.h.(broken := true)), false)
  }

  /** `Some(adopted)`, or `None` when re-sending the telemetry failed. */
  function PollConnection(w: World, o: SendOutcome): (World, Option<bool>) {
    if w.d.conn.Some? || w.n.incoming == [] then (w, Some(false))
    else
      var w1 := World(
        w.d.(pending := false, conn := Some(w.n.incoming[0])),
        w.n.(incoming := w.n.incoming[1..]),
        w.h.(live := [], from := |w.h.shots|, broken := false));
      if w.d.telemetry.None? then (w1, Some(true))
      else
        var (w2, ok) := SendEnvelope(w1, w.d.telemetry.value, o);
        (w2, if ok then Some(true) else None)
  }

  function CommandIn(msg: FrpMessage): Option<ControllerCommand> {
    match msg case SetDetectionMode(c) => Some(c) case OtherMessage => None
  }

  function CheckController(w: World, r: RecvOutcome): (World, Option<ControllerCommand>) {
    if w.d.conn.None? then (w, None)
    else
      match r
      case Message(msg) => (w, CommandIn(msg))
      case RecvFailed => (DropConnection(w), None)
      case NoMessage => (w, None)
  }

  function Suppressed(d: Device, ready: Option<bool>, battery: Option<Byte>): bool {
    battery.None? && ready.Some? && ready == d.lastReady
  }

  /** The last READY value reported, `ready` being the newest if there is one. */
  function LatestReady(d: Device, ready: Option<bool>): Option<bool> {
    if ready.Some? then ready else d.lastReady
  }

  function TelemetryNow(d: Device, ready: Option<bool>, battery: Option<Byte>): Envelope {
    Envelope(d.name, Telemetry(d.model, d.firmware, LatestReady(d, ready).GetOr(false), battery))
  }

  function SendTelemetry(w: World, ready: Option<bool>, battery: Option<Byte>, o: SendOutcome): (World, bool) {
    if Suppressed(w.d, ready, battery) then (w, true)
    else
      var env := TelemetryNow(w.d, ready, battery);
      SendEnvelope(w.(d := w.d.(lastReady := LatestReady(w.d, ready), telemetry := Some(env))), env, o)
  }

  /** The events of one shot, in order. */
  function Block(number: nat, s: ShotData): seq<FrpEvent> {
    var key := ShotKey(s.id, number);
    [ShotTrigger(key), BallFlight(key, s.ball)]
    + (match s.club
       case None => []
       case Some(c) =>
         [ClubPath(key, c)]
         + if c.impactHorizontal.Some? || c.impactVertical.Some?
           then [FaceImpact(key, c.impactHorizontal, c.impactVertical)] else [])
    + [ShotFinished(key)]
  }

  /** Sends events until the connection is gone or a send fails. */
  function SendEvents(w: World, events: seq<FrpEvent>, out: nat -> SendOutcome, i: nat): (World, bool)
    decreases |events|
  {
    if events == [] || w.d.conn.None? then (w, true)
    else
      var (w1, ok) := SendEnvelope(w, Envelope(w.d.name, events[0]), out(i));
      if ok then SendEvents(w1, events[1..], out, i + 1) else (w1, false)
  }

  /** The shot counter is 32 bits wide. */
  function NumberShot(w: World, s: ShotData): World {
    w.(d := w.d.(shotNumber := (w.d.shotNumber + 1) % WORD32_SIZE),
       h := w.h.(shots := w.h.shots + [s], numbered := w.h.numbered + [true]))
  }

  /** `out(i)` is the outcome of the call's `i`-th send, `id` a fresh identifier. */
  function HandleEvent(w: World, e: Client.Event, out: nat -> SendOutcome, id: string): (World, bool) {
    match e
    case StateChanged(state) => SendTelemetry(w, Some(state == Ready), None, out(0))
    case Battery(percent, _) => SendTelemetry(w, None, Some(percent), out(0))
    case ShotEvent(ball, club) =>
      var (w1, ok) := SendTelemetry(w, Some(false), None, out(0));
      if !ok then (w1.(h := w1.h.(numbered := w1.h.numbered + [false])), false)
      else
        var s := ShotData(ball, club, id);
        var w2 := NumberShot(w1, s);
        SendEvents(w2, Block(w2.d.shotNumber, s), out, 1)
    case _ => (w, true)
  }

  /** A new device has asked for its first connection. */
  const SPAWNED: World := World(
    Device(None, true, None, "", None, None, 0, None),
    Net(1, [], Waiting, 0, false),
    Hist([], 0, false, [], [], []))

  // -------------------------------------------------------------- interleavings

  /** Either thread's next step, with the world's answers. */
  datatype Action =
    | AcceptorActs(step: AcceptorStep)
    | DoPollConnection(o: SendOutcome)
    | DoCheckController(r: RecvOutcome)
    | DoHandleEvent(event: Client.Event, out: nat -> SendOutcome, id: string)
    | DoSendDeviceInfo(o: SendOutcome)
    | DoSetName(name: string)
    | DoSetFirmware(fw: string)
    | DoSetModel(model: string)
    | DoDropDevice

  ghost predicate Enabled(w: World, a: Action) {
    match a
    case AcceptorActs(step) => AcceptorEnabled(w.n, step)
    case _ => !w.n.deviceGone
  }

  function SetModelStep(w: World, model: string): World {
    if model == "" then w else w.(d := w.d.(model := Some(model)))
  }

  ghost function Step(w: World, a: Action): World
    requires Enabled(w, a)
  {
    match a
    case AcceptorActs(step) => w.(n := AcceptorMove(w.n, step))
    case DoPollConnection(o) => PollConnection(w, o).0
    case DoCheckController(r) => CheckController(w, r).0
    case DoHandleEvent(e, out, id) => HandleEvent(w, e, out, id).0
    case DoSendDeviceInfo(o) => SendTelemetry(w, None, None, o).0
    case DoSetName(name) => w.(d := w.d.(name := name))
    case DoSetFirmware(fw) => w.(d := w.d.(firmware := Some(fw)))
    case DoSetModel(model) => SetModelStep(w, model)
    case DoDropDevice => w.(n := w.n.(deviceGone := true))
  }

  /** The steps can be taken one after the other from `w`. */
  ghost predicate CanRun(w: World, actions: seq<Action>)
    decreases |actions|
  {
    actions == [] || (Enabled(w, actions[0]) && CanRun(Step(w, actions[0]), actions[1..]))
  }

  ghost function Run(w: World, actions: seq<Action>): World
    requires CanRun(w, actions)
    decreases |actions|
  {
    if actions == [] then w else Run(Step(w, actions[0]), actions[1..])
  }

  // ------------------------------------------------------------------ the class

  class FrpDevice {
    var conn: Option<nat>
    var pending: bool
    var telemetry: Option<Envelope>
    var device: string
    var firmware: Option<string>
    var model: Option<string>
    var shotNumber: Word32
    var lastReady: Option<bool>
    var net: Net
    ghost var hist: Hist

    ghost function View(): World
      reads this
    {
      World(Device(conn, pending, telemetry, device, firmware, model, shotNumber, lastReady), net, hist)
    }

    constructor Spawn()
      ensures View() == SPAWNED
    {
      conn, pending, telemetry, device, firmware, model := None, false, None, "", None, None;
      shotNumber, lastReady := 0, None;
      net := Net(0, [], Waiting, 0, false);
      hist := Hist([], 0, false, [], [], []);
      new;
      Request();
    }

    method Request()
      modifies this`pending, this`net
      ensures View() == RequestConnection(old(View()))
    {
      if !pending && net.acceptor != Exited {
        net := net.(requests := net.requests + 1);
        pending := true;
      }
    }

    method DropConn()
      modifies this
      ensures View() == DropConnection(old(View()))
    {
      if conn.Some? {
        hist := hist.(live := [], from := |hist.shots|, broken := false,
                      ended := hist.ended + [Ended(conn.value, hist.live, hist.from, |hist.shots|, hist.broken)]);
        conn := None;
      }
      Request();
    }

    method SendOne(env: Envelope, o: SendOutcome) returns (ok: bool)
      modifies this
      ensures (View(), ok) == SendEnvelope(old(View()), env, o)
    {
      if conn.None? { return true; }
      match o {
        case Sent =>
          hist := hist.(live := hist.live + [env]);
          ok := true;
        case Closed =>
          DropConn();
          ok := true;
        case SendFailed =>
          hist := hist.(broken := true);
          ok := false;
      }
    }

    method AdoptConnection(o: SendOutcome) returns (r: Option<bool>)
      modifies this
      ensures (View(), r) == PollConnection(old(View()), o)
    {
      if conn.Some? || net.incoming == [] { return Some(false); }
      pending := false;
      conn := Some(net.incoming[0]);
      net := net.(incoming := net.incoming[1..]);
      hist := hist.(live := [], from := |hist.shots|, broken := false);
      if telemetry.Some? {
        var ok := SendOne(telemetry.value, o);
        if !ok { return None; }
      }
      return Some(true);
    }

    method PollController(o: RecvOutcome) returns (r: Option<ControllerCommand>)
      modifies this
      ensures (View(), r) == CheckController(old(View()), o)
    {
      r := None;
      if conn.Some? {
        match o {
          case Message(msg) => r := CommandIn(msg);
          case RecvFailed => DropConn();
          case NoMessage =>
        }
      }
    }

    method EmitTelemetry(ready: Option<bool>, battery: Option<Byte>, o: SendOutcome) returns (ok: bool)
      modifies this
      ensures (View(), ok) == SendTelemetry(old(View()), ready, battery, o)
    {
      if battery.None? && ready.Some? && ready == lastReady { return true; }
      if ready.Some? {
        lastReady := ready;
      }
      var env := Envelope(device, Telemetry(model, firmware, lastReady.GetOr(false), battery));
      telemetry := Some(env);
      ok := SendOne(env, o);
    }

    /** Stops early when the connection is dropped or a send fails. */
    method EmitEvents(events: seq<FrpEvent>, out: nat -> SendOutcome, first: nat) returns (ok: bool)
      modifies this
      ensures (View(), ok) == SendEvents(old(View()), events, out, first)
    {
      assert events[0..] == events;
      for i := 0 to |events|
        invariant SendEvents(View(), events[i..], out, first + i) == SendEvents(old(View()), events, out, first)
      {
        if conn.None? { return true; }
        assert events[i..][1..] == events[i + 1..];
        ok := SendOne(Envelope(device, events[i]), out(first + i));
        if !ok { return false; }
      }
      return true;
    }

    /** Turns one client event into envelopes. */
    method OnEvent(e: Client.Event, out: nat -> SendOutcome, id: string) returns (ok: bool)
      modifies this
      ensures (View(), ok) == HandleEvent(old(View()), e, out, id)
    {
      hide SendTelemetry, SendEvents;
      match e {
        case StateChanged(state) => ok := EmitTelemetry(Some(state == Ready), None, out(0));
        case Battery(percent, _) => ok := EmitTelemetry(None, Some(percent), out(0));
        case ShotEvent(ball, club) =>
          ok := EmitTelemetry(Some(false), None, out(0));
          if !ok {
            hist := hist.(numbered := hist.numbered + [false]);
            return;
          }
          shotNumber := if shotNumber == WORD32_SIZE - 1 then 0 else shotNumber + 1;
          hist := hist.(shots := hist.shots + [ShotData(ball, club, id)], numbered := hist.numbered + [true]);
          var key := ShotKey(id, shotNumber);
          var events := [ShotTrigger(key), BallFlight(key, ball)];
          if club.Some? {
            events := events + [ClubPath(key, club.value)];
            if club.value.impactHorizontal.Some? || club.value.impactVertical.Some? {
              events := events + [FaceImpact(key, club.value.impactHorizontal, club.value.impactVertical)];
            }
          }
          events := events + [ShotFinished(key)];
          assert events == Block(shotNumber, ShotData(ball, club, id));
          ok := EmitEvents(events, out, 1);
        case _ => ok := true;
      }
    }

    method SetName(name: string)
      modifies this`device
      ensures View() == old(View()).(d := old(View()).d.(name := name))
    {
      device := name;
    }

    method SetFirmware(fw: string)
      modifies this`firmware
      ensures View() == old(View()).(d := old(View()).d.(firmware := Some(fw)))
    {
      firmware := Some(fw);
    }

    method SetModel(m: string)
      modifies this`model
      ensures View() == SetModelStep(old(View()), m)
    {
      if m != "" {
        model := Some(m);
      }
    }
  }
}
