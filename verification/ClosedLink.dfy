/** The poll client on a btleplug transport: the end of the link reaches the caller. */
module ClosedLink {
  import opened Common
  import opened Clubs
  import opened Protocol
  import Client
  import ClientRuns
  import LinkLife
  import Watchdog

  datatype Both = Both(client: Client.State, link: LinkLife.Link)

  /** A step of the transport other than a read, or a call into the client. */
  datatype Move = Transports(step: LinkLife.Step) | Calls(action: Client.Action)

  /** A read as the client sees it: zero bytes mean the end of the link. */
  function Seen(r: LinkLife.ReadResult): Client.ReadOutcome {
    match r
    case Data(bytes) => Client.Payload(bytes)
    case Empty => Client.WouldBlock
    case End => Client.Payload([])
  }

  /** What a read would return now. */
  function NextResult(l: LinkLife.Link): LinkLife.ReadResult
    requires l.caller.Ready?
  {
    var results := LinkLife.Next(l, LinkLife.CallRead(Client.BUFFER)).results;
    results[|results| - 1]
  }

  /** A poll that reads finds what the transport returns. */
  ghost predicate Legal(b: Both, m: Move) {
    match m
    case Transports(step) => LinkLife.Enabled(b.link, step) && !step.CallRead?
    case Calls(action) =>
      Watchdog.Reads(b.client, action) ==>
        b.link.caller.Ready? && action.answers.read == Seen(NextResult(b.link))
  }

  function Go(b: Both, m: Move): Both
    requires Legal(b, m)
  {
    match m
    case Transports(step) => b.(link := LinkLife.Next(b.link, step))
    case Calls(action) =>
      Both(Client.Step(b.client, action),
           if Watchdog.Reads(b.client, action) then LinkLife.Next(b.link, LinkLife.CallRead(Client.BUFFER)) else b.link)
  }

  ghost predicate CanGo(b: Both, moves: seq<Move>)
    decreases |moves|
  {
    moves == [] || (Legal(b, moves[0]) && CanGo(Go(b, moves[0]), moves[1..]))
  }

  ghost function GoAll(b: Both, moves: seq<Move>): Both
    requires CanGo(b, moves)
    decreases |moves|
  {
    if moves == [] then b else GoAll(Go(b, moves[0]), moves[1..])
  }

  ghost predicate Inv(b: Both) {
    ClientRuns.Inv(b.client) && LinkLife.Inv(b.link)
  }

  lemma {:induction false} MovesKeep(b: Both, moves: seq<Move>)
    requires Inv(b) && CanGo(b, moves)
    ensures Inv(GoAll(b, moves))
    decreases |moves|
  {
    hide ClientRuns.Inv, LinkLife.Inv, Client.Step, LinkLife.Next, Watchdog.Reads;
    if moves != [] {
      match moves[0] {
        case Transports(step) => LinkLife.StepKeeps(b.link, step);
        case Calls(action) =>
          ClientRuns.StepKeeps(b.client, action);
          if Watchdog.Reads(b.client, action) {
            ReadEnabled(b.link);
            LinkLife.StepKeeps(b.link, LinkLife.CallRead(Client.BUFFER));
          }
      }
      MovesKeep(Go(b, moves[0]), moves[1..]);
    }
  }

  lemma ReadEnabled(l: LinkLife.Link)
    requires l.caller.Ready?
    ensures LinkLife.Enabled(l, LinkLife.CallRead(Client.BUFFER))
  {}

  /** Once a read has reported the end of the link, or the pump has finished and all
      it forwarded is read, every poll of an active client reports the disconnect,
      except one whose heartbeat is due and cannot be written. */
  lemma EndIsReported(fp: Rounding, now1: Client.Time, now2: Client.Time, cal: map<Club, real>, moves: seq<Move>,
                      a: Client.Answers)
    requires CanGo(Both(Client.New(fp, now1, now2, cal), LinkLife.CONNECTED), moves)
    requires var b := GoAll(Both(Client.New(fp, now1, now2, cal), LinkLife.CONNECTED), moves);
             && Legal(b, Calls(Client.DoPoll(a))) && b.client.phase.Active?
             && (LinkLife.End in b.link.results || (b.link.pump.Finished? && b.link.channel == []))
    ensures var b := GoAll(Both(Client.New(fp, now1, now2, cal), LinkLife.CONNECTED), moves);
            Client.Poll(b.client, a).1
            == if a.t1 - b.client.lastHeartbeat >= b.client.interval && !a.beatOk then Client.TransportError
               else Client.Disconnected
  {
    hide CanGo, GoAll, Client.Poll, Client.Step, ClientRuns.LogInv, ClientRuns.StreamInv, ClientRuns.EventInv;
    ClientRuns.Always(fp, now1, now2, cal, []);
    MovesKeep(Both(Client.New(fp, now1, now2, cal), LinkLife.CONNECTED), moves);
    var b := GoAll(Both(Client.New(fp, now1, now2, cal), LinkLife.CONNECTED), moves);
    Client.PollVerdict(b.client, a);
  }
}
