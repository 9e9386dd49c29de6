/**
 Key generation between one client and the server, as a step relation over the two main threads,
 their websocket readers and their senders. Unlike an addition there is no `tss-done` exchange: the
 server sends the metadata as soon as its own side has finished, the client answers it at once, and
 the answer makes the server's sender stop. Faults end a main thread early.
 */
module DkgProtocol {

  // ---- The library: what each side sends and waits for, in order ----

  datatype DkgAct = Send | Recv
  datatype Side = Server | Client
  datatype DkgScripts = DkgScripts(server: seq<DkgAct>, client: seq<DkgAct>) {
    function At(side: Side): seq<DkgAct> {
      if side.Server? then server else client
    }
  }

  datatype DkgPos = DkgPos(server: nat, client: nat) {
    function At(side: Side): nat {
      if side.Server? then server else client
    }

    function Advance(side: Side): DkgPos {
      if side.Server? then this.(server := server + 1) else this.(client := client + 1)
    }
  }

  function Other(side: Side): Side {
    if side.Server? then Client else Server
  }

  function Count(acts: seq<DkgAct>, a: DkgAct): nat {
    if acts == [] then 0 else Count(acts[..|acts| - 1], a) + if acts[|acts| - 1] == a then 1 else 0
  }

  predicate InScripts(sc: DkgScripts, p: DkgPos) {
    p.server <= |sc.server| && p.client <= |sc.client|
  }

  function Produced(sc: DkgScripts, p: DkgPos, side: Side): nat
    requires InScripts(sc, p)
  {
    Count(sc.At(side)[..p.At(side)], Send)
  }

  function Consumed(sc: DkgScripts, p: DkgPos, side: Side): nat
    requires InScripts(sc, p)
  {
    Count(sc.At(side)[..p.At(side)], Recv)
  }

  predicate Finished(sc: DkgScripts, p: DkgPos, side: Side) {
    p.At(side) == |sc.At(side)|
  }

  /** The next act of a side is possible when it has been given `got` messages. */
  predicate ActPossible(sc: DkgScripts, p: DkgPos, side: Side, got: nat)
    requires InScripts(sc, p)
  {
    && p.At(side) < |sc.At(side)|
    && (sc.At(side)[p.At(side)].Recv? ==> got > Consumed(sc, p, side))
  }

  /** Positions the two sides can reach when every message is available once produced. */
  ghost predicate IsPath(sc: DkgScripts, p: DkgPos, path: seq<Side>)
    requires InScripts(sc, p)
    decreases |path|
  {
    path == []
    || (ActPossible(sc, p, path[0], Produced(sc, p, Other(path[0]))) && IsPath(sc, p.Advance(path[0]), path[1..]))
  }

  function EndOf(p: DkgPos, path: seq<Side>): DkgPos
    decreases |path|
  {
    if path == [] then p else EndOf(p.Advance(path[0]), path[1..])
  }

  ghost predicate ReachablePos(sc: DkgScripts, p: DkgPos) {
    exists path :: IsPath(sc, DkgPos(0, 0), path) && EndOf(DkgPos(0, 0), path) == p
  }

  /** The library itself never gets stuck when every message is delivered. */
  ghost predicate NeverStuck(sc: DkgScripts) {
    forall p {:trigger ReachablePos(sc, p)} :: ReachablePos(sc, p) && InScripts(sc, p)
      && !ActPossible(sc, p, Server, Produced(sc, p, Client)) && !ActPossible(sc, p, Client, Produced(sc, p, Server))
      ==> Finished(sc, p, Server) && Finished(sc, p, Client)
  }

  predicate OnlySends(sc: DkgScripts, p: DkgPos, side: Side)
    requires InScripts(sc, p)
  {
    forall i :: p.At(side) <= i < |sc.At(side)| ==> sc.At(side)[i].Send?
  }

  /** The server can finish only when the client needs no further message. */
  ghost predicate ServerFinishesLast(sc: DkgScripts) {
    forall p {:trigger ReachablePos(sc, p)} :: ReachablePos(sc, p) && InScripts(sc, p) && Finished(sc, p, Server) ==>
        OnlySends(sc, p, Client)
  }

  // ---- The two programs ----

  datatype Frame = PeerId | Tss | Metadata | Ack

  /**
   `ServerFailed`: returned early with an error. `ClientFailed`: returned an error that its reader or
   sender had reported. `ClientEmpty`: its library has failed, and it returns no error and no wallet.
   */
  datatype ServerMain = WaitStart | Processing | Storing | WaitAck | ServerReturned | ServerFailed
  datatype ClientMain = Dialling | Running | WaitMetadata | ClientReturned | ClientFailed | ClientEmpty

  /**
   One side's goroutines. `sent`/`got` count TSS messages written by the sender and given to the
   library. `closed` is the `serverDone` channel, `errs` whether the reader or the sender has
   reported an error.
   */
  datatype Program = Program(reader: bool, sender: bool, closed: bool, errs: bool, sent: nat, got: nat)

  /** `handing`: the server's reader has created the service and offers it to the main thread. */
  datatype State = State(lib: DkgPos, toServer: seq<Frame>, toClient: seq<Frame>,
                         serverMain: ServerMain, clientMain: ClientMain, handing: bool, stored: bool,
                         server: Program, client: Program) {
    function At(side: Side): Program {
      if side.Server? then server else client
    }

    function Set(side: Side, p: Program): State {
      if side.Server? then this.(server := p) else this.(client := p)
    }
  }

  const IDLE: Program := Program(true, false, false, false, 0, 0)

  const INIT: State := State(DkgPos(0, 0), [], [], WaitStart, Dialling, false, false, IDLE, IDLE)

  /**
   `ReaderClosed` is a reader finding that the other side has closed the connection, normally or
   abruptly (both sides cancel their context before they close); `WriteFails` is a sender writing to
   a closed connection. `Quit` is a main thread whose library fails, or the server's when it cannot
   store the wallet; `MetadataLost` the server's when the wallet is stored and the metadata cannot be
   written.
   */
  datatype Action =
    | Dial | Handover | Read(side: Side) | ReaderClosed(side: Side, abrupt: bool)
    | SenderWrite(side: Side) | WriteFails(side: Side) | SenderExit(side: Side)
    | LibStep(side: Side) | TssDone(side: Side) | Store | ServerReturn | ClientReturn
    // faults
    | Quit(side: Side) | MetadataLost

  predicate IsFault(a: Action) {
    a.Quit? || a.MetadataLost?
  }

  predicate Gone(s: State, side: Side) {
    if side.Server? then s.serverMain.ServerReturned? || s.serverMain.ServerFailed?
    else s.clientMain.ClientReturned? || s.clientMain.ClientFailed? || s.clientMain.ClientEmpty?
  }

  predicate CanWrite(sc: DkgScripts, s: State, side: Side)
    requires InScripts(sc, s.lib)
  {
    !Gone(s, side) && s.At(side).sender && s.At(side).sent < Produced(sc, s.lib, side)
  }

  /** The side's reader is about to read. */
  predicate Reads(s: State, side: Side) {
    && s.At(side).reader && !Gone(s, side)
    && (if side.Server? then !s.handing else s.clientMain != Dialling)
  }

  function Inbox(s: State, side: Side): seq<Frame> {
    if side.Server? then s.toServer else s.toClient
  }

  predicate Runs(s: State, side: Side) {
    if side.Server? then s.serverMain == Processing else s.clientMain == Running
  }

  predicate Enabled(sc: DkgScripts, s: State, a: Action) {
    InScripts(sc, s.lib) &&
    match a
    case Dial => s.clientMain == Dialling
    case Handover => s.handing && s.serverMain == WaitStart
    case Read(side) => Reads(s, side) && Inbox(s, side) != []
    case ReaderClosed(side, _) => Reads(s, side) && Inbox(s, side) == [] && Gone(s, Other(side))
    case SenderWrite(side) => CanWrite(sc, s, side)
    case WriteFails(side) => CanWrite(sc, s, side) && Gone(s, Other(side))
    case SenderExit(side) => s.At(side).sender && s.At(side).closed
    case LibStep(side) => Runs(s, side) && ActPossible(sc, s.lib, side, s.At(side).got)
    case TssDone(side) => Runs(s, side) && Finished(sc, s.lib, side)
    case Store => s.serverMain == Storing
    case ServerReturn => s.serverMain == WaitAck && s.server.closed
    case ClientReturn => s.clientMain == WaitMetadata && s.client.closed
    case Quit(side) => Runs(s, side) || (side.Server? && s.serverMain == Storing)
    case MetadataLost => s.serverMain == Storing
  }

  /** What the server's reader does with a frame it has taken. */
  function ServerGets(s: State, f: Frame): State {
    match f
    case PeerId => s.(handing := true)
    case Tss => s.(server := s.server.(got := s.server.got + 1))
    case Ack => s.(server := s.server.(closed := true))
    case Metadata => s
  }

  /** The client answers the metadata whether or not its own side has finished. */
  function ClientGets(s: State, f: Frame): State {
    match f
    case Tss => s.(client := s.client.(got := s.client.got + 1))
    case Metadata => s.(client := s.client.(closed := true), toServer := s.toServer + [Ack])
    case PeerId => s
    case Ack => s
  }

  function Write(s: State, side: Side, f: Frame): State {
    if side.Server? then s.(toClient := s.toClient + [f]) else s.(toServer := s.toServer + [f])
  }

  /** The main thread looks for errors once its library has finished. */
  function Looks(s: State, side: Side): State {
    if side.Server? then s.(serverMain := if s.server.errs then ServerFailed else Storing)
    else s.(clientMain := if s.client.errs then ClientFailed else WaitMetadata)
  }

  function Step(sc: DkgScripts, s: State, a: Action): State
    requires Enabled(sc, s, a)
  {
    match a
    case Dial => Write(s.(clientMain := Running, client := s.client.(sender := true)), Client, PeerId)
    case Handover => s.(handing := false, serverMain := Processing, server := s.server.(sender := true))
    case Read(Server) => ServerGets(s.(toServer := s.toServer[1..]), s.toServer[0])
    case Read(Client) => ClientGets(s.(toClient := s.toClient[1..]), s.toClient[0])
    case ReaderClosed(side, abrupt) => s.Set(side, s.At(side).(reader := false, errs := s.At(side).errs || abrupt))
    case SenderWrite(side) => Write(s.Set(side, s.At(side).(sent := s.At(side).sent + 1)), side, Tss)
    case WriteFails(side) => s.Set(side, s.At(side).(sender := false, errs := true))
    case SenderExit(side) => s.Set(side, s.At(side).(sender := false))
    case LibStep(side) => s.(lib := s.lib.Advance(side))
    case TssDone(side) => Looks(s, side)
    case Store => Write(s.(serverMain := WaitAck, stored := true), Server, Metadata)
    case ServerReturn => s.(serverMain := ServerReturned)
    case ClientReturn => s.(clientMain := ClientReturned)
    case Quit(Server) => s.(serverMain := ServerFailed)
    case Quit(Client) => s.(clientMain := ClientEmpty)
    case MetadataLost => s.(serverMain := ServerFailed, stored := true)
  }

  ghost predicate IsRun(sc: DkgScripts, s: State, run: seq<Action>)
    decreases |run|
  {
    run == [] || (Enabled(sc, s, run[0]) && IsRun(sc, Step(sc, s, run[0]), run[1..]))
  }

  function After(sc: DkgScripts, s: State, run: seq<Action>): State
    requires IsRun(sc, s, run)
    decreases |run|
  {
    if run == [] then s else After(sc, Step(sc, s, run[0]), run[1..])
  }

  /** Both sides are back; the client may have returned an error. */
  predicate BothReturned(s: State) {
    s.serverMain == ServerReturned && Gone(s, Client)
  }

  predicate FaultFree(run: seq<Action>) {
    forall a :: a in run ==> !IsFault(a)
  }

  /** Nothing but a fault can happen. */
  ghost predicate Stuck(sc: DkgScripts, s: State) {
    forall a :: Enabled(sc, s, a) ==> IsFault(a)
  }
}
