/**
 The add-device protocol as a state machine (server/tss_add.go, client/tss_add.go, utils/ws/ws.go).

 Four processes take part: the new device (RegisterDevice), its handler on the server
 (RegisterDeviceHandler), the existing device (AcceptDevice) and its handler (AcceptDeviceHandler).
 Each has a main thread, a reader and a TSS sender. The two handlers share eight channels of
 capacity one and one adder, whose outgoing queue feeds both websockets.

 A state records the program counter of every thread, the captured variables, the channels and
 the network. An `Action` is one thread moving to its next blocking point, the library taking one
 step, or a fault. Faults freeze a thread for good, make the library of one party fail, or end a main
 thread early where the code can return early. When a main thread returns, at its end or early, its
 reader and sender stop and the other side may find the connection closed; that is not a fault.
 */
module AddDevice {
  import opened Identities
  import opened Queues
  import opened StarRouting
  import opened TssLibrary
  import Wallets
  import opened Wrappers

  /** A wallet as the server keeps it. */
  type Record = Wallets.DkgResult

  /** What the new device is told of it. */
  datatype PublicWallet = PublicWallet(publicKey: Wallets.PubkeyStr, bks: map<string, Wallets.BK>)

  function Public(w: Record): PublicWallet {
    PublicWallet(w.pubkey, w.bks)
  }

  /** Control messages of utils/ws/ws.go; TSS messages are `TssFrame`s. */
  datatype Ctrl =
    | PeerIdBroadcast(id: string)
    | DeviceName(device: string)
    | Pubkey(wallet: PublicWallet)
    | Metadata(md: string)
    | MetadataAck
    | TssDone
    | EverythingStored
    | ExistingDeviceDone
    | NewDeviceDone
    | ErrorMessage

  /** The stage attached to each message type; TSS messages have stage 40. */
  function Stage(f: Frame<Ctrl>): nat {
    match f
    case TssFrame(_) => 40
    case Control(PeerIdBroadcast(_)) => 10
    case Control(DeviceName(_)) => 20
    case Control(Pubkey(_)) => 20
    case Control(Metadata(_)) => 20
    case Control(MetadataAck) => 30
    case Control(TssDone) => 50
    case Control(EverythingStored) => 70
    case Control(ExistingDeviceDone) => 80
    case Control(NewDeviceDone) => 80
    case Control(ErrorMessage) => 0
  }

  /** A Go channel of capacity one; `log` remembers everything ever sent on it. */
  datatype Chan<T> = Chan(buf: seq<T>, log: seq<T>) {
    predicate Ready() { buf == [] }
    predicate Full() { buf != [] }
    function Put(v: T): Chan<T> { Chan(buf + [v], log + [v]) }
    function Take(): Chan<T>
      requires Full()
    {
      this.(buf := buf[1..])
    }
  }

  /** The server's adder: the two peer ids it was built with and the wallet it works on. */
  datatype Adder = Adder(newId: string, oldId: string, wallet: Record)

  /** A device's adder: the id of the other device, and the key text, share text and parameters it is built from. */
  datatype DeviceAdder =
    DeviceAdder(otherId: string, publicKey: Wallets.PubkeyStr, share: string, bks: map<string, Wallets.BK>)

  /** What AddPeer writes to the database. */
  datatype Commit = Commit(peerID: string, metadata: string, agent: string, wallet: Record)

  /**
   Inputs of one run. `local` is the wallet AcceptDevice was called with. `retrieve` is the vault read: the
   wallet stored under some metadata, if it opens and a service starts from it. `merged` is the wallet
   extended by a new peer.
   */
  datatype Params = Params(
    ids: Ids, device: string, metadata: string, agent: string, local: Record,
    retrieve: string -> Option<Record>, merged: (Record, string) -> Record, scripts: Scripts)

  // ---- Program counters ----

  /** `Failed`: returned an error that the reader or the sender had reported. */
  datatype DeviceMain = Connecting | AwaitStart | Processing | ReportTssDone | AwaitDone | Returned | Failed

  datatype DeviceReader = Reading | Signalling

  datatype SenderPc = NotStarted | Sending | Exited

  datatype RegisterMain =
    RAwaitStart | RAwaitTss | RAwaitOldTss | RWriteMetadata | RAwaitOldDone | RWriteDone | RReturned

  datatype RegisterReader =
    | RReading | RPutNewId | RTakeOldId | RPutAgent | RTakeMetadata | RPutAdder | RSignalling | RSetStage | RPutNewDone
    | RGaveUp

  datatype AcceptMain =
    | AAwaitStart | AProcessing | ATakeAgent | ACommitting
    | AAwaitTss | AAwaitNewDone | AWriteNewDone | AAwaitDone | AReturned

  datatype AcceptReader =
    | AReading | APutOldId | ATakeNewId | APutMetadata | ATakeAdder
    | ASignalling | ASetStage | APutTssDone | APutOldDone

  /**
   RegisterDevice and AcceptDevice. `got` counts the control frames read so far (history); `errs` says
   whether an error was reported to the main thread.
   */
  datatype Device = Device(
    main: DeviceMain, reader: DeviceReader, sender: SenderPc, got: nat,
    stage: nat, otherId: string, adder: Option<DeviceAdder>, metadata: string, serverDone: bool, errs: bool)

  /** `device` is what RegisterDeviceHandler keeps in the cache. */
  datatype Register = Register(
    main: RegisterMain, reader: RegisterReader, sender: SenderPc, got: nat, stage: nat,
    newId: string, oldId: string, device: string, metadata: string, adder: Option<Adder>, serverDone: bool)

  datatype Accept = Accept(
    main: AcceptMain, reader: AcceptReader, sender: SenderPc, got: nat, stage: nat,
    newId: string, oldId: string, metadata: string, agent: string, adder: Option<Adder>, serverDone: bool)

  datatype Channels = Channels(
    newId: Chan<string>, oldId: Chan<string>, agent: Chan<string>, metadata: Chan<string>,
    adder: Chan<Adder>, oldTssDone: Chan<()>, newDone: Chan<()>, oldDone: Chan<()>)

  datatype Thread =
    | NewMain | NewReader | NewSender | OldMain | OldReader | OldSender
    | RegMain | RegReader | RegSender | AccMain | AccReader | AccSender

  /** `dead` holds the threads that have stopped, `quit` the main threads among them that have returned early. */
  datatype State = State(
    n: Device, e: Device, r: Register, a: Accept, ch: Channels, net: Net<Ctrl>,
    pos: Pos, committed: seq<Commit>,
    dead: set<Thread>, quit: set<Thread>, failed: set<Party>, panicked: bool)

  function Init(): State {
    var device := Device(Connecting, Reading, NotStarted, 0, 0, "", None, "", false, false);
    State(device, device,
          Register(RAwaitStart, RReading, NotStarted, 0, 0, "", "", "", "", None, false),
          Accept(AAwaitStart, AReading, NotStarted, 0, 0, "", "", "", "", None, false),
          Channels(Chan([], []), Chan([], []), Chan([], []), Chan([], []),
                   Chan([], []), Chan([], []), Chan([], []), Chan([], [])),
          EmptyNet(), Pos(0, 0, 0), [], {}, {}, {}, false)
  }

  // ---- The library inside the protocol ----

  /** Process() has been called for this party. */
  predicate Started(s: State, p: Party) {
    match p
    case NewDevice => s.n.main != Connecting && s.n.main != AwaitStart
    case OldDevice => s.e.main != Connecting && s.e.main != AwaitStart
    case Server => s.a.main != AAwaitStart
  }

  /** The library's done channel is closed with a result. */
  predicate LibDone(k: Params, s: State, p: Party) {
    p !in s.failed && Finished(k.scripts, s.pos, p)
  }

  /** The done channel is closed, with a result or after a failure. */
  predicate LibClosed(k: Params, s: State, p: Party) {
    Started(s, p) && (p in s.failed || Finished(k.scripts, s.pos, p))
  }

  /** The id under which the library of `p` knows party `q`: the one its adder was built with. */
  function TargetId(s: State, p: Party, q: Party): string {
    match (p, q)
    case (_, Server) => SERVER_ID
    case (Server, NewDevice) => if s.a.adder.Some? then s.a.adder.value.newId else ""
    case (Server, OldDevice) => if s.a.adder.Some? then s.a.adder.value.oldId else ""
    case (NewDevice, _) => if s.n.adder.Some? then s.n.adder.value.otherId else ""
    case (OldDevice, _) => if s.e.adder.Some? then s.e.adder.value.otherId else ""
  }

  /** Messages from `f` handed to the library of `t` so far. */
  function Arrived(k: Params, s: State, f: Party, t: Party): nat {
    |Pick(s.net.handled, f, k.ids.Of(t))|
  }

  // ---- Actions ----

  /**
   RegisterDevice and AcceptDevice; `DWriteTssDone` is AcceptDevice's only. `DClosed` is the reader
   finding that the handler has closed the connection, normally or abruptly (the handler cancels its
   context before it closes); `DSendFails` is the sender writing to a closed connection.
   */
  datatype DeviceAct =
    | DConnect | DRead | DStart | DTssDone | DWriteTssDone | DReturn | DSend | DExit
    | DClosed(abrupt: bool) | DSendFails

  /** RegisterDeviceHandler. */
  datatype RegisterAct =
    | RRead | RDoPutNewId | RDoTakeOldId | RDoPutAgent | RDoTakeMetadata | RDoPutAdder
    | RStart | RDoSetStage | RDoPutNewDone
    | RTssDone | RTakeOldTss | RDoWriteMetadata | RTakeOldDone | RDoWriteDone | RSend | RExit

  /** AcceptDeviceHandler. */
  datatype AcceptAct =
    | ARead | ADoPutOldId | ADoTakeNewId | ADoPutMetadata | ADoTakeAdder
    | AStart | ADoSetStage | ADoPutTssDone | ADoPutOldDone
    | AProcessed | ADoTakeAgent | ACommit | ATssDone | ATakeNewDone | ADoWriteNewDone | AReturn | ASend | AExit

  datatype Action =
    | Dev(p: Party, d: DeviceAct)
    | Reg(r: RegisterAct)
    | Acc(a: AcceptAct)
    | LibStep(p: Party, content: nat)
    | Cancel(thread: Thread) // the main thread has returned: its reader or sender stops
    // faults
    | Kill(thread: Thread)
    | Quit(thread: Thread) // a main thread returns early and closes its connection
    | LibFail(p: Party)

  predicate IsFault(act: Action) {
    act.Kill? || act.Quit? || act.LibFail?
  }

  function DeviceOf(s: State, p: Party): Device {
    if p == NewDevice then s.n else s.e
  }

  function SetDevice(s: State, p: Party, d: Device): State {
    if p == NewDevice then s.(n := d) else s.(e := d)
  }

  function MainOf(p: Party): Thread {
    match p case NewDevice => NewMain case OldDevice => OldMain case Server => AccMain
  }

  function ReaderOf(p: Party): Thread {
    match p case NewDevice => NewReader case OldDevice => OldReader case Server => AccReader
  }

  function SenderOf(p: Party): Thread {
    match p case NewDevice => NewSender case OldDevice => OldSender case Server => AccSender
  }

  predicate DeviceReturned(d: Device) {
    d.main == Returned || d.main == Failed
  }

  /** The handler at the other end of a device's connection has returned and closed it. */
  predicate HandlerReturned(s: State, p: Party) {
    if p == NewDevice then s.r.main == RReturned || RegMain in s.quit
    else s.a.main == AReturned || AccMain in s.quit
  }

  /** The main thread of the process this reader or sender belongs to has returned. */
  predicate MainReturned(s: State, t: Thread) {
    match t
    case NewReader => DeviceReturned(s.n) || NewMain in s.quit
    case NewSender => DeviceReturned(s.n) || NewMain in s.quit
    case OldReader => DeviceReturned(s.e) || OldMain in s.quit
    case OldSender => DeviceReturned(s.e) || OldMain in s.quit
    case RegReader => HandlerReturned(s, NewDevice)
    case RegSender => HandlerReturned(s, NewDevice)
    case AccReader => HandlerReturned(s, OldDevice)
    case AccSender => HandlerReturned(s, OldDevice)
    case _ => false
  }

  /**
   Where a main thread can return before its end: after its own library has failed; with an error of
   a write, of the merge or of the database; or with an error reported by its reader or sender (a
   device then ends as `Failed`). Waiting for a channel or for `serverDone` it cannot.
   */
  predicate CanQuit(k: Params, s: State, t: Thread) {
    match t
    case NewMain => s.n.main == Connecting || (s.n.main == Processing && NewDevice in s.failed)
    case OldMain =>
      s.e.main == Connecting || s.e.main == ReportTssDone || (s.e.main == Processing && OldDevice in s.failed)
    case RegMain =>
      (s.r.main == RAwaitTss && LibClosed(k, s, Server)) || s.r.main == RWriteMetadata || s.r.main == RWriteDone
    case AccMain =>
      || ((s.a.main == AProcessing || s.a.main == AAwaitTss) && LibClosed(k, s, Server))
      || s.a.main == ACommitting || s.a.main == AWriteNewDone
    case _ => false
  }

  predicate Alive(s: State, t: Thread) {
    t !in s.dead && !s.panicked
  }

  // ---- When an action can happen ----

  predicate DeviceEnabled(k: Params, s: State, p: Party, act: DeviceAct) {
    var d := DeviceOf(s, p);
    p != Server &&
    match act
    case DConnect => Alive(s, MainOf(p)) && d.main == Connecting
    case DRead => Alive(s, ReaderOf(p)) && d.main != Connecting && d.reader == Reading && s.net.Down(p) != []
    case DStart => Alive(s, MainOf(p)) && Alive(s, ReaderOf(p)) && d.main == AwaitStart && d.reader == Signalling
    case DTssDone => Alive(s, MainOf(p)) && d.main == Processing && LibDone(k, s, p)
    case DWriteTssDone => p == OldDevice && Alive(s, OldMain) && d.main == ReportTssDone
    case DReturn => Alive(s, MainOf(p)) && d.main == AwaitDone && d.serverDone
    case DSend => Alive(s, SenderOf(p)) && d.sender == Sending && s.net.Queue(p) != []
    case DExit => Alive(s, SenderOf(p)) && d.sender == Sending && d.serverDone
    case DClosed(_) =>
      && Alive(s, ReaderOf(p)) && d.main != Connecting && d.reader == Reading
      && s.net.Down(p) == [] && HandlerReturned(s, p) && !DeviceReturned(d)
    case DSendFails =>
      Alive(s, SenderOf(p)) && d.sender == Sending && s.net.Queue(p) != [] && HandlerReturned(s, p)
  }

  predicate RegisterEnabled(k: Params, s: State, act: RegisterAct) {
    match act
    case RRead => Alive(s, RegReader) && s.r.reader == RReading && s.net.newUp != []
    case RDoPutNewId => Alive(s, RegReader) && s.r.reader == RPutNewId && s.ch.newId.Ready()
    case RDoTakeOldId => Alive(s, RegReader) && s.r.reader == RTakeOldId && s.ch.oldId.Full()
    case RDoPutAgent => Alive(s, RegReader) && s.r.reader == RPutAgent && s.ch.agent.Ready()
    case RDoTakeMetadata => Alive(s, RegReader) && s.r.reader == RTakeMetadata && s.ch.metadata.Full()
    case RDoPutAdder => Alive(s, RegReader) && s.r.reader == RPutAdder && s.ch.adder.Ready()
    case RStart => Alive(s, RegReader) && Alive(s, RegMain) && s.r.reader == RSignalling && s.r.main == RAwaitStart
    case RDoSetStage => Alive(s, RegReader) && s.r.reader == RSetStage
    case RDoPutNewDone => Alive(s, RegReader) && s.r.reader == RPutNewDone && s.ch.newDone.Ready()
    case RTssDone => Alive(s, RegMain) && s.r.main == RAwaitTss && LibClosed(k, s, Server)
    case RTakeOldTss => Alive(s, RegMain) && s.r.main == RAwaitOldTss && s.ch.oldTssDone.Full()
    case RDoWriteMetadata => Alive(s, RegMain) && s.r.main == RWriteMetadata
    case RTakeOldDone => Alive(s, RegMain) && s.r.main == RAwaitOldDone && s.ch.oldDone.Full()
    case RDoWriteDone => Alive(s, RegMain) && s.r.main == RWriteDone
    case RSend =>
      Alive(s, RegSender) && s.r.sender == Sending && !HandlerReturned(s, NewDevice) && For(s.net.srvQ, s.r.newId) != []
    case RExit => Alive(s, RegSender) && s.r.sender == Sending && s.r.serverDone
  }

  predicate AcceptEnabled(k: Params, s: State, act: AcceptAct) {
    match act
    case ARead => Alive(s, AccReader) && s.a.reader == AReading && s.net.oldUp != []
    case ADoPutOldId => Alive(s, AccReader) && s.a.reader == APutOldId && s.ch.oldId.Ready()
    case ADoTakeNewId => Alive(s, AccReader) && s.a.reader == ATakeNewId && s.ch.newId.Full()
    case ADoPutMetadata => Alive(s, AccReader) && s.a.reader == APutMetadata && s.ch.metadata.Ready()
    case ADoTakeAdder => Alive(s, AccReader) && s.a.reader == ATakeAdder && s.ch.adder.Full()
    case AStart => Alive(s, AccReader) && Alive(s, AccMain) && s.a.reader == ASignalling && s.a.main == AAwaitStart
    case ADoSetStage => Alive(s, AccReader) && s.a.reader == ASetStage
    case ADoPutTssDone => Alive(s, AccReader) && s.a.reader == APutTssDone && s.ch.oldTssDone.Ready()
    case ADoPutOldDone => Alive(s, AccReader) && s.a.reader == APutOldDone && s.ch.oldDone.Ready()
    case AProcessed => Alive(s, AccMain) && s.a.main == AProcessing && LibDone(k, s, Server)
    case ADoTakeAgent => Alive(s, AccMain) && s.a.main == ATakeAgent && s.ch.agent.Full()
    case ACommit => Alive(s, AccMain) && s.a.main == ACommitting
    case ATssDone => Alive(s, AccMain) && s.a.main == AAwaitTss && LibClosed(k, s, Server)
    case ATakeNewDone => Alive(s, AccMain) && s.a.main == AAwaitNewDone && s.ch.newDone.Full()
    case ADoWriteNewDone => Alive(s, AccMain) && s.a.main == AWriteNewDone
    case AReturn => Alive(s, AccMain) && s.a.main == AAwaitDone && s.a.serverDone
    case ASend =>
      Alive(s, AccSender) && s.a.sender == Sending && !HandlerReturned(s, OldDevice) && For(s.net.srvQ, s.a.oldId) != []
    case AExit => Alive(s, AccSender) && s.a.sender == Sending && s.a.serverDone
  }

  predicate LibEnabled(k: Params, s: State, p: Party) {
    && !s.panicked && p !in s.failed && Started(s, p)
    && InScripts(k.scripts, s.pos) && s.pos.At(p) < |k.scripts.At(p)|
    && (k.scripts.At(p)[s.pos.At(p)].Recv? ==>
          var f := k.scripts.At(p)[s.pos.At(p)].from;
          Arrived(k, s, f, p) > Consumed(k.scripts, s.pos, f, p))
  }

  predicate Enabled(k: Params, s: State, act: Action) {
    match act
    case Dev(p, d) => DeviceEnabled(k, s, p, d)
    case Reg(r) => RegisterEnabled(k, s, r)
    case Acc(a) => AcceptEnabled(k, s, a)
    case LibStep(p, _) => LibEnabled(k, s, p)
    case Cancel(t) => Alive(s, t) && MainReturned(s, t)
    case Kill(t) => t !in s.dead
    case Quit(t) => Alive(s, t) && CanQuit(k, s, t)
    case LibFail(p) => p !in s.failed && Started(s, p) && !Finished(k.scripts, s.pos, p)
  }

  // ---- Readers: one frame ----

  /** Closing a closed channel panics; so does using an adder that does not exist. */
  function Panic(s: State): State { s.(panicked := true) }

  function Close(s: State, alreadyClosed: bool, closed: State): State {
    if alreadyClosed then Panic(s) else closed
  }

  /** The reader of RegisterDevice on one frame already taken off the websocket. */
  function NewDeviceOnFrame(k: Params, s: State, f: Frame<Ctrl>): State {
    var d := s.n.(got := if f.Control? then s.n.got + 1 else s.n.got);
    match f
    case Control(PeerIdBroadcast(id)) =>
      if s.n.stage > Stage(f) then s.(n := d)
      else s.(n := d.(otherId := id), net := s.net.WriteUp(NewDevice, DeviceName(k.device)))
    case Control(Pubkey(w)) =>
      s.(n := d.(adder := Some(DeviceAdder(s.n.otherId, w.publicKey, "", w.bks)), reader := Signalling))
    case TssFrame(m) =>
      if s.n.stage > Stage(f) then s
      else if s.n.adder.None? then Panic(s)
      else s.(net := s.net.Handle(NewDevice, k.ids.newId, m))
    case Control(Metadata(md)) =>
      s.(n := d.(metadata := md), net := s.net.WriteUp(NewDevice, EverythingStored))
    case Control(ExistingDeviceDone) =>
      if s.n.stage > Stage(f) then s.(n := d)
      else Close(s, s.n.serverDone, s.(n := d.(serverDone := true)))
    case _ => s.(n := d, net := s.net.WriteUp(NewDevice, ErrorMessage))
  }

  /** The reader of AcceptDevice. */
  function OldDeviceOnFrame(k: Params, s: State, f: Frame<Ctrl>): State {
    var d := s.e.(got := if f.Control? then s.e.got + 1 else s.e.got);
    match f
    case Control(PeerIdBroadcast(id)) =>
      if s.e.stage > Stage(f) then s.(e := d)
      else s.(e := d.(otherId := id), net := s.net.WriteUp(OldDevice, Metadata(k.metadata)))
    case Control(MetadataAck) =>
      var adder := DeviceAdder(s.e.otherId, k.local.pubkey, k.local.share, k.local.bks);
      s.(e := d.(adder := Some(adder), reader := Signalling))
    case TssFrame(m) =>
      if s.e.stage > Stage(f) then s
      else if s.e.adder.None? then Panic(s)
      else s.(net := s.net.Handle(OldDevice, k.ids.oldId, m))
    case Control(NewDeviceDone) =>
      if s.e.stage > Stage(f) then s.(e := d)
      else
        Close(s, s.e.serverDone,
              s.(e := d.(serverDone := true), net := s.net.WriteUp(OldDevice, ExistingDeviceDone)))
    case _ => s.(e := d, net := s.net.WriteUp(OldDevice, ErrorMessage))
  }

  /** The reader of RegisterDeviceHandler. */
  function RegisterOnFrame(k: Params, s: State, f: Frame<Ctrl>): State {
    var d := s.r.(got := if f.Control? then s.r.got + 1 else s.r.got);
    match f
    case Control(PeerIdBroadcast(id)) =>
      if s.r.stage > Stage(f) then s.(r := d) else s.(r := d.(newId := id, reader := RPutNewId))
    case Control(DeviceName(device)) =>
      if s.r.stage > Stage(f) then s.(r := d) else s.(r := d.(device := device, reader := RTakeMetadata))
    case TssFrame(m) =>
      if s.r.stage > Stage(f) then s
      else if s.r.adder.None? then Panic(s)
      else s.(net := s.net.Handle(Server, SERVER_ID, m))
    case Control(EverythingStored) => s.(r := d.(reader := RPutNewDone))
    case _ => s.(r := d, net := s.net.WriteDown(NewDevice, ErrorMessage))
  }

  /** The reader of AcceptDeviceHandler. */
  function AcceptOnFrame(k: Params, s: State, f: Frame<Ctrl>): State {
    var d := s.a.(got := if f.Control? then s.a.got + 1 else s.a.got);
    match f
    case Control(PeerIdBroadcast(id)) =>
      if s.a.stage > Stage(f) then s.(a := d) else s.(a := d.(oldId := id, reader := APutOldId))
    case Control(Metadata(md)) =>
      if s.a.stage > Stage(f) then s.(a := d) else s.(a := d.(metadata := md, reader := APutMetadata))
    case TssFrame(m) =>
      if s.a.stage > Stage(f) then s
      else if s.a.adder.None? then Panic(s)
      else s.(net := s.net.Handle(Server, SERVER_ID, m))
    case Control(TssDone) =>
      if s.a.stage > Stage(f) then s.(a := d) else s.(a := d.(reader := APutTssDone))
    case Control(ExistingDeviceDone) =>
      if s.a.stage > Stage(f) then s.(a := d) else s.(a := d.(reader := APutOldDone))
    case _ => s.(a := d, net := s.net.WriteDown(OldDevice, ErrorMessage))
  }

  // ---- Steps ----

  function RegisterStep(k: Params, s: State, act: RegisterAct): State
    requires RegisterEnabled(k, s, act)
  {
    match act
    case RRead => RegisterOnFrame(k, s.(net := s.net.PopUp(NewDevice)), s.net.newUp[0])
    case RDoPutNewId => s.(r := s.r.(reader := RTakeOldId), ch := s.ch.(newId := s.ch.newId.Put(s.r.newId)))
    case RDoTakeOldId =>
      s.(r := s.r.(reader := RPutAgent, oldId := s.ch.oldId.buf[0]), ch := s.ch.(oldId := s.ch.oldId.Take()))
    case RDoPutAgent =>
      s.(r := s.r.(reader := RReading), ch := s.ch.(agent := s.ch.agent.Put(k.agent)),
         net := s.net.WriteDown(NewDevice, PeerIdBroadcast(s.r.oldId)))
    case RDoTakeMetadata =>
      // the wallet is read with the metadata just received; without it the reader returns
      var md := s.ch.metadata.buf[0];
      var s' := s.(ch := s.ch.(metadata := s.ch.metadata.Take()));
      if k.retrieve(md).None? then s'.(r := s.r.(reader := RGaveUp, metadata := md))
      else
        s'.(r := s.r.(reader := RPutAdder, metadata := md,
                      adder := Some(Adder(s.r.newId, s.r.oldId, k.retrieve(md).value))))
    case RDoPutAdder =>
      if s.r.adder.None? then Panic(s)
      else
        s.(r := s.r.(reader := RSignalling), ch := s.ch.(adder := s.ch.adder.Put(s.r.adder.value)),
           net := s.net.WriteDown(NewDevice, Pubkey(Public(s.r.adder.value.wallet))))
    case RStart => s.(r := s.r.(reader := RSetStage, main := RAwaitTss, sender := Sending))
    case RDoSetStage => s.(r := s.r.(reader := RReading, stage := 30))
    case RDoPutNewDone => s.(r := s.r.(reader := RReading), ch := s.ch.(newDone := s.ch.newDone.Put(())))
    case RTssDone => s.(r := s.r.(main := RAwaitOldTss, stage := 40))
    case RTakeOldTss => s.(r := s.r.(main := RWriteMetadata), ch := s.ch.(oldTssDone := s.ch.oldTssDone.Take()))
    case RDoWriteMetadata =>
      s.(r := s.r.(main := RAwaitOldDone), net := s.net.WriteDown(NewDevice, Metadata(s.r.metadata)))
    case RTakeOldDone => s.(r := s.r.(main := RWriteDone), ch := s.ch.(oldDone := s.ch.oldDone.Take()))
    case RDoWriteDone =>
      Close(s, s.r.serverDone,
            s.(r := s.r.(main := RReturned, serverDone := true),
               net := s.net.WriteDown(NewDevice, ExistingDeviceDone)))
    case RSend => s.(net := s.net.Forward(NewDevice, s.r.newId))
    case RExit => s.(r := s.r.(sender := Exited))
  }

  function AcceptStep(k: Params, s: State, act: AcceptAct): State
    requires AcceptEnabled(k, s, act)
  {
    match act
    case ARead => AcceptOnFrame(k, s.(net := s.net.PopUp(OldDevice)), s.net.oldUp[0])
    case ADoPutOldId => s.(a := s.a.(reader := ATakeNewId), ch := s.ch.(oldId := s.ch.oldId.Put(s.a.oldId)))
    case ADoTakeNewId =>
      s.(a := s.a.(reader := AReading, newId := s.ch.newId.buf[0]), ch := s.ch.(newId := s.ch.newId.Take()),
         net := s.net.WriteDown(OldDevice, PeerIdBroadcast(s.ch.newId.buf[0])))
    case ADoPutMetadata =>
      s.(a := s.a.(reader := ATakeAdder), ch := s.ch.(metadata := s.ch.metadata.Put(s.a.metadata)))
    case ADoTakeAdder =>
      s.(a := s.a.(reader := ASignalling, adder := Some(s.ch.adder.buf[0])),
         ch := s.ch.(adder := s.ch.adder.Take()), net := s.net.WriteDown(OldDevice, MetadataAck))
    case AStart => s.(a := s.a.(reader := ASetStage, main := AProcessing, sender := Sending))
    case ADoSetStage => s.(a := s.a.(reader := AReading, stage := 30))
    case ADoPutTssDone => s.(a := s.a.(reader := AReading), ch := s.ch.(oldTssDone := s.ch.oldTssDone.Put(())))
    case ADoPutOldDone =>
      Close(s, s.a.serverDone,
            s.(a := s.a.(reader := AReading, serverDone := true), ch := s.ch.(oldDone := s.ch.oldDone.Put(()))))
    case AProcessed => s.(a := s.a.(main := ATakeAgent))
    case ADoTakeAgent =>
      s.(a := s.a.(main := ACommitting, agent := s.ch.agent.buf[0]), ch := s.ch.(agent := s.ch.agent.Take()))
    case ACommit =>
      if s.a.adder.None? then Panic(s)
      else
        s.(a := s.a.(main := AAwaitTss),
           committed := s.committed
                        + [Commit(s.a.newId, s.a.metadata, s.a.agent, k.merged(s.a.adder.value.wallet, s.a.newId))])
    case ATssDone => s.(a := s.a.(main := AAwaitNewDone, stage := 40))
    case ATakeNewDone => s.(a := s.a.(main := AWriteNewDone), ch := s.ch.(newDone := s.ch.newDone.Take()))
    case ADoWriteNewDone => s.(a := s.a.(main := AAwaitDone), net := s.net.WriteDown(OldDevice, NewDeviceDone))
    case AReturn => s.(a := s.a.(main := AReturned))
    case ASend => s.(net := s.net.Forward(OldDevice, s.a.oldId))
    case AExit => s.(a := s.a.(sender := Exited))
  }

  function DeviceStep(k: Params, s: State, p: Party, act: DeviceAct): State
    requires DeviceEnabled(k, s, p, act)
  {
    var d := DeviceOf(s, p);
    match act
    case DConnect => SetDevice(s, p, d.(main := AwaitStart)).(net := s.net.WriteUp(p, PeerIdBroadcast(k.ids.Of(p))))
    case DRead =>
      var s' := s.(net := s.net.PopDown(p));
      if p == NewDevice then NewDeviceOnFrame(k, s', s.net.newDown[0]) else OldDeviceOnFrame(k, s', s.net.oldDown[0])
    case DStart => SetDevice(s, p, d.(main := Processing, reader := Reading, sender := Sending))
    case DTssDone =>
      if d.errs then SetDevice(s, p, d.(main := Failed))
      else SetDevice(s, p, d.(main := if p == NewDevice then AwaitDone else ReportTssDone, stage := 40))
    case DWriteTssDone => s.(e := s.e.(main := AwaitDone), net := s.net.WriteUp(OldDevice, TssDone))
    case DReturn => SetDevice(s, p, d.(main := Returned))
    case DSend => s.(net := s.net.Flush(p))
    case DExit => SetDevice(s, p, d.(sender := Exited))
    case DClosed(abrupt) => SetDevice(s, p, d.(errs := d.errs || abrupt)).(dead := s.dead + {ReaderOf(p)})
    case DSendFails => SetDevice(s, p, d.(errs := true)).(net := s.net.Flush(p), dead := s.dead + {SenderOf(p)})
  }

  function LibraryStep(k: Params, s: State, p: Party, content: nat): State
    requires LibEnabled(k, s, p)
  {
    match k.scripts.At(p)[s.pos.At(p)]
    case Send(q) => s.(pos := s.pos.Advance(p), net := s.net.Send(p, TargetId(s, p, q), content))
    case Recv(f) => s.(pos := s.pos.Advance(p))
  }

  function Step(k: Params, s: State, act: Action): State
    requires Enabled(k, s, act)
  {
    match act
    case Dev(p, d) => DeviceStep(k, s, p, d)
    case Reg(r) => RegisterStep(k, s, r)
    case Acc(a) => AcceptStep(k, s, a)
    case LibStep(p, content) => LibraryStep(k, s, p, content)
    case Cancel(t) => s.(dead := s.dead + {t})
    case Kill(t) => s.(dead := s.dead + {t})
    case Quit(t) => s.(dead := s.dead + {t}, quit := s.quit + {t})
    case LibFail(p) => s.(failed := s.failed + {p})
  }

  /** A run: every action is enabled where it happens. */
  predicate IsRun(k: Params, acts: seq<Action>)
    decreases |acts|, 0
  {
    acts == []
    || (IsRun(k, acts[..|acts| - 1])
        && Enabled(k, After(k, acts[..|acts| - 1]), acts[|acts| - 1]))
  }

  function After(k: Params, acts: seq<Action>): State
    requires IsRun(k, acts)
    decreases |acts|, 1
  {
    if acts == [] then Init()
    else Step(k, After(k, acts[..|acts| - 1]), acts[|acts| - 1])
  }

  predicate FaultFree(acts: seq<Action>) {
    forall act :: act in acts ==> !IsFault(act)
  }

  /** All four processes are back; RegisterDevice may have returned an error. */
  predicate AllReturned(s: State) {
    DeviceReturned(s.n) && s.e.main == Returned && s.r.main == RReturned && s.a.main == AReturned
  }

  /** What the theorems assume of a run's inputs. */
  ghost predicate ValidParams(k: Params) {
    k.ids.Distinct() && Contract(k.scripts)
  }

  /** The metadata AcceptDevice was called with opens the user's record. */
  predicate Readable(k: Params) {
    k.retrieve(k.metadata).Some?
  }
}
