/** When the server finishes last, key generation always ends with both sides returned. */
module DkgProgress {
  import opened DkgProtocol

  // ---- Counting ----

  function CountFrames(q: seq<Frame>, f: Frame): nat {
    if q == [] then 0 else (if q[0] == f then 1 else 0) + CountFrames(q[1..], f)
  }

  lemma {:induction false} CountAppend(q: seq<Frame>, g: Frame, f: Frame)
    ensures CountFrames(q + [g], f) == CountFrames(q, f) + if g == f then 1 else 0
  {
    if q == [] {
      assert [g][1..] == [];
    } else {
      CountAppend(q[1..], g, f);
      assert (q + [g])[1..] == q[1..] + [g];
    }
  }

  lemma CountNext(acts: seq<DkgAct>, i: nat, a: DkgAct)
    requires i < |acts|
    ensures Count(acts[..i + 1], a) == Count(acts[..i], a) + if acts[i] == a then 1 else 0
  {
    assert acts[..i + 1][..i] == acts[..i];
  }

  // ---- Paths of the library ----

  lemma {:induction false} PathStep(sc: DkgScripts, p: DkgPos, path: seq<Side>, side: Side)
    requires InScripts(sc, p) && IsPath(sc, p, path)
    ensures InScripts(sc, EndOf(p, path))
    ensures ActPossible(sc, EndOf(p, path), side, Produced(sc, EndOf(p, path), Other(side))) ==>
              IsPath(sc, p, path + [side]) && EndOf(p, path + [side]) == EndOf(p, path).Advance(side)
    decreases |path|
  {
    if path == [] {
      assert [side][1..] == [];
    } else {
      PathStep(sc, p.Advance(path[0]), path[1..], side);
      assert (path + [side])[1..] == path[1..] + [side];
    }
  }

  lemma ReachableStep(sc: DkgScripts, p: DkgPos, side: Side)
    requires ReachablePos(sc, p)
    ensures InScripts(sc, p)
    ensures ActPossible(sc, p, side, Produced(sc, p, Other(side))) ==> ReachablePos(sc, p.Advance(side))
  {
    var path :| IsPath(sc, DkgPos(0, 0), path) && EndOf(DkgPos(0, 0), path) == p;
    PathStep(sc, DkgPos(0, 0), path, side);
  }

  lemma StartReachable(sc: DkgScripts)
    ensures ReachablePos(sc, DkgPos(0, 0))
  {
    assert IsPath(sc, DkgPos(0, 0), []) && EndOf(DkgPos(0, 0), []) == DkgPos(0, 0);
  }

  // ---- Invariant ----

  /** Every TSS message is queued, on the wire, or with the other library; nothing is consumed before. */
  ghost predicate CountsInv(sc: DkgScripts, s: State) {
    && InScripts(sc, s.lib)
    && ReachablePos(sc, s.lib)
    && s.server.sent <= Produced(sc, s.lib, Server) && s.client.sent <= Produced(sc, s.lib, Client)
    && s.client.got + CountFrames(s.toClient, Tss) == s.server.sent
    && s.server.got + CountFrames(s.toServer, Tss) == s.client.sent
  }

  /** Where the control frames are, in terms of the main threads. */
  predicate ControlInv(sc: DkgScripts, s: State) {
    && CountFrames(s.toServer, PeerId)
        == (if s.serverMain == WaitStart && !s.handing && s.clientMain != Dialling then 1 else 0)
    && (s.handing ==> s.serverMain == WaitStart)
    && (s.serverMain != WaitStart || s.handing ==> s.clientMain != Dialling)
    && (s.clientMain == Dialling ==> s.toServer == [] && !s.client.sender)
    && (Announced(s) ==> s.stored) && (s.stored ==> Announced(s) || s.serverMain.ServerFailed?)
    && (s.client.closed ==> Announced(s)) && (s.server.closed ==> s.client.closed)
    && (s.serverMain.ServerReturned? ==> s.server.closed)
    && CountFrames(s.toClient, Metadata) == (if Announced(s) && !s.client.closed then 1 else 0)
    && CountFrames(s.toServer, Ack) == (if s.client.closed && !s.server.closed then 1 else 0)
    && (s.clientMain.ClientReturned? ==> s.client.closed)
    && (s.serverMain.Storing? || s.stored ==> Finished(sc, s.lib, Server))
    && (s.clientMain.WaitMetadata? || s.clientMain.ClientReturned? || s.clientMain.ClientFailed? ==>
          Finished(sc, s.lib, Client))
    && (s.serverMain.Processing? && !Gone(s, Client) ==> s.server.sender)
    && (!s.clientMain.Dialling? && !s.client.closed && !Gone(s, Server) ==> s.client.sender)
  }

  /** The server has written the metadata. */
  predicate Announced(s: State) {
    s.serverMain.WaitAck? || s.serverMain.ServerReturned?
  }

  /** A connection is found closed only after the other side has returned. */
  predicate ClosedInv(s: State) {
    && (s.clientMain.ClientFailed? ==> s.client.errs)
    && (s.client.errs || !s.client.reader ==> Gone(s, Server))
    && (s.server.errs || !s.server.reader ==> Gone(s, Client))
  }

  /** Without faults nobody returns before the wallet is stored and announced. */
  predicate Calm(s: State) {
    && !s.serverMain.ServerFailed? && !s.clientMain.ClientEmpty?
    && (Gone(s, Client) ==> s.client.closed)
    && (!s.server.reader ==> s.server.closed)
  }

  ghost predicate Inv(sc: DkgScripts, s: State) {
    CountsInv(sc, s) && ControlInv(sc, s) && ClosedInv(s)
  }

  lemma InitInv(sc: DkgScripts)
    ensures Inv(sc, INIT)
  {
    StartReachable(sc);
  }

  lemma LibStepKeepsCounts(sc: DkgScripts, s: State, side: Side)
    requires CountsInv(sc, s) && Enabled(sc, s, LibStep(side))
    ensures CountsInv(sc, Step(sc, s, LibStep(side)))
  {
    hide Count, CountFrames, ReachablePos;
    CountNext(sc.At(side), s.lib.At(side), Send);
    ReachableStep(sc, s.lib, side);
  }

  lemma WriteKeepsCounts(sc: DkgScripts, s: State, a: Action)
    requires CountsInv(sc, s) && Enabled(sc, s, a) && (a.Dial? || a.SenderWrite? || a.Store?)
    ensures CountsInv(sc, Step(sc, s, a))
  {
    hide Produced, ReachablePos, CountFrames;
    CountAppend(s.toServer, PeerId, Tss);
    CountAppend(s.toServer, Tss, Tss);
    CountAppend(s.toClient, Tss, Tss);
    CountAppend(s.toClient, Metadata, Tss);
  }

  lemma CountHead(q: seq<Frame>, f: Frame)
    requires q != []
    ensures CountFrames(q, f) == (if q[0] == f then 1 else 0) + CountFrames(q[1..], f)
  {
  }

  lemma ServerReadKeepsCounts(sc: DkgScripts, s: State)
    requires CountsInv(sc, s) && Enabled(sc, s, Read(Server))
    ensures CountsInv(sc, Step(sc, s, Read(Server)))
  {
    hide Produced, ReachablePos, CountFrames;
    CountHead(s.toServer, Tss);
  }

  lemma ClientReadKeepsCounts(sc: DkgScripts, s: State)
    requires CountsInv(sc, s) && Enabled(sc, s, Read(Client))
    ensures CountsInv(sc, Step(sc, s, Read(Client)))
  {
    hide Produced, ReachablePos, CountFrames;
    CountHead(s.toClient, Tss);
    CountAppend(s.toServer, Ack, Tss);
  }

  lemma StepKeepsCounts(sc: DkgScripts, s: State, a: Action)
    requires CountsInv(sc, s) && Enabled(sc, s, a)
    ensures CountsInv(sc, Step(sc, s, a))
  {
    hide Count, ReachablePos, CountFrames;
    match a
    case LibStep(side) => LibStepKeepsCounts(sc, s, side);
    case Dial => WriteKeepsCounts(sc, s, a);
    case SenderWrite(_) => WriteKeepsCounts(sc, s, a);
    case Store => WriteKeepsCounts(sc, s, a);
    case Quit(_) =>
    case MetadataLost =>
    case Read(Server) => ServerReadKeepsCounts(sc, s);
    case Read(Client) => ClientReadKeepsCounts(sc, s);
    case _ =>
  }

  lemma WriteKeepsControl(sc: DkgScripts, s: State, a: Action)
    requires ControlInv(sc, s) && Enabled(sc, s, a) && (a.Dial? || a.SenderWrite? || a.Store?)
    ensures ControlInv(sc, Step(sc, s, a))
  {
    hide Count, CountFrames;
    CountAppend(s.toServer, PeerId, PeerId);
    CountAppend(s.toServer, PeerId, Ack);
    CountAppend(s.toServer, Tss, PeerId);
    CountAppend(s.toServer, Tss, Ack);
    CountAppend(s.toClient, Tss, Metadata);
    CountAppend(s.toClient, Metadata, Metadata);
  }

  lemma ServerReadKeepsControl(sc: DkgScripts, s: State)
    requires ControlInv(sc, s) && Enabled(sc, s, Read(Server))
    ensures ControlInv(sc, Step(sc, s, Read(Server)))
  {
    hide CountFrames;
    CountHead(s.toServer, PeerId);
    CountHead(s.toServer, Ack);
  }

  lemma ClientReadKeepsControl(sc: DkgScripts, s: State)
    requires ControlInv(sc, s) && Enabled(sc, s, Read(Client))
    ensures ControlInv(sc, Step(sc, s, Read(Client)))
  {
    hide CountFrames;
    CountHead(s.toClient, Metadata);
    CountAppend(s.toServer, Ack, PeerId);
    CountAppend(s.toServer, Ack, Ack);
  }

  lemma StepKeepsControl(sc: DkgScripts, s: State, a: Action)
    requires ControlInv(sc, s) && ClosedInv(s) && Enabled(sc, s, a)
    ensures ControlInv(sc, Step(sc, s, a))
  {
    hide Count, CountFrames, Produced;
    match a
    case Dial => WriteKeepsControl(sc, s, a);
    case SenderWrite(_) => WriteKeepsControl(sc, s, a);
    case Store => WriteKeepsControl(sc, s, a);
    case Read(Server) => ServerReadKeepsControl(sc, s);
    case Read(Client) => ClientReadKeepsControl(sc, s);
    case _ =>
  }

  lemma StepKeepsClosed(sc: DkgScripts, s: State, a: Action)
    requires ControlInv(sc, s) && ClosedInv(s) && Enabled(sc, s, a)
    ensures ClosedInv(Step(sc, s, a))
  {
    hide Count, Produced, ActPossible;
  }

  lemma StepKeepsInv(sc: DkgScripts, s: State, a: Action)
    requires Inv(sc, s) && Enabled(sc, s, a)
    ensures Inv(sc, Step(sc, s, a))
  {
    hide CountsInv, ControlInv, ClosedInv, Enabled, Step;
    StepKeepsCounts(sc, s, a);
    StepKeepsControl(sc, s, a);
    StepKeepsClosed(sc, s, a);
  }

  lemma {:induction false} RunKeepsInv(sc: DkgScripts, s: State, run: seq<Action>)
    requires Inv(sc, s) && IsRun(sc, s, run)
    ensures Inv(sc, After(sc, s, run))
    decreases |run|
  {
    hide Inv, Enabled, Step;
    if run != [] {
      StepKeepsInv(sc, s, run[0]);
      RunKeepsInv(sc, Step(sc, s, run[0]), run[1..]);
    }
  }

  lemma StepKeepsCalm(sc: DkgScripts, s: State, a: Action)
    requires ControlInv(sc, s) && ClosedInv(s) && Calm(s) && Enabled(sc, s, a) && !IsFault(a)
    ensures Calm(Step(sc, s, a))
  {
    hide Count, Produced, ActPossible, Finished;
    CountNone(s.toServer, Ack);
  }

  lemma CountNone(q: seq<Frame>, f: Frame)
    ensures q == [] ==> CountFrames(q, f) == 0
  {
  }

  lemma {:induction false} RunKeepsCalm(sc: DkgScripts, s: State, run: seq<Action>)
    requires Inv(sc, s) && Calm(s) && IsRun(sc, s, run) && FaultFree(run)
    ensures Calm(After(sc, s, run))
    decreases |run|
  {
    hide Enabled, Step, Calm, ControlInv, ClosedInv, CountsInv, IsFault;
    if run != [] {
      StepKeepsInv(sc, s, run[0]);
      StepKeepsCalm(sc, s, run[0]);
      RunKeepsCalm(sc, Step(sc, s, run[0]), run[1..]);
    }
  }

  // ---- Safety ----

  /**
   In every run, faults included: the client's `Dkg` returns a wallet only after the server has stored
   its own and both libraries have finished; it returns a reported error only after its library has
   finished and the handler is gone; the handler comes to its end only after the client's answer.
   */
  lemma ClientReturnsAfterStore(sc: DkgScripts, run: seq<Action>)
    requires IsRun(sc, INIT, run)
    ensures var s := After(sc, INIT, run);
            && (s.clientMain.ClientReturned? ==> s.stored && Finished(sc, s.lib, Server) && Finished(sc, s.lib, Client))
            && (s.clientMain.ClientFailed? ==> Gone(s, Server) && Finished(sc, s.lib, Client))
            && (s.serverMain.ServerReturned? ==> s.stored && s.client.closed && Finished(sc, s.lib, Server))
  {
    InitInv(sc);
    RunKeepsInv(sc, INIT, run);
  }

  /** Without faults the handler never fails, and an error reaches the client only after the handler has ended. */
  lemma HandlerNeverFails(sc: DkgScripts, run: seq<Action>)
    requires IsRun(sc, INIT, run) && FaultFree(run)
    ensures var s := After(sc, INIT, run);
            && !s.serverMain.ServerFailed? && !s.clientMain.ClientEmpty?
            && (s.clientMain.ClientFailed? ==> s.serverMain.ServerReturned? && s.stored)
  {
    InitInv(sc);
    RunKeepsInv(sc, INIT, run);
    RunKeepsCalm(sc, INIT, run);
  }

  // ---- Progress ----

  lemma FrameThere(q: seq<Frame>, f: Frame)
    ensures CountFrames(q, f) > 0 ==> q != []
  {
  }

  lemma NothingCounted(q: seq<Frame>)
    requires q == []
    ensures CountFrames(q, Tss) == 0
  {
  }

  /** While the server's side runs, a blocked state would be one in which the library itself is stuck. */
  lemma ProcessingGoesOn(sc: DkgScripts, s: State)
    requires NeverStuck(sc) && Inv(sc, s) && Calm(s) && s.serverMain == Processing
    ensures exists a :: Enabled(sc, s, a) && !IsFault(a)
  {
    hide Count, CountFrames;
    if s.toServer != [] {
      assert Enabled(sc, s, Read(Server));
    } else if s.toClient != [] {
      assert Enabled(sc, s, Read(Client));
    } else if s.server.sent < Produced(sc, s.lib, Server) {
      assert Enabled(sc, s, SenderWrite(Server));
    } else if s.client.sent < Produced(sc, s.lib, Client) {
      assert Enabled(sc, s, SenderWrite(Client));
    } else if Finished(sc, s.lib, Server) {
      assert Enabled(sc, s, TssDone(Server));
    } else {
      NothingCounted(s.toServer);
      NothingCounted(s.toClient);
      assert s.client.got == Produced(sc, s.lib, Server) && s.server.got == Produced(sc, s.lib, Client);
      if ActPossible(sc, s.lib, Server, s.server.got) {
        assert Enabled(sc, s, LibStep(Server));
      } else {
        assert ActPossible(sc, s.lib, Client, s.client.got);
        assert Enabled(sc, s, LibStep(Client));
      }
    }
  }

  /** After the server has returned the client needs nothing but its own steps. */
  lemma ClientGoesOn(sc: DkgScripts, s: State)
    requires ServerFinishesLast(sc) && Inv(sc, s) && Calm(s)
    requires s.serverMain == ServerReturned && !Gone(s, Client)
    ensures exists a :: Enabled(sc, s, a) && !IsFault(a)
  {
    hide Count, CountFrames;
    if s.clientMain == WaitMetadata {
      assert Enabled(sc, s, ClientReturn);
    } else if Finished(sc, s.lib, Client) {
      assert Enabled(sc, s, TssDone(Client));
    } else {
      assert OnlySends(sc, s.lib, Client);
      assert Enabled(sc, s, LibStep(Client));
    }
  }

  lemma Progress(sc: DkgScripts, s: State)
    requires NeverStuck(sc) && ServerFinishesLast(sc) && Inv(sc, s) && Calm(s) && !BothReturned(s)
    ensures exists a :: Enabled(sc, s, a) && !IsFault(a)
  {
    hide NeverStuck, ServerFinishesLast, Count, CountFrames;
    FrameThere(s.toServer, PeerId);
    FrameThere(s.toServer, Ack);
    FrameThere(s.toClient, Metadata);
    match s.serverMain
    case WaitStart =>
      if s.clientMain == Dialling {
        assert Enabled(sc, s, Dial);
      } else if s.handing {
        assert Enabled(sc, s, Handover);
      } else {
        assert Enabled(sc, s, Read(Server));
      }
    case Processing => ProcessingGoesOn(sc, s);
    case Storing => assert Enabled(sc, s, Store);
    case WaitAck =>
      if s.server.closed {
        assert Enabled(sc, s, ServerReturn);
      } else if s.client.closed {
        assert Enabled(sc, s, Read(Server));
      } else {
        assert Enabled(sc, s, Read(Client));
      }
    case ServerReturned => ClientGoesOn(sc, s);
  }

  // ---- Termination ----

  function ServerRank(m: ServerMain): nat {
    match m case WaitStart => 8 case Processing => 6 case Storing => 5 case WaitAck => 1 case _ => 0
  }

  function ClientRank(m: ClientMain): nat {
    match m case Dialling => 6 case Running => 2 case WaitMetadata => 1 case _ => 0
  }

  /** Acts left in the scripts and messages left to write. */
  function LibraryWork(sc: DkgScripts, p: DkgPos, serverSent: nat, clientSent: nat): int {
    (|sc.server| - p.server) + (|sc.client| - p.client)
    + 3 * (Count(sc.server, Send) - serverSent) + 3 * (Count(sc.client, Send) - clientSent)
  }

  /** Frames left to read; a metadata frame read puts an answer on the wire. */
  function WireWork(toServer: nat, toClient: nat): nat {
    toServer + 2 * toClient
  }

  function ThreadWork(p: Program): nat {
    (if p.sender then 1 else 0) + if p.reader then 1 else 0
  }

  function MainWork(m: ServerMain, c: ClientMain): nat {
    ServerRank(m) + ClientRank(c)
  }

  /** Upper bound on the steps left. */
  function Work(sc: DkgScripts, s: State): int {
    LibraryWork(sc, s.lib, s.server.sent, s.client.sent) + WireWork(|s.toServer|, |s.toClient|)
    + MainWork(s.serverMain, s.clientMain) + ThreadWork(s.server) + ThreadWork(s.client)
  }

  lemma {:induction false} CountMonotone(acts: seq<DkgAct>, i: nat, a: DkgAct)
    requires i <= |acts|
    ensures Count(acts[..i], a) <= Count(acts, a)
    decreases |acts|
  {
    if i == |acts| {
      assert acts[..i] == acts;
    } else {
      CountMonotone(acts[..|acts| - 1], i, a);
      assert acts[..|acts| - 1][..i] == acts[..i];
    }
  }

  lemma WorkIsNatural(sc: DkgScripts, s: State)
    requires CountsInv(sc, s)
    ensures Work(sc, s) >= 0
  {
    CountMonotone(sc.server, s.lib.server, Send);
    CountMonotone(sc.client, s.lib.client, Send);
  }

  lemma ReadWorks(sc: DkgScripts, s: State, side: Side)
    requires Enabled(sc, s, Read(side))
    ensures Work(sc, Step(sc, s, Read(side))) < Work(sc, s)
  {
    hide LibraryWork, MainWork, ThreadWork, Produced;
    if side.Server? {
      var s' := ServerGets(s.(toServer := s.toServer[1..]), s.toServer[0]);
      assert ThreadWork(s'.server) == ThreadWork(s.server) by { ReadKeepsThreads(s, s.toServer[0]); }
      assert s'.server.sent == s.server.sent && |s'.toServer| == |s.toServer| - 1;
    } else {
      var s' := ClientGets(s.(toClient := s.toClient[1..]), s.toClient[0]);
      assert ThreadWork(s'.client) == ThreadWork(s.client) by { ReadKeepsThreads(s, s.toClient[0]); }
      assert s'.client.sent == s.client.sent && |s'.toServer| <= |s.toServer| + 1;
    }
  }

  lemma ReadKeepsThreads(s: State, f: Frame)
    ensures ThreadWork(ServerGets(s, f).server) == ThreadWork(s.server)
    ensures ThreadWork(ClientGets(s, f).client) == ThreadWork(s.client)
  {
  }

  lemma LibWorks(sc: DkgScripts, s: State, side: Side)
    requires Enabled(sc, s, LibStep(side))
    ensures Work(sc, Step(sc, s, LibStep(side))) < Work(sc, s)
  {
    hide ActPossible, Count;
  }

  lemma WriteWorks(sc: DkgScripts, s: State, side: Side)
    requires Enabled(sc, s, SenderWrite(side))
    ensures Work(sc, Step(sc, s, SenderWrite(side))) < Work(sc, s)
  {
    hide Produced, Count;
  }

  lemma ThreadEnds(sc: DkgScripts, s: State, a: Action)
    requires Enabled(sc, s, a) && (a.ReaderClosed? || a.WriteFails? || a.SenderExit?)
    ensures Work(sc, Step(sc, s, a)) < Work(sc, s)
  {
    hide LibraryWork, WireWork, MainWork, Produced, ActPossible;
  }

  lemma FrameWorks(sc: DkgScripts, s: State, a: Action)
    requires Enabled(sc, s, a) && (a.Dial? || a.Store?)
    ensures Work(sc, Step(sc, s, a)) < Work(sc, s)
  {
    hide LibraryWork, Produced, ActPossible, Finished, InScripts;
  }

  predicate EndsPhase(a: Action) {
    a.Handover? || a.TssDone? || a.ServerReturn? || a.ClientReturn? || IsFault(a)
  }

  lemma MainMoves(sc: DkgScripts, s: State, a: Action)
    requires Enabled(sc, s, a) && EndsPhase(a)
    ensures var s' := Step(sc, s, a);
            && s' == s.(handing := s'.handing, serverMain := s'.serverMain, clientMain := s'.clientMain,
                        stored := s'.stored, server := s'.server)
            && s'.server == s.server.(sender := s'.server.sender)
            && MainWork(s'.serverMain, s'.clientMain) + (if a.Handover? then 1 else 0)
               < MainWork(s.serverMain, s.clientMain)
            && (!a.Handover? ==> s'.server == s.server)
  {
    hide Produced, ActPossible, Finished, InScripts;
  }

  lemma MainWorks(sc: DkgScripts, s: State, a: Action)
    requires Enabled(sc, s, a) && EndsPhase(a)
    ensures Work(sc, Step(sc, s, a)) < Work(sc, s)
  {
    hide LibraryWork, WireWork, MainWork, Enabled, Step;
    MainMoves(sc, s, a);
  }

  lemma StepWorks(sc: DkgScripts, s: State, a: Action)
    requires Enabled(sc, s, a)
    ensures Work(sc, Step(sc, s, a)) < Work(sc, s)
  {
    hide Work;
    match a
    case LibStep(side) => LibWorks(sc, s, side);
    case SenderWrite(side) => WriteWorks(sc, s, side);
    case Read(side) => ReadWorks(sc, s, side);
    case ReaderClosed(_, _) => ThreadEnds(sc, s, a);
    case WriteFails(_) => ThreadEnds(sc, s, a);
    case SenderExit(_) => ThreadEnds(sc, s, a);
    case Dial => FrameWorks(sc, s, a);
    case Store => FrameWorks(sc, s, a);
    case _ => MainWorks(sc, s, a);
  }

  lemma {:induction false} RunsAreBounded(sc: DkgScripts, s: State, run: seq<Action>)
    requires Inv(sc, s) && IsRun(sc, s, run)
    ensures |run| <= Work(sc, s)
    decreases |run|
  {
    hide ControlInv, ClosedInv, Enabled, Step, Work;
    if run == [] {
      WorkIsNatural(sc, s);
    } else {
      StepKeepsInv(sc, s, run[0]);
      StepWorks(sc, s, run[0]);
      RunsAreBounded(sc, Step(sc, s, run[0]), run[1..]);
    }
  }
}
