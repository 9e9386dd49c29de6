/**
 When the client's `Dkg` returns an error although the wallet is stored. The handler cancels its
 context before it closes the connection; the client's reader or sender may meet the closed connection
 and report it before the client's own library has finished, and the main thread then returns the
 error without the key share.
 */
module DkgErrors {
  import opened DkgHang
  import opened DkgProgress
  import opened DkgProtocol

  // ---- Exactly when ----

  predicate Reports(a: Action, side: Side) {
    a == ReaderClosed(side, true) || a == WriteFails(side)
  }

  /** The side's reader or sender has met the closed connection. */
  predicate CloseReported(run: seq<Action>, side: Side) {
    exists i :: 0 <= i < |run| && Reports(run[i], side)
  }

  /** The main thread has looked for errors after one was reported; `already`: one was reported before the run. */
  predicate CheckedAfterReport(run: seq<Action>, side: Side, already: bool) {
    exists i :: 0 <= i < |run| && run[i] == TssDone(side) && (already || CloseReported(run[..i], side))
  }

  lemma CloseReportedHead(run: seq<Action>, side: Side)
    requires run != []
    ensures CloseReported(run, side) <==> Reports(run[0], side) || CloseReported(run[1..], side)
  {
    if i :| 0 < i < |run| && Reports(run[i], side) {
      assert Reports(run[1..][i - 1], side);
    }
  }

  lemma CheckedHead(run: seq<Action>, side: Side, already: bool)
    requires run != []
    ensures CheckedAfterReport(run, side, already)
       <==> (run[0] == TssDone(side) && already)
            || CheckedAfterReport(run[1..], side, already || Reports(run[0], side))
  {
    hide CloseReported, Reports;
    NoneReported(side);
    forall i | 0 < i < |run|
      ensures CloseReported(run[..i], side) <==> Reports(run[0], side) || CloseReported(run[1..][..i - 1], side)
    {
      CloseReportedHead(run[..i], side);
      assert run[..i][1..] == run[1..][..i - 1];
    }
    if i :| 0 <= i < |run| - 1 && run[1..][i] == TssDone(side)
            && (already || Reports(run[0], side) || CloseReported(run[1..][..i], side)) {
      assert run[i + 1] == TssDone(side) && (already || CloseReported(run[..i + 1], side));
    }
    if i :| 0 <= i < |run| && run[i] == TssDone(side) && (already || CloseReported(run[..i], side)) {
      assert i == 0 ==> run[..i] == [];
      assert i > 0 ==> run[1..][i - 1] == TssDone(side);
    }
  }

  lemma NoneReported(side: Side)
    ensures !CloseReported([], side)
  {
  }

  lemma NoneChecked(side: Side, already: bool)
    ensures !CheckedAfterReport([], side, already)
  {
  }

  lemma StepOnReport(sc: DkgScripts, s: State, a: Action, side: Side)
    requires Enabled(sc, s, a)
    ensures Step(sc, s, a).At(side).errs <==> s.At(side).errs || Reports(a, side)
  {
    hide Step, Enabled;
    if a.Read? { ReadOnReport(sc, s, a.side, side); } else { OtherOnReport(sc, s, a, side); }
  }

  lemma ReadOnReport(sc: DkgScripts, s: State, reader: Side, side: Side)
    requires Enabled(sc, s, Read(reader))
    ensures Step(sc, s, Read(reader)).At(side).errs == s.At(side).errs
  {
    hide Produced, ActPossible, Finished, InScripts, Reads, CanWrite;
  }

  lemma OtherOnReport(sc: DkgScripts, s: State, a: Action, side: Side)
    requires Enabled(sc, s, a) && !a.Read?
    ensures Step(sc, s, a).At(side).errs <==> s.At(side).errs || Reports(a, side)
  {
    hide Produced, ActPossible, Finished, InScripts, Reads, CanWrite, Gone, Runs, Inbox;
  }

  predicate HasFailed(s: State, side: Side) {
    if side.Server? then s.serverMain == ServerFailed else s.clientMain == ClientFailed
  }

  /** A fault that ends the side's main thread with an error. */
  predicate Fails(a: Action, side: Side) {
    side.Server? && (a == Quit(Server) || a == MetadataLost)
  }

  lemma StepOnMain(sc: DkgScripts, s: State, a: Action, side: Side)
    requires Enabled(sc, s, a)
    ensures HasFailed(Step(sc, s, a), side)
       <==> HasFailed(s, side) || (s.At(side).errs && a == TssDone(side)) || Fails(a, side)
  {
    hide Produced, ActPossible, Finished, InScripts, Reads, CanWrite;
  }

  lemma {:induction false} ErrorsAlong(sc: DkgScripts, s: State, run: seq<Action>, side: Side)
    requires IsRun(sc, s, run)
    ensures After(sc, s, run).At(side).errs <==> s.At(side).errs || CloseReported(run, side)
    ensures HasFailed(After(sc, s, run), side)
       <==> || HasFailed(s, side) || CheckedAfterReport(run, side, s.At(side).errs)
            || (exists a :: a in run && Fails(a, side))
    decreases |run|
  {
    hide Enabled, Step, CloseReported, CheckedAfterReport, Reports, Fails, HasFailed;
    if run == [] {
      NoneReported(side);
      NoneChecked(side, s.At(side).errs);
    } else {
      StepOnReport(sc, s, run[0], side);
      StepOnMain(sc, s, run[0], side);
      CloseReportedHead(run, side);
      CheckedHead(run, side, s.At(side).errs);
      ErrorsAlong(sc, Step(sc, s, run[0]), run[1..], side);
      assert forall a :: a in run <==> a == run[0] || a in run[1..];
    }
  }

  /** In every run: `Dkg` returns a reported error exactly when it looks after the report. */
  lemma ClientFailsExactlyWhen(sc: DkgScripts, run: seq<Action>)
    requires IsRun(sc, INIT, run)
    ensures After(sc, INIT, run).clientMain == ClientFailed <==> CheckedAfterReport(run, Client, false)
  {
    ErrorsAlong(sc, INIT, run, Client);
  }

  /**
   In every run the handler fails exactly when its main thread looks for errors after its reader or
   sender has reported one, or a fault ends it.
   */
  lemma HandlerFailsExactlyWhen(sc: DkgScripts, run: seq<Action>)
    requires IsRun(sc, INIT, run)
    ensures After(sc, INIT, run).serverMain == ServerFailed
       <==> CheckedAfterReport(run, Server, false) || Quit(Server) in run || MetadataLost in run
  {
    ErrorsAlong(sc, INIT, run, Server);
  }

  /** Its look alone decides: an error if one was reported before, else the wallet is stored next. */
  lemma HandlerLooks(sc: DkgScripts, run: seq<Action>)
    requires IsRun(sc, INIT, run) && Enabled(sc, After(sc, INIT, run), TssDone(Server))
    ensures Step(sc, After(sc, INIT, run), TssDone(Server)).serverMain
         == if CloseReported(run, Server) then ServerFailed else Storing
  {
    hide CloseReported, Produced, ActPossible;
    ErrorsAlong(sc, INIT, run, Server);
  }

  lemma FailedStays(sc: DkgScripts, s: State, a: Action)
    requires Enabled(sc, s, a) && s.serverMain == ServerFailed && !s.stored
    ensures Step(sc, s, a).serverMain == ServerFailed && !Step(sc, s, a).stored
  {
    hide Produced, ActPossible, Finished, InScripts;
  }

  lemma LookFails(sc: DkgScripts, s: State)
    requires ControlInv(sc, s) && Enabled(sc, s, TssDone(Server)) && s.server.errs
    ensures var s' := Step(sc, s, TssDone(Server)); s'.serverMain == ServerFailed && !s'.stored
  {
    hide Produced, ActPossible, CountFrames;
  }

  lemma {:induction false} FailedForGood(sc: DkgScripts, s: State, run: seq<Action>)
    requires IsRun(sc, s, run) && s.serverMain == ServerFailed && !s.stored
    ensures After(sc, s, run).serverMain == ServerFailed && !After(sc, s, run).stored
    decreases |run|
  {
    hide Enabled, Step;
    if run != [] {
      FailedStays(sc, s, run[0]);
      FailedForGood(sc, Step(sc, s, run[0]), run[1..]);
    }
  }

  lemma {:induction false} LostAlong(sc: DkgScripts, s: State, run: seq<Action>)
    requires Inv(sc, s) && IsRun(sc, s, run) && CheckedAfterReport(run, Server, s.server.errs)
    ensures After(sc, s, run).serverMain == ServerFailed && !After(sc, s, run).stored
    decreases |run|
  {
    hide Enabled, Step, CheckedAfterReport, Reports, CountsInv, ControlInv, ClosedInv;
    if run == [] {
      NoneChecked(Server, s.server.errs);
    } else {
      CheckedHead(run, Server, s.server.errs);
      if run[0] == TssDone(Server) && s.server.errs {
        LookFails(sc, s);
        FailedForGood(sc, Step(sc, s, run[0]), run[1..]);
      } else {
        StepOnReport(sc, s, run[0], Server);
        StepKeepsInv(sc, s, run[0]);
        LostAlong(sc, Step(sc, s, run[0]), run[1..]);
      }
    }
  }

  /** A connection that is reported lost before the handler looks leaves nothing stored, whatever follows. */
  lemma NothingStoredAfterReport(sc: DkgScripts, run: seq<Action>)
    requires IsRun(sc, INIT, run) && CheckedAfterReport(run, Server, false)
    ensures !After(sc, INIT, run).stored
  {
    InitInv(sc);
    LostAlong(sc, INIT, run);
  }

  // ---- What each end of a run says about it ----

  lemma StepOnOutcome(sc: DkgScripts, s: State, a: Action)
    requires Enabled(sc, s, a) && ControlInv(sc, s)
    ensures var s' := Step(sc, s, a);
            && (s'.stored <==> s.stored || a == Store || a == MetadataLost)
            && (s'.clientMain == ClientEmpty <==> s.clientMain == ClientEmpty || a == Quit(Client))
            && (s'.clientMain == ClientReturned <==> s.clientMain == ClientReturned || a == ClientReturn)
            && (s'.serverMain == ServerReturned <==> s.serverMain == ServerReturned || a == ServerReturn)
  {
    hide Produced, ActPossible, Finished, InScripts, CanWrite, CountFrames;
  }

  lemma {:induction false} OutcomeAlong(sc: DkgScripts, s: State, run: seq<Action>)
    requires Inv(sc, s) && IsRun(sc, s, run)
    ensures var end := After(sc, s, run);
            && (end.stored <==> s.stored || Store in run || MetadataLost in run)
            && (end.clientMain == ClientEmpty <==> s.clientMain == ClientEmpty || Quit(Client) in run)
            && (end.clientMain == ClientReturned <==> s.clientMain == ClientReturned || ClientReturn in run)
            && (end.serverMain == ServerReturned <==> s.serverMain == ServerReturned || ServerReturn in run)
    decreases |run|
  {
    hide Enabled, Step, CountsInv, ControlInv, ClosedInv;
    if run != [] {
      StepOnOutcome(sc, s, run[0]);
      StepKeepsInv(sc, s, run[0]);
      OutcomeAlong(sc, Step(sc, s, run[0]), run[1..]);
      assert forall a :: a in run <==> a == run[0] || a in run[1..];
    }
  }

  /**
   In every run: a wallet is in the database exactly when it was stored, with or without its metadata
   getting out, and the client comes back empty exactly when its own library failed.
   */
  lemma OutcomeExactlyWhen(sc: DkgScripts, run: seq<Action>)
    requires IsRun(sc, INIT, run)
    ensures After(sc, INIT, run).stored <==> Store in run || MetadataLost in run
    ensures After(sc, INIT, run).clientMain == ClientEmpty <==> Quit(Client) in run
    ensures After(sc, INIT, run).clientMain == ClientReturned <==> ClientReturn in run
    ensures After(sc, INIT, run).serverMain == ServerReturned <==> ServerReturn in run
  {
    InitInv(sc);
    OutcomeAlong(sc, INIT, run);
  }

  // ---- It can happen, whatever the library ----

  /** A library that never gets stuck can run to its end. */
  lemma ComesToEnd(sc: DkgScripts, p: DkgPos) returns (q: DkgPos)
    requires NeverStuck(sc) && ReachablePos(sc, p) && InScripts(sc, p)
    ensures ReachablePos(sc, q) && InScripts(sc, q) && Finished(sc, q, Server) && Finished(sc, q, Client)
    decreases |sc.server| - p.server + |sc.client| - p.client
  {
    hide ReachablePos, Produced, Count;
    if ActPossible(sc, p, Server, Produced(sc, p, Client)) {
      ReachableStep(sc, p, Server);
      q := ComesToEnd(sc, p.Advance(Server));
    } else if ActPossible(sc, p, Client, Produced(sc, p, Server)) {
      ReachableStep(sc, p, Client);
      q := ComesToEnd(sc, p.Advance(Client));
    } else {
      q := p;
    }
  }

  /** The wallet is stored and the server is back, and the client returns an error. */
  ghost predicate CanLoseShare(sc: DkgScripts) {
    exists s :: Reaches(sc, s) && s.stored && s.serverMain == ServerReturned && s.clientMain == ClientFailed
  }

  lemma ClientCanFail(sc: DkgScripts)
    requires NeverStuck(sc)
    ensures CanLoseShare(sc)
  {
    hide NeverStuck, ReachablePos, Reaches, Lazy;
    StartReachable(sc);
    var p := ComesToEnd(sc, DkgPos(0, 0));
    LazyReachable(sc, p);
    ReachesHung(sc, p);
    HungClientFails(sc, p);
  }

  /** A client that finishes after the handler has closed returns the error its reader has reported. */
  lemma HungClientFails(sc: DkgScripts, p: DkgPos)
    requires InScripts(sc, p) && Finished(sc, p, Client) && Reaches(sc, Hung(sc, p))
    ensures CanLoseShare(sc)
  {
    hide Count, Reaches, Produced, Consumed;
    ReachesNext(sc, Hung(sc, p), TssDone(Client));
  }

  /** Some run of the library finishes both sides. */
  ghost predicate CanComplete(sc: DkgScripts) {
    exists p {:trigger ReachablePos(sc, p)} ::
      ReachablePos(sc, p) && InScripts(sc, p) && Finished(sc, p, Server) && Finished(sc, p, Client)
  }

  /** Without faults the share can be lost exactly when the library can finish both sides at all. */
  lemma CanLoseShareIff(sc: DkgScripts)
    ensures CanLoseShare(sc) <==> CanComplete(sc)
  {
    hide ReachablePos, Lazy;
    if CanLoseShare(sc) {
      var s :| Reaches(sc, s) && s.stored && s.serverMain == ServerReturned && s.clientMain == ClientFailed;
      var run :| IsRun(sc, INIT, run) && FaultFree(run) && After(sc, INIT, run) == s;
      ClientReturnsAfterStore(sc, run);
      EndsReachable(sc, run);
    }
    if CanComplete(sc) {
      var p :| ReachablePos(sc, p) && InScripts(sc, p) && Finished(sc, p, Server) && Finished(sc, p, Client);
      hide Reaches;
      LazyReachable(sc, p);
      ReachesHung(sc, p);
      HungClientFails(sc, p);
    }
  }

  lemma EndsReachable(sc: DkgScripts, run: seq<Action>)
    requires IsRun(sc, INIT, run)
    ensures InScripts(sc, After(sc, INIT, run).lib) && ReachablePos(sc, After(sc, INIT, run).lib)
  {
    InitInv(sc);
    RunKeepsInv(sc, INIT, run);
  }

  // ---- When the handler returns early ----

  /** Some run, in which the handler returns early only if it may, gives the client an error and stores nothing. */
  ghost predicate FailsUnstored(sc: DkgScripts, mayQuit: bool) {
    exists run :: ErrorWithoutWallet(sc, run) && (mayQuit || Quit(Server) !in run)
  }

  ghost predicate ErrorWithoutWallet(sc: DkgScripts, run: seq<Action>) {
    IsRun(sc, INIT, run) && After(sc, INIT, run).clientMain == ClientFailed && !After(sc, INIT, run).stored
  }

  /** Some run of the library finishes the client's side. */
  ghost predicate ClientCanFinish(sc: DkgScripts) {
    exists p {:trigger ReachablePos(sc, p)} :: ReachablePos(sc, p) && InScripts(sc, p) && Finished(sc, p, Client)
  }

  /** A handler that failed on its connection, and not by itself, has lost a client that reports nothing. */
  predicate Explained(s: State, quit: bool) {
    s.serverMain.ServerFailed? && !s.stored && !quit ==> s.clientMain.ClientReturned? || s.clientMain.ClientEmpty?
  }

  lemma StepExplained(sc: DkgScripts, s: State, a: Action, quit: bool)
    requires ClosedInv(s) && Enabled(sc, s, a) && Explained(s, quit)
    ensures Explained(Step(sc, s, a), quit || a == Quit(Server))
  {
    hide Produced, ActPossible, Finished, InScripts;
  }

  lemma {:induction false} RunExplained(sc: DkgScripts, s: State, run: seq<Action>, quit: bool)
    requires Inv(sc, s) && IsRun(sc, s, run) && Explained(s, quit)
    ensures Explained(After(sc, s, run), quit || Quit(Server) in run)
    decreases |run|
  {
    hide Enabled, Step, Explained, CountsInv, ControlInv, ClosedInv;
    if run != [] {
      StepExplained(sc, s, run[0], quit);
      StepKeepsInv(sc, s, run[0]);
      RunExplained(sc, Step(sc, s, run[0]), run[1..], quit || run[0] == Quit(Server));
    }
  }

  lemma UnstoredMeansQuit(sc: DkgScripts, run: seq<Action>)
    requires ErrorWithoutWallet(sc, run)
    ensures Quit(Server) in run
  {
    hide IsRun, After, CountsInv, ControlInv, ClosedInv;
    InitInv(sc);
    RunExplained(sc, INIT, run, false);
    ClientReturnsAfterStore(sc, run);
  }

  /**
   The client can be given an error with nothing stored exactly when the handler may return early and
   the library can finish the client's side.
   */
  lemma FailsUnstoredIff(sc: DkgScripts, mayQuit: bool)
    ensures FailsUnstored(sc, mayQuit) <==> mayQuit && ClientCanFinish(sc)
  {
    hide ReachablePos, Lazy, IsRun, After;
    if FailsUnstored(sc, mayQuit) {
      var run :| ErrorWithoutWallet(sc, run) && (mayQuit || Quit(Server) !in run);
      UnstoredMeansQuit(sc, run);
      ClientReturnsAfterStore(sc, run);
      EndsReachable(sc, run);
    }
    if mayQuit && ClientCanFinish(sc) {
      var p :| ReachablePos(sc, p) && InScripts(sc, p) && Finished(sc, p, Client);
      LazyReachable(sc, p);
      QuitsUnstored(sc, p);
    }
  }

  /** The handler gives up, the client's reader meets the closed connection, its main thread looks. */
  lemma QuitThenFails(sc: DkgScripts, s0: State)
    requires InScripts(sc, s0.lib) && Finished(sc, s0.lib, Client) && Runs(s0, Server) && Runs(s0, Client)
    requires s0.client.reader && s0.toClient == [] && !s0.stored
    ensures Enabled(sc, s0, Quit(Server))
    ensures var s1 := Step(sc, s0, Quit(Server));
            && Enabled(sc, s1, ReaderClosed(Client, true))
            && var s2 := Step(sc, s1, ReaderClosed(Client, true));
               && Enabled(sc, s2, TssDone(Client))
               && var s3 := Step(sc, s2, TssDone(Client)); s3.clientMain == ClientFailed && !s3.stored
  {
  }

  lemma QuitsUnstored(sc: DkgScripts, p: DkgPos)
    requires InScripts(sc, p) && Finished(sc, p, Client) && Reaches(sc, Lazy(sc, p))
    ensures exists run :: ErrorWithoutWallet(sc, run)
  {
    var s0 := Lazy(sc, p);
    QuitThenFails(sc, s0);
    var run :| IsRun(sc, INIT, run) && FaultFree(run) && After(sc, INIT, run) == s0;
    hide Reaches, IsRun, After, Enabled, Step, Lazy;
    RunThen(sc, INIT, run, Quit(Server));
    var run1 := run + [Quit(Server)];
    RunThen(sc, INIT, run1, ReaderClosed(Client, true));
    var run2 := run1 + [ReaderClosed(Client, true)];
    RunThen(sc, INIT, run2, TssDone(Client));
    assert ErrorWithoutWallet(sc, run2 + [TssDone(Client)]);
  }

  // ---- After a side has returned ----

  /** What a side does itself. */
  predicate Moves(a: Action, side: Side) {
    match a
    case Dial => side.Client?
    case ClientReturn => side.Client?
    case Handover => side.Server?
    case Store => side.Server?
    case ServerReturn => side.Server?
    case MetadataLost => side.Server?
    case Read(p) => p == side
    case ReaderClosed(p, _) => p == side
    case SenderWrite(p) => p == side
    case WriteFails(p) => p == side
    case SenderExit(p) => p == side
    case LibStep(p) => p == side
    case TssDone(p) => p == side
    case Quit(p) => p == side
  }

  /** A side that has returned does nothing more than let its sender stop. */
  lemma ReturnedSideIsQuiet(sc: DkgScripts, s: State, a: Action, side: Side)
    requires Enabled(sc, s, a) && Gone(s, side) && Moves(a, side)
    requires ControlInv(sc, s)
    ensures a == SenderExit(side)
  {
    hide Produced, Finished, ActPossible, CountFrames;
  }

  // ---- Where the main threads can return early ----

  ghost predicate HandlerReturnsAt(sc: DkgScripts, m: ServerMain) {
    exists s :: Reaches(sc, s) && Enabled(sc, s, Quit(Server)) && s.serverMain == m
  }

  ghost predicate ClientReturnsAt(sc: DkgScripts, m: ClientMain) {
    exists s :: Reaches(sc, s) && Enabled(sc, s, Quit(Client)) && s.clientMain == m
  }

  ghost predicate MetadataCanBeLost(sc: DkgScripts) {
    exists s :: Reaches(sc, s) && Enabled(sc, s, MetadataLost)
  }

  /** Some run of the library finishes the server's side. */
  ghost predicate ServerCanFinish(sc: DkgScripts) {
    exists p {:trigger ReachablePos(sc, p)} :: ReachablePos(sc, p) && InScripts(sc, p) && Finished(sc, p, Server)
  }

  lemma StoringMeansFinished(sc: DkgScripts, s: State)
    requires Reaches(sc, s) && s.serverMain == Storing
    ensures ServerCanFinish(sc)
  {
    hide ReachablePos;
    var run :| IsRun(sc, INIT, run) && FaultFree(run) && After(sc, INIT, run) == s;
    EndsReachable(sc, run);
    InitInv(sc);
    RunKeepsInv(sc, INIT, run);
  }

  lemma ReturnsWhileProcessing(sc: DkgScripts)
    ensures HandlerReturnsAt(sc, Processing) && ClientReturnsAt(sc, Running)
  {
    hide Reaches;
    LazyStart(sc);
    var s := Lazy(sc, DkgPos(0, 0));
    assert Enabled(sc, s, Quit(Server)) && Enabled(sc, s, Quit(Client));
  }

  lemma ReturnsWhileStoring(sc: DkgScripts, p: DkgPos)
    requires InScripts(sc, p) && Finished(sc, p, Server) && Reaches(sc, Lazy(sc, p))
    ensures HandlerReturnsAt(sc, Storing) && MetadataCanBeLost(sc)
  {
    hide Reaches, Count;
    ReachesNext(sc, Lazy(sc, p), TssDone(Server));
    var s := Step(sc, Lazy(sc, p), TssDone(Server));
    assert Enabled(sc, s, Quit(Server)) && Enabled(sc, s, MetadataLost);
  }

  /**
   Whatever the library: the handler can return early while its library runs and, exactly when that can
   finish, while it stores the wallet, with or without having stored it; the client while its library runs.
   */
  lemma ReturnEarlyIff(sc: DkgScripts, server: ServerMain, client: ClientMain)
    ensures HandlerReturnsAt(sc, server) <==> server == Processing || (server == Storing && ServerCanFinish(sc))
    ensures ClientReturnsAt(sc, client) <==> client == Running
    ensures MetadataCanBeLost(sc) <==> ServerCanFinish(sc)
  {
    hide ReachablePos, Reaches, Lazy, ServerCanFinish;
    ReturnsWhileProcessing(sc);
    if s :| Reaches(sc, s) && s.serverMain == Storing {
      StoringMeansFinished(sc, s);
    }
    StoringIfFinished(sc);
  }

  lemma StoringIfFinished(sc: DkgScripts)
    ensures ServerCanFinish(sc) ==> HandlerReturnsAt(sc, Storing) && MetadataCanBeLost(sc)
  {
    hide ReachablePos, Reaches, Lazy;
    if p :| ReachablePos(sc, p) && InScripts(sc, p) && Finished(sc, p, Server) {
      LazyReachable(sc, p);
      ReturnsWhileStoring(sc, p);
    }
  }
}
