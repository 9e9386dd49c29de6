/**
 When RegisterDevice and AcceptDevice return an error that their reader or sender has reported. A
 handler that returns, at its end or early, cancels its context and closes the connection; a device
 that meets the closed connection reports an error, and its main thread returns it if it looks late
 enough. At the end of RegisterDeviceHandler the device is committed and the error comes all the same.
 */
module AddDeviceErrors {
  import opened StarRouting
  import opened TssLibrary
  import opened AddDevice
  import opened AddDeviceInvariant
  import opened AddDeviceProgress
  import opened AddDeviceSafety
  import opened AddDeviceSteps
  import opened AddDeviceTermination

  // ---- Exactly when ----

  predicate Reports(act: Action, p: Party) {
    act == Dev(p, DClosed(true)) || act == Dev(p, DSendFails)
  }

  /** The device's reader or sender has met the closed connection. */
  predicate CloseReported(acts: seq<Action>, p: Party) {
    exists i :: 0 <= i < |acts| && Reports(acts[i], p)
  }

  /** The main thread has looked for errors after one was reported. */
  predicate CheckedAfterReport(acts: seq<Action>, p: Party) {
    exists i :: 0 <= i < |acts| && acts[i] == Dev(p, DTssDone) && CloseReported(acts[..i], p)
  }

  lemma StepOnErrors(k: Params, s: State, act: Action, p: Party)
    requires Enabled(k, s, act) && p != Server
    ensures var d, d' := DeviceOf(s, p), DeviceOf(Step(k, s, act), p);
            && (d'.errs <==> d.errs || Reports(act, p))
            && (d'.main == Failed <==> d.main == Failed || (d.errs && act == Dev(p, DTssDone)))
  {
    hide RegisterStep, RegisterEnabled, AcceptStep, AcceptEnabled, LibEnabled, LibraryStep, DeviceStep, DeviceEnabled;
    match act
    case Dev(q, d) => if d == DRead { DeviceReadOnErrors(k, s, q, p); } else { DeviceOnErrors(k, s, q, d, p); }
    case Reg(r) => RegisterOnErrors(k, s, r);
    case Acc(a) => AcceptOnErrors(k, s, a);
    case LibStep(q, content) => LibraryOnErrors(k, s, q, content);
    case _ =>
  }

  lemma DeviceReadOnErrors(k: Params, s: State, q: Party, p: Party)
    requires DeviceEnabled(k, s, q, DRead) && p != Server
    ensures var d, d' := DeviceOf(s, p), DeviceOf(DeviceStep(k, s, q, DRead), p);
            d'.errs == d.errs && d'.main == d.main
  {
  }

  lemma DeviceOnErrors(k: Params, s: State, q: Party, act: DeviceAct, p: Party)
    requires DeviceEnabled(k, s, q, act) && act != DRead && p != Server
    ensures var d, d' := DeviceOf(s, p), DeviceOf(DeviceStep(k, s, q, act), p);
            && (d'.errs <==> d.errs || Reports(Dev(q, act), p))
            && (d'.main == Failed <==> d.main == Failed || (d.errs && q == p && act == DTssDone))
  {
  }

  lemma RegisterOnErrors(k: Params, s: State, act: RegisterAct)
    requires RegisterEnabled(k, s, act)
    ensures RegisterStep(k, s, act).n == s.n && RegisterStep(k, s, act).e == s.e
  {
  }

  lemma AcceptOnErrors(k: Params, s: State, act: AcceptAct)
    requires AcceptEnabled(k, s, act)
    ensures AcceptStep(k, s, act).n == s.n && AcceptStep(k, s, act).e == s.e
  {
  }

  lemma LibraryOnErrors(k: Params, s: State, q: Party, content: nat)
    requires LibEnabled(k, s, q)
    ensures LibraryStep(k, s, q, content).n == s.n && LibraryStep(k, s, q, content).e == s.e
  {
    hide Pick, RecvsFrom, SendsTo;
  }

  lemma CloseReportedNext(acts: seq<Action>, p: Party)
    requires acts != []
    ensures var before, act := acts[..|acts| - 1], acts[|acts| - 1];
            && (CloseReported(acts, p) <==> CloseReported(before, p) || Reports(act, p))
            && (CheckedAfterReport(acts, p)
                <==> CheckedAfterReport(before, p) || (CloseReported(before, p) && act == Dev(p, DTssDone)))
  {
    var before, act := acts[..|acts| - 1], acts[|acts| - 1];
    if i :| 0 <= i < |acts| && Reports(acts[i], p) && i < |before| {
      assert Reports(before[i], p);
    }
    forall i | 0 <= i < |before| ensures before[i] == acts[i] && before[..i] == acts[..i] {
    }
  }

  /** In every run, faults included: a device returns a reported error exactly when it looks after the report. */
  lemma {:induction false} DeviceFailsExactlyWhen(k: Params, acts: seq<Action>, p: Party)
    requires IsRun(k, acts) && p != Server
    ensures DeviceOf(After(k, acts), p).errs <==> CloseReported(acts, p)
    ensures DeviceOf(After(k, acts), p).main == Failed <==> CheckedAfterReport(acts, p)
  {
    hide Step, Enabled, CloseReported, CheckedAfterReport, Reports;
    if acts == [] {
      NothingReported(p);
    } else {
      var before, act := acts[..|acts| - 1], acts[|acts| - 1];
      DeviceFailsExactlyWhen(k, before, p);
      StepOnErrors(k, After(k, before), act, p);
      CloseReportedNext(acts, p);
    }
  }

  lemma NothingReported(p: Party)
    ensures !CloseReported([], p) && !CheckedAfterReport([], p)
  {
  }

  // ---- What a run says about threads and libraries ----

  /** The action after which the thread does nothing more. */
  predicate Stops(act: Action, t: Thread) {
    || act == Cancel(t) || act == Kill(t) || act == Quit(t)
    || (act.Dev? && act.p != Server
        && ((act.d.DClosed? && t == ReaderOf(act.p)) || (act.d == DSendFails && t == SenderOf(act.p))))
  }

  lemma StepStops(k: Params, s: State, act: Action)
    requires Enabled(k, s, act)
    ensures var s' := Step(k, s, act);
            && (forall t :: t in s'.dead <==> t in s.dead || Stops(act, t))
            && (forall t :: t in s'.quit <==> t in s.quit || act == Quit(t))
            && (forall p :: p in s'.failed <==> p in s.failed || act == LibFail(p))
  {
    hide RegisterStep, RegisterEnabled, AcceptStep, AcceptEnabled, LibEnabled, LibraryStep, DeviceStep, DeviceEnabled;
    match act
    case Dev(p, d) => if d == DRead { ReadStopsNobody(k, s, p); } else { DeviceStops(k, s, p, d); }
    case Reg(r) => RegisterStopsNobody(k, s, r);
    case Acc(a) => AcceptStopsNobody(k, s, a);
    case LibStep(p, content) => LibraryStopsNobody(k, s, p, content);
    case _ =>
  }

  lemma ReadStopsNobody(k: Params, s: State, p: Party)
    requires DeviceEnabled(k, s, p, DRead)
    ensures var s' := DeviceStep(k, s, p, DRead); (s'.dead, s'.quit, s'.failed) == (s.dead, s.quit, s.failed)
  {
  }

  lemma DeviceStops(k: Params, s: State, p: Party, act: DeviceAct)
    requires DeviceEnabled(k, s, p, act) && act != DRead
    ensures var s' := DeviceStep(k, s, p, act);
            && (s'.quit, s'.failed) == (s.quit, s.failed)
            && (forall t :: t in s'.dead <==> t in s.dead || Stops(Dev(p, act), t))
  {
  }

  /**
   In every run: a thread has stopped exactly when an action of the run stopped it, a main thread has
   returned early and a library has failed exactly when the run says so.
   */
  lemma {:induction false} StoppedExactlyWhen(k: Params, acts: seq<Action>)
    requires IsRun(k, acts)
    ensures forall t :: t in After(k, acts).dead <==> exists act :: act in acts && Stops(act, t)
    ensures forall t :: t in After(k, acts).quit <==> Quit(t) in acts
    ensures forall p :: p in After(k, acts).failed <==> LibFail(p) in acts
  {
    hide Step, Enabled, Stops;
    if acts != [] {
      var before, act := acts[..|acts| - 1], acts[|acts| - 1];
      StoppedExactlyWhen(k, before);
      StepStops(k, After(k, before), act);
      assert acts == before + [act];
      assert forall x :: x in acts <==> x in before || x == act;
    }
  }

  // ---- What such an error means ----

  /** The new device's handler has returned; the existing device's only early. */
  lemma FailedFollowsHandler(k: Params, s: State)
    requires Inv(k, s)
    ensures s.n.main == Failed ==> s.r.main == RReturned || RegMain in s.quit
    ensures s.e.main == Failed ==> AccMain in s.quit
  {
    if s.e.main == Failed && s.a.main == AReturned {
      AcceptReturnsAfterReport(k, s);
    }
    hide Routed, Counted, WebsocketsOk, RegisterVars, AcceptVars, ChannelsOk, HandledAfterStage, MainsAfterLibrary;
  }

  /** A device past its start works on a wallet that could be read. */
  lemma StartedMeansReadable(k: Params, s: State, p: Party)
    requires Inv(k, s) && Started(s, p)
    ensures Readable(k)
  {
    hide Routed, Counted, CtrlOf, Gated, AcceptVars, HandledAfterStage, MainsAfterLibrary, StartedBeforeMoving,
         ClosedOk;
  }

  /**
   RegisterDevice returns such an error only after the device is committed, both devices have answered
   and its handler is back, in every run in which that handler does not itself return early.
   */
  lemma RegisterDeviceFailsAfterCommit(k: Params, acts: seq<Action>)
    requires ValidParams(k) && IsRun(k, acts) && After(k, acts).n.main == Failed && Quit(RegMain) !in acts
    ensures var s := After(k, acts); CommittedOnce(k, s) && BothAnswered(s) && s.r.main == RReturned
  {
    hide Enabled, Step, After, ValidParams, IsRun;
    RunKeepsInv(k, acts);
    FailedFollowsHandler(k, After(k, acts));
    if RegMain in After(k, acts).quit {
      StoppedExactlyWhen(k, acts);
    }
    hide Inv, CommittedOnce, BothAnswered;
    RegisterReturnMeansCommitted(k, After(k, acts));
  }

  /** AcceptDevice returns such an error only after its handler has returned early, in every run. */
  lemma AcceptDeviceFailsAfterQuit(k: Params, acts: seq<Action>)
    requires ValidParams(k) && IsRun(k, acts) && After(k, acts).e.main == Failed
    ensures Quit(AccMain) in acts && Readable(k)
  {
    hide Enabled, Step, After, ValidParams, IsRun, Inv;
    RunKeepsInv(k, acts);
    FailedFollowsHandler(k, After(k, acts));
    StoppedExactlyWhen(k, acts);
    StartedMeansReadable(k, After(k, acts), OldDevice);
  }

  // ---- It can happen, whatever the library ----

  /** The new device's main thread has not looked for errors yet, and its reader still reads or has reported one. */
  predicate Lagging(s: State) {
    !DevTssDone(s.n) && s.n.main != Failed && (NewReader in s.dead ==> s.n.errs) && s.quit == {}
  }

  lemma StepLags(k: Params, s: State, act: Action)
    requires Enabled(k, s, act) && !IsFault(act) && Lagging(s)
    requires act != Dev(NewDevice, DTssDone) && act != Dev(NewDevice, DClosed(false))
    ensures Lagging(Step(k, s, act))
  {
    StepOnErrors(k, s, act, NewDevice);
    hide RegisterStep, RegisterEnabled, AcceptStep, AcceptEnabled, LibEnabled, LibraryStep, DeviceStep, DeviceEnabled;
    match act
    case Dev(p, d) => DeviceLags(k, s, p, d);
    case Reg(r) => RegisterOnErrors(k, s, r); RegisterStopsNobody(k, s, r);
    case Acc(a) => AcceptOnErrors(k, s, a); AcceptStopsNobody(k, s, a);
    case LibStep(p, content) => LibraryOnErrors(k, s, p, content); LibraryStopsNobody(k, s, p, content);
    case Cancel(_) =>
  }

  lemma DeviceLags(k: Params, s: State, p: Party, act: DeviceAct)
    requires DeviceEnabled(k, s, p, act) && Lagging(s)
    requires Dev(p, act) != Dev(NewDevice, DTssDone) && Dev(p, act) != Dev(NewDevice, DClosed(false))
    ensures Lagging(DeviceStep(k, s, p, act))
  {
  }

  /** A fault-free run of a readable wallet in which the new device lags. */
  ghost predicate LaggingRun(k: Params, acts: seq<Action>) {
    ValidParams(k) && Readable(k) && IsRun(k, acts) && FaultFree(acts) && Lagging(After(k, acts))
  }

  lemma LaggingState(k: Params, acts: seq<Action>)
    requires LaggingRun(k, acts)
    ensures Unharmed(k, After(k, acts)) && After(k, acts).quit == {}
  {
    hide Inv, ValidParams, Excused, Lagging;
    FaultFreeState(k, acts);
  }

  lemma OneMore(k: Params, acts: seq<Action>, act: Action)
    requires LaggingRun(k, acts) && Enabled(k, After(k, acts), act) && !IsFault(act)
    requires act != Dev(NewDevice, DTssDone) && act != Dev(NewDevice, DClosed(false))
    ensures LaggingRun(k, acts + [act]) && After(k, acts + [act]) == Step(k, After(k, acts), act)
    ensures WorkLeft(k, After(k, acts + [act])) < WorkLeft(k, After(k, acts))
  {
    hide Enabled, Step, ValidParams, Lagging, WorkLeft, IsFault, Inv, Excused, Readable;
    assert (acts + [act])[..|acts|] == acts;
    FaultFreeState(k, acts);
    StepWorks(k, After(k, acts), act);
    StepLags(k, After(k, acts), act);
  }

  /** RegisterDeviceHandler gets home without the new device's main thread. */
  lemma HandlerComesHome(k: Params, acts: seq<Action>) returns (more: seq<Action>)
    requires LaggingRun(k, acts)
    ensures LaggingRun(k, more) && After(k, more).r.main == RReturned
    decreases WorkLeft(k, After(k, acts))
  {
    hide LaggingRun, WorkLeft, Unharmed, Enabled, Step;
    assert IsRun(k, acts) by { RunOf(k, acts); }
    if After(k, acts).r.main == RReturned {
      more := acts;
    } else {
      LaggingState(k, acts);
      var act := RegisterAdvances(k, After(k, acts));
      NotClosedYet(k, After(k, acts), act);
      OneMore(k, acts, act);
      more := HandlerComesHome(k, acts + [act]);
    }
  }

  lemma RunOf(k: Params, acts: seq<Action>)
    requires LaggingRun(k, acts)
    ensures IsRun(k, acts)
  {
  }

  lemma NotClosedYet(k: Params, s: State, act: Action)
    requires Enabled(k, s, act) && s.r.main != RReturned && s.quit == {}
    ensures act != Dev(NewDevice, DClosed(false))
  {
  }

  /** From there the new device reads what is left, meets the closed connection, finishes, and fails. */
  lemma LaggardFails(k: Params, acts: seq<Action>) returns (more: seq<Action>)
    requires LaggingRun(k, acts) && After(k, acts).r.main == RReturned
    ensures IsRun(k, more) && FaultFree(more) && After(k, more).n.main == Failed
    decreases WorkLeft(k, After(k, acts))
  {
    hide WorkLeft, Unharmed, Enabled, Step, ValidParams;
    var s := After(k, acts);
    LaggingState(k, acts);
    var act := LaggardMoves(k, s);
    if act == Dev(NewDevice, DTssDone) {
      more := acts + [act];
      assert more[..|acts|] == acts;
      StepOnErrors(k, s, act, NewDevice);
    } else {
      OneMore(k, acts, act);
      StepOnHandler(k, s, act);
      more := LaggardFails(k, acts + [act]);
    }
  }

  lemma StepOnHandler(k: Params, s: State, act: Action)
    requires Enabled(k, s, act) && (act.Dev? || act.LibStep?)
    ensures Step(k, s, act).r == s.r
  {
    hide Pick, RecvsFrom, SendsTo;
  }

  lemma LaggardMoves(k: Params, s: State) returns (act: Action)
    requires Unharmed(k, s) && Lagging(s) && s.r.main == RReturned
    ensures Enabled(k, s, act) && !IsFault(act) && (act.Dev? || act.LibStep?)
    ensures act != Dev(NewDevice, DClosed(false)) && (act == Dev(NewDevice, DTssDone) ==> s.n.errs)
  {
    hide Inv, ValidParams, Contract, SendsTo, RecvsFrom, Pick;
    LastPhase(k, s);
    if !s.n.errs {
      act := if s.net.newDown != [] then Dev(NewDevice, DRead) else Dev(NewDevice, DClosed(true));
    } else if Finished(k.scripts, s.pos, NewDevice) {
      act := Dev(NewDevice, DTssDone);
    } else {
      act := LibStep(NewDevice, 0);
    }
  }

  /** For every library and every readable wallet some fault-free run commits the device and returns an error. */
  lemma RegisterDeviceCanFail(k: Params)
    requires ValidParams(k) && Readable(k)
    ensures exists acts ::
              IsRun(k, acts) && FaultFree(acts) && After(k, acts).n.main == Failed && CommittedOnce(k, After(k, acts))
  {
    hide ValidParams, CommittedOnce;
    assert After(k, []) == Init();
    var home := HandlerComesHome(k, []);
    var acts := LaggardFails(k, home);
    RegisterDeviceFailsAfterCommit(k, acts);
  }

  /** Some run without faults ends with RegisterDevice returning an error. */
  ghost predicate FailsWithoutFault(k: Params) {
    exists acts :: IsRun(k, acts) && FaultFree(acts) && After(k, acts).n.main == Failed
  }

  /** Without any fault RegisterDevice can return an error exactly when the metadata opens the record. */
  lemma RegisterDeviceFailsIff(k: Params)
    requires ValidParams(k)
    ensures FailsWithoutFault(k) <==> Readable(k)
  {
    hide ValidParams, CommittedOnce, Inv;
    if FailsWithoutFault(k) {
      var acts :| IsRun(k, acts) && FaultFree(acts) && After(k, acts).n.main == Failed;
      RunKeepsInv(k, acts);
      StartedMeansReadable(k, After(k, acts), NewDevice);
    }
    if Readable(k) {
      RegisterDeviceCanFail(k);
    }
  }
}
