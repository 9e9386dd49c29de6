/**
 Every action keeps the invariant of the add-device protocol. One lemma per action; what the
 network and the library do to the invariant is delegated to the lemmas about them.
 */
module AddDeviceSteps {
  import opened AddDevice
  import opened AddDeviceInvariant
  import opened Identities
  import opened Queues
  import opened StarRouting
  import opened TssLibrary
  import opened Wrappers

  ghost predicate ReadyD(k: Params, s: State, p: Party, act: DeviceAct) {
    ValidParams(k) && Inv(k, s) && DeviceEnabled(k, s, p, act)
  }

  ghost predicate ReadyR(k: Params, s: State, act: RegisterAct) {
    ValidParams(k) && Inv(k, s) && RegisterEnabled(k, s, act)
  }

  ghost predicate ReadyA(k: Params, s: State, act: AcceptAct) {
    ValidParams(k) && Inv(k, s) && AcceptEnabled(k, s, act)
  }

  ghost predicate ReadyL(k: Params, s: State, p: Party) {
    ValidParams(k) && Inv(k, s) && LibEnabled(k, s, p)
  }

  // ---- Causal chains ----

  /**
   Once AcceptDeviceHandler has written NewDeviceDone, the new device has acknowledged the
   metadata, and before that the existing device had reported the end of its TSS.
   */
  lemma NewDoneComesLate(k: Params, s: State)
    requires Inv(k, s) && AccWrote(s.a) == 3
    ensures DevReported(s.e) && s.n.got >= 3 && s.r.got == 3
  {
    hide Routed, Counted, CtrlOf, Gated;
  }

  /** A handler that has returned has been answered: the existing device is past its error check. */
  lemma AcceptReturnsAfterReport(k: Params, s: State)
    requires Inv(k, s) && s.a.main == AReturned
    ensures DevReported(s.e) && s.e.got == 3 && s.a.got == 4
  {
    hide Routed, Counted, CtrlOf, Gated, RegisterVars, AcceptVars, ChannelsOk;
  }

  /** The server's library cannot finish before both handlers' readers have set stage 30. */
  lemma ServerDoneMeansStagesSet(k: Params, s: State)
    requires ValidParams(k) && Inv(k, s) && Finished(k.scripts, s.pos, Server)
    ensures RegStageSet(s.r) && AccStageSet(s.a)
  {
    hide Routed, Carries, Pick;
    FinishedHeardEveryone(k.scripts, s.pos, Server, NewDevice);
    FinishedHeardEveryone(k.scripts, s.pos, Server, OldDevice);
    assert PairCounted(k, s.net.sent, s.net.handled, s.pos, NewDevice, Server);
    assert PairCounted(k, s.net.sent, s.net.handled, s.pos, OldDevice, Server);
  }

  /** A main thread that moves has not returned: what the devices have heard stays right. */
  lemma HandlerMoves(s: State, s': State)
    requires ClosedOk(s) && s' == s.(r := s'.r, a := s'.a, ch := s'.ch, net := s'.net, committed := s'.committed)
    requires s'.r.main == s.r.main || (RegMain !in s.dead && s.r.main != RReturned)
    requires s'.a.main == s.a.main || (AccMain !in s.dead && s.a.main != AReturned)
    ensures ClosedOk(s')
  {
  }

  // ---- RegisterDeviceHandler ----

  lemma KeepsRDoPutNewId(k: Params, s: State)
    requires ReadyR(k, s, RDoPutNewId)
    ensures Inv(k, RegisterStep(k, s, RDoPutNewId))
  {
    hide Routed, Counted, Carries, Pick, For, NewDeviceOk, OldDeviceOk, AcceptVars, ValidParams;
  }

  lemma KeepsRDoTakeOldId(k: Params, s: State)
    requires ReadyR(k, s, RDoTakeOldId)
    ensures Inv(k, RegisterStep(k, s, RDoTakeOldId))
  {
    hide Routed, Counted, Carries, Pick, For, NewDeviceOk, OldDeviceOk, AcceptVars, ValidParams;
  }

  lemma RDoTakeMetadataEffect(k: Params, s: State)
    requires ReadyR(k, s, RDoTakeMetadata)
    ensures var s' := RegisterStep(k, s, RDoTakeMetadata);
            && s' == s.(r := s'.r, ch := s'.ch)
            && s'.r == s.r.(reader := s'.r.reader, metadata := s'.r.metadata, adder := s'.r.adder)
            && (s'.r.reader == RPutAdder || s'.r.reader == RGaveUp) && s.r.reader == RTakeMetadata && s.r.got == 2
            && RegisterPc(s'.r) && RegisterVars(k, s'.r, s'.failed) && ChannelsOk(k, s'.ch, s'.r, s'.a)
  {
    hide Routed, Counted, WebsocketsOk, NewDeviceOk, OldDeviceOk, AcceptPc, AcceptVars, HandledAfterStage,
         StartedBeforeMoving, MainsAfterLibrary, ValidParams, ClosedOk;
  }

  lemma KeepsRDoTakeMetadata(k: Params, s: State)
    requires ReadyR(k, s, RDoTakeMetadata)
    ensures Inv(k, RegisterStep(k, s, RDoTakeMetadata))
  {
    hide Routed, Counted, Carries, Pick, For, NewDeviceOk, OldDeviceOk, AcceptPc, AcceptVars, ValidParams, RegisterPc,
         RegisterVars, ChannelsOk, RegisterStep;
    RDoTakeMetadataEffect(k, s);
  }

  lemma KeepsRStart(k: Params, s: State)
    requires ReadyR(k, s, RStart)
    ensures Inv(k, RegisterStep(k, s, RStart))
  {
    hide Routed, Counted, Carries, Pick, For, NewDeviceOk, OldDeviceOk, AcceptVars, ValidParams;
  }

  lemma RDoSetStageEffect(k: Params, s: State)
    requires ReadyR(k, s, RDoSetStage)
    ensures var s' := RegisterStep(k, s, RDoSetStage);
            && s' == s.(r := s.r.(reader := RReading, stage := 30), ch := s'.ch) && s.r.reader == RSetStage
            && ChannelsOk(k, s'.ch, s'.r, s'.a)
  {
    hide Routed, Counted, WebsocketsOk, NewDeviceOk, OldDeviceOk, AcceptVars, RegisterVars, HandledAfterStage,
         StartedBeforeMoving, MainsAfterLibrary, ValidParams, ClosedOk;
  }

  lemma KeepsRDoSetStage(k: Params, s: State)
    requires ReadyR(k, s, RDoSetStage)
    ensures Inv(k, RegisterStep(k, s, RDoSetStage))
  {
    hide Routed, Counted, Carries, Pick, For, NewDeviceOk, OldDeviceOk, AcceptVars, ValidParams, ChannelsOk,
         RegisterStep, RegisterEnabled, LibEnabled;
    RDoSetStageEffect(k, s);
    if Finished(k.scripts, s.pos, Server) {
      ServerDoneMeansStagesSet(k, s);
    }
  }

  lemma KeepsRDoPutNewDone(k: Params, s: State)
    requires ReadyR(k, s, RDoPutNewDone)
    ensures Inv(k, RegisterStep(k, s, RDoPutNewDone))
  {
    hide Routed, Counted, Carries, Pick, For, NewDeviceOk, OldDeviceOk, AcceptVars, ValidParams;
  }

  lemma RTssDoneEffect(k: Params, s: State)
    requires ReadyR(k, s, RTssDone)
    ensures RegisterStep(k, s, RTssDone) == s.(r := s.r.(main := RAwaitOldTss, stage := 40))
    ensures s.r.main == RAwaitTss && RegMain !in s.dead && LibClosed(k, s, Server)
  {
    hide Inv;
  }

  lemma KeepsRTssDone(k: Params, s: State)
    requires ReadyR(k, s, RTssDone)
    ensures Inv(k, RegisterStep(k, s, RTssDone))
  {
    hide Routed, Counted, Carries, Pick, For, NewDeviceOk, OldDeviceOk, AcceptVars, ValidParams, ChanIs, RegisterStep,
         RegisterEnabled, ClosedOk;
    RTssDoneEffect(k, s);
    HandlerMoves(s, RegisterStep(k, s, RTssDone));
  }

  lemma RTakeOldTssEffect(k: Params, s: State)
    requires ReadyR(k, s, RTakeOldTss)
    ensures var s' := RegisterStep(k, s, RTakeOldTss);
            && s' == s.(r := s.r.(main := RWriteMetadata), ch := s'.ch) && s.r.main == RAwaitOldTss
            && ChannelsOk(k, s'.ch, s'.r, s'.a)
  {
    hide Routed, Counted, WebsocketsOk, NewDeviceOk, OldDeviceOk, AcceptVars, RegisterVars, HandledAfterStage,
         StartedBeforeMoving, MainsAfterLibrary, ValidParams, ClosedOk;
  }

  lemma KeepsRTakeOldTss(k: Params, s: State)
    requires ReadyR(k, s, RTakeOldTss)
    ensures Inv(k, RegisterStep(k, s, RTakeOldTss))
  {
    hide Routed, Counted, Carries, Pick, For, NewDeviceOk, OldDeviceOk, AcceptVars, ValidParams, ChannelsOk,
         RegisterStep, RegisterEnabled, LibEnabled;
    RTakeOldTssEffect(k, s);
  }

  lemma RTakeOldDoneEffect(k: Params, s: State)
    requires ReadyR(k, s, RTakeOldDone)
    ensures var s' := RegisterStep(k, s, RTakeOldDone);
            && s' == s.(r := s.r.(main := RWriteDone), ch := s'.ch) && s.r.main == RAwaitOldDone
            && ChannelsOk(k, s'.ch, s'.r, s'.a)
  {
    hide Routed, Counted, WebsocketsOk, NewDeviceOk, OldDeviceOk, AcceptVars, RegisterVars, HandledAfterStage,
         StartedBeforeMoving, MainsAfterLibrary, ValidParams, ClosedOk;
  }

  lemma KeepsRTakeOldDone(k: Params, s: State)
    requires ReadyR(k, s, RTakeOldDone)
    ensures Inv(k, RegisterStep(k, s, RTakeOldDone))
  {
    hide Routed, Counted, Carries, Pick, For, NewDeviceOk, OldDeviceOk, AcceptVars, ValidParams, ChannelsOk,
         RegisterStep, RegisterEnabled, LibEnabled;
    RTakeOldDoneEffect(k, s);
  }

  lemma RExitEffect(k: Params, s: State)
    requires ReadyR(k, s, RExit)
    ensures RegisterStep(k, s, RExit) == s.(r := s.r.(sender := Exited)) && s.r.serverDone && s.r.sender == Sending
  {
    hide Inv;
  }

  lemma KeepsRExit(k: Params, s: State)
    requires ReadyR(k, s, RExit)
    ensures Inv(k, RegisterStep(k, s, RExit))
  {
    hide Routed, Counted, Carries, Pick, For, NewDeviceOk, OldDeviceOk, AcceptVars, ValidParams, ChanIs, RegisterStep,
         RegisterEnabled;
    RExitEffect(k, s);
  }

  // ---- AcceptDeviceHandler ----

  lemma KeepsADoPutOldId(k: Params, s: State)
    requires ReadyA(k, s, ADoPutOldId)
    ensures Inv(k, AcceptStep(k, s, ADoPutOldId))
  {
    hide Routed, Counted, Carries, Pick, For, NewDeviceOk, OldDeviceOk, RegisterVars, ValidParams;
  }

  lemma KeepsADoPutMetadata(k: Params, s: State)
    requires ReadyA(k, s, ADoPutMetadata)
    ensures Inv(k, AcceptStep(k, s, ADoPutMetadata))
  {
    hide Routed, Counted, Carries, Pick, For, NewDeviceOk, OldDeviceOk, RegisterVars, ValidParams;
  }

  lemma KeepsAStart(k: Params, s: State)
    requires ReadyA(k, s, AStart)
    ensures Inv(k, AcceptStep(k, s, AStart))
  {
    hide Routed, Counted, Carries, Pick, For, NewDeviceOk, OldDeviceOk, RegisterVars, ValidParams;
  }

  lemma ADoSetStageEffect(k: Params, s: State)
    requires ReadyA(k, s, ADoSetStage)
    ensures AcceptStep(k, s, ADoSetStage) == s.(a := s.a.(reader := AReading, stage := 30)) && s.a.reader == ASetStage
  {
    hide Inv;
  }

  lemma KeepsADoSetStage(k: Params, s: State)
    requires ReadyA(k, s, ADoSetStage)
    ensures Inv(k, AcceptStep(k, s, ADoSetStage))
  {
    hide Routed, Counted, Carries, Pick, For, NewDeviceOk, OldDeviceOk, RegisterVars, ValidParams, ChanIs, AcceptStep,
         AcceptEnabled;
    ADoSetStageEffect(k, s);
    if Finished(k.scripts, s.pos, Server) {
      ServerDoneMeansStagesSet(k, s);
    }
  }

  lemma KeepsADoPutTssDone(k: Params, s: State)
    requires ReadyA(k, s, ADoPutTssDone)
    ensures Inv(k, AcceptStep(k, s, ADoPutTssDone))
  {
    hide Routed, Counted, Carries, Pick, For, NewDeviceOk, OldDeviceOk, RegisterVars, ValidParams;
  }

  lemma ADoPutOldDoneEffect(k: Params, s: State)
    requires ReadyA(k, s, ADoPutOldDone)
    ensures var s' := AcceptStep(k, s, ADoPutOldDone);
            && s' == s.(a := s.a.(reader := AReading, serverDone := true), ch := s'.ch) && s.a.reader == APutOldDone
            && ChannelsOk(k, s'.ch, s'.r, s'.a)
  {
    hide Routed, Counted, WebsocketsOk, NewDeviceOk, OldDeviceOk, AcceptVars, RegisterVars, HandledAfterStage,
         StartedBeforeMoving, MainsAfterLibrary, ValidParams, ClosedOk;
  }

  lemma KeepsADoPutOldDone(k: Params, s: State)
    requires ReadyA(k, s, ADoPutOldDone)
    ensures Inv(k, AcceptStep(k, s, ADoPutOldDone))
  {
    hide Routed, Counted, Carries, Pick, For, NewDeviceOk, OldDeviceOk, RegisterVars, ValidParams, ChannelsOk,
         AcceptStep, AcceptEnabled, LibEnabled, ClosedOk;
    ADoPutOldDoneEffect(k, s);
    HandlerMoves(s, AcceptStep(k, s, ADoPutOldDone));
  }

  lemma KeepsAProcessed(k: Params, s: State)
    requires ReadyA(k, s, AProcessed)
    ensures Inv(k, AcceptStep(k, s, AProcessed))
  {
    hide Routed, Counted, Carries, Pick, For, NewDeviceOk, OldDeviceOk, RegisterVars, ValidParams;
  }

  lemma ADoTakeAgentEffect(k: Params, s: State)
    requires ReadyA(k, s, ADoTakeAgent)
    ensures var s' := AcceptStep(k, s, ADoTakeAgent);
            && s' == s.(a := s.a.(main := ACommitting, agent := k.agent), ch := s'.ch)
            && s.a.main == ATakeAgent && AccMain !in s.dead
            && ChannelsOk(k, s'.ch, s'.r, s'.a)
  {
    hide Routed, Counted, WebsocketsOk, NewDeviceOk, OldDeviceOk, AcceptVars, RegisterVars, HandledAfterStage,
         StartedBeforeMoving, MainsAfterLibrary, ValidParams, ClosedOk;
  }

  lemma KeepsADoTakeAgent(k: Params, s: State)
    requires ReadyA(k, s, ADoTakeAgent)
    ensures Inv(k, AcceptStep(k, s, ADoTakeAgent))
  {
    hide Routed, Counted, Carries, Pick, For, NewDeviceOk, OldDeviceOk, RegisterVars, ValidParams, ChannelsOk,
         AcceptStep, AcceptEnabled, LibEnabled, ClosedOk;
    ADoTakeAgentEffect(k, s);
    HandlerMoves(s, AcceptStep(k, s, ADoTakeAgent));
  }

  lemma ACommitEffect(k: Params, s: State)
    requires ReadyA(k, s, ACommit)
    ensures var s' := AcceptStep(k, s, ACommit);
            && s' == s.(a := s.a.(main := AAwaitTss), committed := s'.committed)
            && AcceptVars(k, s'.a, s'.committed)
  {
    hide Routed, Counted, WebsocketsOk, ChannelsOk, HandledAfterStage, StartedBeforeMoving, MainsAfterLibrary,
         NewDeviceOk, OldDeviceOk, RegisterPc, RegisterVars, ValidParams;
  }

  lemma KeepsACommit(k: Params, s: State)
    requires ReadyA(k, s, ACommit)
    ensures Inv(k, AcceptStep(k, s, ACommit))
  {
    hide Routed, Counted, Carries, Pick, For, NewDeviceOk, OldDeviceOk, RegisterVars, AcceptVars, ValidParams,
         ChannelsOk, RegisterPc, AcceptStep;
    ACommitEffect(k, s);
    ACommitKeepsChannels(k, s.ch, s.r, s.a, AcceptStep(k, s, ACommit).a);
  }

  lemma ACommitKeepsChannels(k: Params, ch: Channels, r: Register, a: Accept, a': Accept)
    requires ChannelsOk(k, ch, r, a) && a.main == ACommitting && a' == a.(main := AAwaitTss)
    ensures ChannelsOk(k, ch, r, a')
  {
    hide ChanIs;
  }

  lemma ATakeNewDoneEffect(k: Params, s: State)
    requires ReadyA(k, s, ATakeNewDone)
    ensures var s' := AcceptStep(k, s, ATakeNewDone);
            && s' == s.(a := s.a.(main := AWriteNewDone), ch := s'.ch) && s.a.main == AAwaitNewDone
            && ChannelsOk(k, s'.ch, s'.r, s'.a)
  {
    hide Routed, Counted, WebsocketsOk, NewDeviceOk, OldDeviceOk, AcceptVars, RegisterVars, HandledAfterStage,
         StartedBeforeMoving, MainsAfterLibrary, ValidParams, ClosedOk;
  }

  lemma KeepsATakeNewDone(k: Params, s: State)
    requires ReadyA(k, s, ATakeNewDone)
    ensures Inv(k, AcceptStep(k, s, ATakeNewDone))
  {
    hide Routed, Counted, Carries, Pick, For, NewDeviceOk, OldDeviceOk, RegisterVars, ValidParams, ChannelsOk,
         AcceptStep, AcceptEnabled, LibEnabled;
    ATakeNewDoneEffect(k, s);
  }

  lemma KeepsAReturn(k: Params, s: State)
    requires ReadyA(k, s, AReturn)
    ensures Inv(k, AcceptStep(k, s, AReturn))
  {
    hide Routed, Counted, Carries, Pick, For, NewDeviceOk, OldDeviceOk, RegisterVars, ValidParams;
  }

  lemma AExitEffect(k: Params, s: State)
    requires ReadyA(k, s, AExit)
    ensures AcceptStep(k, s, AExit) == s.(a := s.a.(sender := Exited)) && s.a.serverDone && s.a.sender == Sending
  {
    hide Inv;
  }

  lemma KeepsAExit(k: Params, s: State)
    requires ReadyA(k, s, AExit)
    ensures Inv(k, AcceptStep(k, s, AExit))
  {
    hide Routed, Counted, Carries, Pick, For, NewDeviceOk, OldDeviceOk, RegisterVars, ValidParams, ChanIs, AcceptStep,
         AcceptEnabled;
    AExitEffect(k, s);
  }

  // ---- The devices ----

  lemma KeepsDeviceStart(k: Params, s: State, p: Party)
    requires ReadyD(k, s, p, DStart)
    ensures Inv(k, DeviceStep(k, s, p, DStart))
  {
    hide Routed, Counted, Carries, Pick, For, RegisterVars, AcceptVars, ChannelsOk, ValidParams;
  }

  lemma KeepsNewTssDone(k: Params, s: State)
    requires ReadyD(k, s, NewDevice, DTssDone)
    ensures Inv(k, DeviceStep(k, s, NewDevice, DTssDone))
  {
    hide Routed, Counted, Carries, Pick, For, RegisterPc, RegisterVars, AcceptPc, AcceptVars, ChannelsOk, OldDeviceOk,
         ValidParams;
  }

  lemma KeepsOldTssDone(k: Params, s: State)
    requires ReadyD(k, s, OldDevice, DTssDone)
    ensures Inv(k, DeviceStep(k, s, OldDevice, DTssDone))
  {
    hide Routed, Counted, Carries, Pick, For, RegisterPc, RegisterVars, AcceptPc, AcceptVars, ChannelsOk, NewDeviceOk,
         ValidParams;
  }

  lemma KeepsDeviceReturn(k: Params, s: State, p: Party)
    requires ReadyD(k, s, p, DReturn)
    ensures Inv(k, DeviceStep(k, s, p, DReturn))
  {
    hide Routed, Counted, Carries, Pick, For, RegisterVars, AcceptVars, ChannelsOk, ValidParams;
  }

  lemma KeepsDeviceExit(k: Params, s: State, p: Party)
    requires ReadyD(k, s, p, DExit)
    ensures Inv(k, DeviceStep(k, s, p, DExit))
  {
    hide Routed, Counted, Carries, Pick, For, RegisterVars, AcceptVars, ChannelsOk, ValidParams;
  }

  function WithErrs(s: State, p: Party, errs: bool, dead: set<Thread>): State {
    SetDevice(s, p, DeviceOf(s, p).(errs := errs)).(dead := dead)
  }

  /** An error reported after the handler has returned disturbs nothing else. */
  lemma ErrsAreFree(k: Params, s: State, p: Party, errs: bool, dead: set<Thread>)
    requires Inv(k, s) && p != Server && s.dead <= dead && (DeviceOf(s, p).errs ==> errs)
    requires (errs ==> DeviceOf(s, p).errs || HandlerReturned(s, p))
    ensures Inv(k, WithErrs(s, p, errs, dead))
  {
    hide Routed, Counted, Carries, Pick, For, RegisterPc, RegisterVars, AcceptPc, AcceptVars, ChannelsOk, NewScript,
         OldScript, RegScript, AccScript, InScripts;
  }

  lemma KeepsDeviceClosed(k: Params, s: State, p: Party, abrupt: bool)
    requires ReadyD(k, s, p, DClosed(abrupt))
    ensures Inv(k, DeviceStep(k, s, p, DClosed(abrupt)))
  {
    hide Inv, ValidParams;
    ErrsAreFree(k, s, p, DeviceOf(s, p).errs || abrupt, s.dead + {ReaderOf(p)});
  }

  // ---- Control frames written ----

  lemma KeepsRDoPutAgent(k: Params, s: State)
    requires ReadyR(k, s, RDoPutAgent)
    ensures Inv(k, RegisterStep(k, s, RDoPutAgent))
  {
    hide Routed, Counted, Carries, Gated, CtrlOf, TssOf, Pick, For, ValidParams, NewDeviceOk, OldDeviceOk, AcceptVars;
    WriteControl(s.net.newDown, RegScript(k), s.n.got, RegWrote(s.r));
    ControlRouted(s.net, RegisterStep(k, s, RDoPutAgent).net, k.ids);
  }

  lemma KeepsRDoPutAdder(k: Params, s: State)
    requires ReadyR(k, s, RDoPutAdder)
    ensures Inv(k, RegisterStep(k, s, RDoPutAdder))
  {
    hide Routed, Counted, Carries, Gated, CtrlOf, TssOf, Pick, For, ValidParams, NewDeviceOk, OldDeviceOk, AcceptVars;
    WriteControl(s.net.newDown, RegScript(k), s.n.got, RegWrote(s.r));
    ControlRouted(s.net, RegisterStep(k, s, RDoPutAdder).net, k.ids);
  }

  lemma RegisterWriteKeepsChannels(k: Params, ch: Channels, r: Register, a: Accept, r': Register)
    requires ChannelsOk(k, ch, r, a) && r'.got == r.got && r'.reader == r.reader
    requires (r.main == RWriteMetadata && r'.main == RAwaitOldDone) || (r.main == RWriteDone && r'.main == RReturned)
    ensures ChannelsOk(k, ch, r', a)
  {
    hide ChanIs;
  }

  /** What the register handler's two late messages change: its program counter and one websocket. */
  lemma RegisterWriteEffect(k: Params, s: State, act: RegisterAct)
    requires ReadyR(k, s, act) && (act == RDoWriteMetadata || act == RDoWriteDone)
    ensures var s' := RegisterStep(k, s, act);
            && s' == s.(r := s.r.(main := s'.r.main, serverDone := s'.r.serverDone), net := s'.net)
            && s'.net == s.net.WriteDown(NewDevice, RegScript(k)[RegWrote(s.r)])
            && RegWrote(s'.r) == RegWrote(s.r) + 1 && RegWrote(s.r) < 4 == |RegScript(k)|
            && RegisterPc(s'.r) && RegisterVars(k, s'.r, s'.failed)
            && RegMain !in s.dead
            && (act == RDoWriteMetadata ==> s.r.main == RWriteMetadata && s'.r.main == RAwaitOldDone)
            && (act == RDoWriteDone ==> s.r.main == RWriteDone && s'.r.main == RReturned)
  {
    hide Routed, Counted, WebsocketsOk, NewDeviceOk, OldDeviceOk, AcceptPc, AcceptVars, HandledAfterStage,
         StartedBeforeMoving, ValidParams, Contract;
  }

  lemma KeepsRegisterWrite(k: Params, s: State, act: RegisterAct)
    requires ReadyR(k, s, act) && (act == RDoWriteMetadata || act == RDoWriteDone)
    ensures Inv(k, RegisterStep(k, s, act))
  {
    hide Routed, Counted, Carries, Gated, CtrlOf, TssOf, Pick, For, ValidParams, NewDeviceOk, OldDeviceOk, AcceptVars,
         ChannelsOk, AcceptPc, RegisterPc, RegisterVars, RegisterStep, RegisterEnabled, RegScript, RegWrote, LibEnabled,
         Contract, NewScript, OldScript, AccScript, NewWrote, OldWrote, AccWrote, ClosedOk;
    RegisterWriteEffect(k, s, act);
    var s' := RegisterStep(k, s, act);
    HandlerMoves(s, s');
    RegisterWriteKeepsChannels(k, s.ch, s.r, s.a, s'.r);
    WriteControl(s.net.newDown, RegScript(k), s.n.got, RegWrote(s.r));
    assert s'.net == s.net.(newDown := s'.net.newDown);
    ControlRouted(s.net, s'.net, k.ids);
  }

  lemma KeepsADoTakeNewId(k: Params, s: State)
    requires ReadyA(k, s, ADoTakeNewId)
    ensures Inv(k, AcceptStep(k, s, ADoTakeNewId))
  {
    hide Routed, Counted, Carries, Gated, CtrlOf, TssOf, Pick, For, ValidParams, NewDeviceOk, OldDeviceOk, RegisterVars;
    WriteControl(s.net.oldDown, AccScript(k), s.e.got, AccWrote(s.a));
    ControlRouted(s.net, AcceptStep(k, s, ADoTakeNewId).net, k.ids);
  }

  lemma ADoTakeAdderEffect(k: Params, s: State)
    requires ReadyA(k, s, ADoTakeAdder)
    ensures var s' := AcceptStep(k, s, ADoTakeAdder);
            && s' == s.(a := s'.a, ch := s'.ch, net := s.net.WriteDown(OldDevice, MetadataAck))
            && s'.a == s.a.(reader := ASignalling, adder := s'.a.adder) && s.a.reader == ATakeAdder && s.a.got == 2
            && AccWrote(s.a) == 1 && AccWrote(s'.a) == 2
            && AcceptPc(s'.a) && AcceptVars(k, s'.a, s'.committed) && ChannelsOk(k, s'.ch, s'.r, s'.a)
  {
    hide Routed, Counted, WebsocketsOk, NewDeviceOk, OldDeviceOk, RegisterVars, HandledAfterStage,
         StartedBeforeMoving, MainsAfterLibrary, ValidParams, Contract, ClosedOk;
  }

  lemma KeepsADoTakeAdder(k: Params, s: State)
    requires ReadyA(k, s, ADoTakeAdder)
    ensures Inv(k, AcceptStep(k, s, ADoTakeAdder))
  {
    hide Routed, Counted, Carries, Gated, CtrlOf, TssOf, Pick, For, ValidParams, NewDeviceOk, OldDeviceOk, AcceptVars,
         ChannelsOk, AcceptPc, RegisterPc, RegisterVars, AcceptStep;
    ADoTakeAdderEffect(k, s);
    WriteControl(s.net.oldDown, AccScript(k), s.e.got, AccWrote(s.a));
    ControlRouted(s.net, AcceptStep(k, s, ADoTakeAdder).net, k.ids);
  }

  lemma ADoWriteNewDoneEffect(k: Params, s: State)
    requires ReadyA(k, s, ADoWriteNewDone)
    ensures var s' := AcceptStep(k, s, ADoWriteNewDone);
            && s' == s.(a := s.a.(main := AAwaitDone), net := s.net.WriteDown(OldDevice, NewDeviceDone))
            && AccWrote(s'.a) == 3 && AccWrote(s.a) == 2 && |AccScript(k)| == 3 && AccScript(k)[2] == NewDeviceDone
            && AcceptPc(s'.a) && AcceptVars(k, s'.a, s'.committed) && ChannelsOk(k, s'.ch, s'.r, s'.a)
  {
    hide Routed, Counted, WebsocketsOk, NewDeviceOk, OldDeviceOk, RegisterPc, RegisterVars, HandledAfterStage,
         StartedBeforeMoving, ValidParams, Contract, ChanIs;
  }

  lemma KeepsADoWriteNewDone(k: Params, s: State)
    requires ReadyA(k, s, ADoWriteNewDone)
    ensures Inv(k, AcceptStep(k, s, ADoWriteNewDone))
  {
    hide Routed, Counted, Carries, Gated, CtrlOf, TssOf, Pick, For, ValidParams, NewDeviceOk, OldDeviceOk, AcceptVars,
         ChannelsOk, AcceptPc, RegisterPc, RegisterVars, AcceptStep, AccScript, AccWrote;
    ADoWriteNewDoneEffect(k, s);
    WriteControl(s.net.oldDown, AccScript(k), s.e.got, AccWrote(s.a));
    ControlRouted(s.net, AcceptStep(k, s, ADoWriteNewDone).net, k.ids);
  }

  lemma KeepsWriteTssDone(k: Params, s: State)
    requires ReadyD(k, s, OldDevice, DWriteTssDone)
    ensures Inv(k, DeviceStep(k, s, OldDevice, DWriteTssDone))
  {
    hide Routed, Counted, Carries, Gated, CtrlOf, TssOf, Pick, For, ValidParams, RegisterVars, AcceptVars, ChannelsOk;
    WriteControl(s.net.oldUp, OldScript(k), s.a.got, OldWrote(s.e));
    ControlRouted(s.net, DeviceStep(k, s, OldDevice, DWriteTssDone).net, k.ids);
  }

  lemma KeepsNewConnect(k: Params, s: State)
    requires ReadyD(k, s, NewDevice, DConnect)
    ensures Inv(k, DeviceStep(k, s, NewDevice, DConnect))
  {
    hide Routed, Counted, Carries, Gated, CtrlOf, TssOf, Pick, For, RegisterPc, RegisterVars, AcceptPc, AcceptVars,
         ChannelsOk, OldDeviceOk, Contract;
    WriteControl(s.net.newUp, NewScript(k), s.r.got, NewWrote(s.n));
    ControlRouted(s.net, DeviceStep(k, s, NewDevice, DConnect).net, k.ids);
  }

  lemma KeepsOldConnect(k: Params, s: State)
    requires ReadyD(k, s, OldDevice, DConnect)
    ensures Inv(k, DeviceStep(k, s, OldDevice, DConnect))
  {
    hide Routed, Counted, Carries, Gated, CtrlOf, TssOf, Pick, For, RegisterPc, RegisterVars, AcceptPc, AcceptVars,
         ChannelsOk, NewDeviceOk, Contract;
    WriteControl(s.net.oldUp, OldScript(k), s.a.got, OldWrote(s.e));
    ControlRouted(s.net, DeviceStep(k, s, OldDevice, DConnect).net, k.ids);
  }

  lemma ATssDoneEffect(k: Params, s: State)
    requires ReadyA(k, s, ATssDone)
    ensures AcceptStep(k, s, ATssDone) == s.(a := s.a.(main := AAwaitNewDone, stage := 40))
    ensures s.a.main == AAwaitTss && AccMain !in s.dead && LibClosed(k, s, Server)
  {
    hide Inv;
  }

  lemma KeepsATssDone(k: Params, s: State)
    requires ReadyA(k, s, ATssDone)
    ensures Inv(k, AcceptStep(k, s, ATssDone))
  {
    hide Routed, Counted, Carries, Pick, For, NewDeviceOk, OldDeviceOk, RegisterVars, ValidParams, ChanIs, AcceptStep,
         AcceptEnabled, ClosedOk;
    ATssDoneEffect(k, s);
    HandlerMoves(s, AcceptStep(k, s, ATssDone));
  }

  // ---- Frames read ----

  /** A message handed to a library leaves the counting intact. */
  lemma HandledCounted(k: Params, sent: seq<Tss>, handled: seq<Tss>, pos: Pos, m: Tss)
    requires Counted(k, sent, handled, pos)
    ensures Counted(k, sent, handled + [m], pos)
  {
    hide Pick, Produced, Consumed;
    forall f: Party, t: Party | f != t ensures PairCounted(k, sent, handled + [m], pos, f, t) {
      assert PairCounted(k, sent, handled, pos, f, t);
      PickAppend(handled, m, f, k.ids.Of(t));
    }
  }

  /** RegisterDeviceHandler's reader after its next control frame, the next of the device's script. */
  function RegisterNext(k: Params, r: Register): Register {
    if r.got == 0 then r.(got := 1, newId := k.ids.newId, reader := RPutNewId)
    else if r.got == 1 then r.(got := 2, device := k.device, reader := RTakeMetadata)
    else r.(got := 3, reader := RPutNewDone)
  }

  lemma RegisterReadEffect(k: Params, s: State)
    requires ReadyR(k, s, RRead) && s.net.newUp[0].Control?
    ensures s.r.got < 3 && s.r.reader == RReading
    ensures RegisterStep(k, s, RRead) == s.(net := s.net.(newUp := s.net.newUp[1..]), r := RegisterNext(k, s.r))
  {
    hide Routed, Counted, Carries, Gated, CtrlOf, TssOf, Pick, For, ValidParams, NewDeviceOk, OldDeviceOk, AcceptVars,
         ChannelsOk, HandledAfterStage, MainsAfterLibrary, StartedBeforeMoving;
    ReadControl(s.net.newUp, NewScript(k), s.r.got, NewWrote(s.n));
  }

  /** Reading a control frame moves the reader's own counters and nothing the others rely on. */
  lemma RegisterNextOk(k: Params, s: State)
    requires Inv(k, s) && s.r.got < 3 && s.r.reader == RReading
    ensures var r := RegisterNext(k, s.r);
            && RegisterPc(r) && RegisterVars(k, r, s.failed) && ChannelsOk(k, s.ch, r, s.a)
            && RegWrote(r) == RegWrote(s.r) && r.got == s.r.got + 1 && r.main == s.r.main
            && (RegStageSet(s.r) ==> RegStageSet(r)) && (RegPastTss(r) ==> RegPastTss(s.r))
  {
    hide Routed, Counted, Carries, NewDeviceOk, OldDeviceOk, AcceptVars, AcceptPc, WebsocketsOk, HandledAfterStage,
         MainsAfterLibrary, StartedBeforeMoving;
  }

  lemma KeepsRReadControl(k: Params, s: State)
    requires ReadyR(k, s, RRead) && s.net.newUp != [] && s.net.newUp[0].Control?
    ensures Inv(k, RegisterStep(k, s, RRead))
  {
    hide Routed, Counted, Carries, Gated, CtrlOf, TssOf, Pick, For, ValidParams, NewDeviceOk, OldDeviceOk, AcceptVars,
         AcceptPc, RegisterPc, RegisterVars, ChannelsOk, RegisterNext, RegisterStep, RegisterEnabled, Contract;
    RegisterReadEffect(k, s);
    RegisterNextOk(k, s);
    ReadControl(s.net.newUp, NewScript(k), s.r.got, NewWrote(s.n));
    ControlRouted(s.net, s.net.(newUp := s.net.newUp[1..]), k.ids);
  }

  /** AcceptDeviceHandler's reader after its next control frame. */
  function AcceptNext(k: Params, a: Accept): Accept {
    if a.got == 0 then a.(got := 1, oldId := k.ids.oldId, reader := APutOldId)
    else if a.got == 1 then a.(got := 2, metadata := k.metadata, reader := APutMetadata)
    else if a.got == 2 then a.(got := 3, reader := APutTssDone)
    else a.(got := 4, reader := APutOldDone)
  }

  lemma AcceptReadEffect(k: Params, s: State)
    requires ReadyA(k, s, ARead) && s.net.oldUp[0].Control?
    ensures s.a.got < 4 && s.a.reader == AReading
    ensures AcceptStep(k, s, ARead) == s.(net := s.net.(oldUp := s.net.oldUp[1..]), a := AcceptNext(k, s.a))
  {
    hide Routed, Counted, Carries, Gated, CtrlOf, TssOf, Pick, For, ValidParams, NewDeviceOk, OldDeviceOk,
         RegisterVars, ChannelsOk, HandledAfterStage, MainsAfterLibrary, StartedBeforeMoving;
    ReadControl(s.net.oldUp, OldScript(k), s.a.got, OldWrote(s.e));
  }

  lemma AcceptNextOk(k: Params, s: State)
    requires Inv(k, s) && s.a.got < 4 && s.a.reader == AReading
    ensures var a := AcceptNext(k, s.a);
            && AcceptPc(a) && AcceptVars(k, a, s.committed) && ChannelsOk(k, s.ch, s.r, a)
            && AccWrote(a) == AccWrote(s.a) && a.got == s.a.got + 1 && a.main == s.a.main
            && (AccStageSet(s.a) ==> AccStageSet(a))
  {
    hide Routed, Counted, Carries, NewDeviceOk, OldDeviceOk, RegisterVars, RegisterPc, WebsocketsOk,
         HandledAfterStage, MainsAfterLibrary, StartedBeforeMoving;
  }

  lemma KeepsAReadControl(k: Params, s: State)
    requires ReadyA(k, s, ARead) && s.net.oldUp != [] && s.net.oldUp[0].Control?
    ensures Inv(k, AcceptStep(k, s, ARead))
  {
    hide Routed, Counted, Carries, Gated, CtrlOf, TssOf, Pick, For, ValidParams, NewDeviceOk, OldDeviceOk,
         RegisterVars, RegisterPc, AcceptPc, AcceptVars, ChannelsOk, AcceptNext, AcceptStep, AcceptEnabled, Contract;
    AcceptReadEffect(k, s);
    AcceptNextOk(k, s);
    ReadControl(s.net.oldUp, OldScript(k), s.a.got, OldWrote(s.e));
    ControlRouted(s.net, s.net.(oldUp := s.net.oldUp[1..]), k.ids);
  }

  /** What a handler does with a TSS frame: the frame leaves the websocket and nothing else moves. */
  lemma RegisterTssEffect(k: Params, s: State)
    requires s.net.newUp != [] && s.net.newUp[0].TssFrame? && ReadyR(k, s, RRead)
    ensures RegisterStep(k, s, RRead) == s.(net := s.net.PopUp(NewDevice).Handle(Server, SERVER_ID, s.net.newUp[0].m))
    ensures RegStageSet(s.r)
  {
    hide Routed, Counted, Gated, CtrlOf, TssOf, Pick, For, ValidParams, NewDeviceOk, OldDeviceOk, ChannelsOk,
         AcceptVars, HandledAfterStage, MainsAfterLibrary, StartedBeforeMoving;
    ReadTss(s.net.newUp, NewScript(k), s.r.got, NewWrote(s.n));
  }

  /** Stage 30 is set and the adder is there when the handler reads a TSS frame. */
  lemma AcceptReadyForTss(k: Params, s: State)
    requires Inv(k, s) && s.a.reader == AReading && s.net.oldUp != [] && s.net.oldUp[0].TssFrame?
    ensures AccStageSet(s.a) && s.a.adder.Some? && s.a.stage <= 40
  {
    hide Routed, Counted, Gated, CtrlOf, TssOf, Pick, For, ValidParams, NewDeviceOk, OldDeviceOk, ChannelsOk,
         RegisterVars, HandledAfterStage, MainsAfterLibrary, StartedBeforeMoving;
    ReadTss(s.net.oldUp, OldScript(k), s.a.got, OldWrote(s.e));
  }

  lemma AcceptTssEffect(k: Params, s: State)
    requires AcceptEnabled(k, s, ARead) && s.net.oldUp[0].TssFrame? && s.a.adder.Some? && s.a.stage <= 40
    ensures AcceptStep(k, s, ARead) == s.(net := s.net.PopUp(OldDevice).Handle(Server, SERVER_ID, s.net.oldUp[0].m))
  {
  }

  /** A TSS frame reaching the server keeps the invariant, whichever handler reads it. */
  lemma KeepsServerTss(k: Params, s: State, p: Party)
    requires ValidParams(k) && Inv(k, s) && p != Server && s.net.Up(p) != [] && s.net.Up(p)[0].TssFrame?
    requires if p == NewDevice then RegStageSet(s.r) else AccStageSet(s.a)
    ensures Inv(k, s.(net := s.net.PopUp(p).Handle(Server, SERVER_ID, s.net.Up(p)[0].m)))
  {
    hide Routed, Counted, Carries, Gated, CtrlOf, TssOf, Pick, For, OnTheWay, NewDeviceOk, OldDeviceOk, ChannelsOk,
         RegisterVars, AcceptVars, RegisterPc, AcceptPc, Contract;
    var m := s.net.Up(p)[0].m;
    ServerHandleRouted(s.net, k.ids, p);
    HandledCounted(k, s.net.sent, s.net.handled, s.pos, m);
    FromItsDevice(s.net, k.ids, p);
    PickAppend(s.net.handled, m, NewDevice, SERVER_ID);
    PickAppend(s.net.handled, m, OldDevice, SERVER_ID);
    if p == NewDevice {
      ReadTss(s.net.newUp, NewScript(k), s.r.got, NewWrote(s.n));
    } else {
      ReadTss(s.net.oldUp, OldScript(k), s.a.got, OldWrote(s.e));
    }
  }

  /** What climbs a device's websocket was produced by that device. */
  lemma FromItsDevice(net: Net<Ctrl>, ids: Ids, p: Party)
    requires Routed(net, ids) && p != Server && net.Up(p) != [] && net.Up(p)[0].TssFrame?
    ensures net.Up(p)[0].m.body.from == p
  {
    FrameHead(net.Up(p));
    assert net.Up(p)[0].m in TssOf(net.Up(p));
  }

  /** What descends to a device is addressed to it. */
  lemma ToItsDevice(net: Net<Ctrl>, ids: Ids, p: Party)
    requires Routed(net, ids) && p != Server && net.Down(p) != [] && net.Down(p)[0].TssFrame?
    ensures net.Down(p)[0].m.peerID == ids.Of(p)
  {
    FrameHead(net.Down(p));
    assert net.Down(p)[0].m in TssOf(net.Down(p));
  }

  /** RegisterDevice's reader after its next control frame, the next of the handler's script. */
  function NewNext(k: Params, n: Device): Device {
    if n.got == 0 then n.(got := 1, otherId := k.ids.oldId)
    else if n.got == 1 then n.(got := 2, adder := Some(NewAdder(k)), reader := Signalling)
    else if n.got == 2 then n.(got := 3, metadata := k.metadata)
    else n.(got := 4, serverDone := true)
  }

  lemma NewReadEffect(k: Params, s: State)
    requires ReadyD(k, s, NewDevice, DRead) && s.net.newDown[0].Control?
    ensures s.n.got < 4 && NewDeviceOk(k, NewNext(k, s.n))
    ensures var answers := s.n.got == 0 || s.n.got == 2;
            && (answers ==> NewWrote(s.n) < |NewScript(k)|)
            && NewWrote(NewNext(k, s.n)) == NewWrote(s.n) + (if answers then 1 else 0)
            && DeviceStep(k, s, NewDevice, DRead)
               == s.(n := NewNext(k, s.n),
                     net := if answers then s.net.PopDown(NewDevice).WriteUp(NewDevice, NewScript(k)[NewWrote(s.n)])
                            else s.net.PopDown(NewDevice))
  {
    hide Routed, Counted, Carries, Gated, CtrlOf, TssOf, Pick, For, ValidParams, OldDeviceOk, RegisterPc,
         RegisterVars, AcceptPc, AcceptVars, ChannelsOk, HandledAfterStage, StartedBeforeMoving, MainsAfterLibrary,
         ClosedOk;
    ReadControl(s.net.newDown, RegScript(k), s.n.got, RegWrote(s.r));
  }

  lemma KeepsNewReadControl(k: Params, s: State)
    requires ReadyD(k, s, NewDevice, DRead) && s.net.newDown != [] && s.net.newDown[0].Control?
    ensures Inv(k, DeviceStep(k, s, NewDevice, DRead))
  {
    hide Routed, Counted, Carries, Gated, CtrlOf, TssOf, Pick, For, NewDeviceOk, OldDeviceOk, RegisterPc,
         RegisterVars, AcceptPc, AcceptVars, ChannelsOk, DeviceStep, DeviceEnabled, NewScript, Contract;
    NewReadEffect(k, s);
    ReadControl(s.net.newDown, RegScript(k), s.n.got, RegWrote(s.r));
    if s.n.got == 0 || s.n.got == 2 {
      WriteControl(s.net.newUp, NewScript(k), s.r.got, NewWrote(s.n));
    }
    ControlRouted(s.net, DeviceStep(k, s, NewDevice, DRead).net, k.ids);
  }

  /** AcceptDevice's reader after its next control frame. */
  function OldNext(k: Params, e: Device): Device {
    if e.got == 0 then e.(got := 1, otherId := k.ids.newId)
    else if e.got == 1 then e.(got := 2, adder := Some(OldAdder(k)), reader := Signalling)
    else e.(got := 3, serverDone := true)
  }

  lemma OldReadEffect(k: Params, s: State)
    requires ReadyD(k, s, OldDevice, DRead) && s.net.oldDown[0].Control?
    ensures s.e.got < 3 && OldDeviceOk(k, OldNext(k, s.e))
    ensures var answers := s.e.got == 0 || s.e.got == 2;
            && (answers ==> OldWrote(s.e) < |OldScript(k)|)
            && OldWrote(OldNext(k, s.e)) == OldWrote(s.e) + (if answers then 1 else 0)
            && DeviceStep(k, s, OldDevice, DRead)
               == s.(e := OldNext(k, s.e),
                     net := if answers then s.net.PopDown(OldDevice).WriteUp(OldDevice, OldScript(k)[OldWrote(s.e)])
                            else s.net.PopDown(OldDevice))
  {
    hide Routed, Counted, WebsocketsOk, Carries, Gated, CtrlOf, TssOf, Pick, For, ValidParams, NewDeviceOk,
         RegisterPc, RegisterVars, AcceptPc, AcceptVars, ChannelsOk, HandledAfterStage, StartedBeforeMoving,
         MainsAfterLibrary, ClosedOk;
    ReadControlOld(k, s);
  }

  lemma ReadControlOld(k: Params, s: State)
    requires Inv(k, s) && s.net.oldDown != [] && s.net.oldDown[0].Control?
    ensures s.e.got < |AccScript(k)| && s.net.oldDown[0].c == AccScript(k)[s.e.got]
    ensures s.e.got == 2 ==> DevReported(s.e)
  {
    hide Routed, Counted, Carries, Gated, CtrlOf, TssOf, Pick, For, NewDeviceOk, RegisterPc, RegisterVars, AcceptVars,
         ChannelsOk;
    ReadControl(s.net.oldDown, AccScript(k), s.e.got, AccWrote(s.a));
    if s.e.got == 2 {
      NewDoneComesLate(k, s);
    }
  }

  lemma KeepsOldReadControl(k: Params, s: State)
    requires ReadyD(k, s, OldDevice, DRead) && s.net.oldDown != [] && s.net.oldDown[0].Control?
    ensures Inv(k, DeviceStep(k, s, OldDevice, DRead))
  {
    hide Routed, Counted, Carries, Gated, CtrlOf, TssOf, Pick, For, NewDeviceOk, OldDeviceOk, RegisterPc,
         RegisterVars, AcceptPc, AcceptVars, ChannelsOk, DeviceStep, DeviceEnabled, OldScript, Contract;
    OldReadEffect(k, s);
    ReadControl(s.net.oldDown, AccScript(k), s.e.got, AccWrote(s.a));
    if s.e.got == 0 || s.e.got == 2 {
      WriteControl(s.net.oldUp, OldScript(k), s.a.got, OldWrote(s.e));
    }
    ControlRouted(s.net, DeviceStep(k, s, OldDevice, DRead).net, k.ids);
  }

  /** What a device does with a TSS frame. */
  lemma DeviceTssEffect(k: Params, s: State, p: Party)
    requires ReadyD(k, s, p, DRead) && s.net.Down(p)[0].TssFrame?
    ensures DeviceStep(k, s, p, DRead) == s.(net := s.net.PopDown(p).Handle(p, k.ids.Of(p), s.net.Down(p)[0].m))
  {
    hide Routed, Counted, Gated, CtrlOf, TssOf, Pick, For, ValidParams, ChannelsOk, RegisterVars, AcceptVars;
    if p == NewDevice {
      ReadTss(s.net.newDown, RegScript(k), s.n.got, RegWrote(s.r));
    } else {
      ReadTss(s.net.oldDown, AccScript(k), s.e.got, AccWrote(s.a));
    }
  }

  lemma KeepsDeviceReadTss(k: Params, s: State, p: Party)
    requires ReadyD(k, s, p, DRead) && p != Server && s.net.Down(p) != [] && s.net.Down(p)[0].TssFrame?
    ensures Inv(k, DeviceStep(k, s, p, DRead))
  {
    hide Routed, Counted, Carries, Gated, CtrlOf, TssOf, Pick, For, DeviceStep, DeviceEnabled, OnTheWay, NewDeviceOk,
         OldDeviceOk, ChannelsOk, RegisterVars, AcceptVars, RegisterPc, AcceptPc, Contract;
    DeviceTssEffect(k, s, p);
    var m := s.net.Down(p)[0].m;
    DeviceHandleRouted(s.net, k.ids, p);
    HandledCounted(k, s.net.sent, s.net.handled, s.pos, m);
    ToItsDevice(s.net, k.ids, p);
    PickAppend(s.net.handled, m, NewDevice, SERVER_ID);
    PickAppend(s.net.handled, m, OldDevice, SERVER_ID);
    if p == NewDevice {
      ReadTss(s.net.newDown, RegScript(k), s.n.got, RegWrote(s.r));
    } else {
      ReadTss(s.net.oldDown, AccScript(k), s.e.got, AccWrote(s.a));
    }
  }

  // ---- Senders ----

  lemma KeepsDeviceSend(k: Params, s: State, p: Party)
    requires ReadyD(k, s, p, DSend)
    ensures Inv(k, DeviceStep(k, s, p, DSend))
  {
    hide Routed, Counted, Carries, Gated, CtrlOf, TssOf, Pick, For, ValidParams, RegisterVars, AcceptVars, ChannelsOk;
    FlushRouted(s.net, k.ids, p);
    if p == NewDevice {
      WriteTss(s.net.newUp, NewScript(k), s.r.got, NewWrote(s.n), s.net.newQ[0]);
    } else {
      WriteTss(s.net.oldUp, OldScript(k), s.a.got, OldWrote(s.e), s.net.oldQ[0]);
    }
  }

  lemma KeepsDeviceSendFails(k: Params, s: State, p: Party)
    requires ReadyD(k, s, p, DSendFails)
    ensures Inv(k, DeviceStep(k, s, p, DSendFails))
  {
    hide Inv, ValidParams;
    KeepsDeviceSend(k, s, p);
    ErrsAreFree(k, DeviceStep(k, s, p, DSend), p, true, s.dead + {SenderOf(p)});
  }

  lemma KeepsRSend(k: Params, s: State)
    requires ReadyR(k, s, RSend)
    ensures Inv(k, RegisterStep(k, s, RSend))
  {
    hide Routed, Counted, Carries, Gated, CtrlOf, TssOf, Pick, For, DropFirst, Contract, NewDeviceOk, OldDeviceOk,
         AcceptVars, ChannelsOk;
    assert s.r.newId == k.ids.newId;
    ForwardRouted(s.net, k.ids, NewDevice);
    WriteTss(s.net.newDown, RegScript(k), s.n.got, RegWrote(s.r), For(s.net.srvQ, s.r.newId)[0]);
  }

  lemma KeepsASend(k: Params, s: State)
    requires ReadyA(k, s, ASend)
    ensures Inv(k, AcceptStep(k, s, ASend))
  {
    hide Routed, Counted, Carries, Gated, CtrlOf, TssOf, Pick, For, DropFirst, Contract, NewDeviceOk, OldDeviceOk,
         RegisterVars, ChannelsOk;
    assert s.a.oldId == k.ids.oldId;
    ForwardRouted(s.net, k.ids, OldDevice);
    WriteTss(s.net.oldDown, AccScript(k), s.e.got, AccWrote(s.a), For(s.net.srvQ, s.a.oldId)[0]);
  }

  // ---- The library ----

  lemma SendCounted(k: Params, sent: seq<Tss>, handled: seq<Tss>, pos: Pos, p: Party, q: Party, content: nat)
    requires ValidParams(k) && Counted(k, sent, handled, pos)
    requires pos.At(p) < |k.scripts.At(p)| && k.scripts.At(p)[pos.At(p)] == Send(q)
    ensures Counted(k, sent + [Message(k.ids.Of(q), Payload(p, content))], handled, pos.Advance(p))
  {
    hide Pick, SendsTo, RecvsFrom, Contract;
    var m := Message(k.ids.Of(q), Payload(p, content));
    forall f: Party, t: Party | f != t
      ensures InScripts(k.scripts, pos.Advance(p)) && PairCounted(k, sent + [m], handled, pos.Advance(p), f, t)
    {
      assert PairCounted(k, sent, handled, pos, f, t);
      PickAppend(sent, m, f, k.ids.Of(t));
      CountStep(k.scripts.At(p), pos.At(p), t);
      CountStep(k.scripts.At(p), pos.At(p), f);
      assert k.ids.Of(q) == k.ids.Of(t) <==> q == t;
    }
  }

  lemma RecvCounted(k: Params, sent: seq<Tss>, handled: seq<Tss>, pos: Pos, p: Party, q: Party)
    requires Counted(k, sent, handled, pos)
    requires pos.At(p) < |k.scripts.At(p)| && k.scripts.At(p)[pos.At(p)] == Recv(q)
    requires |Pick(handled, q, k.ids.Of(p))| > Consumed(k.scripts, pos, q, p)
    ensures Counted(k, sent, handled, pos.Advance(p))
  {
    hide Pick, SendsTo, RecvsFrom;
    forall f: Party, t: Party | f != t
      ensures InScripts(k.scripts, pos.Advance(p)) && PairCounted(k, sent, handled, pos.Advance(p), f, t)
    {
      assert PairCounted(k, sent, handled, pos, f, t);
      CountStep(k.scripts.At(p), pos.At(p), t);
      CountStep(k.scripts.At(p), pos.At(p), f);
    }
  }

  /** A library always addresses the party it means: the ids its adder was built with are right. */
  lemma TargetsAreRight(k: Params, s: State, p: Party, q: Party)
    requires Inv(k, s) && Started(s, p) && p != q
    ensures TargetId(s, p, q) == k.ids.Of(q)
  {
    hide Routed, Counted, Carries, Gated, CtrlOf, TssOf, Pick, ChannelsOk;
  }

  lemma KeepsLibStep(k: Params, s: State, p: Party, content: nat)
    requires ReadyL(k, s, p)
    ensures Inv(k, LibraryStep(k, s, p, content))
  {
    hide Routed, Counted, Carries, Gated, CtrlOf, TssOf, Pick, For, NewDeviceOk, OldDeviceOk, ChannelsOk,
         RegisterVars, AcceptVars, RegisterPc, AcceptPc, SendsTo, RecvsFrom;
    match k.scripts.At(p)[s.pos.At(p)]
    case Send(q) =>
      assert p != q;
      TargetsAreRight(k, s, p, q);
      SendRouted(s.net, k.ids, p, q, content);
      SendCounted(k, s.net.sent, s.net.handled, s.pos, p, q, content);
    case Recv(f) =>
      RecvCounted(k, s.net.sent, s.net.handled, s.pos, p, f);
  }

  // ---- Faults and cancelled threads ----

  lemma KeepsStop(k: Params, s: State, act: Action)
    requires ValidParams(k) && Inv(k, s) && Enabled(k, s, act) && (IsFault(act) || act.Cancel?)
    ensures Inv(k, Step(k, s, act))
  {
    hide Routed, Counted, Carries, Pick, For, ValidParams, NewDeviceOk, OldDeviceOk, AcceptVars, ChannelsOk;
  }

  // ---- Every step of every run ----

  lemma DeviceKeepsInv(k: Params, s: State, p: Party, act: DeviceAct)
    requires ReadyD(k, s, p, act)
    ensures Inv(k, DeviceStep(k, s, p, act))
  {
    hide Inv, DeviceStep, ValidParams;
    match act
    case DConnect => if p == NewDevice { KeepsNewConnect(k, s); } else { KeepsOldConnect(k, s); }
    case DRead =>
      if s.net.Down(p)[0].TssFrame? { KeepsDeviceReadTss(k, s, p); }
      else if p == NewDevice { KeepsNewReadControl(k, s); }
      else { KeepsOldReadControl(k, s); }
    case DStart => KeepsDeviceStart(k, s, p);
    case DTssDone => if p == NewDevice { KeepsNewTssDone(k, s); } else { KeepsOldTssDone(k, s); }
    case DWriteTssDone => KeepsWriteTssDone(k, s);
    case DReturn => KeepsDeviceReturn(k, s, p);
    case DSend => KeepsDeviceSend(k, s, p);
    case DExit => KeepsDeviceExit(k, s, p);
    case DClosed(abrupt) => KeepsDeviceClosed(k, s, p, abrupt);
    case DSendFails => KeepsDeviceSendFails(k, s, p);
  }

  lemma RegisterKeepsInv(k: Params, s: State, act: RegisterAct)
    requires ReadyR(k, s, act)
    ensures Inv(k, RegisterStep(k, s, act))
  {
    hide Inv, RegisterStep, ValidParams;
    match act
    case RRead =>
      if s.net.newUp[0].TssFrame? { RegisterTssEffect(k, s); KeepsServerTss(k, s, NewDevice); }
      else { KeepsRReadControl(k, s); }
    case RDoPutNewId => KeepsRDoPutNewId(k, s);
    case RDoTakeOldId => KeepsRDoTakeOldId(k, s);
    case RDoPutAgent => KeepsRDoPutAgent(k, s);
    case RDoTakeMetadata => KeepsRDoTakeMetadata(k, s);
    case RDoPutAdder => KeepsRDoPutAdder(k, s);
    case RStart => KeepsRStart(k, s);
    case RDoSetStage => KeepsRDoSetStage(k, s);
    case RDoPutNewDone => KeepsRDoPutNewDone(k, s);
    case RTssDone => KeepsRTssDone(k, s);
    case RTakeOldTss => KeepsRTakeOldTss(k, s);
    case RDoWriteMetadata => KeepsRegisterWrite(k, s, act);
    case RTakeOldDone => KeepsRTakeOldDone(k, s);
    case RDoWriteDone => KeepsRegisterWrite(k, s, act);
    case RSend => KeepsRSend(k, s);
    case RExit => KeepsRExit(k, s);
  }

  lemma AcceptKeepsInv(k: Params, s: State, act: AcceptAct)
    requires ReadyA(k, s, act)
    ensures Inv(k, AcceptStep(k, s, act))
  {
    hide Inv, AcceptStep, ValidParams;
    match act
    case ARead =>
      if s.net.oldUp[0].TssFrame? {
        AcceptReadyForTss(k, s);
        AcceptTssEffect(k, s);
        KeepsServerTss(k, s, OldDevice);
      } else { KeepsAReadControl(k, s); }
    case ADoPutOldId => KeepsADoPutOldId(k, s);
    case ADoTakeNewId => KeepsADoTakeNewId(k, s);
    case ADoPutMetadata => KeepsADoPutMetadata(k, s);
    case ADoTakeAdder => KeepsADoTakeAdder(k, s);
    case AStart => KeepsAStart(k, s);
    case ADoSetStage => KeepsADoSetStage(k, s);
    case ADoPutTssDone => KeepsADoPutTssDone(k, s);
    case ADoPutOldDone => KeepsADoPutOldDone(k, s);
    case AProcessed => KeepsAProcessed(k, s);
    case ADoTakeAgent => KeepsADoTakeAgent(k, s);
    case ACommit => KeepsACommit(k, s);
    case ATssDone => KeepsATssDone(k, s);
    case ATakeNewDone => KeepsATakeNewDone(k, s);
    case ADoWriteNewDone => KeepsADoWriteNewDone(k, s);
    case AReturn => KeepsAReturn(k, s);
    case ASend => KeepsASend(k, s);
    case AExit => KeepsAExit(k, s);
  }

  /** Whatever happens next, a fault included, the invariant survives. */
  lemma StepKeepsInv(k: Params, s: State, act: Action)
    requires ValidParams(k) && Inv(k, s) && Enabled(k, s, act)
    ensures Inv(k, Step(k, s, act))
  {
    hide Inv, ValidParams, DeviceStep, DeviceEnabled, RegisterStep, RegisterEnabled, AcceptStep, AcceptEnabled,
         LibraryStep, LibEnabled;
    match act
    case Dev(p, d) => DeviceKeepsInv(k, s, p, d);
    case Reg(r) => RegisterKeepsInv(k, s, r);
    case Acc(a) => AcceptKeepsInv(k, s, a);
    case LibStep(p, content) => KeepsLibStep(k, s, p, content);
    case Cancel(_) => KeepsStop(k, s, act);
    case Kill(_) => KeepsStop(k, s, act);
    case Quit(_) => KeepsStop(k, s, act);
    case LibFail(_) => KeepsStop(k, s, act);
  }

  /** The invariant holds after every run. */
  lemma {:induction false} RunKeepsInv(k: Params, acts: seq<Action>)
    requires ValidParams(k) && IsRun(k, acts)
    ensures Inv(k, After(k, acts))
  {
    hide Inv, Step, Enabled, ValidParams;
    if acts == [] {
      InitInv(k);
    } else {
      RunKeepsInv(k, acts[..|acts| - 1]);
      StepKeepsInv(k, After(k, acts[..|acts| - 1]), acts[|acts| - 1]);
    }
  }
}
