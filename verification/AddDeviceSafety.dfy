/**
 What every run of the add-device protocol guarantees, faults included: success is reported only
 after the commit, the processes agree on the session, channels and adders are used once, and
 stages only grow.
 */
module AddDeviceSafety {
  import opened StarRouting
  import opened TssLibrary
  import opened AddDevice
  import opened AddDeviceInvariant
  import opened AddDeviceProgress
  import opened AddDeviceSteps
  import opened Wrappers

  /**
   The vault holds exactly one new peer: this run's new device, in the extended wallet, under the
   existing metadata.
   */
  predicate CommittedOnce(k: Params, s: State) {
    && Readable(k)
    && s.committed == [Commit(k.ids.newId, k.metadata, k.agent, k.merged(k.retrieve(k.metadata).value, k.ids.newId))]
  }

  /** The existing device has answered NewDeviceDone; the new device has acknowledged its metadata. */
  predicate BothAnswered(s: State) {
    s.e.got == 3 && s.e.serverDone && s.r.got == 3
  }

  /**
   If RegisterDevice passes `<-serverDone`, AddPeer has committed this device, the existing device
   has answered, the metadata has been acknowledged and is the one AcceptDevice supplied.
   */
  lemma RegisterDeviceReturnsAfterCommit(k: Params, acts: seq<Action>)
    requires ValidParams(k) && IsRun(k, acts) && After(k, acts).n.main == Returned
    ensures var s := After(k, acts);
            && CommittedOnce(k, s) && BothAnswered(s)
            && s.n.metadata == k.metadata
            && (forall p: Party :: LibDone(k, s, p))
  {
    hide Enabled, Step, After, Contract, IsRun;
    RunKeepsInv(k, acts);
    ReturnMeansCommitted(k, After(k, acts));
  }

  /** If AcceptDevice passes `<-serverDone`, the same commit has happened and both devices have answered. */
  lemma AcceptDeviceReturnsAfterCommit(k: Params, acts: seq<Action>)
    requires ValidParams(k) && IsRun(k, acts) && After(k, acts).e.main == Returned
    ensures var s := After(k, acts); CommittedOnce(k, s) && BothAnswered(s)
  {
    hide Enabled, Step, After, Contract, IsRun;
    RunKeepsInv(k, acts);
    AcceptReturnMeansCommitted(k, After(k, acts));
  }

  /** AcceptDeviceHandler announces the new device only after the commit. */
  lemma NewDoneMeansCommitted(k: Params, s: State)
    requires Inv(k, s) && AccWrote(s.a) == 3
    ensures CommittedOnce(k, s)
  {
    hide Routed, Counted, WebsocketsOk, NewDeviceOk, OldDeviceOk, HandledAfterStage, MainsAfterLibrary,
         StartedBeforeMoving, ClosedOk;
  }

  lemma AcceptReturnMeansCommitted(k: Params, s: State)
    requires Inv(k, s) && s.e.main == Returned
    ensures CommittedOnce(k, s) && BothAnswered(s)
  {
    hide Routed, Counted, CtrlOf, Gated, RegisterVars, AcceptVars, ChannelsOk, HandledAfterStage, MainsAfterLibrary,
         StartedBeforeMoving, CommittedOnce;
    NewDoneComesLate(k, s);
    NewDoneMeansCommitted(k, s);
  }

  lemma RegisterReturnMeansCommitted(k: Params, s: State)
    requires Inv(k, s) && s.r.main == RReturned
    ensures CommittedOnce(k, s) && BothAnswered(s)
  {
    hide Inv, CommittedOnce;
    LastCounts(k, s);
    NewDoneMeansCommitted(k, s);
    LastAnswers(k, s);
  }

  lemma LastAnswers(k: Params, s: State)
    requires Inv(k, s) && s.r.main == RReturned && s.e.got == 3 && s.r.got == 3
    ensures BothAnswered(s)
  {
    hide Routed, Counted, WebsocketsOk, RegisterVars, AcceptVars, ChannelsOk, HandledAfterStage, MainsAfterLibrary,
         StartedBeforeMoving;
  }

  lemma ReturnMeansCommitted(k: Params, s: State)
    requires Inv(k, s) && s.n.main == Returned
    ensures CommittedOnce(k, s) && BothAnswered(s) && s.n.metadata == k.metadata
    ensures forall p: Party :: LibDone(k, s, p)
  {
    ReturnFollowsHandler(k, s);
    hide Inv, CommittedOnce;
    RegisterReturnMeansCommitted(k, s);
    LastCounts(k, s);
    forall p: Party ensures LibDone(k, s, p) {
      match p case NewDevice => case OldDevice => case Server =>
    }
  }

  lemma ReturnFollowsHandler(k: Params, s: State)
    requires Inv(k, s) && s.n.main == Returned
    ensures s.r.main == RReturned && s.n.metadata == k.metadata && LibDone(k, s, NewDevice)
    ensures LibDone(k, s, OldDevice)
  {
    hide Routed, Counted, CtrlOf, Gated, RegisterVars, AcceptVars, ChannelsOk, HandledAfterStage, StartedBeforeMoving;
    if s.r.main == RReturned {
      LastCounts(k, s);
    }
  }

  // ---- Agreement ----

  /** Every process that takes part in TSS knows the same pair of devices. */
  predicate AgreeOnDevices(k: Params, s: State) {
    && s.n.otherId == k.ids.oldId && s.e.otherId == k.ids.newId
    && s.r.newId == k.ids.newId && s.r.oldId == k.ids.oldId
    && s.a.newId == k.ids.newId && s.a.oldId == k.ids.oldId
  }

  /**
   The server's adder works on the record the metadata opens; the new device's, once it is there, starts
   from that record's key text and its whole parameter map; the existing device's from its own wallet.
   */
  predicate AdderFromRecord(k: Params, s: State) {
    && s.r.adder.Some? && k.retrieve(k.metadata) == Some(s.r.adder.value.wallet)
    && s.r.adder.value.newId == k.ids.newId && s.r.adder.value.oldId == k.ids.oldId
    && (s.a.adder.Some? ==> s.a.adder == s.r.adder)
    && |s.ch.adder.log| == 1
  }

  predicate NewAdderFromRecord(k: Params, s: State) {
    s.n.adder.Some? ==>
      && k.retrieve(k.metadata).Some?
      && s.n.adder.value.otherId == k.ids.oldId
      && s.n.adder.value.publicKey.x == k.retrieve(k.metadata).value.pubkey.x
      && s.n.adder.value.publicKey.y == k.retrieve(k.metadata).value.pubkey.y
      && s.n.adder.value.bks == k.retrieve(k.metadata).value.bks
  }

  predicate OldAdderFromLocal(k: Params, s: State) {
    s.e.adder.Some? ==>
      && s.e.adder.value.otherId == k.ids.newId
      && s.e.adder.value.publicKey.x == k.local.pubkey.x && s.e.adder.value.publicKey.y == k.local.pubkey.y
      && s.e.adder.value.share == k.local.share && s.e.adder.value.bks == k.local.bks
  }

  /**
   Once any library runs, all four processes agree on the two devices, the handlers share one adder, the
   metadata the server works with is the existing device's, and every adder is built from the wallet it
   should be; a device whose library runs has its adder.
   */
  lemma SessionAgreement(k: Params, acts: seq<Action>, p: Party)
    requires ValidParams(k) && IsRun(k, acts) && Started(After(k, acts), p)
    ensures var s := After(k, acts);
            && AgreeOnDevices(k, s)
            && AdderFromRecord(k, s) && NewAdderFromRecord(k, s) && OldAdderFromLocal(k, s)
            && (Started(s, NewDevice) ==> s.n.adder.Some?) && (Started(s, OldDevice) ==> s.e.adder.Some?)
            && (Started(s, Server) ==> s.a.adder.Some?)
            && s.r.metadata == s.a.metadata == k.metadata && s.r.device == k.device
  {
    hide Enabled, Step, After, IsRun, ValidParams;
    RunKeepsInv(k, acts);
    StartedAgrees(k, After(k, acts), p);
  }

  lemma StartedAgrees(k: Params, s: State, p: Party)
    requires Inv(k, s) && Started(s, p)
    ensures AgreeOnDevices(k, s)
    ensures AdderFromRecord(k, s) && NewAdderFromRecord(k, s) && OldAdderFromLocal(k, s)
    ensures (Started(s, NewDevice) ==> s.n.adder.Some?) && (Started(s, OldDevice) ==> s.e.adder.Some?)
    ensures Started(s, Server) ==> s.a.adder.Some?
    ensures s.r.metadata == s.a.metadata == k.metadata && s.r.device == k.device
  {
    hide Routed, Counted, CtrlOf, Gated, HandledAfterStage, MainsAfterLibrary;
    assert RegSentAdder(s.r);
    assert s.a.got >= 2;
  }

  // ---- Channels, closes and adders ----

  /** Each inter-handler channel has carried at most one value. */
  predicate UsedOnce(ch: Channels) {
    && |ch.newId.log| <= 1 && |ch.oldId.log| <= 1 && |ch.agent.log| <= 1 && |ch.metadata.log| <= 1
    && |ch.adder.log| <= 1 && |ch.oldTssDone.log| <= 1 && |ch.newDone.log| <= 1 && |ch.oldDone.log| <= 1
  }

  /** A thread about to send on an inter-handler channel never blocks. */
  predicate SendsNeverBlock(s: State) {
    && (s.r.reader == RPutNewId ==> s.ch.newId.Ready())
    && (s.r.reader == RPutAgent ==> s.ch.agent.Ready())
    && (s.r.reader == RPutAdder ==> s.ch.adder.Ready())
    && (s.r.reader == RPutNewDone ==> s.ch.newDone.Ready())
    && (s.a.reader == APutOldId ==> s.ch.oldId.Ready())
    && (s.a.reader == APutMetadata ==> s.ch.metadata.Ready())
    && (s.a.reader == APutTssDone ==> s.ch.oldTssDone.Ready())
    && (s.a.reader == APutOldDone ==> s.ch.oldDone.Ready())
  }

  /**
   In every run each channel is used at most once, sending on it never blocks, no `serverDone` is
   closed twice and no TSS message meets a missing adder (either would panic).
   */
  lemma ChannelDiscipline(k: Params, acts: seq<Action>)
    requires ValidParams(k) && IsRun(k, acts)
    ensures var s := After(k, acts); UsedOnce(s.ch) && SendsNeverBlock(s) && !s.panicked
  {
    hide Enabled, Step, After, IsRun, ValidParams;
    RunKeepsInv(k, acts);
    ChannelsInOrder(k, After(k, acts));
  }

  lemma ChannelsInOrder(k: Params, s: State)
    requires Inv(k, s)
    ensures UsedOnce(s.ch) && SendsNeverBlock(s)
  {
    hide Routed, Counted, WebsocketsOk, HandledAfterStage, MainsAfterLibrary, StartedBeforeMoving, RegisterVars,
         AcceptVars, NewDeviceOk, OldDeviceOk;
  }

  /** The action closes a `serverDone` that is closed. */
  predicate ClosesTwice(s: State, act: Action) {
    || (act == Dev(NewDevice, DRead) && s.net.newDown != [] && s.net.newDown[0] == Control(ExistingDeviceDone)
        && s.n.stage <= 80 && s.n.serverDone)
    || (act == Dev(OldDevice, DRead) && s.net.oldDown != [] && s.net.oldDown[0] == Control(NewDeviceDone)
        && s.e.stage <= 80 && s.e.serverDone)
    || (act == Reg(RDoWriteDone) && s.r.serverDone)
    || (act == Acc(ADoPutOldDone) && s.a.serverDone)
  }

  /** The action uses an adder that does not exist: a TSS message is taken, or the wallet is handed over or stored. */
  predicate MissesAdder(s: State, act: Action) {
    || (act == Dev(NewDevice, DRead) && s.net.newDown != [] && s.net.newDown[0].TssFrame? && s.n.stage <= 40
        && s.n.adder.None?)
    || (act == Dev(OldDevice, DRead) && s.net.oldDown != [] && s.net.oldDown[0].TssFrame? && s.e.stage <= 40
        && s.e.adder.None?)
    || (act == Reg(RRead) && s.net.newUp != [] && s.net.newUp[0].TssFrame? && s.r.stage <= 40 && s.r.adder.None?)
    || (act == Acc(ARead) && s.net.oldUp != [] && s.net.oldUp[0].TssFrame? && s.a.stage <= 40 && s.a.adder.None?)
    || (act == Reg(RDoPutAdder) && s.r.adder.None?)
    || (act == Acc(ACommit) && s.a.adder.None?)
  }

  /** Whatever the state: a step panics exactly when it closes a closed channel or uses a missing adder. */
  lemma PanicsExactlyWhen(k: Params, s: State, act: Action)
    requires Enabled(k, s, act) && !s.panicked
    ensures Step(k, s, act).panicked <==> ClosesTwice(s, act) || MissesAdder(s, act)
  {
    hide RegisterStep, RegisterEnabled, AcceptStep, AcceptEnabled, LibEnabled, LibraryStep, DeviceStep, DeviceEnabled;
    match act
    case Dev(p, d) => DevicePanics(k, s, p, d);
    case Reg(r) => RegisterPanics(k, s, r);
    case Acc(a) => AcceptPanics(k, s, a);
    case LibStep(p, content) => LibraryNeverPanics(k, s, p, content);
    case _ =>
  }

  lemma DevicePanics(k: Params, s: State, p: Party, act: DeviceAct)
    requires DeviceEnabled(k, s, p, act) && !s.panicked
    ensures DeviceStep(k, s, p, act).panicked <==> ClosesTwice(s, Dev(p, act)) || MissesAdder(s, Dev(p, act))
  {
  }

  lemma RegisterPanics(k: Params, s: State, act: RegisterAct)
    requires RegisterEnabled(k, s, act) && !s.panicked
    ensures RegisterStep(k, s, act).panicked <==> ClosesTwice(s, Reg(act)) || MissesAdder(s, Reg(act))
  {
  }

  lemma AcceptPanics(k: Params, s: State, act: AcceptAct)
    requires AcceptEnabled(k, s, act) && !s.panicked
    ensures AcceptStep(k, s, act).panicked <==> ClosesTwice(s, Acc(act)) || MissesAdder(s, Acc(act))
  {
  }

  lemma LibraryNeverPanics(k: Params, s: State, p: Party, content: nat)
    requires LibEnabled(k, s, p) && !s.panicked
    ensures !LibraryStep(k, s, p, content).panicked
  {
    hide Pick, RecvsFrom, SendsTo;
  }

  // ---- Routing inside the protocol ----

  /** In every run the TSS messages of each pair arrive once and in order, relays included. */
  lemma TssArrivesInOrder(k: Params, acts: seq<Action>, f: Party, t: Party)
    requires ValidParams(k) && IsRun(k, acts) && f != t
    ensures var net := After(k, acts).net;
            && Pick(net.handled, f, k.ids.Of(t)) <= Pick(net.sent, f, k.ids.Of(t))
            && (f != Server && t != Server ==> Pick(net.relayed, f, k.ids.Of(t)) <= Pick(net.sent, f, k.ids.Of(t)))
  {
    hide Enabled, Step, After, IsRun, ValidParams, Pick, TssOf;
    RunKeepsInv(k, acts);
    assert PairRouted(After(k, acts).net, k.ids, f, t);
  }

  // ---- Stages ----

  predicate StagesGrow(s: State, s': State) {
    s.n.stage <= s'.n.stage && s.e.stage <= s'.e.stage && s.r.stage <= s'.r.stage && s.a.stage <= s'.a.stage
  }

  /**
   A step lowers a stage exactly when RegisterDeviceHandler's reader writes 30 after its main
   thread has written 40, which takes a server library that closed `done` by failing.
   */
  lemma StagesGrowExactlyWhen(k: Params, s: State, act: Action)
    requires ValidParams(k) && Inv(k, s) && Enabled(k, s, act)
    ensures StagesGrow(s, Step(k, s, act)) <==> !(act == Reg(RDoSetStage) && s.r.stage == 40)
    ensures act == Reg(RDoSetStage) && s.r.stage == 40 ==> Server in s.failed
  {
    hide Inv, ValidParams, DeviceStep, DeviceEnabled, RegisterStep, RegisterEnabled, AcceptStep, AcceptEnabled,
         LibraryStep, LibEnabled, StagesGrow;
    match act
    case Dev(p, d) => DeviceStagesGrow(k, s, p, d);
    case Reg(r) => if r == RDoSetStage { SetStageGrows(k, s); } else { RegisterStagesGrow(k, s, r); }
    case Acc(a) => if a == ADoSetStage { AcceptStageGrows(k, s); } else { AcceptStagesGrow(k, s, a); }
    case _ => OtherStagesStay(k, s, act);
  }

  lemma DeviceStagesGrow(k: Params, s: State, p: Party, act: DeviceAct)
    requires ReadyD(k, s, p, act)
    ensures StagesGrow(s, DeviceStep(k, s, p, act))
  {
    hide Routed, Counted, WebsocketsOk, Contract, ChannelsOk, HandledAfterStage, StartedBeforeMoving,
         MainsAfterLibrary, RegisterPc, RegisterVars, AcceptPc, AcceptVars, ClosedOk;
  }

  lemma RegisterStagesGrow(k: Params, s: State, act: RegisterAct)
    requires ReadyR(k, s, act) && act != RDoSetStage
    ensures StagesGrow(s, RegisterStep(k, s, act))
  {
    hide Routed, Counted, WebsocketsOk, Contract, ChannelsOk, HandledAfterStage, StartedBeforeMoving,
         MainsAfterLibrary, NewDeviceOk, OldDeviceOk, AcceptVars;
  }

  lemma AcceptStagesGrow(k: Params, s: State, act: AcceptAct)
    requires ReadyA(k, s, act) && act != ADoSetStage
    ensures StagesGrow(s, AcceptStep(k, s, act))
  {
    hide Routed, Counted, WebsocketsOk, Contract, ChannelsOk, HandledAfterStage, StartedBeforeMoving,
         MainsAfterLibrary, NewDeviceOk, OldDeviceOk, RegisterVars;
  }

  lemma OtherStagesStay(k: Params, s: State, act: Action)
    requires Enabled(k, s, act) && (act.LibStep? || act.Cancel? || IsFault(act))
    ensures StagesGrow(s, Step(k, s, act))
  {
  }

  lemma SetStageGrows(k: Params, s: State)
    requires ReadyR(k, s, RDoSetStage)
    ensures StagesGrow(s, RegisterStep(k, s, RDoSetStage)) <==> s.r.stage != 40
    ensures s.r.stage == 40 ==> Server in s.failed
  {
    hide Routed, Counted, WebsocketsOk, Contract, ChannelsOk, HandledAfterStage;
    if RegPastTss(s.r) && Finished(k.scripts, s.pos, Server) {
      ServerDoneMeansStagesSet(k, s);
    }
  }

  lemma AcceptStageGrows(k: Params, s: State)
    requires ReadyA(k, s, ADoSetStage)
    ensures StagesGrow(s, AcceptStep(k, s, ADoSetStage))
  {
    hide Routed, Counted, WebsocketsOk, Contract, ChannelsOk, HandledAfterStage;
    if AccPastTss(s.a) {
      ServerDoneMeansStagesSet(k, s);
    }
  }

  /** In a run without library failure on the server, stages never decrease. */
  lemma StagesNeverDecrease(k: Params, acts: seq<Action>, act: Action)
    requires ValidParams(k) && IsRun(k, acts) && Server !in After(k, acts).failed
    requires Enabled(k, After(k, acts), act)
    ensures StagesGrow(After(k, acts), Step(k, After(k, acts), act))
  {
    hide Enabled, Step, After, IsRun, ValidParams, Inv;
    RunKeepsInv(k, acts);
    StagesGrowExactlyWhen(k, After(k, acts), act);
  }

}
