/**
 Fault-free runs of the add-device protocol never get stuck: as long as one of the four processes
 has not returned, some thread or the library can move. Until RegisterDeviceHandler returns, the new
 device's main thread is not even needed.
 */
module AddDeviceProgress {
  import opened Queues
  import opened StarRouting
  import opened TssLibrary
  import opened AddDevice
  import opened AddDeviceInvariant
  import opened AddDeviceSteps

  /** A thread may have stopped without a fault: its process has returned, or its connection was closed. */
  predicate Excused(s: State, t: Thread) {
    match t
    case NewReader => DeviceReturned(s.n) || (s.r.main == RReturned && s.net.newDown == [])
    case NewSender => DeviceReturned(s.n) || s.r.main == RReturned
    case OldReader => DeviceReturned(s.e) || (s.a.main == AReturned && s.net.oldDown == [])
    case OldSender => DeviceReturned(s.e) || s.a.main == AReturned
    case _ => MainReturned(s, t)
  }

  /** What holds in a fault-free run of a wallet that can be read. */
  ghost predicate Unharmed(k: Params, s: State) {
    && ValidParams(k) && Readable(k) && Inv(k, s) && s.failed == {} && s.quit == {}
    && (forall t :: t in s.dead ==> Excused(s, t))
  }

  /** The same while nothing has stopped. */
  ghost predicate Faultless(k: Params, s: State) {
    ValidParams(k) && Readable(k) && Inv(k, s) && s.dead == {} && s.quit == {} && s.failed == {}
  }

  /** A step that is no fault, and not the new device's main thread looking for reported errors. */
  ghost predicate Advances(k: Params, s: State, act: Action) {
    Enabled(k, s, act) && !IsFault(act) && act != Dev(NewDevice, DTssDone)
  }

  /** No reader has anything left to do: every frame has been read and every exchange completed. */
  predicate Quiet(s: State) {
    && s.n.main != Connecting && s.e.main != Connecting
    && s.n.reader == Reading && s.e.reader == Reading && s.r.reader == RReading && s.a.reader == AReading
    && s.net.newUp == [] && s.net.newDown == [] && s.net.oldUp == [] && s.net.oldDown == []
  }

  /** An empty websocket means that everything written has been read. */
  lemma EmptyMeansRead(ws: seq<Frame<Ctrl>>, script: seq<Ctrl>, got: nat, wrote: nat)
    requires Carries(ws, script, got, wrote) && ws == []
    ensures got == wrote
  {
    assert |script[got..wrote]| == wrote - got;
  }

  lemma DeviceMoves(k: Params, s: State, p: Party) returns (act: Action)
    requires Faultless(k, s) && p != Server
    requires DeviceOf(s, p).main == Connecting || DeviceOf(s, p).reader == Signalling || s.net.Down(p) != []
    ensures Advances(k, s, act)
  {
    hide Routed, Counted, Carries, Contract, RegisterVars, AcceptVars, ChannelsOk;
    if DeviceOf(s, p).main == Connecting {
      act := Dev(p, DConnect);
    } else if DeviceOf(s, p).reader == Signalling {
      act := Dev(p, DStart);
    } else {
      act := Dev(p, DRead);
    }
  }

  lemma NotGivenUp(k: Params, s: State)
    requires Faultless(k, s)
    ensures s.r.reader != RGaveUp
  {
    hide Routed, Counted, Contract, AcceptVars, NewDeviceOk, OldDeviceOk, WebsocketsOk, ChannelsOk;
  }

  /** Reader steps of RegisterDeviceHandler that wait for nobody. */
  lemma RegisterMoves(k: Params, s: State) returns (act: Action)
    requires Faultless(k, s)
    requires if s.r.reader == RReading then s.net.newUp != []
             else s.r.reader != RTakeOldId && s.r.reader != RTakeMetadata
    ensures Advances(k, s, act)
  {
    hide Routed, Counted, Carries, Contract, RegisterVars, AcceptVars, AcceptPc, ClosedOk, NewDeviceOk, OldDeviceOk,
         WebsocketsOk, HandledAfterStage, MainsAfterLibrary, StartedBeforeMoving;
    NotGivenUp(k, s);
    match s.r.reader
    case RReading => act := Reg(RRead);
    case RPutNewId => act := Reg(RDoPutNewId);
    case RPutAgent => act := Reg(RDoPutAgent);
    case RPutAdder => act := Reg(RDoPutAdder);
    case RSignalling => act := Reg(RStart);
    case RSetStage => act := Reg(RDoSetStage);
    case RPutNewDone => act := Reg(RDoPutNewDone);
    case _ => assert false;
  }

  /** Reader steps of AcceptDeviceHandler that wait for nobody. */
  lemma AcceptMoves(k: Params, s: State) returns (act: Action)
    requires Faultless(k, s)
    requires if s.a.reader == AReading then s.net.oldUp != [] else s.a.reader != ATakeNewId && s.a.reader != ATakeAdder
    ensures Advances(k, s, act)
  {
    hide Routed, Counted, Carries, Contract, RegisterVars, AcceptVars, RegisterPc, NewDeviceOk, OldDeviceOk,
         WebsocketsOk, HandledAfterStage, MainsAfterLibrary, StartedBeforeMoving;
    match s.a.reader
    case AReading => act := Acc(ARead);
    case ASignalling => act := Acc(AStart);
    case ASetStage => act := Acc(ADoSetStage);
    case _ => act := AcceptPuts(k, s);
  }

  lemma AcceptPuts(k: Params, s: State) returns (act: Action)
    requires Faultless(k, s)
    requires s.a.reader == APutOldId || s.a.reader == APutMetadata || s.a.reader == APutTssDone
        || s.a.reader == APutOldDone
    ensures Advances(k, s, act)
  {
    hide Routed, Counted, Carries, Contract, RegisterVars, AcceptVars, RegisterPc, NewDeviceOk, OldDeviceOk,
         WebsocketsOk, HandledAfterStage, MainsAfterLibrary, StartedBeforeMoving;
    match s.a.reader
    case APutOldId => act := Acc(ADoPutOldId);
    case APutMetadata => act := Acc(ADoPutMetadata);
    case APutTssDone => act := Acc(ADoPutTssDone);
    case APutOldDone => act := Acc(ADoPutOldDone);
  }

  /** The frames a quiet reader has read, in terms of what their writers have done. */
  lemma QuietReads(k: Params, s: State)
    requires Inv(k, s)
    ensures s.n.main != Connecting ==> NewWrote(s.n) >= 1
    ensures s.e.main != Connecting ==> OldWrote(s.e) >= 1
    ensures s.net.newDown == [] ==> s.n.got == RegWrote(s.r)
    ensures s.net.oldDown == [] ==> s.e.got == AccWrote(s.a)
    ensures s.net.newUp == [] ==> s.r.got == NewWrote(s.n)
    ensures s.net.oldUp == [] ==> s.a.got == OldWrote(s.e)
  {
    hide Routed, Counted, Carries, RegisterVars, AcceptVars, ChannelsOk, NewDeviceOk, OldDeviceOk;
    if s.net.newDown == [] { EmptyMeansRead(s.net.newDown, RegScript(k), s.n.got, RegWrote(s.r)); }
    if s.net.oldDown == [] { EmptyMeansRead(s.net.oldDown, AccScript(k), s.e.got, AccWrote(s.a)); }
    if s.net.newUp == [] { EmptyMeansRead(s.net.newUp, NewScript(k), s.r.got, NewWrote(s.n)); }
    if s.net.oldUp == [] { EmptyMeansRead(s.net.oldUp, OldScript(k), s.a.got, OldWrote(s.e)); }
  }

  /** The other side of an exchange between the handlers is never what is missing. */
  lemma ExchangesComplete(k: Params, s: State) returns (act: Action)
    requires Faultless(k, s)
    requires s.n.main != Connecting && s.net.newDown == [] && s.e.main != Connecting && s.net.oldDown == []
    requires s.r.reader == RTakeOldId || s.r.reader == RTakeMetadata || (s.r.reader == RReading && s.net.newUp == [])
    requires s.a.reader == ATakeNewId || s.a.reader == ATakeAdder || (s.a.reader == AReading && s.net.oldUp == [])
    requires s.r.reader != RReading || s.a.reader != AReading
    ensures Advances(k, s, act)
  {
    hide Routed, Counted, Contract, RegisterVars, AcceptVars, NewDeviceOk, OldDeviceOk, WebsocketsOk,
         HandledAfterStage, MainsAfterLibrary, StartedBeforeMoving;
    QuietReads(k, s);
    if s.r.reader == RTakeOldId && s.ch.oldId.Full() {
      act := Reg(RDoTakeOldId);
    } else if s.a.reader == ATakeNewId && s.ch.newId.Full() {
      act := Acc(ADoTakeNewId);
    } else if s.r.reader == RTakeMetadata && s.ch.metadata.Full() {
      act := Reg(RDoTakeMetadata);
    } else {
      act := Acc(ADoTakeAdder);
    }
  }

  /** Unless every reader is quiet, something can move. */
  lemma ReadersMove(k: Params, s: State) returns (act: Action)
    requires Faultless(k, s) && !Quiet(s)
    ensures Advances(k, s, act)
  {
    hide Faultless, Enabled;
    if s.n.main == Connecting || s.n.reader == Signalling || s.net.newDown != [] {
      act := DeviceMoves(k, s, NewDevice);
    } else if s.e.main == Connecting || s.e.reader == Signalling || s.net.oldDown != [] {
      act := DeviceMoves(k, s, OldDevice);
    } else if if s.r.reader == RReading then s.net.newUp != []
              else s.r.reader != RTakeOldId && s.r.reader != RTakeMetadata {
      act := RegisterMoves(k, s);
    } else if if s.a.reader == AReading then s.net.oldUp != []
              else s.a.reader != ATakeNewId && s.a.reader != ATakeAdder {
      act := AcceptMoves(k, s);
    } else {
      act := ExchangesComplete(k, s);
    }
  }

  /** Once the readers are quiet the handshake is over: all three libraries run. */
  lemma QuietMeansStarted(k: Params, s: State)
    requires Faultless(k, s) && Quiet(s)
    ensures s.n.got == RegWrote(s.r) && s.r.got == NewWrote(s.n)
    ensures s.e.got == AccWrote(s.a) && s.a.got == OldWrote(s.e)
    ensures RegStageSet(s.r) && AccStageSet(s.a) && DevStarted(s.n) && DevStarted(s.e)
    ensures forall p: Party :: Started(s, p)
  {
    hide Routed, Counted, Contract, RegisterVars, AcceptVars, ChannelsOk, WebsocketsOk;
    QuietReads(k, s);
  }

  /** With quiet readers and finished libraries, the main threads bring RegisterDeviceHandler home. */
  lemma MainsMove(k: Params, s: State) returns (act: Action)
    requires Faultless(k, s) && Quiet(s) && s.r.main != RReturned
    requires forall p: Party :: Finished(k.scripts, s.pos, p)
    ensures Advances(k, s, act)
  {
    hide Faultless, Enabled, Advances;
    if !DevReported(s.e) || !RegTookOldTss(s.r) || s.r.main == RWriteMetadata {
      act := FirstReports(k, s);
    } else if !AccTookNewDone(s.a) || s.a.main == AWriteNewDone {
      act := AcceptReports(k, s);
    } else {
      act := RegisterReturns(k, s);
    }
  }

  lemma OldDeviceReports(k: Params, s: State) returns (act: Action)
    requires Faultless(k, s) && Finished(k.scripts, s.pos, OldDevice)
    requires s.e.main == Processing || s.e.main == ReportTssDone
    ensures Advances(k, s, act)
  {
    hide Routed, Contract, RegisterPc, AcceptPc, RegisterVars, AcceptVars, NewDeviceOk, OldDeviceOk, ChannelsOk,
         WebsocketsOk, HandledAfterStage, MainsAfterLibrary, StartedBeforeMoving, ClosedOk;
    act := if s.e.main == Processing then Dev(OldDevice, DTssDone) else Dev(OldDevice, DWriteTssDone);
  }

  lemma FirstReports(k: Params, s: State) returns (act: Action)
    requires Faultless(k, s) && Quiet(s)
    requires forall p: Party :: Finished(k.scripts, s.pos, p)
    requires !DevReported(s.e) || !RegTookOldTss(s.r) || s.r.main == RWriteMetadata
    ensures Advances(k, s, act)
  {
    hide Routed, Counted, Contract, RegisterVars, AcceptVars, WebsocketsOk, HandledAfterStage, MainsAfterLibrary,
         StartedBeforeMoving;
    QuietMeansStarted(k, s);
    assert Started(s, NewDevice) && Started(s, OldDevice) && Started(s, Server);
    if s.e.main == Processing || s.e.main == ReportTssDone { act := OldDeviceReports(k, s); }
    else if s.r.main == RAwaitTss { act := Reg(RTssDone); }
    else if s.r.main == RAwaitOldTss { act := Reg(RTakeOldTss); }
    else { act := Reg(RDoWriteMetadata); }
  }

  /** By the time the new device has been sent its metadata, what AcceptDeviceHandler takes is there. */
  lemma AcceptCanTake(k: Params, s: State)
    requires Faultless(k, s) && Quiet(s)
    requires RegTookOldTss(s.r) && s.r.main != RWriteMetadata
    ensures !s.panicked && s.a.main != AAwaitStart
    ensures s.a.main == ATakeAgent ==> s.ch.agent.Full()
    ensures s.a.main == AAwaitNewDone ==> s.ch.newDone.Full()
  {
    hide Routed, Counted, Contract, RegisterVars, AcceptVars, WebsocketsOk, HandledAfterStage, MainsAfterLibrary,
         StartedBeforeMoving;
    QuietMeansStarted(k, s);
    assert Started(s, Server);
    assert RegWrote(s.r) >= 3;
    assert s.r.got == 3 && RegSentNewDone(s.r) && RegSentAgent(s.r);
  }

  lemma AcceptReports(k: Params, s: State) returns (act: Action)
    requires Faultless(k, s) && Quiet(s)
    requires forall p: Party :: Finished(k.scripts, s.pos, p)
    requires RegTookOldTss(s.r) && s.r.main != RWriteMetadata
    requires !AccTookNewDone(s.a) || s.a.main == AWriteNewDone
    ensures Advances(k, s, act)
  {
    hide Inv, ValidParams;
    AcceptCanTake(k, s);
    if s.a.main == AProcessing { act := Acc(AProcessed); }
    else if s.a.main == ATakeAgent { act := Acc(ADoTakeAgent); }
    else if s.a.main == ACommitting { act := Acc(ACommit); }
    else if s.a.main == AAwaitTss { act := Acc(ATssDone); }
    else if s.a.main == AAwaitNewDone { act := Acc(ATakeNewDone); }
    else { act := Acc(ADoWriteNewDone); }
  }

  lemma RegisterReturns(k: Params, s: State) returns (act: Action)
    requires Faultless(k, s) && Quiet(s) && s.r.main != RReturned
    requires DevReported(s.e) && RegTookOldTss(s.r) && s.r.main != RWriteMetadata
    requires AccTookNewDone(s.a) && s.a.main != AWriteNewDone
    ensures Advances(k, s, act)
  {
    hide Routed, Counted, Contract, RegisterVars, AcceptVars, WebsocketsOk, HandledAfterStage, MainsAfterLibrary,
         StartedBeforeMoving;
    QuietMeansStarted(k, s);
    act := if s.r.main == RAwaitOldDone then Reg(RTakeOldDone) else Reg(RDoWriteDone);
  }

  /** A sender only stops after NewDeviceDone was written. */
  lemma ExitsComeLate(k: Params, s: State)
    requires Inv(k, s)
    requires s.n.serverDone || s.e.serverDone || s.r.serverDone || s.a.serverDone
    ensures AccWrote(s.a) == 3
  {
    hide Routed, Counted, CtrlOf, Gated, RegisterVars, AcceptVars;
  }

  /** No party consumes more than was produced for it. */
  lemma ConsumedWasProduced(k: Params, s: State, f: Party, t: Party)
    requires Inv(k, s) && f != t
    ensures Consumed(k.scripts, s.pos, f, t) <= Arrived(k, s, f, t) <= Produced(k.scripts, s.pos, f, t)
  {
    hide Pick, Carries, TssOf, SendsTo, RecvsFrom;
    assert PairCounted(k, s.net.sent, s.net.handled, s.pos, f, t);
    assert PairRouted(s.net, k.ids, f, t);
  }

  /** If a sender has stopped, whoever is not finished only has to send. */
  lemma StoppedSenderIsHarmless(k: Params, s: State) returns (act: Action)
    requires Faultless(k, s) && Quiet(s)
    requires s.n.serverDone || s.e.serverDone || s.r.serverDone || s.a.serverDone
    requires exists p: Party :: !Finished(k.scripts, s.pos, p)
    ensures Advances(k, s, act)
  {
    hide Routed, Carries, Pick, RegisterVars, AcceptVars, ChannelsOk, Contract, SendsTo, RecvsFrom;
    ExitsComeLate(k, s);
    NewDoneComesLate(k, s);
    QuietMeansStarted(k, s);
    assert LibDone(k, s, Server) && LibDone(k, s, OldDevice);
    ConsumedWasProduced(k, s, NewDevice, Server);
    OldPeersFinishAfterNew(k.scripts, s.pos, Server);
    assert !Finished(k.scripts, s.pos, NewDevice);
    assert k.scripts.newDevice[s.pos.newDevice].Send?;
    act := LibStep(NewDevice, 0);
  }

  /** With all queues and websockets empty, everything produced has arrived. */
  lemma EverythingArrived(k: Params, s: State, f: Party, t: Party)
    requires Inv(k, s) && Quiet(s) && k.ids.Distinct() && f != t
    requires s.net.newQ == [] && s.net.oldQ == []
    requires For(s.net.srvQ, k.ids.newId) == [] && For(s.net.srvQ, k.ids.oldId) == []
    ensures Arrived(k, s, f, t) == Produced(k.scripts, s.pos, f, t)
  {
    hide Carries, SendsTo, RecvsFrom, For, NewDeviceOk, OldDeviceOk, RegisterPc, RegisterVars, AcceptPc, AcceptVars,
         ChannelsOk, WebsocketsOk, HandledAfterStage, StartedBeforeMoving, MainsAfterLibrary, ClosedOk;
    assert PairRouted(s.net, k.ids, f, t);
    assert PairCounted(k, s.net.sent, s.net.handled, s.pos, f, t);
    PickIsNoMore(s.net.srvQ, f, k.ids.Of(t));
    assert Link(s.net, k.ids, f, t) == [];
  }

  /** With quiet readers and libraries at work, a sender or a library can move. */
  lemma LibraryMoves(k: Params, s: State) returns (act: Action)
    requires Faultless(k, s) && Quiet(s)
    requires exists p: Party :: !Finished(k.scripts, s.pos, p)
    ensures Advances(k, s, act)
  {
    if s.n.serverDone || s.e.serverDone || s.r.serverDone || s.a.serverDone {
      act := StoppedSenderIsHarmless(k, s);
    } else {
      act := RunningSendersDeliver(k, s);
    }
  }

  lemma RunningSendersDeliver(k: Params, s: State) returns (act: Action)
    requires Faultless(k, s) && Quiet(s)
    requires !(s.n.serverDone || s.e.serverDone || s.r.serverDone || s.a.serverDone)
    requires exists p: Party :: !Finished(k.scripts, s.pos, p)
    ensures Advances(k, s, act)
  {
    hide Routed, Counted, Carries, Pick, For, ChannelsOk, Contract, SendsTo, RecvsFrom, WebsocketsOk, NewScript,
         HandledAfterStage, MainsAfterLibrary, StartedBeforeMoving, ClosedOk, InScripts, Arrived;
    QuietMeansStarted(k, s);
    assert s.r.newId == k.ids.newId && s.a.oldId == k.ids.oldId;
    if s.net.newQ != [] {
      act := Dev(NewDevice, DSend);
    } else if s.net.oldQ != [] {
      act := Dev(OldDevice, DSend);
    } else if For(s.net.srvQ, k.ids.newId) != [] {
      act := Reg(RSend);
    } else if For(s.net.srvQ, k.ids.oldId) != [] {
      act := Acc(ASend);
    } else {
      act := SomeLibraryActs(k, s);
    }
  }

  lemma SomeLibraryActs(k: Params, s: State) returns (act: Action)
    requires Faultless(k, s) && Quiet(s)
    requires s.net.newQ == [] && s.net.oldQ == []
    requires For(s.net.srvQ, k.ids.newId) == [] && For(s.net.srvQ, k.ids.oldId) == []
    requires exists p: Party :: !Finished(k.scripts, s.pos, p)
    ensures Advances(k, s, act)
  {
    hide Routed, Carries, Pick, For, NewDeviceOk, OldDeviceOk, RegisterVars, AcceptVars, RegisterPc, AcceptPc,
         ChannelsOk, SendsTo, RecvsFrom;
    QuietMeansStarted(k, s);
    if p: Party :| CanAct(k.scripts, s.pos, p) {
      act := LibStep(p, 0);
      if k.scripts.At(p)[s.pos.At(p)].Recv? {
        EverythingArrived(k, s, k.scripts.At(p)[s.pos.At(p)].from, p);
      }
    } else {
      StuckMeansFinished(k.scripts, s.pos);
      assert false;
    }
  }

  /** Before the existing device has heard of the new one's success, nothing has stopped. */
  lemma NobodyStoppedYet(k: Params, s: State)
    requires Unharmed(k, s) && s.e.got < 3 && s.r.main != RReturned
    ensures Faultless(k, s)
  {
    NotReturnedYet(k, s);
    hide Inv, ValidParams;
    forall t ensures t !in s.dead {
      match t case NewReader => case _ =>
    }
  }

  lemma NotReturnedYet(k: Params, s: State)
    requires Inv(k, s) && s.quit == {} && s.r.main != RReturned
    ensures !DeviceReturned(s.n)
    ensures s.e.got < 3 ==> !DeviceReturned(s.e) && s.a.main != AReturned
  {
    hide Routed, Counted, CtrlOf, Gated, RegisterVars, AcceptVars, ChannelsOk, HandledAfterStage, MainsAfterLibrary,
         StartedBeforeMoving;
  }

  /** Once the existing device has heard of it, its handler and then RegisterDeviceHandler return. */
  lemma LateMoves(k: Params, s: State) returns (act: Action)
    requires Unharmed(k, s) && s.e.got == 3 && s.r.main != RReturned
    ensures Advances(k, s, act)
  {
    hide Inv, ValidParams;
    LatePhase(k, s);
    if s.a.got == 3 { act := Acc(ARead); }
    else if s.a.reader == APutOldDone { act := Acc(ADoPutOldDone); }
    else if s.r.main == RAwaitOldDone { act := Reg(RTakeOldDone); }
    else { act := Reg(RDoWriteDone); }
  }

  lemma LatePhase(k: Params, s: State)
    requires Inv(k, s) && s.e.got == 3 && s.r.main != RReturned
    ensures !s.panicked && (s.r.main == RAwaitOldDone || s.r.main == RWriteDone)
    ensures (s.a.got == 3 && s.a.reader == AReading && s.net.oldUp != [])
            || (s.a.got == 4 && (s.a.reader == APutOldDone || s.a.reader == AReading))
    ensures s.a.got == 3 || s.a.reader == APutOldDone ==> s.a.main != AReturned
    ensures s.a.reader == APutOldDone ==> s.ch.oldDone.Ready()
    ensures s.a.got == 4 && s.a.reader == AReading && s.r.main == RAwaitOldDone ==> s.ch.oldDone.Full()
  {
    hide Routed, Counted, Carries, RegisterVars, AcceptVars, HandledAfterStage, MainsAfterLibrary, StartedBeforeMoving;
    LateCounts(k, s);
    NewDoneComesLate(k, s);
  }

  lemma LateCounts(k: Params, s: State)
    requires Inv(k, s) && s.e.got == 3
    ensures AccWrote(s.a) == 3 && OldWrote(s.e) == 4 && (s.net.oldUp == [] ==> s.a.got == 4) && s.n.got <= RegWrote(s.r)
  {
    hide Routed, Counted, CtrlOf, Gated, RegisterVars, AcceptVars, ChannelsOk, HandledAfterStage, MainsAfterLibrary,
         StartedBeforeMoving;
    if s.net.oldUp == [] { EmptyMeansRead(s.net.oldUp, OldScript(k), s.a.got, OldWrote(s.e)); }
  }

  /** With RegisterDeviceHandler back, everybody else only needs their own steps. */
  lemma LastMoves(k: Params, s: State) returns (act: Action)
    requires Unharmed(k, s) && s.r.main == RReturned && !AllReturned(s)
    ensures Enabled(k, s, act) && !IsFault(act)
  {
    hide Inv, ValidParams, Contract, SendsTo, RecvsFrom, Pick;
    LastPhase(k, s);
    if s.a.main == AAwaitDone { act := Acc(AReturn); }
    else if s.e.main == AwaitDone { act := Dev(OldDevice, DReturn); }
    else if s.net.newDown != [] { act := Dev(NewDevice, DRead); }
    else if s.n.main == AwaitDone { act := Dev(NewDevice, DReturn); }
    else if Finished(k.scripts, s.pos, NewDevice) { act := Dev(NewDevice, DTssDone); }
    else { act := LibStep(NewDevice, 0); }
  }

  lemma LastPhase(k: Params, s: State)
    requires ValidParams(k) && Inv(k, s) && s.r.main == RReturned
    ensures !s.panicked && s.a.serverDone && (s.a.main == AAwaitDone || s.a.main == AReturned)
    ensures s.e.serverDone && (s.e.main == AwaitDone || s.e.main == Returned)
    ensures s.n.reader == Reading && s.n.main != Connecting && s.n.main != AwaitStart && s.n.main != ReportTssDone
    ensures s.net.newDown == [] ==> s.n.got == 4 && s.n.serverDone
    ensures InScripts(k.scripts, s.pos) && NeedsNothing(k.scripts, s.pos, NewDevice)
  {
    hide Routed, Carries, Pick, RegisterVars, AcceptVars, Contract, SendsTo, RecvsFrom, HandledAfterStage,
         StartedBeforeMoving;
    LastCounts(k, s);
    ConsumedWasProduced(k, s, NewDevice, Server);
    OldPeersFinishAfterNew(k.scripts, s.pos, Server);
  }

  lemma LastCounts(k: Params, s: State)
    requires Inv(k, s) && s.r.main == RReturned
    ensures s.a.got == 4 && s.a.serverDone && s.e.got == 3 && s.n.got >= 3 && AccWrote(s.a) == 3
    ensures DevReported(s.e) && LibDone(k, s, Server) && s.r.got == 3
    ensures s.net.newDown == [] ==> s.n.got == 4
  {
    hide Routed, Counted, CtrlOf, Gated, RegisterVars, AcceptVars, HandledAfterStage, StartedBeforeMoving;
    if s.net.newDown == [] { EmptyMeansRead(s.net.newDown, RegScript(k), s.n.got, RegWrote(s.r)); }
    NewDoneComesLate(k, s);
  }

  /** Until RegisterDeviceHandler has returned, something moves besides the new device's main thread. */
  lemma RegisterAdvances(k: Params, s: State) returns (act: Action)
    requires Unharmed(k, s) && s.r.main != RReturned
    ensures Advances(k, s, act)
  {
    assert s.e.got <= 3;
    hide Inv, Advances, ValidParams;
    if s.e.got == 3 {
      act := LateMoves(k, s);
    } else {
      NobodyStoppedYet(k, s);
      hide Faultless;
      if !Quiet(s) {
        act := ReadersMove(k, s);
      } else if exists p: Party :: !Finished(k.scripts, s.pos, p) {
        act := LibraryMoves(k, s);
      } else {
        act := MainsMove(k, s);
      }
    }
  }

  /** Deadlock freedom. */
  lemma Progress(k: Params, s: State) returns (act: Action)
    requires Unharmed(k, s) && !AllReturned(s)
    ensures Enabled(k, s, act) && !IsFault(act)
  {
    hide Unharmed, Enabled;
    if s.r.main == RReturned {
      act := LastMoves(k, s);
    } else {
      act := RegisterAdvances(k, s);
    }
  }
}
