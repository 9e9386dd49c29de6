/**
 The one way a stage can drop: RegisterDeviceHandler's main thread and its reader write the same
 variable, and a server library that fails early lets the main thread write 40 before the reader
 writes 30.
 */
module AddDeviceStages {
  import opened StarRouting
  import opened TssLibrary
  import opened AddDevice
  import opened AddDeviceInvariant
  import opened AddDeviceSafety
  import opened AddDeviceSteps
  import opened Wrappers

  /** Some run, in which the server's library fails only if it may, ends in a step that lowers a stage. */
  ghost predicate DropPossible(k: Params, mayFail: bool) {
    exists acts, act :: DropsAfter(k, acts, act) && (mayFail || LibFail(Server) !in acts)
  }

  ghost predicate DropsAfter(k: Params, acts: seq<Action>, act: Action) {
    IsRun(k, acts) && Enabled(k, After(k, acts), act) && !StagesGrow(After(k, acts), Step(k, After(k, acts), act))
  }

  // ---- Only then ----

  lemma StepFails(k: Params, s: State, act: Action)
    requires Enabled(k, s, act)
    ensures Step(k, s, act).failed == if act.LibFail? then s.failed + {act.p} else s.failed
  {
    hide Pick, RecvsFrom, SendsTo;
  }

  /** A library has failed only if the run says so. */
  lemma {:induction false} FailedMeansFault(k: Params, acts: seq<Action>, p: Party)
    requires IsRun(k, acts) && p in After(k, acts).failed
    ensures LibFail(p) in acts
  {
    hide Step, Enabled;
    if acts != [] {
      var before, act := acts[..|acts| - 1], acts[|acts| - 1];
      StepFails(k, After(k, before), act);
      if act != LibFail(p) {
        FailedMeansFault(k, before, p);
      }
    }
  }

  lemma DropNeedsFailure(k: Params, acts: seq<Action>, act: Action)
    requires ValidParams(k) && DropsAfter(k, acts, act)
    ensures LibFail(Server) in acts && Readable(k)
  {
    hide Enabled, Step, ValidParams, Inv;
    RunKeepsInv(k, acts);
    StagesGrowExactlyWhen(k, After(k, acts), act);
    FailedMeansFault(k, acts, Server);
    SettingMeansReadable(k, After(k, acts));
  }

  lemma SettingMeansReadable(k: Params, s: State)
    requires Inv(k, s) && Enabled(k, s, Reg(RDoSetStage))
    ensures Readable(k)
  {
    hide Routed, Counted, WebsocketsOk, AcceptVars, ChannelsOk, HandledAfterStage, MainsAfterLibrary,
         StartedBeforeMoving;
  }

  // ---- And then indeed ----

  ghost predicate Reaches(k: Params, s: State) {
    exists acts :: IsRun(k, acts) && After(k, acts) == s
  }

  lemma ReachesNext(k: Params, s: State, act: Action)
    requires Reaches(k, s) && Enabled(k, s, act)
    ensures Reaches(k, Step(k, s, act))
  {
    hide Enabled, Step;
    var acts :| IsRun(k, acts) && After(k, acts) == s;
    assert (acts + [act])[..|acts|] == acts;
    assert IsRun(k, acts + [act]);
  }

  /** Both devices have sent their ids. */
  function BothConnected(k: Params): State {
    var s := Init();
    s.(n := s.n.(main := AwaitStart), e := s.e.(main := AwaitStart),
       net := s.net.(newUp := [Control(PeerIdBroadcast(k.ids.newId))],
                     oldUp := [Control(PeerIdBroadcast(k.ids.oldId))]))
  }

  lemma ReachesBothConnected(k: Params)
    ensures Reaches(k, BothConnected(k))
  {
    hide Reaches;
    assert Reaches(k, Init()) by { ReachesInit(k); }
    ReachesNext(k, Init(), Dev(NewDevice, DConnect));
    var s := Step(k, Init(), Dev(NewDevice, DConnect));
    ReachesNext(k, s, Dev(OldDevice, DConnect));
    assert Step(k, s, Dev(OldDevice, DConnect)) == BothConnected(k);
  }

  lemma ReachesInit(k: Params)
    ensures Reaches(k, Init())
  {
    assert IsRun(k, []) && After(k, []) == Init();
  }

  /** The handlers have exchanged the ids and sent them on. */
  function IdsExchanged(k: Params): State {
    var s := BothConnected(k);
    s.(r := s.r.(got := 1, newId := k.ids.newId, oldId := k.ids.oldId),
       a := s.a.(got := 1, newId := k.ids.newId, oldId := k.ids.oldId),
       ch := s.ch.(newId := Chan([], [k.ids.newId]), oldId := Chan([], [k.ids.oldId]),
                   agent := Chan([k.agent], [k.agent])),
       net := s.net.(newUp := [], oldUp := [], newDown := [Control(PeerIdBroadcast(k.ids.oldId))],
                     oldDown := [Control(PeerIdBroadcast(k.ids.newId))]))
  }

  lemma ReachesIdsExchanged(k: Params)
    requires Reaches(k, BothConnected(k))
    ensures Reaches(k, IdsExchanged(k))
  {
    hide Reaches;
    var s0 := BothConnected(k);
    ReachesNext(k, s0, Reg(RRead));
    var s1 := Step(k, s0, Reg(RRead));
    ReachesNext(k, s1, Reg(RDoPutNewId));
    var s2 := Step(k, s1, Reg(RDoPutNewId));
    ReachesNext(k, s2, Acc(ARead));
    var s3 := Step(k, s2, Acc(ARead));
    ReachesNext(k, s3, Acc(ADoPutOldId));
    var s4 := Step(k, s3, Acc(ADoPutOldId));
    ReachesNext(k, s4, Acc(ADoTakeNewId));
    var s5 := Step(k, s4, Acc(ADoTakeNewId));
    ReachesNext(k, s5, Reg(RDoTakeOldId));
    var s6 := Step(k, s5, Reg(RDoTakeOldId));
    ReachesNext(k, s6, Reg(RDoPutAgent));
    assert Step(k, s6, Reg(RDoPutAgent)) == IdsExchanged(k);
  }

  /** The devices have answered, and RegisterDeviceHandler's reader waits for the metadata it can read. */
  function DevicesAnswered(k: Params): State {
    var s := IdsExchanged(k);
    s.(n := s.n.(got := 1, otherId := k.ids.oldId), e := s.e.(got := 1, otherId := k.ids.newId),
       r := s.r.(got := 2, device := k.device, reader := RTakeMetadata),
       a := s.a.(got := 2, metadata := k.metadata, reader := ATakeAdder),
       ch := s.ch.(metadata := Chan([k.metadata], [k.metadata])),
       net := s.net.(newDown := [], oldDown := []))
  }

  lemma ReachesDevicesAnswered(k: Params)
    requires Reaches(k, IdsExchanged(k))
    ensures Reaches(k, DevicesAnswered(k))
  {
    hide Reaches;
    var s0 := IdsExchanged(k);
    ReachesNext(k, s0, Dev(NewDevice, DRead));
    var s1 := Step(k, s0, Dev(NewDevice, DRead));
    ReachesNext(k, s1, Dev(OldDevice, DRead));
    var s2 := Step(k, s1, Dev(OldDevice, DRead));
    ReachesNext(k, s2, Reg(RRead));
    var s3 := Step(k, s2, Reg(RRead));
    ReachesNext(k, s3, Acc(ARead));
    var s4 := Step(k, s3, Acc(ARead));
    ReachesNext(k, s4, Acc(ADoPutMetadata));
    assert Step(k, s4, Acc(ADoPutMetadata)) == DevicesAnswered(k);
  }

  /** The register handler has read the wallet and offers its adder. */
  function AdderOffered(k: Params): State
    requires Readable(k)
  {
    var s := DevicesAnswered(k);
    var adder := Adder(k.ids.newId, k.ids.oldId, k.retrieve(k.metadata).value);
    s.(r := s.r.(reader := RSignalling, metadata := k.metadata, adder := Some(adder)),
       ch := s.ch.(metadata := Chan([], [k.metadata]), adder := Chan([adder], [adder])),
       net := s.net.(newDown := [Control(Pubkey(Public(adder.wallet)))]))
  }

  lemma ReachesAdderOffered(k: Params)
    requires Reaches(k, DevicesAnswered(k)) && Readable(k)
    ensures Reaches(k, AdderOffered(k))
  {
    hide Reaches;
    var s0 := DevicesAnswered(k);
    ReachesNext(k, s0, Reg(RDoTakeMetadata));
    var s1 := Step(k, s0, Reg(RDoTakeMetadata));
    ReachesNext(k, s1, Reg(RDoPutAdder));
    assert Step(k, s1, Reg(RDoPutAdder)) == AdderOffered(k);
  }

  /** Both handlers have started, and neither reader has set its stage. */
  function HandlersStarted(k: Params): State
    requires Readable(k)
  {
    var s := AdderOffered(k);
    s.(r := s.r.(reader := RSetStage, main := RAwaitTss, sender := Sending),
       a := s.a.(reader := ASetStage, main := AProcessing, sender := Sending, adder := s.r.adder),
       ch := s.ch.(adder := Chan([], s.ch.adder.log)),
       net := s.net.(oldDown := [Control(MetadataAck)]))
  }

  lemma ReachesHandlersStarted(k: Params)
    requires Readable(k) && Reaches(k, AdderOffered(k))
    ensures Reaches(k, HandlersStarted(k))
  {
    hide Reaches;
    var s0 := AdderOffered(k);
    ReachesNext(k, s0, Acc(ADoTakeAdder));
    var s1 := Step(k, s0, Acc(ADoTakeAdder));
    ReachesNext(k, s1, Acc(AStart));
    var s2 := Step(k, s1, Acc(AStart));
    ReachesNext(k, s2, Reg(RStart));
    assert Step(k, s2, Reg(RStart)) == HandlersStarted(k);
  }

  /** The library fails, the main thread writes 40, and the reader's 30 comes last. */
  lemma StageDrops(k: Params)
    requires ValidParams(k) && Readable(k)
    ensures DropPossible(k, true)
  {
    ReachesBothConnected(k);
    ReachesIdsExchanged(k);
    ReachesDevicesAnswered(k);
    ReachesAdderOffered(k);
    ReachesHandlersStarted(k);
    DropsFromStarted(k);
  }

  /** The library has failed and the main thread has written 40; the reader is about to write 30. */
  function FailedFirst(k: Params): State
    requires Readable(k)
  {
    var s := HandlersStarted(k);
    s.(r := s.r.(main := RAwaitOldTss, stage := 40), failed := {Server})
  }

  lemma ReachesFailedFirst(k: Params)
    requires ValidParams(k) && Readable(k) && Reaches(k, HandlersStarted(k))
    ensures Reaches(k, FailedFirst(k))
  {
    hide Reaches, Contract;
    var s0 := HandlersStarted(k);
    ServerHasWork(k);
    ReachesNext(k, s0, LibFail(Server));
    var s1 := Step(k, s0, LibFail(Server));
    ReachesNext(k, s1, Reg(RTssDone));
    assert Step(k, s1, Reg(RTssDone)) == FailedFirst(k);
  }

  lemma SettingStageDrops(k: Params)
    requires Readable(k)
    ensures var s := FailedFirst(k);
            Enabled(k, s, Reg(RDoSetStage)) && !StagesGrow(s, Step(k, s, Reg(RDoSetStage)))
  {
  }

  lemma DropsFromStarted(k: Params)
    requires ValidParams(k) && Readable(k) && Reaches(k, HandlersStarted(k))
    ensures DropPossible(k, true)
  {
    hide HandlersStarted, FailedFirst, Enabled, Step, StagesGrow, ValidParams;
    ReachesFailedFirst(k);
    SettingStageDrops(k);
    var acts :| IsRun(k, acts) && After(k, acts) == FailedFirst(k);
    assert DropsAfter(k, acts, Reg(RDoSetStage));
  }

  lemma ServerHasWork(k: Params)
    requires ValidParams(k)
    ensures !Finished(k.scripts, Pos(0, 0, 0), Server)
  {
    assert RecvsFrom(k.scripts.server, NewDevice) >= 1 by {
      assert k.scripts.At(Server) == k.scripts.server;
    }
  }

  /** A stage can drop exactly when the metadata opens the record and the server's library may fail. */
  lemma StageDropsIff(k: Params, mayFail: bool)
    requires ValidParams(k)
    ensures DropPossible(k, mayFail) <==> mayFail && Readable(k)
  {
    hide ValidParams, DropsAfter;
    if DropPossible(k, mayFail) {
      var acts, act :| DropsAfter(k, acts, act) && (mayFail || LibFail(Server) !in acts);
      DropNeedsFailure(k, acts, act);
    }
    if mayFail && Readable(k) {
      StageDrops(k);
    }
  }
}
