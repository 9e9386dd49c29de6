/**
 Where a main thread can return before its end. Each of these places is reached in some run of every
 readable wallet: all three libraries compute, the run goes on without a fault, and at the place in
 question the thread may return.
 */
module AddDeviceEarlyReturns {
  import opened AddDevice
  import opened AddDeviceErrors
  import opened AddDeviceFailures
  import opened AddDeviceInvariant
  import opened AddDeviceStages
  import opened AddDeviceSteps
  import opened StarRouting

  ghost predicate QuitReached(k: Params, s: State, t: Thread) {
    Reaches(k, s) && Enabled(k, s, Quit(t))
  }

  /** Some run brings this process to this place, and it may return there. */
  ghost predicate NewReturnsAt(k: Params, m: DeviceMain) {
    exists s :: QuitReached(k, s, NewMain) && s.n.main == m
  }

  ghost predicate OldReturnsAt(k: Params, m: DeviceMain) {
    exists s :: QuitReached(k, s, OldMain) && s.e.main == m
  }

  ghost predicate RegisterReturnsAt(k: Params, m: RegisterMain) {
    exists s :: QuitReached(k, s, RegMain) && s.r.main == m
  }

  ghost predicate AcceptReturnsAt(k: Params, m: AcceptMain) {
    exists s :: QuitReached(k, s, AccMain) && s.a.main == m
  }

  // ---- A run past all of these places ----

  /** AcceptDeviceHandler has the result and is about to commit. */
  function Committing(k: Params, net: Net<Ctrl>): State
    requires Readable(k)
  {
    var s := Working(k, End(k), net);
    s.(a := s.a.(main := ACommitting, agent := k.agent), ch := s.ch.(agent := Chan([], [k.agent])))
  }

  lemma ReachesCommitting(k: Params, net: Net<Ctrl>)
    requires Readable(k) && Idle(net) && Reaches(k, Working(k, End(k), net))
    ensures Reaches(k, Committing(k, net))
  {
    hide Reaches;
    var s0 := Working(k, End(k), net);
    ReachesNext(k, s0, Acc(AProcessed));
    var s1 := Step(k, s0, Acc(AProcessed));
    ReachesNext(k, s1, Acc(ADoTakeAgent));
    assert Step(k, s1, Acc(ADoTakeAgent)) == Committing(k, net);
  }

  /** It has committed, and AcceptDevice is about to report its library's end. */
  function Reporting(k: Params, net: Net<Ctrl>): State
    requires Readable(k)
  {
    var s := Committing(k, net);
    var wallet := k.merged(k.retrieve(k.metadata).value, k.ids.newId);
    s.(a := s.a.(main := AAwaitTss), committed := [Commit(k.ids.newId, k.metadata, k.agent, wallet)],
       e := s.e.(main := ReportTssDone, stage := 40))
  }

  lemma ReachesReporting(k: Params, net: Net<Ctrl>)
    requires Readable(k) && Idle(net) && Reaches(k, Committing(k, net))
    ensures Reaches(k, Reporting(k, net))
  {
    hide Reaches;
    var s0 := Committing(k, net);
    ReachesNext(k, s0, Acc(ACommit));
    var s1 := Step(k, s0, Acc(ACommit));
    ReachesNext(k, s1, Dev(OldDevice, DTssDone));
    assert Step(k, s1, Dev(OldDevice, DTssDone)) == Reporting(k, net);
  }

  /** AcceptDevice has reported, and its handler has passed the report on. */
  function ReportPassed(k: Params, net: Net<Ctrl>): State
    requires Readable(k)
  {
    var s := Reporting(k, net);
    s.(e := s.e.(main := AwaitDone), a := s.a.(got := 3), ch := s.ch.(oldTssDone := Chan([()], [()])))
  }

  lemma ReachesReportPassed(k: Params, net: Net<Ctrl>)
    requires Readable(k) && Idle(net) && Reaches(k, Reporting(k, net))
    ensures Reaches(k, ReportPassed(k, net))
  {
    hide Reaches;
    var s0 := Reporting(k, net);
    ReachesNext(k, s0, Dev(OldDevice, DWriteTssDone));
    var s1 := Step(k, s0, Dev(OldDevice, DWriteTssDone));
    assert s1.net == net.(oldUp := [Control(TssDone)]);
    ReachesNext(k, s1, Acc(ARead));
    var s2 := Step(k, s1, Acc(ARead));
    ReachesNext(k, s2, Acc(ADoPutTssDone));
    assert Step(k, s2, Acc(ADoPutTssDone)) == ReportPassed(k, net);
  }

  /** RegisterDeviceHandler knows of it, and is about to send the metadata. */
  function SendingMetadata(k: Params, net: Net<Ctrl>): State
    requires Readable(k)
  {
    var s := ReportPassed(k, net);
    s.(r := s.r.(main := RWriteMetadata, stage := 40), ch := s.ch.(oldTssDone := Chan([], [()])))
  }

  lemma ReachesSendingMetadata(k: Params, net: Net<Ctrl>)
    requires Readable(k) && Idle(net) && Reaches(k, ReportPassed(k, net))
    ensures Reaches(k, SendingMetadata(k, net))
  {
    hide Reaches;
    var s0 := ReportPassed(k, net);
    ReachesNext(k, s0, Reg(RTssDone));
    var s1 := Step(k, s0, Reg(RTssDone));
    ReachesNext(k, s1, Reg(RTakeOldTss));
    assert Step(k, s1, Reg(RTakeOldTss)) == SendingMetadata(k, net);
  }

  /** The new device has acknowledged it, and its handler is about to pass that on. */
  function Acknowledged(k: Params, net: Net<Ctrl>): State
    requires Readable(k)
  {
    var s := SendingMetadata(k, net);
    s.(n := s.n.(got := 3, metadata := k.metadata),
       r := s.r.(main := RAwaitOldDone, got := 3, reader := RPutNewDone))
  }

  lemma ReachesAcknowledged(k: Params, net: Net<Ctrl>)
    requires Readable(k) && Idle(net) && Reaches(k, SendingMetadata(k, net))
    ensures Reaches(k, Acknowledged(k, net))
  {
    hide Reaches;
    var s0 := SendingMetadata(k, net);
    ReachesNext(k, s0, Reg(RDoWriteMetadata));
    var s1 := Step(k, s0, Reg(RDoWriteMetadata));
    assert s1.net == net.(newDown := [Control(Metadata(k.metadata))]);
    ReachesNext(k, s1, Dev(NewDevice, DRead));
    var s2 := Step(k, s1, Dev(NewDevice, DRead));
    assert s2.net == net.(newUp := [Control(EverythingStored)]);
    ReachesNext(k, s2, Reg(RRead));
    assert Step(k, s2, Reg(RRead)) == Acknowledged(k, net);
  }

  /** AcceptDeviceHandler is about to tell AcceptDevice. */
  function Announcing(k: Params, net: Net<Ctrl>): State
    requires Readable(k)
  {
    var s := Acknowledged(k, net);
    s.(r := s.r.(reader := RReading), a := s.a.(main := AWriteNewDone, stage := 40),
       ch := s.ch.(newDone := Chan([], [()])))
  }

  lemma ReachesAnnouncing(k: Params, net: Net<Ctrl>)
    requires Readable(k) && Idle(net) && Reaches(k, Acknowledged(k, net))
    ensures Reaches(k, Announcing(k, net))
  {
    hide Reaches;
    var s0 := Acknowledged(k, net);
    ReachesNext(k, s0, Reg(RDoPutNewDone));
    var s1 := Step(k, s0, Reg(RDoPutNewDone));
    ReachesNext(k, s1, Acc(ATssDone));
    var s2 := Step(k, s1, Acc(ATssDone));
    ReachesNext(k, s2, Acc(ATakeNewDone));
    assert Step(k, s2, Acc(ATakeNewDone)) == Announcing(k, net);
  }

  /** AcceptDevice has answered. */
  function Answered(k: Params, net: Net<Ctrl>): State
    requires Readable(k)
  {
    var s := Announcing(k, net);
    s.(a := s.a.(main := AAwaitDone, got := 4, reader := APutOldDone), e := s.e.(got := 3, serverDone := true))
  }

  lemma ReachesAnswered(k: Params, net: Net<Ctrl>)
    requires Readable(k) && Idle(net) && Reaches(k, Announcing(k, net))
    ensures Reaches(k, Answered(k, net))
  {
    hide Reaches;
    var s0 := Announcing(k, net);
    ReachesNext(k, s0, Acc(ADoWriteNewDone));
    var s1 := Step(k, s0, Acc(ADoWriteNewDone));
    assert s1.net == net.(oldDown := [Control(NewDeviceDone)]);
    ReachesNext(k, s1, Dev(OldDevice, DRead));
    var s2 := Step(k, s1, Dev(OldDevice, DRead));
    assert s2.net == net.(oldUp := [Control(ExistingDeviceDone)]);
    ReachesNext(k, s2, Acc(ARead));
    assert Step(k, s2, Acc(ARead)) == Answered(k, net);
  }

  lemma LastAnswer(k: Params, net: Net<Ctrl>)
    requires Readable(k) && Idle(net) && Reaches(k, Answered(k, net))
    ensures RegisterReturnsAt(k, RWriteDone)
  {
    hide Reaches;
    var s0 := Answered(k, net);
    ReachesNext(k, s0, Acc(ADoPutOldDone));
    var s1 := Step(k, s0, Acc(ADoPutOldDone));
    ReachesNext(k, s1, Reg(RTakeOldDone));
    var s2 := Step(k, s1, Reg(RTakeOldDone));
    assert QuitReached(k, s2, RegMain) && s2.r.main == RWriteDone;
  }

  // ---- Each place ----

  lemma HandlersReturn(k: Params)
    requires ValidParams(k) && Readable(k)
    ensures RegisterReturnsAt(k, RAwaitTss) && RegisterReturnsAt(k, RWriteMetadata) && RegisterReturnsAt(k, RWriteDone)
    ensures AcceptReturnsAt(k, AProcessing) && AcceptReturnsAt(k, ACommitting) && AcceptReturnsAt(k, AAwaitTss)
    ensures AcceptReturnsAt(k, AWriteNewDone) && OldReturnsAt(k, ReportTssDone)
  {
    hide Reaches, ValidParams;
    var net := AllComputed(k);
    ReachesCommitting(k, net);
    ReachesReporting(k, net);
    ReachesReportPassed(k, net);
    ReachesSendingMetadata(k, net);
    ReachesAcknowledged(k, net);
    ReachesAnnouncing(k, net);
    ReachesAnswered(k, net);
    LastAnswer(k, net);
    var s0 := Working(k, End(k), net);
    assert QuitReached(k, s0, RegMain) && QuitReached(k, s0, AccMain);
    assert QuitReached(k, Committing(k, net), AccMain);
    assert QuitReached(k, Reporting(k, net), AccMain) && QuitReached(k, Reporting(k, net), OldMain);
    assert QuitReached(k, SendingMetadata(k, net), RegMain);
    assert QuitReached(k, Announcing(k, net), AccMain);
  }

  lemma DevicesReturn(k: Params)
    requires ValidParams(k) && Readable(k)
    ensures NewReturnsAt(k, Processing) && OldReturnsAt(k, Processing)
  {
    WorkingIsReached(k);
    DevicesHaveWork(k, NewDevice);
    DevicesHaveWork(k, OldDevice);
    hide Reaches, ValidParams;
    var s0 := Working(k, START, EmptyNet());
    ReachesNext(k, s0, LibFail(NewDevice));
    ReachesNext(k, s0, LibFail(OldDevice));
    assert QuitReached(k, Step(k, s0, LibFail(NewDevice)), NewMain);
    assert QuitReached(k, Step(k, s0, LibFail(OldDevice)), OldMain);
  }

  lemma DiallingFails(k: Params)
    ensures NewReturnsAt(k, Connecting) && OldReturnsAt(k, Connecting)
  {
    ReachesInit(k);
    assert QuitReached(k, Init(), NewMain) && QuitReached(k, Init(), OldMain);
  }

  lemma StartedHandlersRead(k: Params, s: State)
    requires Inv(k, s)
    ensures s.r.main != RAwaitStart ==> Readable(k)
    ensures s.a.main != AAwaitStart ==> Readable(k)
    ensures s.n.main == Processing || s.e.main == Processing || s.e.main == ReportTssDone ==> Readable(k)
  {
    hide Inv;
    if s.n.main == Processing { StartedMeansReadable(k, s, NewDevice); }
    if s.e.main == Processing || s.e.main == ReportTssDone { StartedMeansReadable(k, s, OldDevice); }
    if s.a.main != AAwaitStart { StartedMeansReadable(k, s, Server); }
    if s.r.main != RAwaitStart { RegisterRead(k, s); }
  }

  lemma RegisterRead(k: Params, s: State)
    requires Inv(k, s) && s.r.main != RAwaitStart
    ensures Readable(k)
  {
    hide Routed, Counted, WebsocketsOk, ChannelsOk, AcceptVars, HandledAfterStage, MainsAfterLibrary, ClosedOk;
  }

  lemma ReachedReads(k: Params, s: State)
    requires ValidParams(k) && Reaches(k, s)
    ensures s.r.main != RAwaitStart ==> Readable(k)
    ensures s.a.main != AAwaitStart ==> Readable(k)
    ensures s.n.main == Processing || s.e.main == Processing || s.e.main == ReportTssDone ==> Readable(k)
  {
    hide Inv, ValidParams;
    var acts :| IsRun(k, acts) && After(k, acts) == s;
    RunKeepsInv(k, acts);
    StartedHandlersRead(k, s);
  }

  lemma OnlyThere(k: Params, s: State)
    ensures CanQuit(k, s, NewMain) ==> s.n.main in {Connecting, Processing}
    ensures CanQuit(k, s, OldMain) ==> s.e.main in {Connecting, Processing, ReportTssDone}
    ensures CanQuit(k, s, RegMain) ==> s.r.main in {RAwaitTss, RWriteMetadata, RWriteDone}
    ensures CanQuit(k, s, AccMain) ==> s.a.main in {AProcessing, ACommitting, AAwaitTss, AWriteNewDone}
  {
  }

  lemma OnlyReadable(k: Params, s: State, t: Thread)
    requires ValidParams(k) && QuitReached(k, s, t)
    ensures t == NewMain ==> s.n.main == Connecting || (Readable(k) && s.n.main == Processing)
    ensures t == OldMain ==> s.e.main == Connecting || (Readable(k) && s.e.main in {Processing, ReportTssDone})
    ensures t == RegMain ==> Readable(k) && s.r.main in {RAwaitTss, RWriteMetadata, RWriteDone}
    ensures t == AccMain ==> Readable(k) && s.a.main in {AProcessing, ACommitting, AAwaitTss, AWriteNewDone}
  {
    hide Reaches, ValidParams, CanQuit;
    ReachedReads(k, s);
    OnlyThere(k, s);
  }

  /** The two handlers, whatever the library: the metadata opens the record and the place is one of these. */
  lemma HandlersReturnEarlyIff(k: Params, r: RegisterMain, a: AcceptMain)
    requires ValidParams(k)
    ensures RegisterReturnsAt(k, r) <==> Readable(k) && r in {RAwaitTss, RWriteMetadata, RWriteDone}
    ensures AcceptReturnsAt(k, a) <==> Readable(k) && a in {AProcessing, ACommitting, AAwaitTss, AWriteNewDone}
  {
    hide QuitReached, ValidParams;
    if s :| QuitReached(k, s, RegMain) && s.r.main == r {
      OnlyReadable(k, s, RegMain);
    }
    if s :| QuitReached(k, s, AccMain) && s.a.main == a {
      OnlyReadable(k, s, AccMain);
    }
    if Readable(k) {
      HandlersReturn(k);
    }
  }

  /** The two devices: before anything is connected, or while their library has failed, or writing the report. */
  lemma DevicesReturnEarlyIff(k: Params, m: DeviceMain)
    requires ValidParams(k)
    ensures NewReturnsAt(k, m) <==> m == Connecting || (Readable(k) && m == Processing)
    ensures OldReturnsAt(k, m) <==> m == Connecting || (Readable(k) && m in {Processing, ReportTssDone})
  {
    hide QuitReached, ValidParams;
    if s :| QuitReached(k, s, NewMain) && s.n.main == m {
      OnlyReadable(k, s, NewMain);
    }
    if s :| QuitReached(k, s, OldMain) && s.e.main == m {
      OnlyReadable(k, s, OldMain);
    }
    DiallingFails(k);
    if Readable(k) {
      DevicesReturn(k);
      HandlersReturn(k);
    }
  }

  // ---- Where a device can meet the connection its handler has closed ----

  ghost predicate MeetsCloseAt(k: Params, p: Party, m: DeviceMain) {
    exists s :: Reaches(k, s) && Enabled(k, s, Dev(p, DClosed(true))) && DeviceOf(s, p).main == m
  }

  /** Its handler has returned early, and the device's library has finished. */
  function Abandoned(k: Params, net: Net<Ctrl>, p: Party): State
    requires Readable(k)
  {
    var s, main := Working(k, End(k), net), if p == NewDevice then RegMain else AccMain;
    s.(dead := s.dead + {main}, quit := s.quit + {main})
  }

  lemma ReachesAbandoned(k: Params, net: Net<Ctrl>, p: Party)
    requires Readable(k) && p != Server && Idle(net) && Reaches(k, Working(k, End(k), net))
    ensures Reaches(k, Abandoned(k, net, p))
  {
    hide Reaches;
    ReachesNext(k, Working(k, End(k), net), Quit(if p == NewDevice then RegMain else AccMain));
  }

  lemma MeetsClose(k: Params, net: Net<Ctrl>, p: Party)
    requires Readable(k) && p != Server && Idle(net) && Reaches(k, Abandoned(k, net, p))
    ensures MeetsCloseAt(k, p, Processing) && MeetsCloseAt(k, p, AwaitDone)
    ensures p == OldDevice ==> MeetsCloseAt(k, p, ReportTssDone)
  {
    hide Reaches;
    var s0 := Abandoned(k, net, p);
    assert Enabled(k, s0, Dev(p, DClosed(true)));
    ReachesNext(k, s0, Dev(p, DTssDone));
    var s1 := Step(k, s0, Dev(p, DTssDone));
    assert Enabled(k, s1, Dev(p, DClosed(true)));
    if p == OldDevice {
      ReachesNext(k, s1, Dev(p, DWriteTssDone));
      assert Enabled(k, Step(k, s1, Dev(p, DWriteTssDone)), Dev(p, DClosed(true)));
    }
  }

  /** A device whose handler has given up can meet the closed connection wherever its main thread then is. */
  lemma ClosedConnectionIsMet(k: Params, p: Party)
    requires ValidParams(k) && Readable(k) && p != Server
    ensures MeetsCloseAt(k, p, Processing) && MeetsCloseAt(k, p, AwaitDone)
    ensures p == OldDevice ==> MeetsCloseAt(k, p, ReportTssDone)
  {
    hide Reaches, ValidParams, MeetsCloseAt, Abandoned, Working;
    var net := AllComputed(k);
    ReachesAbandoned(k, net, p);
    MeetsClose(k, net, p);
  }
}
