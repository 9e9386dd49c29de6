/**
 What the two devices can return when something fails. A run in which every message is delivered as
 soon as it is produced brings all three libraries to their end while no main thread has looked; from
 there each failure is a few steps away. The conditions are stated from outside: which thread may
 return early, which library may fail, and whether the metadata opens the record.
 */
module AddDeviceFailures {
  import opened AddDevice
  import opened AddDeviceErrors
  import opened AddDeviceInvariant
  import opened AddDeviceStages
  import opened AddDeviceSteps
  import opened Identities
  import opened Queues
  import opened StarRouting
  import opened TssLibrary
  import opened Wrappers

  // ---- All three libraries at work ----

  /** Everybody has started; the libraries are at `pos` and the network holds `net`. */
  function Working(k: Params, pos: Pos, net: Net<Ctrl>): State
    requires Readable(k)
  {
    var s := HandlersStarted(k);
    s.(n := s.n.(got := 2, main := Processing, sender := Sending, adder := Some(NewAdder(k))),
       e := s.e.(got := 2, main := Processing, sender := Sending, adder := Some(OldAdder(k))),
       r := s.r.(reader := RReading, stage := 30), a := s.a.(reader := AReading, stage := 30),
       net := net, pos := pos)
  }

  const START := Pos(0, 0, 0)

  lemma ReachesWorking(k: Params)
    requires Readable(k) && Reaches(k, HandlersStarted(k))
    ensures Reaches(k, Working(k, START, EmptyNet()))
  {
    hide Reaches;
    var s0 := HandlersStarted(k);
    ReachesNext(k, s0, Reg(RDoSetStage));
    var s1 := Step(k, s0, Reg(RDoSetStage));
    ReachesNext(k, s1, Acc(ADoSetStage));
    var s2 := Step(k, s1, Acc(ADoSetStage));
    ReachesNext(k, s2, Dev(NewDevice, DRead));
    var s3 := Step(k, s2, Dev(NewDevice, DRead));
    ReachesNext(k, s3, Dev(NewDevice, DStart));
    var s4 := Step(k, s3, Dev(NewDevice, DStart));
    ReachesNext(k, s4, Dev(OldDevice, DRead));
    var s5 := Step(k, s4, Dev(OldDevice, DRead));
    ReachesNext(k, s5, Dev(OldDevice, DStart));
    assert Step(k, s5, Dev(OldDevice, DStart)) == Working(k, START, EmptyNet());
  }

  lemma WorkingIsReached(k: Params)
    requires Readable(k)
    ensures Reaches(k, Working(k, START, EmptyNet()))
  {
    hide Reaches, HandlersStarted, Working;
    ReachesBothConnected(k);
    ReachesIdsExchanged(k);
    ReachesDevicesAnswered(k);
    ReachesAdderOffered(k);
    ReachesHandlersStarted(k);
    ReachesWorking(k);
  }

  // ---- One message at a time ----

  predicate Idle(net: Net<Ctrl>) {
    net == EmptyNet<Ctrl>().(sent := net.sent, handled := net.handled, relayed := net.relayed)
  }

  /** Every message produced has been handed over. */
  ghost predicate Delivered(k: Params, pos: Pos, handled: seq<Tss>) {
    && InScripts(k.scripts, pos)
    && forall f: Party, t: Party :: f != t ==> PairDelivered(k, pos, handled, f, t)
  }

  ghost predicate PairDelivered(k: Params, pos: Pos, handled: seq<Tss>, f: Party, t: Party)
    requires InScripts(k.scripts, pos)
  {
    |Pick(handled, f, k.ids.Of(t))| == Produced(k.scripts, pos, f, t)
  }

  lemma OneMessage(m: Tss)
    ensures For([m], m.peerID) == [m] && DropFirst([m], m.peerID) == []
    ensures For<Payload>([], m.peerID) == []
  {
    assert [m][1..] == [];
  }

  /** A device's message climbs to the server. */
  lemma Climbs(k: Params, pos: Pos, net: Net<Ctrl>, p: Party, m: Tss)
    requires Readable(k) && p != Server && Idle(net) && Reaches(k, Working(k, pos, net.SetQueue(p, [m])))
    ensures Reaches(k, Working(k, pos, net.SetUp(p, [TssFrame(m)])))
  {
    hide Reaches;
    var s := Working(k, pos, net.SetQueue(p, [m]));
    ReachesNext(k, s, Dev(p, DSend));
    assert [m][1..] == [];
    assert Step(k, s, Dev(p, DSend)) == Working(k, pos, net.SetUp(p, [TssFrame(m)]));
  }

  function ServerRead(p: Party): Action {
    if p == NewDevice then Reg(RRead) else Acc(ARead)
  }

  /** The server's reader consumes it or queues it again. */
  lemma IsReadByServer(k: Params, pos: Pos, net: Net<Ctrl>, p: Party, m: Tss)
    requires Readable(k) && p != Server && Idle(net) && Reaches(k, Working(k, pos, net.SetUp(p, [TssFrame(m)])))
    ensures Reaches(k, Working(k, pos, net.Handle(Server, SERVER_ID, m)))
  {
    hide Reaches;
    var s := Working(k, pos, net.SetUp(p, [TssFrame(m)]));
    ReachesNext(k, s, ServerRead(p));
    var frame: Frame<Ctrl> := TssFrame(m);
    assert [frame][1..] == [];
    assert Step(k, s, ServerRead(p)) == Working(k, pos, net.Handle(Server, SERVER_ID, m));
  }

  function ServerSend(q: Party): Action {
    if q == NewDevice then Reg(RSend) else Acc(ASend)
  }

  /** A device hands over the message on its websocket. */
  lemma Lands(k: Params, pos: Pos, net: Net<Ctrl>, q: Party, m: Tss)
    requires Readable(k) && q != Server && Idle(net) && m.peerID == k.ids.Of(q)
    requires Reaches(k, Working(k, pos, net.SetDown(q, [TssFrame(m)])))
    ensures Reaches(k, Working(k, pos, net.(handled := net.handled + [m])))
  {
    hide Reaches;
    var s := Working(k, pos, net.SetDown(q, [TssFrame(m)]));
    ReachesNext(k, s, Dev(q, DRead));
    var frame: Frame<Ctrl> := TssFrame(m);
    assert [frame][1..] == [];
    assert Step(k, s, Dev(q, DRead)) == Working(k, pos, net.(handled := net.handled + [m]));
  }

  /** The server's message descends to its device and is handed over. */
  lemma Descends(k: Params, pos: Pos, net: Net<Ctrl>, q: Party, m: Tss)
    requires Readable(k) && q != Server && Idle(net) && m.peerID == k.ids.Of(q)
    requires Reaches(k, Working(k, pos, net.(srvQ := [m])))
    ensures Reaches(k, Working(k, pos, net.(handled := net.handled + [m])))
  {
    hide Reaches, For, DropFirst;
    OneMessage(m);
    var s := Working(k, pos, net.(srvQ := [m]));
    ReachesNext(k, s, ServerSend(q));
    assert Step(k, s, ServerSend(q)) == Working(k, pos, net.SetDown(q, [TssFrame(m)]));
    hide *;
    Lands(k, pos, net, q, m);
  }

  /** The network after `m` from `p` has gone all the way to `q`. */
  function Carried(net: Net<Ctrl>, p: Party, q: Party, m: Tss): Net<Ctrl> {
    net.(sent := net.sent + [m], handled := net.handled + [m],
         relayed := if p != Server && q != Server then net.relayed + [m] else net.relayed)
  }

  lemma SendIsCarried(k: Params, pos: Pos, net: Net<Ctrl>, p: Party, q: Party)
    requires ValidParams(k) && Readable(k) && Idle(net) && p != q && InScripts(k.scripts, pos)
    requires Reaches(k, Working(k, pos, net))
    requires pos.At(p) < |k.scripts.At(p)| && k.scripts.At(p)[pos.At(p)] == Send(q)
    ensures var m := Message(k.ids.Of(q), Payload(p, 0));
            Reaches(k, Working(k, pos.Advance(p), Carried(net, p, q, m)))
  {
    var m := Message(k.ids.Of(q), Payload(p, 0));
    var base := net.(sent := net.sent + [m]);
    ProducesOne(k, pos, net, p, q);
    hide Reaches, Working, Contract;
    var next := pos.Advance(p);
    if p == Server {
      Descends(k, next, base, q, m);
    } else {
      Climbs(k, next, base, p, m);
      IsReadByServer(k, next, base, p, m);
      if q != Server {
        Descends(k, next, base.(relayed := base.relayed + [m]), q, m);
      }
    }
  }

  lemma ProducesOne(k: Params, pos: Pos, net: Net<Ctrl>, p: Party, q: Party)
    requires Readable(k) && Idle(net) && p != q && InScripts(k.scripts, pos)
    requires Reaches(k, Working(k, pos, net))
    requires pos.At(p) < |k.scripts.At(p)| && k.scripts.At(p)[pos.At(p)] == Send(q)
    ensures var m := Message(k.ids.Of(q), Payload(p, 0));
            Reaches(k, Working(k, pos.Advance(p), net.(sent := net.sent + [m]).SetQueue(p, [m])))
  {
    hide Reaches, Pick;
    var s := Working(k, pos, net);
    ReachesNext(k, s, LibStep(p, 0));
    var m := Message(k.ids.Of(q), Payload(p, 0));
    assert Step(k, s, LibStep(p, 0)) == Working(k, pos.Advance(p), net.(sent := net.sent + [m]).SetQueue(p, [m]));
  }

  lemma CarriedIsDelivered(k: Params, pos: Pos, net: Net<Ctrl>, p: Party, q: Party)
    requires ValidParams(k) && Delivered(k, pos, net.handled) && p != q
    requires pos.At(p) < |k.scripts.At(p)| && k.scripts.At(p)[pos.At(p)] == Send(q)
    ensures Delivered(k, pos.Advance(p), net.handled + [Message(k.ids.Of(q), Payload(p, 0))])
  {
    hide Pick, SendsTo, Contract;
    var m := Message(k.ids.Of(q), Payload(p, 0));
    forall f: Party, t: Party | f != t
      ensures InScripts(k.scripts, pos.Advance(p)) && PairDelivered(k, pos.Advance(p), net.handled + [m], f, t)
    {
      assert PairDelivered(k, pos, net.handled, f, t);
      PickAppend(net.handled, m, f, k.ids.Of(t));
      CountStep(k.scripts.At(p), pos.At(p), t);
      assert k.ids.Of(q) == k.ids.Of(t) <==> q == t;
    }
  }

  lemma ConsumesOne(k: Params, pos: Pos, net: Net<Ctrl>, p: Party)
    requires Readable(k) && Idle(net) && Delivered(k, pos, net.handled) && CanAct(k.scripts, pos, p)
    requires Reaches(k, Working(k, pos, net)) && k.scripts.At(p)[pos.At(p)].Recv?
    requires k.scripts.At(p)[pos.At(p)].from != p
    ensures Reaches(k, Working(k, pos.Advance(p), net)) && Delivered(k, pos.Advance(p), net.handled)
  {
    hide Reaches, Pick, SendsTo, RecvsFrom;
    var s, f := Working(k, pos, net), k.scripts.At(p)[pos.At(p)].from;
    assert PairDelivered(k, pos, net.handled, f, p);
    ReachesNext(k, s, LibStep(p, 0));
    assert Step(k, s, LibStep(p, 0)) == Working(k, pos.Advance(p), net);
    forall f: Party, t: Party | f != t
      ensures InScripts(k.scripts, pos.Advance(p)) && PairDelivered(k, pos.Advance(p), net.handled, f, t)
    {
      assert PairDelivered(k, pos, net.handled, f, t);
      CountStep(k.scripts.At(p), pos.At(p), t);
    }
  }

  /** One act of the library, its message delivered at once. */
  lemma Acts(k: Params, pos: Pos, net: Net<Ctrl>, p: Party) returns (net': Net<Ctrl>)
    requires ValidParams(k) && Readable(k) && Idle(net) && Delivered(k, pos, net.handled) && CanAct(k.scripts, pos, p)
    requires Reaches(k, Working(k, pos, net))
    ensures Idle(net') && Delivered(k, pos.Advance(p), net'.handled) && Reaches(k, Working(k, pos.Advance(p), net'))
  {
    hide Reaches, Working, Delivered;
    assert InScripts(k.scripts, pos) by { ScriptsOf(k, pos, net); }
    match k.scripts.At(p)[pos.At(p)]
    case Send(q) =>
      assert q != p;
      var m := Message(k.ids.Of(q), Payload(p, 0));
      SendIsCarried(k, pos, net, p, q);
      CarriedIsDelivered(k, pos, net, p, q);
      net' := Carried(net, p, q, m);
    case Recv(f) =>
      assert f != p;
      ConsumesOne(k, pos, net, p);
      net' := net;
  }

  lemma ScriptsOf(k: Params, pos: Pos, net: Net<Ctrl>)
    requires Delivered(k, pos, net.handled)
    ensures InScripts(k.scripts, pos)
  {
  }

  lemma {:induction false} ActsInOrder(k: Params, pos: Pos, net: Net<Ctrl>, order: seq<Party>)
    returns (net': Net<Ctrl>)
    requires ValidParams(k) && Readable(k) && Idle(net) && Delivered(k, pos, net.handled)
    requires Playable(k.scripts, pos, order) && Reaches(k, Working(k, pos, net))
    ensures Idle(net') && Reaches(k, Working(k, Play(pos, order), net'))
    decreases |order|
  {
    hide Reaches, Working, Delivered, Idle, CanAct, ValidParams;
    if order == [] {
      net' := net;
    } else {
      var middle := Acts(k, pos, net, order[0]);
      net' := ActsInOrder(k, pos.Advance(order[0]), middle, order[1..]);
    }
  }

  function End(k: Params): Pos {
    Pos(|k.scripts.server|, |k.scripts.newDevice|, |k.scripts.oldDevice|)
  }

  lemma NothingProduced(k: Params)
    ensures Delivered(k, START, [])
  {
    forall f: Party, t: Party | f != t ensures PairDelivered(k, START, [], f, t) {
      assert k.scripts.At(f)[..0] == [];
    }
  }

  /** All three libraries have finished and no main thread has noticed. */
  lemma AllComputed(k: Params) returns (net: Net<Ctrl>)
    requires ValidParams(k) && Readable(k)
    ensures Idle(net) && Reaches(k, Working(k, End(k), net))
  {
    WorkingIsReached(k);
    NothingProduced(k);
    var order :| Complete(k.scripts, order);
    hide Reaches, Working, Delivered, ValidParams;
    net := ActsInOrder(k, START, EmptyNet(), order);
  }

  // ---- Errors from a handler that returns early ----

  /** Some run, in which AcceptDeviceHandler returns early only if it may, ends with AcceptDevice returning an error. */
  ghost predicate AcceptFails(k: Params, mayQuit: bool) {
    exists acts :: IsRun(k, acts) && After(k, acts).e.main == Failed && (mayQuit || Quit(AccMain) !in acts)
  }

  /** The same for RegisterDevice, with nothing committed. */
  ghost predicate RegisterFailsUncommitted(k: Params, mayQuit: bool) {
    exists acts :: IsRun(k, acts) && After(k, acts).n.main == Failed && After(k, acts).committed == []
                   && (mayQuit || Quit(RegMain) !in acts)
  }

  /** The handler returns early, the device's reader meets the closed connection, its main thread looks. */
  lemma HandlerQuits(k: Params, net: Net<Ctrl>, p: Party)
    requires Readable(k) && p != Server && Idle(net) && Reaches(k, Working(k, End(k), net))
    ensures exists acts ::
              IsRun(k, acts) && DeviceOf(After(k, acts), p).main == Failed && After(k, acts).committed == []
  {
    var s2 := HandlerQuitsRun(k, net, p);
    var acts :| IsRun(k, acts) && After(k, acts) == s2;
  }

  lemma HandlerQuitsRun(k: Params, net: Net<Ctrl>, p: Party) returns (s3: State)
    requires Readable(k) && p != Server && Idle(net) && Reaches(k, Working(k, End(k), net))
    ensures Reaches(k, s3) && DeviceOf(s3, p).main == Failed && s3.committed == []
  {
    hide Reaches;
    var s0 := Working(k, End(k), net);
    var main := if p == NewDevice then RegMain else AccMain;
    ReachesNext(k, s0, Quit(main));
    var s1 := Step(k, s0, Quit(main));
    ReachesNext(k, s1, Dev(p, DClosed(true)));
    var s2 := Step(k, s1, Dev(p, DClosed(true)));
    ReachesNext(k, s2, Dev(p, DTssDone));
    s3 := Step(k, s2, Dev(p, DTssDone));
  }

  /** AcceptDevice can return an error exactly when its handler may return early and the metadata opens the record. */
  lemma AcceptDeviceFailsIff(k: Params, mayQuit: bool)
    requires ValidParams(k)
    ensures AcceptFails(k, mayQuit) <==> mayQuit && Readable(k)
  {
    hide ValidParams;
    if AcceptFails(k, mayQuit) {
      var acts :| IsRun(k, acts) && After(k, acts).e.main == Failed && (mayQuit || Quit(AccMain) !in acts);
      AcceptDeviceFailsAfterQuit(k, acts);
    }
    if mayQuit && Readable(k) {
      var net := AllComputed(k);
      HandlerQuits(k, net, OldDevice);
    }
  }

  /** RegisterDevice can return an error with nothing committed exactly when its handler may return early, likewise. */
  lemma RegisterDeviceFailsUncommittedIff(k: Params, mayQuit: bool)
    requires ValidParams(k)
    ensures RegisterFailsUncommitted(k, mayQuit) <==> mayQuit && Readable(k)
  {
    hide ValidParams, Inv;
    if RegisterFailsUncommitted(k, mayQuit) {
      var acts :| IsRun(k, acts) && After(k, acts).n.main == Failed && After(k, acts).committed == []
                  && (mayQuit || Quit(RegMain) !in acts);
      if Quit(RegMain) !in acts {
        RegisterDeviceFailsAfterCommit(k, acts);
      }
      RunKeepsInv(k, acts);
      StartedMeansReadable(k, After(k, acts), NewDevice);
    }
    if mayQuit && Readable(k) {
      var net := AllComputed(k);
      HandlerQuits(k, net, NewDevice);
    }
  }

  // ---- A return without an error and without a wallet ----

  /** The device's main thread has returned because its own library failed: no error, and no wallet. */
  predicate ReturnsNothing(s: State, p: Party)
    requires p != Server
  {
    MainOf(p) in s.quit && DeviceOf(s, p).main == Processing
  }

  ghost predicate ReturnsNothingIn(k: Params, p: Party, acts: seq<Action>)
    requires p != Server
  {
    IsRun(k, acts) && ReturnsNothing(After(k, acts), p) && After(k, acts).committed == []
  }

  /** Some run in which the device's library fails only if it may. */
  ghost predicate EmptyReturn(k: Params, p: Party, mayFail: bool)
    requires p != Server
  {
    exists acts :: ReturnsNothingIn(k, p, acts) && (mayFail || LibFail(p) !in acts)
  }

  lemma NothingMeansFailed(k: Params, acts: seq<Action>, p: Party)
    requires ValidParams(k) && p != Server && ReturnsNothingIn(k, p, acts)
    ensures LibFail(p) in acts && Readable(k)
  {
    hide ValidParams, Enabled, Step;
    RunKeepsInv(k, acts);
    QuitsInProcessing(k, After(k, acts), p);
    FailedMeansFault(k, acts, p);
    hide Inv;
    StartedMeansReadable(k, After(k, acts), p);
  }

  lemma QuitsInProcessing(k: Params, s: State, p: Party)
    requires Inv(k, s) && p != Server && ReturnsNothing(s, p)
    ensures p in s.failed
  {
    hide Routed, Counted, WebsocketsOk, NewDeviceOk, OldDeviceOk, RegisterPc, RegisterVars, AcceptPc, AcceptVars,
         ChannelsOk, HandledAfterStage, MainsAfterLibrary, StartedBeforeMoving;
  }

  lemma LibraryFails(k: Params, p: Party) returns (s2: State)
    requires Readable(k) && p != Server && !Finished(k.scripts, START, p)
    requires Reaches(k, Working(k, START, EmptyNet()))
    ensures Reaches(k, s2) && ReturnsNothing(s2, p) && s2.committed == []
  {
    hide Reaches;
    var s0 := Working(k, START, EmptyNet());
    ReachesNext(k, s0, LibFail(p));
    var s1 := Step(k, s0, LibFail(p));
    ReachesNext(k, s1, Quit(MainOf(p)));
    s2 := Step(k, s1, Quit(MainOf(p)));
  }

  lemma DevicesHaveWork(k: Params, p: Party)
    requires ValidParams(k) && p != Server
    ensures !Finished(k.scripts, START, p)
  {
    if p == OldDevice {
      assert RecvsFrom(k.scripts.At(OldDevice), Server) >= 1;
    } else {
      NewDeviceHasWork(k);
    }
  }

  /** Otherwise nobody could wait for it. */
  lemma NewDeviceHasWork(k: Params)
    requires ValidParams(k)
    ensures k.scripts.newDevice != []
  {
    assert RecvsFrom(k.scripts.At(Server), NewDevice) >= 1;
    var order :| Complete(k.scripts, order);
    if k.scripts.newDevice == [] {
      SilentNewDevice(k.scripts, order);
    }
  }

  lemma SilentNewDevice(s: Scripts, order: seq<Party>)
    requires s.newDevice == [] && Complete(s, order)
    ensures RecvsFrom(s.At(Server), NewDevice) == 0
  {
    NobodySpoke(s, START, order);
    assert s.server[..|s.server|] == s.server;
  }

  lemma {:induction false} NobodySpoke(s: Scripts, pos: Pos, order: seq<Party>)
    requires s.newDevice == [] && Playable(s, pos, order) && Consumed(s, pos, NewDevice, Server) == 0
    ensures InScripts(s, Play(pos, order)) && Consumed(s, Play(pos, order), NewDevice, Server) == 0
    decreases |order|
  {
    hide RecvsFrom, SendsTo;
    if order != [] {
      var p := order[0];
      assert s.newDevice[..pos.newDevice] == [];
      SilentScript();
      if p == Server {
        CountStep(s.server, pos.server, NewDevice);
      }
      NobodySpoke(s, pos.Advance(p), order[1..]);
    }
  }

  lemma SilentScript()
    ensures SendsTo([], Server) == 0
  {
  }

  /**
   A device can return neither an error nor a wallet, with nothing committed, exactly when its own library
   may fail and the metadata opens the record.
   */
  lemma EmptyReturnIff(k: Params, p: Party, mayFail: bool)
    requires ValidParams(k) && p != Server
    ensures EmptyReturn(k, p, mayFail) <==> mayFail && Readable(k)
  {
    if EmptyReturn(k, p, mayFail) {
      var acts :| ReturnsNothingIn(k, p, acts) && (mayFail || LibFail(p) !in acts);
      NothingMeansFailed(k, acts, p);
    }
    if mayFail && Readable(k) {
      WorkingIsReached(k);
      DevicesHaveWork(k, p);
      hide Working, ReturnsNothing, ValidParams;
      var s := LibraryFails(k, p);
      var acts :| IsRun(k, acts) && After(k, acts) == s;
      assert ReturnsNothingIn(k, p, acts);
    }
  }
}
