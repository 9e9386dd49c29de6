/**
 Every step of a fault-free run of the add-device protocol uses up part of a bounded amount of
 work, so runs are finite and, with deadlock freedom, end with all four processes returned.
 */
module AddDeviceTermination {
  import opened Queues
  import opened StarRouting
  import opened TssLibrary
  import opened AddDevice
  import opened AddDeviceInvariant
  import opened AddDeviceSteps
  import opened AddDeviceProgress

  function Minus(a: nat, b: nat): nat { if a >= b then a - b else 0 }

  function LibraryLeft(k: Params, pos: Pos): nat {
    8 * (Minus(|k.scripts.server|, pos.server) + Minus(|k.scripts.newDevice|, pos.newDevice)
         + Minus(|k.scripts.oldDevice|, pos.oldDevice))
  }

  /** A message weighs less at every hop of its way. */
  function NetworkLeft(net: Net<Ctrl>): nat {
    6 * (|net.newQ| + |net.oldQ|)
    + 5 * (|TssOf(net.newUp)| + |TssOf(net.oldUp)|)
    + 3 * |net.srvQ|
    + 2 * (|TssOf(net.newDown)| + |TssOf(net.oldDown)|)
  }

  function SenderLeft(s: SenderPc): nat {
    match s case NotStarted => 2 case Sending => 1 case Exited => 0
  }

  function DeviceLeft(d: Device): nat {
    10 * Minus(4, d.got)
    + (match d.reader case Signalling => 1 case Reading => 0)
    + (match d.main case Connecting => 5 case AwaitStart => 4 case Processing => 3 case ReportTssDone => 2
         case AwaitDone => 1 case Returned => 0 case Failed => 0)
    + SenderLeft(d.sender)
  }

  function RegisterLeft(r: Register): nat {
    10 * Minus(3, r.got)
    + (match r.reader
       case RPutNewId => 3 case RTakeOldId => 2 case RPutAgent => 1
       case RTakeMetadata => 4 case RPutAdder => 3 case RSignalling => 2 case RSetStage => 1
       case RPutNewDone => 1 case RReading => 0 case RGaveUp => 0)
    + (match r.main
       case RAwaitStart => 6 case RAwaitTss => 5 case RAwaitOldTss => 4 case RWriteMetadata => 3
       case RAwaitOldDone => 2 case RWriteDone => 1 case RReturned => 0)
    + SenderLeft(r.sender)
  }

  function AcceptLeft(a: Accept): nat {
    10 * Minus(4, a.got)
    + (match a.reader
       case APutOldId => 2 case ATakeNewId => 1
       case APutMetadata => 4 case ATakeAdder => 3 case ASignalling => 2 case ASetStage => 1
       case APutTssDone => 1 case APutOldDone => 1 case AReading => 0)
    + (match a.main
       case AAwaitStart => 8 case AProcessing => 7 case ATakeAgent => 6 case ACommitting => 5 case AAwaitTss => 4
       case AAwaitNewDone => 3 case AWriteNewDone => 2 case AAwaitDone => 1 case AReturned => 0)
    + SenderLeft(a.sender)
  }

  const THREADS: set<Thread> :=
    {NewMain, NewReader, NewSender, OldMain, OldReader, OldSender,
     RegMain, RegReader, RegSender, AccMain, AccReader, AccSender}

  /** Threads that may still stop. */
  function ThreadsLeft(dead: set<Thread>): nat {
    |THREADS - dead|
  }

  lemma StoppingWorks(dead: set<Thread>, t: Thread)
    requires t !in dead
    ensures ThreadsLeft(dead + {t}) == ThreadsLeft(dead) - 1
  {
    assert t in THREADS;
    assert THREADS - (dead + {t}) == (THREADS - dead) - {t};
  }

  function WorkLeft(k: Params, s: State): nat {
    LibraryLeft(k, s.pos) + NetworkLeft(s.net) + ThreadsLeft(s.dead)
    + DeviceLeft(s.n) + DeviceLeft(s.e) + RegisterLeft(s.r) + AcceptLeft(s.a)
  }

  /** Less work is left in `s'` than in `s`. */
  ghost predicate Works(k: Params, s: State, s': State) {
    WorkLeft(k, s') < WorkLeft(k, s)
  }

  // ---- Frames and messages ----

  lemma WriteIsFree(ws: seq<Frame<Ctrl>>, c: Ctrl)
    ensures TssOf(ws + [Control(c)]) == TssOf(ws)
  {
    FrameAppend(ws, Control(c));
  }

  lemma WriteUpIsFree(net: Net<Ctrl>, p: Party, c: Ctrl)
    ensures NetworkLeft(net.WriteUp(p, c)) == NetworkLeft(net)
  {
    hide TssOf;
    WriteIsFree(net.Up(p), c);
  }

  lemma WriteDownIsFree(net: Net<Ctrl>, p: Party, c: Ctrl)
    ensures NetworkLeft(net.WriteDown(p, c)) == NetworkLeft(net)
  {
    hide TssOf;
    WriteIsFree(net.Down(p), c);
  }

  lemma ReadingControl(ws: seq<Frame<Ctrl>>)
    requires ws != [] && ws[0].Control?
    ensures TssOf(ws[1..]) == TssOf(ws)
  {
  }

  lemma ReadingTss(ws: seq<Frame<Ctrl>>)
    requires ws != [] && ws[0].TssFrame?
    ensures |TssOf(ws[1..])| == |TssOf(ws)| - 1
  {
  }

  lemma ForwardShortens(q: seq<Tss>, id: string)
    requires For(q, id) != []
    ensures |DropFirst(q, id)| == |q| - 1
  {
    var i := DropFirstSplits(q, id);
  }

  // ---- One action at a time ----

  lemma DeviceWorks(k: Params, s: State, p: Party, act: DeviceAct)
    requires ReadyD(k, s, p, act) && act != DRead && act != DSend && !act.DClosed? && act != DSendFails
    ensures Works(k, s, DeviceStep(k, s, p, act))
  {
    hide Inv, ValidParams, NetworkLeft, LibraryLeft, ThreadsLeft;
    WriteUpIsFree(s.net, p, PeerIdBroadcast(k.ids.Of(p)));
    WriteUpIsFree(s.net, OldDevice, TssDone);
  }

  lemma RegisterWorks(k: Params, s: State, act: RegisterAct)
    requires ReadyR(k, s, act) && act != RRead && act != RSend
    requires act != RDoTakeMetadata && act != RDoPutAdder && act != RDoWriteDone
    ensures Works(k, s, RegisterStep(k, s, act))
  {
    hide Inv, ValidParams, NetworkLeft, LibraryLeft, ThreadsLeft;
    WriteDownIsFree(s.net, NewDevice, PeerIdBroadcast(s.r.oldId));
    WriteDownIsFree(s.net, NewDevice, Metadata(s.r.metadata));
  }

  // The handler steps that could panic do not.

  lemma RetrievingWorks(k: Params, s: State)
    requires ReadyR(k, s, RDoTakeMetadata)
    ensures Works(k, s, RegisterStep(k, s, RDoTakeMetadata))
  {
    hide NetworkLeft, LibraryLeft, ThreadsLeft, Routed, Counted, Carries, Contract, NewDeviceOk, OldDeviceOk,
         AcceptVars, WebsocketsOk, HandledAfterStage, MainsAfterLibrary, StartedBeforeMoving;
  }

  lemma HandingOverAdderWorks(k: Params, s: State)
    requires ReadyR(k, s, RDoPutAdder)
    ensures Works(k, s, RegisterStep(k, s, RDoPutAdder))
  {
    hide NetworkLeft, LibraryLeft, ThreadsLeft, Routed, Counted, Carries, Contract, NewDeviceOk, OldDeviceOk,
         AcceptVars, WebsocketsOk, HandledAfterStage, MainsAfterLibrary, StartedBeforeMoving;
    if s.r.adder.Some? {
      WriteDownIsFree(s.net, NewDevice, Pubkey(Public(s.r.adder.value.wallet)));
    }
  }

  lemma ClosingWorks(k: Params, s: State)
    requires ReadyR(k, s, RDoWriteDone)
    ensures Works(k, s, RegisterStep(k, s, RDoWriteDone))
  {
    hide NetworkLeft, LibraryLeft, ThreadsLeft, Routed, Counted, Carries, Contract, NewDeviceOk, OldDeviceOk,
         AcceptVars, WebsocketsOk, HandledAfterStage, MainsAfterLibrary, StartedBeforeMoving;
    WriteDownIsFree(s.net, NewDevice, ExistingDeviceDone);
  }

  lemma AcceptWorks(k: Params, s: State, act: AcceptAct)
    requires ReadyA(k, s, act) && act != ARead && act != ASend && act != ADoPutOldDone && act != ACommit
    requires act != ADoTakeNewId && act != ADoTakeAdder && act != ADoWriteNewDone
    ensures Works(k, s, AcceptStep(k, s, act))
  {
    hide Inv, ValidParams, NetworkLeft, LibraryLeft, ThreadsLeft;
  }

  lemma AcceptAnswersWork(k: Params, s: State, act: AcceptAct)
    requires ReadyA(k, s, act) && (act == ADoTakeNewId || act == ADoTakeAdder || act == ADoWriteNewDone)
    ensures Works(k, s, AcceptStep(k, s, act))
  {
    hide Inv, ValidParams, NetworkLeft, LibraryLeft, ThreadsLeft;
    match act
    case ADoTakeNewId => WriteDownIsFree(s.net, OldDevice, PeerIdBroadcast(s.ch.newId.buf[0]));
    case ADoTakeAdder => WriteDownIsFree(s.net, OldDevice, MetadataAck);
    case ADoWriteNewDone => WriteDownIsFree(s.net, OldDevice, NewDeviceDone);
  }

  lemma AcceptWorksSafely(k: Params, s: State, act: AcceptAct)
    requires ReadyA(k, s, act) && (act == ADoPutOldDone || act == ACommit)
    ensures Works(k, s, AcceptStep(k, s, act))
  {
    hide NetworkLeft, LibraryLeft, ThreadsLeft, Routed, Counted, Carries, Contract, NewDeviceOk, OldDeviceOk,
         RegisterVars, WebsocketsOk, HandledAfterStage, MainsAfterLibrary, StartedBeforeMoving;
  }

  lemma RegisterReadWorks(k: Params, s: State)
    requires ReadyR(k, s, RRead)
    ensures Works(k, s, RegisterStep(k, s, RRead))
  {
    hide TssOf, ThreadsLeft, Inv, ValidParams, RegisterStep;
    if s.net.newUp[0].TssFrame? {
      RegisterTssEffect(k, s);
      ReadingTss(s.net.newUp);
    } else {
      RegisterReadEffect(k, s);
      ReadingControl(s.net.newUp);
    }
  }

  lemma AcceptReadWorks(k: Params, s: State)
    requires ReadyA(k, s, ARead)
    ensures Works(k, s, AcceptStep(k, s, ARead))
  {
    hide TssOf, ThreadsLeft, Inv, ValidParams, AcceptStep;
    if s.net.oldUp[0].TssFrame? {
      AcceptReadyForTss(k, s);
      AcceptTssEffect(k, s);
      ReadingTss(s.net.oldUp);
    } else {
      AcceptReadEffect(k, s);
      ReadingControl(s.net.oldUp);
    }
  }

  lemma DeviceReadTssWorks(k: Params, s: State, p: Party)
    requires ReadyD(k, s, p, DRead) && s.net.Down(p)[0].TssFrame?
    ensures Works(k, s, DeviceStep(k, s, p, DRead))
  {
    hide TssOf, ThreadsLeft, Inv, ValidParams, DeviceStep;
    DeviceTssEffect(k, s, p);
    ReadingTss(s.net.Down(p));
    assert s.net.Down(p)[0].m.peerID == k.ids.Of(p) by { TssForDevice(k, s, p); }
  }

  lemma TssForDevice(k: Params, s: State, p: Party)
    requires Inv(k, s) && p != Server && s.net.Down(p) != [] && s.net.Down(p)[0].TssFrame?
    ensures s.net.Down(p)[0].m.peerID == k.ids.Of(p)
  {
    hide Routed;
    ToItsDevice(s.net, k.ids, p);
  }

  lemma NewReadControlWorks(k: Params, s: State)
    requires ReadyD(k, s, NewDevice, DRead) && s.net.newDown != [] && s.net.newDown[0].Control?
    ensures Works(k, s, DeviceStep(k, s, NewDevice, DRead))
  {
    hide TssOf, ThreadsLeft, LibraryLeft, Inv, ValidParams, DeviceStep, DeviceEnabled, NewScript, NewWrote, Contract;
    NewReadEffect(k, s);
    ReadingControl(s.net.newDown);
    if s.n.got == 0 || s.n.got == 2 {
      WriteIsFree(s.net.newUp, NewScript(k)[NewWrote(s.n)]);
    }
  }

  lemma OldReadControlWorks(k: Params, s: State)
    requires ReadyD(k, s, OldDevice, DRead) && s.net.oldDown != [] && s.net.oldDown[0].Control?
    ensures Works(k, s, DeviceStep(k, s, OldDevice, DRead))
  {
    hide TssOf, ThreadsLeft, LibraryLeft, Inv, ValidParams, DeviceStep, DeviceEnabled, OldScript, OldWrote, Contract;
    OldReadEffect(k, s);
    ReadingControl(s.net.oldDown);
    if s.e.got == 0 || s.e.got == 2 {
      WriteIsFree(s.net.oldUp, OldScript(k)[OldWrote(s.e)]);
    }
  }

  lemma ClosedWorks(k: Params, s: State, p: Party, abrupt: bool)
    requires ReadyD(k, s, p, DClosed(abrupt))
    ensures Works(k, s, DeviceStep(k, s, p, DClosed(abrupt)))
  {
    hide NetworkLeft, ThreadsLeft, LibraryLeft, Inv, ValidParams;
    StoppingWorks(s.dead, ReaderOf(p));
  }

  lemma SendFailsWorks(k: Params, s: State, p: Party)
    requires ReadyD(k, s, p, DSendFails)
    ensures Works(k, s, DeviceStep(k, s, p, DSendFails))
  {
    hide TssOf, ThreadsLeft, LibraryLeft, Inv, ValidParams;
    StoppingWorks(s.dead, SenderOf(p));
    FrameAppend<Ctrl>(s.net.Up(p), TssFrame(s.net.Queue(p)[0]));
  }

  lemma DeviceSendWorks(k: Params, s: State, p: Party)
    requires ReadyD(k, s, p, DSend)
    ensures Works(k, s, DeviceStep(k, s, p, DSend))
  {
    hide TssOf, ThreadsLeft, Inv, ValidParams;
    FrameAppend<Ctrl>(s.net.Up(p), TssFrame(s.net.Queue(p)[0]));
  }

  lemma RegisterSendWorks(k: Params, s: State)
    requires ReadyR(k, s, RSend)
    ensures Works(k, s, RegisterStep(k, s, RSend))
  {
    hide TssOf, ThreadsLeft, Inv, ValidParams, For, DropFirst;
    ForwardShortens(s.net.srvQ, s.r.newId);
    FrameAppend<Ctrl>(s.net.newDown, TssFrame(For(s.net.srvQ, s.r.newId)[0]));
  }

  lemma AcceptSendWorks(k: Params, s: State)
    requires ReadyA(k, s, ASend)
    ensures Works(k, s, AcceptStep(k, s, ASend))
  {
    hide TssOf, ThreadsLeft, Inv, ValidParams, For, DropFirst;
    ForwardShortens(s.net.srvQ, s.a.oldId);
    FrameAppend<Ctrl>(s.net.oldDown, TssFrame(For(s.net.srvQ, s.a.oldId)[0]));
  }

  lemma LibraryWorks(k: Params, s: State, p: Party, content: nat)
    requires ReadyL(k, s, p)
    ensures Works(k, s, LibraryStep(k, s, p, content))
  {
    hide TssOf, ThreadsLeft, Inv, ValidParams, Pick, RecvsFrom, SendsTo;
  }

  lemma AnyDeviceStepWorks(k: Params, s: State, p: Party, act: DeviceAct)
    requires ReadyD(k, s, p, act)
    ensures Works(k, s, DeviceStep(k, s, p, act))
  {
    hide Inv, ValidParams, Works, DeviceStep;
    match act
    case DRead =>
      if s.net.Down(p)[0].TssFrame? { DeviceReadTssWorks(k, s, p); }
      else if p == NewDevice { NewReadControlWorks(k, s); }
      else { OldReadControlWorks(k, s); }
    case DSend => DeviceSendWorks(k, s, p);
    case DClosed(abrupt) => ClosedWorks(k, s, p, abrupt);
    case DSendFails => SendFailsWorks(k, s, p);
    case _ => DeviceWorks(k, s, p, act);
  }

  lemma AnyRegisterStepWorks(k: Params, s: State, act: RegisterAct)
    requires ReadyR(k, s, act)
    ensures Works(k, s, RegisterStep(k, s, act))
  {
    hide Inv, ValidParams, Works, RegisterStep;
    match act
    case RRead => RegisterReadWorks(k, s);
    case RSend => RegisterSendWorks(k, s);
    case RDoTakeMetadata => RetrievingWorks(k, s);
    case RDoPutAdder => HandingOverAdderWorks(k, s);
    case RDoWriteDone => ClosingWorks(k, s);
    case _ => RegisterWorks(k, s, act);
  }

  lemma AnyAcceptStepWorks(k: Params, s: State, act: AcceptAct)
    requires ReadyA(k, s, act)
    ensures Works(k, s, AcceptStep(k, s, act))
  {
    hide Inv, ValidParams, Works, AcceptStep;
    match act
    case ARead => AcceptReadWorks(k, s);
    case ASend => AcceptSendWorks(k, s);
    case ADoPutOldDone => AcceptWorksSafely(k, s, act);
    case ACommit => AcceptWorksSafely(k, s, act);
    case _ =>
      if act == ADoTakeNewId || act == ADoTakeAdder || act == ADoWriteNewDone { AcceptAnswersWork(k, s, act); }
      else { AcceptWorks(k, s, act); }
  }

  /** Every step that is not a fault uses up work. */
  lemma StepWorks(k: Params, s: State, act: Action)
    requires ValidParams(k) && Inv(k, s) && Enabled(k, s, act) && !IsFault(act)
    ensures Works(k, s, Step(k, s, act))
  {
    hide Inv, ValidParams, Works, DeviceStep, DeviceEnabled, RegisterStep, RegisterEnabled, AcceptStep, AcceptEnabled,
         LibraryStep, LibEnabled;
    match act
    case Dev(p, d) => AnyDeviceStepWorks(k, s, p, d);
    case Reg(r) => AnyRegisterStepWorks(k, s, r);
    case Acc(a) => AnyAcceptStepWorks(k, s, a);
    case LibStep(p, content) => LibraryWorks(k, s, p, content);
    case Cancel(t) => CancelWorks(k, s, t);
  }

  lemma CancelWorks(k: Params, s: State, t: Thread)
    requires Alive(s, t)
    ensures Works(k, s, s.(dead := s.dead + {t}))
  {
    hide NetworkLeft, ThreadsLeft, LibraryLeft;
    StoppingWorks(s.dead, t);
  }

  // ---- Whole runs ----

  /** Without faults threads only stop when they may, and no library fails. */
  lemma {:induction false} FaultFreeState(k: Params, acts: seq<Action>)
    requires ValidParams(k) && IsRun(k, acts) && FaultFree(acts)
    ensures Inv(k, After(k, acts)) && After(k, acts).failed == {} && After(k, acts).quit == {}
    ensures forall t :: t in After(k, acts).dead ==> Excused(After(k, acts), t)
  {
    hide ValidParams, Inv, Step, Enabled, Excused;
    RunKeepsInv(k, acts);
    if acts != [] {
      var before, act := acts[..|acts| - 1], acts[|acts| - 1];
      FaultFreeState(k, before);
      assert act in acts && !IsFault(act);
      StepExcuses(k, After(k, before), act);
    }
  }

  /** Processes stay returned and closed connections stay silent. */
  predicate StaysReturned(s: State, s': State) {
    && (DeviceReturned(s.n) ==> DeviceReturned(s'.n)) && (DeviceReturned(s.e) ==> DeviceReturned(s'.e))
    && (s.r.main == RReturned ==> s'.r.main == RReturned && (s.net.newDown == [] ==> s'.net.newDown == []))
    && (s.a.main == AReturned ==> s'.a.main == AReturned && (s.net.oldDown == [] ==> s'.net.oldDown == []))
  }

  /** Whatever excuses a stopped thread stays true. */
  lemma StepExcuses(k: Params, s: State, act: Action)
    requires ValidParams(k) && Inv(k, s) && Enabled(k, s, act) && !IsFault(act)
    requires s.quit == {} && forall t :: t in s.dead ==> Excused(s, t)
    ensures var s' := Step(k, s, act);
            s'.failed == s.failed && s'.quit == s.quit && forall t :: t in s'.dead ==> Excused(s', t)
  {
    hide Inv, ValidParams, Step, Enabled;
    StepStaysReturned(k, s, act);
    StopsAreExcused(k, s, act);
    forall t | t in Step(k, s, act).dead ensures Excused(Step(k, s, act), t) {
      if t in s.dead {
        assert Excused(s, t);
      }
    }
  }

  lemma StopsAreExcused(k: Params, s: State, act: Action)
    requires Enabled(k, s, act) && !IsFault(act) && s.quit == {}
    ensures var s' := Step(k, s, act);
            && s'.failed == s.failed && s'.quit == s.quit
            && (forall t :: t in s'.dead ==> t in s.dead || Excused(s', t))
  {
    hide RegisterEnabled, AcceptEnabled, LibEnabled, DeviceEnabled, DeviceStep, RegisterStep, AcceptStep, LibraryStep;
    match act
    case Dev(p, d) => DeviceStopsAreExcused(k, s, p, d);
    case Reg(r) => RegisterStopsNobody(k, s, r);
    case Acc(a) => AcceptStopsNobody(k, s, a);
    case LibStep(p, content) => LibraryStopsNobody(k, s, p, content);
    case Cancel(t) => CancelIsExcused(k, s, t);
  }

  lemma CancelIsExcused(k: Params, s: State, t: Thread)
    requires Enabled(k, s, Cancel(t)) && s.quit == {}
    ensures Step(k, s, Cancel(t)) == s.(dead := s.dead + {t}) && Excused(s.(dead := s.dead + {t}), t)
  {
  }

  lemma DeviceStopsAreExcused(k: Params, s: State, p: Party, act: DeviceAct)
    requires DeviceEnabled(k, s, p, act) && s.quit == {}
    ensures var s' := DeviceStep(k, s, p, act);
            && s'.failed == s.failed && s'.quit == s.quit
            && (s'.dead == s.dead || (exists t :: s'.dead == s.dead + {t} && Excused(s', t)))
  {
    if act.DClosed? {
      assert DeviceStep(k, s, p, act).dead == s.dead + {ReaderOf(p)};
    } else if act == DSendFails {
      assert DeviceStep(k, s, p, act).dead == s.dead + {SenderOf(p)};
    }
  }

  lemma RegisterStopsNobody(k: Params, s: State, act: RegisterAct)
    requires RegisterEnabled(k, s, act)
    ensures var s' := RegisterStep(k, s, act); s'.dead == s.dead && s'.failed == s.failed && s'.quit == s.quit
  {
  }

  lemma AcceptStopsNobody(k: Params, s: State, act: AcceptAct)
    requires AcceptEnabled(k, s, act)
    ensures var s' := AcceptStep(k, s, act); s'.dead == s.dead && s'.failed == s.failed && s'.quit == s.quit
  {
  }

  lemma LibraryStopsNobody(k: Params, s: State, p: Party, content: nat)
    requires LibEnabled(k, s, p)
    ensures var s' := LibraryStep(k, s, p, content); s'.dead == s.dead && s'.failed == s.failed && s'.quit == s.quit
  {
    hide Pick, RecvsFrom, SendsTo;
  }

  lemma StepStaysReturned(k: Params, s: State, act: Action)
    requires ValidParams(k) && Inv(k, s) && Enabled(k, s, act) && !IsFault(act)
    ensures StaysReturned(s, Step(k, s, act))
  {
    hide Inv, ValidParams, DeviceStep, DeviceEnabled, RegisterStep, RegisterEnabled, AcceptStep, AcceptEnabled,
         StaysReturned;
    match act
    case Dev(p, d) => DeviceStaysReturned(k, s, p, d);
    case Reg(r) => RegisterStaysReturned(k, s, r);
    case Acc(a) => AcceptStaysReturned(k, s, a);
    case LibStep(p, content) => LibraryStaysReturned(k, s, p, content);
    case Cancel(t) => CancelStaysReturned(s, t);
  }

  lemma CancelStaysReturned(s: State, t: Thread)
    ensures StaysReturned(s, s.(dead := s.dead + {t}))
  {
  }

  lemma LibraryStaysReturned(k: Params, s: State, p: Party, content: nat)
    requires LibEnabled(k, s, p)
    ensures StaysReturned(s, LibraryStep(k, s, p, content))
  {
    hide Pick, RecvsFrom, SendsTo;
  }

  lemma DeviceStaysReturned(k: Params, s: State, p: Party, act: DeviceAct)
    requires DeviceEnabled(k, s, p, act)
    ensures StaysReturned(s, DeviceStep(k, s, p, act))
  {
    if act == DRead {
      DeviceReadStaysReturned(k, s, p);
    }
  }

  lemma DeviceReadStaysReturned(k: Params, s: State, p: Party)
    requires DeviceEnabled(k, s, p, DRead)
    ensures StaysReturned(s, DeviceStep(k, s, p, DRead))
  {
    assert p == NewDevice ==> s.net.newDown != [];
    assert p == OldDevice ==> s.net.oldDown != [];
  }

  lemma RegisterStaysReturned(k: Params, s: State, act: RegisterAct)
    requires ReadyR(k, s, act)
    ensures StaysReturned(s, RegisterStep(k, s, act))
  {
    hide Inv, ValidParams, RegisterStep;
    if s.r.main == RReturned {
      RegisterOnlyReads(k, s, act);
      if act == RRead {
        RegisterTssEffect(k, s);
      } else {
        RegisterLateStep(k, s, act);
      }
    } else {
      RegisterRunning(k, s, act);
    }
  }

  lemma RegisterLateStep(k: Params, s: State, act: RegisterAct)
    requires RegisterEnabled(k, s, act) && (act == RDoPutNewDone || act == RExit)
    ensures StaysReturned(s, RegisterStep(k, s, act))
  {
  }

  lemma RegisterRunning(k: Params, s: State, act: RegisterAct)
    requires RegisterEnabled(k, s, act) && s.r.main != RReturned
    ensures StaysReturned(s, RegisterStep(k, s, act))
  {
    hide For, DropFirst;
  }

  /** After its return the handler's reader can only meet TSS frames. */
  lemma RegisterOnlyReads(k: Params, s: State, act: RegisterAct)
    requires ReadyR(k, s, act) && s.r.main == RReturned
    ensures act == RRead || act == RDoPutNewDone || act == RExit
    ensures act == RRead ==> s.net.newUp[0].TssFrame?
  {
    hide Routed, Counted, Carries, ValidParams, NewDeviceOk, OldDeviceOk, AcceptVars, RegisterVars, ChannelsOk,
         HandledAfterStage, MainsAfterLibrary, StartedBeforeMoving, RegisterStep;
    LastCounts(k, s);
    if act == RRead && s.net.newUp[0].Control? {
      RegisterReadEffect(k, s);
    }
  }

  lemma AcceptStaysReturned(k: Params, s: State, act: AcceptAct)
    requires ReadyA(k, s, act)
    ensures StaysReturned(s, AcceptStep(k, s, act))
  {
    hide Inv, ValidParams, AcceptStep;
    if s.a.main == AReturned {
      AcceptOnlyReads(k, s, act);
      if act == ARead {
        AcceptReadyForTss(k, s);
        AcceptTssEffect(k, s);
      } else {
        AcceptLateStep(k, s);
      }
    } else {
      AcceptRunning(k, s, act);
    }
  }

  lemma AcceptLateStep(k: Params, s: State)
    requires AcceptEnabled(k, s, AExit)
    ensures StaysReturned(s, AcceptStep(k, s, AExit))
  {
  }

  lemma AcceptRunning(k: Params, s: State, act: AcceptAct)
    requires AcceptEnabled(k, s, act) && s.a.main != AReturned
    ensures StaysReturned(s, AcceptStep(k, s, act))
  {
    hide For, DropFirst;
  }

  lemma AcceptOnlyReads(k: Params, s: State, act: AcceptAct)
    requires ReadyA(k, s, act) && s.a.main == AReturned
    ensures act == ARead || act == AExit
    ensures act == ARead ==> s.net.oldUp[0].TssFrame?
  {
    hide Routed, Counted, Carries, ValidParams, NewDeviceOk, OldDeviceOk, AcceptVars, RegisterVars, RegisterPc,
         HandledAfterStage, MainsAfterLibrary, StartedBeforeMoving, AcceptStep;
    AcceptReturnsAfterReport(k, s);
    if act == ARead && s.net.oldUp[0].Control? {
      AcceptReadEffect(k, s);
    }
  }

  /** A fault-free run of `n` steps has used up at least `n` units of the initial work. */
  lemma {:induction false} RunsAreBounded(k: Params, acts: seq<Action>)
    requires ValidParams(k) && IsRun(k, acts) && FaultFree(acts)
    ensures |acts| + WorkLeft(k, After(k, acts)) <= WorkLeft(k, Init())
  {
    hide ValidParams, WorkLeft, Enabled, Step;
    if acts == [] {
    } else {
      var before, act := acts[..|acts| - 1], acts[|acts| - 1];
      RunsAreBounded(k, before);
      RunKeepsInv(k, before);
      assert act in acts;
      StepWorks(k, After(k, before), act);
    }
  }

  lemma ReturnMeansReadable(k: Params, s: State)
    requires Inv(k, s) && s.r.main == RReturned
    ensures Readable(k)
  {
    hide Routed, Counted, CtrlOf, Gated, AcceptVars, HandledAfterStage, MainsAfterLibrary, StartedBeforeMoving;
  }

  /**
   Deadlock freedom and termination: a fault-free run has a bounded number of steps, and one that
   cannot go on has brought all four processes home if and only if the metadata opens the record.
   */
  lemma EveryFaultFreeRunReturns(k: Params, acts: seq<Action>)
    requires ValidParams(k) && IsRun(k, acts) && FaultFree(acts)
    ensures |acts| <= WorkLeft(k, Init())
    ensures (forall act :: Enabled(k, After(k, acts), act) ==> IsFault(act)) ==>
              (AllReturned(After(k, acts)) <==> Readable(k))
  {
    hide ValidParams, WorkLeft, Enabled, IsFault, Step, Inv;
    RunsAreBounded(k, acts);
    FaultFreeState(k, acts);
    var s := After(k, acts);
    if Readable(k) && !AllReturned(s) {
      var act := Progress(k, s);
    } else if AllReturned(s) {
      ReturnMeansReadable(k, s);
    }
  }

  const MAINS: set<Thread> := {NewMain, OldMain, RegMain, AccMain}

  /** Nothing is left behind: once such a run of a readable wallet cannot go on, every reader and sender has stopped. */
  lemma NoThreadIsLeft(k: Params, acts: seq<Action>, t: Thread)
    requires ValidParams(k) && Readable(k) && IsRun(k, acts) && FaultFree(acts) && t !in MAINS
    requires forall act :: Enabled(k, After(k, acts), act) ==> IsFault(act)
    ensures t in After(k, acts).dead
  {
    hide ValidParams, WorkLeft, Enabled, Step, Inv, Readable;
    EveryFaultFreeRunReturns(k, acts);
    RunKeepsInv(k, acts);
    ReturnedThreadStops(k, After(k, acts), t);
  }

  lemma ReturnedThreadStops(k: Params, s: State, t: Thread)
    requires Inv(k, s) && AllReturned(s) && t !in MAINS
    ensures t in s.dead || Enabled(k, s, Cancel(t))
  {
  }
}
