/**
 The stage filter against devices that do not follow the protocol. Here either device may write any
 frame at any time, next to everything the processes do themselves, faults included; nothing is
 assumed of ids, metadata or library. From stage 30 on a handler's session is fixed.
 */
module AddDeviceRogue {
  import opened StarRouting
  import opened TssLibrary
  import opened AddDevice

  datatype OpenAction = Own(act: Action) | Forge(p: Party, f: Frame<Ctrl>)

  predicate OpenEnabled(k: Params, s: State, a: OpenAction) {
    match a
    case Own(act) => Enabled(k, s, act)
    case Forge(p, f) => p != Server
  }

  function OpenStep(k: Params, s: State, a: OpenAction): State
    requires OpenEnabled(k, s, a)
  {
    match a
    case Own(act) => Step(k, s, act)
    case Forge(p, f) => s.(net := s.net.SetUp(p, s.net.Up(p) + [f]))
  }

  ghost predicate OpenLeads(k: Params, s: State, run: seq<OpenAction>, end: State)
    decreases |run|
  {
    if run == [] then end == s
    else OpenEnabled(k, s, run[0]) && OpenLeads(k, OpenStep(k, s, run[0]), run[1..], end)
  }

  // ---- What the handlers keep whatever they are sent ----

  /** Before the main thread starts nothing has set the stage; afterwards the reader sets it before it reads on. */
  predicate RegisterSettles(r: Register) {
    if r.main == RAwaitStart then r.stage == 0 && r.reader != RSetStage
    else r.reader == RSetStage || (r.stage >= 30 && (r.reader == RReading || r.reader == RPutNewDone))
  }

  predicate AcceptSettles(a: Accept) {
    if a.main == AAwaitStart then a.stage == 0 && a.reader != ASetStage
    else a.reader == ASetStage
         || (a.stage >= 30 && (a.reader == AReading || a.reader == APutTssDone || a.reader == APutOldDone))
  }

  predicate SameSession(s: State, s': State) {
    && (s.r.stage >= 30 ==>
          s'.r.stage >= 30
          && (s'.r.newId, s'.r.oldId, s'.r.device) == (s.r.newId, s.r.oldId, s.r.device)
          && (s'.r.metadata, s'.r.adder) == (s.r.metadata, s.r.adder))
    && (s.a.stage >= 30 ==>
          s'.a.stage >= 30
          && (s'.a.newId, s'.a.oldId, s'.a.metadata, s'.a.adder) == (s.a.newId, s.a.oldId, s.a.metadata, s.a.adder))
  }

  ghost predicate StepOk(s: State, s': State) {
    RegisterSettles(s'.r) && AcceptSettles(s'.a) && SameSession(s, s')
  }

  lemma RegisterStepOk(k: Params, s: State, act: RegisterAct)
    requires RegisterSettles(s.r) && AcceptSettles(s.a) && RegisterEnabled(k, s, act)
    ensures StepOk(s, RegisterStep(k, s, act))
  {
    hide Queues.For, Queues.DropFirst;
  }

  lemma AcceptStepOk(k: Params, s: State, act: AcceptAct)
    requires RegisterSettles(s.r) && AcceptSettles(s.a) && AcceptEnabled(k, s, act)
    ensures StepOk(s, AcceptStep(k, s, act))
  {
    hide Queues.For, Queues.DropFirst;
  }

  lemma OtherStepOk(k: Params, s: State, act: Action)
    requires RegisterSettles(s.r) && AcceptSettles(s.a) && Enabled(k, s, act) && !act.Reg? && !act.Acc?
    ensures StepOk(s, Step(k, s, act))
  {
    hide Pick, RecvsFrom, SendsTo;
  }

  lemma OpenStepOk(k: Params, s: State, a: OpenAction)
    requires RegisterSettles(s.r) && AcceptSettles(s.a) && OpenEnabled(k, s, a)
    ensures StepOk(s, OpenStep(k, s, a))
  {
    hide RegisterStep, RegisterEnabled, AcceptStep, AcceptEnabled, StepOk;
    match a
    case Own(Reg(r)) => RegisterStepOk(k, s, r);
    case Own(Acc(c)) => AcceptStepOk(k, s, c);
    case Own(act) => OtherStepOk(k, s, act);
    case Forge(p, f) => ForgeOk(s, p, f);
  }

  lemma ForgeOk(s: State, p: Party, f: Frame<Ctrl>)
    requires RegisterSettles(s.r) && AcceptSettles(s.a)
    ensures StepOk(s, s.(net := s.net.SetUp(p, s.net.Up(p) + [f])))
  {
  }

  lemma {:induction false} OpenRunOk(k: Params, s: State, run: seq<OpenAction>, end: State)
    requires RegisterSettles(s.r) && AcceptSettles(s.a) && OpenLeads(k, s, run, end)
    ensures StepOk(s, end)
    decreases |run|
  {
    hide OpenStep, OpenEnabled, RegisterSettles, AcceptSettles;
    if run != [] {
      OpenStepOk(k, s, run[0]);
      OpenRunOk(k, OpenStep(k, s, run[0]), run[1..], end);
    }
  }

  /**
   In every run, whatever the devices write: once a handler's stage has reached 30 it stays there and
   the handler's ids, metadata and adder never change again.
   */
  lemma SessionIsFixed(k: Params, before: seq<OpenAction>, s: State, later: seq<OpenAction>, end: State)
    requires OpenLeads(k, Init(), before, s) && OpenLeads(k, s, later, end)
    ensures SameSession(s, end)
  {
    OpenRunOk(k, Init(), before, s);
    OpenRunOk(k, s, later, end);
  }

  // ---- What is committed ----

  /** Nothing before the handler's write; afterwards one peer, with the handler's own session. */
  predicate CommitSettles(k: Params, s: State) {
    if s.a.main in {AAwaitStart, AProcessing, ATakeAgent, ACommitting} then s.committed == []
    else
      && s.a.adder.Some?
      && s.committed
         == [Commit(s.a.newId, s.a.metadata, s.a.agent, k.merged(s.a.adder.value.wallet, s.a.newId))]
  }

  lemma AcceptCommitsOnce(k: Params, s: State, act: AcceptAct)
    requires AcceptSettles(s.a) && CommitSettles(k, s) && AcceptEnabled(k, s, act)
    requires !AcceptStep(k, s, act).panicked
    ensures CommitSettles(k, AcceptStep(k, s, act))
  {
    hide Queues.For, Queues.DropFirst;
  }

  lemma OthersCommitNothing(k: Params, s: State, a: OpenAction)
    requires OpenEnabled(k, s, a) && !(a.Own? && a.act.Acc?)
    ensures OpenStep(k, s, a).a == s.a && OpenStep(k, s, a).committed == s.committed
  {
    hide RegisterStep, RegisterEnabled, DeviceStep, DeviceEnabled, Pick, RecvsFrom, SendsTo;
    match a
    case Own(Reg(r)) => RegisterCommitsNothing(k, s, r);
    case Own(Dev(p, d)) => DeviceCommitsNothing(k, s, p, d);
    case _ =>
  }

  lemma RegisterCommitsNothing(k: Params, s: State, act: RegisterAct)
    requires RegisterEnabled(k, s, act)
    ensures RegisterStep(k, s, act).a == s.a && RegisterStep(k, s, act).committed == s.committed
  {
    hide Queues.For, Queues.DropFirst;
  }

  lemma DeviceCommitsNothing(k: Params, s: State, p: Party, act: DeviceAct)
    requires DeviceEnabled(k, s, p, act)
    ensures DeviceStep(k, s, p, act).a == s.a && DeviceStep(k, s, p, act).committed == s.committed
  {
    hide Queues.For, Queues.DropFirst;
  }

  lemma PanicIsFinal(k: Params, s: State, a: OpenAction)
    requires OpenEnabled(k, s, a) && s.panicked
    ensures OpenStep(k, s, a).panicked
  {
    hide RegisterStep, AcceptStep, DeviceStep, LibraryStep;
  }

  lemma {:induction false} OpenRunCommits(k: Params, s: State, run: seq<OpenAction>, end: State)
    requires RegisterSettles(s.r) && AcceptSettles(s.a) && CommitSettles(k, s)
    requires OpenLeads(k, s, run, end) && !end.panicked
    ensures CommitSettles(k, end)
    decreases |run|
  {
    hide OpenEnabled, OpenStep, RegisterSettles, AcceptSettles, SameSession;
    if run != [] {
      var next := OpenStep(k, s, run[0]);
      OpenStepOk(k, s, run[0]);
      if next.panicked {
        StaysPanicked(k, next, run[1..], end);
      } else {
        StepSettles(k, s, run[0]);
        OpenRunCommits(k, next, run[1..], end);
      }
    }
  }

  lemma {:induction false} StaysPanicked(k: Params, s: State, run: seq<OpenAction>, end: State)
    requires OpenLeads(k, s, run, end) && s.panicked
    ensures end.panicked
    decreases |run|
  {
    hide OpenEnabled, OpenStep;
    if run != [] {
      PanicIsFinal(k, s, run[0]);
      StaysPanicked(k, OpenStep(k, s, run[0]), run[1..], end);
    }
  }

  lemma StepSettles(k: Params, s: State, a: OpenAction)
    requires RegisterSettles(s.r) && AcceptSettles(s.a) && CommitSettles(k, s)
    requires OpenEnabled(k, s, a) && !OpenStep(k, s, a).panicked
    ensures CommitSettles(k, OpenStep(k, s, a))
  {
    hide AcceptStep, RegisterSettles, AcceptSettles, RegisterStep, DeviceStep, LibraryStep;
    if a.Own? && a.act.Acc? {
      AcceptCommitsOnce(k, s, a.act.a);
    } else {
      OthersCommitNothing(k, s, a);
    }
  }

  /**
   In every run that does not panic, whatever the devices write: the handler adds at most one peer, under
   the peer id, the metadata and the adder its session started with.
   */
  lemma CommitsAtMostOnce(k: Params, run: seq<OpenAction>, end: State)
    requires OpenLeads(k, Init(), run, end) && !end.panicked
    ensures end.committed == [] || (end.a.adder.Some? && end.committed
              == [Commit(end.a.newId, end.a.metadata, end.a.agent,
                         k.merged(end.a.adder.value.wallet, end.a.newId))])
  {
    OpenRunCommits(k, Init(), run, end);
  }

  // ---- Frames that come late or that nobody expects ----

  /**
   Each reader drops a frame of an earlier stage and answers one it has no case for with an error; either
   way nothing but its own counter and the websocket changes.
   */
  lemma RegisterFilters(k: Params, s: State)
    requires RegisterEnabled(k, s, RRead)
    ensures var f, s' := s.net.newUp[0], RegisterStep(k, s, RRead);
            var rest := s.net.(newUp := s.net.newUp[1..]);
            && (f.TssFrame? && s.r.stage > 40 ==> s' == s.(net := rest))
            && (f.Control? && ((f.c.PeerIdBroadcast? && s.r.stage > 10) || (f.c.DeviceName? && s.r.stage > 20)) ==>
                  s' == s.(net := rest, r := s.r.(got := s.r.got + 1)))
            && (f.Control? && !f.c.PeerIdBroadcast? && !f.c.DeviceName? && !f.c.EverythingStored? ==>
                  s' == s.(net := rest.(newDown := s.net.newDown + [Control(ErrorMessage)]),
                           r := s.r.(got := s.r.got + 1)))
  {
  }

  lemma AcceptFilters(k: Params, s: State)
    requires AcceptEnabled(k, s, ARead)
    ensures var f, s' := s.net.oldUp[0], AcceptStep(k, s, ARead);
            var rest := s.net.(oldUp := s.net.oldUp[1..]);
            && (f.TssFrame? && s.a.stage > 40 ==> s' == s.(net := rest))
            && (f.Control?
                && ((f.c.PeerIdBroadcast? && s.a.stage > 10) || (f.c.Metadata? && s.a.stage > 20)
                    || (f.c.TssDone? && s.a.stage > 50) || (f.c.ExistingDeviceDone? && s.a.stage > 80)) ==>
                  s' == s.(net := rest, a := s.a.(got := s.a.got + 1)))
            && (f.Control? && !f.c.PeerIdBroadcast? && !f.c.Metadata? && !f.c.TssDone? && !f.c.ExistingDeviceDone? ==>
                  s' == s.(net := rest.(oldDown := s.net.oldDown + [Control(ErrorMessage)]),
                           a := s.a.(got := s.a.got + 1)))
  {
  }

  lemma NewDeviceFilters(k: Params, s: State)
    requires DeviceEnabled(k, s, NewDevice, DRead)
    ensures var f, s' := s.net.newDown[0], DeviceStep(k, s, NewDevice, DRead);
            var rest := s.net.(newDown := s.net.newDown[1..]);
            && (f.TssFrame? && s.n.stage > 40 ==> s' == s.(net := rest))
            && (f.Control? && ((f.c.PeerIdBroadcast? && s.n.stage > 10)
                               || (f.c.ExistingDeviceDone? && s.n.stage > 80)) ==>
                  s' == s.(net := rest, n := s.n.(got := s.n.got + 1)))
            && (f.Control? && !f.c.PeerIdBroadcast? && !f.c.Pubkey? && !f.c.Metadata? && !f.c.ExistingDeviceDone? ==>
                  s' == s.(net := rest.(newUp := s.net.newUp + [Control(ErrorMessage)]),
                           n := s.n.(got := s.n.got + 1)))
  {
  }

  lemma OldDeviceFilters(k: Params, s: State)
    requires DeviceEnabled(k, s, OldDevice, DRead)
    ensures var f, s' := s.net.oldDown[0], DeviceStep(k, s, OldDevice, DRead);
            var rest := s.net.(oldDown := s.net.oldDown[1..]);
            && (f.TssFrame? && s.e.stage > 40 ==> s' == s.(net := rest))
            && (f.Control? && ((f.c.PeerIdBroadcast? && s.e.stage > 10) || (f.c.NewDeviceDone? && s.e.stage > 80)) ==>
                  s' == s.(net := rest, e := s.e.(got := s.e.got + 1)))
            && (f.Control? && !f.c.PeerIdBroadcast? && !f.c.MetadataAck? && !f.c.NewDeviceDone? ==>
                  s' == s.(net := rest.(oldUp := s.net.oldUp + [Control(ErrorMessage)]),
                           e := s.e.(got := s.e.got + 1)))
  {
  }
}
