/**
 The inductive invariant of the add-device protocol, kept by every step of every run, faults
 included. It says how far each thread is allowed to be ahead of the others: what has been sent
 on each channel and websocket is a function of its writer's program counter, what has been
 taken is a function of its reader's.
 */
module AddDeviceInvariant {
  import opened AddDevice
  import opened Identities
  import opened StarRouting
  import opened TssLibrary
  import opened Wrappers

  // ---- Milestones of the handlers' readers ----

  predicate RegSentNewId(r: Register) { r.got >= 2 || (r.got == 1 && r.reader != RPutNewId) }
  predicate RegTookOldId(r: Register) { r.got >= 2 || (r.got == 1 && (r.reader == RPutAgent || r.reader == RReading)) }
  predicate RegSentAgent(r: Register) { r.got >= 2 || (r.got == 1 && r.reader == RReading) }
  predicate RegTookMetadata(r: Register) { r.got >= 3 || (r.got == 2 && r.reader != RTakeMetadata) }
  predicate RegHasAdder(r: Register) { RegTookMetadata(r) && r.reader != RGaveUp }
  predicate RegSentAdder(r: Register) {
    r.got >= 3 || (r.got == 2 && (r.reader == RSignalling || r.reader == RSetStage || r.reader == RReading))
  }
  predicate RegStarted(r: Register) { r.got >= 3 || (r.got == 2 && (r.reader == RSetStage || r.reader == RReading)) }
  predicate RegStageSet(r: Register) { r.got >= 3 || (r.got == 2 && r.reader == RReading) }
  predicate RegSentNewDone(r: Register) { r.got == 3 && r.reader == RReading }
  predicate RegPastTss(r: Register) { r.main != RAwaitStart && r.main != RAwaitTss }
  predicate RegTookOldTss(r: Register) { RegPastTss(r) && r.main != RAwaitOldTss }
  predicate RegTookOldDone(r: Register) { r.main == RWriteDone || r.main == RReturned }

  predicate AccSentOldId(a: Accept) { a.got >= 2 || (a.got == 1 && a.reader != APutOldId) }
  predicate AccTookNewId(a: Accept) { a.got >= 2 || (a.got == 1 && a.reader == AReading) }
  predicate AccSentMetadata(a: Accept) { a.got >= 3 || (a.got == 2 && a.reader != APutMetadata) }
  predicate AccTookAdder(a: Accept) {
    a.got >= 3 || (a.got == 2 && (a.reader == ASignalling || a.reader == ASetStage || a.reader == AReading))
  }
  predicate AccStarted(a: Accept) { a.got >= 3 || (a.got == 2 && (a.reader == ASetStage || a.reader == AReading)) }
  predicate AccStageSet(a: Accept) { a.got >= 3 || (a.got == 2 && a.reader == AReading) }
  predicate AccSentTssDone(a: Accept) { a.got == 4 || (a.got == 3 && a.reader == AReading) }
  predicate AccSentOldDone(a: Accept) { a.got == 4 && a.reader == AReading }
  predicate AccProcessed(a: Accept) { a.main != AAwaitStart && a.main != AProcessing }
  predicate AccTookAgent(a: Accept) { AccProcessed(a) && a.main != ATakeAgent }
  predicate AccCommitted(a: Accept) { AccTookAgent(a) && a.main != ACommitting }
  predicate AccPastTss(a: Accept) { AccCommitted(a) && a.main != AAwaitTss }
  predicate AccTookNewDone(a: Accept) { a.main == AWriteNewDone || a.main == AAwaitDone || a.main == AReturned }

  predicate DevStarted(d: Device) { d.got >= 3 || (d.got == 2 && d.reader == Reading) }
  predicate DevTssDone(d: Device) { d.main == ReportTssDone || d.main == AwaitDone || d.main == Returned }
  predicate DevReported(d: Device) { d.main == AwaitDone || d.main == Returned }

  // ---- Control frames written so far ----

  function RegWrote(r: Register): nat {
    if r.main == RReturned then 4
    else if r.main == RAwaitOldDone || r.main == RWriteDone then 3
    else if RegSentAdder(r) then 2
    else if RegSentAgent(r) then 1
    else 0
  }

  function AccWrote(a: Accept): nat {
    if a.main == AAwaitDone || a.main == AReturned then 3
    else if AccTookAdder(a) then 2
    else if AccTookNewId(a) then 1
    else 0
  }

  function NewWrote(d: Device): nat {
    if d.got >= 3 then 3 else if d.got >= 1 then 2 else if d.main != Connecting then 1 else 0
  }

  function OldWrote(d: Device): nat {
    if d.got >= 3 then 4
    else if DevReported(d) then 3
    else if d.got >= 1 then 2
    else if d.main != Connecting then 1
    else 0
  }

  function Wallet(k: Params): Record {
    if k.retrieve(k.metadata).Some? then k.retrieve(k.metadata).value
    else Wallets.DkgResult(Wallets.PubkeyStr("", ""), map[], "", "", "")
  }

  /** The devices' adders: the new device works with what it was told, the old one with its own wallet. */
  function NewAdder(k: Params): DeviceAdder {
    DeviceAdder(k.ids.oldId, Wallet(k).pubkey, "", Wallet(k).bks)
  }

  function OldAdder(k: Params): DeviceAdder {
    DeviceAdder(k.ids.newId, k.local.pubkey, k.local.share, k.local.bks)
  }

  function RegScript(k: Params): seq<Ctrl> {
    [PeerIdBroadcast(k.ids.oldId), Pubkey(Public(Wallet(k))), Metadata(k.metadata), ExistingDeviceDone]
  }

  function AccScript(k: Params): seq<Ctrl> {
    [PeerIdBroadcast(k.ids.newId), MetadataAck, NewDeviceDone]
  }

  function NewScript(k: Params): seq<Ctrl> {
    [PeerIdBroadcast(k.ids.newId), DeviceName(k.device), EverythingStored]
  }

  function OldScript(k: Params): seq<Ctrl> {
    [PeerIdBroadcast(k.ids.oldId), Metadata(k.metadata), TssDone, ExistingDeviceDone]
  }

  /** No TSS frame travels ahead of the second control frame (the one that creates the adder). */
  predicate Gated(ws: seq<Frame<Ctrl>>, got: nat) {
    got >= 2 || ws == [] || (ws[0].Control? && Gated(ws[1..], got + 1))
  }

  /** The control frames in flight are those written and not yet read, in order. */
  ghost predicate Carries(ws: seq<Frame<Ctrl>>, script: seq<Ctrl>, got: nat, wrote: nat) {
    && got <= wrote <= |script|
    && CtrlOf(ws) == script[got..wrote]
    && Gated(ws, got)
  }

  ghost predicate ChanIs<T>(c: Chan<T>, sent: bool, taken: bool, v: T) {
    && (taken ==> sent)
    && c.log == (if sent then [v] else [])
    && c.buf == (if sent && !taken then [v] else [])
  }

  // ---- The invariant, part by part ----

  /** One device: its main thread, reader and sender agree on how far the run is. */
  ghost predicate DeviceOk(d: Device) {
    && (d.reader == Signalling ==> d.got == 2)
    && (d.main == Connecting ==> d.got == 0)
    && (d.main == Connecting || d.main == AwaitStart <==> !DevStarted(d))
    && (d.sender == NotStarted <==> !DevStarted(d))
    && (d.sender == Exited ==> d.serverDone)
    && (d.main == Returned ==> d.serverDone)
    && d.stage == (if DevTssDone(d) then 40 else 0)
  }

  ghost predicate NewDeviceOk(k: Params, n: Device) {
    && n.got <= 4 && DeviceOk(n)
    && n.main != ReportTssDone
    && n.otherId == (if n.got >= 1 then k.ids.oldId else "")
    && n.adder == (if n.got >= 2 then Some(NewAdder(k)) else None)
    && n.metadata == (if n.got >= 3 then k.metadata else "")
    && (n.serverDone <==> n.got == 4)
  }

  ghost predicate OldDeviceOk(k: Params, e: Device) {
    && e.got <= 3 && DeviceOk(e)
    && e.otherId == (if e.got >= 1 then k.ids.newId else "")
    && e.adder == (if e.got >= 2 then Some(OldAdder(k)) else None)
    && (e.serverDone <==> e.got == 3)
    && (e.got == 3 ==> DevReported(e))
  }

  ghost predicate RegisterPc(r: Register) {
    && r.got <= 3
    && (r.got == 0 ==> r.reader == RReading)
    && (r.got == 1 ==> r.reader == RPutNewId || r.reader == RTakeOldId || r.reader == RPutAgent || r.reader == RReading)
    && (r.got == 2 ==> r.reader == RTakeMetadata || r.reader == RPutAdder || r.reader == RSignalling
                       || r.reader == RSetStage || r.reader == RReading || r.reader == RGaveUp)
    && (r.got == 3 ==> r.reader == RPutNewDone || r.reader == RReading)
    && (r.main == RAwaitStart <==> !RegStarted(r))
    && (r.sender == NotStarted <==> !RegStarted(r))
    && (r.sender == Exited ==> r.serverDone)
    && (r.serverDone <==> r.main == RReturned)
  }

  ghost predicate RegisterVars(k: Params, r: Register, failed: set<Party>) {
    && r.newId == (if r.got >= 1 then k.ids.newId else "")
    && r.oldId == (if RegTookOldId(r) then k.ids.oldId else "")
    && r.device == (if r.got >= 2 then k.device else "")
    && r.metadata == (if RegTookMetadata(r) then k.metadata else "")
    && r.adder == (if RegHasAdder(r) then Some(Adder(k.ids.newId, k.ids.oldId, Wallet(k))) else None)
    && (RegHasAdder(r) ==> Readable(k)) && (r.reader == RGaveUp ==> !Readable(k))
    && (r.stage == 0 || r.stage == 30 || r.stage == 40)
    && (!RegStarted(r) ==> r.stage == 0)
    && (Server !in failed ==> r.stage == (if RegPastTss(r) then 40 else if RegStageSet(r) then 30 else 0))
  }

  ghost predicate AcceptPc(a: Accept) {
    && a.got <= 4
    && (a.got == 0 ==> a.reader == AReading)
    && (a.got == 1 ==> a.reader == APutOldId || a.reader == ATakeNewId || a.reader == AReading)
    && (a.got == 2 ==> a.reader == APutMetadata || a.reader == ATakeAdder || a.reader == ASignalling
                       || a.reader == ASetStage || a.reader == AReading)
    && (a.got == 3 ==> a.reader == APutTssDone || a.reader == AReading)
    && (a.got == 4 ==> a.reader == APutOldDone || a.reader == AReading)
    && (a.main == AAwaitStart <==> !AccStarted(a))
    && (a.sender == NotStarted <==> !AccStarted(a))
    && (a.sender == Exited ==> a.serverDone)
    && (a.serverDone <==> AccSentOldDone(a))
    && (a.main == AReturned ==> a.serverDone)
  }

  ghost predicate AcceptVars(k: Params, a: Accept, committed: seq<Commit>) {
    && a.oldId == (if a.got >= 1 then k.ids.oldId else "")
    && a.newId == (if AccTookNewId(a) then k.ids.newId else "")
    && a.metadata == (if a.got >= 2 then k.metadata else "")
    && a.agent == (if AccTookAgent(a) then k.agent else "")
    && a.adder == (if AccTookAdder(a) then Some(Adder(k.ids.newId, k.ids.oldId, Wallet(k))) else None)
    && a.stage == (if AccPastTss(a) then 40 else if AccStageSet(a) then 30 else 0)
    && committed == (if AccCommitted(a) then
                       [Commit(k.ids.newId, k.metadata, k.agent, k.merged(Wallet(k), k.ids.newId))]
                     else [])
  }

  ghost predicate ChannelsOk(k: Params, ch: Channels, r: Register, a: Accept) {
    && ChanIs(ch.newId, RegSentNewId(r), AccTookNewId(a), k.ids.newId)
    && ChanIs(ch.oldId, AccSentOldId(a), RegTookOldId(r), k.ids.oldId)
    && ChanIs(ch.agent, RegSentAgent(r), AccTookAgent(a), k.agent)
    && ChanIs(ch.metadata, AccSentMetadata(a), RegTookMetadata(r), k.metadata)
    && ChanIs(ch.adder, RegSentAdder(r), AccTookAdder(a), Adder(k.ids.newId, k.ids.oldId, Wallet(k)))
    && ChanIs(ch.oldTssDone, AccSentTssDone(a), RegTookOldTss(r), ())
    && ChanIs(ch.newDone, RegSentNewDone(r), AccTookNewDone(a), ())
    && ChanIs(ch.oldDone, AccSentOldDone(a), RegTookOldDone(r), ())
  }

  ghost predicate WebsocketsOk(k: Params, s: State) {
    && Carries(s.net.newUp, NewScript(k), s.r.got, NewWrote(s.n))
    && Carries(s.net.newDown, RegScript(k), s.n.got, RegWrote(s.r))
    && Carries(s.net.oldUp, OldScript(k), s.a.got, OldWrote(s.e))
    && Carries(s.net.oldDown, AccScript(k), s.e.got, AccWrote(s.a))
  }

  /** What the library has produced and consumed matches what the network has carried. */
  ghost predicate Counted(k: Params, sent: seq<Tss>, handled: seq<Tss>, pos: Pos) {
    && InScripts(k.scripts, pos)
    && forall f: Party, t: Party :: f != t ==> PairCounted(k, sent, handled, pos, f, t)
  }

  ghost predicate PairCounted(k: Params, sent: seq<Tss>, handled: seq<Tss>, pos: Pos, f: Party, t: Party)
    requires InScripts(k.scripts, pos)
  {
    && |Pick(sent, f, k.ids.Of(t))| == Produced(k.scripts, pos, f, t)
    && Consumed(k.scripts, pos, f, t) <= |Pick(handled, f, k.ids.Of(t))|
  }

  /** A handler's reader gives its adder a device's message only after setting the stage. */
  ghost predicate HandledAfterStage(handled: seq<Tss>, r: Register, a: Accept) {
    && (Pick(handled, NewDevice, SERVER_ID) != [] ==> RegStageSet(r))
    && (Pick(handled, OldDevice, SERVER_ID) != [] ==> AccStageSet(a))
  }

  ghost predicate StartedBeforeMoving(s: State) {
    && (s.pos.newDevice > 0 ==> Started(s, NewDevice))
    && (s.pos.oldDevice > 0 ==> Started(s, OldDevice))
    && (s.pos.server > 0 ==> Started(s, Server))
  }

  ghost predicate MainsAfterLibrary(k: Params, s: State) {
    && (DevTssDone(s.n) || s.n.main == Failed ==> LibDone(k, s, NewDevice))
    && (DevTssDone(s.e) || s.e.main == Failed ==> LibDone(k, s, OldDevice))
    && (AccProcessed(s.a) ==> LibDone(k, s, Server))
    && (RegPastTss(s.r) ==> LibClosed(k, s, Server))
  }

  /**
   A device hears of a closed connection only from a handler that has returned.
   */
  predicate ClosedOk(s: State) {
    && (s.n.errs ==> HandlerReturned(s, NewDevice)) && (s.e.errs ==> HandlerReturned(s, OldDevice))
    && (s.n.main == Failed ==> s.n.errs) && (s.e.main == Failed ==> s.e.errs)
    && QuitOk(s)
  }

  /** A main thread that has returned early has stopped where it could. */
  predicate QuitOk(s: State) {
    && s.quit <= s.dead
    && (NewMain in s.quit && s.n.main == Processing ==> NewDevice in s.failed)
    && (OldMain in s.quit && s.e.main == Processing ==> OldDevice in s.failed)
    && (RegMain in s.quit ==> s.r.main == RAwaitTss || s.r.main == RWriteMetadata || s.r.main == RWriteDone)
    && (AccMain in s.quit ==>
          s.a.main == AProcessing || s.a.main == ACommitting || s.a.main == AAwaitTss || s.a.main == AWriteNewDone)
  }

  ghost predicate Inv(k: Params, s: State) {
    && !s.panicked
    && NewDeviceOk(k, s.n)
    && OldDeviceOk(k, s.e)
    && RegisterPc(s.r)
    && RegisterVars(k, s.r, s.failed)
    && AcceptPc(s.a)
    && AcceptVars(k, s.a, s.committed)
    && ChannelsOk(k, s.ch, s.r, s.a)
    && WebsocketsOk(k, s)
    && Routed(s.net, k.ids)
    && Counted(k, s.net.sent, s.net.handled, s.pos)
    && HandledAfterStage(s.net.handled, s.r, s.a)
    && StartedBeforeMoving(s)
    && MainsAfterLibrary(k, s)
    && ClosedOk(s)
  }

  // ---- Websocket lemmas ----

  lemma ReadControl(ws: seq<Frame<Ctrl>>, script: seq<Ctrl>, got: nat, wrote: nat)
    requires Carries(ws, script, got, wrote) && ws != [] && ws[0].Control?
    ensures got < wrote && ws[0].c == script[got]
    ensures Carries(ws[1..], script, got + 1, wrote)
    ensures TssOf(ws[1..]) == TssOf(ws)
  {
    FrameHead(ws);
    assert CtrlOf(ws)[0] == ws[0].c;
    assert CtrlOf(ws[1..]) == CtrlOf(ws)[1..];
  }

  lemma ReadTss(ws: seq<Frame<Ctrl>>, script: seq<Ctrl>, got: nat, wrote: nat)
    requires Carries(ws, script, got, wrote) && ws != [] && ws[0].TssFrame?
    ensures got >= 2 && Carries(ws[1..], script, got, wrote)
  {
    FrameHead(ws);
  }

  lemma {:induction false} GatedAppend(ws: seq<Frame<Ctrl>>, f: Frame<Ctrl>, got: nat)
    requires Gated(ws, got) && (f.Control? || got + |CtrlOf(ws)| >= 2)
    ensures Gated(ws + [f], got)
  {
    if got < 2 && ws != [] {
      assert (ws + [f])[1..] == ws[1..] + [f];
      GatedAppend(ws[1..], f, got + 1);
    } else if got < 2 {
      assert ws + [f] == [f];
    }
  }

  lemma WriteControl(ws: seq<Frame<Ctrl>>, script: seq<Ctrl>, got: nat, wrote: nat)
    requires Carries(ws, script, got, wrote) && wrote < |script|
    ensures Carries(ws + [Control(script[wrote])], script, got, wrote + 1)
    ensures TssOf(ws + [Control(script[wrote])]) == TssOf(ws)
  {
    FrameAppend(ws, Control(script[wrote]));
    GatedAppend(ws, Control(script[wrote]), got);
    SliceExtends(script, got, wrote);
  }

  lemma SliceExtends<T>(s: seq<T>, a: nat, b: nat)
    requires a <= b < |s|
    ensures s[a..b + 1] == s[a..b] + [s[b]]
  {
  }

  lemma WriteTss(ws: seq<Frame<Ctrl>>, script: seq<Ctrl>, got: nat, wrote: nat, m: Tss)
    requires Carries(ws, script, got, wrote) && wrote >= 2
    ensures Carries(ws + [TssFrame(m)], script, got, wrote)
  {
    FrameAppend<Ctrl>(ws, TssFrame(m));
    GatedAppend(ws, TssFrame(m), got);
  }

  lemma InitInv(k: Params)
    ensures Inv(k, Init())
  {
    EmptyRouted<Ctrl>(k.ids);
  }
}
