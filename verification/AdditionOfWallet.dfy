/**
 The add-device protocol run on the wallets of the vault. Its inputs are what a reachable state of the
 wallet system gives: the metadata the accepting device keeps, the vault's read, and the merge. The
 record then always opens, and the metadata that RegisterDevice returns opens the updated wallet.
 */
module AdditionOfWallet {
  import opened AddDevice
  import opened AddDeviceSafety
  import opened AddDeviceTermination
  import opened AddServices
  import opened Curves
  import opened Decimal
  import opened Identities
  import opened Interpolation
  import opened StarRouting
  import opened TssLibrary
  import opened Vaults
  import opened Wallets
  import opened Wrappers
  import Life = WalletLifetime
  import WalletInvariant
  import Lives = WalletTheorems

  /** The record the register handler's reader gets with some metadata, if a service starts from it. */
  function Read(c: Curve, ci: Cipher, ws: Life.State, a: Life.Action, metadata: string): Option<DkgResult>
    requires a.Open?
  {
    match Retrieved(ci, ws.db, a.foreignKey, Some(metadata))
    case Err(_) => None
    case Ok(w) => if SessionShare(c, w.pubkey, w.share, w.bks, a.device).Err? then None else Some(w)
  }

  /** The record the accepting handler stores for the new device; a merge that rejects stores nothing. */
  function Extend(c: Curve, a: Life.Action, w: DkgResult, newId: string): DkgResult
    requires a.Open?
  {
    match SessionShare(c, w.pubkey, w.share, w.bks, a.device)
    case Err(_) => w
    case Ok(k) =>
      Merged(OriginalWallet(c, w, k.publicKey), Printed(c, OldPeerResult(k, newId, a.xNew), SERVER_ID)).GetOr(w)
  }

  /** The inputs of the run in which device `a.device` of user `a.foreignKey` admits `a.newId`, from its own wallet. */
  function ParamsOf(c: Curve, ci: Cipher, ws: Life.State, a: Life.Action, device: string, agent: string,
                    scripts: Scripts): Params
    requires a.Open? && a.foreignKey in ws.lives
    requires a.device in ws.lives[a.foreignKey].locals
  {
    Params(Ids(a.newId, a.device), device, ws.lives[a.foreignKey].metadata, agent,
           ws.lives[a.foreignKey].locals[a.device],
           md => Read(c, ci, ws, a, md), (w, id) => Extend(c, a, w, id), scripts)
  }

  /** Whatever the state and the metadata: what the handler reads has been opened, and a service starts from it. */
  lemma ReadMeansStarted(c: Curve, ci: Cipher, ws: Life.State, a: Life.Action, device: string, agent: string,
                         scripts: Scripts, metadata: string)
    requires a.Open? && a.foreignKey in ws.lives && a.device in ws.lives[a.foreignKey].locals
    ensures var read := ParamsOf(c, ci, ws, a, device, agent, scripts).retrieve(metadata);
            read.Some? <==>
              && Retrieved(ci, ws.db, a.foreignKey, Some(metadata)).Ok?
              && var w := Retrieved(ci, ws.db, a.foreignKey, Some(metadata)).value;
                 read == Some(w) && SessionShare(c, w.pubkey, w.share, w.bks, a.device).Ok?
  {
    hide Retrieved, SessionShare;
  }

  /** In every reachable state the accepting device's metadata opens the record. */
  lemma WalletIsReadable(c: Curve, ci: Cipher, ws: Life.State, a: Life.Action, device: string, agent: string,
                         scripts: Scripts)
    requires c.Valid() && ci.Valid() && Lives.Reachable(c, ci, ws) && a.Open? && Life.Premise(c, ws, a)
    ensures var k := ParamsOf(c, ci, ws, a, device, agent, scripts);
            Readable(k) && k.retrieve(k.metadata) == Some(Life.Record(c, ws.lives[a.foreignKey]))
  {
    Lives.ReachableLife(c, ci, ws, a.foreignKey);
    Lives.OpenSucceeds(c, ci, ws, a);
    hide Lives.Reachable, Life.Record, Retrieved, Life.LifeInv, SessionShare, Curve.Valid, Cipher.Valid;
    LocalNamesItsDevice(c, ci, ws, a);
  }

  lemma LocalNamesItsDevice(c: Curve, ci: Cipher, ws: Life.State, a: Life.Action)
    requires c.Valid() && ci.Valid() && Lives.Reachable(c, ci, ws) && a.Open? && Life.Premise(c, ws, a)
    ensures ws.lives[a.foreignKey].locals[a.device].peerId == a.device
  {
    Lives.LocalMapIsPartOfRecord(c, ci, ws, a.foreignKey, a.device);
  }

  /** A fault-free addition to a wallet that exists always comes to its end. */
  lemma EveryAdditionReturns(c: Curve, ci: Cipher, ws: Life.State, a: Life.Action, device: string, agent: string,
                             scripts: Scripts, acts: seq<Action>)
    requires c.Valid() && ci.Valid() && Lives.Reachable(c, ci, ws) && a.Open? && Life.Premise(c, ws, a)
    requires var k := ParamsOf(c, ci, ws, a, device, agent, scripts);
             && ValidParams(k) && IsRun(k, acts) && FaultFree(acts)
             && (forall act :: Enabled(k, After(k, acts), act) ==> IsFault(act))
    ensures AllReturned(After(ParamsOf(c, ci, ws, a, device, agent, scripts), acts))
  {
    var k := ParamsOf(c, ci, ws, a, device, agent, scripts);
    WalletIsReadable(c, ci, ws, a, device, agent, scripts);
    hide ParamsOf, Enabled, IsRun, After, ValidParams, Readable;
    EveryFaultFreeRunReturns(k, acts);
  }

  /**
   What the three libraries work with, in every run on a reachable wallet, once one of them runs. The new
   device has been told the generated key and the coordinates of all parties; the existing device works with
   its own share of the same key, the server with its share.
   */
  lemma AddersHoldTheKey(c: Curve, ci: Cipher, ws: Life.State, a: Life.Action, device: string, agent: string,
                         scripts: Scripts, acts: seq<Action>, p: Party)
    requires c.Valid() && ci.Valid() && Lives.Reachable(c, ci, ws) && a.Open? && Life.Premise(c, ws, a)
    requires var k := ParamsOf(c, ci, ws, a, device, agent, scripts);
             ValidParams(k) && IsRun(k, acts) && Started(After(k, acts), p)
    ensures var s := After(ParamsOf(c, ci, ws, a, device, agent, scripts), acts);
            var l := ws.lives[a.foreignKey];
            && a.device in l.coords
            && (s.n.adder.Some? ==>
                  && Lives.KeyText(c, l, a.device, s.n.adder.value.publicKey, s.n.adder.value.bks)
                  && s.n.adder.value.bks.Keys == {SERVER_ID} + l.coords.Keys)
            && (s.e.adder.Some? ==>
                  && Lives.KeyText(c, l, a.device, s.e.adder.value.publicKey, s.e.adder.value.bks)
                  && Parse(s.e.adder.value.share) == Some(Share(c.order, l.a0, l.a1, l.coords[a.device])))
            && (s.a.adder.Some? ==>
                  && Lives.KeyText(c, l, a.device, s.a.adder.value.wallet.pubkey, s.a.adder.value.wallet.bks)
                  && Parse(s.a.adder.value.wallet.share) == Some(Share(c.order, l.a0, l.a1, l.xServer)))
  {
    var k := ParamsOf(c, ci, ws, a, device, agent, scripts);
    var l := ws.lives[a.foreignKey];
    WalletIsReadable(c, ci, ws, a, device, agent, scripts);
    SessionAgreement(k, acts, p);
    Lives.ReachableLife(c, ci, ws, a.foreignKey);
    hide Lives.Reachable, Life.Record, Life.Premise, IsRun, After, ValidParams, Curve.Valid, Cipher.Valid,
         Life.RowsInv, Life.CoordsInv, Life.LocalsInv, Life.SessionInv, Share, Parse, Lives.KeyText, AgreeOnDevices;
    Lives.RecordText(c, l);
    Lives.LocalText(c, l, a.device);
  }

  // ---- The metadata opens the updated wallet ----

  /** What the accepting handler stores is the record of the extended wallet. */
  lemma ExtendIsCommit(c: Curve, ci: Cipher, ws: Life.State, a: Life.Action)
    requires c.Valid() && ci.Valid() && Lives.Reachable(c, ci, ws) && a.Open? && Life.Premise(c, ws, a)
    ensures var begun := Life.Step(c, ci, ws, a).lives[a.foreignKey];
            && begun.session.Some? && !begun.session.value.committed && begun.session.value.newId == a.newId
            && Extend(c, a, Life.Record(c, ws.lives[a.foreignKey]), a.newId)
               == Life.Record(c, WalletInvariant.Extended(begun))
  {
    Lives.ReachableInv(c, ci, ws);
    var l := ws.lives[a.foreignKey];
    assert Life.LifeInv(c, ci, ws.db, a.foreignKey, l);
    WalletInvariant.OpenKeepsInv(c, ci, ws, a);
    WalletInvariant.SessionStarts(c, ci, ws.db, l, a);
    OpenedMeetsInv(c, ci, ws, a);
    LocalNamesItsDevice(c, ci, ws, a);
    var begun := Life.Step(c, ci, ws, a).lives[a.foreignKey];
    SessionOfRecord(c, l, a);
    hide Life.Inv, Life.CoordsInv, Life.LocalsInv, Life.SessionInv, Life.RowsInv, Lives.Reachable, Life.Record,
         SessionShare, Merged, Printed, OriginalWallet, Curve.Valid, Cipher.Valid;
    WalletInvariant.MergeAccepts(c, begun);
  }

  lemma OpenedMeetsInv(c: Curve, ci: Cipher, ws: Life.State, a: Life.Action)
    requires c.Valid() && ci.Valid() && Life.Inv(c, ci, ws) && a.Open? && Life.Premise(c, ws, a)
    ensures var s := Life.Step(c, ci, ws, a);
            a.foreignKey in s.lives && Life.LifeInv(c, ci, s.db, a.foreignKey, s.lives[a.foreignKey])
  {
    hide Life.LifeInv;
    WalletInvariant.OpenKeepsInv(c, ci, ws, a);
  }

  lemma SessionOfRecord(c: Curve, l: Life.Life, a: Life.Action)
    requires c.Valid() && a.Open? && Life.CoordsInv(c, l)
    ensures var w := Life.Record(c, l);
            SessionShare(c, w.pubkey, w.share, w.bks, a.device)
            == Ok(Life.ServerShare(c, l).(bks := TwoParameters(Life.Parties(l), a.device)))
  {
    hide SessionShare, Curve.Valid, Life.Parties;
    PrintedWalletStarts(c, Life.ServerShare(c, l), Life.RecordPeer(l), a.device);
  }

  /** The state of the wallet system after the session is open and what the handler stores is stored. */
  ghost function Stored(c: Curve, ci: Cipher, ws: Life.State, a: Life.Action, agent: string, nonce: Nonce): Life.State
    requires c.order > 1 && a.Open? && Life.Premise(c, ws, a)
    requires Life.Premise(c, Life.Step(c, ci, ws, a), Life.Commit(a.foreignKey, nonce, agent))
  {
    Life.Step(c, ci, Life.Step(c, ci, ws, a), Life.Commit(a.foreignKey, nonce, agent))
  }

  lemma CommitIsPossible(c: Curve, ci: Cipher, ws: Life.State, a: Life.Action, agent: string, nonce: Nonce)
    requires c.Valid() && ci.Valid() && Lives.Reachable(c, ci, ws) && a.Open? && Life.Premise(c, ws, a)
    ensures Life.Premise(c, Life.Step(c, ci, ws, a), Life.Commit(a.foreignKey, nonce, agent))
  {
    ExtendIsCommit(c, ci, ws, a);
    OpenChangesSession(c, ci, ws, a);
    hide Life.Step, Life.Record, Extend, Lives.Reachable, Curve.Valid, Cipher.Valid;
  }

  lemma StoredIsReachable(c: Curve, ci: Cipher, ws: Life.State, a: Life.Action, agent: string, nonce: Nonce)
    requires c.Valid() && ci.Valid() && Lives.Reachable(c, ci, ws) && a.Open? && Life.Premise(c, ws, a)
    ensures Life.Premise(c, Life.Step(c, ci, ws, a), Life.Commit(a.foreignKey, nonce, agent))
    ensures Lives.Reachable(c, ci, Stored(c, ci, ws, a, agent, nonce))
  {
    hide Life.Step, Life.Premise, Lives.Reachable, Curve.Valid, Cipher.Valid;
    CommitIsPossible(c, ci, ws, a, agent, nonce);
    assert c.order > 1 by { OrderIsLarge(c); }
    ReachableNext(c, ci, ws, a);
    ReachableNext(c, ci, Life.Step(c, ci, ws, a), Life.Commit(a.foreignKey, nonce, agent));
  }

  lemma OrderIsLarge(c: Curve)
    requires c.Valid()
    ensures c.order > 1
  {
  }

  lemma ReachableNext(c: Curve, ci: Cipher, s: Life.State, a: Life.Action)
    requires c.order > 1 && Lives.Reachable(c, ci, s) && Life.Premise(c, s, a)
    ensures Lives.Reachable(c, ci, Life.Step(c, ci, s, a))
  {
    hide Life.Step, Life.Premise, Life.Leads;
    var run :| Life.Leads(c, ci, Life.INIT, run, s);
    LeadsNext(c, ci, Life.INIT, run, s, a);
  }

  lemma {:induction false} LeadsNext(c: Curve, ci: Cipher, s: Life.State, run: seq<Life.Action>, end: Life.State,
                                     next: Life.Action)
    requires c.order > 1 && Life.Leads(c, ci, s, run, end) && Life.Premise(c, end, next)
    ensures Life.Leads(c, ci, s, run + [next], Life.Step(c, ci, end, next))
    decreases |run|
  {
    hide Life.Premise, Life.Step;
    if run == [] {
      assert [next][1..] == [];
      assert [] + [next] == [next];
    } else {
      LeadsNext(c, ci, Life.Step(c, ci, s, run[0]), run[1..], end, next);
      assert (run + [next])[1..] == run[1..] + [next];
    }
  }

  /** The vault accepts the extended record under the metadata and gives it back with the metadata. */
  lemma VaultTakesExtended(c: Curve, ci: Cipher, ws: Life.State, a: Life.Action, agent: string, nonce: Nonce)
    requires c.Valid() && ci.Valid() && Lives.Reachable(c, ci, ws) && a.Open? && Life.Premise(c, ws, a)
    ensures Life.Premise(c, Life.Step(c, ci, ws, a), Life.Commit(a.foreignKey, nonce, agent))
    ensures var l := ws.lives[a.foreignKey];
            var record := Extend(c, a, Life.Record(c, l), a.newId);
            var s := Stored(c, ci, ws, a, agent, nonce);
            && PeerAdded(ci, ws.db, a.foreignKey, a.newId, agent, record, Some(l.metadata), nonce) == Ok(s.db)
            && Retrieved(ci, s.db, a.foreignKey, Some(l.metadata)) == Ok(record)
            && record.bks.Keys == Life.Record(c, l).bks.Keys + {a.newId}
  {
    StoredIsReachable(c, ci, ws, a, agent, nonce);
    ExtendIsCommit(c, ci, ws, a);
    Lives.ReachableInv(c, ci, ws);
    OpenedMeetsInv(c, ci, ws, a);
    OpenChangesSession(c, ci, ws, a);
    var begun := Life.Step(c, ci, ws, a);
    var commit := Life.Commit(a.foreignKey, nonce, agent);
    var l1 := begun.lives[a.foreignKey];
    WalletInvariant.OpenKeepsInv(c, ci, ws, a);
    CommitGivesRow(c, ci, begun, commit);
    Lives.ReachableLife(c, ci, Stored(c, ci, ws, a, agent, nonce), a.foreignKey);
    hide Life.Inv, Life.LifeInv, Lives.Reachable, Life.Step, Life.Record, Extend, Retrieved, PeerAdded, Life.Premise,
         Curve.Valid, Cipher.Valid;
    KeysOfExtended(c, ws.lives[a.foreignKey], l1, a);
  }

  lemma OpenChangesSession(c: Curve, ci: Cipher, ws: Life.State, a: Life.Action)
    requires c.order > 1 && a.Open? && Life.Premise(c, ws, a)
    ensures var s := Life.Step(c, ci, ws, a);
            && s.db == ws.db && a.foreignKey in s.lives
            && s.lives[a.foreignKey] == ws.lives[a.foreignKey].(session := s.lives[a.foreignKey].session)
  {
    hide Life.Started;
  }

  lemma CommitGivesRow(c: Curve, ci: Cipher, s: Life.State, a: Life.Action)
    requires c.Valid() && ci.Valid() && Life.Inv(c, ci, s) && a.Commit? && Life.Premise(c, s, a)
    ensures var l := s.lives[a.foreignKey];
            var s' := Life.Step(c, ci, s, a);
            && PeerAdded(ci, s.db, a.foreignKey, l.session.value.newId, a.userAgent,
                         Life.Record(c, WalletInvariant.Extended(l)), Some(l.metadata), a.nonce) == Ok(s'.db)
            && a.foreignKey in s'.lives && s'.lives[a.foreignKey] == WalletInvariant.Extended(l)
  {
    var l := s.lives[a.foreignKey];
    assert Life.LifeInv(c, ci, s.db, a.foreignKey, l);
    hide Life.SessionInv, Life.CoordsInv, Life.LocalsInv, Life.RowsInv, Life.MergedRecord, PeerAdded, Life.Record;
    WalletInvariant.MergeAccepts(c, l);
    var sealed := WalletInvariant.CommitStores(c, ci, s.db, a.foreignKey, l, a.userAgent, a.nonce);
    var db := PeerAdded(ci, s.db, a.foreignKey, l.session.value.newId, a.userAgent,
                        Life.Record(c, WalletInvariant.Extended(l)), Some(l.metadata), a.nonce).value;
    WalletInvariant.CommitEffect(c, ci, s, a, db);
  }

  lemma KeysOfExtended(c: Curve, l: Life.Life, l1: Life.Life, a: Life.Action)
    requires c.order > 1 && a.Open? && l1 == l.(session := l1.session) && l1.session.Some?
    requires l1.session.value.newId == a.newId
    ensures Life.Record(c, WalletInvariant.Extended(l1)).bks.Keys == Life.Record(c, l).bks.Keys + {a.newId}
  {
    Lives.RecordKeys(c, l);
    Lives.RecordKeys(c, WalletInvariant.Extended(l1));
  }

  /**
   End to end, in every run of the protocol, failing runs included, on every reachable wallet: when
   RegisterDevice passes its wait, the one wallet committed is the old one with the new device added,
   the vault accepts it, and the metadata RegisterDevice returns opens it.
   */
  lemma MetadataOpensUpdatedWallet(c: Curve, ci: Cipher, ws: Life.State, a: Life.Action, device: string, agent: string,
                                   scripts: Scripts, acts: seq<Action>, nonce: Nonce)
    requires c.Valid() && ci.Valid() && Lives.Reachable(c, ci, ws) && a.Open? && Life.Premise(c, ws, a)
    requires var k := ParamsOf(c, ci, ws, a, device, agent, scripts);
             ValidParams(k) && IsRun(k, acts) && After(k, acts).n.main == Returned
    ensures Life.Premise(c, Life.Step(c, ci, ws, a), Life.Commit(a.foreignKey, nonce, agent))
    ensures var end := After(ParamsOf(c, ci, ws, a, device, agent, scripts), acts);
            var s := Stored(c, ci, ws, a, agent, nonce);
            && |end.committed| == 1
            && var x := end.committed[0];
               && PeerAdded(ci, ws.db, a.foreignKey, x.peerID, x.agent, x.wallet, Some(x.metadata), nonce) == Ok(s.db)
               && Lives.Reachable(c, ci, s)
               && Retrieved(ci, s.db, a.foreignKey, Some(end.n.metadata)) == Ok(x.wallet)
               && x.wallet.bks.Keys == Life.Record(c, ws.lives[a.foreignKey]).bks.Keys + {a.newId}
  {
    var k := ParamsOf(c, ci, ws, a, device, agent, scripts);
    WalletIsReadable(c, ci, ws, a, device, agent, scripts);
    VaultTakesExtended(c, ci, ws, a, agent, nonce);
    StoredIsReachable(c, ci, ws, a, agent, nonce);
    RegisterDeviceReturnsAfterCommit(k, acts);
    hide Lives.Reachable, Life.Step, Life.Record, Extend, Retrieved, PeerAdded, Life.Premise, IsRun, After,
         ValidParams, Curve.Valid, Cipher.Valid;
  }
}
