/** Every step of the wallet system keeps the invariant, for every user at once. */
module WalletInvariant {
  import opened AddServices
  import opened Bytes
  import opened Curves
  import opened Database
  import opened Identities
  import opened Interpolation
  import opened KeyRecovery
  import opened ModularArithmetic
  import opened Vaults
  import opened WalletLifetime
  import opened Wallets
  import opened Wrappers

  // ---- Reading the record ----

  lemma RecordIsRetrieved(c: Curve, ci: Cipher, db: Tables, fk: string, l: Life)
    requires c.order > 1 && RowsInv(c, ci, db, fk, l)
    ensures Retrieved(ci, db, fk, Some(l.metadata)) == Ok(Record(c, l))
  {
    RetrievedRow(ci, db, fk, l.userId, l.row, l.metadata);
  }

  // ---- One user changes ----

  /** New tables and one new life: the others keep their rows, and with them everything else. */
  lemma OneUserChanges(c: Curve, ci: Cipher, s: State, fk: string, db: Tables, l: Life)
    requires c.order > 1 && Inv(c, ci, s) && Fresh(db) && LifeInv(c, ci, db, fk, l)
    requires forall other :: other in s.lives && other != fk ==> RowsInv(c, ci, db, other, s.lives[other])
    requires forall u :: u in db.users ==> u in s.db.users || u.foreignKey == fk
    ensures Inv(c, ci, State(db, s.lives[fk := l]))
  {
    hide RowsInv, CoordsInv, LocalsInv, SessionInv, Fresh;
    var lives := s.lives[fk := l];
    forall other | other in lives
      ensures LifeInv(c, ci, db, other, lives[other])
    {
      if other != fk {
        assert LifeInv(c, ci, s.db, other, s.lives[other]);
      }
    }
  }

  lemma OneLifeChanges(c: Curve, ci: Cipher, s: State, fk: string, l: Life)
    requires c.order > 1 && Inv(c, ci, s) && fk in s.lives && LifeInv(c, ci, s.db, fk, l)
    ensures Inv(c, ci, s.(lives := s.lives[fk := l]))
  {
    hide RowsInv, CoordsInv, LocalsInv, SessionInv, Fresh;
    forall other | other in s.lives && other != fk
      ensures RowsInv(c, ci, s.db, other, s.lives[other])
    {
      assert LifeInv(c, ci, s.db, other, s.lives[other]);
    }
    OneUserChanges(c, ci, s, fk, s.db, l);
  }

  // ---- Key generation ----

  lemma NewUserHasNoLife(c: Curve, ci: Cipher, s: State, fk: string)
    requires c.order > 1 && Inv(c, ci, s) && FirstUser(s.db.users, fk).None?
    ensures fk !in s.lives
  {
    hide CoordsInv, LocalsInv, SessionInv, Fresh;
    assert forall f :: f in s.lives ==> LifeInv(c, ci, s.db, f, s.lives[f]);
  }

  lemma NewLifeMeetsInv(c: Curve, db: Tables, metadata: string, a: Action)
    requires c.order > 1 && a.Dkg? && a.peerId != SERVER_ID
    requires c.Scalar(Mod(a.a0, c.order)) && DistinctNonZero(c.order, a.xServer, a.xClient)
    ensures var l := NewLife(c, db, metadata, a);
            && CoordsInv(c, l) && LocalsInv(c, l) && SessionInv(c, l)
            && Printed(c, DkgShare(c.order, a, a.xServer), a.peerId) == Record(c, l)
            && Record(c, l).address == c.address(Mod(l.a0, c.order))
  {
    hide DistinctNonZero, Printed, Share, Mod;
    var l := NewLife(c, db, metadata, a);
    assert DkgShare(c.order, a, a.xServer).bks == Parties(l);
    assert DkgShare(c.order, a, a.xServer) == ServerShare(c, l);
    AddressOfRecord(c, l);
    if a.delivered {
      assert Known(Parties(l), l.views[a.peerId]) == Parties(l);
      assert DeviceShare(c, l, a.peerId) == DkgShare(c.order, a, a.xClient);
    }
  }

  lemma AddressOfRecord(c: Curve, l: Life)
    requires c.order > 1
    ensures Record(c, l).address == c.address(Mod(l.a0, c.order))
  {
  }

  lemma DkgEffect(c: Curve, ci: Cipher, s: State, a: Action)
    requires c.order > 1 && ci.Valid() && a.Dkg? && |a.key| == 32
    ensures var record := Printed(c, DkgShare(c.order, a, a.xServer), a.peerId);
            && ci.seal(a.key, a.nonce, record).Some?
            && DkgStep(c, ci, s, a) ==
               State(InsertedDkg(s.db, a.userAgent, a.peerId, a.foreignKey, record.address,
                   ci.seal(a.key, a.nonce, record).value, a.nonce),
                     s.lives[a.foreignKey := NewLife(c, s.db, ci.encodeKey(a.key), a)])
  {
    hide Printed, DkgShare, InsertedDkg, NewLife;
  }

  lemma DkgRows(c: Curve, ci: Cipher, db: Tables, a: Action)
    requires c.order > 1 && ci.Valid() && a.Dkg? && |a.key| == 32 && a.peerId != SERVER_ID
    requires Fresh(db) && FirstUser(db.users, a.foreignKey).None?
    requires c.Scalar(Mod(a.a0, c.order)) && DistinctNonZero(c.order, a.xServer, a.xClient)
    ensures var record := Printed(c, DkgShare(c.order, a, a.xServer), a.peerId);
            var l := NewLife(c, db, ci.encodeKey(a.key), a);
            && ci.seal(a.key, a.nonce, record).Some?
            && var after := InsertedDkg(db, a.userAgent, a.peerId, a.foreignKey, record.address,
                ci.seal(a.key, a.nonce, record).value, a.nonce);
               Fresh(after) && RowsInv(c, ci, after, a.foreignKey, l)
  {
    hide Printed, DkgShare, InsertedDkg, Record, Fresh, OneWallet, PeersOf;
    var record := Printed(c, DkgShare(c.order, a, a.xServer), a.peerId);
    var sealed := ci.seal(a.key, a.nonce, record).value;
    NewLifeMeetsInv(c, db, ci.encodeKey(a.key), a);
    DkgGivesOneWallet(db, a.userAgent, a.peerId, a.foreignKey, record.address, sealed, a.nonce);
    assert map[a.peerId := a.xClient].Keys == {a.peerId};
  }

  /** The new tables and the new user's life, in full. */
  lemma DkgOutcome(c: Curve, ci: Cipher, s: State, a: Action) returns (address: string, sealed: seq<byte>, l: Life)
    requires c.Valid() && ci.Valid() && Inv(c, ci, s) && a.Dkg? && Premise(c, s, a)
    ensures var db := InsertedDkg(s.db, a.userAgent, a.peerId, a.foreignKey, address, sealed, a.nonce);
            && Step(c, ci, s, a) == State(db, s.lives[a.foreignKey := l])
            && Fresh(db) && LifeInv(c, ci, db, a.foreignKey, l)
            && (forall u :: u in db.users ==> u in s.db.users || u.foreignKey == a.foreignKey)
    ensures a.foreignKey !in s.lives
  {
    assert Fresh(s.db);
    NewUserHasNoLife(c, ci, s, a.foreignKey);
    hide Printed, DkgShare, DkgStep, NewLife, CoordsInv, LocalsInv, SessionInv, RowsInv, Fresh, Record, Inv;
    DkgEffect(c, ci, s, a);
    DkgRows(c, ci, s.db, a);
    NewLifeMeetsInv(c, s.db, ci.encodeKey(a.key), a);
    var record := Printed(c, DkgShare(c.order, a, a.xServer), a.peerId);
    address, sealed, l := record.address, ci.seal(a.key, a.nonce, record).value,
        NewLife(c, s.db, ci.encodeKey(a.key), a);
  }

  lemma DkgKeepsRows(c: Curve, ci: Cipher, s: State, a: Action, address: string, sealed: seq<byte>, other: string)
    requires c.order > 1 && a.Dkg? && Inv(c, ci, s) && other in s.lives && other != a.foreignKey
    ensures RowsInv(c, ci, InsertedDkg(s.db, a.userAgent, a.peerId, a.foreignKey, address, sealed, a.nonce), other,
        s.lives[other])
  {
    hide InsertedDkg, CoordsInv, LocalsInv, SessionInv, OneWallet, PeersOf, Record, Fresh;
    var k := s.lives[other];
    assert LifeInv(c, ci, s.db, other, k);
    DkgKeepsOthers(s.db, a.userAgent, a.peerId, a.foreignKey, address, sealed, a.nonce, other, k.userId, k.row);
  }

  lemma DkgKeepsInv(c: Curve, ci: Cipher, s: State, a: Action)
    requires c.Valid() && ci.Valid() && Inv(c, ci, s) && a.Dkg? && Premise(c, s, a)
    ensures Inv(c, ci, Step(c, ci, s, a)) && a.foreignKey !in s.lives
  {
    hide InsertedDkg, RowsInv, LifeInv, Fresh, Step, Premise, Inv;
    var address, sealed, l := DkgOutcome(c, ci, s, a);
    var db := InsertedDkg(s.db, a.userAgent, a.peerId, a.foreignKey, address, sealed, a.nonce);
    forall other | other in s.lives && other != a.foreignKey
      ensures RowsInv(c, ci, db, other, s.lives[other])
    {
      DkgKeepsRows(c, ci, s, a, address, sealed, other);
    }
    OneUserChanges(c, ci, s, a.foreignKey, db, l);
  }

  // ---- Giving up ----

  /** A session that is open or not makes no difference to the rows and the local wallets. */
  lemma OnlySessionChanges(c: Curve, ci: Cipher, db: Tables, fk: string, l: Life, session: Option<Session>)
    requires c.order > 1 && LifeInv(c, ci, db, fk, l) && SessionInv(c, l.(session := session))
    ensures LifeInv(c, ci, db, fk, l.(session := session))
  {
    hide SessionInv, OneWallet, PeersOf, Printed, Share, Mod, DistinctNonZero;
    var l' := l.(session := session);
    assert Record(c, l') == Record(c, l);
    assert Parties(l') == Parties(l);
    forall d | d in l.locals
      ensures LocalInv(c, l', d)
    {
      assert LocalInv(c, l, d) && DeviceShare(c, l', d) == DeviceShare(c, l, d);
    }
  }

  lemma AbortKeepsInv(c: Curve, ci: Cipher, s: State, fk: string)
    requires c.order > 1 && Inv(c, ci, s) && fk in s.lives
    ensures Inv(c, ci, s.(lives := s.lives[fk := s.lives[fk].(session := None)]))
  {
    assert LifeInv(c, ci, s.db, fk, s.lives[fk]);
    OnlySessionChanges(c, ci, s.db, fk, s.lives[fk], None);
    OneLifeChanges(c, ci, s, fk, s.lives[fk].(session := None));
  }

  // ---- Opening ----

  /** In every state that meets the invariant the server reads the record and both services start. */
  lemma SessionStarts(c: Curve, ci: Cipher, db: Tables, l: Life, a: Action)
    requires c.Valid() && a.Open? && LifeInv(c, ci, db, a.foreignKey, l) && a.device in l.locals
    ensures a.device in l.coords && a.device in l.views
    ensures Started(c, ci, db, l, a) ==
            Some(Session(a.newId, a.device, a.xNew, Record(c, l),
                         ServerShare(c, l).(bks := TwoParameters(Parties(l), a.device)),
                         DeviceShare(c, l, a.device).(bks := TwoParameters(Parties(l), a.device)), false))
  {
    RecordIsRetrieved(c, ci, db, a.foreignKey, l);
    hide RowsInv, DistinctNonZero, SessionShare, Retrieved, Curve.Valid, Mod, Share;
    PrintedWalletStarts(c, ServerShare(c, l), RecordPeer(l), a.device);
    PrintedWalletStarts(c, DeviceShare(c, l, a.device), a.device, a.device);
    TwoOfKnown(Parties(l), l.views[a.device], a.device);
  }

  lemma TwoOfKnown(bks: map<string, BkParameter>, ids: set<string>, d: string)
    requires {SERVER_ID, d} <= ids
    ensures TwoParameters(Known(bks, ids), d) == TwoParameters(bks, d)
  {
  }

  lemma OpenKeepsInv(c: Curve, ci: Cipher, s: State, a: Action)
    requires c.Valid() && Inv(c, ci, s) && a.Open? && Premise(c, s, a)
    ensures Inv(c, ci, Step(c, ci, s, a))
  {
    var fk := a.foreignKey;
    var l := s.lives[fk];
    assert LifeInv(c, ci, s.db, fk, l);
    SessionStarts(c, ci, s.db, l, a);
    var session := Started(c, ci, s.db, l, a);
    assert forall d :: d in l.locals ==> LocalInv(c, l, d);
    StartedMeetsInv(c, l, a, session);
    hide CoordsInv, LocalsInv, SessionInv, RowsInv, Started;
    OnlySessionChanges(c, ci, s.db, fk, l, session);
    OneLifeChanges(c, ci, s, fk, l.(session := session));
  }

  lemma StartedMeetsInv(c: Curve, l: Life, a: Action, session: Option<Session>)
    requires c.order > 1 && a.Open? && CoordsInv(c, l) && a.device in l.coords && a.device in l.views
    requires a.newId != SERVER_ID && a.newId !in l.coords && a.newId !in l.locals
    requires DistinctNonZero(c.order, l.xServer, a.xNew)
    requires session ==
             Some(Session(a.newId, a.device, a.xNew, Record(c, l),
                          ServerShare(c, l).(bks := TwoParameters(Parties(l), a.device)),
                          DeviceShare(c, l, a.device).(bks := TwoParameters(Parties(l), a.device)), false))
    ensures SessionInv(c, l.(session := session))
  {
    hide DistinctNonZero, TwoParameters, Printed, Share, Mod;
    assert Parties(l.(session := session)) == Parties(l);
    assert Record(c, l.(session := session)) == Record(c, l);
  }

  // ---- Committing ----

  function Extended(l: Life): Life
    requires l.session.Some?
  {
    var x := l.session.value;
    l.(session := Some(x.(committed := true)), coords := l.coords[x.newId := x.xNew], extended := true)
  }

  lemma ExtendedParties(l: Life)
    requires l.session.Some? && l.session.value.newId != SERVER_ID
    ensures Parties(Extended(l)) == Parties(l)[l.session.value.newId := BkParameter(l.session.value.xNew, 0)]
  {
  }

  /** The merge does not reject, and what it gives is the record of the extended wallet. */
  lemma MergeAccepts(c: Curve, l: Life)
    requires c.Valid() && CoordsInv(c, l) && SessionInv(c, l)
    requires l.session.Some? && !l.session.value.committed
    ensures MergedRecord(c, l.session.value) == Some(Record(c, Extended(l)))
  {
    hide DistinctNonZero, TwoParameters, Printed, Share, Curve.Valid, Merged;
    var x := l.session.value;
    AdditionMerges(c, ServerShare(c, l), RecordPeer(l), x.existing, x.newId, x.xNew);
    ExtendedParties(l);
    assert ServerShare(c, Extended(l)) == OldPeerResult(ServerShare(c, l), x.newId, x.xNew);
    assert x.server == ServerShare(c, l).(bks := TwoParameters(Parties(l), x.existing));
  }

  /** Storing the extended record succeeds and touches one wallet row and one new device row. */
  lemma CommitStores(c: Curve, ci: Cipher, db: Tables, fk: string, l: Life, ua: string, nonce: Nonce)
      returns (sealed: seq<byte>)
    requires c.order > 1 && ci.Valid() && RowsInv(c, ci, db, fk, l) && l.session.Some? && Fresh(db)
    ensures var after := WithPeer(db, ua, l.session.value.newId, fk, sealed, nonce);
            && PeerAdded(ci, db, fk, l.session.value.newId, ua, Record(c, Extended(l)), Some(l.metadata), nonce)
                == Ok(after)
            && Fresh(after) && RowsInv(c, ci, after, fk, Extended(l)) && after.users == db.users
  {
    hide Record, Fresh, OneWallet, PeersOf;
    var newId, record := l.session.value.newId, Record(c, Extended(l));
    sealed := ci.seal(ci.decodeKey(l.metadata).value, nonce, record).value;
    AddPeerOnOneWallet(db, ua, newId, fk, sealed, nonce, l.userId, l.row);
    AddPeerKeepsFresh(db, ua, newId, fk, sealed, nonce, l.userId, l.row);
    RowExists(db, fk, l.userId, l.row);
    hide WithPeer;
    assert |WithPeer(db, ua, newId, fk, sealed, nonce).devices| == |db.devices| + 1;
    assert Extended(l).coords.Keys == l.coords.Keys + {newId};
  }

  lemma RowExists(db: Tables, fk: string, userId: nat, row: nat)
    requires OneWallet(db, fk, userId, row)
    ensures row < |db.wallets|
  {
  }

  lemma ExtendedCoords(c: Curve, l: Life)
    requires c.order > 1 && CoordsInv(c, l) && SessionInv(c, l) && l.session.Some?
    ensures CoordsInv(c, Extended(l))
  {
    hide DistinctNonZero, Parties, TwoParameters, Record;
  }

  lemma ExtendedLocals(c: Curve, l: Life)
    requires c.order > 1 && LocalsInv(c, l) && l.session.Some?
    requires l.session.value.newId != SERVER_ID && l.session.value.newId !in l.coords
    ensures LocalsInv(c, Extended(l))
  {
    hide Printed, Share, Mod;
    var l', x := Extended(l), l.session.value;
    ExtendedParties(l);
    forall d | d in l.locals
      ensures LocalInv(c, l', d)
    {
      assert LocalInv(c, l, d);
      KnownOfMore(Parties(l), l.views[d], x.newId, BkParameter(x.xNew, 0));
    }
  }

  lemma KnownOfMore(bks: map<string, BkParameter>, ids: set<string>, newId: string, p: BkParameter)
    requires newId !in ids
    ensures Known(bks[newId := p], ids) == Known(bks, ids)
  {
  }

  lemma ExtendedSession(c: Curve, l: Life)
    requires c.order > 1 && SessionInv(c, l) && l.session.Some? && !l.session.value.committed
    ensures SessionInv(c, Extended(l))
  {
    hide DistinctNonZero, Record, Share, Mod;
    var l', x := Extended(l), l.session.value;
    ExtendedParties(l);
    assert TwoParameters(Parties(l'), x.existing) == TwoParameters(Parties(l), x.existing);
  }

  lemma CommitEffect(c: Curve, ci: Cipher, s: State, a: Action, db: Tables)
    requires c.order > 1 && a.Commit? && Premise(c, s, a)
    requires var l := s.lives[a.foreignKey];
             && MergedRecord(c, l.session.value) == Some(Record(c, Extended(l)))
             && PeerAdded(ci, s.db, a.foreignKey, l.session.value.newId, a.userAgent, Record(c, Extended(l)),
                 Some(l.metadata), a.nonce) == Ok(db)
    ensures Step(c, ci, s, a) == State(db, s.lives[a.foreignKey := Extended(s.lives[a.foreignKey])])
  {
    hide MergedRecord, PeerAdded, Record;
  }

  /** The new tables and the user's new life, in full. */
  lemma CommitOutcome(c: Curve, ci: Cipher, s: State, a: Action) returns (sealed: seq<byte>)
    requires c.Valid() && ci.Valid() && Inv(c, ci, s) && a.Commit? && Premise(c, s, a)
    ensures var l := s.lives[a.foreignKey];
            var db := WithPeer(s.db, a.userAgent, l.session.value.newId, a.foreignKey, sealed, a.nonce);
            && Step(c, ci, s, a) == State(db, s.lives[a.foreignKey := Extended(l)])
            && Fresh(db) && LifeInv(c, ci, db, a.foreignKey, Extended(l)) && db.users == s.db.users
  {
    var l := s.lives[a.foreignKey];
    assert LifeInv(c, ci, s.db, a.foreignKey, l);
    assert SessionInv(c, l) && l.session.value.newId != SERVER_ID && l.session.value.newId !in l.coords;
    hide SessionInv, CoordsInv, LocalsInv, RowsInv, MergedRecord, PeerAdded, WithPeer, Record, Fresh;
    MergeAccepts(c, l);
    sealed := CommitStores(c, ci, s.db, a.foreignKey, l, a.userAgent, a.nonce);
    CommitEffect(c, ci, s, a, WithPeer(s.db, a.userAgent, l.session.value.newId, a.foreignKey, sealed, a.nonce));
    ExtendedCoords(c, l);
    ExtendedLocals(c, l);
    ExtendedSession(c, l);
  }

  lemma CommitKeepsInv(c: Curve, ci: Cipher, s: State, a: Action)
    requires c.Valid() && ci.Valid() && Inv(c, ci, s) && a.Commit? && Premise(c, s, a)
    ensures Inv(c, ci, Step(c, ci, s, a))
  {
    var fk := a.foreignKey;
    var l := s.lives[fk];
    var newId := l.session.value.newId;
    var sealed := CommitOutcome(c, ci, s, a);
    var db := WithPeer(s.db, a.userAgent, newId, fk, sealed, a.nonce);
    assert LifeInv(c, ci, s.db, fk, l);
    hide CoordsInv, LocalsInv, SessionInv, WithPeer, OneWallet, PeersOf, Record, Fresh, Step;
    forall other | other in s.lives && other != fk
      ensures RowsInv(c, ci, db, other, s.lives[other])
    {
      var k := s.lives[other];
      assert LifeInv(c, ci, s.db, other, k);
      AddPeerKeepsOthers(s.db, a.userAgent, newId, fk, sealed, a.nonce, l.userId, l.row, other, k.userId, k.row);
    }
    OneUserChanges(c, ci, s, fk, db, Extended(l));
  }

  // ---- Delivering ----

  /** The new device's key share: on the wallet's polynomial, with the three parties of its session. */
  lemma DeliveredShare(c: Curve, l: Life)
    requires c.Valid() && CoordsInv(c, l) && SessionInv(c, l) && l.session.Some? && l.session.value.committed
    ensures var x := l.session.value;
            && SERVER_ID in x.server.bks && x.existing in x.server.bks
            && var k := NewPeerResult(c.order, x.server, x.device, x.existing, x.newId, x.xNew);
               && k.bks.Keys == {SERVER_ID, x.existing, x.newId} && k.bks.Keys <= Parties(l).Keys
               && k == KeyShare(Mod(l.a0, c.order), Share(c.order, l.a0, l.a1, x.xNew), Known(Parties(l), k.bks.Keys))
  {
    assert Prime(c.order);
    hide DistinctNonZero, Curve.Valid, Prime;
    var x := l.session.value;
    var k := NewPeerResult(c.order, x.server, x.device, x.existing, x.newId, x.xNew);
    CoordinatesDiffer(c, l, x.existing);
    NewShareOnLine(c.order, l.a0, l.a1, x.server, x.device, x.existing, x.newId, x.xNew);
    assert k.bks.Keys == {SERVER_ID, x.existing, x.newId};
    assert k.bks == Known(Parties(l), k.bks.Keys);
  }

  lemma DeliverEffect(c: Curve, l: Life)
    requires c.Valid() && CoordsInv(c, l) && SessionInv(c, l) && l.session.Some? && l.session.value.committed
    ensures var x := l.session.value;
            && SERVER_ID in x.server.bks && x.existing in x.server.bks
            && var k := NewPeerResult(c.order, x.server, x.device, x.existing, x.newId, x.xNew);
               DeliverStep(c, l) == l.(locals := l.locals[x.newId := Printed(c, k, x.newId)],
                                       views := l.views[x.newId := k.bks.Keys], session := None)
  {
    DeliveredShare(c, l);
  }

  lemma DeliveredLife(c: Curve, l: Life)
    requires c.Valid() && CoordsInv(c, l) && LocalsInv(c, l) && SessionInv(c, l)
    requires l.session.Some? && l.session.value.committed
    ensures var l' := DeliverStep(c, l);
            && l.session.value.newId in l'.locals
            && l' == l.(locals := l'.locals, views := l'.views, session := None)
            && LocalsInv(c, l')
  {
    DeliverEffect(c, l);
    DeliveredLocal(c, l);
    hide CoordsInv, SessionInv, LocalsInv, LocalInv, NewPeerResult, DeliverStep, Curve.Valid, Printed;
    OneMoreLocal(c, l, DeliverStep(c, l), l.session.value.newId);
  }

  lemma OneMoreLocal(c: Curve, l: Life, l': Life, newId: string)
    requires c.order > 1 && LocalsInv(c, l)
    requires newId in l'.locals && newId in l'.views && LocalInv(c, l', newId)
    requires l'.locals == l.locals[newId := l'.locals[newId]] && l'.views == l.views[newId := l'.views[newId]]
    requires l' == l.(locals := l'.locals, views := l'.views, session := None)
    ensures LocalsInv(c, l')
  {
    hide LocalInv;
    forall d | d in l'.locals
      ensures LocalInv(c, l', d)
    {
      if d != newId {
        LocalKept(c, l, l', d);
      }
    }
  }

  lemma DeliveredLocal(c: Curve, l: Life)
    requires c.Valid() && CoordsInv(c, l) && SessionInv(c, l) && l.session.Some? && l.session.value.committed
    ensures var l', d := DeliverStep(c, l), l.session.value.newId;
            d in l'.locals && d in l'.views && LocalInv(c, l', d)
  {
    DeliveredShare(c, l);
    DeliverEffect(c, l);
    hide Share, Mod, Printed, NewPeerResult, DeliverStep, Curve.Valid, DistinctNonZero, TwoParameters, Record;
    var x, l' := l.session.value, DeliverStep(c, l);
    assert Parties(l') == Parties(l);
    assert DeviceShare(c, l', x.newId) == NewPeerResult(c.order, x.server, x.device, x.existing, x.newId, x.xNew);
  }

  lemma LocalKept(c: Curve, l: Life, l': Life, d: string)
    requires c.order > 1 && d in l.locals && d in l.views && LocalInv(c, l, d)
    requires d in l'.locals && l'.locals[d] == l.locals[d] && d in l'.views && l'.views[d] == l.views[d]
    requires l' == l.(locals := l'.locals, views := l'.views, session := None)
    ensures LocalInv(c, l', d)
  {
    hide Share, Mod, Printed;
    assert Parties(l') == Parties(l);
    assert DeviceShare(c, l', d) == DeviceShare(c, l, d);
  }

  lemma CoordinatesDiffer(c: Curve, l: Life, d: string)
    requires c.order > 1 && CoordsInv(c, l) && d in l.coords
    ensures !Cong(c.order, l.xServer, l.coords[d])
  {
  }

  lemma DeliverKeepsInv(c: Curve, ci: Cipher, s: State, fk: string)
    requires c.Valid() && Inv(c, ci, s) && Premise(c, s, Deliver(fk))
    ensures Inv(c, ci, Step(c, ci, s, Deliver(fk)))
  {
    var l := s.lives[fk];
    var l' := DeliverStep(c, l);
    assert LifeInv(c, ci, s.db, fk, l);
    DeliveredLife(c, l);
    LocalsChange(c, ci, s.db, fk, l, l');
    hide RowsInv, CoordsInv, LocalsInv, SessionInv, DeliverStep;
    OneLifeChanges(c, ci, s, fk, l');
  }

  lemma LocalsChange(c: Curve, ci: Cipher, db: Tables, fk: string, l: Life, l': Life)
    requires c.order > 1 && LifeInv(c, ci, db, fk, l) && LocalsInv(c, l')
    requires l' == l.(locals := l'.locals, views := l'.views, session := None)
    ensures LifeInv(c, ci, db, fk, l')
  {
    hide LocalsInv, DistinctNonZero, OneWallet, PeersOf, Printed, Share, Mod;
    assert Parties(l') == Parties(l);
    assert Record(c, l') == Record(c, l);
  }

  // ---- Every step, every run ----

  lemma StepKeepsInv(c: Curve, ci: Cipher, s: State, a: Action)
    requires c.Valid() && ci.Valid() && Inv(c, ci, s) && Premise(c, s, a)
    ensures Inv(c, ci, Step(c, ci, s, a))
  {
    hide Inv, DkgStep, CommitStep, DeliverStep, Started;
    match a
    case Dkg(_, _, _, _, _, _, _, _, _, _) => DkgKeepsInv(c, ci, s, a);
    case Open(_, _, _, _) => OpenKeepsInv(c, ci, s, a);
    case Commit(_, _, _) => CommitKeepsInv(c, ci, s, a);
    case Deliver(fk) => DeliverKeepsInv(c, ci, s, fk);
    case Abort(fk) => AbortKeepsInv(c, ci, s, fk);
  }

  lemma {:induction false} RunKeepsInv(c: Curve, ci: Cipher, s: State, run: seq<Action>, end: State)
    requires c.Valid() && ci.Valid() && Inv(c, ci, s) && Leads(c, ci, s, run, end)
    ensures Inv(c, ci, end)
    decreases |run|
  {
    hide Inv, Step, Premise;
    if run != [] {
      StepKeepsInv(c, ci, s, run[0]);
      RunKeepsInv(c, ci, Step(c, ci, s, run[0]), run[1..], end);
    }
  }
}
