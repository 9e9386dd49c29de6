/** What holds in every state the wallet system can reach, and across every run. */
module WalletTheorems {
  import opened AddServices
  import opened Curves
  import opened Database
  import opened Decimal
  import opened Identities
  import opened Interpolation
  import opened KeyRecovery
  import opened ModularArithmetic
  import opened SignerServices
  import opened Vaults
  import opened WalletInvariant
  import opened WalletLifetime
  import opened Wallets
  import opened Wrappers

  lemma InitInv(c: Curve, ci: Cipher)
    requires c.order > 1
    ensures Inv(c, ci, INIT)
  {
  }

  ghost predicate Reachable(c: Curve, ci: Cipher, s: State)
    requires c.order > 1
  {
    exists run :: Leads(c, ci, INIT, run, s)
  }

  lemma ReachableInv(c: Curve, ci: Cipher, s: State)
    requires c.Valid() && ci.Valid() && Reachable(c, ci, s)
    ensures Inv(c, ci, s)
  {
    hide Inv, Leads;
    var run :| Leads(c, ci, INIT, run, s);
    InitInv(c, ci);
    RunKeepsInv(c, ci, INIT, run, s);
  }

  lemma ReachableLife(c: Curve, ci: Cipher, s: State, fk: string)
    requires c.Valid() && ci.Valid() && Reachable(c, ci, s) && fk in s.lives
    ensures var l := s.lives[fk];
            LifeInv(c, ci, s.db, fk, l) && Retrieved(ci, s.db, fk, Some(l.metadata)) == Ok(Record(c, l))
  {
    ReachableInv(c, ci, s);
    hide Reachable, CoordsInv, LocalsInv, SessionInv, RowsInv, Record, Retrieved;
    assert LifeInv(c, ci, s.db, fk, s.lives[fk]);
    RecordIsRetrieved(c, ci, s.db, fk, s.lives[fk]);
  }

  // ---- One key ----

  lemma DeviceRecovers(lib: Birkhoff, c: Curve, l: Life, d: string)
    requires lib.Valid() && c.Valid() && CoordsInv(c, l) && LocalsInv(c, l) && d in l.locals
    ensures var w := Record(c, l);
            && NewPubkey(w.pubkey) == Ok(PubkeyOf(c, Mod(l.a0, c.order)))
            && RecoveredFromWallet(lib, c, d, w.pubkey, w.share, l.locals[d].share, w.bks) == Ok(Mod(l.a0, c.order))
  {
    assert LocalInv(c, l, d);
    hide RecoveredFromWallet, NewPubkey, Converted, Share, Birkhoff.Valid, Curve.Valid, DistinctNonZero;
    var k := ServerShare(c, l);
    ConvertPrinted(c, k, RecordPeer(l));
    PrintedWalletRecoversSecret(lib, c, k, l.a0, l.a1, d, RecordPeer(l));
  }

  // ---- Parties and rows ----

  lemma RecordKeys(c: Curve, l: Life)
    requires c.order > 1
    ensures Record(c, l).bks.Keys == {SERVER_ID} + l.coords.Keys
  {
    assert Record(c, l).bks.Keys == Parties(l).Keys;
  }

  /** These texts are the generated key and the coordinates of the server and one device. */
  predicate KeyText(c: Curve, l: Life, d: string, pubkey: PubkeyStr, bks: map<string, BK>)
    requires c.order > 1
  {
    var key := Mod(l.a0, c.order);
    && Parse(pubkey.x) == Some(c.x(key)) && Parse(pubkey.y) == Some(c.y(key))
    && SERVER_ID in bks && Parse(bks[SERVER_ID].x) == Some(l.xServer) && bks[SERVER_ID].rank == 0
    && d in bks && d in l.coords && Parse(bks[d].x) == Some(l.coords[d]) && bks[d].rank == 0
  }

  /** What the record says in text: the key and its address, the server's share, and every party's coordinate. */
  lemma RecordText(c: Curve, l: Life)
    requires c.Valid() && CoordsInv(c, l)
    ensures var w := Record(c, l);
            && w.address == c.address(Mod(l.a0, c.order))
            && Parse(w.share) == Some(Share(c.order, l.a0, l.a1, l.xServer))
            && w.bks.Keys == {SERVER_ID} + l.coords.Keys
            && (forall d :: d in l.coords ==> KeyText(c, l, d, w.pubkey, w.bks))
  {
    var w := Record(c, l);
    RecordKeys(c, l);
    PrintedText(c, ServerShare(c, l), RecordPeer(l));
    hide Parse, Print, Mod, Share, DistinctNonZero, Curve.Valid;
    assert Parties(l)[SERVER_ID] == BkParameter(l.xServer, 0);
    forall d | d in l.coords
      ensures KeyText(c, l, d, w.pubkey, w.bks)
    {
      assert Parties(l)[d] == BkParameter(l.coords[d], 0);
    }
  }

  lemma PrintedText(c: Curve, k: KeyShare, peerId: string)
    ensures var w := Printed(c, k, peerId);
            && Parse(w.pubkey.x) == Some(c.x(k.publicKey)) && Parse(w.pubkey.y) == Some(c.y(k.publicKey))
            && Parse(w.share) == Some(k.share) && w.bks.Keys == k.bks.Keys
            && (forall id :: id in k.bks ==>
                  Parse(w.bks[id].x) == Some(k.bks[id].x) && w.bks[id].rank == k.bks[id].rank)
  {
    ParsePrint(c.x(k.publicKey));
    ParsePrint(c.y(k.publicKey));
    ParsePrint(k.share);
    ParsePrintedBKs(k.bks);
  }

  /** What a device's wallet says: the same key and address, its own share, and the two coordinates it needs. */
  lemma LocalText(c: Curve, l: Life, d: string)
    requires c.Valid() && CoordsInv(c, l) && LocalsInv(c, l) && d in l.locals
    ensures d in l.coords && KeyText(c, l, d, l.locals[d].pubkey, l.locals[d].bks)
    ensures var w := l.locals[d];
            && w.address == c.address(Mod(l.a0, c.order)) && w.peerId == d
            && Parse(w.share) == Some(Share(c.order, l.a0, l.a1, l.coords[d]))
  {
    assert LocalInv(c, l, d);
    PrintedText(c, DeviceShare(c, l, d), d);
    hide Parse, Print, Mod, Share, DistinctNonZero, Curve.Valid, LocalsInv;
    assert Parties(l)[SERVER_ID] == BkParameter(l.xServer, 0);
    assert Parties(l)[d] == BkParameter(l.coords[d], 0);
  }

  /** The record's parties are the server and exactly the peer ids of the user's device rows. */
  lemma RecordNamesTheDevices(c: Curve, ci: Cipher, s: State, fk: string)
    requires c.Valid() && ci.Valid() && Reachable(c, ci, s) && fk in s.lives
    ensures var l := s.lives[fk];
            var w := Retrieved(ci, s.db, fk, Some(l.metadata));
            && w.Ok? && w.value.bks.Keys == {SERVER_ID} + PeersOf(s.db, l.userId)
            && SERVER_ID !in PeersOf(s.db, l.userId)
            && OneWallet(s.db, fk, l.userId, l.row)
  {
    ReachableLife(c, ci, s, fk);
    hide Reachable, SessionInv, LocalsInv, OneWallet, PeersOf, Retrieved, Record, Curve.Valid, Cipher.Valid;
    RecordKeys(c, s.lives[fk]);
  }

  /** No two users share a foreign key. */
  lemma ForeignKeysAreUnique(c: Curve, ci: Cipher, s: State, u: User, v: User)
    requires c.Valid() && ci.Valid() && Reachable(c, ci, s)
    requires u in s.db.users && v in s.db.users && u.foreignKey == v.foreignKey
    ensures u == v
  {
    ReachableInv(c, ci, s);
    assert LifeInv(c, ci, s.db, u.foreignKey, s.lives[u.foreignKey]);
    hide CoordsInv, LocalsInv, SessionInv, Reachable;
  }

  /**
   In a reachable state the nonce handed to AES-GCM has the right size, so reading a wallet never
   faults, whoever asks and with whatever metadata.
   */
  lemma RetrieveNeverFaults(c: Curve, ci: Cipher, s: State, fk: string, metadata: Option<string>)
    requires c.Valid() && ci.Valid() && Reachable(c, ci, s)
    ensures Retrieved(ci, s.db, fk, metadata) != Err(Faulted)
  {
    ReachableInv(c, ci, s);
    hide CoordsInv, LocalsInv, SessionInv, Reachable, Record, Retrieved, OneWallet, PeersOf, Opened, FirstUser;
    FirstUserSpec(s.db.users, fk);
    if FirstUser(s.db.users, fk).None? {
      NoUserNoFault(ci, s.db, fk, metadata);
    } else {
      var l := s.lives[fk];
      assert LifeInv(c, ci, s.db, fk, l);
      OpensWithoutFault(ci, s.db, fk, l.userId, l.row, l.metadata, metadata);
    }
  }

  lemma NoUserNoFault(ci: Cipher, t: Tables, fk: string, metadata: Option<string>)
    requires FirstUser(t.users, fk).None?
    ensures Retrieved(ci, t, fk, metadata) == Err(NotFound)
  {
  }

  /** Where one reading of a row did not fault, none does. */
  lemma OpensWithoutFault(ci: Cipher, t: Tables, fk: string, userId: nat, i: nat, good: string,
      metadata: Option<string>)
    requires OneWallet(t, fk, userId, i)
    requires ci.decodeKey(good).Some? && Opened(ci, ci.decodeKey(good).value, t.wallets[i]).Ok?
    ensures Retrieved(ci, t, fk, metadata) != Err(Faulted)
  {
    FirstWalletAt(t.wallets, userId, i);
  }

  /**
   In a reachable state a metadata text reads the wallet exactly when its key has an AES size and opens the
   user's one row; every other key gives `OpenFailed`, and a text that is no key `BadMetadata`.
   */
  lemma MetadataOpensExactly(c: Curve, ci: Cipher, s: State, fk: string, metadata: string)
    requires c.Valid() && ci.Valid() && Reachable(c, ci, s) && fk in s.lives
    ensures var l := s.lives[fk];
            var key, res := ci.decodeKey(metadata), Retrieved(ci, s.db, fk, Some(metadata));
            && OneWallet(s.db, fk, l.userId, l.row) && |s.db.wallets[l.row].nonce| == NONCE_SIZE
            && (key.None? <==> res == Err(BadMetadata))
            && (key.Some? ==>
                  var plain := ci.open(key.value, s.db.wallets[l.row].nonce, s.db.wallets[l.row].sealed);
                  && (forall w :: res == Ok(w) <==> AesKey(key.value) && plain == Some(w))
                  && (res == Err(OpenFailed) <==> !AesKey(key.value) || plain.None?))
  {
    ReachableLife(c, ci, s, fk);
    var l := s.lives[fk];
    hide CoordsInv, LocalsInv, SessionInv, Reachable, Record, PeersOf, Curve.Valid, Cipher.Valid;
    RowRead(ci, s.db, fk, l.userId, l.row, metadata);
  }

  lemma RowRead(ci: Cipher, t: Tables, fk: string, userId: nat, i: nat, metadata: string)
    requires OneWallet(t, fk, userId, i)
    ensures Retrieved(ci, t, fk, Some(metadata)) ==
            match ci.decodeKey(metadata)
            case None => Err(BadMetadata)
            case Some(key) =>
              if !AesKey(key) then Err(OpenFailed)
              else if |t.wallets[i].nonce| != NONCE_SIZE then Err(Faulted)
              else
                match ci.open(key, t.wallets[i].nonce, t.wallets[i].sealed)
                case None => Err(OpenFailed)
                case Some(w) => Ok(w)
  {
    FirstWalletAt(t.wallets, userId, i);
  }

  lemma LocalMapInRecord(c: Curve, l: Life, d: string)
    requires c.order > 1 && CoordsInv(c, l) && LocalsInv(c, l) && d in l.locals
    ensures var w, local := Record(c, l), l.locals[d];
            && Submap(local.bks, w.bks) && SERVER_ID in local.bks && d in local.bks && local.peerId == d
            && d in l.coords && d != SERVER_ID
  {
    assert LocalInv(c, l, d);
    hide DistinctNonZero, Share, Mod, LocalsInv;
    assert Submap(Known(Parties(l), l.views[d]), Parties(l));
  }

  /** A device's map is part of the record's, with the same entries, and names the server and itself. */
  lemma LocalMapIsPartOfRecord(c: Curve, ci: Cipher, s: State, fk: string, d: string)
    requires c.Valid() && ci.Valid() && Reachable(c, ci, s) && fk in s.lives && d in s.lives[fk].locals
    ensures var l := s.lives[fk];
            var w, local := Retrieved(ci, s.db, fk, Some(l.metadata)), l.locals[d];
            && w.Ok? && Submap(local.bks, w.value.bks) && SERVER_ID in local.bks && d in local.bks && local.peerId == d
            && d in PeersOf(s.db, l.userId) && d != SERVER_ID
  {
    ReachableLife(c, ci, s, fk);
    hide Reachable, CoordsInv, SessionInv, LocalsInv, OneWallet, PeersOf, Retrieved, Record, Submap, Curve.Valid,
         Cipher.Valid;
    LocalMapInRecord(c, s.lives[fk], d);
  }

  /** Both signers start: same key, same two parameters, shares on the wallet's polynomial. */
  lemma SignersStart(c: Curve, l: Life, d: string)
    requires c.Valid() && CoordsInv(c, l) && LocalsInv(c, l) && d in l.locals
    ensures d in l.coords
    ensures var w, local, two := Record(c, l), l.locals[d], TwoParameters(Parties(l), d);
            && SessionShare(c, w.pubkey, w.share, w.bks, d)
               == Ok(KeyShare(Mod(l.a0, c.order), Share(c.order, l.a0, l.a1, l.xServer), two))
            && SessionShare(c, local.pubkey, local.share, local.bks, d)
               == Ok(KeyShare(Mod(l.a0, c.order), Share(c.order, l.a0, l.a1, l.coords[d]), two))
  {
    assert LocalInv(c, l, d);
    hide DistinctNonZero, SessionShare, Curve.Valid, Mod, Share, LocalsInv;
    PrintedWalletStarts(c, ServerShare(c, l), RecordPeer(l), d);
    PrintedWalletStarts(c, DeviceShare(c, l, d), d, d);
    TwoOfKnown(Parties(l), l.views[d], d);
  }

  lemma SignersHoldTheKey(c: Curve, l: Life, d: string)
    requires c.Valid() && CoordsInv(c, l) && LocalsInv(c, l) && d in l.locals && d in l.coords
    ensures Interpolate(c.order, l.xServer, Share(c.order, l.a0, l.a1, l.xServer), l.coords[d],
        Share(c.order, l.a0, l.a1, l.coords[d]), 0)
            == Mod(l.a0, c.order)
  {
    assert DistinctNonZero(c.order, l.xServer, l.coords[d]);
    InterpolationIsExact(c.order, l.a0, l.a1, l.xServer, l.coords[d], 0);
    assert Line(l.a0, l.a1, 0) == l.a0;
  }

  /**
   The peer manager knows one peer, and that peer and itself are the parties of the library, as many as
   the threshold.
   */
  predicate Manned(setup: Setup) {
    && |setup.peers| == 1 && setup.self !in setup.peers
    && {setup.self} + setup.peers == setup.input.bks.Keys && |setup.input.bks| == THRESHOLD
  }

  /**
   The server with record `w` and device `d` with wallet `local` can sign: both filters give the same
   two entries, both signers start with the same key and parameters and with each other as the one
   peer, as many parties as the threshold, and the two shares combine to the key.
   */
  predicate CanSign(c: Curve, w: DkgResult, local: DkgResult, d: string)
    requires c.order > 1
  {
    && local.peerId == d
    && FilteredBKs(w.bks, d) == FilteredBKs(local.bks, d)
    && FilteredBKs(w.bks, d).Keys == {SERVER_ID, d} && |FilteredBKs(w.bks, d)| == THRESHOLD
    && var server, device :=
         ServerSetup(c, d, w.pubkey, w.share, w.bks), ClientSetup(c, d, local.pubkey, local.share, local.bks);
       && server.Ok? && device.Ok?
       && Manned(server.value) && Manned(device.value)
       && server.value.self == SERVER_ID && device.value.self == d
       && SharesCombine(c, server.value.input, device.value.input, d)
  }

  /** One key and one map of parameters, and two shares that interpolate to the key. */
  predicate SharesCombine(c: Curve, server: KeyShare, device: KeyShare, d: string)
    requires c.order > 1
  {
    && server.publicKey == device.publicKey && server.bks == device.bks
    && SERVER_ID in server.bks && d in server.bks
    && Interpolate(c.order, server.bks[SERVER_ID].x, server.share, server.bks[d].x, device.share, 0) == server.publicKey
  }

  lemma BothManned(k: KeyShare, d: string)
    requires d != SERVER_ID && k.bks.Keys == {SERVER_ID, d}
    ensures Manned(Setup(k, SERVER_ID, {d})) && Manned(Setup(k, d, {SERVER_ID}))
  {
    assert |k.bks| == |k.bks.Keys|;
  }

  lemma CanSignBecause(c: Curve, w: DkgResult, local: DkgResult, d: string, server: KeyShare, device: KeyShare)
    requires c.order > 1 && local.peerId == d && d != SERVER_ID
    requires FilteredBKs(w.bks, d) == FilteredBKs(local.bks, d)
    requires FilteredBKs(w.bks, d).Keys == {SERVER_ID, d} && |FilteredBKs(w.bks, d)| == THRESHOLD
    requires SessionShare(c, w.pubkey, w.share, w.bks, d) == Ok(server)
    requires SessionShare(c, local.pubkey, local.share, local.bks, d) == Ok(device)
    requires server.bks.Keys == {SERVER_ID, d} && SharesCombine(c, server, device, d)
    ensures CanSign(c, w, local, d)
  {
    hide SessionShare, FilteredBKs, Manned, Interpolate;
    BothManned(server, d);
    BothManned(device, d);
  }

  lemma DeviceCanSign(c: Curve, l: Life, d: string)
    requires c.Valid() && CoordsInv(c, l) && LocalsInv(c, l) && d in l.locals
    ensures CanSign(c, Record(c, l), l.locals[d], d)
  {
    LocalMapInRecord(c, l, d);
    SignersStart(c, l, d);
    SignersHoldTheKey(c, l, d);
    hide Submap, Interpolate, Share, Curve.Valid, SessionShare, Record, CoordsInv, LocalsInv, CanSign, FilteredBKs;
    var w, local := Record(c, l), l.locals[d];
    FiltersAgree(local.bks, w.bks, d);
    FilterLeavesTwo(local.bks, d);
    var server := SessionShare(c, w.pubkey, w.share, w.bks, d).value;
    assert server.bks.Keys == {SERVER_ID, d};
    CanSignBecause(c, w, local, d, server, server.(share := Share(c.order, l.a0, l.a1, l.coords[d])));
  }

  /** Every device that holds a wallet can sign, in every reachable state. */
  lemma EveryDeviceCanSign(c: Curve, ci: Cipher, s: State, fk: string, d: string)
    requires c.Valid() && ci.Valid() && Reachable(c, ci, s) && fk in s.lives && d in s.lives[fk].locals
    ensures var w := Retrieved(ci, s.db, fk, Some(s.lives[fk].metadata));
            w.Ok? && CanSign(c, w.value, s.lives[fk].locals[d], d)
  {
    ReachableLife(c, ci, s, fk);
    hide Reachable, Retrieved, RowsInv, SessionInv, CoordsInv, LocalsInv, Record, CanSign;
    DeviceCanSign(c, s.lives[fk], d);
  }

  // ---- Additions succeed ----

  /** From any reachable state an addition accepted by any device goes through: the services start. */
  lemma OpenSucceeds(c: Curve, ci: Cipher, s: State, a: Action)
    requires c.Valid() && ci.Valid() && Reachable(c, ci, s) && a.Open? && Premise(c, s, a)
    ensures Started(c, ci, s.db, s.lives[a.foreignKey], a).Some?
  {
    ReachableInv(c, ci, s);
    assert LifeInv(c, ci, s.db, a.foreignKey, s.lives[a.foreignKey]);
    SessionStarts(c, ci, s.db, s.lives[a.foreignKey], a);
  }

  /** The user's wallet row, the record and every device's wallet carry the address of the generated key. */
  lemma AddressIsOfKey(c: Curve, ci: Cipher, s: State, fk: string)
    requires c.Valid() && ci.Valid() && Reachable(c, ci, s) && fk in s.lives
    ensures var l := s.lives[fk];
            var address, w := c.address(Mod(l.a0, c.order)), Retrieved(ci, s.db, fk, Some(l.metadata));
            && w.Ok? && w.value.address == address
            && (forall d :: d in l.locals ==> l.locals[d].address == address)
            && (exists row :: row in s.db.wallets && row.userId == l.userId)
            && (forall row :: row in s.db.wallets && row.userId == l.userId ==> row.address == address)
  {
    ReachableLife(c, ci, s, fk);
    hide Reachable, SessionInv, Record, Retrieved, Opened, PeersOf, Parse, KeyText, Curve.Valid, Cipher.Valid;
    var l := s.lives[fk];
    RecordText(c, l);
    forall d | d in l.locals ensures l.locals[d].address == c.address(Mod(l.a0, c.order)) {
      LocalText(c, l, d);
    }
    RowExists(s.db, fk, l.userId, l.row);
    assert s.db.wallets[l.row] in s.db.wallets;
  }

  /** Key generation gives the user one device row, with the peer id and the agent it came from. */
  lemma DkgSucceeds(c: Curve, ci: Cipher, s: State, a: Action)
    requires c.Valid() && ci.Valid() && Reachable(c, ci, s) && a.Dkg? && Premise(c, s, a)
    ensures var s' := Step(c, ci, s, a);
            && a.foreignKey in s'.lives && FirstUser(s'.db.users, a.foreignKey).Some?
            && exists d: Device :: d.peerId == a.peerId && d.userAgent == a.userAgent
                 && DevicesOf(s'.db.devices, FirstUser(s'.db.users, a.foreignKey).value.id) == [d]
  {
    hide Inv, Reachable, Step, InsertedDkg, DevicesOf, LifeInv, OneWallet, PeersOf, Cipher.Valid;
    ReachableInv(c, ci, s);
    var address, sealed, l := DkgOutcome(c, ci, s, a);
    assert Fresh(s.db) by { FreshInInv(c, ci, s); }
    DkgGivesOneWallet(s.db, a.userAgent, a.peerId, a.foreignKey, address, sealed, a.nonce);
    NewUserHasOneDevice(s.db, a.userAgent, a.peerId, a.foreignKey, address, sealed, a.nonce);
  }

  lemma FreshInInv(c: Curve, ci: Cipher, s: State)
    requires c.order > 1 && Inv(c, ci, s)
    ensures Fresh(s.db)
  {
  }

  /** The merge never rejects and the row is stored: the new peer is in the tables and in the record. */
  lemma CommitSucceeds(c: Curve, ci: Cipher, s: State, a: Action)
    requires c.Valid() && ci.Valid() && Reachable(c, ci, s) && a.Commit? && Premise(c, s, a)
    ensures var l := s.lives[a.foreignKey];
            && MergedRecord(c, l.session.value).Some?
            && Step(c, ci, s, a).lives == s.lives[a.foreignKey := Extended(l)]
            && PeersOf(Step(c, ci, s, a).db, l.userId) == PeersOf(s.db, l.userId) + {l.session.value.newId}
            && exists d: Device :: d.peerId == l.session.value.newId && d.userAgent == a.userAgent
                 && DevicesOf(Step(c, ci, s, a).db.devices, l.userId) == DevicesOf(s.db.devices, l.userId) + [d]
  {
    hide Inv, CoordsInv, LocalsInv, SessionInv, Reachable, Step, WithPeer, MergedRecord, DevicesOf, PeersOf,
         OneWallet, Record, Retrieved, Extended, Curve.Valid, Cipher.Valid;
    ReachableInv(c, ci, s);
    ReachableLife(c, ci, s, a.foreignKey);
    var l := s.lives[a.foreignKey];
    MergeAccepts(c, l);
    var sealed := CommitOutcome(c, ci, s, a);
    AddPeerOnOneWallet(s.db, a.userAgent, l.session.value.newId, a.foreignKey, sealed, a.nonce, l.userId, l.row);
    RowExists(s.db, a.foreignKey, l.userId, l.row);
    var d := Device(s.db.serial + 1, l.userId, s.db.wallets[l.row].id, l.session.value.newId, a.userAgent);
    var after := WithPeer(s.db, a.userAgent, l.session.value.newId, a.foreignKey, sealed, a.nonce);
    assert DevicesOf(after.devices, l.userId) == DevicesOf(s.db.devices, l.userId) + [d];
  }

  /** The new device ends with a wallet of its own, naming the server, the device that let it in, and itself. */
  lemma DeliverSucceeds(c: Curve, ci: Cipher, s: State, fk: string)
    requires c.Valid() && ci.Valid() && Reachable(c, ci, s) && Premise(c, s, Deliver(fk))
    ensures var x, l := s.lives[fk].session.value, DeliverStep(c, s.lives[fk]);
            && x.newId in l.locals && l.locals[x.newId].bks.Keys == {SERVER_ID, x.existing, x.newId}
            && l.locals == s.lives[fk].locals[x.newId := l.locals[x.newId]] && l.session == None
  {
    hide Reachable, RowsInv, Record, Retrieved, CoordsInv, LocalsInv, SessionInv, Cipher.Valid;
    ReachableLife(c, ci, s, fk);
    NewWalletNamesThree(c, s.lives[fk]);
  }

  lemma NewWalletNamesThree(c: Curve, l: Life)
    requires c.order > 1 && CoordsInv(c, l) && SessionInv(c, l) && l.session.Some? && l.session.value.committed
    ensures var x, l' := l.session.value, DeliverStep(c, l);
            && x.newId in l'.locals && l'.locals[x.newId].bks.Keys == {SERVER_ID, x.existing, x.newId}
            && l'.locals == l.locals[x.newId := l'.locals[x.newId]] && l'.session == None
  {
    hide Mod, Share, Interpolate, DistinctNonZero, Print;
    var x := l.session.value;
    assert TwoParameters(Parties(l), x.existing).Keys == {SERVER_ID, x.existing};
  }

  /** The merge rejects or the vault returns an error. */
  predicate CommitFails(c: Curve, ci: Cipher, s: State, a: Action)
    requires a.Commit? && a.foreignKey in s.lives && s.lives[a.foreignKey].session.Some?
  {
    var l := s.lives[a.foreignKey];
    var x := l.session.value;
    var merged := MergedRecord(c, x);
    merged.None?
    || PeerAdded(ci, s.db, a.foreignKey, x.newId, a.userAgent, merged.value, Some(l.metadata), a.nonce).Err?
  }

  /** Whatever fails, the session ends and neither the tables nor any wallet change. */
  lemma FailureEndsSession(c: Curve, ci: Cipher, s: State, a: Action)
    requires c.order > 1 && Premise(c, s, a) && a.foreignKey in s.lives
    requires a.Abort? || (a.Commit? && CommitFails(c, ci, s, a))
    ensures Step(c, ci, s, a) == s.(lives := s.lives[a.foreignKey := s.lives[a.foreignKey].(session := None)])
  {
    hide MergedRecord, PeerAdded;
  }

  // ---- Across runs ----

  /** Nothing a user has is lost or changed: local wallets, metadata, key, recorded parties. */
  predicate Keeps(c: Curve, l: Life, l': Life)
    requires c.order > 1
  {
    && l'.metadata == l.metadata && Submap(l.locals, l'.locals)
    && (l'.a0, l'.a1, l'.xServer, l'.userId, l'.row) == (l.a0, l.a1, l.xServer, l.userId, l.row)
    && Submap(Record(c, l).bks, Record(c, l').bks)
    && Record(c, l').(bks := Record(c, l).bks, peerId := Record(c, l).peerId) == Record(c, l)
  }

  lemma KeepsBecause(c: Curve, l: Life, l': Life)
    requires c.order > 1 && Submap(l.locals, l'.locals) && Submap(l.coords, l'.coords) && SERVER_ID !in l'.coords
    requires l'.metadata == l.metadata
    requires (l'.a0, l'.a1, l'.xServer, l'.userId, l'.row) == (l.a0, l.a1, l.xServer, l.userId, l.row)
    ensures Keeps(c, l, l')
  {
    assert Submap(Parties(l), Parties(l'));
  }

  lemma KeepsReflexive(c: Curve, l: Life)
    requires c.order > 1
    ensures Keeps(c, l, l)
  {
    hide Record;
  }

  lemma KeepsTransitive(c: Curve, l: Life, m: Life, n: Life)
    requires c.order > 1 && Keeps(c, l, m) && Keeps(c, m, n)
    ensures Keeps(c, l, n)
  {
    hide Record;
  }

  /** What one step leaves of a user's life. */
  lemma StepOnLife(c: Curve, ci: Cipher, s: State, a: Action, fk: string)
    requires c.Valid() && ci.Valid() && Inv(c, ci, s) && Premise(c, s, a) && fk in s.lives
    ensures var l, lives := s.lives[fk], Step(c, ci, s, a).lives;
            && fk in lives
            && (a.Dkg? || a.foreignKey != fk ==> lives[fk] == l)
            && (a.foreignKey == fk && (a.Open? || a.Abort?) ==> lives[fk] == l.(session := lives[fk].session))
            && (a.foreignKey == fk && a.Commit? ==> lives[fk] == Extended(l))
            && (a.foreignKey == fk && a.Deliver? ==> lives[fk] == DeliverStep(c, l))
  {
    match a
    case Dkg(_, _, _, _, _, _, _, _, _, _) =>
      hide Step, InsertedDkg, LifeInv, Premise, Inv;
      var _, _, _ := DkgOutcome(c, ci, s, a);
    case Open(_, _, _, _) =>
      hide Started, Inv;
    case Commit(_, _, _) =>
      hide Step, WithPeer, LifeInv, Inv;
      var _ := CommitOutcome(c, ci, s, a);
    case Deliver(_) =>
      hide DeliverStep, Inv;
    case Abort(_) =>
      hide Inv;
  }

  lemma StepKeeps(c: Curve, ci: Cipher, s: State, a: Action, fk: string)
    requires c.Valid() && ci.Valid() && Inv(c, ci, s) && Premise(c, s, a) && fk in s.lives
    ensures fk in Step(c, ci, s, a).lives && Keeps(c, s.lives[fk], Step(c, ci, s, a).lives[fk])
  {
    var l := s.lives[fk];
    assert LifeInv(c, ci, s.db, fk, l);
    StepOnLife(c, ci, s, a, fk);
    hide Inv, Step, RowsInv, LocalsInv, Keeps, DeliverStep, Record;
    if a.Deliver? && fk == a.foreignKey {
      DeliverAddsLocal(c, l);
    }
    hide SessionInv;
    KeepsBecause(c, l, Step(c, ci, s, a).lives[fk]);
  }

  lemma DeliverAddsLocal(c: Curve, l: Life)
    requires c.Valid() && CoordsInv(c, l) && SessionInv(c, l)
    requires l.session.Some? && l.session.value.committed
    ensures var l' := DeliverStep(c, l);
            l' == l.(locals := l'.locals, views := l'.views, session := None) && Submap(l.locals, l'.locals)
  {
    DeliverEffect(c, l);
    hide NewPeerResult, Printed, DeliverStep, CoordsInv, Parties, TwoParameters, Share, Mod, Record, DistinctNonZero;
  }

  /** From any reachable state on, whatever happens, every user keeps what they have. */
  lemma {:induction false} RunKeeps(c: Curve, ci: Cipher, s: State, run: seq<Action>, end: State, fk: string)
    requires c.Valid() && ci.Valid() && Inv(c, ci, s) && Leads(c, ci, s, run, end) && fk in s.lives
    ensures fk in end.lives && Keeps(c, s.lives[fk], end.lives[fk])
    decreases |run|
  {
    hide Inv, Step, Premise, Keeps;
    if run == [] {
      KeepsReflexive(c, s.lives[fk]);
    } else {
      var next := Step(c, ci, s, run[0]);
      StepKeeps(c, ci, s, run[0], fk);
      StepKeepsInv(c, ci, s, run[0]);
      RunKeeps(c, ci, next, run[1..], end, fk);
      KeepsTransitive(c, s.lives[fk], next.lives[fk], end.lives[fk]);
    }
  }

  // ---- A key generation whose client never returned ----

  /** Nobody holds a local wallet and no addition is in progress. */
  predicate Unclaimed(l: Life) {
    l.locals == map[] && l.session.None?
  }

  lemma StepStaysUnclaimed(c: Curve, ci: Cipher, s: State, a: Action, fk: string)
    requires c.Valid() && ci.Valid() && Inv(c, ci, s) && Premise(c, s, a) && fk in s.lives && Unclaimed(s.lives[fk])
    ensures fk in Step(c, ci, s, a).lives && Unclaimed(Step(c, ci, s, a).lives[fk])
  {
    StepOnLife(c, ci, s, a, fk);
    hide Inv, DkgStep, CommitStep, DeliverStep, Started;
  }

  lemma {:induction false} RunStaysUnclaimed(c: Curve, ci: Cipher, s: State, run: seq<Action>, end: State, fk: string)
    requires c.Valid() && ci.Valid() && Inv(c, ci, s) && Leads(c, ci, s, run, end) && fk in s.lives
        && Unclaimed(s.lives[fk])
    ensures fk in end.lives && Unclaimed(end.lives[fk])
    decreases |run|
  {
    hide Inv, Step, Premise, Unclaimed;
    if run != [] {
      StepStaysUnclaimed(c, ci, s, run[0], fk);
      StepKeepsInv(c, ci, s, run[0]);
      RunStaysUnclaimed(c, ci, Step(c, ci, s, run[0]), run[1..], end, fk);
    }
  }

  /**
   If the server stored the wallet but the client never received its part, the user can neither
   generate a new key nor add a device, in any later state.
   */
  lemma UnclaimedWalletIsFinal(c: Curve, ci: Cipher, start: State, a: Action, later: seq<Action>, s: State,
      next: Action)
    requires c.Valid() && ci.Valid() && Reachable(c, ci, start) && a.Dkg? && !a.delivered && Premise(c, start, a)
    requires Leads(c, ci, Step(c, ci, start, a), later, s)
    requires next.foreignKey == a.foreignKey && Premise(c, s, next)
    ensures next.Abort?
  {
    var first := Step(c, ci, start, a);
    ReachableInv(c, ci, start);
    StepKeepsInv(c, ci, start, a);
    DkgStartsLife(c, ci, start, a);
    hide Reachable, Leads, Step, Inv;
    assert a.foreignKey in first.lives && Unclaimed(first.lives[a.foreignKey]);
    RunStaysUnclaimed(c, ci, first, later, s, a.foreignKey);
    RunKeepsInv(c, ci, first, later, s);
    UserExists(c, ci, s, a.foreignKey);
  }

  lemma UserExists(c: Curve, ci: Cipher, s: State, fk: string)
    requires c.order > 1 && Inv(c, ci, s) && fk in s.lives
    ensures FirstUser(s.db.users, fk).Some?
  {
    hide CoordsInv, LocalsInv, SessionInv;
    assert LifeInv(c, ci, s.db, fk, s.lives[fk]);
  }

  // ---- The vault over runs ----

  /** What the library gave the server in each committed addition of one user, in order. */
  function Updates(c: Curve, ci: Cipher, s: State, run: seq<Action>, fk: string): seq<DkgResult>
    requires c.order > 1
    decreases |run|
  {
    if run == [] || !Premise(c, s, run[0]) then []
    else
      var now := if run[0].Commit? && run[0].foreignKey == fk then [Update(c, s.lives[fk].session.value)] else [];
      now + Updates(c, ci, Step(c, ci, s, run[0]), run[1..], fk)
  }

  function Update(c: Curve, x: Session): DkgResult {
    Printed(c, OldPeerResult(x.server, x.newId, x.xNew), SERVER_ID)
  }

  /** One wallet merged with updates one after the other; nothing if any merge rejects. */
  function MergeAll(w: DkgResult, updates: seq<DkgResult>): Option<DkgResult>
    decreases |updates|
  {
    if updates == [] then Some(w)
    else
      match Merged(w.(peerId := SERVER_ID), updates[0])
      case None => None
      case Some(m) => MergeAll(m, updates[1..])
  }

  lemma OriginalOfPrinted(c: Curve, k: KeyShare, ownId: string)
    requires c.Valid() && c.Scalar(k.publicKey)
    ensures NewPubkey(Printed(c, k, ownId).pubkey).Ok?
    ensures OriginalWallet(c, Printed(c, k, ownId), k.publicKey) == Printed(c, k, ownId).(peerId := SERVER_ID)
  {
    ConvertPrinted(c, k, ownId);
  }

  lemma CommitMergesRecord(c: Curve, l: Life)
    requires c.Valid() && CoordsInv(c, l) && SessionInv(c, l) && l.session.Some? && !l.session.value.committed
    ensures Merged(Record(c, l).(peerId := SERVER_ID), Update(c, l.session.value)) == Some(Record(c, Extended(l)))
  {
    MergeAccepts(c, l);
    OriginalOfPrinted(c, ServerShare(c, l), RecordPeer(l));
    hide Merged, Printed, TwoParameters, Parties, Share, NewPubkey, DistinctNonZero, Curve.Valid;
  }

  lemma StepOnRecord(c: Curve, ci: Cipher, s: State, a: Action, fk: string)
    requires c.Valid() && ci.Valid() && Inv(c, ci, s) && Premise(c, s, a) && fk in s.lives
    ensures fk in Step(c, ci, s, a).lives
    ensures var l, l' := s.lives[fk], Step(c, ci, s, a).lives[fk];
            if a.Commit? && a.foreignKey == fk
            then Merged(Record(c, l).(peerId := SERVER_ID), Update(c, l.session.value)) == Some(Record(c, l'))
            else Record(c, l') == Record(c, l)
  {
    var l := s.lives[fk];
    assert LifeInv(c, ci, s.db, fk, l);
    StepOnLife(c, ci, s, a, fk);
    hide Inv, Step, RowsInv, LocalsInv, DeliverStep, Merged, Update;
    if a.foreignKey == fk && a.Commit? {
      hide Record;
      CommitMergesRecord(c, l);
    } else {
      if a.foreignKey == fk && a.Deliver? {
        DeliverAddsLocal(c, l);
      }
      SameRecord(c, l, Step(c, ci, s, a).lives[fk]);
    }
  }

  lemma SameRecord(c: Curve, l: Life, l': Life)
    requires c.order > 1 && l' == l.(locals := l'.locals, views := l'.views, session := l'.session)
    ensures Record(c, l') == Record(c, l)
  {
    hide Printed;
    assert Parties(l') == Parties(l);
  }

  lemma {:induction false} RecordIsMergeOfUpdates(c: Curve, ci: Cipher, s: State, run: seq<Action>, end: State,
      fk: string)
    requires c.Valid() && ci.Valid() && Inv(c, ci, s) && Leads(c, ci, s, run, end) && fk in s.lives
    ensures fk in end.lives
    ensures MergeAll(Record(c, s.lives[fk]), Updates(c, ci, s, run, fk)) == Some(Record(c, end.lives[fk]))
    decreases |run|
  {
    if run != [] {
      var a, next := run[0], Step(c, ci, s, run[0]);
      StepOnRecord(c, ci, s, a, fk);
      StepKeepsInv(c, ci, s, a);
      RecordIsMergeOfUpdates(c, ci, next, run[1..], end, fk);
      hide Inv, Step, Record, Merged, Update;
      var later := Updates(c, ci, next, run[1..], fk);
      if a.Commit? && a.foreignKey == fk {
        assert Updates(c, ci, s, run, fk)[1..] == later;
      } else {
        assert Updates(c, ci, s, run, fk) == later;
      }
    }
  }

  /**
   The vault's promise: whatever happened since key generation, to this user or any other, the
   metadata handed out then retrieves the generated wallet merged with every addition committed since.
   */
  lemma VaultReturnsMergedWallet(c: Curve, ci: Cipher, start: State, a: Action, later: seq<Action>, s: State)
    requires c.Valid() && ci.Valid() && Reachable(c, ci, start) && a.Dkg? && Premise(c, start, a)
    requires Leads(c, ci, Step(c, ci, start, a), later, s)
    ensures var generated := Printed(c, DkgShare(c.order, a, a.xServer), a.peerId);
            var w := Retrieved(ci, s.db, a.foreignKey, Some(ci.encodeKey(a.key)));
            w.Ok? && MergeAll(generated, Updates(c, ci, Step(c, ci, start, a), later, a.foreignKey)) == Some(w.value)
  {
    ReachableInv(c, ci, start);
    DkgStartsLife(c, ci, start, a);
    StepKeepsInv(c, ci, start, a);
    hide Reachable, Leads, Step, DkgShare, Premise, Inv;
    RetrievedLater(c, ci, Step(c, ci, start, a), later, s, a.foreignKey);
  }

  /**
   One key for the whole life of a wallet: after key generation and any later run, additions by any
   device included, every device's share with the server's record recovers the generated key.
   */
  lemma OneKeyForLife(lib: Birkhoff, c: Curve, ci: Cipher, start: State, a: Action, later: seq<Action>, s: State,
      d: string)
    requires lib.Valid() && c.Valid() && ci.Valid() && Reachable(c, ci, start) && a.Dkg? && Premise(c, start, a)
    requires Leads(c, ci, Step(c, ci, start, a), later, s)
    requires a.foreignKey in s.lives && d in s.lives[a.foreignKey].locals
    ensures var w := Retrieved(ci, s.db, a.foreignKey, Some(ci.encodeKey(a.key)));
            && w.Ok? && NewPubkey(w.value.pubkey) == Ok(PubkeyOf(c, Mod(a.a0, c.order)))
            && RecoveredFromWallet(lib, c, d, w.value.pubkey, w.value.share, s.lives[a.foreignKey].locals[d].share,
                w.value.bks)
               == Ok(Mod(a.a0, c.order))
  {
    ReachableInv(c, ci, start);
    DkgStartsLife(c, ci, start, a);
    StepKeepsInv(c, ci, start, a);
    hide Reachable, Leads, Step, DkgShare, Premise, Inv, Curve.Valid, Cipher.Valid, Birkhoff.Valid;
    LaterDeviceRecovers(lib, c, ci, Step(c, ci, start, a), later, s, a.foreignKey, d);
  }

  lemma LaterDeviceRecovers(lib: Birkhoff, c: Curve, ci: Cipher, s: State, run: seq<Action>, end: State, fk: string,
      d: string)
    requires lib.Valid() && c.Valid() && ci.Valid() && Inv(c, ci, s) && Leads(c, ci, s, run, end)
    requires fk in s.lives && fk in end.lives && d in end.lives[fk].locals
    ensures var w := Retrieved(ci, end.db, fk, Some(s.lives[fk].metadata));
            && w.Ok? && NewPubkey(w.value.pubkey) == Ok(PubkeyOf(c, Mod(s.lives[fk].a0, c.order)))
            && RecoveredFromWallet(lib, c, d, w.value.pubkey, w.value.share, end.lives[fk].locals[d].share, w.value.bks)
               == Ok(Mod(s.lives[fk].a0, c.order))
  {
    RunKeepsInv(c, ci, s, run, end);
    RunKeeps(c, ci, s, run, end, fk);
    var l := end.lives[fk];
    hide Leads, Record, Retrieved, RecoveredFromWallet, NewPubkey, RowsInv, SessionInv, CoordsInv, LocalsInv;
    hide Curve.Valid, Cipher.Valid, Birkhoff.Valid;
    assert LifeInv(c, ci, end.db, fk, l);
    RecordIsRetrieved(c, ci, end.db, fk, l);
    DeviceRecovers(lib, c, l, d);
  }

  lemma DkgStartsLife(c: Curve, ci: Cipher, s: State, a: Action)
    requires c.Valid() && ci.Valid() && Inv(c, ci, s) && a.Dkg? && Premise(c, s, a)
    ensures var lives := Step(c, ci, s, a).lives;
            && a.foreignKey in lives && lives[a.foreignKey].metadata == ci.encodeKey(a.key)
                && lives[a.foreignKey].a0 == a.a0
            && (!a.delivered ==> Unclaimed(lives[a.foreignKey]))
            && Record(c, lives[a.foreignKey]) == Printed(c, DkgShare(c.order, a, a.xServer), a.peerId)
  {
    DkgEffect(c, ci, s, a);
    NewLifeMeetsInv(c, s.db, ci.encodeKey(a.key), a);
    hide Inv, InsertedDkg, DkgStep, Printed, DkgShare, Record, CoordsInv, LocalsInv, SessionInv;
  }

  lemma RetrievedLater(c: Curve, ci: Cipher, s: State, run: seq<Action>, end: State, fk: string)
    requires c.Valid() && ci.Valid() && Inv(c, ci, s) && Leads(c, ci, s, run, end) && fk in s.lives
    ensures var w := Retrieved(ci, end.db, fk, Some(s.lives[fk].metadata));
            w.Ok? && MergeAll(Record(c, s.lives[fk]), Updates(c, ci, s, run, fk)) == Some(w.value)
  {
    RecordIsMergeOfUpdates(c, ci, s, run, end, fk);
    RunKeeps(c, ci, s, run, end, fk);
    RunKeepsInv(c, ci, s, run, end);
    hide Leads, CoordsInv, LocalsInv, SessionInv, RowsInv, Record, Retrieved, Updates, MergeAll;
    assert LifeInv(c, ci, end.db, fk, end.lives[fk]);
    RecordIsRetrieved(c, ci, end.db, fk, end.lives[fk]);
  }
}
