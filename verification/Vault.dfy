/**
 The vault keeps each server-side wallet sealed under a key that only the devices hold; the key
 travels as the `metadata` text. JSON, AES-GCM and hex are one pair of functions that undo each other.
 */
module Vaults {
  import opened Bytes
  import opened Database
  import opened Wallets
  import opened Wrappers

  const NONCE_SIZE := 12

  /** A nonce as it is generated for one sealing. */
  type Nonce = n: seq<byte> | |n| == NONCE_SIZE witness seq(NONCE_SIZE, _ => 0)

  /** The key sizes of AES. */
  predicate AesKey(key: seq<byte>) {
    |key| in {16, 24, 32}
  }

  datatype Cipher = Cipher(encodeKey: seq<byte> -> string,
                           decodeKey: string -> Option<seq<byte>>,
                           seal: (seq<byte>, Nonce, DkgResult) -> Option<seq<byte>>,
                           open: (seq<byte>, Nonce, seq<byte>) -> Option<DkgResult>)
  {
    ghost predicate Valid() {
      && (forall key :: decodeKey(encodeKey(key)) == Some(key))
      && (forall key, nonce, w :: seal(key, nonce, w).Some? <==> AesKey(key))
      && (forall key, nonce, w :: AesKey(key) ==> open(key, nonce, seal(key, nonce, w).value) == Some(w))
      && (forall key, nonce, sealed :: open(key, nonce, sealed).Some? ==> AesKey(key))
    }
  }

  /** `Faulted` is the panic of AES-GCM on a nonce of another size. */
  datatype VaultError = NoRows | NotFound | NoMetadata | BadMetadata | SealFailed | OpenFailed | Faulted

  function DecodedKey(ci: Cipher, metadata: Option<string>): Result<seq<byte>, VaultError> {
    match metadata
    case None => Err(NoMetadata)
    case Some(m) =>
      match ci.decodeKey(m)
      case None => Err(BadMetadata)
      case Some(key) => Ok(key)
  }

  /** The tables after storing a new wallet, and the metadata handed to the client. */
  function Stored(ci: Cipher, t: Tables, foreignKey: string, peerId: string, userAgent: string, w: DkgResult,
                  clientKey: seq<byte>, nonce: Nonce): Result<(Tables, string), VaultError> {
    match ci.seal(clientKey, nonce, w)
    case None => Err(SealFailed)
    case Some(sealed) =>
      Ok((InsertedDkg(t, userAgent, peerId, foreignKey, w.address, sealed, nonce), ci.encodeKey(clientKey)))
  }

  function PeerAdded(ci: Cipher, t: Tables, foreignKey: string, peerId: string, userAgent: string, w: DkgResult,
                     metadata: Option<string>, nonce: Nonce): Result<Tables, VaultError> {
    match DecodedKey(ci, metadata)
    case Err(e) => Err(e)
    case Ok(key) =>
      match ci.seal(key, nonce, w)
      case None => Err(SealFailed)
      case Some(sealed) =>
        var after := WithPeer(t, userAgent, peerId, foreignKey, sealed, nonce);
        if after.devices == t.devices then Err(NoRows) else Ok(after)
  }

  function Retrieved(ci: Cipher, t: Tables, foreignKey: string, metadata: Option<string>):
    Result<DkgResult, VaultError>
  {
    match SigningParameters(t, foreignKey)
    case None => Err(NotFound)
    case Some(wallet) =>
      match DecodedKey(ci, metadata)
      case Err(e) => Err(e)
      case Ok(key) =>
        var row := wallet.GetOr(Wallet(0, 0, "", [], []));
        Opened(ci, key, row)
  }

  /** The key size is checked before the nonce is used; a user without a wallet row has an empty nonce. */
  function Opened(ci: Cipher, key: seq<byte>, row: Wallet): Result<DkgResult, VaultError> {
    if !AesKey(key) then Err(OpenFailed)
    else if |row.nonce| != NONCE_SIZE then Err(Faulted)
    else
      match ci.open(key, row.nonce, row.sealed)
      case None => Err(OpenFailed)
      case Some(w) => Ok(w)
  }

  class Vault {
    const queries: Queries
    const cipher: Cipher

    constructor (queries: Queries, cipher: Cipher)
      ensures this.queries == queries && this.cipher == cipher
    {
      this.queries, this.cipher := queries, cipher;
    }

    /** No error means the user already has a wallet. */
    method WalletExists(foreignKey: string) returns (err: Option<VaultError>)
      ensures err == if FirstUser(queries.users, foreignKey).Some? then None else Some(NoRows)
    {
      var row := queries.GetUserByForeignKey(foreignKey);
      return if row.None? then Some(NoRows) else None;
    }

    method StoreWallet(foreignKey: string, peerId: string, userAgent: string, w: DkgResult, clientKey: seq<byte>,
        nonce: Nonce)
      returns (metadata: Result<string, VaultError>)
      modifies queries
      ensures match Stored(cipher, old(queries.Contents()), foreignKey, peerId, userAgent, w, clientKey, nonce)
              case Ok((after, m)) => queries.Contents() == after && metadata == Ok(m)
              case Err(e) => queries.Contents() == old(queries.Contents()) && metadata == Err(e)
      ensures metadata == Err(SealFailed) <==> cipher.seal(clientKey, nonce, w).None?
      ensures metadata.Err? ==> metadata == Err(SealFailed)
      ensures metadata.Ok? ==>
                && metadata.value == cipher.encodeKey(clientKey)
                && InsertedFor(old(queries.Contents()), queries.Contents(), foreignKey, peerId, userAgent, w.address,
                               cipher.seal(clientKey, nonce, w).value, nonce)
    {
      var sealed := cipher.seal(clientKey, nonce, w);
      if sealed.None? {
        return Err(SealFailed);
      }
      var _ := queries.Dkg(userAgent, peerId, foreignKey, w.address, sealed.value, nonce);
      return Ok(cipher.encodeKey(clientKey));
    }

    /** An error leaves the tables as they were. */
    method AddPeer(foreignKey: string, peerId: string, userAgent: string, w: DkgResult, metadata: Option<string>,
        nonce: Nonce)
      returns (err: Option<VaultError>)
      modifies queries
      ensures match PeerAdded(cipher, old(queries.Contents()), foreignKey, peerId, userAgent, w, metadata, nonce)
              case Ok(after) => queries.Contents() == after && err == None
              case Err(e) => queries.Contents() == old(queries.Contents()) && err == Some(e)
      ensures err == Some(NoMetadata) <==> metadata.None?
      ensures err == Some(BadMetadata) <==> metadata.Some? && cipher.decodeKey(metadata.value).None?
      ensures metadata.Some? && cipher.decodeKey(metadata.value).Some? ==>
                var sealed := cipher.seal(cipher.decodeKey(metadata.value).value, nonce, w);
                && (err == Some(SealFailed) <==> sealed.None?)
                && (err == Some(NoRows) <==> sealed.Some? && NoWallet(old(queries.Contents()), foreignKey))
                && (err == None ==>
                      ExtendedFor(old(queries.Contents()), queries.Contents(), foreignKey, peerId, userAgent,
                                  sealed.value, nonce))
      ensures err == None || err.value in {NoMetadata, BadMetadata, SealFailed, NoRows}
    {
      if metadata.None? {
        return Some(NoMetadata);
      }
      var key := cipher.decodeKey(metadata.value);
      if key.None? {
        return Some(BadMetadata);
      }
      var sealed := cipher.seal(key.value, nonce, w);
      if sealed.None? {
        return Some(SealFailed);
      }
      UpdateExtends(queries.Contents(), userAgent, peerId, foreignKey, sealed.value, nonce);
      hide WithPeer, NoWallet, ExtendedFor, OwnedBy, UsersWith;
      var row := queries.AddPeer(userAgent, peerId, foreignKey, sealed.value, nonce);
      return if row.None? then Some(NoRows) else None;
    }

    method RetrieveWallet(foreignKey: string, metadata: Option<string>) returns (res: Result<DkgResult, VaultError>)
      ensures res == Retrieved(cipher, queries.Contents(), foreignKey, metadata)
      ensures res == Err(NotFound) <==> forall u :: u in queries.users ==> u.foreignKey != foreignKey
      ensures res == Err(NoMetadata) ==> metadata.None?
      ensures res == Err(BadMetadata) ==> metadata.Some? && cipher.decodeKey(metadata.value).None?
      ensures res.Ok? ==>
                && metadata.Some? && cipher.decodeKey(metadata.value).Some?
                && exists u, row :: u in queries.users && u.foreignKey == foreignKey && row in queries.wallets
                     && row.userId == u.id && |row.nonce| == NONCE_SIZE
                     && cipher.open(cipher.decodeKey(metadata.value).value, row.nonce, row.sealed) == Some(res.value)
    {
      var row := queries.GetUserSigningParameters(foreignKey);
      if row.None? {
        return Err(NotFound);
      }
      if metadata.None? {
        return Err(NoMetadata);
      }
      var key := cipher.decodeKey(metadata.value);
      if key.None? {
        return Err(BadMetadata);
      }
      var wallet := row.value.GetOr(Wallet(0, 0, "", [], []));
      if !AesKey(key.value) {
        return Err(OpenFailed);
      }
      if |wallet.nonce| != NONCE_SIZE {
        return Err(Faulted);
      }
      var w := cipher.open(key.value, wallet.nonce, wallet.sealed);
      if w.None? {
        return Err(OpenFailed);
      }
      return Ok(w.value);
    }
  }

  // ---- What a write leaves in the tables ----

  /** One user, one wallet and one device have been added, with these columns. */
  ghost predicate InsertedFor(before: Tables, after: Tables, foreignKey: string, peerId: string, userAgent: string,
                              address: string, sealed: seq<byte>, nonce: seq<byte>)
  {
    exists u, w, d ::
      && after.users == before.users + [User(u, foreignKey)]
      && after.wallets == before.wallets + [Wallet(w, u, address, sealed, nonce)]
      && after.devices == before.devices + [Device(d, u, w, peerId, userAgent)]
  }

  /** No user with this key owns a wallet row. */
  ghost predicate NoWallet(t: Tables, foreignKey: string) {
    forall u, w :: u in t.users && u.foreignKey == foreignKey && w in t.wallets ==> w.userId != u.id
  }

  /** The wallets of the user hold the new seal, and at least one device has been added, all with these columns. */
  ghost predicate ExtendedFor(before: Tables, after: Tables, foreignKey: string, peerId: string, userAgent: string,
                              sealed: seq<byte>, nonce: seq<byte>)
  {
    && after.users == before.users && |after.wallets| == |before.wallets|
    && (forall w, u :: w in after.wallets && u in after.users && u.foreignKey == foreignKey && w.userId == u.id ==>
          w.sealed == sealed && w.nonce == nonce)
    && (forall i :: 0 <= i < |after.wallets| ==>
          after.wallets[i]
          == before.wallets[i].(sealed := after.wallets[i].sealed, nonce := after.wallets[i].nonce))
    && |before.devices| < |after.devices| && before.devices == after.devices[..|before.devices|]
    && (forall i :: |before.devices| <= i < |after.devices| ==>
          after.devices[i].peerId == peerId && after.devices[i].userAgent == userAgent)
  }

  /** An update without a wallet changes nothing; any other extends the user's rows. */
  lemma UpdateExtends(t: Tables, ua: string, peerId: string, foreignKey: string, sealed: seq<byte>, nonce: seq<byte>)
    ensures var after := WithPeer(t, ua, peerId, foreignKey, sealed, nonce);
            && (after.devices == t.devices <==> NoWallet(t, foreignKey))
            && (!NoWallet(t, foreignKey) ==> ExtendedFor(t, after, foreignKey, peerId, ua, sealed, nonce))
  {
    var owners := UsersWith(t.users, foreignKey);
    OneDeviceEach(t.wallets, owners, peerId, ua, t.serial);
    OwnedByIsFilter(t.wallets, owners);
    hide OwnedBy, NewDevices;
    if !NoWallet(t, foreignKey) {
      var u, w :| u in t.users && u.foreignKey == foreignKey && w in t.wallets && w.userId == u.id;
      assert u.id in owners && w in OwnedBy(t.wallets, owners);
    }
  }

  // ---- One user's rows ----

  /** Serial numbers are never reused. */
  predicate Fresh(t: Tables) {
    && (forall u :: u in t.users ==> u.id <= t.serial)
    && (forall w :: w in t.wallets ==> w.userId <= t.serial)
    && (forall d :: d in t.devices ==> d.userId <= t.serial)
  }

  function PeersOf(t: Tables, userId: nat): set<string> {
    set d | d in t.devices && d.userId == userId :: d.peerId
  }

  /** The user is the only one with this foreign key, owns row `i` of the wallets and no other. */
  predicate OneWallet(t: Tables, foreignKey: string, userId: nat, i: nat) {
    && FirstUser(t.users, foreignKey) == Some(User(userId, foreignKey))
    && (forall u :: u in t.users ==> (u.foreignKey == foreignKey <==> u.id == userId))
    && i < |t.wallets| && t.wallets[i].userId == userId
    && (forall j :: 0 <= j < |t.wallets| && t.wallets[j].userId == userId ==> j == i)
    && (forall d :: d in t.devices && d.userId == userId ==> d.walletId == t.wallets[i].id)
  }

  lemma {:induction false} FirstUserSpec(users: seq<User>, foreignKey: string)
    ensures var r := FirstUser(users, foreignKey);
            && (r.None? <==> forall u :: u in users ==> u.foreignKey != foreignKey)
            && (r.Some? ==> r.value in users && r.value.foreignKey == foreignKey)
  {
    if users != [] {
      FirstUserSpec(users[1..], foreignKey);
      assert users == [users[0]] + users[1..];
    }
  }

  lemma {:induction false} FirstUserAppend(users: seq<User>, more: seq<User>, foreignKey: string)
    ensures FirstUser(users + more, foreignKey)
            == if FirstUser(users, foreignKey).Some? then FirstUser(users, foreignKey) else FirstUser(more, foreignKey)
  {
    if users == [] {
      assert users + more == more;
    } else {
      FirstUserAppend(users[1..], more, foreignKey);
      assert (users + more)[1..] == users[1..] + more;
    }
  }

  lemma {:induction false} FirstWalletAt(wallets: seq<Wallet>, userId: nat, i: nat)
    requires i < |wallets| && wallets[i].userId == userId
    requires forall j :: 0 <= j < |wallets| && wallets[j].userId == userId ==> j == i
    ensures FirstWallet(wallets, userId) == Some(wallets[i])
  {
    if wallets[0].userId != userId {
      FirstWalletAt(wallets[1..], userId, i - 1);
    }
  }

  /** The wallet read back is what the row holds. */
  lemma RetrievedRow(ci: Cipher, t: Tables, foreignKey: string, userId: nat, i: nat, metadata: string)
    requires OneWallet(t, foreignKey, userId, i) && ci.decodeKey(metadata).Some?
    ensures var w := t.wallets[i];
            Retrieved(ci, t, foreignKey, Some(metadata)) == Opened(ci, ci.decodeKey(metadata).value, w)
  {
    FirstWalletAt(t.wallets, userId, i);
  }

  /** Storing a wallet for a user without one gives that user one wallet and one device. */
  lemma DkgGivesOneWallet(t: Tables, ua: string, peerId: string, foreignKey: string, address: string,
      sealed: seq<byte>, nonce: seq<byte>)
    requires Fresh(t) && FirstUser(t.users, foreignKey).None?
    ensures var after, u := InsertedDkg(t, ua, peerId, foreignKey, address, sealed, nonce), t.serial + 1;
            && Fresh(after) && OneWallet(after, foreignKey, u, |t.wallets|)
            && after.wallets[|t.wallets|] == Wallet(t.serial + 2, u, address, sealed, nonce)
            && PeersOf(after, u) == {peerId}
  {
    var after, u := InsertedDkg(t, ua, peerId, foreignKey, address, sealed, nonce), t.serial + 1;
    FirstUserSpec(t.users, foreignKey);
    FirstUserAppend(t.users, [User(u, foreignKey)], foreignKey);
    assert forall d :: d in after.devices && d.userId == u ==> d == after.devices[|t.devices|];
    assert after.devices[|t.devices|] in after.devices;
  }

  /** The device list of a new user is the one row with the given peer id and agent. */
  lemma NewUserHasOneDevice(t: Tables, ua: string, peerId: string, foreignKey: string, address: string,
      sealed: seq<byte>, nonce: seq<byte>)
    requires Fresh(t)
    ensures var after, u := InsertedDkg(t, ua, peerId, foreignKey, address, sealed, nonce), t.serial + 1;
            && after.users == t.users + [User(u, foreignKey)]
            && DevicesOf(after.devices, u) == [Device(t.serial + 3, u, t.serial + 2, peerId, ua)]
  {
    var after := InsertedDkg(t, ua, peerId, foreignKey, address, sealed, nonce);
    NoDevices(t.devices, t.serial + 1);
    assert after.devices[..|t.devices|] == t.devices;
  }

  lemma {:induction false} NoDevices(devices: seq<Device>, userId: nat)
    requires forall d :: d in devices ==> d.userId != userId
    ensures DevicesOf(devices, userId) == []
  {
    if devices != [] {
      NoDevices(devices[..|devices| - 1], userId);
    }
  }

  /** The insert checks nothing itself: the user has one wallet afterwards exactly when none existed before. */
  lemma OneWalletAfterDkgIff(t: Tables, ua: string, peerId: string, foreignKey: string, address: string,
      sealed: seq<byte>, nonce: seq<byte>)
    requires Fresh(t)
    ensures (exists u, i :: OneWallet(InsertedDkg(t, ua, peerId, foreignKey, address, sealed, nonce), foreignKey, u, i))
            <==> FirstUser(t.users, foreignKey).None?
  {
    var after := InsertedDkg(t, ua, peerId, foreignKey, address, sealed, nonce);
    if FirstUser(t.users, foreignKey).None? {
      DkgGivesOneWallet(t, ua, peerId, foreignKey, address, sealed, nonce);
      assert OneWallet(after, foreignKey, t.serial + 1, |t.wallets|);
    } else {
      FirstUserSpec(t.users, foreignKey);
      assert FirstUser(t.users, foreignKey).value in after.users;
      assert after.users[|t.users|] in after.users;
    }
  }

  /** Storing a wallet for one user leaves every other user's rows alone. */
  lemma DkgKeepsOthers(t: Tables, ua: string, peerId: string, foreignKey: string, address: string, sealed: seq<byte>,
      nonce: seq<byte>,
                       other: string, userId: nat, i: nat)
    requires Fresh(t) && other != foreignKey && OneWallet(t, other, userId, i)
    ensures var after := InsertedDkg(t, ua, peerId, foreignKey, address, sealed, nonce);
            && OneWallet(after, other, userId, i) && after.wallets[i] == t.wallets[i]
            && PeersOf(after, userId) == PeersOf(t, userId)
  {
    var after := InsertedDkg(t, ua, peerId, foreignKey, address, sealed, nonce);
    FirstUserSpec(t.users, other);
    FirstUserAppend(t.users, [User(t.serial + 1, foreignKey)], other);
    assert userId <= t.serial;
    assert forall d :: d in after.devices && d.userId == userId <==> d in t.devices && d.userId == userId;
  }

  // ---- AddPeer on one user's rows ----

  lemma {:induction false} NewDevicesNone(wallets: seq<Wallet>, owners: set<nat>, peerId: string, ua: string,
      serial: nat)
    requires forall j :: 0 <= j < |wallets| ==> wallets[j].userId !in owners
    ensures NewDevices(wallets, owners, peerId, ua, serial) == []
  {
    if wallets != [] {
      NewDevicesNone(wallets[..|wallets| - 1], owners, peerId, ua, serial);
    }
  }

  lemma {:induction false} NewDevicesOne(wallets: seq<Wallet>, owners: set<nat>, i: nat, peerId: string, ua: string,
      serial: nat)
    requires i < |wallets|
    requires forall j :: 0 <= j < |wallets| ==> (wallets[j].userId in owners <==> j == i)
    ensures NewDevices(wallets, owners, peerId, ua, serial)
            == [Device(serial + 1, wallets[i].userId, wallets[i].id, peerId, ua)]
  {
    var init := wallets[..|wallets| - 1];
    if i == |wallets| - 1 {
      NewDevicesNone(init, owners, peerId, ua, serial);
    } else {
      NewDevicesOne(init, owners, i, peerId, ua, serial);
    }
  }

  lemma OwnersAreOne(t: Tables, foreignKey: string, userId: nat, i: nat)
    requires OneWallet(t, foreignKey, userId, i)
    ensures UsersWith(t.users, foreignKey) == {userId}
  {
    FirstUserSpec(t.users, foreignKey);
    assert User(userId, foreignKey) in t.users;
  }

  /** Adding a peer rewrites the user's one wallet and inserts exactly one device of it. */
  lemma AddPeerOnOneWallet(t: Tables, ua: string, peerId: string, foreignKey: string, sealed: seq<byte>,
      nonce: seq<byte>, userId: nat, i: nat)
    requires OneWallet(t, foreignKey, userId, i)
    ensures var after := WithPeer(t, ua, peerId, foreignKey, sealed, nonce);
            && after == Tables(t.users, t.wallets[i := t.wallets[i].(sealed := sealed, nonce := nonce)],
                               t.devices + [Device(t.serial + 1, userId, t.wallets[i].id, peerId, ua)], t.serial + 1)
            && OneWallet(after, foreignKey, userId, i)
            && PeersOf(after, userId) == PeersOf(t, userId) + {peerId}
            && DevicesOf(after.devices, userId)
               == DevicesOf(t.devices, userId) + [Device(t.serial + 1, userId, t.wallets[i].id, peerId, ua)]
  {
    var after := WithPeer(t, ua, peerId, foreignKey, sealed, nonce);
    OwnersAreOne(t, foreignKey, userId, i);
    NewDevicesOne(t.wallets, {userId}, i, peerId, ua, t.serial);
    var d := Device(t.serial + 1, userId, t.wallets[i].id, peerId, ua);
    assert UpdatedWallets(t.wallets, {userId}, sealed, nonce)
        == t.wallets[i := t.wallets[i].(sealed := sealed, nonce := nonce)];
    assert after.devices == t.devices + [d];
    assert after.devices[..|t.devices|] == t.devices;
    assert d in after.devices;
    assert forall e :: e in after.devices <==> e in t.devices || e == d;
  }

  lemma AddPeerKeepsOthers(t: Tables, ua: string, peerId: string, foreignKey: string, sealed: seq<byte>,
      nonce: seq<byte>,
                           userId: nat, i: nat, other: string, otherId: nat, j: nat)
    requires OneWallet(t, foreignKey, userId, i) && other != foreignKey && OneWallet(t, other, otherId, j)
    ensures var after := WithPeer(t, ua, peerId, foreignKey, sealed, nonce);
            && OneWallet(after, other, otherId, j) && after.wallets[j] == t.wallets[j]
            && PeersOf(after, otherId) == PeersOf(t, otherId)
  {
    AddPeerOnOneWallet(t, ua, peerId, foreignKey, sealed, nonce, userId, i);
    FirstUserSpec(t.users, other);
    assert otherId != userId;
    var after := WithPeer(t, ua, peerId, foreignKey, sealed, nonce);
    assert forall d :: d in after.devices && d.userId == otherId <==> d in t.devices && d.userId == otherId;
  }

  lemma AddPeerKeepsFresh(t: Tables, ua: string, peerId: string, foreignKey: string, sealed: seq<byte>,
      nonce: seq<byte>, userId: nat, i: nat)
    requires OneWallet(t, foreignKey, userId, i) && Fresh(t)
    ensures Fresh(WithPeer(t, ua, peerId, foreignKey, sealed, nonce))
  {
    AddPeerOnOneWallet(t, ua, peerId, foreignKey, sealed, nonce, userId, i);
    FirstUserSpec(t.users, foreignKey);
    assert t.wallets[i] in t.wallets;
  }
}
