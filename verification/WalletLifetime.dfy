/**
 The wallet system over its lifetime: many users share the tables; each user runs one key
 generation and then any number of device additions, accepted by any device that holds a wallet.
 Every step goes through the vault, the filters, the conversions and the merge of the program.

 What the library chooses is given by the actions; `Premise` states what is assumed about it.
 */
module WalletLifetime {
  import opened AddServices
  import opened Bytes
  import opened Curves
  import opened Database
  import opened Identities
  import opened Interpolation
  import opened KeyRecovery
  import opened ModularArithmetic
  import opened Vaults
  import opened Wallets
  import opened Wrappers

  /** One addition in progress: what both handlers read and started from. */
  datatype Session = Session(newId: string, existing: string, xNew: int, retrieved: DkgResult,
                             server: KeyShare, device: KeyShare, committed: bool)

  /**
   One user's wallet. `locals` is what each device keeps and `metadata` the key text they share;
   the remaining fields are history: the polynomial, the coordinates handed out, which parties
   each device was told about, where the rows are, and whether an addition was committed.
   */
  datatype Life = Life(locals: map<string, DkgResult>, metadata: string, session: Option<Session>,
                       a0: int, a1: int, xServer: int, coords: map<string, int>, views: map<string, set<string>>,
                       userId: nat, row: nat, firstId: string, extended: bool)

  datatype State = State(db: Tables, lives: map<string, Life>)

  datatype Action =
    | Dkg(foreignKey: string, peerId: string, a0: int, a1: int, xServer: int, xClient: int,
          key: seq<byte>, nonce: Nonce, userAgent: string, delivered: bool)
    | Open(foreignKey: string, newId: string, device: string, xNew: int)
    | Commit(foreignKey: string, nonce: Nonce, userAgent: string)
    | Deliver(foreignKey: string)
    | Abort(foreignKey: string)

  // ---- Steps ----

  /** The two results of key generation, for the server and for the client. */
  function DkgShare(n: int, a: Action, x: int): KeyShare
    requires n > 0 && a.Dkg?
  {
    KeyShare(Mod(a.a0, n), Share(n, a.a0, a.a1, x),
             map[a.peerId := BkParameter(a.xClient, 0)][SERVER_ID := BkParameter(a.xServer, 0)])
  }

  /** A user's wallet right after key generation; the device may or may not have received its part. */
  function NewLife(c: Curve, db: Tables, metadata: string, a: Action): Life
    requires c.order > 1 && a.Dkg?
  {
    var local := Printed(c, DkgShare(c.order, a, a.xClient), a.peerId);
    Life(if a.delivered then map[a.peerId := local] else map[], metadata, None,
         a.a0, a.a1, a.xServer, map[a.peerId := a.xClient],
         if a.delivered then map[a.peerId := {SERVER_ID, a.peerId}] else map[],
         db.serial + 1, |db.wallets|, a.peerId, false)
  }

  function DkgStep(c: Curve, ci: Cipher, s: State, a: Action): State
    requires c.order > 1 && a.Dkg?
  {
    var record := Printed(c, DkgShare(c.order, a, a.xServer), a.peerId);
    match Stored(ci, s.db, a.foreignKey, a.peerId, a.userAgent, record, a.key, a.nonce)
    case Err(_) => s
    case Ok((db, metadata)) => State(db, s.lives[a.foreignKey := NewLife(c, s.db, metadata, a)])
  }

  /** The server retrieves the wallet with the device's metadata and both sides start their service. */
  function Started(c: Curve, ci: Cipher, db: Tables, l: Life, a: Action): Option<Session>
    requires a.Open? && a.device in l.locals
  {
    var local := l.locals[a.device];
    match Retrieved(ci, db, a.foreignKey, Some(l.metadata))
    case Err(_) => None
    case Ok(w) =>
      var server := SessionShare(c, w.pubkey, w.share, w.bks, local.peerId);
      var device := SessionShare(c, local.pubkey, local.share, local.bks, local.peerId);
      if server.Err? || device.Err? then None
      else Some(Session(a.newId, local.peerId, a.xNew, w, server.value, device.value, false))
  }

  /** The merged record the accepting handler stores, if the merge does not reject. */
  function MergedRecord(c: Curve, x: Session): Option<DkgResult> {
    if NewPubkey(x.retrieved.pubkey).Err? then None
    else Merged(OriginalWallet(c, x.retrieved, x.server.publicKey),
                Printed(c, OldPeerResult(x.server, x.newId, x.xNew), SERVER_ID))
  }

  function CommitStep(c: Curve, ci: Cipher, s: State, a: Action): State
    requires a.Commit? && a.foreignKey in s.lives && s.lives[a.foreignKey].session.Some?
  {
    var l := s.lives[a.foreignKey];
    var x := l.session.value;
    match MergedRecord(c, x)
    case None => s.(lives := s.lives[a.foreignKey := l.(session := None)])
    case Some(record) =>
      match PeerAdded(ci, s.db, a.foreignKey, x.newId, a.userAgent, record, Some(l.metadata), a.nonce)
      case Err(_) => s.(lives := s.lives[a.foreignKey := l.(session := None)])
      case Ok(db) =>
        State(db, s.lives[a.foreignKey :=
          l.(session := Some(x.(committed := true)), coords := l.coords[x.newId := x.xNew], extended := true)])
  }

  /** The new device returns with its wallet. */
  function DeliverStep(c: Curve, l: Life): Life
    requires c.order > 1 && l.session.Some?
  {
    var x := l.session.value;
    if SERVER_ID in x.server.bks && x.existing in x.server.bks then
      var k := NewPeerResult(c.order, x.server, x.device, x.existing, x.newId, x.xNew);
      l.(locals := l.locals[x.newId := Printed(c, k, x.newId)], views := l.views[x.newId := k.bks.Keys],
         session := None)
    else
      l.(session := None)
  }

  /**
   When an action may happen, and what is assumed of the library: the coordinates of the parties of
   one run are distinct and not zero and the key is not zero. Key generations of one user do not
   overlap (the wallet check and the insert are one step) and a user runs one addition at a time.
   */
  predicate Premise(c: Curve, s: State, a: Action)
    requires c.order > 1
  {
    match a
    case Dkg(fk, peerId, a0, a1, xServer, xClient, key, _, _, _) =>
      && FirstUser(s.db.users, fk).None?
      && peerId != SERVER_ID && |key| == 32
      && c.Scalar(Mod(a0, c.order)) && DistinctNonZero(c.order, xServer, xClient)
    case Open(fk, newId, device, xNew) =>
      && fk in s.lives && s.lives[fk].session.None?
      && device in s.lives[fk].locals
      && newId != SERVER_ID && newId !in PeersOf(s.db, s.lives[fk].userId)
      && DistinctNonZero(c.order, s.lives[fk].xServer, xNew)
    case Commit(fk, _, _) =>
      fk in s.lives && s.lives[fk].session.Some? && !s.lives[fk].session.value.committed
    case Deliver(fk) =>
      fk in s.lives && s.lives[fk].session.Some? && s.lives[fk].session.value.committed
    case Abort(fk) => fk in s.lives
  }

  function Step(c: Curve, ci: Cipher, s: State, a: Action): State
    requires c.order > 1 && Premise(c, s, a)
  {
    match a
    case Dkg(_, _, _, _, _, _, _, _, _, _) => DkgStep(c, ci, s, a)
    case Open(fk, _, _, _) => s.(lives := s.lives[fk := s.lives[fk].(session := Started(c, ci, s.db, s.lives[fk], a))])
    case Commit(_, _, _) => CommitStep(c, ci, s, a)
    case Deliver(fk) => s.(lives := s.lives[fk := DeliverStep(c, s.lives[fk])])
    case Abort(fk) => s.(lives := s.lives[fk := s.lives[fk].(session := None)])
  }

  const INIT: State := State(Tables([], [], [], 0), map[])

  /** The actions of `run`, each possible where it happens, lead from `s` to `end`. */
  ghost predicate Leads(c: Curve, ci: Cipher, s: State, run: seq<Action>, end: State)
    requires c.order > 1
    decreases |run|
  {
    if run == [] then end == s
    else Premise(c, s, run[0]) && Leads(c, ci, Step(c, ci, s, run[0]), run[1..], end)
  }

  // ---- Invariant ----

  function Parties(l: Life): map<string, BkParameter> {
    (map d | d in l.coords :: BkParameter(l.coords[d], 0))[SERVER_ID := BkParameter(l.xServer, 0)]
  }

  /** The server's key share: one polynomial, one coordinate for each party. */
  function ServerShare(c: Curve, l: Life): KeyShare
    requires c.order > 1
  {
    KeyShare(Mod(l.a0, c.order), Share(c.order, l.a0, l.a1, l.xServer), Parties(l))
  }

  function Known(bks: map<string, BkParameter>, ids: set<string>): map<string, BkParameter> {
    map id | id in bks && id in ids :: bks[id]
  }

  function DeviceShare(c: Curve, l: Life, d: string): KeyShare
    requires c.order > 1 && d in l.coords && d in l.views
  {
    KeyShare(Mod(l.a0, c.order), Share(c.order, l.a0, l.a1, l.coords[d]), Known(Parties(l), l.views[d]))
  }

  /** The peer id in the record: the first client until an addition is committed, then the server. */
  function RecordPeer(l: Life): string {
    if l.extended then SERVER_ID else l.firstId
  }

  function Record(c: Curve, l: Life): DkgResult
    requires c.order > 1
  {
    Printed(c, ServerShare(c, l), RecordPeer(l))
  }

  /**
   The rows: one wallet under the key's address, one device row for each party but the server, and the
   record sealed in it.
   */
  predicate RowsInv(c: Curve, ci: Cipher, db: Tables, fk: string, l: Life)
    requires c.order > 1
  {
    && OneWallet(db, fk, l.userId, l.row)
    && PeersOf(db, l.userId) == l.coords.Keys
    && db.wallets[l.row].address == c.address(Mod(l.a0, c.order))
    && ci.decodeKey(l.metadata).Some? && |ci.decodeKey(l.metadata).value| == 32
    && Opened(ci, ci.decodeKey(l.metadata).value, db.wallets[l.row]) == Ok(Record(c, l))
  }

  /** The key is not zero and every device's coordinate is usable together with the server's. */
  predicate CoordsInv(c: Curve, l: Life)
    requires c.order > 1
  {
    && c.Scalar(Mod(l.a0, c.order))
    && SERVER_ID !in l.coords
    && (forall d :: d in l.coords ==> DistinctNonZero(c.order, l.xServer, l.coords[d]))
  }

  /** The device was told about the server, itself, and nobody unknown; its wallet is its key share printed. */
  predicate LocalInv(c: Curve, l: Life, d: string)
    requires c.order > 1 && d in l.locals && d in l.views
  {
    && d in l.coords && {SERVER_ID, d} <= l.views[d] <= Parties(l).Keys
    && l.locals[d] == Printed(c, DeviceShare(c, l, d), d)
  }

  predicate LocalsInv(c: Curve, l: Life)
    requires c.order > 1
  {
    && l.views.Keys == l.locals.Keys
    && (forall d :: d in l.locals ==> LocalInv(c, l, d))
  }

  predicate SessionInv(c: Curve, l: Life)
    requires c.order > 1
  {
    l.session.Some? ==>
      var x := l.session.value;
      && x.existing in l.coords && x.existing != x.newId && x.newId != SERVER_ID && x.newId !in l.locals
      && DistinctNonZero(c.order, l.xServer, x.xNew)
      && x.server == KeyShare(Mod(l.a0, c.order), Share(c.order, l.a0, l.a1, l.xServer),
          TwoParameters(Parties(l), x.existing))
      && x.device == x.server.(share := Share(c.order, l.a0, l.a1, l.coords[x.existing]))
      && (if x.committed then x.newId in l.coords && l.coords[x.newId] == x.xNew
          else x.newId !in l.coords && x.retrieved == Record(c, l))
  }

  predicate LifeInv(c: Curve, ci: Cipher, db: Tables, fk: string, l: Life)
    requires c.order > 1
  {
    RowsInv(c, ci, db, fk, l) && CoordsInv(c, l) && LocalsInv(c, l) && SessionInv(c, l)
  }

  ghost predicate Inv(c: Curve, ci: Cipher, s: State)
    requires c.order > 1
  {
    && Fresh(s.db)
    && (forall fk :: fk in s.lives ==> LifeInv(c, ci, s.db, fk, s.lives[fk]))
    && (forall u :: u in s.db.users ==> u.foreignKey in s.lives)
  }
}
