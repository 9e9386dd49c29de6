/**
 What AcceptDeviceHandler does with the library's result: take the wallet as it was, merge the updated
 one into it, and store the merged wallet under the key in the metadata.
 */
module AcceptHandlers {
  import opened AddServices
  import opened Curves
  import opened Database
  import opened Decimal
  import opened Identities
  import opened Vaults
  import opened WalletLifetime
  import opened Wallets
  import opened Wrappers

  datatype AdditionError = NoUpdate(error: WalletError) | MergeRejected | NotStored(vaultError: VaultError)

  /** The tables after an addition: original and printed result merge, and the vault accepts. */
  function Added(c: Curve, ci: Cipher, t: Tables, original: DkgResult, result: Option<KeyShare>, foreignKey: string,
                 newId: string, userAgent: string, metadata: Option<string>, nonce: Nonce):
    Result<Tables, AdditionError>
  {
    match result
    case None => Err(NoUpdate(NoResult))
    case Some(k) =>
      match Merged(original, Printed(c, k, SERVER_ID))
      case None => Err(MergeRejected)
      case Some(record) =>
        match PeerAdded(ci, t, foreignKey, newId, userAgent, record, metadata, nonce)
        case Err(e) => Err(NotStored(e))
        case Ok(after) => Ok(after)
  }

  /** Every wallet row of the users with this key holds `record`, sealed under the key in the metadata; there is one. */
  ghost predicate Holds(ci: Cipher, t: Tables, foreignKey: string, metadata: Option<string>, record: DkgResult) {
    && metadata.Some? && ci.decodeKey(metadata.value).Some?
    && !NoWallet(t, foreignKey)
    && (forall u, row :: u in t.users && u.foreignKey == foreignKey && row in t.wallets && row.userId == u.id ==>
          && |row.nonce| == NONCE_SIZE
          && ci.open(ci.decodeKey(metadata.value).value, row.nonce, row.sealed) == Some(record))
  }

  /** `record` is the wallet the adder was started from with the parties of the library's result added. */
  ghost predicate Updates(adder: ServerAdd, k: KeyShare, record: DkgResult) {
    && record.pubkey == PubkeyStr(Print(adder.pubkey.x), Print(adder.pubkey.y)) && record.share == adder.share
    && record.peerId == SERVER_ID && record.address == adder.curve.address(adder.input.publicKey)
    && record.bks.Keys == adder.originalBKs.Keys + k.bks.Keys
    && (forall id :: id in adder.originalBKs && id !in k.bks ==> record.bks[id] == adder.originalBKs[id])
    && (forall id :: id in k.bks ==> record.bks[id] == BK(Print(k.bks[id].x), k.bks[id].rank))
  }

  /** The library's result is about another key, address or share than the wallet it was started from. */
  predicate Differs(adder: ServerAdd, k: KeyShare) {
    || Print(adder.curve.x(k.publicKey)) != Print(adder.pubkey.x)
    || Print(adder.curve.y(k.publicKey)) != Print(adder.pubkey.y)
    || adder.curve.address(k.publicKey) != adder.curve.address(adder.input.publicKey)
    || Print(k.share) != adder.share
  }

  /**
   Every error leaves the tables as they were. Success means that the user's rows hold the wallet the
   adder was started from, every party of it kept, with the parties of the library's result added.
   */
  method StoreAddition(adder: ServerAdd, vault: Vault, foreignKey: string, newId: string, userAgent: string,
                       metadata: Option<string>, nonce: Nonce) returns (err: Option<AdditionError>)
    requires adder.Valid() && adder.done && vault.cipher.Valid()
    modifies vault.queries
    ensures match Added(adder.curve, vault.cipher, old(vault.queries.Contents()), adder.Original(), adder.result,
                        foreignKey, newId, userAgent, metadata, nonce)
            case Ok(after) => vault.queries.Contents() == after && err == None
            case Err(e) => vault.queries.Contents() == old(vault.queries.Contents()) && err == Some(e)
    ensures err.Some? ==> vault.queries.Contents() == old(vault.queries.Contents())
    ensures err == Some(NoUpdate(NoResult)) <==> adder.result.None?
    ensures err == Some(MergeRejected) <==> adder.result.Some? && Differs(adder, adder.result.value)
    ensures err.None? ==>
              && (exists record :: Updates(adder, adder.result.value, record)
                   && Holds(vault.cipher, vault.queries.Contents(), foreignKey, metadata, record))
              && |vault.queries.devices| > |old(vault.queries.devices)|
              && (forall i :: |old(vault.queries.devices)| <= i < |vault.queries.devices| ==>
                    vault.queries.devices[i].peerId == newId && vault.queries.devices[i].userAgent == userAgent)
  {
    hide PeerAdded, Printed, Print, ServerAdd.Original;
    var original := adder.GetOriginalWallet();
    if adder.result.Some? {
      ResultIsPrinted(adder);
    }
    var updated := adder.Process();
    if updated.Err? {
      return Some(NoUpdate(updated.error));
    }
    var merged := MergeDkgResults(original, updated.value);
    if merged.None? {
      return Some(MergeRejected);
    }
    assert Updates(adder, adder.result.value, merged.value);
    ghost var before := vault.queries.Contents();
    var stored := vault.AddPeer(foreignKey, newId, userAgent, merged.value, metadata, nonce);
    if stored.Some? {
      return Some(NotStored(stored.value));
    }
    ExtendedHolds(vault.cipher, before, vault.queries.Contents(), foreignKey, newId, userAgent, merged.value, metadata,
                  nonce);
    return None;
  }

  lemma ResultIsPrinted(adder: ServerAdd)
    requires adder.result.Some?
    ensures var k, w := adder.result.value, Printed(adder.curve, adder.result.value, SERVER_ID);
            && w.pubkey == PubkeyStr(Print(adder.curve.x(k.publicKey)), Print(adder.curve.y(k.publicKey)))
            && w.share == Print(k.share) && w.address == adder.curve.address(k.publicKey) && w.peerId == SERVER_ID
            && w.bks.Keys == k.bks.Keys
            && (forall id :: id in k.bks ==> w.bks[id] == BK(Print(k.bks[id].x), k.bks[id].rank))
  {
  }

  /** The rows that an accepted update leaves open to the record. */
  lemma ExtendedHolds(ci: Cipher, before: Tables, after: Tables, foreignKey: string, peerId: string, userAgent: string,
                      record: DkgResult, metadata: Option<string>, nonce: Nonce)
    requires ci.Valid() && metadata.Some? && ci.decodeKey(metadata.value).Some? && !NoWallet(before, foreignKey)
    requires ci.seal(ci.decodeKey(metadata.value).value, nonce, record).Some?
    requires ExtendedFor(before, after, foreignKey, peerId, userAgent,
                         ci.seal(ci.decodeKey(metadata.value).value, nonce, record).value, nonce)
    ensures Holds(ci, after, foreignKey, metadata, record)
  {
    var u, w :| u in before.users && u.foreignKey == foreignKey && w in before.wallets && w.userId == u.id;
    var i :| 0 <= i < |before.wallets| && before.wallets[i] == w;
    assert after.wallets[i] in after.wallets && after.wallets[i].userId == u.id;
  }

  /** The commit of a lifetime is this method's effect, for an adder started from the session's wallet. */
  lemma CommitIsAddition(c: Curve, ci: Cipher, s: State, a: Action, adder: ServerAdd)
    requires c.order > 1 && a.Commit? && Premise(c, s, a)
    requires var x := s.lives[a.foreignKey].session.value;
             && StartedFrom(adder, c, x.retrieved.pubkey, x.retrieved.share, x.retrieved.bks, x.existing)
             && SessionShare(c, x.retrieved.pubkey, x.retrieved.share, x.retrieved.bks, x.existing) == Ok(x.server)
    ensures var l := s.lives[a.foreignKey];
            var x := l.session.value;
            Step(c, ci, s, a).db ==
            match Added(c, ci, s.db, adder.Original(), Some(OldPeerResult(adder.input, x.newId, x.xNew)), a.foreignKey,
                        x.newId, a.userAgent, Some(l.metadata), a.nonce)
            case Ok(after) => after
            case Err(_) => s.db
  {
    var x := s.lives[a.foreignKey].session.value;
    OriginalOfStarted(adder, c, x.retrieved, x.existing);
    hide PeerAdded, Printed, NewPubkey, OriginalWallet, Merged, ServerAdd.Original, SessionShare;
  }
}
