/**
 The services that run the library's add-share protocol. An old peer keeps its share; the new peer
 receives the value of the same polynomial at its own coordinate.
 */
module AddServices {
  import opened Curves
  import opened Decimal
  import opened Identities
  import opened Interpolation
  import opened ModularArithmetic
  import opened Wallets
  import opened Wrappers

  // ---- The library ----

  /** What an old peer ends with: everything as before, plus the new peer's parameter. */
  function OldPeerResult(k: KeyShare, newId: string, xNew: int): KeyShare {
    k.(bks := k.bks[newId := BkParameter(xNew, 0)])
  }

  /** What the new peer ends with, from the shares the two old peers contributed. */
  function NewPeerResult(n: int, server: KeyShare, existing: KeyShare, existingId: string, newId: string,
      xNew: int): KeyShare
    requires n > 1 && SERVER_ID in server.bks && existingId in server.bks
  {
    KeyShare(server.publicKey,
             Interpolate(n, server.bks[SERVER_ID].x, server.share, server.bks[existingId].x, existing.share, xNew),
             server.bks[newId := BkParameter(xNew, 0)])
  }

  // ---- What a service is started with ----

  /** The wallet text filtered to the server and one device and converted for the library. */
  function SessionShare(c: Curve, pubkey: PubkeyStr, share: string, bks: map<string, BK>, peerId: string):
    Result<KeyShare, WalletError>
  {
    match NewPubkey(pubkey)
    case Err(e) => Err(e)
    case Ok(key) => Converted(c, key, share, FilteredBKs(bks, peerId))
  }

  /** The server's wallet before the addition: text as stored, key printed afresh, the server as its own peer. */
  function OriginalWallet(c: Curve, w: DkgResult, publicKey: int): DkgResult
    requires NewPubkey(w.pubkey).Ok?
  {
    DkgResult(NewPubkey(w.pubkey).value.GetStr(), w.bks, w.share, c.address(publicKey), SERVER_ID)
  }

  /** The two entries a session uses are readable. */
  predicate TwoParse(bks: map<string, BK>, peerId: string) {
    forall id :: id in bks && (id == SERVER_ID || id == peerId) ==> Parse(bks[id].x).Some?
  }

  /** The service was started from this wallet text, for a session with `peerId`. */
  ghost predicate StartedFrom(adder: ServerAdd, c: Curve, pubkey: PubkeyStr, share: string, bks: map<string, BK>,
                              peerId: string)
  {
    && adder.curve == c && adder.share == share && adder.originalBKs == bks
    && Parse(pubkey.x) == Some(adder.pubkey.x) && Parse(pubkey.y) == Some(adder.pubkey.y)
    && c.Point(adder.pubkey.x, adder.pubkey.y) == Some(adder.input.publicKey)
    && Parse(share) == Some(adder.input.share)
    && (forall id :: id in adder.input.bks <==> id in bks && (id == SERVER_ID || id == peerId))
    && (forall id :: id in adder.input.bks ==>
          Parse(bks[id].x) == Some(adder.input.bks[id].x) && adder.input.bks[id].rank == bks[id].rank)
  }

  /** Its original wallet is the one it was started from. */
  lemma OriginalOfStarted(adder: ServerAdd, c: Curve, w: DkgResult, peerId: string)
    requires StartedFrom(adder, c, w.pubkey, w.share, w.bks, peerId)
    ensures NewPubkey(w.pubkey).Ok? && adder.Original() == OriginalWallet(c, w, adder.input.publicKey)
    ensures SessionShare(c, w.pubkey, w.share, w.bks, peerId) == Ok(adder.input)
  {
    var filtered := FilteredBKs(w.bks, peerId);
    assert AllParse(filtered) && ParsedBKs(filtered) == adder.input.bks;
  }

  datatype LibraryState = Running | Failed | Done

  /** The server's side of one addition. */
  class ServerAdd {
    const curve: Curve
    const pubkey: Pubkey
    const share: string
    const newClientId: string
    const input: KeyShare
    const originalBKs: map<string, BK>
    var result: Option<KeyShare>
    var failed: bool
    var done: bool

    ghost predicate Valid()
      reads this
    {
      && curve.Valid()
      && pubkey.GetECPoint(curve) == Some(input.publicKey)
      && (result.Some? ==> curve.Scalar(result.value.publicKey) && done)
    }

    constructor (curve: Curve, pubkey: Pubkey, share: string, newClientId: string, input: KeyShare,
        originalBKs: map<string, BK>)
      requires curve.Valid() && pubkey.GetECPoint(curve) == Some(input.publicKey)
      ensures Valid() && !done && !failed && result.None?
      ensures this.curve == curve && this.pubkey == pubkey && this.share == share && this.newClientId == newClientId
      ensures this.input == input && this.originalBKs == originalBKs
    {
      this.curve, this.pubkey, this.share, this.newClientId := curve, pubkey, share, newClientId;
      this.input, this.originalBKs := input, originalBKs;
      result, failed, done := None, false, false;
    }

    static method NewServerAdd(curve: Curve, newClientId: string, existingId: string, pubkeyStr: PubkeyStr,
        share: string, bks: map<string, BK>)
      returns (res: Result<ServerAdd, WalletError>)
      requires curve.Valid()
      ensures res.Ok? <==> SessionShare(curve, pubkeyStr, share, bks, existingId).Ok?
      ensures res.Err? ==> res.error == SessionShare(curve, pubkeyStr, share, bks, existingId).error
      ensures res.Ok? ==>
                && fresh(res.value) && res.value.Valid() && !res.value.done
                && res.value.input == SessionShare(curve, pubkeyStr, share, bks, existingId).value
                && res.value.curve == curve && res.value.originalBKs == bks && res.value.share == share
                && res.value.newClientId == newClientId && Ok(res.value.pubkey) == NewPubkey(pubkeyStr)
      ensures res.Ok? ==> StartedFrom(res.value, curve, pubkeyStr, share, bks, existingId)
      ensures res == Err(InvalidCoordinate) <==> Parse(pubkeyStr.x).None? || Parse(pubkeyStr.y).None?
      ensures Parse(pubkeyStr.x).Some? && Parse(pubkeyStr.y).Some? ==>
                var point := curve.Point(Parse(pubkeyStr.x).value, Parse(pubkeyStr.y).value);
                && (res == Err(NotOnCurve) <==> point.None?)
                && (res == Err(Conversion) <==> point.Some? && (Parse(share).None? || !TwoParse(bks, existingId)))
      ensures res.Ok? || res.error in {InvalidCoordinate, NotOnCurve, Conversion}
    {
      hide Parse, Curve.Valid, Curve.Point;
      var pubkey := NewPubkey(pubkeyStr);
      if pubkey.Err? {
        return Err(pubkey.error);
      }
      var filtered := FilterBKs(bks, existingId);
      var input := ConvertDKGResult(curve, pubkey.value, share, filtered);
      if input.Err? {
        return Err(input.error);
      }
      var adder := new ServerAdd(curve, pubkey.value, share, newClientId, input.value, bks);
      return Ok(adder);
    }

    function Original(): DkgResult {
      DkgResult(pubkey.GetStr(), originalBKs, share, curve.address(input.publicKey), SERVER_ID)
    }

    method GetOriginalWallet() returns (w: DkgResult)
      requires Valid()
      ensures w == Original()
      ensures w.bks == originalBKs && w.share == share && w.peerId == SERVER_ID
      ensures w.address == curve.address(input.publicKey) && w.pubkey == PubkeyStr(Print(pubkey.x), Print(pubkey.y))
    {
      var point := pubkey.GetECPoint(curve);
      return DkgResult(pubkey.GetStr(), originalBKs, share, curve.address(point.value), SERVER_ID);
    }

    /** The library reports each state change once; the two final states close `done`. */
    method OnStateChanged(newState: LibraryState, outcome: Option<KeyShare>)
      requires Valid() && !done
      requires outcome.Some? ==> curve.Scalar(outcome.value.publicKey)
      modifies this
      ensures Valid()
      ensures done <==> newState != Running
      ensures result == if newState == Done then outcome else old(result)
      ensures failed == (old(failed) || newState == Failed || (newState == Done && outcome.None?))
    {
      if newState == Failed {
        failed := true;
        done := true;
      } else if newState == Done {
        if outcome.Some? {
          result := outcome;
        } else {
          failed := true;
        }
        done := true;
      }
    }

    /** After `done`: the library's result printed, with the server as its own peer. */
    method Process() returns (w: Result<DkgResult, WalletError>)
      requires Valid() && done
      ensures w == match result case None => Err(NoResult) case Some(k) => Ok(Printed(curve, k, SERVER_ID))
    {
      if result.None? {
        return Err(NoResult);
      }
      var out := PostProcessResult(curve, result.value, SERVER_ID);
      return Ok(out);
    }
  }

  // ---- Laws of one addition ----

  function TwoParameters(bks: map<string, BkParameter>, peerId: string): map<string, BkParameter> {
    map id | id in bks && (id == SERVER_ID || id == peerId) :: bks[id]
  }

  /** A printed wallet always starts a session, with exactly the two parties' parameters. */
  lemma PrintedWalletStarts(c: Curve, k: KeyShare, ownId: string, peerId: string)
    requires c.Valid() && c.Scalar(k.publicKey)
    ensures var w := Printed(c, k, ownId);
            SessionShare(c, w.pubkey, w.share, w.bks, peerId) == Ok(k.(bks := TwoParameters(k.bks, peerId)))
  {
    var w := Printed(c, k, ownId);
    var k2 := k.(bks := TwoParameters(k.bks, peerId));
    assert FilteredBKs(w.bks, peerId) == PrintBKs(k2.bks);
    assert Printed(c, k2, ownId) == w.(bks := PrintBKs(k2.bks));
    hide Parse, Print;
    ConvertPrinted(c, k2, ownId);
  }

  /** Whatever the stored text, original and updated wallet merge exactly when the share is written canonically. */
  lemma MergesIffCanonical(c: Curve, w: DkgResult, peerId: string, newId: string, xNew: int)
    requires c.Valid() && SessionShare(c, w.pubkey, w.share, w.bks, peerId).Ok?
    ensures var input := SessionShare(c, w.pubkey, w.share, w.bks, peerId).value;
            var updated := Printed(c, OldPeerResult(input, newId, xNew), SERVER_ID);
            Merged(OriginalWallet(c, w, input.publicKey), updated).Some? <==> Canonical(w.share)
  {
    var input := SessionShare(c, w.pubkey, w.share, w.bks, peerId).value;
    var key := NewPubkey(w.pubkey).value;
    PointIffCoordinates(c, key.x, key.y, input.publicKey);
    hide Parse, Print, Canonical, Curve.Valid;
    PrintParse(w.share);
  }

  /** On a printed wallet they always merge: nothing is lost or changed, the new peer is added. */
  lemma AdditionMerges(c: Curve, k: KeyShare, ownId: string, peerId: string, newId: string, xNew: int)
    requires c.Valid() && c.Scalar(k.publicKey)
    ensures var w := Printed(c, k, ownId);
            var input := k.(bks := TwoParameters(k.bks, peerId));
            var updated := Printed(c, OldPeerResult(input, newId, xNew), SERVER_ID);
            && NewPubkey(w.pubkey).Ok?
            && Merged(OriginalWallet(c, w, k.publicKey), updated)
                == Some(Printed(c, OldPeerResult(k, newId, xNew), SERVER_ID))
  {
    hide Print, Parse, Converted, PrintBKs, TwoParameters, NewPubkey, Curve.Valid;
    ConvertPrinted(c, k, ownId);
    UnionOfParameters(k.bks, peerId, newId, BkParameter(xNew, 0));
  }

  lemma UnionOfParameters(bks: map<string, BkParameter>, peerId: string, newId: string, p: BkParameter)
    ensures PrintBKs(bks) + PrintBKs(TwoParameters(bks, peerId)[newId := p]) == PrintBKs(bks[newId := p])
  {
    hide Print;
  }

  /** The new peer's share lies on the polynomial of the two old shares. */
  lemma NewShareOnLine(n: int, a0: int, a1: int, server: KeyShare, existing: KeyShare, existingId: string,
      newId: string, xNew: int)
    requires Prime(n) && SERVER_ID in server.bks && existingId in server.bks
    requires !Cong(n, server.bks[SERVER_ID].x, server.bks[existingId].x)
    requires server.share == Share(n, a0, a1, server.bks[SERVER_ID].x)
    requires existing.share == Share(n, a0, a1, server.bks[existingId].x)
    ensures NewPeerResult(n, server, existing, existingId, newId, xNew).share == Share(n, a0, a1, xNew)
  {
    InterpolationIsExact(n, a0, a1, server.bks[SERVER_ID].x, server.bks[existingId].x, xNew);
  }
}
