/**
 Wallet records as they are stored and exchanged: decimal text on the outside, integers inside the
 threshold library. Printing, parsing, filtering to two parties, and merging.
 */
module Wallets {
  import opened Curves
  import opened Decimal
  import opened Identities
  import opened Wrappers

  datatype BK = BK(x: string, rank: nat)

  datatype PubkeyStr = PubkeyStr(x: string, y: string)

  datatype Pubkey = Pubkey(x: int, y: int) {
    function GetStr(): PubkeyStr {
      PubkeyStr(Print(x), Print(y))
    }

    function GetECPoint(c: Curve): Option<int> {
      c.Point(x, y)
    }
  }

  datatype DkgResult = DkgResult(pubkey: PubkeyStr, bks: map<string, BK>, share: string, address: string,
      peerId: string)

  datatype BkParameter = BkParameter(x: int, rank: nat)

  /** What the library computes with. The public key is the scalar of its point. */
  datatype KeyShare = KeyShare(publicKey: int, share: int, bks: map<string, BkParameter>)

  datatype WalletError = InvalidCoordinate | NotOnCurve | Conversion | NoResult

  function PubkeyOf(c: Curve, k: int): Pubkey {
    Pubkey(c.x(k), c.y(k))
  }

  // ---- Printing ----

  function PrintBK(bk: BkParameter): BK {
    BK(Print(bk.x), bk.rank)
  }

  function PrintBKs(bks: map<string, BkParameter>): (r: map<string, BK>) {
    map id | id in bks :: PrintBK(bks[id])
  }

  function Printed(c: Curve, k: KeyShare, peerId: string): DkgResult {
    DkgResult(PubkeyOf(c, k.publicKey).GetStr(), PrintBKs(k.bks), Print(k.share), c.address(k.publicKey), peerId)
  }

  method PostProcessResult(c: Curve, k: KeyShare, peerId: string) returns (w: DkgResult)
    ensures w == Printed(c, k, peerId)
    ensures w.pubkey == PubkeyStr(Print(c.x(k.publicKey)), Print(c.y(k.publicKey)))
    ensures w.share == Print(k.share) && w.address == c.address(k.publicKey) && w.peerId == peerId
    ensures w.bks.Keys == k.bks.Keys
    ensures forall id :: id in k.bks ==> w.bks[id] == BK(Print(k.bks[id].x), k.bks[id].rank)
  {
    var pubkey := PubkeyOf(c, k.publicKey);
    var bks: map<string, BK> := map[];
    var rest := k.bks.Keys;
    while rest != {}
      invariant rest <= k.bks.Keys
      invariant bks == map id | id in k.bks && id !in rest :: PrintBK(k.bks[id])
    {
      var id :| id in rest;
      bks := bks[id := BK(Print(k.bks[id].x), k.bks[id].rank)];
      rest := rest - {id};
    }
    assert bks == PrintBKs(k.bks);
    return DkgResult(pubkey.GetStr(), bks, Print(k.share), c.address(k.publicKey), peerId);
  }

  // ---- Parsing ----

  function NewPubkey(k: PubkeyStr): Result<Pubkey, WalletError> {
    if Parse(k.x).None? || Parse(k.y).None? then Err(InvalidCoordinate)
    else Ok(Pubkey(Parse(k.x).value, Parse(k.y).value))
  }

  predicate AllParse(bks: map<string, BK>) {
    forall id :: id in bks ==> Parse(bks[id].x).Some?
  }

  function ParsedBKs(bks: map<string, BK>): (r: map<string, BkParameter>)
    requires AllParse(bks)
  {
    map id | id in bks :: BkParameter(Parse(bks[id].x).value, bks[id].rank)
  }

  function Converted(c: Curve, pubkey: Pubkey, share: string, bks: map<string, BK>): Result<KeyShare, WalletError> {
    match pubkey.GetECPoint(c)
    case None => Err(NotOnCurve)
    case Some(k) =>
      if Parse(share).None? || !AllParse(bks) then Err(Conversion)
      else Ok(KeyShare(k, Parse(share).value, ParsedBKs(bks)))
  }

  method ConvertDKGResult(c: Curve, pubkey: Pubkey, share: string, bks: map<string, BK>)
    returns (res: Result<KeyShare, WalletError>)
    ensures res == Converted(c, pubkey, share, bks)
    ensures res == Err(NotOnCurve) <==> c.Point(pubkey.x, pubkey.y).None?
    ensures res == Err(Conversion)
       <==> c.Point(pubkey.x, pubkey.y).Some?
            && (Parse(share).None? || exists id :: id in bks && Parse(bks[id].x).None?)
    ensures res.Ok? ==>
              && c.Point(pubkey.x, pubkey.y) == Some(res.value.publicKey) && Parse(share) == Some(res.value.share)
              && res.value.bks.Keys == bks.Keys
              && (forall id :: id in bks ==>
                    Parse(bks[id].x) == Some(res.value.bks[id].x) && res.value.bks[id].rank == bks[id].rank)
    ensures res.Ok? || res == Err(NotOnCurve) || res == Err(Conversion)
  {
    hide Parse;
    var point := pubkey.GetECPoint(c);
    if point.None? {
      return Err(NotOnCurve);
    }
    var s := Parse(share);
    if s.None? {
      return Err(Conversion);
    }
    var parsed: map<string, BkParameter> := map[];
    var rest := bks.Keys;
    while rest != {}
      invariant rest <= bks.Keys
      invariant forall id :: id in bks && id !in rest ==> Parse(bks[id].x).Some?
      invariant parsed.Keys == bks.Keys - rest
      invariant forall id :: id in parsed ==> parsed[id] == BkParameter(Parse(bks[id].x).value, bks[id].rank)
    {
      var id :| id in rest;
      var x := Parse(bks[id].x);
      if x.None? {
        return Err(Conversion);
      }
      parsed := parsed[id := BkParameter(x.value, bks[id].rank)];
      rest := rest - {id};
    }
    assert AllParse(bks) && parsed == ParsedBKs(bks);
    return Ok(KeyShare(point.value, s.value, parsed));
  }

  /** What the library returned comes back unchanged after being printed, stored and converted. */
  lemma ConvertPrinted(c: Curve, k: KeyShare, peerId: string)
    requires c.Valid() && c.Scalar(k.publicKey)
    ensures var w := Printed(c, k, peerId);
            && NewPubkey(w.pubkey) == Ok(PubkeyOf(c, k.publicKey))
            && Converted(c, PubkeyOf(c, k.publicKey), w.share, w.bks) == Ok(k)
  {
    var w := Printed(c, k, peerId);
    ParsePrint(c.x(k.publicKey));
    ParsePrint(c.y(k.publicKey));
    ParsePrint(k.share);
    PointIffCoordinates(c, c.x(k.publicKey), c.y(k.publicKey), k.publicKey);
    ParsePrintedBKs(k.bks);
  }

  lemma ParsePrintedBKs(bks: map<string, BkParameter>)
    ensures AllParse(PrintBKs(bks)) && ParsedBKs(PrintBKs(bks)) == bks
  {
    forall id | id in bks
      ensures Parse(PrintBKs(bks)[id].x) == Some(bks[id].x)
    {
      ParsePrint(bks[id].x);
    }
  }

  // ---- Filtering to two parties ----

  function FilteredBKs(bks: map<string, BK>, peerId: string): (r: map<string, BK>) {
    map id | id in bks && (id == SERVER_ID || id == peerId) :: bks[id]
  }

  /** The loop in every constructor that runs a session between the server and one device. */
  method FilterBKs(bks: map<string, BK>, peerId: string) returns (r: map<string, BK>)
    ensures r == FilteredBKs(bks, peerId)
    ensures forall id :: id in r <==> id in bks && (id == SERVER_ID || id == peerId)
    ensures forall id :: id in r ==> r[id] == bks[id]
  {
    r := map[];
    var rest := bks.Keys;
    while rest != {}
      invariant rest <= bks.Keys
      invariant r == map id | id in bks && id !in rest && (id == SERVER_ID || id == peerId) :: bks[id]
    {
      var id :| id in rest;
      if id == SERVER_ID || id == peerId {
        r := r[id := bks[id]];
      }
      rest := rest - {id};
    }
  }

  /** Exactly the two parties of the session are left, as many as the threshold needs. */
  lemma FilterLeavesTwo(bks: map<string, BK>, peerId: string)
    requires peerId != SERVER_ID && SERVER_ID in bks && peerId in bks
    ensures FilteredBKs(bks, peerId).Keys == {SERVER_ID, peerId} && |FilteredBKs(bks, peerId)| == THRESHOLD
  {
    assert FilteredBKs(bks, peerId).Keys == {SERVER_ID, peerId};
    assert |FilteredBKs(bks, peerId)| == |FilteredBKs(bks, peerId).Keys|;
  }

  predicate Submap<K, V(==)>(a: map<K, V>, b: map<K, V>) {
    forall k :: k in a ==> k in b && a[k] == b[k]
  }

  /** A device with a smaller map filters to the same two parties as the server does. */
  lemma FiltersAgree(local: map<string, BK>, record: map<string, BK>, peerId: string)
    requires Submap(local, record) && SERVER_ID in local && peerId in local
    ensures FilteredBKs(local, peerId) == FilteredBKs(record, peerId)
  {
  }

  // ---- Merging ----

  predicate SameWallet(first: DkgResult, second: DkgResult) {
    && first.address == second.address && first.peerId == second.peerId && first.share == second.share
    && first.pubkey == second.pubkey
  }

  function Merged(first: DkgResult, second: DkgResult): Option<DkgResult> {
    if SameWallet(first, second) then Some(first.(bks := first.bks + second.bks)) else None
  }

  method MergeDkgResults(first: DkgResult, second: DkgResult) returns (ret: Option<DkgResult>)
    ensures ret == Merged(first, second)
    ensures ret.Some?
       <==> && first.address == second.address && first.peerId == second.peerId && first.share == second.share
            && first.pubkey.x == second.pubkey.x && first.pubkey.y == second.pubkey.y
    ensures ret.Some? ==>
              && ret.value.bks.Keys == first.bks.Keys + second.bks.Keys && Submap(second.bks, ret.value.bks)
              && (forall id :: id in first.bks && id !in second.bks ==> ret.value.bks[id] == first.bks[id])
              && ret.value.(bks := first.bks) == first
  {
    if first.address != second.address || first.peerId != second.peerId || first.share != second.share
       || first.pubkey.x != second.pubkey.x || first.pubkey.y != second.pubkey.y {
      return None;
    }
    var bks: map<string, BK> := map[];
    var rest := first.bks.Keys;
    while rest != {}
      invariant rest <= first.bks.Keys
      invariant bks == map id | id in first.bks && id !in rest :: first.bks[id]
    {
      var id :| id in rest;
      bks := bks[id := first.bks[id]];
      rest := rest - {id};
    }
    assert bks == first.bks;
    rest := second.bks.Keys;
    while rest != {}
      invariant rest <= second.bks.Keys
      invariant bks == first.bks + map id | id in second.bks && id !in rest :: second.bks[id]
    {
      var id :| id in rest;
      bks := bks[id := second.bks[id]];
      rest := rest - {id};
    }
    assert bks == first.bks + second.bks;
    assert first.pubkey == second.pubkey;
    return Some(DkgResult(first.pubkey, bks, first.share, first.address, first.peerId));
  }
}
