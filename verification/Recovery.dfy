/**
 Recovering the private key from the server's and one client's share. The interpolation
 coefficients come from the library; for two parties of rank 0 they are the Lagrange coefficients.
 */
module KeyRecovery {
  import opened Curves
  import opened Decimal
  import opened Identities
  import opened Interpolation
  import opened ModularArithmetic
  import opened Wallets
  import opened Wrappers

  /** A party's share and parameter; the parameter of a party that is missing from the wallet is nil. */
  datatype RecoveryPeer = RecoveryPeer(share: int, bk: Option<BkParameter>)

  datatype RecoveryError =
    | NotEnoughPeers | AbsentCurve | BadThreshold | NilParameter | BadParameters | PubKeyMismatch
    | BadWallet(error: WalletError)

  /** The library: its threshold check, and validity check plus coefficients in one. */
  datatype Birkhoff = Birkhoff(thresholdOk: (nat, nat) -> bool,
                               coefficients: (seq<BkParameter>, nat, int) -> Option<seq<int>>)
  {
    ghost predicate Valid() {
      && thresholdOk(2, 2)
      && (forall bks: seq<BkParameter>, t: nat, n: int ::
            coefficients(bks, t, n).Some? ==> |coefficients(bks, t, n).value| <= |bks|)
      && (forall bks: seq<BkParameter>, n: int ::
            TwoParties(bks) && Prime(n) && DistinctNonZero(n, bks[0].x, bks[1].x) ==>
            coefficients(bks, 2, n) == Some([Lagrange(n, bks[0].x, bks[1].x, 0), Lagrange(n, bks[1].x, bks[0].x, 0)]))
    }
  }

  predicate TwoParties(bks: seq<BkParameter>) {
    |bks| == 2 && bks[0].rank == 0 && bks[1].rank == 0
  }

  predicate DistinctNonZero(n: int, x1: int, x2: int)
    requires n > 0
  {
    !Cong(n, x1, x2) && !Cong(n, x1, 0) && !Cong(n, x2, 0)
  }

  function Dot(coefs: seq<int>, shares: seq<int>): int
    requires |coefs| <= |shares|
  {
    if coefs == [] then 0
    else Dot(coefs[..|coefs| - 1], shares) + coefs[|coefs| - 1] * shares[|coefs| - 1]
  }

  function Shares(peers: seq<RecoveryPeer>): seq<int> {
    seq(|peers|, i requires 0 <= i < |peers| => peers[i].share)
  }

  function Parameters(peers: seq<RecoveryPeer>): seq<BkParameter>
    requires forall i :: 0 <= i < |peers| ==> peers[i].bk.Some?
  {
    seq(|peers|, i requires 0 <= i < |peers| => peers[i].bk.value)
  }

  function Recovered(lib: Birkhoff, curve: Option<Curve>, threshold: nat, pubKey: int, peers: seq<RecoveryPeer>):
    Result<int, RecoveryError>
    requires lib.Valid() && (curve.Some? ==> curve.value.Valid())
  {
    if |peers| < 2 then Err(NotEnoughPeers)
    else if curve.None? then Err(AbsentCurve)
    else if !lib.thresholdOk(threshold, |peers|) then Err(BadThreshold)
    else if exists i :: 0 <= i < |peers| && peers[i].bk.None? then Err(NilParameter)
    else
      match lib.coefficients(Parameters(peers), threshold, curve.value.order)
      case None => Err(BadParameters)
      case Some(coefs) =>
        var key := Mod(Dot(coefs, Shares(peers)), curve.value.order);
        if key == pubKey then Ok(key) else Err(PubKeyMismatch)
  }

  /**
   Sums coefficient times share without reducing and reduces once; the derived public key must be the
   given one. A nil parameter is reported here, where the original would fault inside the library.
   */
  method RecoverPrivateKey(lib: Birkhoff, curve: Option<Curve>, threshold: nat, pubKey: int, peers: seq<RecoveryPeer>)
    returns (res: Result<int, RecoveryError>)
    requires lib.Valid() && (curve.Some? ==> curve.value.Valid())
    ensures res == Recovered(lib, curve, threshold, pubKey, peers)
    ensures res.Ok? ==> 0 <= res.value < curve.value.order && res.value == pubKey
    ensures res.Err? ==> !res.error.BadWallet?
    ensures res == Err(NotEnoughPeers) <==> |peers| < 2
    ensures res == Err(AbsentCurve) <==> |peers| >= 2 && curve.None?
    ensures res == Err(BadThreshold) <==> |peers| >= 2 && curve.Some? && !lib.thresholdOk(threshold, |peers|)
    ensures |peers| >= 2 && curve.Some? && lib.thresholdOk(threshold, |peers|) ==>
              && (res == Err(NilParameter) <==> exists p :: p in peers && p.bk.None?)
              && ((forall p :: p in peers ==> p.bk.Some?) ==>
                    (res == Err(BadParameters)
                     <==> lib.coefficients(Parameters(peers), threshold, curve.value.order).None?))
  {
    if |peers| < 2 {
      return Err(NotEnoughPeers);
    }
    if curve.None? {
      return Err(AbsentCurve);
    }
    if !lib.thresholdOk(threshold, |peers|) {
      return Err(BadThreshold);
    }
    var shares: seq<int>, bks: seq<BkParameter> := [], [];
    for i := 0 to |peers|
      invariant forall j :: 0 <= j < i ==> peers[j].bk.Some?
      invariant |shares| == i && forall j :: 0 <= j < i ==> shares[j] == peers[j].share
      invariant |bks| == i && forall j :: 0 <= j < i ==> bks[j] == peers[j].bk.value
    {
      if peers[i].bk.None? {
        return Err(NilParameter);
      }
      shares := shares + [peers[i].share];
      bks := bks + [peers[i].bk.value];
    }
    assert shares == Shares(peers) && bks == Parameters(peers);

    var order := curve.value.order;
    var coefs := lib.coefficients(bks, threshold, order);
    if coefs.None? {
      return Err(BadParameters);
    }
    var key := 0;
    for i := 0 to |coefs.value|
      invariant key == Dot(coefs.value[..i], shares)
    {
      key := key + coefs.value[i] * shares[i];
      assert coefs.value[..i + 1][..i] == coefs.value[..i];
    }
    assert coefs.value[..|coefs.value|] == coefs.value;
    key := Mod(key, order);
    if key != pubKey {
      return Err(PubKeyMismatch);
    }
    return Ok(key);
  }

  function TwoPeers(x1: int, s1: int, x2: int, s2: int): seq<RecoveryPeer> {
    [RecoveryPeer(s1, Some(BkParameter(x1, 0))), RecoveryPeer(s2, Some(BkParameter(x2, 0)))]
  }

  /** With two parties of rank 0, recovery succeeds exactly when the interpolated secret has the public key. */
  lemma TwoPeersRecoverIff(lib: Birkhoff, c: Curve, x1: int, s1: int, x2: int, s2: int, pubKey: int)
    requires lib.Valid() && c.Valid() && DistinctNonZero(c.order, x1, x2)
    ensures var key := Interpolate(c.order, x1, s1, x2, s2, 0);
            Recovered(lib, Some(c), THRESHOLD, pubKey, TwoPeers(x1, s1, x2, s2))
            == if key == pubKey then Ok(key) else Err(PubKeyMismatch)
  {
    var n, peers := c.order, TwoPeers(x1, s1, x2, s2);
    var bks := Parameters(peers);
    assert TwoParties(bks);
    var coefs := [Lagrange(n, x1, x2, 0), Lagrange(n, x2, x1, 0)];
    assert lib.coefficients(bks, 2, n) == Some(coefs);
    DotOfTwo(coefs[0], coefs[1], Shares(peers));
  }

  /** Shares of one line recover its value at zero, whatever the line. */
  lemma TwoPartiesRecoverSecret(lib: Birkhoff, c: Curve, a0: int, a1: int, x1: int, x2: int)
    requires lib.Valid() && c.Valid() && DistinctNonZero(c.order, x1, x2)
    ensures var n := c.order;
            Recovered(lib, Some(c), THRESHOLD, Mod(a0, n), TwoPeers(x1, Share(n, a0, a1, x1), x2, Share(n, a0, a1, x2)))
            == Ok(Mod(a0, n))
  {
    var n := c.order;
    TwoPeersRecoverIff(lib, c, x1, Share(n, a0, a1, x1), x2, Share(n, a0, a1, x2), Mod(a0, n));
    InterpolationIsExact(n, a0, a1, x1, x2, 0);
    assert Line(a0, a1, 0) == a0;
  }

  /** Next to a share of the line, another value gives the line's secret exactly when it is on the line too. */
  lemma SecretIffOnLine(n: int, a0: int, a1: int, x1: int, x2: int, s: int)
    requires Prime(n) && DistinctNonZero(n, x1, x2)
    ensures Interpolate(n, x1, Share(n, a0, a1, x1), x2, s, 0) == Mod(a0, n) <==> Cong(n, s, Line(a0, a1, x2))
  {
    assert !Cong(n, x1, x2) && !Cong(n, x2, x1) && !Cong(n, x1, 0) by {
      if Cong(n, x2, x1) {
        CongSym(n, x2, x1);
      }
    }
    assert Line(a0, a1, 0) == a0;
    hide Prime, Cong, Lagrange, Line, Mod;
    var s1, s2 := Share(n, a0, a1, x1), Share(n, a0, a1, x2);
    InterpolationIsExact(n, a0, a1, x1, x2, 0);
    WeightAtZero(n, x2, x1);
    var l1, l2 := Lagrange(n, x1, x2, 0), Lagrange(n, x2, x1, 0);
    CongIffModEq(n, l1 * s1 + l2 * s, l1 * s1 + l2 * s2);
    SumCongIff(n, l1 * s1, l2 * s, l2 * s2);
    if Cong(n, l2 * s, l2 * s2) {
      Cancel(n, l2, s, s2);
    }
    if Cong(n, s, s2) {
      CongScale(n, l2, s, s2);
    }
    CongModIff(n, s, Line(a0, a1, x2));
  }

  /** Next to the right server share, a client share is accepted exactly when it lies on the line. */
  lemma ClientShareAcceptedIff(lib: Birkhoff, c: Curve, a0: int, a1: int, x1: int, x2: int, s: int)
    requires lib.Valid() && c.Valid() && DistinctNonZero(c.order, x1, x2)
    ensures var n := c.order;
            var res := Recovered(lib, Some(c), THRESHOLD, Mod(a0, n), TwoPeers(x1, Share(n, a0, a1, x1), x2, s));
            && (res == Ok(Mod(a0, n)) <==> Cong(n, s, Line(a0, a1, x2)))
            && (res == Err(PubKeyMismatch) <==> !Cong(n, s, Line(a0, a1, x2)))
  {
    assert Prime(c.order);
    hide Recovered, Prime, DistinctNonZero, Interpolate, Share, Cong, Birkhoff.Valid, Curve.Valid;
    TwoPeersRecoverIff(lib, c, x1, Share(c.order, a0, a1, x1), x2, s, Mod(a0, c.order));
    SecretIffOnLine(c.order, a0, a1, x1, x2, s);
  }

  lemma SumCongIff(n: int, a: int, b: int, d: int)
    requires n > 0
    ensures Cong(n, a + b, a + d) <==> Cong(n, b, d)
  {
    assert (a + b) - (a + d) == b - d;
  }

  lemma CongModIff(n: int, a: int, b: int)
    requires n > 0
    ensures Cong(n, a, Mod(b, n)) <==> Cong(n, a, b)
  {
    CongMod(n, b);
    if Cong(n, a, b) {
      CongTrans(n, a, b, Mod(b, n));
    }
    if Cong(n, a, Mod(b, n)) {
      CongTrans(n, a, Mod(b, n), b);
    }
  }

  /** The weight of a share at zero vanishes only if the other coordinate does. */
  lemma WeightAtZero(n: int, xi: int, xj: int)
    requires Prime(n) && !Cong(n, xi, xj) && !Cong(n, xj, 0)
    ensures !Cong(n, Lagrange(n, xi, xj, 0), 0)
  {
    assert !Cong(n, xi - xj, 0);
    hide Prime, Cong, Inverse;
    var d := Inverse(xi - xj, n);
    InverseWorks(xi - xj, n);
    NotZero(n, d);
    NegationNotZero(n, xj);
    NoZeroDivisors(n, -xj, d);
    assert (0 - xj) * d == -xj * d;
    CongMod(n, -xj * d);
    if Cong(n, Lagrange(n, xi, xj, 0), 0) {
      CongTrans(n, -xj * d, Lagrange(n, xi, xj, 0), 0);
    }
  }

  lemma DotOfTwo(c1: int, c2: int, shares: seq<int>)
    requires |shares| == 2
    ensures Dot([c1, c2], shares) == c1 * shares[0] + c2 * shares[1]
  {
    assert [c1, c2][..1] == [c1];
    assert [c1][..0] == [];
    assert Dot([c1], shares) == Dot([], shares) + c1 * shares[0];
  }

  // ---- The wrapper over stored wallets ----

  function Parameter(bks: map<string, BkParameter>, id: string): Option<BkParameter> {
    if id in bks then Some(bks[id]) else None
  }

  function RecoveredFromWallet(lib: Birkhoff, c: Curve, clientId: string, pubkey: PubkeyStr, serverShare: string,
                               clientShare: string, bks: map<string, BK>): Result<int, RecoveryError>
    requires lib.Valid() && c.Valid()
  {
    match NewPubkey(pubkey)
    case Err(e) => Err(BadWallet(e))
    case Ok(key) =>
      match Converted(c, key, serverShare, bks)
      case Err(e) => Err(BadWallet(e))
      case Ok(k) =>
        match Parse(clientShare)
        case None => Err(BadWallet(Conversion))
        case Some(s) =>
          Recovered(lib, Some(c), THRESHOLD, k.publicKey,
                    [RecoveryPeer(k.share, Parameter(k.bks, SERVER_ID)), RecoveryPeer(s, Parameter(k.bks, clientId))])
  }

  method RecoverPrivateKeyWrapper(lib: Birkhoff, c: Curve, clientId: string, pubkey: PubkeyStr, serverShare: string,
                                  clientShare: string, bks: map<string, BK>) returns (res: Result<int, RecoveryError>)
    requires lib.Valid() && c.Valid()
    ensures res == RecoveredFromWallet(lib, c, clientId, pubkey, serverShare, clientShare, bks)
    ensures res.Ok? ==> c.Scalar(res.value) && NewPubkey(pubkey) == Ok(PubkeyOf(c, res.value))
    ensures res == Err(BadWallet(InvalidCoordinate)) <==> Parse(pubkey.x).None? || Parse(pubkey.y).None?
    ensures Parse(pubkey.x).Some? && Parse(pubkey.y).Some? ==>
              var point := c.Point(Parse(pubkey.x).value, Parse(pubkey.y).value);
              && (res == Err(BadWallet(NotOnCurve)) <==> point.None?)
              && (res == Err(BadWallet(Conversion))
                  <==> point.Some? && (Parse(serverShare).None? || Parse(clientShare).None?
                                       || exists id :: id in bks && Parse(bks[id].x).None?))
    ensures res == Err(NilParameter) ==> SERVER_ID !in bks || clientId !in bks
    ensures res.Ok? ==> SERVER_ID in bks && clientId in bks
  {
    hide Parse, Recovered, AllParse, ParsedBKs, Curve.Valid, Curve.Point, Birkhoff.Valid;
    var key := NewPubkey(pubkey);
    if key.Err? {
      return Err(BadWallet(key.error));
    }
    var point := key.value.GetECPoint(c);
    if point.None? {
      return Err(BadWallet(NotOnCurve));
    }
    var server := ConvertDKGResult(c, key.value, serverShare, bks);
    if server.Err? {
      return Err(BadWallet(server.error));
    }
    var share := Parse(clientShare);
    if share.None? {
      return Err(BadWallet(Conversion));
    }
    var peers := [];
    peers := peers + [RecoveryPeer(server.value.share, Parameter(server.value.bks, SERVER_ID))];
    peers := peers + [RecoveryPeer(share.value, Parameter(server.value.bks, clientId))];
    assert peers == [RecoveryPeer(server.value.share, Parameter(server.value.bks, SERVER_ID)),
                     RecoveryPeer(share.value, Parameter(server.value.bks, clientId))];
    res := RecoverPrivateKey(lib, Some(c), THRESHOLD, point.value, peers);
    PointIffCoordinates(c, key.value.x, key.value.y, point.value);
  }

  /** A printed wallet and a printed client share on one line give back the secret of the line. */
  lemma PrintedWalletRecoversSecret(lib: Birkhoff, c: Curve, k: KeyShare, a0: int, a1: int, clientId: string,
      peerId: string)
    requires lib.Valid() && c.Valid() && c.Scalar(k.publicKey) && k.publicKey == Mod(a0, c.order)
    requires SERVER_ID in k.bks && clientId in k.bks
    requires k.bks[SERVER_ID].rank == 0 && k.bks[clientId].rank == 0
    requires DistinctNonZero(c.order, k.bks[SERVER_ID].x, k.bks[clientId].x)
    requires k.share == Share(c.order, a0, a1, k.bks[SERVER_ID].x)
    ensures var w := Printed(c, k, peerId);
            RecoveredFromWallet(lib, c, clientId, w.pubkey, w.share,
                Print(Share(c.order, a0, a1, k.bks[clientId].x)), w.bks)
            == Ok(Mod(a0, c.order))
  {
    hide Recovered, Share, Parse, Print, DistinctNonZero, Converted, NewPubkey;
    ConvertPrinted(c, k, peerId);
    ParsePrint(Share(c.order, a0, a1, k.bks[clientId].x));
    TwoPartiesRecoverSecret(lib, c, a0, a1, k.bks[SERVER_ID].x, k.bks[clientId].x);
  }

  /** The assumptions on the library can be met. */
  function LagrangeLibrary(): Birkhoff {
    Birkhoff((t: nat, n: nat) => 2 <= t <= n,
             (bks: seq<BkParameter>, t: nat, n: int) =>
               if t == 2 && TwoParties(bks) && n > 1 && !Cong(n, bks[0].x, bks[1].x) then
                 Some([Lagrange(n, bks[0].x, bks[1].x, 0), Lagrange(n, bks[1].x, bks[0].x, 0)])
               else None)
  }

  lemma LagrangeLibraryIsValid()
    ensures LagrangeLibrary().Valid()
  {
    var lib := LagrangeLibrary();
    forall bks: seq<BkParameter>, t: nat, n: int | lib.coefficients(bks, t, n).Some?
      ensures |lib.coefficients(bks, t, n).value| <= |bks|
    {
      assert TwoParties(bks);
    }
    forall bks: seq<BkParameter>, n: int | TwoParties(bks) && Prime(n) && DistinctNonZero(n, bks[0].x, bks[1].x)
      ensures lib.coefficients(bks, 2, n)
          == Some([Lagrange(n, bks[0].x, bks[1].x, 0), Lagrange(n, bks[1].x, bks[0].x, 0)])
    {
    }
  }
}
