/**
 The two signers of a session: each filters its wallet to the two parties, converts it, and gives the
 library a peer manager that knows itself and its one peer.
 */
module SignerServices {
  import opened AddServices
  import opened Curves
  import opened Decimal
  import opened Identities
  import opened PeerManagers
  import opened Wallets
  import opened Wrappers

  /** What the library is started with: the key share, the own id and the peers of the peer manager. */
  datatype Setup = Setup(input: KeyShare, self: string, peers: set<string>)

  function ServerSetup(c: Curve, clientId: string, pubkey: PubkeyStr, share: string, bks: map<string, BK>):
    Result<Setup, WalletError>
  {
    match SessionShare(c, pubkey, share, bks, clientId)
    case Err(e) => Err(e)
    case Ok(k) => Ok(Setup(k, SERVER_ID, {clientId}))
  }

  function ClientSetup(c: Curve, clientId: string, pubkey: PubkeyStr, share: string, bks: map<string, BK>):
    Result<Setup, WalletError>
  {
    match SessionShare(c, pubkey, share, bks, clientId)
    case Err(e) => Err(e)
    case Ok(k) => Ok(Setup(k, clientId, {SERVER_ID}))
  }

  class Signer {
    const input: KeyShare
    const pm: PeerManager<string>

    constructor (input: KeyShare, pm: PeerManager<string>)
      ensures this.input == input && this.pm == pm
    {
      this.input, this.pm := input, pm;
    }

    function Started(): Setup
      reads pm
    {
      Setup(input, pm.id, pm.peers)
    }
  }

  method NewServerSigner(c: Curve, clientId: string, pubkeyStr: PubkeyStr, share: string, bks: map<string, BK>)
    returns (res: Result<Signer, WalletError>)
    ensures match ServerSetup(c, clientId, pubkeyStr, share, bks)
            case Err(e) => res == Err(e)
            case Ok(setup) => res.Ok? && fresh(res.value) && fresh(res.value.pm) && res.value.Started() == setup
    ensures res.Err? ==> FailsFor(c, pubkeyStr, share, bks, clientId, res.error)
    ensures res.Ok? ==>
              && SignsFrom(res.value, c, pubkeyStr, share, bks, clientId)
              && res.value.pm.id == SERVER_ID && res.value.pm.peers == {clientId}
  {
    res := NewSigner(c, clientId, SERVER_ID, clientId, pubkeyStr, share, bks);
  }

  method NewClientSigner(c: Curve, clientId: string, pubkeyStr: PubkeyStr, share: string, bks: map<string, BK>)
    returns (res: Result<Signer, WalletError>)
    ensures match ClientSetup(c, clientId, pubkeyStr, share, bks)
            case Err(e) => res == Err(e)
            case Ok(setup) => res.Ok? && fresh(res.value) && fresh(res.value.pm) && res.value.Started() == setup
    ensures res.Err? ==> FailsFor(c, pubkeyStr, share, bks, clientId, res.error)
    ensures res.Ok? ==>
              && SignsFrom(res.value, c, pubkeyStr, share, bks, clientId)
              && res.value.pm.id == clientId && res.value.pm.peers == {SERVER_ID}
  {
    res := NewSigner(c, clientId, clientId, SERVER_ID, pubkeyStr, share, bks);
  }

  /** A start-up fails on a text that does not parse or a point off the curve; entries of others are not read. */
  ghost predicate FailsFor(c: Curve, pubkey: PubkeyStr, share: string, bks: map<string, BK>, clientId: string,
                           e: WalletError)
  {
    if Parse(pubkey.x).None? || Parse(pubkey.y).None? then e == InvalidCoordinate
    else if c.Point(Parse(pubkey.x).value, Parse(pubkey.y).value).None? then e == NotOnCurve
    else e == Conversion && (Parse(share).None? || !TwoParse(bks, clientId))
  }

  /** What a signer works with is what the texts say, for the server and the client of the session. */
  ghost predicate SignsFrom(signer: Signer, c: Curve, pubkey: PubkeyStr, share: string, bks: map<string, BK>,
                            clientId: string)
  {
    && Parse(pubkey.x).Some? && Parse(pubkey.y).Some?
    && c.Point(Parse(pubkey.x).value, Parse(pubkey.y).value) == Some(signer.input.publicKey)
    && Parse(share) == Some(signer.input.share)
    && (forall id :: id in signer.input.bks <==> id in bks && (id == SERVER_ID || id == clientId))
    && (forall id :: id in signer.input.bks ==>
          Parse(bks[id].x) == Some(signer.input.bks[id].x) && signer.input.bks[id].rank == bks[id].rank)
  }

  /** The body the two constructors share. */
  method NewSigner(c: Curve, clientId: string, self: string, peer: string, pubkeyStr: PubkeyStr, share: string,
                   bks: map<string, BK>) returns (res: Result<Signer, WalletError>)
    ensures match SessionShare(c, pubkeyStr, share, bks, clientId)
            case Err(e) => res == Err(e)
            case Ok(k) =>
              res.Ok? && fresh(res.value) && fresh(res.value.pm) && res.value.Started() == Setup(k, self, {peer})
    ensures res.Err? ==> FailsFor(c, pubkeyStr, share, bks, clientId, res.error)
    ensures res.Ok? ==>
              && SignsFrom(res.value, c, pubkeyStr, share, bks, clientId)
              && res.value.pm.id == self && res.value.pm.peers == {peer}
  {
    hide Parse, Curve.Point;
    var pubkey := NewPubkey(pubkeyStr);
    if pubkey.Err? {
      return Err(pubkey.error);
    }
    var filtered := FilterBKs(bks, clientId);
    var pm := new PeerManager<string>(self, text => Some(text));
    pm.AddPeer(peer);
    var input := ConvertDKGResult(c, pubkey.value, share, filtered);
    if input.Err? {
      return Err(input.error);
    }
    var signer := new Signer(input.value, pm);
    return Ok(signer);
  }
}
