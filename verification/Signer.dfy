/** What the signer does with the (r, s) pair the threshold library hands over. */
module Signers {
  import opened Bytes
  import opened Curves
  import opened Ecdsa
  import opened ModularArithmetic
  import opened RecoveryIds
  import opened Signatures
  import opened Wrappers

  datatype Signature = Signature(r: int, s: int, bytes: seq<byte>)

  /** The 65 bytes read back: r, s, and the recovery id. */
  predicate Encodes(sig: seq<byte>, r: int, s: int, id: nat) {
    |sig| == 65 && Decode(sig[..32]) == r && Decode(sig[32..64]) == s && sig[64] as int == id
  }

  /** The nonce point has an odd y and its opposite would recover the identity. */
  predicate NonceRefused(c: Curve, q: int, z: int, r: int, s: int)
    requires c.order > 1
  {
    IsOdd(c.y(NonceScalar(c, q, z, r, s))) && Cong(c.order, 2 * z + r * q, 0)
  }

  predicate NonceBelowOrder(c: Curve, q: int, z: int, r: int, s: int)
    requires c.order > 1
  {
    c.x(NonceScalar(c, q, z, r, s)) < c.order
  }

  /**
   Lowers `s` in place and assembles the signature. A signature that comes out is low-S, was valid
   as produced by the library and still is. Which valid ones are refused depends on the nonce point alone.
   */
  method PostProcess(c: Curve, r: BigInt, s: BigInt, q: int, z: int)
    returns (res: Result<Signature, SignatureError>)
    requires c.Valid() && c.Scalar(q) && r != s
    modifies s
    ensures s.value == LowS(c.order, old(s.value))
    ensures res.Ok? ==>
              && res.value.r == r.value && res.value.s == s.value && 0 < s.value <= (c.order - 1) / 2
              && Verifies(c, q, z, r.value, s.value) && Verifies(c, q, z, r.value, old(s.value))
              && Encodes(res.value.bytes, r.value, s.value, RecoveryId(c, q, z, r.value, s.value))
    ensures c.order <= Pow256(32) && Verifies(c, q, z, r.value, old(s.value)) ==>
              Verifies(c, q, z, r.value, s.value)
              && (NonceBelowOrder(c, q, z, r.value, s.value) ==>
                    (res.Err? <==> NonceRefused(c, q, z, r.value, s.value)))
              && (!NonceBelowOrder(c, q, z, r.value, s.value) && AddressUnique(c, q) ==>
                    (res.Err? <==> NoKeyAt(c, z, r.value, s.value)))
  {
    hide Decode, Verifies, AttemptFails, RecoveryId, NonceBelowOrder, NonceRefused, NoKeyAt, AddressUnique, Pow256,
         LowS, SizeAccepted, Abs;
    hide Curve.Valid;
    LowSKeepsVerification(c, q, z, r.value, s.value);
    if Verifies(c, q, z, r.value, s.value) {
      LowSInRange(c, q, z, r.value, s.value);
    }
    var low := ToLowS(c.order, s);
    var out := GenerateSignature(c, Some(r.value), Some(low.value), q, z);
    if c.order <= Pow256(32) && Verifies(c, q, z, r.value, s.value) {
      RefusalOfValid(c, q, z, r.value, s.value);
    }
    match out
    case Ok(bytes) => return Ok(Signature(r.value, low.value, bytes));
    case Err(e) =>
      assert e == SizeDenied || e == RecoveryFailed || e == NotVerified;
      return Err(e);
  }

  lemma RefusalOfValid(c: Curve, q: int, z: int, r: int, s: int)
    requires c.Valid() && c.Scalar(q) && Verifies(c, q, z, r, s) && c.order <= Pow256(32)
    ensures SizeAccepted(Some(r)) && SizeAccepted(Some(s)) && Abs(r) == r && Abs(s) == s
    ensures NonceBelowOrder(c, q, z, r, s) ==>
              (AttemptFails(c, q, z, r, s) <==> NonceRefused(c, q, z, r, s))
    ensures !NonceBelowOrder(c, q, z, r, s) && AddressUnique(c, q) ==>
              (AttemptFails(c, q, z, r, s) <==> NoKeyAt(c, z, r, s))
  {
    hide AttemptFails, NonceScalar, NoKeyAt, AddressUnique, Cong, Prime, Pow256;
    VerifiedIsPositive(c, q, z, r, s);
    if c.x(NonceScalar(c, q, z, r, s)) < c.order {
      RefusedExactlyWhen(c, q, z, r, s);
    } else if AddressUnique(c, q) {
      RefusedAboveOrder(c, q, z, r, s);
    }
  }

  lemma LowSInRange(c: Curve, q: int, z: int, r: int, s: int)
    requires c.Valid() && Verifies(c, q, z, r, LowS(c.order, s))
    ensures 0 < LowS(c.order, s) <= (c.order - 1) / 2
  {
    PrimeIsOdd(c.order);
  }
}
