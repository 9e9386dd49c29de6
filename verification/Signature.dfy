/**
 The 65-byte Ethereum signature r ‖ s ‖ v assembled from a threshold signature, and the choice of
 the recovery id v by public key recovery (section 4.1.6 of SEC 1 version 2.0).
 */
module Signatures {
  import opened Bytes
  import opened Curves
  import opened Ecdsa
  import opened ModularArithmetic
  import opened Wrappers

  datatype SignatureError = SizeDenied | RecoveryFailed | NotVerified

  // ---- Public key recovery ----

  /** The scalar of the public key recovered from (r, s), or nothing if there is no such key. */
  function RecoverKey(c: Curve, z: int, r: int, s: int, id: nat): Option<int>
    requires c.order > 1
  {
    if !(0 < r < c.order && 0 < s < c.order) then None
    else match c.lift(if id >= 2 then r + c.order else r, id % 2 == 1)
      case None => None
      case Some(k) =>
        var key := Mod(Inverse(r, c.order) * (s * k - z), c.order);
        if key == 0 then None else Some(key)
  }

  /** The same on a compact signature: header byte 27 + id, then r and s. */
  function RecoverCompact(c: Curve, sig: seq<byte>, z: int): Option<int>
    requires c.order > 1
  {
    if |sig| != 65 || !(27 <= sig[0] <= 34) then None
    else RecoverKey(c, z, Decode(sig[1..33]), Decode(sig[33..65]), (sig[0] as int - 27) % 4)
  }

  predicate AddressMatches(c: Curve, q: int, z: int, r: int, s: int, id: nat)
    requires c.order > 1
  {
    var key := RecoverKey(c, z, r, s, id);
    key.Some? && c.address(key.value) == c.address(q)
  }

  /** An error of an attempted id is kept even if a later id succeeds. */
  predicate AttemptFails(c: Curve, q: int, z: int, r: int, s: int)
    requires c.order > 1
  {
    || RecoverKey(c, z, r, s, 0).None?
    || (!AddressMatches(c, q, z, r, s, 0) && RecoverKey(c, z, r, s, 1).None?)
  }

  /** The least id whose key has the wallet's address, and 0 when neither has. */
  function RecoveryId(c: Curve, q: int, z: int, r: int, s: int): (id: nat)
    requires c.order > 1
  {
    if !AddressMatches(c, q, z, r, s, 0) && AddressMatches(c, q, z, r, s, 1) then 1 else 0
  }

  function Abs(v: int): nat {
    if v < 0 then -v else v
  }

  predicate SizeAccepted(v: Option<int>) {
    v.Some? && 0 < Abs(v.value) < Pow256(32)
  }

  // ---- Assembling the signature ----

  method GenerateSignature(c: Curve, r: Option<int>, s: Option<int>, q: int, z: int)
    returns (res: Result<seq<byte>, SignatureError>)
    requires c.order > 1
    ensures res == Err(SizeDenied) <==> !(SizeAccepted(r) && SizeAccepted(s))
    ensures SizeAccepted(r) && SizeAccepted(s) ==>
              (res == Err(RecoveryFailed) <==> AttemptFails(c, q, z, Abs(r.value), Abs(s.value)))
    ensures SizeAccepted(r) && SizeAccepted(s) && res == Err(NotVerified) ==>
              !Verifies(c, q, z, r.value, s.value)
    ensures res.Ok? ==>
              && Verifies(c, q, z, r.value, s.value)
              && |res.value| == 65
              && Decode(res.value[..32]) == r.value
              && Decode(res.value[32..64]) == s.value
              && res.value[64] as int == RecoveryId(c, q, z, r.value, s.value)
  {
    hide RecoverKey, Verifies, Decode;
    var rLen := SizeOf(r);
    var sLen := SizeOf(s);
    if rLen == 0 || rLen > 32 || sLen == 0 || sLen > 32 {
      return Err(SizeDenied);
    }
    var rAbs, sAbs := Abs(r.value), Abs(s.value);

    var sig := new byte[66](_ => 0);
    FillWindow(sig, 33 - rLen, 1, 33, rAbs);
    ghost var head := sig[1..33];
    FillWindow(sig, 65 - sLen, 33, 65, sAbs);
    assert sig[1..33] == head;

    ghost var filled := sig[..];
    assert filled[1..33] == sig[1..33] && filled[33..65] == sig[33..65] && filled[1..65] == sig[1..65];
    var failed := TryRecoveryIds(c, sig, q, z);
    SameWindows(sig[..], filled, sig[1..65]);
    if failed {
      return Err(RecoveryFailed);
    }
    var signature := sig[1..];
    assert signature[..32] == sig[1..33] && signature[32..64] == sig[33..65];
    if !Verifies(c, q, z, r.value, s.value) {
      return Err(NotVerified);
    }
    VerifiedIsPositive(c, q, z, r.value, s.value);
    return Ok(signature);
  }

  lemma VerifiedIsPositive(c: Curve, q: int, z: int, r: int, s: int)
    requires c.order > 1 && Verifies(c, q, z, r, s)
    ensures Abs(r) == r && Abs(s) == s
  {
  }

  /** The byte length of an optional number; absent counts as zero bytes. */
  method SizeOf(v: Option<int>) returns (len: nat)
    ensures 0 < len <= 32 <==> SizeAccepted(v)
    ensures v.Some? ==> Abs(v.value) < Pow256(len)
  {
    hide Pow256;
    len := 0;
    if v.Some? {
      len := ByteLen(Abs(v.value));
      ByteLenFits(Abs(v.value), 32);
      ByteLenFits(Abs(v.value), len);
      assert len == 0 <==> v.value == 0;
    }
  }

  /** The loop over the recovery ids: writes the header byte and, on a match, the trailing byte. */
  method TryRecoveryIds(c: Curve, sig: array<byte>, q: int, z: int) returns (failed: bool)
    requires c.order > 1
    requires sig.Length == 66 && sig[65] == 0
    modifies sig
    ensures sig[1..65] == old(sig[1..65])
    ensures var r, s := Decode(sig[1..33]), Decode(sig[33..65]);
            && failed == AttemptFails(c, q, z, r, s)
            && (!failed ==> sig[65] as int == RecoveryId(c, q, z, r, s))
  {
    hide RecoverKey, Decode;
    ghost var r, s := Decode(sig[1..33]), Decode(sig[33..65]);
    failed := false;
    var id := 0;
    while id < 2
      invariant 0 <= id <= 2
      invariant sig[1..65] == old(sig[1..65])
      invariant sig[65] == 0
      invariant failed <==> id > 0 && (RecoverKey(c, z, r, s, 0).None? || (id > 1 && RecoverKey(c, z, r, s, 1).None?))
      invariant id > 0 ==> !AddressMatches(c, q, z, r, s, 0)
      invariant id > 1 ==> !AddressMatches(c, q, z, r, s, 1)
    {
      sig[0] := (id + 27) as byte;
      var compact := sig[..65];
      SameWindows(compact, old(sig[..]), sig[1..65]);
      var key := RecoverCompact(c, compact, z);
      if key.None? {
        failed := true;
        id := id + 1;
        continue;
      }
      if c.address(key.value) == c.address(q) {
        sig[65] := id as byte;
        break;
      }
      id := id + 1;
    }
    SameWindows(sig[..], old(sig[..]), sig[1..65]);
  }

  lemma SameWindows(a: seq<byte>, b: seq<byte>, middle: seq<byte>)
    requires |a| >= 65 && |b| >= 65 && a[1..65] == middle == b[1..65]
    ensures a[1..33] == b[1..33] && a[33..65] == b[33..65]
  {
    assert a[1..33] == middle[..32] && a[33..65] == middle[32..];
    assert b[1..33] == middle[..32] && b[33..65] == middle[32..];
  }

  /** Fills the end of a window of zeros: the whole window then stands for the number. */
  method FillWindow(a: array<byte>, lo: nat, start: nat, hi: nat, v: nat)
    requires start <= lo <= hi <= a.Length && v < Pow256(hi - lo)
    requires forall i :: start <= i < lo ==> a[i] == 0
    modifies a
    ensures forall i :: 0 <= i < a.Length && !(start <= i < hi) ==> a[i] == old(a[i])
    ensures Decode(a[start..hi]) == v
  {
    ghost var before := a[..];
    FillBytes(a, lo, hi, v);
    assert forall i :: 0 <= i < lo ==> a[i] == a[..lo][i] == before[..lo][i];
    assert forall i :: hi <= i < a.Length ==> a[i] == a[hi..][i - hi] == before[hi..][i - hi];
    DecodeLeadingZero(a[start..hi], lo - start);
    assert a[start..hi][lo - start..] == a[lo..hi];
  }
}
