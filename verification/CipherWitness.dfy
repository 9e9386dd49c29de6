/**
 A cipher that meets `Cipher.Valid`: keys travel as hexadecimal text as in the program, and sealing
 writes the record out as bytes without a secret. What the wallet theorems assume of JSON, AES-GCM and
 hex can therefore be met.
 */
module CipherWitness {
  import opened Bytes
  import opened Decimal
  import opened Vaults
  import opened Wallets
  import opened Wrappers

  // ---- Keys as hexadecimal text ----

  function HexDigit(n: nat): char
    requires n < 16
  {
    if n < 10 then '0' + n as char else 'a' + (n - 10) as char
  }

  /** Both cases are read, as `hex.DecodeString` does. */
  function HexValue(c: char): (v: Option<nat>)
    ensures v.Some? ==> v.value < 16
  {
    if '0' <= c <= '9' then Some(c as int - '0' as int)
    else if 'a' <= c <= 'f' then Some(c as int - 'a' as int + 10)
    else if 'A' <= c <= 'F' then Some(c as int - 'A' as int + 10)
    else None
  }

  function HexByte(hi: nat, lo: nat): byte
    requires hi < 16 && lo < 16
  {
    (16 * hi + lo) as byte
  }

  function HexEncode(bs: seq<byte>): string {
    if bs == [] then ""
    else [HexDigit(bs[0] as int / 16), HexDigit(bs[0] as int % 16)] + HexEncode(bs[1..])
  }

  function HexDecode(s: string): Option<seq<byte>> {
    if s == "" then Some([])
    else if |s| == 1 || HexValue(s[0]).None? || HexValue(s[1]).None? || HexDecode(s[2..]).None? then None
    else Some([HexByte(HexValue(s[0]).value, HexValue(s[1]).value)] + HexDecode(s[2..]).value)
  }

  lemma HexDigitRoundTrip(n: nat)
    requires n < 16
    ensures HexValue(HexDigit(n)) == Some(n)
  {
  }

  lemma HexByteSplits(b: byte)
    ensures HexByte(b as int / 16, b as int % 16) == b
  {
  }

  lemma HexDecodePair(hi: nat, lo: nat, rest: string)
    requires hi < 16 && lo < 16 && HexDecode(rest).Some?
    ensures HexDecode([HexDigit(hi), HexDigit(lo)] + rest) == Some([HexByte(hi, lo)] + HexDecode(rest).value)
  {
    hide HexDigit, HexValue, HexByte;
    HexDigitRoundTrip(hi);
    HexDigitRoundTrip(lo);
    assert ([HexDigit(hi), HexDigit(lo)] + rest)[2..] == rest;
  }

  lemma {:induction false} HexRoundTrip(bs: seq<byte>)
    ensures HexDecode(HexEncode(bs)) == Some(bs)
  {
    hide HexDigit, HexDecode, HexByte;
    if bs == [] {
      NothingDecoded();
    } else {
      HexRoundTrip(bs[1..]);
      HexByteSplits(bs[0]);
      HexDecodePair(bs[0] as int / 16, bs[0] as int % 16, HexEncode(bs[1..]));
      assert bs == [bs[0]] + bs[1..];
    }
  }

  lemma NothingDecoded()
    ensures HexDecode("") == Some([])
  {
  }

  // ---- Records as bytes ----

  function Ones(n: nat): seq<byte> {
    if n == 0 then [0] else [1] + Ones(n - 1)
  }

  /** Each character in unary, the end marked by a byte of its own. */
  function TextBytes(s: string): (bs: seq<byte>)
    ensures bs != []
  {
    if s == "" then [2] else Ones(s[0] as int) + TextBytes(s[1..])
  }

  function TextsBytes(ts: seq<string>): seq<byte> {
    if ts == [] then [] else TextBytes(ts[0]) + TextsBytes(ts[1..])
  }

  lemma {:induction false} OnesSplit(m: nat, n: nat, a: seq<byte>, b: seq<byte>)
    requires Ones(m) + a == Ones(n) + b
    ensures m == n && a == b
  {
    assert (Ones(m) + a)[0] == Ones(m)[0] && (Ones(n) + b)[0] == Ones(n)[0];
    if m == 0 || n == 0 {
      assert a == (Ones(m) + a)[1..] && b == (Ones(n) + b)[1..];
    } else {
      assert (Ones(m) + a)[1..] == Ones(m - 1) + a && (Ones(n) + b)[1..] == Ones(n - 1) + b;
      OnesSplit(m - 1, n - 1, a, b);
    }
  }

  lemma OnesStart(n: nat)
    ensures Ones(n) != [] && Ones(n)[0] != 2
  {
  }

  lemma {:induction false} TextSplit(s: string, t: string, a: seq<byte>, b: seq<byte>)
    requires TextBytes(s) + a == TextBytes(t) + b
    ensures s == t && a == b
  {
    assert (TextBytes(s) + a)[0] == TextBytes(s)[0] && (TextBytes(t) + b)[0] == TextBytes(t)[0];
    if s != "" {
      OnesStart(s[0] as int);
    }
    if t != "" {
      OnesStart(t[0] as int);
    }
    if s == "" || t == "" {
      assert a == (TextBytes(s) + a)[1..] && b == (TextBytes(t) + b)[1..];
    } else {
      assert TextBytes(s) + a == Ones(s[0] as int) + (TextBytes(s[1..]) + a);
      assert TextBytes(t) + b == Ones(t[0] as int) + (TextBytes(t[1..]) + b);
      OnesSplit(s[0] as int, t[0] as int, TextBytes(s[1..]) + a, TextBytes(t[1..]) + b);
      TextSplit(s[1..], t[1..], a, b);
      assert s == [s[0]] + s[1..] && t == [t[0]] + t[1..];
    }
  }

  lemma {:induction false} TextsInjective(p: seq<string>, q: seq<string>)
    requires TextsBytes(p) == TextsBytes(q)
    ensures p == q
  {
    if p != [] && q != [] {
      TextSplit(p[0], q[0], TextsBytes(p[1..]), TextsBytes(q[1..]));
      TextsInjective(p[1..], q[1..]);
      assert p == [p[0]] + p[1..] && q == [q[0]] + q[1..];
    }
  }

  // ---- The map of a record as a list of texts ----

  ghost function Entries(bks: map<string, BK>): seq<string> {
    if bks == map[] then []
    else
      var id :| id in bks;
      [id, bks[id].x, Print(bks[id].rank)] + Entries(bks - {id})
  }

  lemma {:induction false} EntriesInjective(a: map<string, BK>, b: map<string, BK>)
    requires Entries(a) == Entries(b)
    ensures a == b
  {
    if a != map[] && b != map[] {
      var i :| i in a && Entries(a) == [i, a[i].x, Print(a[i].rank)] + Entries(a - {i});
      var j :| j in b && Entries(b) == [j, b[j].x, Print(b[j].rank)] + Entries(b - {j});
      assert Entries(a)[0] == i && Entries(b)[0] == j;
      assert Entries(a)[1] == a[i].x && Entries(b)[1] == b[j].x;
      assert Entries(a)[2] == Print(a[i].rank) && Entries(b)[2] == Print(b[j].rank);
      PrintInjective(a[i].rank, b[j].rank);
      assert Entries(a)[3..] == Entries(a - {i}) && Entries(b)[3..] == Entries(b - {j});
      EntriesInjective(a - {i}, b - {j});
      assert a == (a - {i})[i := a[i]] && b == (b - {j})[j := b[j]];
    }
  }

  ghost function Texts(w: DkgResult): seq<string> {
    [w.pubkey.x, w.pubkey.y, w.share, w.address, w.peerId] + Entries(w.bks)
  }

  lemma RecordInjective(v: DkgResult, w: DkgResult)
    requires TextsBytes(Texts(v)) == TextsBytes(Texts(w))
    ensures v == w
  {
    TextsInjective(Texts(v), Texts(w));
    assert forall i | 0 <= i < 5 :: Texts(v)[i] == Texts(w)[i];
    assert Texts(v)[5..] == Entries(v.bks) && Texts(w)[5..] == Entries(w.bks);
    EntriesInjective(v.bks, w.bks);
  }

  // ---- The cipher ----

  ghost function Seal(key: seq<byte>, nonce: Nonce, w: DkgResult): Option<seq<byte>> {
    if AesKey(key) then Some(TextsBytes(Texts(w))) else None
  }

  ghost function Open(key: seq<byte>, nonce: Nonce, sealed: seq<byte>): Option<DkgResult> {
    if AesKey(key) && exists w :: TextsBytes(Texts(w)) == sealed then
      var w :| TextsBytes(Texts(w)) == sealed;
      Some(w)
    else None
  }

  ghost function PlainCipher(): Cipher {
    Cipher(HexEncode, HexDecode, Seal, Open)
  }

  lemma PlainCipherIsValid()
    ensures PlainCipher().Valid()
  {
    forall key ensures HexDecode(HexEncode(key)) == Some(key) {
      HexRoundTrip(key);
    }
    forall key, nonce, w | AesKey(key) ensures Open(key, nonce, Seal(key, nonce, w).value) == Some(w) {
      OpenSealed(key, nonce, w);
    }
  }

  lemma OpenSealed(key: seq<byte>, nonce: Nonce, w: DkgResult)
    requires AesKey(key)
    ensures Open(key, nonce, Seal(key, nonce, w).value) == Some(w)
  {
    var v := Open(key, nonce, Seal(key, nonce, w).value).value;
    RecordInjective(v, w);
  }
}
