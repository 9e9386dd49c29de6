/**
 Decimal text of big integers, as produced by Go's `big.Int.String` and read back by
 `big.Int.SetString` in base 10. Wallet shares and x coordinates live in this text form.
 */
module Decimal {
  import opened Wrappers

  function DigitChar(d: int): (c: char)
    requires 0 <= d < 10
    ensures IsDigit(c) && DigitValue(c) == d
  {
    '0' + d as char
  }

  predicate IsDigit(c: char) {
    '0' <= c <= '9'
  }

  function DigitValue(c: char): int {
    c as int - '0' as int
  }

  predicate AllDigits(s: string) {
    forall i :: 0 <= i < |s| ==> IsDigit(s[i])
  }

  /** The value of a string of digits, read from the left. */
  function Value(s: string): int
    requires AllDigits(s)
  {
    if s == "" then 0 else 10 * Value(s[..|s| - 1]) + DigitValue(s[|s| - 1])
  }

  function PrintNat(n: nat): (s: string)
    ensures s != "" && AllDigits(s)
  {
    if n < 10 then [DigitChar(n)] else PrintNat(n / 10) + [DigitChar(n % 10)]
  }

  /** `big.Int.String`. */
  function Print(n: int): string {
    if n < 0 then "-" + PrintNat(-n) else PrintNat(n)
  }

  predicate HasSign(s: string) {
    s != "" && (s[0] == '-' || s[0] == '+')
  }

  function Unsigned(s: string): string {
    if HasSign(s) then s[1..] else s
  }

  /** `big.Int.SetString(s, 10)`: an optional sign, then one or more digits and nothing else. */
  function Parse(s: string): Option<int> {
    var digits := Unsigned(s);
    if digits == "" || !AllDigits(digits) then None
    else if HasSign(s) && s[0] == '-' then Some(-Value(digits))
    else Some(Value(digits))
  }

  /** The texts `String` can produce: no plus sign, no leading zero, no minus zero. */
  predicate Canonical(s: string) {
    var digits := if s != "" && s[0] == '-' then s[1..] else s;
    && digits != "" && AllDigits(digits)
    && (|digits| > 1 ==> digits[0] != '0')
    && (digits == "0" ==> s == "0")
  }

  lemma {:induction false} ValueOfPrint(n: nat)
    ensures Value(PrintNat(n)) == n
  {
    if n >= 10 {
      ValueOfPrint(n / 10);
      assert PrintNat(n)[..|PrintNat(n)| - 1] == PrintNat(n / 10);
    }
  }

  /** Printing has no leading zero, except for zero itself. */
  lemma {:induction false} PrintHasNoLeadingZero(n: nat)
    ensures PrintNat(n)[0] == '0' <==> n == 0
    ensures n == 0 ==> PrintNat(n) == "0"
  {
    if n >= 10 {
      PrintHasNoLeadingZero(n / 10);
      assert PrintNat(n)[0] == PrintNat(n / 10)[0];
    }
  }

  lemma {:induction false} PrintOfValue(s: string)
    requires s != "" && AllDigits(s) && (|s| > 1 ==> s[0] != '0')
    ensures Value(s) >= 0 && PrintNat(Value(s)) == s
    ensures s[0] != '0' ==> Value(s) > 0
  {
    var init, last := s[..|s| - 1], s[|s| - 1];
    if |s| == 1 {
      assert Value(init) == 0;
      assert s == [last];
    } else {
      PrintOfValue(init);
      assert s == init + [last];
      assert Value(s) / 10 == Value(init) && Value(s) % 10 == DigitValue(last);
    }
  }

  /** What is printed is read back unchanged, for every integer. */
  lemma ParsePrint(n: int)
    ensures Parse(Print(n)) == Some(n)
  {
    if n < 0 {
      assert Print(n)[1..] == PrintNat(-n);
      ValueOfPrint(-n);
    } else {
      ValueOfPrint(n);
    }
  }

  lemma PrintInjective(a: int, b: int)
    requires Print(a) == Print(b)
    ensures a == b
  {
    ParsePrint(a);
    ParsePrint(b);
  }

  lemma PrintIsCanonical(n: int)
    ensures Canonical(Print(n))
  {
    var m: nat := if n < 0 then -n else n;
    PrintHasNoLeadingZero(m);
    if n < 0 {
      assert Print(n)[1..] == PrintNat(m);
    }
  }

  /** A text that parses survives parse-then-print exactly when it is canonical. */
  lemma PrintParse(s: string)
    requires Parse(s).Some?
    ensures Print(Parse(s).value) == s <==> Canonical(s)
  {
    PrintIsCanonical(Parse(s).value);
    if Canonical(s) {
      if s[0] == '-' {
        PrintOfValue(s[1..]);
        assert s == "-" + s[1..];
      } else {
        PrintOfValue(s);
      }
    }
  }

  predicate IsNumeral(s: string) {
    s != "" && forall c :: c in s ==> '0' <= c <= '9'
  }

  /** A text parses exactly when it is an optional sign followed by one or more digits and nothing else. */
  lemma ParsesIff(s: string)
    ensures Parse(s).Some? <==> exists sign, digits :: s == sign + digits && sign in {"", "+", "-"} && IsNumeral(digits)
  {
    if Parse(s).Some? {
      var digits := Unsigned(s);
      var sign := if HasSign(s) then [s[0]] else "";
      assert s == sign + digits;
      assert IsNumeral(digits);
    }
    if sign, digits :| s == sign + digits && sign in {"", "+", "-"} && IsNumeral(digits) {
      SignedNumeral(sign, digits);
    }
  }

  lemma SignedNumeral(sign: string, digits: string)
    requires sign in {"", "+", "-"} && IsNumeral(digits)
    ensures Unsigned(sign + digits) == digits && AllDigits(digits)
    ensures Parse(sign + digits) == Some(if sign == "-" then -Value(digits) else Value(digits))
  {
    forall i | 0 <= i < |digits| ensures IsDigit(digits[i]) {
      assert digits[i] in digits;
    }
    if sign == "" {
      assert sign + digits == digits;
    } else {
      assert (sign + digits)[1..] == digits;
    }
  }

  lemma {:induction false} ValueOfLeadingZero(digits: string)
    requires AllDigits(digits)
    ensures AllDigits("0" + digits) && Value("0" + digits) == Value(digits)
  {
    if digits == "" {
      assert "0" + digits == "0" && "0"[..0] == "";
    } else {
      ValueOfLeadingZero(digits[..|digits| - 1]);
      assert ("0" + digits)[..|digits|] == "0" + digits[..|digits| - 1];
    }
  }

  /**
   Signs and leading zeros mean what they should: with `PrintParse`, which fixes the canonical texts, this
   fixes the value of every text.
   */
  lemma ParseIgnoresZeros(digits: string)
    requires IsNumeral(digits)
    ensures Parse("0" + digits) == Parse(digits) && Parse("+" + digits) == Parse(digits)
    ensures Parse(digits).Some? && Parse("-" + digits) == Some(-Parse(digits).value)
  {
    SignedNumeral("", digits);
    SignedNumeral("+", digits);
    SignedNumeral("-", digits);
    ValueOfLeadingZero(digits);
    assert "" + digits == digits && IsNumeral("0" + digits);
    SignedNumeral("", "0" + digits);
    assert "" + ("0" + digits) == "0" + digits;
  }
}
