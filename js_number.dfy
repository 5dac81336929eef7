/** JavaScript's unary `+` applied to a string field of a bill record
    (ECMAScript StringToNumber), restricted to the integer values the model
    represents. */
module JsNumber {
  import opened Wrappers

  /** A JavaScript number as the model sees it: an integer, or `None` for NaN. */
  type Num = Option<int>

  /** ECMAScript WhiteSpace and LineTerminator code points, which StringToNumber
      strips from both ends of its argument. */
  predicate IsWhiteSpace(c: char) {
    || c == '\t' || c == '\n' || c == '\U{B}' || c == '\U{C}' || c == '\r'
    || c == ' ' || c == '\U{A0}' || c == '\U{1680}'
    || ('\U{2000}' <= c <= '\U{200A}')
    || c == '\U{2028}' || c == '\U{2029}' || c == '\U{202F}' || c == '\U{205F}'
    || c == '\U{3000}' || c == '\U{FEFF}'
  }

  predicate IsDigit(c: char) {
    '0' <= c <= '9'
  }

  predicate AllDigits(s: string) {
    forall i :: 0 <= i < |s| ==> IsDigit(s[i])
  }

  function TrimStart(s: string): (r: string)
    ensures |r| <= |s| && r == s[|s| - |r|..]
    ensures r == [] || !IsWhiteSpace(r[0])
    ensures forall i :: 0 <= i < |s| - |r| ==> IsWhiteSpace(s[i])
  {
    if s != [] && IsWhiteSpace(s[0]) then TrimStart(s[1..]) else s
  }

  function TrimEnd(s: string): (r: string)
    ensures |r| <= |s| && r == s[..|r|]
    ensures r == [] || !IsWhiteSpace(r[|r| - 1])
    ensures forall i :: |r| <= i < |s| ==> IsWhiteSpace(s[i])
  {
    if s != [] && IsWhiteSpace(s[|s| - 1]) then TrimEnd(s[..|s| - 1]) else s
  }

  function Trim(s: string): string {
    TrimEnd(TrimStart(s))
  }

  /** The value of a non-empty run of decimal digits, read left to right. */
  function DigitsValue(s: string): nat
    requires AllDigits(s)
  {
    if s == [] then 0
    else DigitsValue(s[..|s| - 1]) * 10 + (s[|s| - 1] as int - '0' as int)
  }

  /** `+s`: surrounding white space is ignored, an empty (or all white space)
      string is 0, an optionally signed run of decimal digits is its value,
      and everything else is NaN. */
  function ToNumber(s: string): (r: Num)
    ensures Trim(s) == [] ==> r == Some(0)
  {
    var t := Trim(s);
    if t == [] then Some(0)
    else if (t[0] == '-' || t[0] == '+') && |t| > 1 && AllDigits(t[1..]) then
      var magnitude: int := DigitsValue(t[1..]);
      Some(if t[0] == '-' then -magnitude else magnitude)
    else if AllDigits(t) then Some(DigitsValue(t))
    else None
  }

  /** The decimal digits of a natural number, most significant first. */
  function NatDigits(n: nat): (s: string)
    ensures |s| > 0 && AllDigits(s)
  {
    if n < 10 then [('0' as int + n) as char]
    else NatDigits(n / 10) + [('0' as int + n % 10) as char]
  }

  /** The plain decimal text of an integer: an optional `-` and its digits,
      with no leading zero. */
  function Decimal(n: int): (s: string)
    ensures |s| > 0
  {
    if n < 0 then "-" + NatDigits(-n) else NatDigits(n)
  }

  lemma {:induction false} DigitsRoundTrip(n: nat)
    ensures DigitsValue(NatDigits(n)) == n
  {
    if n >= 10 {
      var s := NatDigits(n / 10);
      var d := ('0' as int + n % 10) as char;
      assert NatDigits(n) == s + [d];
      assert (s + [d])[..|s|] == s;
      DigitsRoundTrip(n / 10);
    }
  }

  /** Coercing the decimal text of an integer gives that integer back. */
  lemma NumberRoundTrip(n: int)
    ensures ToNumber(Decimal(n)) == Some(n)
  {
    var s := Decimal(n);
    var digits := NatDigits(if n < 0 then -n else n);
    assert IsDigit(s[|s| - 1]) by { assert s[|s| - 1] == digits[|digits| - 1]; }
    assert Trim(s) == s by {
      assert !IsWhiteSpace(s[0]);
      assert TrimStart(s) == s;
      assert !IsWhiteSpace(s[|s| - 1]);
    }
    DigitsRoundTrip(if n < 0 then -n else n);
    if n < 0 {
      assert s[1..] == digits;
    } else {
      assert s == digits;
    }
  }

  /** The characters, besides digits and white space, that can occur in a
      string JavaScript coerces to a number: signs, the decimal point, the
      exponent marker, the radix prefixes `0x`/`0o`/`0b` with the hexadecimal
      digits, and the letters of `Infinity`. */
  predicate InNumeral(c: char) {
    || c == '+' || c == '-' || c == '.'
    || c == 'e' || c == 'E' || c == 'x' || c == 'X' || c == 'o' || c == 'O'
    || ('a' <= c <= 'f') || ('A' <= c <= 'F')
    || c == 'I' || c == 'n' || c == 'i' || c == 't' || c == 'y'
  }

  /** A character that is not white space survives trimming. */
  lemma TrimKeeps(s: string, k: int) returns (c: int)
    requires 0 <= k < |s| && !IsWhiteSpace(s[k])
    ensures 0 <= c < |Trim(s)| && Trim(s)[c] == s[k]
  {
    var u := TrimStart(s);
    var start := |s| - |u|;
    assert start <= k;
    c := k - start;
    assert u[c] == s[k];
    assert c < |TrimEnd(u)|;
  }

  /** A field holding a character that occurs in no JavaScript numeral
      (other than a digit, white space or a numeral's own letters and marks)
      coerces to NaN. */
  lemma NonNumericIsNaN(s: string, k: int)
    requires 0 <= k < |s|
    requires !IsDigit(s[k]) && !IsWhiteSpace(s[k]) && !InNumeral(s[k])
    ensures ToNumber(s) == None
  {
    var c := TrimKeeps(s, k);
    var t := Trim(s);
    assert !IsDigit(t[c]);
    if t[0] == '-' || t[0] == '+' {
      assert 0 < c;
      assert t[1..][c - 1] == t[c];
      assert !AllDigits(t[1..]);
    } else {
      assert !AllDigits(t);
    }
  }
}
