/**
 * The two number conversions the client cache uses on its expiration entry:
 * `Number#toString()` on an integral millisecond count and the global
 * `parseInt(s)` with no radix argument.
 */
module JsNumber {
  import opened Wrappers

  /** The value of `c` as a digit (letters count from 10), or -1. */
  function DigitValue(c: char): int
  {
    if '0' <= c <= '9' then c as int - '0' as int
    else if 'a' <= c <= 'z' then c as int - 'a' as int + 10
    else if 'A' <= c <= 'Z' then c as int - 'A' as int + 10
    else -1
  }

  predicate IsDigit(c: char, radix: int)
  {
    0 <= DigitValue(c) < radix
  }

  /** The decimal digit character for `d`. */
  function DigitChar(d: int): (c: char)
    requires 0 <= d <= 9
    ensures IsDigit(c, 10) && DigitValue(c) == d
  {
    ('0' as int + d) as char
  }

  /** The decimal digits of `n`, most significant first, with no leading zero. */
  function Digits(n: nat): string
    decreases n
  {
    if n < 10 then [DigitChar(n)] else Digits(n / 10) + [DigitChar(n % 10)]
  }

  /** `n.toString()` for an integral `n` (below 10^21 in magnitude, where no exponent is used). */
  function IntToString(n: int): (s: string)
    ensures |s| >= 1 && (s[0] == '-' <==> n < 0)
  {
    DigitsRoundTrip(if n < 0 then -n else n);
    if n < 0 then "-" + Digits(-n) else Digits(n)
  }

  /** The number written by the digit string `s` in base `radix`. */
  function ValueOf(s: string, radix: int): int
    decreases |s|
  {
    if s == [] then 0 else ValueOf(s[..|s| - 1], radix) * radix + DigitValue(s[|s| - 1])
  }

  /** The length of the longest prefix of `s` made of base-`radix` digits. */
  function DigitPrefix(s: string, radix: int): (k: nat)
    ensures k <= |s|
    ensures forall i :: 0 <= i < k ==> IsDigit(s[i], radix)
    ensures k < |s| ==> !IsDigit(s[k], radix)
    decreases |s|
  {
    if s != [] && IsDigit(s[0], radix) then 1 + DigitPrefix(s[1..], radix) else 0
  }

  /** ECMAScript's StrWhiteSpaceChar: WhiteSpace and LineTerminator characters. */
  predicate IsJsWhitespace(c: char)
  {
    || c in {'\t', '\n', '\U{000B}', '\U{000C}', '\r', ' ', '\U{00A0}', '\U{1680}'}
    || ('\U{2000}' <= c <= '\U{200A}')
    || c in {'\U{2028}', '\U{2029}', '\U{202F}', '\U{205F}', '\U{3000}', '\U{FEFF}'}
  }

  /** The number of leading whitespace characters of `s`. */
  function LeadingSpace(s: string): (k: nat)
    ensures k <= |s|
    decreases |s|
  {
    if s != [] && IsJsWhitespace(s[0]) then 1 + LeadingSpace(s[1..]) else 0
  }

  /**
   * The digits after the sign: an optional `0x`/`0X` selects base 16, then
   * the longest run of digits is read; `None` when that run is empty.
   */
  function Magnitude(u: string): Option<int>
  {
    var hex := |u| >= 2 && u[0] == '0' && (u[1] == 'x' || u[1] == 'X');
    var radix := if hex then 16 else 10;
    var body := if hex then u[2..] else u;
    var k := DigitPrefix(body, radix);
    if k == 0 then None else Some(ValueOf(body[..k], radix))
  }

  /**
   * `parseInt(s)`: skip leading whitespace, read an optional sign, then the
   * magnitude; `None` stands for `NaN`.
   */
  function ParseInt(s: string): (r: Option<int>)
    ensures r.Some? ==> exists i :: 0 <= i < |s| && IsDigit(s[i], 16)
  {
    var t := s[LeadingSpace(s)..];
    var negative := t != [] && t[0] == '-';
    var u := if t != [] && (t[0] == '-' || t[0] == '+') then t[1..] else t;
    match Magnitude(u)
    case None => None
    case Some(v) => Some(if negative then -v else v)
  }

  /** The digits of `n` are all decimal, start with a non-zero digit unless `n` is 0, and read back as `n`. */
  lemma {:induction false} DigitsRoundTrip(n: nat)
    ensures |Digits(n)| >= 1
    ensures forall i :: 0 <= i < |Digits(n)| ==> IsDigit(Digits(n)[i], 10)
    ensures Digits(n)[0] == '0' ==> n == 0
    ensures ValueOf(Digits(n), 10) == n
    decreases n
  {
    if n >= 10 {
      DigitsRoundTrip(n / 10);
      var d := Digits(n);
      assert d[..|d| - 1] == Digits(n / 10);
      assert d[0] == Digits(n / 10)[0];
    }
  }

  /** The decimal digits of `m` read back as `m`. */
  lemma MagnitudeOfDigits(m: nat)
    ensures Magnitude(Digits(m)) == Some(m)
  {
    var d := Digits(m);
    DigitsRoundTrip(m);
    assert !(|d| >= 2 && d[0] == '0');
    DigitPrefixAll(d, 10);
    assert d[..|d|] == d;
  }

  /** A string that starts with `'-'` or a digit has no leading whitespace. */
  lemma NoLeadingSpace(s: string)
    requires s != [] && (s[0] == '-' || IsDigit(s[0], 10))
    ensures LeadingSpace(s) == 0
  {
    assert !IsJsWhitespace(s[0]);
  }

  /** `parseInt` of the digits of `m` gives back `m`. */
  lemma ParseDigits(m: nat)
    ensures ParseInt(Digits(m)) == Some(m)
  {
    var d := Digits(m);
    DigitsRoundTrip(m);
    assert IsDigit(d[0], 10);
    NoLeadingSpace(d);
    assert d[LeadingSpace(d)..] == d;
    assert d[0] != '-' && d[0] != '+';
    MagnitudeOfDigits(m);
  }

  /** `parseInt` of `'-'` followed by the digits of `m` gives back `-m`. */
  lemma ParseSignedDigits(m: nat)
    ensures ParseInt("-" + Digits(m)) == Some(-(m as int))
  {
    var d := Digits(m);
    var s := "-" + d;
    assert s[0] == '-' && s[1..] == d;
    NoLeadingSpace(s);
    var t := s[LeadingSpace(s)..];
    assert t == s;
    MagnitudeOfDigits(m);
    assert Magnitude(t[1..]) == Some(m);
  }

  /** `parseInt(n.toString())` gives back `n`. */
  lemma ParseIntToString(n: int)
    ensures ParseInt(IntToString(n)) == Some(n)
  {
    if n < 0 {
      ParseSignedDigits(-n);
    } else {
      ParseDigits(n);
    }
  }

  /** A string made only of digits is its own digit prefix. */
  lemma {:induction false} DigitPrefixAll(s: string, radix: int)
    requires forall i :: 0 <= i < |s| ==> IsDigit(s[i], radix)
    ensures DigitPrefix(s, radix) == |s|
    decreases |s|
  {
    if s != [] {
      DigitPrefixAll(s[1..], radix);
    }
  }
}
