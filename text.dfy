/** The few JavaScript string facilities the portal leans on, written out:
    `String.prototype.trim`, decimal digits, `Number.prototype.toString` on
    non-negative integers, and the syntax test behind `isNaN(Number(s))`
    (ECMAScript's StringToNumber: optional white space around a
    StrNumericLiteral, where an all-white-space string reads as 0). */
module JsText {

  /** ECMAScript WhiteSpace and LineTerminator code points: the characters
      `trim()` removes and `Number()` ignores around a literal. */
  predicate IsJsWhiteSpace(c: char) {
    var k := c as int;
    k == 0x09 || k == 0x0A || k == 0x0B || k == 0x0C || k == 0x0D
    || k == 0x20 || k == 0xA0 || k == 0x1680 || (0x2000 <= k <= 0x200A)
    || k == 0x2028 || k == 0x2029 || k == 0x202F || k == 0x205F
    || k == 0x3000 || k == 0xFEFF
  }

  predicate AllWhiteSpace(s: string) {
    forall i :: 0 <= i < |s| ==> IsJsWhiteSpace(s[i])
  }

  /** Drops leading white space; the result is a suffix of `s` that starts
      with a non-white-space character, or is empty. */
  function TrimStart(s: string): (r: string)
    ensures |r| <= |s| && r == s[|s| - |r|..]
    ensures r != [] ==> !IsJsWhiteSpace(r[0])
    ensures AllWhiteSpace(s[..|s| - |r|])
  {
    if s != [] && IsJsWhiteSpace(s[0]) then
      var r := TrimStart(s[1..]);
      var k := |s| - |r|;
      assert s[1..][k - 1..] == s[k..];
      assert s[..k] == [s[0]] + s[1..][..k - 1];
      r
    else s
  }

  /** Drops trailing white space; the result is a prefix of `s` that ends
      with a non-white-space character, or is empty. */
  function TrimEnd(s: string): (r: string)
    ensures |r| <= |s| && r == s[..|r|]
    ensures r != [] ==> !IsJsWhiteSpace(r[|r| - 1])
    ensures AllWhiteSpace(s[|r|..])
  {
    if s != [] && IsJsWhiteSpace(s[|s| - 1]) then
      var r := TrimEnd(s[..|s| - 1]);
      assert s[..|s| - 1][..|r|] == s[..|r|];
      assert s[|r|..] == s[..|s| - 1][|r|..] + [s[|s| - 1]];
      r
    else s
  }

  /** `r` sits in `s` at offset `k`, and only white space lies before and
      after it. */
  predicate SliceBetweenWhiteSpace(s: string, r: string, k: int) {
    0 <= k <= |s| - |r| && r == s[k..k + |r|]
    && AllWhiteSpace(s[..k]) && AllWhiteSpace(s[k + |r|..])
  }

  /** `s.trim()`: the slice of `s` left once the white space at both ends
      is dropped; it neither starts nor ends with white space. */
  function Trim(s: string): (r: string)
    ensures |r| <= |s|
    ensures exists k :: SliceBetweenWhiteSpace(s, r, k)
    ensures r != [] ==> !IsJsWhiteSpace(r[0]) && !IsJsWhiteSpace(r[|r| - 1])
  {
    TrimIsSlice(s);
    TrimEnd(TrimStart(s))
  }

  /** The witness for `Trim`: the leading white space `TrimStart` drops. */
  lemma TrimIsSlice(s: string)
    ensures SliceBetweenWhiteSpace(s, TrimEnd(TrimStart(s)), |s| - |TrimStart(s)|)
  {
    var t := TrimStart(s);
    PrefixOfSuffix(s, t, TrimEnd(t), |s| - |t|);
  }

  /** A prefix `r` of the suffix `t == s[k..]`, with white space before `t`
      and after `r`, lies between white space in `s`. */
  lemma PrefixOfSuffix(s: string, t: string, r: string, k: int)
    requires 0 <= k <= |s| && t == s[k..] && AllWhiteSpace(s[..k])
    requires |r| <= |t| && r == t[..|r|] && AllWhiteSpace(t[|r|..])
    ensures SliceBetweenWhiteSpace(s, r, k)
  {
    assert r == s[k..k + |r|];
    assert s[k + |r|..] == t[|r|..];
  }

  /** `s.trim()` is the empty string (falsy) exactly when every character of
      `s` is white space. */
  lemma TrimEmptyIff(s: string)
    ensures Trim(s) == [] <==> AllWhiteSpace(s)
  {
    var t := TrimStart(s);
    if Trim(s) == [] {
      assert t == [] by { assert t == t[0..]; }
      assert s == s[..|s|];
    } else {
      assert t != [] && t[0] == s[|s| - |t|];
    }
  }

  // ---------------------------------------------------------------------
  // Decimal digits and the decimal rendering of non-negative integers

  predicate IsDigit(c: char) { '0' <= c <= '9' }

  predicate AllDigits(s: string) {
    forall i :: 0 <= i < |s| ==> IsDigit(s[i])
  }

  function DigitChar(d: nat): (c: char)
    requires d < 10
    ensures IsDigit(c) && c as int - '0' as int == d
  {
    ('0' as int + d) as char
  }

  function DigitValue(c: char): (d: nat)
    requires IsDigit(c)
    ensures d < 10
  {
    c as int - '0' as int
  }

  /** `n.toString()` for a non-negative integer below 10^21: its digits,
      most significant first, with no leading zero. */
  function DecimalString(n: nat): (s: string)
    ensures |s| >= 1 && AllDigits(s)
    ensures s[0] == '0' <==> n == 0
  {
    if n < 10 then [DigitChar(n)]
    else DecimalString(n / 10) + [DigitChar(n % 10)]
  }

  /** The value of a string of decimal digits. */
  function DecimalValue(s: string): (v: nat)
    requires AllDigits(s)
  {
    if s == [] then 0
    else DecimalValue(s[..|s| - 1]) * 10 + DigitValue(s[|s| - 1])
  }

  /** Reading back the decimal rendering of `n` gives `n`. */
  lemma {:induction false} DecimalRoundTrip(n: nat)
    ensures DecimalValue(DecimalString(n)) == n
  {
    var s := DecimalString(n);
    if n < 10 {
      assert s[..|s| - 1] == [];
    } else {
      var p := DecimalString(n / 10);
      assert s[..|s| - 1] == p;
      DecimalRoundTrip(n / 10);
    }
  }

  /** Different integers render as different strings. */
  lemma DecimalStringInjective(a: nat, b: nat)
    ensures DecimalString(a) == DecimalString(b) ==> a == b
  {
    DecimalRoundTrip(a);
    DecimalRoundTrip(b);
  }

  /** Every integer in [1000, 9999] renders as exactly four digits, the first
      of them non-zero. */
  lemma FourDigitRendering(n: nat)
    requires 1000 <= n <= 9999
    ensures |DecimalString(n)| == 4 && AllDigits(DecimalString(n)) && DecimalString(n)[0] != '0'
  {
    assert 100 <= n / 10 <= 999;
    assert 10 <= n / 10 / 10 <= 99;
    assert 1 <= n / 10 / 10 / 10 <= 9;
    assert |DecimalString(n / 10 / 10)| == 2;
    assert |DecimalString(n / 10)| == 3;
  }

  // ---------------------------------------------------------------------
  // The syntax of a StringNumericLiteral (ECMA-262, section 7.1.4.1.1)

  /** Length of the longest prefix of `s` made of decimal digits. */
  function DigitPrefix(s: string): (n: nat)
    ensures n <= |s| && AllDigits(s[..n])
    ensures n < |s| ==> !IsDigit(s[n])
  {
    if s != [] && IsDigit(s[0]) then
      var n := 1 + DigitPrefix(s[1..]);
      assert s[..n] == [s[0]] + s[1..][..n - 1];
      n
    else 0
  }

  /** DecimalDigits: one or more decimal digits. */
  predicate IsDecimalDigits(s: string) {
    s != [] && AllDigits(s)
  }

  /** SignedInteger: an optional sign, then digits. */
  predicate IsSignedInteger(s: string) {
    if s != [] && (s[0] == '+' || s[0] == '-') then IsDecimalDigits(s[1..])
    else IsDecimalDigits(s)
  }

  /** An optional ExponentPart: empty, or `e`/`E` then a SignedInteger. */
  predicate IsOptExponent(s: string) {
    s == [] || ((s[0] == 'e' || s[0] == 'E') && IsSignedInteger(s[1..]))
  }

  /** StrUnsignedDecimalLiteral: `Infinity`, `d.d?e?`, `.de?` or `de?`. */
  predicate IsUnsignedDecimal(s: string) {
    if s == "Infinity" then true
    else
      var n := DigitPrefix(s);
      var rest := s[n..];
      if rest != [] && rest[0] == '.' then
        var frac := rest[1..];
        var m := DigitPrefix(frac);
        (n > 0 || m > 0) && IsOptExponent(frac[m..])
      else
        n > 0 && IsOptExponent(rest)
  }

  /** StrDecimalLiteral: an optional sign, then a StrUnsignedDecimalLiteral. */
  predicate IsStrDecimal(s: string) {
    if s != [] && (s[0] == '+' || s[0] == '-') then IsUnsignedDecimal(s[1..])
    else IsUnsignedDecimal(s)
  }

  predicate IsHexDigit(c: char) {
    IsDigit(c) || 'a' <= c <= 'f' || 'A' <= c <= 'F'
  }

  /** The base a NonDecimalIntegerLiteral's second character announces:
      `x`, `o` or `b` in either case; 0 for any other character. */
  function RadixOf(c: char): (radix: nat)
    ensures radix in {0, 2, 8, 16}
    ensures radix == 16 <==> c == 'x' || c == 'X'
  {
    if c == 'x' || c == 'X' then 16
    else if c == 'o' || c == 'O' then 8
    else if c == 'b' || c == 'B' then 2
    else 0
  }

  predicate IsRadixDigit(c: char, radix: nat) {
    if radix == 16 then IsHexDigit(c)
    else if radix == 8 then '0' <= c <= '7'
    else c == '0' || c == '1'
  }

  /** NonDecimalIntegerLiteral: `0x`, `0o` or `0b` (either case) and at least
      one digit of that base; no sign is allowed before it. */
  predicate IsNonDecimalInteger(s: string) {
    |s| >= 3 && s[0] == '0' && RadixOf(s[1]) != 0 &&
    forall i :: 2 <= i < |s| ==> IsRadixDigit(s[i], RadixOf(s[1]))
  }

  /** `isNaN(Number(s))`: after trimming, `s` is neither empty (which reads
      as 0) nor a StrNumericLiteral. */
  predicate NumberIsNaN(s: string) {
    var t := Trim(s);
    t != [] && !IsStrDecimal(t) && !IsNonDecimalInteger(t)
  }

  /** A string of decimal digits is a number to JavaScript. */
  lemma DigitsAreNumeric(s: string)
    requires AllDigits(s)
    ensures !NumberIsNaN(s)
  {
    if s != [] {
      assert !IsJsWhiteSpace(s[0]);
      assert TrimStart(s) == s;
      assert !IsJsWhiteSpace(s[|s| - 1]);
      assert TrimEnd(s) == s;
      assert DigitPrefix(s) == |s|;
      assert s[|s|..] == [];
    }
  }

  // ---------------------------------------------------------------------
  // Facts used to evaluate the guard on particular strings

  /** Nothing to trim when neither end is white space; trailing white space
      after such a core is trimmed away. */
  lemma TrimPadded(core: string, pad: string)
    requires core != [] && !IsJsWhiteSpace(core[0]) && !IsJsWhiteSpace(core[|core| - 1])
    requires AllWhiteSpace(pad)
    ensures Trim(core + pad) == core
  {
    var s := core + pad;
    assert TrimStart(s) == s;
    TrimEndPad(core, pad);
  }

  lemma NoPadding(s: string)
    requires s != [] && !IsJsWhiteSpace(s[0]) && !IsJsWhiteSpace(s[|s| - 1])
    ensures Trim(s) == s
  {
    TrimPadded(s, []);
    assert s + [] == s;
  }

  lemma {:induction false} TrimEndPad(core: string, pad: string)
    requires core != [] && !IsJsWhiteSpace(core[|core| - 1])
    requires AllWhiteSpace(pad)
    ensures TrimEnd(core + pad) == core
    decreases |pad|
  {
    var s := core + pad;
    if pad == [] {
      assert s == core;
    } else {
      var p := pad[..|pad| - 1];
      assert s[..|s| - 1] == core + p;
      TrimEndPad(core, p);
    }
  }

  /** A digit run stops at the first non-digit. */
  lemma {:induction false} DigitPrefixConcat(digits: string, rest: string)
    requires AllDigits(digits)
    requires rest == [] || !IsDigit(rest[0])
    ensures DigitPrefix(digits + rest) == |digits|
  {
    if digits != [] {
      assert (digits + rest)[1..] == digits[1..] + rest;
      DigitPrefixConcat(digits[1..], rest);
    }
  }

  /** An exponent part: `e` and digits. */
  lemma ExponentForm(exponent: string)
    requires IsDecimalDigits(exponent)
    ensures IsOptExponent("e" + exponent)
  {
    var t := "e" + exponent;
    assert t[0] == 'e' && t[1..] == exponent;
    assert IsSignedInteger(exponent);
  }

  /** Digits, optionally followed by an exponent part, are a decimal literal
      without sign. */
  lemma UnsignedForm(mantissa: string, tail: string)
    requires IsDecimalDigits(mantissa)
    requires tail == [] || (tail[0] == 'e' && IsOptExponent(tail))
    ensures IsUnsignedDecimal(mantissa + tail)
  {
    var u := mantissa + tail;
    DigitPrefixConcat(mantissa, tail);
    assert u[|mantissa|..] == tail;
    assert u != "Infinity" by { assert IsDigit(u[0]); }
  }

  /** A sign before a decimal literal without sign keeps it a literal. */
  lemma SignedForm(sign: char, u: string)
    requires sign == '+' || sign == '-'
    requires IsUnsignedDecimal(u)
    ensures IsStrDecimal([sign] + u)
  {
    assert ([sign] + u)[1..] == u;
  }
}
