/**
 * The global function `parseInt(string, radix)` of ECMAScript (ECMA-262, section 19.2.5),
 * called with the radix left out, which is how the metadata editor turns the text of the
 * count field into a number. Its result is NaN when no digits can be read.
 */
module JsNumber {
  import opened Wrappers
  import opened JsString

  /** The Number values `parseInt` yields here: NaN, or an integer. */
  datatype Number = NaN | Int(value: int)

  /** Value of a digit in radices up to 36: '0'..'9' are 0..9, letters of either case are 10..35. */
  function DigitValue(c: char): (d: Option<nat>)
    ensures d.Some? ==> d.value < 36
  {
    if '0' <= c <= '9' then Some(c as int - '0' as int)
    else if 'a' <= c <= 'z' then Some(c as int - 'a' as int + 10)
    else if 'A' <= c <= 'Z' then Some(c as int - 'A' as int + 10)
    else None
  }

  predicate IsRadixDigit(c: char, radix: nat)
  {
    DigitValue(c).Some? && DigitValue(c).value < radix
  }

  predicate AllRadixDigits(s: string, radix: nat)
  {
    forall i :: 0 <= i < |s| ==> IsRadixDigit(s[i], radix)
  }

  /** The longest prefix of `s` made only of radix-`radix` digits. */
  function DigitPrefix(s: string, radix: nat): (z: string)
    ensures z <= s && AllRadixDigits(z, radix)
    ensures |z| < |s| ==> !IsRadixDigit(s[|z|], radix)
  {
    if s != [] && IsRadixDigit(s[0], radix) then [s[0]] + DigitPrefix(s[1..], radix) else []
  }

  /** The mathematical value of a digit string, most significant digit first. */
  function DigitsValue(z: string, radix: nat): nat
    requires AllRadixDigits(z, radix)
  {
    if z == [] then 0 else DigitsValue(z[..|z| - 1], radix) * radix + DigitValue(z[|z| - 1]).value
  }

  /** -1 when the text starts with a minus sign, 1 otherwise. */
  function SignOf(s: string): int
  {
    if s != [] && s[0] == '-' then -1 else 1
  }

  /** The text with one leading '+' or '-' removed. */
  function StripSign(s: string): string
  {
    if s != [] && (s[0] == '+' || s[0] == '-') then s[1..] else s
  }

  /** "0x" or "0X": with no radix given, such text is read in radix 16. */
  predicate HasHexPrefix(s: string)
  {
    |s| >= 2 && s[0] == '0' && (s[1] == 'x' || s[1] == 'X')
  }

  /** The magnitude read from text that starts after the sign: NaN when no digit can be read. */
  function ReadMagnitude(unsigned: string): Option<nat>
  {
    var radix := if HasHexPrefix(unsigned) then 16 else 10;
    var body := if HasHexPrefix(unsigned) then unsigned[2..] else unsigned;
    var z := DigitPrefix(body, radix);
    if z == [] then None else Some(DigitsValue(z, radix))
  }

  /**
   * `parseInt(input)`: skip leading white space, take an optional sign, read in radix 16
   * after a "0x"/"0X" prefix and in radix 10 otherwise, and stop at the first character that
   * is not a digit of that radix. No digit at all gives NaN. A number is read only when a
   * decimal digit comes right after the white space and the optional sign, and it is negative
   * only after a '-'.
   */
  function ParseInt(input: string): (r: Number)
    ensures r.Int? ==> StripSign(TrimStart(input)) != [] && IsRadixDigit(StripSign(TrimStart(input))[0], 10)
    ensures r.Int? && r.value < 0 ==> TrimStart(input) != [] && TrimStart(input)[0] == '-'
  {
    var s := TrimStart(input);
    match ReadMagnitude(StripSign(s))
    case None => NaN
    case Some(m) => Int(SignOf(s) * m)
  }

  function DigitChar(d: nat): (c: char)
    requires d < 10
    ensures DigitValue(c) == Some(d)
  {
    ('0' as int + d) as char
  }

  /** The decimal numeral of `n` without leading zeros, as a number input holds it. */
  function DecimalString(n: nat): (s: string)
    ensures |s| >= 1 && AllRadixDigits(s, 10)
    ensures s[0] == '0' ==> n == 0
    ensures DigitsValue(s, 10) == n
    decreases n
  {
    if n < 10 then [DigitChar(n)]
    else
      var prefix := DecimalString(n / 10);
      var s := prefix + [DigitChar(n % 10)];
      assert s[..|s| - 1] == prefix;
      s
  }

  /** Leading white space is skipped up to the first other character. */
  lemma {:induction false} TrimStartSkips(lead: string, t: string)
    requires AllWhiteSpace(lead)
    requires t == [] || !IsWhiteSpace(t[0])
    ensures TrimStart(lead + t) == t
  {
    if lead != [] {
      assert (lead + t)[1..] == lead[1..] + t;
      TrimStartSkips(lead[1..], t);
    }
  }

  /** Reading digits stops exactly where the digits stop. */
  lemma {:induction false} DigitPrefixOfDigits(z: string, rest: string, radix: nat)
    requires AllRadixDigits(z, radix)
    requires rest == [] || !IsRadixDigit(rest[0], radix)
    ensures DigitPrefix(z + rest, radix) == z
  {
    if z != [] {
      assert (z + rest)[1..] == z[1..] + rest;
      DigitPrefixOfDigits(z[1..], rest, radix);
    }
  }

  /**
   * The decimal numeral of `n`, after any leading white space and an optional sign and
   * before any text that does not continue it, reads back as `n` (negated after '-').
   * A lone "0" followed by 'x' or 'X' would switch to radix 16 instead, so that is excluded.
   */
  lemma ParseIntDecimal(lead: string, sign: string, n: nat, rest: string)
    requires AllWhiteSpace(lead)
    requires sign == [] || sign == ['+'] || sign == ['-']
    requires rest == [] || (!IsRadixDigit(rest[0], 10) && (n == 0 ==> rest[0] != 'x' && rest[0] != 'X'))
    ensures ParseInt(lead + sign + DecimalString(n) + rest) == Int(if sign == ['-'] then -(n as int) else n)
  {
    var t := sign + DecimalString(n) + rest;
    Regroup(lead, sign, DecimalString(n), rest);
    SignedDecimalStart(sign, n, rest);
    ParseIntSkipsWhiteSpace(lead, t);
    ParseIntSignedDecimal(sign, n, rest);
  }

  /** Leading white space does not change what `parseInt` reads. */
  lemma ParseIntSkipsWhiteSpace(lead: string, t: string)
    requires AllWhiteSpace(lead)
    requires t == [] || !IsWhiteSpace(t[0])
    ensures ParseInt(lead + t) == ParseInt(t)
  {
    TrimStartSkips(lead, t);
    TrimStartUntouched(t);
  }

  /** A signed numeral does not start with white space. */
  lemma SignedDecimalStart(sign: string, n: nat, rest: string)
    requires sign == [] || sign == ['+'] || sign == ['-']
    ensures !IsWhiteSpace((sign + DecimalString(n) + rest)[0])
  {
    var d := DecimalString(n);
    SignIsNotWhiteSpace();
    DigitIsNotWhiteSpace(d[0]);
    assert (sign + d + rest)[0] == if sign == [] then d[0] else sign[0];
  }

  /** The same statement without leading white space. */
  lemma ParseIntSignedDecimal(sign: string, n: nat, rest: string)
    requires sign == [] || sign == ['+'] || sign == ['-']
    requires rest == [] || (!IsRadixDigit(rest[0], 10) && (n == 0 ==> rest[0] != 'x' && rest[0] != 'X'))
    ensures ParseInt(sign + DecimalString(n) + rest) == Int(if sign == ['-'] then -(n as int) else n)
  {
    var unsigned := DecimalString(n) + rest;
    var t := sign + unsigned;
    Regroup([], sign, DecimalString(n), rest);
    SignedDecimalStart(sign, n, rest);
    TrimStartUntouched(t);
    UnsignedDecimalStart(n, rest);
    StripOneSign(sign, unsigned);
    ReadMagnitudeDecimal(n, rest);
    ParseIntOfParts(t, t, unsigned, n);
  }

  /** A numeral does not start with a sign. */
  lemma UnsignedDecimalStart(n: nat, rest: string)
    ensures (DecimalString(n) + rest)[0] != '+' && (DecimalString(n) + rest)[0] != '-'
  {
    var d := DecimalString(n);
    assert (d + rest)[0] == d[0];
    DigitIsNotWhiteSpace(d[0]);
  }

  /** `parseInt` assembled from its three steps: trimming, the sign, and the digits. */
  lemma ParseIntOfParts(input: string, t: string, unsigned: string, m: nat)
    requires TrimStart(input) == t && StripSign(t) == unsigned && ReadMagnitude(unsigned) == Some(m)
    ensures ParseInt(input) == Int(SignOf(t) * m)
  {
  }

  /** The unsigned part of the same statement: the numeral reads back as `n`. */
  lemma ReadMagnitudeDecimal(n: nat, rest: string)
    requires rest == [] || (!IsRadixDigit(rest[0], 10) && (n == 0 ==> rest[0] != 'x' && rest[0] != 'X'))
    ensures ReadMagnitude(DecimalString(n) + rest) == Some(n)
  {
    var d := DecimalString(n);
    var unsigned := d + rest;
    assert unsigned[0] == d[0];
    assert !HasHexPrefix(unsigned) by {
      if |d| == 1 && rest != [] {
        assert unsigned[1] == rest[0];
      }
    }
    DigitPrefixOfDigits(d, rest, 10);
  }

  /**
   * Text with no digit after its leading white space and optional sign (the empty text,
   * or text that starts with a letter or a punctuation mark) reads as NaN.
   */
  lemma ParseIntNaN(lead: string, sign: string, rest: string)
    requires AllWhiteSpace(lead)
    requires sign == [] || sign == ['+'] || sign == ['-']
    requires rest == [] || (!IsRadixDigit(rest[0], 10) && rest[0] != '+' && rest[0] != '-' && !IsWhiteSpace(rest[0]))
    ensures ParseInt(lead + sign + rest) == NaN
  {
    SkipToSign(lead, sign, rest);
    StripOneSign(sign, rest);
    NoMagnitude(rest);
  }

  lemma SkipToSign(lead: string, sign: string, rest: string)
    requires AllWhiteSpace(lead)
    requires sign == [] || sign == ['+'] || sign == ['-']
    requires rest == [] || !IsWhiteSpace(rest[0])
    ensures TrimStart(lead + sign + rest) == sign + rest
  {
    var t := sign + rest;
    Regroup(lead, sign, rest, []);
    assert t == [] || t[0] == (if sign == [] then rest[0] else sign[0]);
    SignIsNotWhiteSpace();
    TrimStartSkips(lead, t);
  }

  /** Concatenation regrouped, proved apart from the facts about characters. */
  lemma Regroup(a: string, b: string, c: string, d: string)
    ensures a + b + c + d == a + (b + c + d)
    ensures b + c + d == b + (c + d)
    ensures a + b + c == a + (b + c)
  {
  }

  /** One sign is taken off, and it decides the sign of the result. */
  lemma StripOneSign(sign: string, rest: string)
    requires sign == [] || sign == ['+'] || sign == ['-']
    requires rest == [] || (rest[0] != '+' && rest[0] != '-')
    ensures StripSign(sign + rest) == rest
    ensures SignOf(sign + rest) == (if sign == ['-'] then -1 else 1)
  {
    if sign != [] {
      assert (sign + rest)[1..] == rest;
    } else {
      assert sign + rest == rest;
    }
  }

  lemma NoMagnitude(rest: string)
    requires rest == [] || (!IsRadixDigit(rest[0], 10) && rest[0] != '+' && rest[0] != '-')
    ensures ReadMagnitude(rest) == None
  {
    assert rest != [] ==> rest[0] != '0';
  }

  lemma DigitIsNotWhiteSpace(c: char)
    requires IsRadixDigit(c, 10)
    ensures !IsWhiteSpace(c) && c != '+' && c != '-'
  {
  }

  lemma SignIsNotWhiteSpace()
    ensures !IsWhiteSpace('+') && !IsWhiteSpace('-')
  {
  }
}
