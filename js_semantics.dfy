/** The JavaScript built-ins the dashboard's logic rests on, stated exactly:
    Math.round of a rational value (section 21.3.2.28 of ECMA-262), parseInt
    called without a radix (section 19.2.5 of ECMA-262), and the idiom
    `parseInt(text) || 0` that every numeric input field of the dashboard uses. */
module JsSemantics {

  datatype Option<+T> = None | Some(value: T)

  // ---------------------------------------------------------------------------
  // Math.round
  // ---------------------------------------------------------------------------

  /** Math.round(n / d) for the exact rational n / d: the integer nearest to
      n / d, a tie going towards +infinity. The ensures says
      r - 1/2 <= n/d < r + 1/2. */
  function RoundDiv(n: int, d: int): (r: int)
    requires d > 0
    ensures d * (2 * r - 1) <= 2 * n < d * (2 * r + 1)
  {
    var q := (2 * n + d) / (2 * d);
    var m := (2 * n + d) % (2 * d);
    assert 2 * n + d == 2 * d * q + m && 0 <= m < 2 * d;
    assert d * (2 * q - 1) == 2 * d * q - d;
    assert d * (2 * q + 1) == 2 * d * q + d;
    q
  }

  /** Only one integer lies within a half of n / d, so RoundDiv is that integer. */
  lemma RoundDivUnique(n: int, d: int, k: int)
    requires d > 0
    requires d * (2 * k - 1) <= 2 * n < d * (2 * k + 1)
    ensures RoundDiv(n, d) == k
  {
    var r := RoundDiv(n, d);
    if r < k {
      // d * (2r + 1) <= d * (2k - 1) <= 2n, against the ensures of RoundDiv
      MulMonotone(d, 2 * r + 1, 2 * k - 1);
    } else if r > k {
      MulMonotone(d, 2 * k + 1, 2 * r - 1);
    }
  }

  lemma MulMonotone(d: int, a: int, b: int)
    requires d > 0 && a <= b
    ensures d * a <= d * b
  {
    assert d * b - d * a == d * (b - a);
  }

  /** Math.round of a whole quotient is that quotient. */
  lemma RoundDivExact(m: int, d: int)
    requires d > 0
    ensures RoundDiv(m * d, d) == m
  {
    assert d * (2 * m - 1) == 2 * (m * d) - d;
    assert d * (2 * m + 1) == 2 * (m * d) + d;
    RoundDivUnique(m * d, d, m);
  }

  /** Rounding to the nearest integer never reverses the order of two values
      with the same denominator. */
  lemma RoundDivMonotone(n1: int, n2: int, d: int)
    requires d > 0 && n1 <= n2
    ensures RoundDiv(n1, d) <= RoundDiv(n2, d)
  {
    var r1, r2 := RoundDiv(n1, d), RoundDiv(n2, d);
    if r1 > r2 {
      // d * (2 r2 + 1) <= d * (2 r1 - 1) <= 2 n1 <= 2 n2 < d * (2 r2 + 1)
      MulMonotone(d, 2 * r2 + 1, 2 * r1 - 1);
    }
  }

  // ---------------------------------------------------------------------------
  // parseInt(text) with no radix argument
  // ---------------------------------------------------------------------------

  /** The characters parseInt skips at the start of its argument: white space
      (tab, vertical tab, form feed, the byte order mark and every space
      separator) and the line terminators. */
  predicate IsWhitespace(c: char)
  {
    || c == '\t' || c == '\U{000B}' || c == '\U{000C}' || c == ' ' || c == '\U{00A0}'
    || c == '\U{FEFF}' || c == '\U{1680}' || ('\U{2000}' <= c <= '\U{200A}')
    || c == '\U{202F}' || c == '\U{205F}' || c == '\U{3000}'
    || c == '\n' || c == '\r' || c == '\U{2028}' || c == '\U{2029}'
  }

  /** The value of c as a digit in any radix up to 36; 36 for a character
      that is a digit in no radix. */
  function DigitValue(c: char): (v: nat)
    ensures v <= 36
  {
    if '0' <= c <= '9' then c as int - '0' as int
    else if 'a' <= c <= 'z' then c as int - 'a' as int + 10
    else if 'A' <= c <= 'Z' then c as int - 'A' as int + 10
    else 36
  }

  predicate IsDigit(c: char, radix: nat)
  {
    DigitValue(c) < radix
  }

  /** s without its leading white space. */
  function TrimStart(s: string): (t: string)
    ensures |t| <= |s| && t == s[|s| - |t|..]
    ensures t == [] || !IsWhitespace(t[0])
    ensures forall i :: 0 <= i < |s| - |t| ==> IsWhitespace(s[i])
  {
    if s != [] && IsWhitespace(s[0]) then TrimStart(s[1..]) else s
  }

  /** The longest prefix of s made of digits of the given radix. */
  function DigitRun(s: string, radix: nat): (z: string)
    ensures |z| <= |s| && z == s[..|z|]
    ensures forall i :: 0 <= i < |z| ==> IsDigit(z[i], radix)
    ensures |z| < |s| ==> !IsDigit(s[|z|], radix)
  {
    if s == [] || !IsDigit(s[0], radix) then [] else [s[0]] + DigitRun(s[1..], radix)
  }

  /** The value of a digit string, most significant digit first. */
  function DigitsValue(z: string, radix: nat): nat
  {
    if z == [] then 0 else DigitsValue(z[..|z| - 1], radix) * radix + DigitValue(z[|z| - 1])
  }

  /** The value of the longest run of digits at the start of s; None when
      there is none. */
  function LeadingDigits(s: string, radix: nat): Option<nat>
  {
    var z := DigitRun(s, radix);
    if z == [] then None else Some(DigitsValue(z, radix))
  }

  /** What follows the sign: a "0x" or "0X" prefix switches to radix 16,
      anything else is read in radix 10. */
  function ParseMagnitude(u: string): Option<nat>
  {
    if |u| >= 2 && u[0] == '0' && (u[1] == 'x' || u[1] == 'X') then LeadingDigits(u[2..], 16)
    else LeadingDigits(u, 10)
  }

  /** parseInt(s): skip leading white space, read one optional sign, then the
      magnitude; None stands for NaN, the result when no digit follows. */
  function ParseInt(s: string): Option<int>
  {
    var t := TrimStart(s);
    if t != [] && t[0] == '-' then
      match ParseMagnitude(t[1..])
      case None => None
      case Some(m) => Some(-(m as int))
    else
      ParseMagnitude(if t != [] && t[0] == '+' then t[1..] else t)
  }

  /** `parseInt(text) || 0`: both falsy results of parseInt, NaN and zero,
      become 0, and any other parsed value is kept, negative ones included. */
  function CoerceNumeric(text: string): (r: int)
    ensures r == 0 <==> ParseInt(text) == None || ParseInt(text) == Some(0)
    ensures r != 0 ==> ParseInt(text) == Some(r)
  {
    match ParseInt(text)
    case None => 0
    case Some(n) => n
  }

  // ---------------------------------------------------------------------------
  // Decimal numerals, the inverse of parseInt on the values it produces
  // ---------------------------------------------------------------------------

  function DigitChar(k: nat): (c: char)
    requires k < 10
    ensures '0' <= c <= '9' && DigitValue(c) == k
  {
    ('0' as int + k) as char
  }

  /** The shortest decimal numeral of k, as Number.prototype.toString writes it
      for k below 10^21 (from there on it switches to exponent notation). */
  function NaturalString(k: nat): (s: string)
    ensures s != []
    ensures forall i :: 0 <= i < |s| ==> '0' <= s[i] <= '9'
  {
    if k < 10 then [DigitChar(k)] else NaturalString(k / 10) + [DigitChar(k % 10)]
  }

  /** The decimal numeral of n, with a leading '-' when n is negative. */
  function DecimalString(n: int): string
  {
    if n < 0 then "-" + NaturalString(-n) else NaturalString(n)
  }

  lemma {:induction false} NaturalStringValue(k: nat)
    ensures DigitsValue(NaturalString(k), 10) == k
  {
    if k >= 10 {
      var s := NaturalString(k);
      assert s[..|s| - 1] == NaturalString(k / 10);
      NaturalStringValue(k / 10);
    }
  }

  /** A numeral of a positive number does not start with '0'. */
  lemma {:induction false} NaturalStringLeadingDigit(k: nat)
    ensures k > 0 ==> NaturalString(k)[0] != '0'
  {
    if k >= 10 {
      assert NaturalString(k)[0] == NaturalString(k / 10)[0];
      NaturalStringLeadingDigit(k / 10);
    }
  }

  lemma {:induction false} DigitRunStopsAt(z: string, rest: string, radix: nat)
    requires forall i :: 0 <= i < |z| ==> IsDigit(z[i], radix)
    requires rest == [] || !IsDigit(rest[0], radix)
    ensures DigitRun(z + rest, radix) == z
  {
    if z != [] {
      assert (z + rest)[1..] == z[1..] + rest;
      DigitRunStopsAt(z[1..], rest, radix);
    }
  }

  /** The magnitude of a numeral is read back, whatever non-digit follows it
      (bar an 'x' that would make a leading "0" a hexadecimal prefix). */
  lemma ParseMagnitudeNatural(k: nat, rest: string)
    requires rest == [] || (!IsDigit(rest[0], 10) && rest[0] != 'x' && rest[0] != 'X')
    ensures ParseMagnitude(NaturalString(k) + rest) == Some(k)
  {
    var numeral := NaturalString(k);
    var u := numeral + rest;
    NaturalStringLeadingDigit(k);
    if k == 0 {
      assert numeral == "0";
      assert |u| >= 2 ==> u[1] == rest[0];
    } else {
      assert u[0] == numeral[0];
    }
    DigitRunStopsAt(numeral, rest, 10);
    NaturalStringValue(k);
  }

  /** A string that starts with neither white space nor a sign is read as a
      magnitude; after a '-', as the negated magnitude. */
  lemma ParseIntUnsigned(u: string)
    requires u != [] && !IsWhitespace(u[0]) && u[0] != '-' && u[0] != '+'
    ensures ParseInt(u) == ParseMagnitude(u)
  {
    assert TrimStart(u) == u;
  }

  lemma ParseIntNegative(u: string)
    ensures ParseMagnitude(u).Some? ==> ParseInt("-" + u) == Some(-(ParseMagnitude(u).value as int))
  {
    var s := "-" + u;
    assert s[0] == '-';
    assert !IsWhitespace(s[0]);
    assert TrimStart(s) == s;
    assert s[1..] == u;
    var t := TrimStart(s);
    assert t != [] && t[0] == '-';
  }

  /** parseInt reads back every decimal numeral, and ignores whatever follows
      it from the first character that is not a decimal digit (the fraction of
      "12.5", the exponent of "1e3"), except an 'x' that would turn a leading
      "0" into a hexadecimal prefix. */
  lemma ParseIntDecimal(n: int, rest: string)
    requires rest == [] || (!IsDigit(rest[0], 10) && rest[0] != 'x' && rest[0] != 'X')
    ensures ParseInt(DecimalString(n) + rest) == Some(n)
  {
    var k: nat := if n < 0 then -n else n;
    var u := NaturalString(k) + rest;
    ParseMagnitudeNatural(k, rest);
    var s := DecimalString(n) + rest;
    if n < 0 {
      assert s == "-" + u by {
        assert DecimalString(n) == "-" + NaturalString(k);
      }
      ParseIntNegative(u);
    } else {
      assert s == u by {
        assert DecimalString(n) == NaturalString(k);
      }
      assert '0' <= u[0] <= '9';
      ParseIntUnsigned(u);
    }
  }

  /** A numeric input holding a decimal numeral yields exactly its value,
      zero and negative values included. */
  lemma CoerceDecimal(n: int, rest: string)
    requires rest == [] || (!IsDigit(rest[0], 10) && rest[0] != 'x' && rest[0] != 'X')
    ensures CoerceNumeric(DecimalString(n) + rest) == n
  {
    ParseIntDecimal(n, rest);
  }

  /** Text with no decimal digit at all (the empty field, "abc", "-") is NaN
      to parseInt and so 0 to the dashboard. */
  lemma CoerceWithoutDigits(text: string)
    requires forall i :: 0 <= i < |text| ==> !('0' <= text[i] <= '9')
    ensures ParseInt(text) == None
    ensures CoerceNumeric(text) == 0
  {
    var t := TrimStart(text);
    assert forall i :: 0 <= i < |t| ==> !('0' <= t[i] <= '9');
    var u := if t != [] && (t[0] == '+' || t[0] == '-') then t[1..] else t;
    assert forall i :: 0 <= i < |u| ==> !('0' <= u[i] <= '9');
    assert u == [] || !IsDigit(u[0], 10);
    assert ParseMagnitude(u) == None;
  }
}
