/** Decimal text as Go's strconv reads it: ParseInt(s, 10, 64), which
    json.Number.Int64 calls, and the decimal part of ParseFloat(s, 64), which
    json.Number.Float64 calls. FormatInt is the reference printer that the
    round-trip lemmas parse back. */
module Decimal {
  import opened Wrappers

  const MinInt64: int := -0x8000_0000_0000_0000
  const MaxInt64: int := 0x7FFF_FFFF_FFFF_FFFF

  predicate IsDigit(c: char) { '0' <= c <= '9' }

  predicate AllDigits(s: string) { forall i :: 0 <= i < |s| ==> IsDigit(s[i]) }

  function DigitValue(c: char): (d: nat)
    requires IsDigit(c)
    ensures d < 10
  {
    c as int - '0' as int
  }

  function DigitChar(d: nat): (c: char)
    requires d < 10
    ensures IsDigit(c) && DigitValue(c) == d
  {
    ('0' as int + d) as char
  }

  function Pow10(n: nat): (p: nat)
    ensures p >= 1
  {
    if n == 0 then 1 else 10 * Pow10(n - 1)
  }

  /** Value of a digit string, most significant digit first. */
  function DigitsValue(s: string): nat
    requires AllDigits(s)
  {
    if s == [] then 0 else 10 * DigitsValue(s[..|s| - 1]) + DigitValue(s[|s| - 1])
  }

  /** Length of the run of digits that starts s. */
  function LeadingDigits(s: string): (n: nat)
    ensures n <= |s|
    ensures AllDigits(s[..n])
    ensures n < |s| ==> !IsDigit(s[n])
  {
    if s == [] || !IsDigit(s[0]) then 0
    else
      var n := 1 + LeadingDigits(s[1..]);
      assert s[..n] == [s[0]] + s[1..][..n - 1];
      n
  }

  /** An optional leading '+' or '-': (negative, rest). */
  function SplitSign(s: string): (bool, string)
  {
    if |s| > 0 && (s[0] == '+' || s[0] == '-') then (s[0] == '-', s[1..]) else (false, s)
  }

  /** strconv.ParseInt(s, 10, 64): an optional sign, then one or more decimal
      digits and nothing else, whose value lies in the int64 range. */
  function ParseInt64(s: string): (r: Option<int>)
    ensures r.Some? ==> MinInt64 <= r.value <= MaxInt64
    ensures r.Some? ==> s != [] && AllDigits(SplitSign(s).1) && SplitSign(s).1 != []
  {
    var (negative, digits) := SplitSign(s);
    if digits == [] || !AllDigits(digits) then None
    else
      var v: int := if negative then -(DigitsValue(digits) as int) else DigitsValue(digits);
      if MinInt64 <= v <= MaxInt64 then Some(v) else None
  }

  /** The exponent suffix of a decimal float: empty, or 'e'/'E', an optional
      sign and one or more digits. */
  function ParseExponent(s: string): Option<int>
  {
    if s == [] then Some(0)
    else if s[0] != 'e' && s[0] != 'E' then None
    else
      var (negative, digits) := SplitSign(s[1..]);
      if digits == [] || !AllDigits(digits) then None
      else
        var e: int := if negative then -(DigitsValue(digits) as int) else DigitsValue(digits);
        Some(e)
  }

  /** strconv.ParseFloat(s, 64) on decimal notation: an optional sign, then
      unsigned decimal text; the exact rational value of that text. */
  function ParseFloat(s: string): Option<real>
  {
    var (negative, body) := SplitSign(s);
    match ParseUnsigned(body)
    case None => None
    case Some(magnitude) => Some(if negative then -magnitude else magnitude)
  }

  /** ParseFloat reads no number out of text without a decimal digit. */
  lemma ParseFloatNeedsDigit(s: string)
    ensures ParseFloat(s).Some? ==> exists i :: 0 <= i < |s| && IsDigit(s[i])
  {
    var (negative, body) := SplitSign(s);
    if ParseUnsigned(body).Some? {
      assert |body| <= |s| && body == s[|s| - |body|..];
      var k := if IsDigit(body[0]) then 0 else 1;
      assert IsDigit(s[|s| - |body| + k]);
    }
  }

  /** Unsigned decimal text: digits with at most one '.', at least one digit
      in all, then an optional exponent. */
  function ParseUnsigned(body: string): (r: Option<real>)
    ensures r.Some? ==> body != [] && (IsDigit(body[0]) || (|body| > 1 && IsDigit(body[1])))
  {
    var n := LeadingDigits(body);
    var afterInt := body[n..];
    var hasPoint := |afterInt| > 0 && afterInt[0] == '.';
    var afterPoint := if hasPoint then afterInt[1..] else afterInt;
    var m := if hasPoint then LeadingDigits(afterPoint) else 0;
    if n + m == 0 then None
    else
      match ParseExponent(afterPoint[m..])
      case None => None
      case Some(e) =>
        assert n > 0 ==> IsDigit(body[0]);
        assert n == 0 ==> IsDigit(body[1]);
        Some(DecimalValue(body[..n], afterPoint[..m], e))
  }

  /** The value of integer digits, fraction digits and an exponent: all the
      digits as one integer, scaled by ten to the exponent less the number
      of fraction digits. */
  function DecimalValue(whole: string, fraction: string, e: int): real
    requires AllDigits(whole) && AllDigits(fraction)
  {
    Scaled(DigitsValue(whole + fraction), e - |fraction|)
  }

  /** m times ten to the k, exactly, one decimal shift at a time: each
      step up multiplies by ten and each step down divides by ten. */
  function Scaled(m: nat, k: int): real
    decreases if k < 0 then -k else k
  {
    if k == 0 then m as real
    else if k > 0 then 10.0 * Scaled(m, k - 1)
    else Scaled(m, k + 1) / 10.0
  }

  /** A decimal point splits the mantissa's digits: "3.14" is 314 scaled by
      ten to the minus two. */
  lemma ParseFloatPointExample()
    ensures ParseFloat("3.14") == Some(3.14)
  {
    var body := "3.14";
    assert SplitSign(body) == (false, body);
    assert LeadingDigits(body) == 1 by {
      assert LeadingDigits(body[1..]) == 0;
    }
    var afterPoint := body[2..];
    assert afterPoint == "14";
    assert LeadingDigits(afterPoint) == 2 by {
      assert afterPoint[1..] == "4";
      assert LeadingDigits(afterPoint[2..]) == 0;
    }
    assert body[..1] + afterPoint[..2] == "314";
    assert DigitsValue("314") == 314 by {
      assert "314"[..2] == "31";
      assert "31"[..1] == "3";
      assert "3"[..0] == "";
    }
    assert afterPoint[2..] == [];
    assert Scaled(314, -2) == 3.14 by {
      assert Scaled(314, -1) == 31.4;
    }
  }

  /** Text that does not start with a digit, a sign or a point is no number. */
  lemma ParseFloatWordExample()
    ensures ParseFloat("not-a-number").None?
  {
    assert SplitSign("not-a-number") == (false, "not-a-number");
    assert !IsDigit("not-a-number"[0]);
  }

  /** Decimal digits of a natural number, as strconv.Itoa prints it. */
  function FormatNat(n: nat): (s: string)
    ensures s != [] && AllDigits(s)
  {
    if n < 10 then [DigitChar(n)] else FormatNat(n / 10) + [DigitChar(n % 10)]
  }

  function FormatInt(n: int): string
  {
    if n < 0 then "-" + FormatNat(-n) else FormatNat(n)
  }

  lemma {:induction false} DigitsValueFormatNat(n: nat)
    ensures DigitsValue(FormatNat(n)) == n
  {
    if n >= 10 {
      var s := FormatNat(n / 10) + [DigitChar(n % 10)];
      assert s[..|s| - 1] == FormatNat(n / 10);
      DigitsValueFormatNat(n / 10);
    }
  }

  /** Printing an int64 and parsing it back with ParseInt gives it back. */
  lemma ParseInt64FormatInt(n: int)
    requires MinInt64 <= n <= MaxInt64
    ensures ParseInt64(FormatInt(n)) == Some(n)
  {
    if n < 0 {
      assert SplitSign(FormatInt(n)) == (true, FormatNat(-n));
      DigitsValueFormatNat(-n);
    } else {
      DigitsValueFormatNat(n);
    }
  }

  /** Any integer, printed, is read back exactly by ParseFloat. */
  lemma ParseFloatFormatInt(n: int)
    ensures ParseFloat(FormatInt(n)) == Some(n as real)
  {
    var k: nat := if n < 0 then -n else n;
    var digits := FormatNat(k);
    assert SplitSign(FormatInt(n)) == (n < 0, digits);
    var len := LeadingDigits(digits);
    LeadingDigitsAll(digits);
    assert len == |digits|;
    assert digits[len..] == [];
    assert digits[..len] + [] == digits;
    DigitsValueFormatNat(k);
  }

  /** Digits followed by text that starts with a non-digit: the run of
      leading digits is exactly those digits. */
  lemma {:induction false} LeadingDigitsStop(a: string, rest: string)
    requires AllDigits(a) && rest != [] && !IsDigit(rest[0])
    ensures LeadingDigits(a + rest) == |a|
    decreases |a|
  {
    if a == [] {
      assert a + rest == rest;
    } else {
      assert (a + rest)[0] == a[0] && IsDigit(a[0]);
      assert AllDigits(a[1..]);
      assert (a + rest)[1..] == a[1..] + rest;
      LeadingDigitsStop(a[1..], rest);
    }
  }

  /** The value of a concatenation of digit strings: the first part shifted
      left by the length of the second. */
  lemma {:induction false} DigitsValueAppend(a: string, b: string)
    requires AllDigits(a) && AllDigits(b)
    ensures AllDigits(a + b)
    ensures DigitsValue(a + b) == DigitsValue(a) * Pow10(|b|) + DigitsValue(b)
    decreases |b|
  {
    if b == [] {
      assert a + b == a;
    } else {
      var n := |b| - 1;
      var ab := a + b;
      assert ab[..|ab| - 1] == a + b[..n];
      assert ab[|ab| - 1] == b[n];
      DigitsValueAppend(a, b[..n]);
      ShiftDigit(DigitsValue(a), DigitsValue(b[..n]), Pow10(n), DigitValue(b[n]));
    }
  }

  /** The arithmetic of appending one digit to a shifted value. */
  lemma ShiftDigit(va: int, vb: int, p: int, c: int)
    ensures 10 * (va * p + vb) + c == va * (10 * p) + (10 * vb + c)
  {
  }

  /** Without fraction digits the value is the integer scaled by ten to
      the exponent. */
  lemma DecimalValueWhole(d: string, e: int)
    requires AllDigits(d)
    ensures DecimalValue(d, [], e) == Scaled(DigitsValue(d), e)
  {
    assert d + [] == d;
  }

  /** Without an exponent the value is the integer part plus the fraction
      digits scaled down by the power of ten of their count. */
  lemma DecimalValuePoint(d: string, f: string)
    requires AllDigits(d) && AllDigits(f)
    ensures DecimalValue(d, f, 0) == DigitsValue(d) as real + Scaled(DigitsValue(f), -|f|)
  {
    DigitsValueAppend(d, f);
    ScaledShift(DigitsValue(d), DigitsValue(f), |f|, DigitsValue(d + f));
    assert DecimalValue(d, f, 0) == Scaled(DigitsValue(d + f), -|f|);
  }

  /** Shifting a value left by k digits and scaling back by ten to the
      minus k restores it, whatever digits were appended. */
  lemma {:induction false} ScaledShift(a: nat, b: nat, k: nat, m: nat)
    requires m == a * Pow10(k) + b
    ensures Scaled(m, -(k as int)) == a as real + Scaled(b, -(k as int))
    decreases k
  {
    if k > 0 {
      TenTimes(a, Pow10(k - 1));
      ScaledShift(10 * a, b, k - 1, m);
    }
  }

  /** Moving a factor of ten across a product. */
  lemma TenTimes(a: int, p: int)
    ensures a * (10 * p) == (10 * a) * p
  {
  }

  /** Scaling up by k is multiplying by the k-th power of ten. */
  lemma {:induction false} ScaledUp(m: nat, k: nat)
    ensures Scaled(m, k) == (m * Pow10(k)) as real
  {
    if k > 0 {
      ScaledUp(m, k - 1);
      TenTimes(m, Pow10(k - 1));
    }
  }

  /** Scaling down by k is dividing by the k-th power of ten. */
  lemma {:induction false} ScaledDown(m: nat, k: nat)
    ensures Scaled(m, -(k as int)) == (m as real) / (Pow10(k) as real)
  {
    if k > 0 {
      ScaledDown(m, k - 1);
      DivideTen(m as real, Pow10(k - 1) as real);
    }
  }

  /** Dividing by a power and then by ten is dividing by ten times it. */
  lemma DivideTen(x: real, p: real)
    requires p > 0.0
    ensures (x / p) / 10.0 == x / (10.0 * p)
  {
  }

  /** Text that starts with a digit has no sign. */
  lemma ParseFloatUnsigned(s: string)
    requires s != [] && IsDigit(s[0])
    ensures ParseFloat(s) == ParseUnsigned(s)
  {
    assert SplitSign(s) == (false, s);
  }

  /** Unsigned text with a point: the integer digits plus the fraction
      digits over the power of ten of their count. */
  lemma UnsignedPoint(d: string, f: string)
    requires d != [] && AllDigits(d) && AllDigits(f)
    ensures ParseUnsigned(d + "." + f) == Some(DecimalValue(d, f, 0))
  {
    var s := d + "." + f;
    assert s == d + ("." + f);
    LeadingDigitsStop(d, "." + f);
    assert s[|d|..] == "." + f;
    assert ("." + f)[1..] == f;
    LeadingDigitsAll(f);
    assert f[|f|..] == [];
    assert s[..|d|] + f[..|f|] == d + f;
    assert ParseUnsigned(s) == Some(DecimalValue(d, f, 0));
  }

  /** Decimal text with a point: the integer digits plus the fraction
      digits scaled down by the power of ten of their count; "12." reads
      as 12 and leading zeros are allowed. */
  lemma ParseFloatPoint(d: string, f: string)
    requires d != [] && AllDigits(d) && AllDigits(f)
    ensures ParseFloat(d + "." + f).Some?
    ensures ParseFloat(d + "." + f).value == DigitsValue(d) as real + Scaled(DigitsValue(f), -|f|)
  {
    ParseFloatPointValue(d, f);
    DecimalValuePoint(d, f);
  }

  /** Signless text with a point reads as the value of its two digit runs. */
  lemma ParseFloatPointValue(d: string, f: string)
    requires d != [] && AllDigits(d) && AllDigits(f)
    ensures ParseFloat(d + "." + f) == Some(DecimalValue(d, f, 0))
  {
    assert (d + "." + f)[0] == d[0];
    ParseFloatUnsigned(d + "." + f);
    UnsignedPoint(d, f);
  }

  /** The exponent suffix "e" followed by a printed integer reads as it. */
  lemma ExponentFormatInt(e: int)
    ensures ParseExponent("e" + FormatInt(e)) == Some(e)
  {
    var k: nat := if e < 0 then -e else e;
    assert ("e" + FormatInt(e))[1..] == FormatInt(e);
    assert SplitSign(FormatInt(e)) == (e < 0, FormatNat(k));
    DigitsValueFormatNat(k);
  }

  /** Unsigned text with an exponent: the digits scaled by ten to it. */
  lemma UnsignedExponent(d: string, e: int)
    requires d != [] && AllDigits(d)
    ensures ParseUnsigned(d + "e" + FormatInt(e)) == Some(DecimalValue(d, [], e))
  {
    var x := "e" + FormatInt(e);
    var s := d + x;
    assert d + "e" + FormatInt(e) == s;
    LeadingDigitsStop(d, x);
    var n := LeadingDigits(s);
    assert n == |d|;
    var afterInt := s[n..];
    assert afterInt == x;
    assert afterInt[0] == 'e';
    assert x[0..] == x;
    assert s[..n] + x[..0] == d;
    ExponentFormatInt(e);
    assert ParseExponent(x) == Some(e);
    assert ParseUnsigned(s) == Some(DecimalValue(d, [], e));
  }

  /** Decimal text with an exponent: the integer part scaled by ten to the
      exponent, of either sign. */
  lemma ParseFloatExponent(i: nat, e: int)
    ensures ParseFloat(FormatNat(i) + "e" + FormatInt(e)) == Some(Scaled(i, e))
  {
    var d := FormatNat(i);
    assert (d + "e" + FormatInt(e))[0] == d[0];
    ParseFloatUnsigned(d + "e" + FormatInt(e));
    UnsignedExponent(d, e);
    DecimalValueWhole(d, e);
    DigitsValueFormatNat(i);
  }

  /** A leading minus negates the value of text that starts with a digit. */
  lemma ParseFloatNegative(t: string)
    requires t != [] && IsDigit(t[0])
    ensures ParseFloat("-" + t).Some? == ParseFloat(t).Some?
    ensures ParseFloat(t).Some? ==> ParseFloat("-" + t).value == -ParseFloat(t).value
  {
    assert SplitSign("-" + t) == (true, t);
    ParseFloatUnsigned(t);
  }

  lemma {:induction false} LeadingDigitsAll(s: string)
    requires AllDigits(s)
    ensures LeadingDigits(s) == |s|
  {
    if s != [] {
      LeadingDigitsAll(s[1..]);
    }
  }
}
