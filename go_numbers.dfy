/**
 * Sample values. The exporter reads each value with `strconv.ParseFloat(_, 64)`
 * and writes it back with `fmt.Sprintf("%g", _)`. This model covers the values
 * syslog-ng actually reports, decimal integers: a Float here is an integral
 * float64, kept as its sign bit and its magnitude.
 */
module GoNumbers {
  import opened Wrappers

  datatype Float = Float(negative: bool, magnitude: nat)

  predicate IsDigit(c: char)
  {
    '0' <= c <= '9'
  }

  /** A non-empty run of decimal digits. */
  predicate IsDigits(s: string)
  {
    |s| > 0 && forall i :: 0 <= i < |s| ==> IsDigit(s[i])
  }

  function DigitValue(c: char): (d: nat)
    requires IsDigit(c)
    ensures d < 10
  {
    c as int - '0' as int
  }

  function DigitChar(d: nat): (c: char)
    requires d < 10
    ensures IsDigit(c) && DigitValue(c) == d
  {
    ('0' as int + d) as char
  }

  /** The number a run of digits denotes, most significant digit first. */
  function DigitsValue(s: string): nat
    requires forall i :: 0 <= i < |s| ==> IsDigit(s[i])
  {
    if s == [] then 0 else 10 * DigitsValue(s[..|s| - 1]) + DigitValue(s[|s| - 1])
  }

  function Pow10(k: nat): (p: nat)
    ensures p >= 1
  {
    if k == 0 then 1 else 10 * Pow10(k - 1)
  }

  /** The decimal digits of `n`, with no leading zero: `strconv.Itoa` on a natural number. */
  function Decimal(n: nat): (s: string)
    ensures IsDigits(s) && DigitsValue(s) == n
    ensures s[0] == '0' ==> s == "0"
    ensures n >= Pow10(|s| - 1) || n == 0
    ensures n < Pow10(|s|)
  {
    if n < 10 then [DigitChar(n)]
    else
      var init := Decimal(n / 10);
      var s := init + [DigitChar(n % 10)];
      assert s[..|s| - 1] == init;
      s
  }

  /** The protocol's own rendering of a value: an optional minus sign, then the decimal digits. */
  function DecimalText(v: Float): string
  {
    (if v.negative then "-" else "") + Decimal(v.magnitude)
  }

  /**
   * `strconv.ParseFloat(s, 64)` restricted to decimal integers: an optional sign
   * followed by one or more digits (leading zeros allowed). Any other text is
   * rejected.
   */
  function ParseValue(s: string): (r: Option<Float>)
    ensures r.Some? <==> IsDigits(s) || (|s| > 1 && (s[0] == '+' || s[0] == '-') && IsDigits(s[1..]))
    ensures r.Some? ==> (r.value.negative <==> s[0] == '-')
  {
    if |s| > 0 && (s[0] == '+' || s[0] == '-') then
      if IsDigits(s[1..]) then Some(Float(s[0] == '-', DigitsValue(s[1..]))) else None
    else if IsDigits(s) then Some(Float(false, DigitsValue(s)))
    else None
  }

  /** Reading back the protocol rendering gives the value that was written. */
  lemma ParseDecimalText(v: Float)
    ensures ParseValue(DecimalText(v)) == Some(v)
  {
    var d := Decimal(v.magnitude);
    if v.negative {
      assert DecimalText(v)[1..] == d;
    } else {
      assert DecimalText(v) == d;
    }
  }

  /** The digits of `s` with the trailing zeros removed (at least one digit stays). */
  function StripZeros(s: string): (r: string)
    requires IsDigits(s) && s[0] != '0'
    ensures IsDigits(r) && r[0] == s[0] && r[|r| - 1] != '0'
    ensures |r| <= |s| && r == s[..|r|]
    ensures forall i :: |r| <= i < |s| ==> s[i] == '0'
  {
    if s[|s| - 1] == '0' then StripZeros(s[..|s| - 1]) else s
  }

  /** The exponent of `%e`: a sign and at least two digits. */
  function ExponentText(e: nat): string
  {
    "e+" + (if e < 10 then "0" else "") + Decimal(e)
  }

  /**
   * `%e` with the shortest digits, for a magnitude of at least 10^6: the first
   * digit, then the remaining significant digits after a point (if any), then the
   * exponent.
   */
  function Scientific(m: nat): string
    requires m >= 1000000
  {
    var d := Decimal(m);
    var t := StripZeros(d);
    [t[0]] + (if |t| > 1 then "." + t[1..] else "") + ExponentText(|d| - 1)
  }

  /**
   * `fmt.Sprintf("%g", v)` on an integral value: plain digits below 10^6 (the
   * shortest-precision `%g` switches to `%e` once the decimal exponent reaches 6),
   * exponent form from there on; negative values (including -0) carry a minus sign.
   */
  function FormatG(v: Float): string
  {
    (if v.negative then "-" else "") + (if v.magnitude < 1000000 then Decimal(v.magnitude) else Scientific(v.magnitude))
  }

  /** Below 10^6 `%g` writes the protocol rendering, so reading the sample back gives the value. */
  lemma FormatGRoundTrip(v: Float)
    requires v.magnitude < 1000000
    ensures ParseValue(FormatG(v)) == Some(v)
  {
    assert FormatG(v) == DecimalText(v);
    ParseDecimalText(v);
  }

  lemma {:induction false} DigitsValueZeros(t: string, s: string)
    requires forall i :: 0 <= i < |s| ==> IsDigit(s[i])
    requires |t| <= |s| && t == s[..|t|]
    requires forall i :: |t| <= i < |s| ==> s[i] == '0'
    ensures DigitsValue(s) == DigitsValue(t) * Pow10(|s| - |t|)
    decreases |s|
  {
    if |s| > |t| {
      var init := s[..|s| - 1];
      assert init[..|t|] == t;
      DigitsValueZeros(t, init);
    } else {
      assert s == t;
    }
  }

  lemma {:induction false} DecimalLength(m: nat, k: nat)
    requires m >= Pow10(k)
    ensures |Decimal(m)| > k
  {
    var d := Decimal(m);
    if |d| <= k {
      PowMonotone(|d|, k);
    }
  }

  lemma {:induction false} PowMonotone(i: nat, j: nat)
    requires i <= j
    ensures Pow10(i) <= Pow10(j)
    decreases j
  {
    if i < j {
      PowMonotone(i, j - 1);
    }
  }

  /**
   * The exponent form denotes the magnitude: with d the decimal digits of m, the
   * exponent |d| - 1 written by `Scientific` is at least 6, and the significant
   * digits t it writes satisfy m == t * 10^(|d| - |t|).
   */
  lemma ScientificDenotes(m: nat)
    requires m >= 1000000
    ensures var d := Decimal(m); var t := StripZeros(d);
      && |d| - 1 >= 6 && |t| <= |d|
      && m == DigitsValue(t) * Pow10(|d| - |t|)
  {
    var d := Decimal(m);
    var t := StripZeros(d);
    Pow10Six();
    DecimalLength(m, 6);
    DigitsValueZeros(t, d);
  }

  lemma Pow10Six()
    ensures Pow10(6) == 1000000
  {
    assert Pow10(2) == 100;
    assert Pow10(4) == 10000;
  }

  /** `%g` output never holds a space, so it is one field of a line. */
  lemma FormatGHasNoSpace(v: Float)
    ensures ' ' !in FormatG(v)
  {
    var d := Decimal(v.magnitude);
    assert forall i :: 0 <= i < |d| ==> d[i] != ' ' by {
      forall i | 0 <= i < |d| ensures d[i] != ' ' {
        assert IsDigit(d[i]);
      }
    }
    if v.magnitude >= 1000000 {
      var t := StripZeros(d);
      assert forall i :: 0 <= i < |t| ==> t[i] != ' ' by {
        forall i | 0 <= i < |t| ensures t[i] != ' ' {
          assert IsDigit(t[i]);
        }
      }
      var x := ExponentText(|d| - 1);
      var ed := Decimal(|d| - 1);
      assert forall i :: 0 <= i < |ed| ==> ed[i] != ' ' by {
        forall i | 0 <= i < |ed| ensures ed[i] != ' ' {
          assert IsDigit(ed[i]);
        }
      }
      assert ' ' !in x;
      assert ' ' !in Scientific(v.magnitude);
    }
  }
}
