/**
 * The number conversions the core relies on: Python's `str(int)`, `int(str)`,
 * `float(str)` and `int(float)`, plus `min` and `max` on reals.
 */
module Numbers {
  import opened Wrappers

  function Min(a: real, b: real): (r: real)
    ensures r <= a && r <= b && (r == a || r == b)
  {
    if a <= b then a else b
  }

  function Max(a: real, b: real): (r: real)
    ensures r >= a && r >= b && (r == a || r == b)
  {
    if a >= b then a else b
  }

  predicate IsDigit(c: char) {
    '0' <= c <= '9'
  }

  predicate AllDigits(s: string) {
    forall i :: 0 <= i < |s| ==> IsDigit(s[i])
  }

  function DigitChar(d: nat): char
    requires d < 10
  {
    ('0' as int + d) as char
  }

  /** The value of a run of decimal digits, most significant first. */
  function DigitsValue(s: string): nat
    requires AllDigits(s)
  {
    if |s| == 0 then 0
    else DigitsValue(s[..|s| - 1]) * 10 + (s[|s| - 1] as int - '0' as int)
  }

  /** The decimal digits of a natural number, without leading zeros. */
  function NatToDigits(n: nat): (s: string)
    ensures |s| > 0 && AllDigits(s)
  {
    if n < 10 then [DigitChar(n)] else NatToDigits(n / 10) + [DigitChar(n % 10)]
  }

  /** `str(n)` for a Python int. */
  function IntToString(n: int): (r: string)
    ensures n >= 0 ==> |r| > 0 && AllDigits(r)
    ensures n < 0 ==> |r| > 1 && r[0] == '-' && AllDigits(r[1..])
  {
    if n < 0 then "-" + NatToDigits(-n) else NatToDigits(n)
  }

  /**
   * `int(s)` for a str: an optional sign followed by one or more decimal
   * digits; anything else raises ValueError, shown as `None`.
   */
  function ParseInt(s: string): (r: Option<int>)
    ensures |s| > 0 && AllDigits(s) ==> r == Some(DigitsValue(s))
    ensures r.Some? ==> |s| > 0 && (AllDigits(s) || (|s| > 1 && (s[0] == '-' || s[0] == '+') && AllDigits(s[1..])))
    ensures r.Some? && s[0] == '-' ==> r.value <= 0
    ensures |s| > 1 && s[0] == '-' && AllDigits(s[1..]) ==> r == Some(-(DigitsValue(s[1..]) as int))
    ensures |s| > 1 && s[0] == '+' && AllDigits(s[1..]) ==> r == Some(DigitsValue(s[1..]))
  {
    if |s| > 0 && (s[0] == '-' || s[0] == '+') then
      if |s| > 1 && AllDigits(s[1..]) then
        var magnitude: int := DigitsValue(s[1..]);
        Some(if s[0] == '-' then -magnitude else magnitude)
      else None
    else if |s| > 0 && AllDigits(s) then Some(DigitsValue(s))
    else None
  }

  lemma {:induction false} DigitsOfNat(n: nat)
    ensures DigitsValue(NatToDigits(n)) == n
  {
    var s := NatToDigits(n);
    if n >= 10 {
      DigitsOfNat(n / 10);
      assert s[..|s| - 1] == NatToDigits(n / 10);
    }
  }

  /** `int(str(n)) == n`: reading back a printed int gives the int. */
  lemma ParseIntOfString(n: int)
    ensures ParseInt(IntToString(n)) == Some(n)
  {
    var s := IntToString(n);
    if n < 0 {
      var digits := NatToDigits(-n);
      assert s == "-" + digits && s[1..] == digits;
      DigitsOfNat(-n);
    } else {
      assert s == NatToDigits(n);
      assert s[0] != '-' && s[0] != '+' by { assert IsDigit(s[0]); }
      DigitsOfNat(n);
    }
  }

  function Pow10(k: nat): (r: nat)
    ensures r >= 1
  {
    if k == 0 then 1 else 10 * Pow10(k - 1)
  }

  /** The position of the first '.' in `s`, or |s| when there is none. */
  function DotIndex(s: string): (k: nat)
    ensures k <= |s|
    ensures forall i :: 0 <= i < k ==> s[i] != '.'
    ensures k < |s| ==> s[k] == '.'
  {
    if |s| == 0 then 0 else if s[0] == '.' then 0 else 1 + DotIndex(s[1..])
  }

  /** The value written `whole.fraction` in decimal. */
  function DecimalValue(whole: string, fraction: string): real
    requires AllDigits(whole) && AllDigits(fraction)
  {
    DigitsValue(whole) as real + DigitsValue(fraction) as real / Pow10(|fraction|) as real
  }

  /** An unsigned decimal: digits, optionally a '.' and more digits, at least one digit in all. */
  function ParseUnsignedDecimal(s: string): Option<real> {
    var k := DotIndex(s);
    if k == |s| then
      if |s| > 0 && AllDigits(s) then Some(DigitsValue(s) as real) else None
    else
      var whole := s[..k];
      var fraction := s[k + 1..];
      if AllDigits(whole) && AllDigits(fraction) && |whole| + |fraction| > 0 then
        Some(DecimalValue(whole, fraction))
      else None
  }

  /** A run of digits has no '.': its dot index is its length. */
  lemma {:induction false} DotIndexOfDigits(s: string)
    requires AllDigits(s)
    ensures DotIndex(s) == |s|
  {
    if |s| > 0 {
      assert s[0] != '.' by { assert IsDigit(s[0]); }
      assert AllDigits(s[1..]) by {
        forall i | 0 <= i < |s| - 1 ensures IsDigit(s[1..][i]) {
          assert s[1..][i] == s[i + 1];
        }
      }
      DotIndexOfDigits(s[1..]);
    }
  }

  /** A run of digits with no '.' reads as that whole number. */
  lemma WholeDecimal(s: string)
    ensures |s| > 0 && AllDigits(s) ==> ParseUnsignedDecimal(s) == Some(DigitsValue(s) as real)
  {
    if |s| > 0 && AllDigits(s) {
      DotIndexOfDigits(s);
    }
  }

  /**
   * The unsigned decimals `float` reads: digits and at most one '.', with
   * at least one digit.
   */
  predicate UnsignedDecimalForm(u: string) {
    (forall i :: 0 <= i < |u| ==> IsDigit(u[i]) || u[i] == '.') &&
    (forall i, j :: 0 <= i < j < |u| && u[i] == '.' ==> u[j] != '.') &&
    (|u| >= 2 || (|u| == 1 && u[0] != '.'))
  }

  /** An optional sign followed by an unsigned decimal. */
  predicate DecimalForm(s: string) {
    |s| > 0 && (if s[0] == '-' || s[0] == '+' then UnsignedDecimalForm(s[1..]) else UnsignedDecimalForm(s))
  }

  /** `ParseUnsignedDecimal` accepts exactly the unsigned decimal forms. */
  lemma UnsignedDecimalAccepts(u: string)
    ensures ParseUnsignedDecimal(u).Some? <==> UnsignedDecimalForm(u)
  {
    var k := DotIndex(u);
    if k == |u| {
      if UnsignedDecimalForm(u) {
        forall i | 0 <= i < |u| ensures IsDigit(u[i]) {
          assert u[i] != '.';
        }
      }
    } else {
      var whole, fraction := u[..k], u[k + 1..];
      if UnsignedDecimalForm(u) {
        forall i | 0 <= i < |whole| ensures IsDigit(whole[i]) {
          assert whole[i] == u[i] && u[i] != '.';
        }
        forall i | 0 <= i < |fraction| ensures IsDigit(fraction[i]) {
          assert fraction[i] == u[k + 1 + i] && u[k + 1 + i] != '.';
        }
        assert |whole| + |fraction| == |u| - 1;
      }
      if AllDigits(whole) && AllDigits(fraction) && |whole| + |fraction| > 0 {
        forall i | 0 <= i < |u| ensures IsDigit(u[i]) || u[i] == '.' {
          if i < k {
            assert u[i] == whole[i];
          } else if i > k {
            assert u[i] == fraction[i - k - 1];
          }
        }
        forall i, j | 0 <= i < j < |u| && u[i] == '.' ensures u[j] != '.' {
          // no '.' comes before position k, so j lies in the fraction
          assert u[j] == fraction[j - k - 1];
        }
      }
    }
  }

  /**
   * `float(s)` for a str holding a plain decimal number, with an optional
   * sign; any other str raises ValueError, shown as `None`.
   */
  function ParseFloat(s: string): (r: Option<real>)
    ensures r.Some? <==> DecimalForm(s)
    ensures r.Some? ==> |s| > 0
    ensures |s| > 0 && AllDigits(s) ==> r == Some(DigitsValue(s) as real)
  {
    WholeDecimal(s);
    UnsignedDecimalAccepts(s);
    UnsignedDecimalAccepts(if |s| > 0 then s[1..] else s);
    if |s| > 0 && (s[0] == '-' || s[0] == '+') then
      match ParseUnsignedDecimal(s[1..])
      case Some(v) => Some(if s[0] == '-' then -v else v)
      case None => None
    else ParseUnsignedDecimal(s)
  }

  /** Digits before a '.' leave the first '.' right after them. */
  lemma {:induction false} DotIndexAfterDigits(w: string, rest: string)
    requires AllDigits(w) && |rest| > 0 && rest[0] == '.'
    ensures DotIndex(w + rest) == |w|
  {
    if |w| > 0 {
      assert (w + rest)[0] == w[0] && IsDigit(w[0]);
      assert (w + rest)[1..] == w[1..] + rest;
      assert AllDigits(w[1..]) by {
        forall i | 0 <= i < |w| - 1 ensures IsDigit(w[1..][i]) {
          assert w[1..][i] == w[i + 1];
        }
      }
      DotIndexAfterDigits(w[1..], rest);
    } else {
      assert w + rest == rest;
    }
  }

  /** `float("w.f")`: the whole digits plus the fraction digits scaled down by their count. */
  lemma ParseFloatDecimal(w: string, f: string)
    requires AllDigits(w) && AllDigits(f) && |w| + |f| > 0
    ensures ParseFloat(w + "." + f) == Some(DecimalValue(w, f))
  {
    var s := w + "." + f;
    assert s == w + ("." + f);
    DotIndexAfterDigits(w, "." + f);
    assert s[..|w|] == w;
    assert s[|w| + 1..] == f;
    if |w| > 0 {
      assert s[0] == w[0] && IsDigit(w[0]);
    } else {
      assert s[0] == '.';
    }
  }

  /** `float("-" + s)` is the negation of `float(s)` for an unsigned `s`, and fails exactly when it fails. */
  lemma ParseFloatNegated(s: string)
    requires |s| > 0 && s[0] != '-' && s[0] != '+'
    ensures ParseFloat("-" + s).Some? <==> ParseFloat(s).Some?
    ensures ParseFloat(s).Some? ==> ParseFloat("-" + s) == Some(-ParseFloat(s).value)
  {
    assert ("-" + s)[1..] == s;
  }

  /** `float("+" + s)` is `float(s)` for an unsigned `s`: a '+' keeps acceptance and the value. */
  lemma ParseFloatPlus(s: string)
    requires |s| > 0 && s[0] != '-' && s[0] != '+'
    ensures ParseFloat("+" + s) == ParseFloat(s)
  {
    assert ("+" + s)[1..] == s;
  }

  /** `float(str(n)) == n`: a printed int reads back as the same number. */
  lemma ParseFloatOfString(n: int)
    ensures ParseFloat(IntToString(n)) == Some(n as real)
  {
    var s := IntToString(n);
    if n < 0 {
      var digits := NatToDigits(-n);
      assert s == "-" + digits && s[1..] == digits;
      DigitsOfNat(-n);
      assert ParseFloat(digits) == Some((-n) as real);
    } else {
      assert s == NatToDigits(n);
      assert s[0] != '-' && s[0] != '+' by { assert IsDigit(s[0]); }
      DigitsOfNat(n);
    }
  }

  /** `int(t)` for a float: truncation toward zero. */
  function Truncate(t: real): (n: int)
    ensures t >= 0.0 ==> n as real <= t < n as real + 1.0
    ensures t < 0.0 ==> n as real - 1.0 < t <= n as real
  {
    if t >= 0.0 then t.Floor else -((-t).Floor)
  }
}
