/**
 * Number parsing as the program uses `strconv.ParseFloat` with its error
 * ignored: a decimal literal gives its value and anything else gives 0.
 */
module Numbers {
  import opened Options
  import opened Strings

  predicate IsDigit(c: char) {
    '0' <= c <= '9'
  }

  predicate AllDigits(s: string) {
    forall k :: 0 <= k < |s| ==> IsDigit(s[k])
  }

  function DigitValue(c: char): (d: nat)
    requires IsDigit(c)
    ensures d < 10
  {
    c as int - '0' as int
  }

  function DigitChar(d: nat): (c: char)
    requires d < 10
    ensures IsDigit(c) && DigitValue(c) == d
  {
    ('0' as int + d) as char
  }

  /** The value of a string of decimal digits, most significant first. */
  function DigitsValue(s: string): nat
    requires AllDigits(s)
  {
    if |s| == 0 then 0 else DigitsValue(s[..|s| - 1]) * 10 + DigitValue(s[|s| - 1])
  }

  function Pow10(n: nat): (p: nat)
    ensures p >= 1
  {
    if n == 0 then 1 else 10 * Pow10(n - 1)
  }

  /**
   * An unsigned decimal literal: digits, optionally a point and more digits,
   * with at least one digit in all ("7", "7.", ".5" and "2.25" are literals).
   */
  function ParseUnsigned(s: string): (r: Option<real>)
    ensures r.Some? ==> r.value >= 0.0
  {
    var parts := Split(s, '.');
    if |parts| > 2 then None
    else
      var whole := parts[0];
      var fraction := if |parts| == 2 then parts[1] else "";
      if !AllDigits(whole) || !AllDigits(fraction) || |whole| + |fraction| == 0 then None
      else Some(DigitsValue(whole) as real + DigitsValue(fraction) as real / Pow10(|fraction|) as real)
  }

  /** `strconv.ParseFloat` on the literals modelled here: an optional sign, then an unsigned literal. */
  function ParseFloat(s: string): Option<real> {
    var signed := |s| > 0 && (s[0] == '+' || s[0] == '-');
    match ParseUnsigned(if signed then s[1..] else s)
    case None => None
    case Some(v) => Some(if signed && s[0] == '-' then -v else v)
  }

  /** `v, _ := strconv.ParseFloat(s, 64)`: a failed parse leaves the value 0. */
  function ParseNumber(s: string): real {
    ParseFloat(s).GetOr(0.0)
  }

  /** The shortest decimal spelling of `n`. */
  function NatLiteral(n: nat): (s: string)
    ensures |s| >= 1 && AllDigits(s)
  {
    if n < 10 then [DigitChar(n)] else NatLiteral(n / 10) + [DigitChar(n % 10)]
  }

  lemma {:induction false} DigitsValueOfLiteral(n: nat)
    ensures DigitsValue(NatLiteral(n)) == n
  {
    var s := NatLiteral(n);
    if n >= 10 {
      DigitsValueOfLiteral(n / 10);
      assert s[..|s| - 1] == NatLiteral(n / 10);
    } else {
      assert s[..0] == [];
    }
  }

  /** Parsing the decimal spelling of a natural number gives that number back. */
  lemma ParseNatLiteral(n: nat)
    ensures ParseNumber(NatLiteral(n)) == n as real
  {
    var s := NatLiteral(n);
    assert '.' !in s by {
      forall k | 0 <= k < |s| ensures s[k] != '.' {
        assert IsDigit(s[k]);
      }
    }
    SplitWithoutSeparator(s, '.');
    assert IsDigit(s[0]);
    DigitsValueOfLiteral(n);
    assert DigitsValue("") == 0;
  }

  /** A string of digits contains no character that is not a digit. */
  lemma DigitsAvoid(s: string, c: char)
    requires AllDigits(s) && !IsDigit(c)
    ensures c !in s
  {
    forall k | 0 <= k < |s| ensures s[k] != c {
      assert IsDigit(s[k]);
    }
  }

  /** A literal with a decimal point has the value of its whole part plus its fraction. */
  lemma ParseDecimalLiteral(whole: string, fraction: string)
    requires AllDigits(whole) && AllDigits(fraction) && |whole| + |fraction| > 0
    ensures ParseNumber(whole + "." + fraction)
         == DigitsValue(whole) as real + DigitsValue(fraction) as real / Pow10(|fraction|) as real
  {
    var s := whole + "." + fraction;
    assert Split(s, '.') == [whole, fraction] by {
      DigitsAvoid(whole, '.');
      DigitsAvoid(fraction, '.');
      SplitWithoutSeparator(whole, '.');
      SplitWithoutSeparator(fraction, '.');
      SplitConcat(whole, fraction, '.');
    }
    assert ParseFloat(s) == ParseUnsigned(s) by {
      if |whole| > 0 {
        assert s[0] == whole[0] && IsDigit(whole[0]);
      } else {
        assert s[0] == '.';
      }
    }
  }

  /** Without a minus sign there is no negative number to parse. */
  lemma ParseNumberNonNegative(s: string)
    requires '-' !in s
    ensures ParseNumber(s) >= 0.0
  {
    if |s| > 0 {
      assert s[0] != '-';
    }
  }
}
