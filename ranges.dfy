/**
 * The range expander `getRange`: a commit specification such as "1-3,7" is
 * turned into the candidate commitments 1, 2, 3, 7.
 */
module Ranges {
  import opened Options
  import opened Strings
  import opened Numbers

  /** first, first + 1, ..., first + n. */
  function UnitSteps(first: real, n: nat): (r: seq<real>)
    ensures |r| == n + 1
    ensures forall k :: 0 <= k < |r| ==> r[k] == first + k as real
  {
    seq(n + 1, k => first + k as real)
  }

  /** Concatenation of two expansions; one that does not return makes the whole not return. */
  function Append(a: Option<seq<real>>, b: Option<seq<real>>): Option<seq<real>> {
    if a.Some? && b.Some? then Some(a.value + b.value) else None
  }

  /**
   * The values one comma-separated token contributes. `None` stands for the
   * case in which `getRange`'s stepping loop never meets `last` and so never
   * returns: a pair whose bounds do not differ by a whole number.
   */
  function TokenValues(token: string): Option<seq<real>> {
    var c := Split(token, '-');
    var first := ParseNumber(c[0]);
    if |c| < 2 then Some([first]) else PairSteps(first, ParseNumber(c[1]))
  }

  /** The values of a pair token whose bounds parse as `first` and `last`. */
  function PairSteps(first: real, last: real): Option<seq<real>> {
    if first > last then Some([])
    else if (last - first).Floor as real != last - first then None
    else Some(UnitSteps(first, (last - first).Floor))
  }

  /** The expansions concatenated in order; one that does not return makes the whole not return. */
  function Concat(parts: seq<Option<seq<real>>>): Option<seq<real>> {
    if |parts| == 0 then Some([])
    else Append(Concat(parts[..|parts| - 1]), parts[|parts| - 1])
  }

  /** Each token's own expansion, in listed order. */
  function TokenExpansions(tokens: seq<string>): (parts: seq<Option<seq<real>>>)
    ensures |parts| == |tokens|
    ensures forall k :: 0 <= k < |tokens| ==> parts[k] == TokenValues(tokens[k])
  {
    seq(|tokens|, k requires 0 <= k < |tokens| => TokenValues(tokens[k]))
  }

  /** What `getRange(spec)` returns, or `None` when it does not return. */
  function Expand(spec: string): Option<seq<real>> {
    Concat(TokenExpansions(Split(spec, ',')))
  }

  /** `getRange`: split on commas, then each token on dashes, appending as it goes. */
  method GetRange(t: string) returns (d: Option<seq<real>>)
    ensures d == Expand(t)
  {
    var out: seq<real> := [];
    var a := Split(t, ',');
    ghost var parts := TokenExpansions(a);
    for j := 0 to |a|
      invariant Concat(parts[..j]) == Some(out)
    {
      assert parts[..j + 1][..j] == parts[..j];
      var next := AppendToken(out, a[j]);
      if next.None? {
        ConcatStopsAt(parts, j);
        return None;
      }
      out := next.value;
    }
    assert parts[..|a|] == parts;
    return Some(out);
  }

  /** One pass of `getRange`'s outer loop: the values of `token` appended to `d`. */
  method AppendToken(d: seq<real>, token: string) returns (r: Option<seq<real>>)
    ensures r == Append(Some(d), TokenValues(token))
  {
    var c := Split(token, '-');
    // Split never returns an empty list, so `getRange`'s `len(c) < 1` case cannot arise.
    var first := ParseNumber(c[0]);
    if |c| < 2 {
      return Some(d + [first]);
    }
    var last := ParseNumber(c[1]);
    if first > last {
      assert d + [] == d;
      return Some(d);
    }
    if (last - first).Floor as real != last - first {
      // `getRange`'s stepping loop never meets `last` and never returns
      return None;
    }
    var steps := AppendSteps(d, first, last, (last - first).Floor);
    return Some(steps);
  }

  /** `getRange`'s stepping loop: append first, first + 1, ... until `last` has been appended. */
  method AppendSteps(d: seq<real>, first: real, last: real, ghost n: nat) returns (r: seq<real>)
    requires last == first + n as real
    ensures r == d + UnitSteps(first, n)
  {
    r := d;
    var i := first;
    ghost var k: nat := 0;
    while true
      invariant k <= n && i == first + k as real
      invariant r == d + seq(k, m => first + m as real)
      decreases n - k
    {
      r := r + [i];
      assert seq(k, m => first + m as real) + [i] == seq(k + 1, m => first + m as real);
      if i == last {
        break;
      }
      i := i + 1.0;
      k := k + 1;
    }
  }

  lemma {:induction false} ConcatAppend(x: seq<Option<seq<real>>>, y: seq<Option<seq<real>>>)
    ensures Concat(x + y) == Append(Concat(x), Concat(y))
    decreases |y|
  {
    if |y| == 0 {
      assert x + y == x;
      if Concat(x).Some? {
        assert Concat(x).value + [] == Concat(x).value;
      }
    } else {
      var z := x + y;
      var y' := y[..|y| - 1];
      assert z[..|z| - 1] == x + y';
      assert z[|z| - 1] == y[|y| - 1];
      ConcatAppend(x, y');
      AppendAssociative(Concat(x), Concat(y'), y[|y| - 1]);
    }
  }

  lemma AppendAssociative(a: Option<seq<real>>, b: Option<seq<real>>, c: Option<seq<real>>)
    ensures Append(Append(a, b), c) == Append(a, Append(b, c))
  {
    if a.Some? && b.Some? && c.Some? {
      assert (a.value + b.value) + c.value == a.value + (b.value + c.value);
    }
  }

  /** A token that does not return stops the whole expansion. */
  lemma ConcatStopsAt(parts: seq<Option<seq<real>>>, j: nat)
    requires j < |parts| && parts[j] == None
    ensures Concat(parts) == None
  {
    assert parts == parts[..j + 1] + parts[j + 1..];
    assert parts[..j + 1][..j] == parts[..j];
    ConcatAppend(parts[..j + 1], parts[j + 1..]);
  }

  /** Tokens are expanded independently and their values concatenated in listed order. */
  lemma ExpandConcat(s1: string, s2: string)
    ensures Expand(s1 + "," + s2) == Append(Expand(s1), Expand(s2))
  {
    SplitConcat(s1, s2, ',');
    var t1, t2 := Split(s1, ','), Split(s2, ',');
    assert TokenExpansions(t1 + t2) == TokenExpansions(t1) + TokenExpansions(t2);
    ConcatAppend(TokenExpansions(t1), TokenExpansions(t2));
  }

  lemma ConcatSingle(p: Option<seq<real>>)
    ensures Concat([p]) == p
  {
    assert [p][..0] == [];
    if p.Some? {
      assert [] + p.value == p.value;
    }
  }

  /** A specification without commas is a single token. */
  lemma ExpandSingleToken(spec: string)
    requires ',' !in spec
    ensures Expand(spec) == TokenValues(spec)
  {
    SplitWithoutSeparator(spec, ',');
    ConcatSingle(TokenValues(spec));
  }

  /** The empty specification is one empty token, which parses as 0. */
  lemma ExpandEmpty()
    ensures Expand("") == Some([0.0])
  {
    ExpandSingleToken("");
    assert Split("", '-') == [""];
    assert Split("", '.') == [""];
    assert ParseFloat("") == None;
  }

  lemma NoSeparatorInLiteral(n: nat, c: char)
    requires !IsDigit(c)
    ensures c !in NatLiteral(n) && Split(NatLiteral(n), c) == [NatLiteral(n)]
  {
    DigitsAvoid(NatLiteral(n), c);
    SplitWithoutSeparator(NatLiteral(n), c);
  }

  /** A single number expands to exactly that number. */
  lemma ExpandNumber(n: nat)
    ensures Expand(NatLiteral(n)) == Some([n as real])
  {
    NoSeparatorInLiteral(n, ',');
    ExpandSingleToken(NatLiteral(n));
    NoSeparatorInLiteral(n, '-');
    ParseNatLiteral(n);
  }

  /** A single token that does not parse as a number expands to 0, as `ParseFloat`'s error is dropped. */
  lemma ExpandUnparseable(t: string)
    requires ',' !in t && '-' !in t && ParseFloat(t) == None
    ensures Expand(t) == Some([0.0])
  {
    ExpandSingleToken(t);
    SplitWithoutSeparator(t, '-');
  }

  /** The values of a token that is a pair, in terms of its two parsed bounds. */
  lemma PairValues(token: string, x: string, y: string)
    requires Split(token, '-') == [x, y]
    ensures TokenValues(token) == PairSteps(ParseNumber(x), ParseNumber(y))
  {
  }

  /** Bounds the whole number n apart step through n + 1 values. */
  lemma WholePairSteps(first: real, n: nat)
    ensures PairSteps(first, first + n as real) == Some(UnitSteps(first, n))
  {
    assert (first + n as real - first).Floor == n;
  }

  /** A token "x-y" whose bounds are digit strings is one token with two bounds. */
  lemma DigitPairSplit(x: string, y: string)
    requires AllDigits(x) && AllDigits(y)
    ensures Expand(x + "-" + y) == TokenValues(x + "-" + y)
    ensures Split(x + "-" + y, '-') == [x, y]
  {
    var t := x + "-" + y;
    DigitsAvoid(x, ',');
    DigitsAvoid(y, ',');
    ExpandSingleToken(t);
    DigitsAvoid(x, '-');
    DigitsAvoid(y, '-');
    SplitWithoutSeparator(x, '-');
    SplitWithoutSeparator(y, '-');
    SplitConcat(x, y, '-');
  }

  lemma DigitPairValues(x: string, y: string, a: nat, b: nat)
    requires AllDigits(x) && AllDigits(y)
    requires ParseNumber(x) == a as real && ParseNumber(y) == b as real
    ensures a <= b ==> Expand(x + "-" + y) == Some(UnitSteps(a as real, b - a))
    ensures a > b ==> Expand(x + "-" + y) == Some([])
  {
    assert Expand(x + "-" + y) == PairSteps(a as real, b as real) by {
      DigitPairSplit(x, y);
      PairValues(x + "-" + y, x, y);
    }
    if a <= b {
      WholePairSteps(a as real, b - a);
      assert a as real + (b - a) as real == b as real;
    }
  }

  /**
   * A pair "a-b" expands to a, a + 1, ..., b (b - a + 1 values, ascending)
   * when a <= b, and to nothing when a > b.
   */
  lemma ExpandPair(a: nat, b: nat)
    ensures a <= b ==> Expand(NatLiteral(a) + "-" + NatLiteral(b)) == Some(UnitSteps(a as real, b - a))
    ensures a > b ==> Expand(NatLiteral(a) + "-" + NatLiteral(b)) == Some([])
  {
    ParseNatLiteral(a);
    ParseNatLiteral(b);
    DigitPairValues(NatLiteral(a), NatLiteral(b), a, b);
  }

  /** The values of any one token are non-negative: a minus sign can only ever separate bounds. */
  lemma TokenValuesNonNegative(token: string)
    ensures TokenValues(token).Some? ==> forall k :: 0 <= k < |TokenValues(token).value| ==> TokenValues(token).value[k] >= 0.0
  {
    var c := Split(token, '-');
    ParseNumberNonNegative(c[0]);
    if |c| >= 2 {
      ParseNumberNonNegative(c[1]);
    }
  }

  predicate AllNonNegative(vs: seq<real>) {
    forall k :: 0 <= k < |vs| ==> vs[k] >= 0.0
  }

  lemma {:induction false} ConcatNonNegative(parts: seq<Option<seq<real>>>)
    requires forall k :: 0 <= k < |parts| && parts[k].Some? ==> AllNonNegative(parts[k].value)
    ensures Concat(parts).Some? ==> AllNonNegative(Concat(parts).value)
    decreases |parts|
  {
    if |parts| > 0 {
      ConcatNonNegative(parts[..|parts| - 1]);
    }
  }

  /** Every candidate the expander produces is non-negative. */
  lemma ExpandNonNegative(spec: string)
    ensures Expand(spec).Some? ==> AllNonNegative(Expand(spec).value)
  {
    var tokens := Split(spec, ',');
    forall k | 0 <= k < |tokens| ensures TokenValues(tokens[k]).Some? ==> AllNonNegative(TokenValues(tokens[k]).value) {
      TokenValuesNonNegative(tokens[k]);
    }
    ConcatNonNegative(TokenExpansions(tokens));
  }

  /** Worked example: "3" gives [3]. */
  lemma ExpandNumberExample()
    ensures Expand("3") == Some([3.0])
  {
    assert NatLiteral(3) == "3";
    ExpandNumber(3);
  }

  /** Worked example: "1-3" gives [1, 2, 3]. */
  lemma ExpandPairExample()
    ensures Expand("1-3") == Some([1.0, 2.0, 3.0])
  {
    assert NatLiteral(1) + "-" + NatLiteral(3) == "1-3";
    ExpandPair(1, 3);
    assert UnitSteps(1.0, 2) == [1.0, 2.0, 3.0];
  }

  /** Worked example: "5-2" gives nothing. */
  lemma ExpandReversedExample()
    ensures Expand("5-2") == Some([])
  {
    assert NatLiteral(5) + "-" + NatLiteral(2) == "5-2";
    ExpandPair(5, 2);
  }

  /** Worked example: "1-3,7" gives [1, 2, 3, 7]. */
  lemma ExpandListExample()
    ensures Expand("1-3,7") == Some([1.0, 2.0, 3.0, 7.0])
  {
    var s1, s2, v1, v2 := "1-3", "7", [1.0, 2.0, 3.0], [7.0];
    assert s1 + "," + s2 == "1-3,7" && v1 + v2 == [1.0, 2.0, 3.0, 7.0];
    assert Expand(s1 + "," + s2) == Some(v1 + v2) by {
      ExpandPairExample();
      assert NatLiteral(7) == s2;
      ExpandNumber(7);
      ExpandJoined(s1, s2, v1, v2);
    }
  }

  /** Two lists that expand, joined by a comma, expand to both in order. */
  lemma ExpandJoined(s1: string, s2: string, v1: seq<real>, v2: seq<real>)
    requires Expand(s1) == Some(v1) && Expand(s2) == Some(v2)
    ensures Expand(s1 + "," + s2) == Some(v1 + v2)
  {
    ExpandConcat(s1, s2);
  }

  /** A pair token written as "x-y" with neither bound holding a separator. */
  lemma PairToken(t: string, x: string, y: string)
    requires t == x + "-" + y && ',' !in x && ',' !in y && '-' !in x && '-' !in y
    ensures Expand(t) == TokenValues(t) && Split(t, '-') == [x, y]
  {
    assert ',' !in t;
    ExpandSingleToken(t);
    SplitConcat(x, y, '-');
    SplitWithoutSeparator(x, '-');
    SplitWithoutSeparator(y, '-');
  }

  /** Bounds a whole number apart: "0.5-2.5" steps from 0.5 up to 2.5. */
  lemma ExpandFractionalExample()
    ensures Expand("0.5-2.5") == Some([0.5, 1.5, 2.5])
  {
    var x, y := "0.5", "2.5";
    assert x + "-" + y == "0.5-2.5";
    PairToken("0.5-2.5", x, y);
    ParseFractionExamples();
    PairValues("0.5-2.5", x, y);
    WholePairSteps(0.5, 2);
    HalfSteps();
  }

  lemma HalfSteps()
    ensures UnitSteps(0.5, 2) == [0.5, 1.5, 2.5]
  {
    var u := UnitSteps(0.5, 2);
    assert |u| == 3 && u[0] == 0.5 && u[1] == 1.5 && u[2] == 2.5;
  }

  /** Bounds not a whole number apart: `getRange`'s loop never meets the upper bound of "1.5-4". */
  lemma ExpandDivergentExample()
    ensures Expand("1.5-4") == None
  {
    var x, y := "1.5", "4";
    assert x + "-" + y == "1.5-4";
    PairToken("1.5-4", x, y);
    ParseFractionExamples();
    PairValues("1.5-4", x, y);
    assert (4.0 - 1.5).Floor == 2;
  }

  /** "w.f" with one-digit w and f parses as w + f / 10. */
  lemma ParseTenths(w: nat, f: nat)
    requires w < 10 && f < 10
    ensures ParseNumber([DigitChar(w), '.', DigitChar(f)]) == w as real + f as real / 10.0
  {
    var x, y := [DigitChar(w)], [DigitChar(f)];
    assert DigitsValue(x) == w by { assert x[..0] == []; }
    assert DigitsValue(y) == f by { assert y[..0] == []; }
    assert Pow10(1) == 10;
    ParseDecimalLiteral(x, y);
    assert x + "." + y == [DigitChar(w), '.', DigitChar(f)];
  }

  lemma ParseFractionExamples()
    ensures ParseNumber("0.5") == 0.5 && ParseNumber("2.5") == 2.5
    ensures ParseNumber("1.5") == 1.5 && ParseNumber("4") == 4.0
  {
    assert ParseNumber("0.5") == 0.5 by {
      ParseTenths(0, 5);
      assert [DigitChar(0), '.', DigitChar(5)] == "0.5";
    }
    assert ParseNumber("2.5") == 2.5 by {
      ParseTenths(2, 5);
      assert [DigitChar(2), '.', DigitChar(5)] == "2.5";
    }
    assert ParseNumber("1.5") == 1.5 by {
      ParseTenths(1, 5);
      assert [DigitChar(1), '.', DigitChar(5)] == "1.5";
    }
    assert NatLiteral(4) == "4";
    ParseNatLiteral(4);
  }

}
