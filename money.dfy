/** Monetary arithmetic. Amounts are exact reals; Python's `round(x, 2)` and
    `round(x, 3)` become rounding to the nearest hundredth (thousandth), ties
    to even. Binary floating point is not modelled. */
module Money {

  function Abs(x: real): real {
    if x < 0.0 then -x else x
  }

  /** Nearest integer, ties to even (the rule Python's `round` applies). */
  function RoundHalfEven(y: real): (n: int)
    ensures n as real - 0.5 <= y <= n as real + 0.5
  {
    var f := y.Floor;
    var frac := y - f as real;
    if frac > 0.5 then f + 1
    else if frac < 0.5 then f
    else if f % 2 == 0 then f
    else f + 1
  }

  /** `round(x, 2)` */
  function Round2(x: real): (r: real)
    ensures -0.005 <= r - x <= 0.005
  {
    RoundHalfEven(x * 100.0) as real / 100.0
  }

  /** `round(x, 3)` */
  function Round3(x: real): (r: real)
    ensures -0.0005 <= r - x <= 0.0005
  {
    RoundHalfEven(x * 1000.0) as real / 1000.0
  }

  /** Rounding half to even commutes with negation. */
  lemma RoundHalfEvenNeg(y: real)
    ensures RoundHalfEven(-y) == -RoundHalfEven(y)
  {
    var f := y.Floor;
    if f as real == y {
      assert (-y).Floor == -f;
    } else {
      assert (-y).Floor == -f - 1;
      assert (-f - 1) % 2 == 0 <==> f % 2 != 0;
    }
  }

  /** Rounding to cents is symmetric: `round(-x, 2) == -round(x, 2)`. */
  lemma Round2Neg(x: real)
    ensures Round2(-x) == -Round2(x)
  {
    assert -x * 100.0 == -(x * 100.0);
    RoundHalfEvenNeg(x * 100.0);
  }

  /** A whole number of cents is left unchanged by rounding to cents. */
  lemma Round2Cents(k: int)
    ensures Round2(k as real / 100.0) == k as real / 100.0
  {
    assert (k as real / 100.0) * 100.0 == k as real;
    assert (k as real).Floor == k;
  }

  /** Rounding to cents twice is rounding once. */
  lemma Round2Idempotent(x: real)
    ensures Round2(Round2(x)) == Round2(x)
  {
    Round2Cents(RoundHalfEven(x * 100.0));
  }

  /** Sum of a sequence, accumulated from the left as Python's `+=` loops and `sum` do. */
  function Sum(xs: seq<real>): real
    decreases |xs|
  {
    if |xs| == 0 then 0.0 else Sum(xs[..|xs| - 1]) + xs[|xs| - 1]
  }

  lemma {:induction false} SumAppend(xs: seq<real>, x: real)
    ensures Sum(xs + [x]) == Sum(xs) + x
  {
    assert (xs + [x])[..|xs|] == xs;
  }

  /** Summing a concatenation adds the two sums. */
  lemma {:induction false} SumConcat(xs: seq<real>, ys: seq<real>)
    ensures Sum(xs + ys) == Sum(xs) + Sum(ys)
    decreases |ys|
  {
    if |ys| == 0 {
      assert xs + ys == xs;
    } else {
      var ys' := ys[..|ys| - 1];
      assert xs + ys == (xs + ys') + [ys[|ys| - 1]];
      SumAppend(xs + ys', ys[|ys| - 1]);
      SumConcat(xs, ys');
      SumAppend(ys', ys[|ys| - 1]);
      assert ys == ys' + [ys[|ys| - 1]];
    }
  }

  /** A sum of non-negative terms is non-negative. */
  lemma {:induction false} SumNonNegative(xs: seq<real>)
    requires forall i :: 0 <= i < |xs| ==> xs[i] >= 0.0
    ensures Sum(xs) >= 0.0
    decreases |xs|
  {
    if |xs| > 0 {
      SumNonNegative(xs[..|xs| - 1]);
    }
  }
}
