/** Exact sums over finite sequences of amounts, and the facts about them that
    the statistics, forecasts and aggregations rely on. Amounts are `real`:
    exact arithmetic stands in for the source's floating point. */
module Sums {

  /** Left-to-right total, the model of `reduce((a, b) => a + b, 0)`. */
  function Sum(s: seq<real>): real
  {
    if |s| == 0 then 0.0 else Sum(s[..|s| - 1]) + s[|s| - 1]
  }

  /** Arithmetic mean of a non-empty sequence. */
  function Mean(s: seq<real>): real
    requires |s| > 0
  {
    Sum(s) / |s| as real
  }

  /** Sum of `(i + offset) * s[i]`: the cross term of a regression on positions
      `offset, offset + 1, …`. */
  function WeightedSum(s: seq<real>, offset: int): real
  {
    if |s| == 0 then 0.0
    else WeightedSum(s[..|s| - 1], offset) + (|s| - 1 + offset) as real * s[|s| - 1]
  }

  /** Sum of the positions `offset … offset + n - 1`. */
  function SumPositions(n: nat, offset: int): int
  {
    if n == 0 then 0 else SumPositions(n - 1, offset) + (n - 1 + offset)
  }

  /** Sum of the squared positions `offset² … (offset + n - 1)²`. */
  function SumSquaredPositions(n: nat, offset: int): int
  {
    if n == 0 then 0 else SumSquaredPositions(n - 1, offset) + (n - 1 + offset) * (n - 1 + offset)
  }

  /** Sum of squared differences from a fixed centre `m`. */
  function SquaredDeviation(s: seq<real>, m: real): real
  {
    if |s| == 0 then 0.0
    else SquaredDeviation(s[..|s| - 1], m) + (s[|s| - 1] - m) * (s[|s| - 1] - m)
  }

  /** Sum of squared residuals of `s` around the line `slope * (i + offset) + intercept`. */
  function SquaredResiduals(s: seq<real>, slope: real, intercept: real, offset: int): real
  {
    if |s| == 0 then 0.0
    else
      var e := s[|s| - 1] - (slope * (|s| - 1 + offset) as real + intercept);
      SquaredResiduals(s[..|s| - 1], slope, intercept, offset) + e * e
  }

  /** `x` raised to a natural power. */
  function Pow(x: real, n: nat): real
  {
    if n == 0 then 1.0 else x * Pow(x, n - 1)
  }

  /** Every entry of `s` equals every other. */
  predicate Constant(s: seq<real>)
  {
    forall i, j :: 0 <= i < |s| && 0 <= j < |s| ==> s[i] == s[j]
  }

  /** Every entry of `s` is non-negative. */
  predicate NonNegative(s: seq<real>)
  {
    forall i :: 0 <= i < |s| ==> s[i] >= 0.0
  }

  lemma {:induction false} SumAppend(a: seq<real>, b: seq<real>)
    ensures Sum(a + b) == Sum(a) + Sum(b)
    decreases |b|
  {
    if |b| > 0 {
      assert (a + b)[..|a + b| - 1] == a + b[..|b| - 1];
      SumAppend(a, b[..|b| - 1]);
    } else {
      assert a + b == a;
    }
  }

  /** The sum of a prefix extended by one entry. */
  lemma SumPrefixStep(s: seq<real>, i: nat)
    requires i < |s|
    ensures Sum(s[..i + 1]) == Sum(s[..i]) + s[i]
  {
    assert s[..i + 1][..i] == s[..i];
  }

  /** Moving a window one step to the right: drop its first entry, add the next. */
  lemma SlideWindow(s: seq<real>, lo: nat, hi: nat)
    requires lo < hi < |s|
    ensures Sum(s[lo + 1..hi + 1]) == Sum(s[lo..hi]) - s[lo] + s[hi]
  {
    assert s[lo..hi + 1] == [s[lo]] + s[lo + 1..hi + 1];
    SumAppend([s[lo]], s[lo + 1..hi + 1]);
    assert Sum([s[lo]]) == s[lo] by { assert [s[lo]][..0] == []; }
    assert s[lo..hi + 1][..hi - lo] == s[lo..hi];
  }

  lemma {:induction false} SumConstant(s: seq<real>, c: real)
    requires forall i :: 0 <= i < |s| ==> s[i] == c
    ensures Sum(s) == |s| as real * c
  {
    if |s| > 0 {
      SumConstant(s[..|s| - 1], c);
    }
  }

  lemma {:induction false} SumBounds(s: seq<real>, lo: real, hi: real)
    requires forall i :: 0 <= i < |s| ==> lo <= s[i] <= hi
    ensures |s| as real * lo <= Sum(s) <= |s| as real * hi
  {
    if |s| > 0 {
      SumBounds(s[..|s| - 1], lo, hi);
    }
  }

  /** A mean lies between any lower and upper bound of its entries. */
  lemma MeanBetween(s: seq<real>, lo: real, hi: real)
    requires |s| > 0
    requires forall i :: 0 <= i < |s| ==> lo <= s[i] <= hi
    ensures lo <= Mean(s) <= hi
  {
    SumBounds(s, lo, hi);
    var n := |s| as real;
    assert Sum(s) / n >= lo by { assert Sum(s) >= n * lo; }
    assert Sum(s) / n <= hi by { assert Sum(s) <= n * hi; }
  }

  lemma MeanConstant(s: seq<real>, c: real)
    requires |s| > 0
    requires forall i :: 0 <= i < |s| ==> s[i] == c
    ensures Mean(s) == c
  {
    MeanBetween(s, c, c);
  }

  lemma {:induction false} NonNegativeSum(s: seq<real>)
    requires NonNegative(s)
    ensures Sum(s) >= 0.0
  {
    if |s| > 0 {
      NonNegativeSum(s[..|s| - 1]);
    }
  }

  lemma {:induction false} WeightedSumConstant(s: seq<real>, c: real, offset: int)
    requires forall i :: 0 <= i < |s| ==> s[i] == c
    ensures WeightedSum(s, offset) == SumPositions(|s|, offset) as real * c
  {
    if |s| > 0 {
      WeightedSumConstant(s[..|s| - 1], c, offset);
    }
  }

  /** Shifting every position by one adds the plain sum to the weighted sum. */
  lemma {:induction false} WeightedSumShift(s: seq<real>, offset: int)
    ensures WeightedSum(s, offset + 1) == WeightedSum(s, offset) + Sum(s)
  {
    if |s| > 0 {
      WeightedSumShift(s[..|s| - 1], offset);
    }
  }

  /** Closed form of the sum of positions: `n(n-1)/2 + n·offset`. */
  lemma {:induction false} SumPositionsClosed(n: nat, offset: int)
    ensures 2 * SumPositions(n, offset) == n * (n - 1) + 2 * n * offset
  {
    if n > 0 {
      SumPositionsClosed(n - 1, offset);
    }
  }

  /** Closed form of the sum of squares `0² + … + (n-1)²`. */
  lemma {:induction false} SumSquaredPositionsClosed(n: nat)
    ensures 6 * SumSquaredPositions(n, 0) == (n - 1) * n * (2 * n - 1)
  {
    if n > 0 {
      SumSquaredPositionsClosed(n - 1);
      assert 6 * SumSquaredPositions(n, 0)
          == (n - 2) * (n - 1) * (2 * n - 3) + 6 * (n - 1) * (n - 1);
    }
  }

  /** Shifting every position by `offset` adds `n · offset` to their sum. */
  lemma {:induction false} SumPositionsShift(n: nat, offset: int)
    ensures SumPositions(n, offset) == SumPositions(n, 0) + n * offset
  {
    if n > 0 {
      SumPositionsShift(n - 1, offset);
      assert (n - 1) * offset + offset == n * offset;
    }
  }

  /** Squared positions shifted by `offset` expand binomially. */
  lemma {:induction false} SumSquaredPositionsShift(n: nat, offset: int)
    ensures SumSquaredPositions(n, offset)
         == SumSquaredPositions(n, 0) + 2 * offset * SumPositions(n, 0) + n * offset * offset
  {
    if n > 0 {
      SumSquaredPositionsShift(n - 1, offset);
      SquareShiftStep(n, offset, SumSquaredPositions(n - 1, 0), SumPositions(n - 1, 0),
        SumSquaredPositions(n - 1, offset));
    }
  }

  /** One step of `SumSquaredPositionsShift`, over plain integers: `q` and `p`
      are the sums up to `n − 1` from 0, `r` the shifted sum up to `n − 1`. */
  lemma SquareShiftStep(n: int, o: int, q: int, p: int, r: int)
    requires r == q + 2 * o * p + (n - 1) * o * o
    ensures r + (n - 1 + o) * (n - 1 + o)
         == (q + (n - 1) * (n - 1)) + 2 * o * (p + (n - 1)) + n * o * o
  {
    assert (n - 1 + o) * (n - 1 + o) == (n - 1) * (n - 1) + 2 * o * (n - 1) + o * o;
  }

  /** Shifting positions changes neither `n·Σx²` minus `(Σx)²`: the polynomial identity. */
  lemma ShiftInvariance(n: int, o: int, p0: int, q0: int, p: int, q: int)
    requires p == p0 + n * o && q == q0 + 2 * o * p0 + n * o * o
    ensures n * q - p * p == n * q0 - p0 * p0
  {
    calc {
      (p0 + n * o) * (p0 + n * o);
      p0 * p0 + 2 * (n * o) * p0 + (n * o) * (n * o);
    }
    calc {
      n * (q0 + 2 * o * p0 + n * o * o);
      n * q0 + 2 * (n * o) * p0 + (n * o) * (n * o);
    }
  }

  /** `12·(n·q − p²)` for `2p = n(n−1)` and `6q = (n−1)n(2n−1)`. */
  lemma DenominatorAlgebra(n: int, p: int, q: int)
    requires 2 * p == n * (n - 1)
    requires 6 * q == (n - 1) * n * (2 * n - 1)
    ensures 12 * (n * q - p * p) == n * n * (n * n - 1)
  {
    var m := n * (n - 1);
    assert 12 * (n * q) == 2 * n * (6 * q);
    assert 12 * (p * p) == 3 * (2 * p) * (2 * p);
    assert 2 * n * (6 * q) == 2 * m * (n * (2 * n - 1));
    assert 3 * m * m == m * (3 * n * n - 3 * n);
    assert 2 * m * (n * (2 * n - 1)) == m * (4 * n * n - 2 * n);
    assert m * (n * n + n) == n * n * (n * n - 1);
  }

  /** `n·Σx² − (Σx)²` over `n` consecutive positions does not depend on where
      the positions start, and equals `n²(n²−1)/12`. */
  lemma RegressionDenominator(n: nat, offset: int)
    ensures 12 * (n * SumSquaredPositions(n, offset) - SumPositions(n, offset) * SumPositions(n, offset))
         == n * n * (n * n - 1)
  {
    var p, q := SumPositions(n, offset), SumSquaredPositions(n, offset);
    var p0, q0 := SumPositions(n, 0), SumSquaredPositions(n, 0);
    assert q == q0 + 2 * offset * p0 + n * offset * offset by {
      SumSquaredPositionsShift(n, offset);
    }
    SumPositionsShift(n, offset);
    ShiftInvariance(n, offset, p0, q0, p, q);
    assert 12 * (n * q0 - p0 * p0) == n * n * (n * n - 1) by {
      SumPositionsClosed(n, 0);
      SumSquaredPositionsClosed(n);
      DenominatorAlgebra(n, p0, q0);
    }
  }

  /** For two or more positions the regression denominator is strictly positive. */
  lemma RegressionDenominatorPositive(n: nat, offset: int)
    requires n >= 2
    ensures n * SumSquaredPositions(n, offset) - SumPositions(n, offset) * SumPositions(n, offset) > 0
  {
    RegressionDenominator(n, offset);
    assert n * n * (n * n - 1) > 0 by {
      assert n * n >= 4;
      assert n * n - 1 >= 3;
    }
  }

  lemma SquareNonNegative(x: real)
    ensures x * x >= 0.0
  {
    if x < 0.0 {
      assert x * x == (-x) * (-x);
    }
  }

  lemma {:induction false} SquaredDeviationNonNegative(s: seq<real>, m: real)
    ensures SquaredDeviation(s, m) >= 0.0
  {
    if |s| > 0 {
      SquaredDeviationNonNegative(s[..|s| - 1], m);
      SquareNonNegative(s[|s| - 1] - m);
    }
  }

  lemma {:induction false} SquaredResidualsNonNegative(s: seq<real>, slope: real, intercept: real, offset: int)
    ensures SquaredResiduals(s, slope, intercept, offset) >= 0.0
  {
    if |s| > 0 {
      SquaredResidualsNonNegative(s[..|s| - 1], slope, intercept, offset);
      SquareNonNegative(s[|s| - 1] - (slope * (|s| - 1 + offset) as real + intercept));
    }
  }

  lemma {:induction false} PowBounds(x: real, n: nat)
    requires 0.0 < x <= 1.0
    ensures 0.0 < Pow(x, n) <= 1.0
  {
    if n > 0 {
      PowBounds(x, n - 1);
      assert x * Pow(x, n - 1) <= 1.0 * Pow(x, n - 1);
    }
  }

  /** `x·f` lies between `lo·x` and `hi·x` for non-negative `x` and `f` in `[lo, hi]`. */
  lemma Scale(x: real, f: real, lo: real, hi: real)
    requires x >= 0.0 && lo <= f <= hi
    ensures lo * x <= x * f <= hi * x
  {
    assert x * f - lo * x == x * (f - lo);
    assert hi * x - x * f == x * (hi - f);
  }
}
