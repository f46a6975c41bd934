/**
 * `np.var` with its default `ddof=0`: the population variance, computed exactly.  For values
 * `x` with sum `S` and count `n`, the mean squared deviation from the mean is
 * `sum((n * x[i] - S)^2) / n^3`, which keeps every intermediate value an integer.
 */
module Statistics {

  function Sum(s: seq<int>): int
  {
    if s == [] then 0 else s[0] + Sum(s[1..])
  }

  function Square(x: int): int
  {
    x * x
  }

  lemma SquareSign(x: int)
    ensures Square(x) >= 0
    ensures x != 0 ==> Square(x) > 0
  {
  }

  /** The sum of `(n * x - total)^2` over the values `x` of `s`. */
  function ScaledDeviations(s: seq<int>, n: int, total: int): (r: int)
    ensures r >= 0
  {
    if s == [] then 0
    else
      SquareSign(n * s[0] - total);
      Square(n * s[0] - total) + ScaledDeviations(s[1..], n, total)
  }

  /** The mean squared deviation of `s` from its mean (divisor `|s|`). */
  function PopVariance(s: seq<int>): real
    requires |s| > 0
  {
    var n := |s|;
    ScaledDeviations(s, n, Sum(s)) as real / (n * n * n) as real
  }

  predicate AllEqual(s: seq<int>)
  {
    forall i, j :: 0 <= i < |s| && 0 <= j < |s| ==> s[i] == s[j]
  }

  lemma {:induction false} SumConstant(s: seq<int>, c: int)
    requires forall i :: 0 <= i < |s| ==> s[i] == c
    ensures Sum(s) == |s| * c
  {
    if s != [] {
      SumConstant(s[1..], c);
    }
  }

  lemma {:induction false} DeviationsZero(s: seq<int>, n: int, total: int)
    ensures ScaledDeviations(s, n, total) == 0 <==> forall i :: 0 <= i < |s| ==> n * s[i] == total
  {
    if s != [] {
      var tail := s[1..];
      DeviationsZero(tail, n, total);
      SquareSign(n * s[0] - total);
      assert forall i :: 1 <= i < |s| ==> s[i] == tail[i - 1];
      if !(forall i :: 0 <= i < |s| ==> n * s[i] == total) {
        var i :| 0 <= i < |s| && n * s[i] != total;
        if i > 0 {
          assert n * tail[i - 1] != total;
        }
      }
    }
  }

  lemma Cancel(n: int, a: int, b: int)
    requires n > 0 && n * a == n * b
    ensures a == b
  {
    assert a < b ==> n * a < n * b;
    assert b < a ==> n * b < n * a;
  }

  /** The variance is never negative. */
  lemma VarianceNonNegative(s: seq<int>)
    requires |s| > 0
    ensures PopVariance(s) >= 0.0
  {
    var n := |s|;
    assert n * n * n > 0;
  }

  /** The variance is zero exactly when every value is the same. */
  lemma VarianceZero(s: seq<int>)
    requires |s| > 0
    ensures PopVariance(s) == 0.0 <==> AllEqual(s)
  {
    var n := |s|;
    var d := ScaledDeviations(s, n, Sum(s));
    assert n * n * n > 0;
    assert PopVariance(s) == 0.0 <==> d == 0;
    DeviationsZero(s, n, Sum(s));
    if AllEqual(s) {
      SumConstant(s, s[0]);
    } else {
      var i, j :| 0 <= i < |s| && 0 <= j < |s| && s[i] != s[j];
      if n * s[i] == Sum(s) && n * s[j] == Sum(s) {
        Cancel(n, s[i], s[j]);
      }
    }
  }

  /** Two worked values: a constant window has variance 0, and `[0, 2]` has variance 1. */
  lemma VarianceExamples()
    ensures PopVariance([1, 1, 1]) == 0.0
    ensures PopVariance([0, 2]) == 1.0
  {
    assert Sum([0, 2]) == 2;
    assert ScaledDeviations([0, 2], 2, 2) == 8;
  }
}
