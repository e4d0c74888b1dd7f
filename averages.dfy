/** Sums, means and the minimum, as NumPy's `mean` and `min` compute them on lists. */
module Averages {

  function SumInt(s: seq<int>): int {
    if s == [] then 0 else s[0] + SumInt(s[1..])
  }

  function Sum(s: seq<real>): real {
    if s == [] then 0.0 else s[0] + Sum(s[1..])
  }

  /** `np.mean` of a list of ints, as a float. */
  function MeanInt(s: seq<int>): real
    requires |s| > 0
  {
    SumInt(s) as real / |s| as real
  }

  function Mean(s: seq<real>): real
    requires |s| > 0
  {
    Sum(s) / |s| as real
  }

  /** `np.min`: the smallest element, which is one of the elements. */
  function Min(s: seq<int>): (m: int)
    requires |s| > 0
    ensures m in s && forall i :: 0 <= i < |s| ==> m <= s[i]
  {
    if |s| == 1 then s[0]
    else
      var rest := Min(s[1..]);
      if s[0] <= rest then s[0] else rest
  }

  lemma {:induction false} SumAtLeastCountTimesMin(s: seq<int>)
    requires |s| > 0
    ensures SumInt(s) >= |s| * Min(s)
  {
    if |s| > 1 {
      SumAtLeastCountTimesMin(s[1..]);
      StepBound(|s| - 1, s[0], SumInt(s[1..]), Min(s), Min(s[1..]));
    }
  }

  /** The arithmetic of the inductive step: `x + rest >= (k + 1) * m` from `rest >= k * m'`, `m <= x`, `m <= m'`. */
  lemma StepBound(k: nat, x: int, rest: int, m: int, m': int)
    requires rest >= k * m' && m <= x && m <= m'
    ensures x + rest >= (k + 1) * m
  {
    assert k * m <= k * m';
    assert (k + 1) * m == k * m + m;
  }

  /** The minimum of a non-empty fps history never exceeds its mean. */
  lemma MinAtMostMean(s: seq<int>)
    requires |s| > 0
    ensures Min(s) as real <= MeanInt(s)
  {
    SumAtLeastCountTimesMin(s);
    CastBound(SumInt(s), |s|, Min(s));
  }

  lemma CastBound(sum: int, n: nat, m: int)
    requires n > 0 && sum >= n * m
    ensures m as real <= sum as real / n as real
  {
    assert (n * m) as real == n as real * m as real;
    DivLowerBound(sum as real, n as real, m as real);
  }

  lemma DivLowerBound(a: real, n: real, m: real)
    requires n > 0.0 && a >= n * m
    ensures a / n >= m
  {}

  lemma {:induction false} SumConstant(s: seq<real>, c: real)
    requires forall i :: 0 <= i < |s| ==> s[i] == c
    ensures Sum(s) == |s| as real * c
  {
    if s != [] {
      SumConstant(s[1..], c);
    }
  }

  lemma MeanConstant(s: seq<real>, c: real)
    requires |s| > 0 && forall i :: 0 <= i < |s| ==> s[i] == c
    ensures Mean(s) == c
  {
    SumConstant(s, c);
  }
}
