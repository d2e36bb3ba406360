/** `np.cumsum(explained_variance_ratio)`: the running totals of the PCA variance ratios. */
module Variance {
  import opened Quantiles

  /** Left-to-right sum, the order in which a running total accumulates. */
  function Sum(s: seq<real>): real {
    if |s| == 0 then 0.0 else Sum(s[..|s| - 1]) + s[|s| - 1]
  }

  predicate NonNegative(s: seq<real>) {
    forall i :: 0 <= i < |s| ==> s[i] >= 0.0
  }

  /** With non-negative entries a longer prefix never sums to less, and no prefix exceeds the total. */
  lemma {:induction false} PrefixSumMonotone(s: seq<real>, i: nat, j: nat)
    requires NonNegative(s) && i <= j <= |s|
    ensures 0.0 <= Sum(s[..i]) <= Sum(s[..j])
    decreases j
  {
    if i < j {
      PrefixSumMonotone(s, i, j - 1);
      assert s[..j][..j - 1] == s[..j - 1];
    } else if j > 0 {
      PrefixSumMonotone(s, 0, j - 1);
      assert s[..j][..j - 1] == s[..j - 1];
    }
  }

  /**
   * The running totals: entry i is the sum of the first i + 1 ratios. For
   * ratios that are non-negative the totals never decrease and end at the
   * overall sum; when the ratios sum to 1 every total lies in [0, 1].
   */
  method CumulativeSum(ratios: seq<real>) returns (cum: seq<real>)
    ensures |cum| == |ratios|
    ensures forall i :: 0 <= i < |cum| ==> cum[i] == Sum(ratios[..i + 1])
    ensures |cum| > 0 ==> cum[|cum| - 1] == Sum(ratios)
    ensures NonNegative(ratios) ==> Sorted(cum)
    ensures NonNegative(ratios) && Sum(ratios) == 1.0 ==> forall i :: 0 <= i < |cum| ==> 0.0 <= cum[i] <= 1.0
  {
    cum := [];
    var total := 0.0;
    var n := 0;
    while n < |ratios|
      invariant 0 <= n <= |ratios|
      invariant |cum| == n
      invariant total == Sum(ratios[..n])
      invariant forall i :: 0 <= i < n ==> cum[i] == Sum(ratios[..i + 1])
    {
      assert ratios[..n + 1][..n] == ratios[..n];
      total := total + ratios[n];
      cum := cum + [total];
      n := n + 1;
    }
    assert ratios[..|ratios|] == ratios;
    if NonNegative(ratios) {
      forall i, j | 0 <= i < j < |cum|
        ensures cum[i] <= cum[j]
      {
        PrefixSumMonotone(ratios, i + 1, j + 1);
      }
      forall i | 0 <= i < |cum|
        ensures 0.0 <= cum[i] <= Sum(ratios)
      {
        PrefixSumMonotone(ratios, i + 1, |ratios|);
      }
    }
  }
}
