/** Arithmetic on the shared pool: minimum and maximum, sums of columns, and
    the greedy day-by-day take of the rental stage. */
module Pool {

  function Min(a: real, b: real): real { if a <= b then a else b }
  function Max(a: real, b: real): real { if a >= b then a else b }

  function Sum(s: seq<real>): real
  {
    if s == [] then 0.0 else s[0] + Sum(s[1..])
  }

  /** A column whose first `k` entries are `c` and whose others are 0 sums to `k·c`. */
  lemma {:induction false} SumPrefixConst(s: seq<real>, k: nat, c: real)
    requires k <= |s|
    requires forall i :: 0 <= i < k ==> s[i] == c
    requires forall i :: k <= i < |s| ==> s[i] == 0.0
    ensures Sum(s) == k as real * c
    decreases |s|
  {
    if s != [] {
      if k > 0 {
        SumPrefixConst(s[1..], k - 1, c);
      } else {
        SumPrefixConst(s[1..], 0, c);
      }
    }
  }

  /** The sum of a column is the sum of all but its last entry, plus the last. */
  lemma {:induction false} SumSnoc(s: seq<real>)
    requires s != []
    ensures Sum(s) == Sum(s[..|s| - 1]) + s[|s| - 1]
    decreases |s|
  {
    if |s| > 1 {
      assert s[1..][..|s| - 2] == s[..|s| - 1][1..];
      SumSnoc(s[1..]);
    }
  }

  /** Stage 4, day by day: each day takes `min(total, pool)` of what the
      earlier days left. */
  function GreedyShares(total: real, b: real, k: nat): (r: seq<real>)
    ensures |r| == k
    decreases k
  {
    if k == 0 then [] else [Min(total, b)] + GreedyShares(total, b - Min(total, b), k - 1)
  }

  /** The pool after `k` greedy days. */
  function GreedyLeft(total: real, b: real, k: nat): real
    decreases k
  {
    if k == 0 then b else GreedyLeft(total, b - Min(total, b), k - 1)
  }

  // ---------------------------------------------------------------------
  // The greedy rental stage.
  // ---------------------------------------------------------------------

  /** Each day's share and the last pool account for the whole pool. */
  lemma {:induction false} GreedyAccounts(total: real, b: real, k: nat)
    ensures Sum(GreedyShares(total, b, k)) + GreedyLeft(total, b, k) == b
    decreases k
  {
    if k > 0 {
      var a := Min(total, b);
      assert GreedyShares(total, b, k)[1..] == GreedyShares(total, b - a, k - 1);
      GreedyAccounts(total, b - a, k - 1);
    }
  }

  /** From a non-negative pool, every day takes between 0 and the full total,
      the shares never increase from one day to the next, once a day takes
      less than the total every later day takes nothing, and the pool never
      goes negative. */
  lemma {:induction false} GreedyShape(total: real, b: real, k: nat)
    requires total > 0.0 && b >= 0.0
    ensures forall i :: 0 <= i < k ==> 0.0 <= GreedyShares(total, b, k)[i] <= total
    ensures forall i, j :: 0 <= i < j < k ==> GreedyShares(total, b, k)[j] <= GreedyShares(total, b, k)[i]
    ensures forall i, j :: 0 <= i < j < k && GreedyShares(total, b, k)[i] < total ==> GreedyShares(total, b, k)[j] == 0.0
    ensures GreedyLeft(total, b, k) >= 0.0
    decreases k
  {
    if k > 0 {
      var a := Min(total, b);
      GreedyShape(total, b - a, k - 1);
      var s := GreedyShares(total, b, k);
      var rest := GreedyShares(total, b - a, k - 1);
      assert s == [a] + rest;
      assert forall i :: 0 <= i < k - 1 ==> s[i + 1] == rest[i];
      if a < total {
        assert b - a == 0.0;
        ZeroPoolTakesNothing(total, k - 1);
      }
    }
  }

  /** An empty pool gives nothing to anyone. */
  lemma {:induction false} ZeroPoolTakesNothing(total: real, k: nat)
    requires total > 0.0
    ensures forall i :: 0 <= i < k ==> GreedyShares(total, 0.0, k)[i] == 0.0
  {
    if k > 0 {
      ZeroPoolTakesNothing(total, k - 1);
      assert GreedyShares(total, 0.0, k) == [0.0] + GreedyShares(total, 0.0, k - 1);
    }
  }

  /** The days together take the smaller of the pool and `k` times the total. */
  lemma {:induction false} GreedySum(total: real, b: real, k: nat)
    requires total > 0.0 && b >= 0.0
    ensures Sum(GreedyShares(total, b, k)) == Min(b, k as real * total)
    decreases k
  {
    if k > 0 {
      var a := Min(total, b);
      var rest := GreedyShares(total, b - a, k - 1);
      var s := GreedyShares(total, b, k);
      assert s[1..] == rest;
      GreedySum(total, b - a, k - 1);
      GreedyStep(total, b, k, Sum(s), Sum(rest));
    }
  }

  lemma GreedyStep(total: real, b: real, k: nat, s: real, r: real)
    requires total > 0.0 && b >= 0.0 && k > 0
    requires s == Min(total, b) + r
    requires r == Min(b - Min(total, b), (k - 1) as real * total)
    ensures s == Min(b, k as real * total)
  {
  }
}
