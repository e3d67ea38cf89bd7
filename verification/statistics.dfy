/** Column means as pandas computes them: NaN entries are skipped, an
    infinite entry makes the mean infinite, and a column with no other
    entry has a NaN mean. */
module Statistics {
  import opened Values

  /** Number of entries that are not NaN (pandas' `count`). */
  function NonNaN(col: seq<Value>): (n: nat)
    ensures n <= |col|
    ensures n == 0 <==> forall i :: 0 <= i < |col| ==> col[i].NaN?
  {
    if |col| == 0 then 0 else (if col[0].NaN? then 0 else 1) + NonNaN(col[1..])
  }

  function HasInf(col: seq<Value>): (b: bool)
    ensures b <==> exists i :: 0 <= i < |col| && col[i].Inf?
  {
    if |col| == 0 then false
    else
      assert forall i :: 0 < i < |col| ==> col[i] == col[1..][i - 1];
      col[0].Inf? || HasInf(col[1..])
  }

  /** Sum of the finite entries. */
  function FiniteSum(col: seq<Value>): real {
    if |col| == 0 then 0.0 else (if col[0].Fin? then col[0].x else 0.0) + FiniteSum(col[1..])
  }

  /** `Series.mean()` with NaN skipped. */
  function Mean(col: seq<Value>): (r: Value)
    ensures r.NaN? <==> forall i :: 0 <= i < |col| ==> col[i].NaN?
    ensures r.Inf? <==> exists i :: 0 <= i < |col| && col[i].Inf?
  {
    if NonNaN(col) == 0 then NaN
    else if HasInf(col) then Inf
    else Fin(FiniteSum(col) / NonNaN(col) as real)
  }

  /** Entries that are finite lie in `[lo, hi]`. */
  predicate FiniteWithin(col: seq<Value>, lo: real, hi: real) {
    forall i :: 0 <= i < |col| && col[i].Fin? ==> lo <= col[i].x <= hi
  }

  /** `n * c` by repeated addition, which keeps the induction below linear. */
  function Repeat(n: nat, c: real): real {
    if n == 0 then 0.0 else c + Repeat(n - 1, c)
  }

  lemma {:induction false} RepeatIsProduct(n: nat, c: real)
    ensures Repeat(n, c) == n as real * c
  {
    if n > 0 {
      RepeatIsProduct(n - 1, c);
    }
  }

  lemma {:induction false} FiniteSumBounds(col: seq<Value>, lo: real, hi: real)
    requires FiniteWithin(col, lo, hi)
    requires !HasInf(col)
    ensures Repeat(NonNaN(col), lo) <= FiniteSum(col) <= Repeat(NonNaN(col), hi)
  {
    if |col| > 0 {
      var tail := col[1..];
      assert FiniteWithin(tail, lo, hi) by {
        forall i | 0 <= i < |tail| && tail[i].Fin? ensures lo <= tail[i].x <= hi {
          assert tail[i] == col[i + 1];
        }
      }
      FiniteSumBounds(tail, lo, hi);
    }
  }

  lemma AverageBounds(s: real, n: real, lo: real, hi: real)
    requires n > 0.0 && n * lo <= s <= n * hi
    ensures lo <= s / n <= hi
  {
  }

  lemma AverageOfRepeat(s: real, n: nat, lo: real, hi: real)
    requires n > 0 && Repeat(n, lo) <= s <= Repeat(n, hi)
    ensures lo <= s / n as real <= hi
  {
    RepeatIsProduct(n, lo);
    RepeatIsProduct(n, hi);
    AverageBounds(s, n as real, lo, hi);
  }

  /** A finite mean lies within any bounds that hold of every finite entry:
      for instance, Dice coefficients in [0, 1] have a mean in [0, 1]. */
  lemma MeanWithinBounds(col: seq<Value>, lo: real, hi: real)
    requires FiniteWithin(col, lo, hi)
    ensures Mean(col).Fin? ==> lo <= Mean(col).x <= hi
  {
    if Mean(col).Fin? {
      FiniteSumBounds(col, lo, hi);
      AverageOfRepeat(FiniteSum(col), NonNaN(col), lo, hi);
    }
  }

  /** Three cases with values 0.9, 0.8 and 0.7 have mean 0.8 in exact arithmetic. */
  lemma MeanOfThreeCases()
    ensures Mean([Fin(0.9), Fin(0.8), Fin(0.7)]) == Fin(0.8)
  {
    var col := [Fin(0.9), Fin(0.8), Fin(0.7)];
    assert col[1..] == [Fin(0.8), Fin(0.7)] && col[1..][1..] == [Fin(0.7)];
    assert NonNaN(col) == 3;
    assert FiniteSum(col) == 2.4;
  }
}
