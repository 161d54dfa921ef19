/** Sums of real-valued sequences (numpy's `np.sum` and Python's `sum` over
    floats, taken here over exact reals) and the facts the model needs about them. */
module Sums {

  /** Sum of a sequence, peeling off the last element so that prefix sums
      `Sum(s[..k + 1]) == Sum(s[..k]) + s[k]` unfold in one step. */
  function Sum(s: seq<real>): real
  {
    if |s| == 0 then 0.0 else Sum(s[..|s| - 1]) + s[|s| - 1]
  }

  /** Sum of a sequence of naturals (journey lengths in ticks). */
  function SumNat(s: seq<nat>): nat
  {
    if |s| == 0 then 0 else SumNat(s[..|s| - 1]) + s[|s| - 1]
  }

  predicate NonNegative(s: seq<real>)
  {
    forall i :: 0 <= i < |s| ==> s[i] >= 0.0
  }

  lemma {:induction false} SumAppend(s: seq<real>, x: real)
    ensures Sum(s + [x]) == Sum(s) + x
  {
    assert (s + [x])[..|s|] == s;
  }

  lemma {:induction false} SumNonNegative(s: seq<real>)
    requires NonNegative(s)
    ensures Sum(s) >= 0.0
  {
    if |s| > 0 {
      SumNonNegative(s[..|s| - 1]);
    }
  }

  /** A non-negative sequence whose sum is zero is zero everywhere. */
  lemma {:induction false} SumZeroMeansAllZero(s: seq<real>)
    requires NonNegative(s)
    requires Sum(s) == 0.0
    ensures forall i :: 0 <= i < |s| ==> s[i] == 0.0
  {
    if |s| > 0 {
      SumNonNegative(s[..|s| - 1]);
      SumZeroMeansAllZero(s[..|s| - 1]);
      forall i | 0 <= i < |s| - 1 ensures s[i] == 0.0 {
        assert s[..|s| - 1][i] == s[i];
      }
    }
  }

  /** Any single element of a non-negative sequence is at most its sum. */
  lemma {:induction false} ElementAtMostSum(s: seq<real>, k: nat)
    requires NonNegative(s)
    requires k < |s|
    ensures s[k] <= Sum(s)
  {
    SumNonNegative(s[..|s| - 1]);
    if k < |s| - 1 {
      ElementAtMostSum(s[..|s| - 1], k);
    }
  }

  /** Replacing one element changes the sum by the difference. */
  lemma {:induction false} SumUpdate(s: seq<real>, i: nat, v: real)
    requires i < |s|
    ensures Sum(s[i := v]) == Sum(s) - s[i] + v
  {
    if i < |s| - 1 {
      assert s[i := v][..|s| - 1] == s[..|s| - 1][i := v];
      SumUpdate(s[..|s| - 1], i, v);
    } else {
      assert s[i := v][..|s| - 1] == s[..|s| - 1];
    }
  }

  /** Every element divided by `c`. */
  function Divided(s: seq<real>, c: real): (r: seq<real>)
    requires c != 0.0
    ensures |r| == |s|
  {
    seq(|s|, i requires 0 <= i < |s| => s[i] / c)
  }

  lemma {:induction false} SumDivided(s: seq<real>, c: real)
    requires c != 0.0
    ensures Sum(Divided(s, c)) == Sum(s) / c
  {
    if |s| > 0 {
      var init, last := s[..|s| - 1], s[|s| - 1];
      assert Divided(s, c)[..|s| - 1] == Divided(init, c);
      SumDivided(init, c);
      DivisionDistributes(Sum(init), last, c);
    }
  }

  lemma SelfQuotient(x: real)
    requires x != 0.0
    ensures x / x == 1.0
  {
  }

  lemma DivisionDistributes(x: real, y: real, c: real)
    requires c != 0.0
    ensures x / c + y / c == (x + y) / c
  {
  }

  /** Every element shifted by `c`. */
  function Shifted(s: seq<real>, c: real): (r: seq<real>)
    ensures |r| == |s|
  {
    seq(|s|, i requires 0 <= i < |s| => s[i] + c)
  }

  lemma {:induction false} SumShifted(s: seq<real>, c: real)
    ensures Sum(Shifted(s, c)) == Sum(s) + |s| as real * c
  {
    if |s| > 0 {
      assert Shifted(s, c)[..|s| - 1] == Shifted(s[..|s| - 1], c);
      SumShifted(s[..|s| - 1], c);
    }
  }

  /** Sum of a sequence of integers (agent counts). */
  function SumInts(s: seq<int>): int
  {
    if |s| == 0 then 0 else SumInts(s[..|s| - 1]) + s[|s| - 1]
  }

  lemma {:induction false} SumIntsUpdate(s: seq<int>, i: nat, v: int)
    requires i < |s|
    ensures SumInts(s[i := v]) == SumInts(s) - s[i] + v
  {
    if i < |s| - 1 {
      assert s[i := v][..|s| - 1] == s[..|s| - 1][i := v];
      SumIntsUpdate(s[..|s| - 1], i, v);
    } else {
      assert s[i := v][..|s| - 1] == s[..|s| - 1];
    }
  }

  lemma {:induction false} SumIntsAppend(s: seq<int>, x: int)
    ensures SumInts(s + [x]) == SumInts(s) + x
  {
    assert (s + [x])[..|s|] == s;
  }
}
