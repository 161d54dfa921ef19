/** The two random sources flee.py draws from, made explicit: Python's
    `random.random()` (the departure test) and numpy's global generator behind
    `np.random.choice` (route and conflict-zone choice). Each is a stream of
    uniform draws in [0, 1) with a cursor; consuming a draw advances the cursor. */
module Random {
  import opened Sums

  type Unit = r: real | 0.0 <= r < 1.0

  datatype Stream = Stream(draw: nat -> Unit, pos: nat)
  {
    /** The value the next call would return. */
    function Peek(): Unit
    {
      draw(pos)
    }

    /** The stream after one draw has been consumed. */
    function Next(): (s: Stream)
      ensures s.draw == draw && s.pos == pos + 1
    {
      this.(pos := pos + 1)
    }
  }

  /** `np.random.choice(range(n), p)` with the uniform draw `u`: the first index
      whose cumulative probability exceeds `u` (numpy takes the cumulative sum
      and searches it for `u`). `acc` is the sum of `p[..i]`. */
  function ChoiceFrom(p: seq<real>, u: real, i: nat, acc: real): (k: nat)
    requires i <= |p|
    ensures i <= k <= |p|
    decreases |p| - i
  {
    if i == |p| then |p|
    else if u < acc + p[i] then i
    else ChoiceFrom(p, u, i + 1, acc + p[i])
  }

  /** The outcome index numpy's `choice` returns for the uniform draw `u`;
      `|p|` only when `u` lies past the total. */
  function Choice(p: seq<real>, u: real): (k: nat)
    ensures k <= |p|
  {
    ChoiceFrom(p, u, 0, 0.0)
  }

  /** Cumulative probability of the first `k` outcomes. */
  function Cumulative(p: seq<real>, k: nat): real
    requires k <= |p|
  {
    Sum(p[..k])
  }

  lemma {:induction false} CumulativeStep(p: seq<real>, k: nat)
    requires k < |p|
    ensures Cumulative(p, k + 1) == Cumulative(p, k) + p[k]
  {
    assert p[..k + 1][..k] == p[..k];
  }

  lemma {:induction false} CumulativeMonotone(p: seq<real>, i: nat, j: nat)
    requires NonNegative(p)
    requires i <= j <= |p|
    ensures Cumulative(p, i) <= Cumulative(p, j)
    decreases j - i
  {
    if i < j {
      CumulativeStep(p, j - 1);
      CumulativeMonotone(p, i, j - 1);
    }
  }

  lemma {:induction false} ChoiceFromInterval(p: seq<real>, u: real, i: nat, acc: real)
    requires NonNegative(p)
    requires i <= |p|
    requires acc == Cumulative(p, i) && acc <= u < Sum(p)
    ensures var k := ChoiceFrom(p, u, i, acc);
      i <= k < |p| && Cumulative(p, k) <= u < Cumulative(p, k + 1)
    decreases |p| - i
  {
    assert p[..|p|] == p;
    if i < |p| {
      CumulativeStep(p, i);
      if !(u < acc + p[i]) {
        ChoiceFromInterval(p, u, i + 1, acc + p[i]);
      }
    }
  }

  /** The draw `u` selects outcome `k` exactly when it falls in the interval
      [Cumulative(p, k), Cumulative(p, k + 1)), whose length is `p[k]`: each
      outcome is chosen with probability equal to its weight. */
  lemma ChoiceIsInterval(p: seq<real>, u: real, k: nat)
    requires NonNegative(p)
    requires 0.0 <= u < Sum(p)
    requires k < |p|
    ensures Choice(p, u) == k <==> Cumulative(p, k) <= u < Cumulative(p, k + 1)
  {
    assert Cumulative(p, 0) == 0.0;
    ChoiceFromInterval(p, u, 0, 0.0);
    var c := Choice(p, u);
    if Cumulative(p, k) <= u < Cumulative(p, k + 1) && c != k {
      if k < c {
        CumulativeMonotone(p, k + 1, c);
      } else {
        CumulativeMonotone(p, c + 1, k);
      }
    }
  }

  /** For a probability vector and a uniform draw the chosen index is in range
      and carries positive weight: an outcome of weight 0 is never drawn. */
  lemma ChoiceInRange(p: seq<real>, u: real)
    requires NonNegative(p)
    requires 0.0 <= u < Sum(p)
    ensures Choice(p, u) < |p|
    ensures p[Choice(p, u)] > 0.0
  {
    assert Cumulative(p, 0) == 0.0;
    ChoiceFromInterval(p, u, 0, 0.0);
    CumulativeStep(p, Choice(p, u));
  }
}
