/** Route choice of an agent standing at a location (`Person.selectRoute` and
    `Person.getLinkWeight`, flee.py:108-162). */
module Routing {
  import opened Wrappers
  import opened Sums
  import opened Settings
  import opened Random
  import opened Locations
  import opened Scoring

  /** The score tier the agent reads: the configured level, or under dynamic
      awareness one that grows with the ticks since departure (0 before the
      first tick, 1 after one, 2 after two or three, 3 from four on). */
  function AwarenessLevel(s: SimulationSettings, timestepsSinceDeparture: nat): (level: nat)
    requires s.Valid()
    ensures level <= 3
    ensures !s.useDynamicAwareness ==> level == s.awarenessLevel
    ensures s.useDynamicAwareness ==>
      && (level == 0 <==> timestepsSinceDeparture == 0)
      && (level == 1 <==> timestepsSinceDeparture == 1)
      && (level == 2 <==> 2 <= timestepsSinceDeparture < 4)
      && (level == 3 <==> 4 <= timestepsSinceDeparture)
  {
    if !s.useDynamicAwareness then s.awarenessLevel
    else if timestepsSinceDeparture < 1 then 0
    else if timestepsSinceDeparture < 2 then 1
    else if timestepsSinceDeparture < 4 then 2
    else 3
  }

  /** `getLinkWeight`: the endpoint's score at the given tier, divided by the
      softened link length. */
  function LinkWeight(s: SimulationSettings, locs: seq<Location>, link: Link, level: nat): (w: real)
    requires s.Valid() && GraphWf(locs) && level <= 3
    requires link.endpoint < |locs| && link.distance > 0.0
    ensures ScoresNonNegative(locs) ==> w >= 0.0
    ensures w * (s.softening + link.distance) == locs[link.endpoint].scores[level]
  {
    locs[link.endpoint].scores[level] / (s.softening + link.distance)
  }

  /** The endpoint of the link is full (the link's load is passed and ignored). */
  predicate EndpointFull(s: SimulationSettings, locs: seq<Location>, link: Link)
    requires link.endpoint < |locs|
  {
    IsFull(s, locs[link.endpoint], link.numAgents)
  }

  /** A link that redirects every agent: forced, and its endpoint has room. */
  predicate Forces(s: SimulationSettings, locs: seq<Location>, link: Link)
    requires link.endpoint < |locs|
  {
    !EndpointFull(s, locs, link) && link.forcedRedirection
  }

  /** The first link, from index `i` on, that forces the choice. */
  function FirstForcedFrom(s: SimulationSettings, locs: seq<Location>, links: seq<Link>, i: nat): (r: Option<nat>)
    requires LinksInto(links, |locs|) && i <= |links|
    ensures r.Some? ==>
      && i <= r.value < |links|
      && Forces(s, locs, links[r.value])
      && forall j :: i <= j < r.value ==> !Forces(s, locs, links[j])
    ensures r.None? ==> forall j :: i <= j < |links| ==> !Forces(s, locs, links[j])
    decreases |links| - i
  {
    if i == |links| then None
    else if Forces(s, locs, links[i]) then Some(i)
    else FirstForcedFrom(s, locs, links, i + 1)
  }

  /** The weights the scan assigns: 0 for a full endpoint, the link weight otherwise. */
  function RouteWeights(s: SimulationSettings, locs: seq<Location>, links: seq<Link>, level: nat): (w: seq<real>)
    requires s.Valid() && GraphWf(locs) && LinksInto(links, |locs|) && level <= 3
    ensures |w| == |links|
    ensures forall i :: 0 <= i < |links| && EndpointFull(s, locs, links[i]) ==> w[i] == 0.0
    ensures forall i :: 0 <= i < |links| && !EndpointFull(s, locs, links[i]) ==>
      w[i] * (s.softening + links[i].distance) == locs[links[i].endpoint].scores[level]
  {
    seq(|links|, i requires 0 <= i < |links| =>
      if EndpointFull(s, locs, links[i]) then 0.0 else LinkWeight(s, locs, links[i], level))
  }

  /** Normalisation: divide by the sum when it is positive, otherwise add
      `1 / n` to every weight. */
  function Normalise(w: seq<real>): (p: seq<real>)
    requires |w| > 0
    ensures |p| == |w|
  {
    var total := Sum(w);
    if total > 0.0 then Divided(w, total) else Shifted(w, 1.0 / |w| as real)
  }

  /** The whole of `selectRoute`: the chosen link index (-1: no route) and
      whether numpy's generator was drawn from. */
  function RouteChoice(s: SimulationSettings, locs: seq<Location>, here: nat, timestepsSinceDeparture: nat, u: Unit): (r: (int, bool))
    requires s.Valid() && GraphWf(locs) && ScoresNonNegative(locs) && here < |locs|
    ensures -1 <= r.0 < |locs[here].links|
    ensures r.0 == -1 <==> |locs[here].links| == 0
  {
    var links := locs[here].links;
    match FirstForcedFrom(s, locs, links, 0)
    case Some(i) => (i as int, false)
    case None =>
      if |links| == 0 then (-1, false)
      else
        var w := RouteWeights(s, locs, links, AwarenessLevel(s, timestepsSinceDeparture));
        RouteWeightsNonNegative(s, locs, links, AwarenessLevel(s, timestepsSinceDeparture));
        NormaliseIsDistribution(w);
        ChoiceInRange(Normalise(w), u);
        (Choice(Normalise(w), u), true)
  }

  // ---------------------------------------------------------------------------
  // Properties of the route choice.

  lemma RouteWeightsNonNegative(s: SimulationSettings, locs: seq<Location>, links: seq<Link>, level: nat)
    requires s.Valid() && GraphWf(locs) && LinksInto(links, |locs|) && level <= 3
    requires ScoresNonNegative(locs)
    ensures NonNegative(RouteWeights(s, locs, links, level))
  {
  }

  /** Normalised weights are a probability vector. When the raw weights have
      a positive sum they are the raw weights divided by it; when every raw
      weight is 0 every link gets exactly `1 / n`, full endpoints included. */
  lemma NormaliseIsDistribution(w: seq<real>)
    requires |w| > 0 && NonNegative(w)
    ensures NonNegative(Normalise(w)) && Sum(Normalise(w)) == 1.0
    ensures Sum(w) > 0.0 ==> forall i :: 0 <= i < |w| ==> Normalise(w)[i] == w[i] / Sum(w)
    ensures Sum(w) <= 0.0 ==> forall i :: 0 <= i < |w| ==> Normalise(w)[i] == 1.0 / |w| as real
  {
    SumNonNegative(w);
    if Sum(w) > 0.0 {
      NormaliseByPositiveSum(w);
    } else {
      NormaliseUniform(w);
    }
  }

  lemma NormaliseByPositiveSum(w: seq<real>)
    requires |w| > 0 && NonNegative(w) && Sum(w) > 0.0
    ensures NonNegative(Normalise(w)) && Sum(Normalise(w)) == 1.0
    ensures forall i :: 0 <= i < |w| ==> Normalise(w)[i] == w[i] / Sum(w)
  {
    var total := Sum(w);
    SumDivided(w, total);
    assert Normalise(w) == Divided(w, total);
    SelfQuotient(total);
    forall i | 0 <= i < |w| ensures Normalise(w)[i] >= 0.0 {
      QuotientNonNegative(w[i], total);
    }
  }

  lemma NormaliseUniform(w: seq<real>)
    requires |w| > 0 && NonNegative(w) && Sum(w) <= 0.0
    ensures NonNegative(Normalise(w)) && Sum(Normalise(w)) == 1.0
    ensures forall i :: 0 <= i < |w| ==> Normalise(w)[i] == 1.0 / |w| as real
  {
    SumNonNegative(w);
    SumZeroMeansAllZero(w);
    var c := 1.0 / |w| as real;
    Reciprocal(|w| as real);
    var p := Normalise(w);
    assert p == Shifted(w, c);
    SumShifted(w, c);
    forall i | 0 <= i < |w| ensures p[i] == c {
      assert p[i] == w[i] + c;
    }
  }

  lemma Reciprocal(n: real)
    requires n > 0.0
    ensures n * (1.0 / n) == 1.0 && 1.0 / n > 0.0
  {
  }

  lemma QuotientNonNegative(a: real, b: real)
    requires a >= 0.0 && b > 0.0
    ensures a / b >= 0.0
  {
  }

  /** No outgoing links: no route. */
  lemma RouteWithoutLinks(s: SimulationSettings, locs: seq<Location>, here: nat, tsd: nat, u: Unit)
    requires s.Valid() && GraphWf(locs) && ScoresNonNegative(locs) && here < |locs|
    requires |locs[here].links| == 0
    ensures RouteChoice(s, locs, here, tsd, u) == (-1, false)
  {
  }

  /** The first link that is forced and whose endpoint has room is taken,
      whatever the other weights, and nothing is drawn. A forced link whose
      endpoint is full is passed over. */
  lemma RouteForced(s: SimulationSettings, locs: seq<Location>, here: nat, tsd: nat, u: Unit, i: nat)
    requires s.Valid() && GraphWf(locs) && ScoresNonNegative(locs) && here < |locs|
    requires i < |locs[here].links|
    requires Forces(s, locs, locs[here].links[i])
    requires forall j :: 0 <= j < i ==> !Forces(s, locs, locs[here].links[j])
    ensures RouteChoice(s, locs, here, tsd, u) == (i, false)
  {
  }

  /** With at least one link the choice is a valid link index. When no link
      forces the choice, numpy is drawn from; if the raw weights have a positive
      sum the chosen link has a positive weight, so its endpoint is not full. */
  lemma RouteChosen(s: SimulationSettings, locs: seq<Location>, here: nat, tsd: nat, u: Unit)
    requires s.Valid() && GraphWf(locs) && ScoresNonNegative(locs) && here < |locs|
    requires |locs[here].links| > 0
    requires FirstForcedFrom(s, locs, locs[here].links, 0).None?
    ensures var links := locs[here].links;
      var w := RouteWeights(s, locs, links, AwarenessLevel(s, tsd));
      var (r, drew) := RouteChoice(s, locs, here, tsd, u);
      && drew
      && (Sum(w) > 0.0 ==> w[r] > 0.0 && !EndpointFull(s, locs, links[r]))
  {
    var links := locs[here].links;
    var w := RouteWeights(s, locs, links, AwarenessLevel(s, tsd));
    RouteWeightsNonNegative(s, locs, links, AwarenessLevel(s, tsd));
    var p := Normalise(w);
    var r := Choice(p, u);
    assert RouteChoice(s, locs, here, tsd, u) == (r, true);
    if Sum(w) > 0.0 {
      NormaliseByPositiveSum(w);
      ChoiceInRange(p, u);
      assert p[r] == w[r] / Sum(w);
      PositiveNumerator(w[r], Sum(w));
    }
  }

  lemma PositiveNumerator(a: real, b: real)
    requires b > 0.0 && a / b > 0.0
    ensures a > 0.0
  {
  }

  /** `selectRoute` as the source runs it: fill a zeroed weight array link by
      link (returning at once on a forced link), normalise it in place, draw. */
  method SelectRoute(s: SimulationSettings, locs: seq<Location>, here: nat, timestepsSinceDeparture: nat, u: Unit)
    returns (chosen: int, drew: bool)
    requires s.Valid() && GraphWf(locs) && ScoresNonNegative(locs) && here < |locs|
    ensures (chosen, drew) == RouteChoice(s, locs, here, timestepsSinceDeparture, u)
  {
    var links := locs[here].links;
    var linklen := |links|;
    var level := AwarenessLevel(s, timestepsSinceDeparture);
    ghost var w := RouteWeights(s, locs, links, level);
    var weights := new real[linklen](_ => 0.0);
    for i := 0 to linklen
      invariant weights[..i] == w[..i]
      invariant FirstForcedFrom(s, locs, links, 0) == FirstForcedFrom(s, locs, links, i)
    {
      if IsFull(s, locs[links[i].endpoint], links[i].numAgents) {
        weights[i] := 0.0;
      } else if links[i].forcedRedirection {
        return i, false;
      } else {
        weights[i] := LinkWeight(s, locs, links[i], level);
      }
      assert weights[..i + 1] == weights[..i] + [weights[i]];
      assert w[..i + 1] == w[..i] + [w[i]];
    }
    assert weights[..] == w;
    if linklen == 0 {
      return -1, false;
    }
    var total := Sum(weights[..]);
    if total > 0.0 {
      forall i | 0 <= i < linklen {
        weights[i] := weights[i] / total;
      }
    } else {
      forall i | 0 <= i < linklen {
        weights[i] := weights[i] + 1.0 / linklen as real;
      }
    }
    assert weights[..] == Normalise(w);
    chosen := Choice(weights[..], u);
    drew := true;
  }
}
