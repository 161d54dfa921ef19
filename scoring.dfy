/** The score cascade `Ecosystem.evolve` runs at the start of every tick
    (flee.py:384-391): three full passes over the locations, each reading only
    what the previous pass wrote. These functions give the result of each pass
    as a whole; the ecosystem's methods compute it location by location. */
module Scoring {
  import opened Settings
  import opened Locations

  function LocationScores(locs: seq<Location>): (r: seq<real>)
    ensures |r| == |locs|
    ensures forall i :: 0 <= i < |locs| ==> r[i] == locs[i].locationScore
  {
    seq(|locs|, i requires 0 <= i < |locs| => locs[i].locationScore)
  }

  function NeighbourhoodScores(locs: seq<Location>): (r: seq<real>)
    ensures |r| == |locs|
    ensures forall i :: 0 <= i < |locs| ==> r[i] == locs[i].neighbourhoodScore
  {
    seq(|locs|, i requires 0 <= i < |locs| => locs[i].neighbourhoodScore)
  }

  /** A camp or a location without links keeps its own score; any other
      location averages its neighbours' values. */
  predicate Isolated(l: Location)
  {
    |l.links| == 0 || l.camp
  }

  /** `updateNeighbourhoodScore` (flee.py:209-225). */
  function NeighbourhoodScoreOf(l: Location, locationScores: seq<real>): (v: real)
    requires LinksInto(l.links, |locationScores|)
    ensures Isolated(l) ==> v == l.locationScore
    // Otherwise a weighted average: never outside the neighbours' range.
    ensures !Isolated(l) ==>
      NeighbourMin(l.links, locationScores) <= v <= NeighbourMax(l.links, locationScores)
  {
    if Isolated(l) then l.locationScore
    else
      AverageWithin(l.links, locationScores, NeighbourMin(l.links, locationScores), NeighbourMax(l.links, locationScores));
      InverseDistanceAverage(l.links, locationScores)
  }

  /** `updateRegionScore` (flee.py:227-243): only the averaging branch refreshes
      the score vector; the early return leaves it as it was. */
  function WithRegionScore(l: Location, neighbourhoodScores: seq<real>): (l': Location)
    requires LinksInto(l.links, |neighbourhoodScores|)
    ensures l'.(regionScore := l.regionScore, scores := l.scores) == l
    ensures Isolated(l) ==> l'.regionScore == l.locationScore && l'.scores == l.scores
    ensures !Isolated(l) ==>
      && NeighbourMin(l.links, neighbourhoodScores) <= l'.regionScore <= NeighbourMax(l.links, neighbourhoodScores)
      && l'.scores == [1.0, l.locationScore, l.neighbourhoodScore, l'.regionScore]
  {
    if Isolated(l) then l.(regionScore := l.locationScore)
    else
      AverageWithin(l.links, neighbourhoodScores, NeighbourMin(l.links, neighbourhoodScores), NeighbourMax(l.links, neighbourhoodScores));
      var r := InverseDistanceAverage(l.links, neighbourhoodScores);
      l.(regionScore := r, scores := [1.0, l.locationScore, l.neighbourhoodScore, r])
  }

  /** `Location.updateNeighbourhoodScore` given every location's current
      location score. */
  method UpdateNeighbourhoodScore(l: Location, locationScores: seq<real>) returns (l': Location)
    requires LinksInto(l.links, |locationScores|)
    ensures l' == l.(neighbourhoodScore := NeighbourhoodScoreOf(l, locationScores))
  {
    if |l.links| == 0 || l.camp {
      l' := l.(neighbourhoodScore := l.locationScore);
    } else {
      var score := NeighbourAverage(l.links, locationScores);
      l' := l.(neighbourhoodScore := score);
    }
  }

  /** `Location.updateRegionScore` given every location's current
      neighbourhood score. */
  method UpdateRegionScore(l: Location, neighbourhoodScores: seq<real>) returns (l': Location)
    requires LinksInto(l.links, |neighbourhoodScores|)
    ensures l' == WithRegionScore(l, neighbourhoodScores)
  {
    if |l.links| == 0 || l.camp {
      l' := l.(regionScore := l.locationScore);
    } else {
      var score := NeighbourAverage(l.links, neighbourhoodScores);
      l' := l.(regionScore := score, scores := [1.0, l.locationScore, l.neighbourhoodScore, score]);
    }
  }

  function LocationPass(s: SimulationSettings, locs: seq<Location>): (r: seq<Location>)
    ensures |r| == |locs|
    ensures forall i :: 0 <= i < |locs| ==> r[i] == locs[i].(locationScore := LocationScoreOf(s, locs[i]))
  {
    seq(|locs|, i requires 0 <= i < |locs| => locs[i].(locationScore := LocationScoreOf(s, locs[i])))
  }

  function NeighbourhoodPass(locs: seq<Location>): (r: seq<Location>)
    requires GraphWf(locs)
    ensures |r| == |locs|
    ensures forall i :: 0 <= i < |locs| ==>
      r[i] == locs[i].(neighbourhoodScore := NeighbourhoodScoreOf(locs[i], LocationScores(locs)))
  {
    var values := LocationScores(locs);
    seq(|locs|, i requires 0 <= i < |locs| => locs[i].(neighbourhoodScore := NeighbourhoodScoreOf(locs[i], values)))
  }

  function RegionPass(locs: seq<Location>): (r: seq<Location>)
    requires GraphWf(locs)
    ensures |r| == |locs|
    ensures forall i :: 0 <= i < |locs| ==> r[i] == WithRegionScore(locs[i], NeighbourhoodScores(locs))
  {
    var values := NeighbourhoodScores(locs);
    seq(|locs|, i requires 0 <= i < |locs| => WithRegionScore(locs[i], values))
  }

  /** Everything about a location except its four score fields. */
  function Unscored(l: Location): Location
  {
    l.(locationScore := 0.0, neighbourhoodScore := 0.0, regionScore := 0.0, scores := [])
  }

  /** Two location lists that differ at most in their scores. */
  predicate SameButScores(a: seq<Location>, b: seq<Location>)
  {
    |a| == |b| && forall i :: 0 <= i < |a| ==> Unscored(a[i]) == Unscored(b[i]) && |a[i].scores| == |b[i].scores|
  }

  lemma SameButScoresKeepsGraph(a: seq<Location>, b: seq<Location>)
    requires SameButScores(a, b) && GraphWf(a)
    ensures GraphWf(b)
  {
    forall i | 0 <= i < |b| ensures LinksInto(b[i].links, |b|) && |b[i].scores| == 4 {
      assert Unscored(a[i]).links == a[i].links;
      assert Unscored(b[i]).links == b[i].links;
    }
  }

  function Cascade(s: SimulationSettings, locs: seq<Location>): (r: seq<Location>)
    requires GraphWf(locs)
    ensures SameButScores(locs, r) && GraphWf(r)
  {
    var p1 := LocationPass(s, locs);
    assert SameButScores(locs, p1);
    SameButScoresKeepsGraph(locs, p1);
    var p2 := NeighbourhoodPass(p1);
    assert SameButScores(locs, p2);
    SameButScoresKeepsGraph(locs, p2);
    var p3 := RegionPass(p2);
    assert SameButScores(locs, p3);
    SameButScoresKeepsGraph(locs, p3);
    p3
  }

  /** The pass-by-pass view of the cascade's result: its location scores are
      those of the first pass, its neighbourhood scores those of the second. */
  lemma CascadeStages(s: SimulationSettings, locs: seq<Location>)
    requires GraphWf(locs)
    ensures var p1 := LocationPass(s, locs);
      && GraphWf(p1)
      && GraphWf(NeighbourhoodPass(p1))
      && Cascade(s, locs) == RegionPass(NeighbourhoodPass(p1))
      && LocationScores(Cascade(s, locs)) == LocationScores(p1)
      && NeighbourhoodScores(Cascade(s, locs)) == NeighbourhoodScores(NeighbourhoodPass(p1))
  {
    var p1 := LocationPass(s, locs);
    SameButScoresKeepsGraph(locs, p1);
    var p2 := NeighbourhoodPass(p1);
    SameButScoresKeepsGraph(locs, p2);
    var c := Cascade(s, locs);
    assert LocationScores(c) == LocationScores(p1);
    assert NeighbourhoodScores(c) == NeighbourhoodScores(p2);
  }

  lemma CascadeKeepsLinks(s: SimulationSettings, locs: seq<Location>, i: nat)
    requires GraphWf(locs) && i < |locs|
    ensures Cascade(s, locs)[i].links == locs[i].links
    ensures Cascade(s, locs)[i].camp == locs[i].camp
  {
    assert Unscored(Cascade(s, locs)[i]) == Unscored(locs[i]);
  }

  /** A camp or a link-less location: both higher tiers equal its own score and
      its score vector is left as it was. */
  lemma CascadeIsolated(s: SimulationSettings, locs: seq<Location>, i: nat)
    requires GraphWf(locs) && i < |locs| && Isolated(locs[i])
    ensures var l := Cascade(s, locs)[i];
      && l.locationScore == LocationScoreOf(s, locs[i])
      && l.neighbourhoodScore == l.locationScore
      && l.regionScore == l.locationScore
      && l.scores == locs[i].scores
  {
    CascadeStages(s, locs);
    CascadeKeepsLinks(s, locs, i);
  }

  /** Any other location: the neighbourhood score is the inverse-distance-weighted
      average of its neighbours' location scores, the region score that of their
      neighbourhood scores, and the score vector becomes
      [1, location, neighbourhood, region]. */
  lemma CascadeAveraged(s: SimulationSettings, locs: seq<Location>, i: nat)
    requires GraphWf(locs) && i < |locs| && !Isolated(locs[i])
    ensures var c := Cascade(s, locs); var l := c[i];
      && l.locationScore == LocationScoreOf(s, locs[i])
      && l.neighbourhoodScore == InverseDistanceAverage(l.links, LocationScores(c))
      && l.regionScore == InverseDistanceAverage(l.links, NeighbourhoodScores(c))
      && l.scores == [1.0, l.locationScore, l.neighbourhoodScore, l.regionScore]
  {
    CascadeStages(s, locs);
    CascadeKeepsLinks(s, locs, i);
  }

  /** The averaged tiers lie between the smallest and the largest neighbour value. */
  lemma CascadeBetweenNeighbours(s: SimulationSettings, locs: seq<Location>, i: nat)
    requires GraphWf(locs) && i < |locs| && !Isolated(locs[i])
    ensures var c := Cascade(s, locs); var l := c[i];
      && NeighbourMin(l.links, LocationScores(c)) <= l.neighbourhoodScore <= NeighbourMax(l.links, LocationScores(c))
      && NeighbourMin(l.links, NeighbourhoodScores(c)) <= l.regionScore <= NeighbourMax(l.links, NeighbourhoodScores(c))
  {
    CascadeStages(s, locs);
    var p1 := LocationPass(s, locs);
    var p2 := NeighbourhoodPass(p1);
    assert p1[i].links == locs[i].links && p1[i].camp == locs[i].camp;
    NeighbourhoodTierBetween(p1, i);
    RegionTierBetween(p2, i);
  }

  /** The second pass's bound, one location at a time. */
  lemma NeighbourhoodTierBetween(p1: seq<Location>, i: nat)
    requires GraphWf(p1) && i < |p1| && !Isolated(p1[i])
    ensures var l := NeighbourhoodPass(p1)[i];
      && l.links == p1[i].links && l.camp == p1[i].camp
      && NeighbourMin(l.links, LocationScores(p1)) <= l.neighbourhoodScore <= NeighbourMax(l.links, LocationScores(p1))
  {
    assert NeighbourhoodPass(p1)[i] == p1[i].(neighbourhoodScore := NeighbourhoodScoreOf(p1[i], LocationScores(p1)));
  }

  /** The third pass's bound, one location at a time; the neighbourhood score
      it leaves alone. */
  lemma RegionTierBetween(p2: seq<Location>, i: nat)
    requires GraphWf(p2) && i < |p2| && !Isolated(p2[i])
    ensures var l := RegionPass(p2)[i];
      && l.links == p2[i].links && l.neighbourhoodScore == p2[i].neighbourhoodScore
      && NeighbourMin(l.links, NeighbourhoodScores(p2)) <= l.regionScore <= NeighbourMax(l.links, NeighbourhoodScores(p2))
  {
    var l := RegionPass(p2)[i];
    assert l == WithRegionScore(p2[i], NeighbourhoodScores(p2));
    assert l.(regionScore := p2[i].regionScore, scores := p2[i].scores) == p2[i];
  }

  /** Running the cascade twice without any change in between gives the same
      score vectors (and the same locations) as running it once. */
  lemma CascadeIdempotent(s: SimulationSettings, locs: seq<Location>)
    requires GraphWf(locs)
    ensures Cascade(s, Cascade(s, locs)) == Cascade(s, locs)
  {
    var p1 := LocationPass(s, locs);
    SameButScoresKeepsGraph(locs, p1);
    var p2 := NeighbourhoodPass(p1);
    SameButScoresKeepsGraph(locs, p2);
    var c := Cascade(s, locs);
    assert LocationScores(c) == LocationScores(p1);
    assert NeighbourhoodScores(c) == NeighbourhoodScores(p2);
    // Each pass, applied to the cascade's result, finds nothing to change.
    var q1 := LocationPass(s, c);
    forall i | 0 <= i < |c| ensures q1[i] == c[i] {
      assert Unscored(c[i]) == Unscored(locs[i]);
    }
    assert q1 == c;
    var q2 := NeighbourhoodPass(q1);
    forall i | 0 <= i < |c| ensures q2[i] == c[i] {
      assert Unscored(c[i]) == Unscored(p1[i]);
      assert c[i].links == p1[i].links;
    }
    assert q2 == c;
    var q3 := RegionPass(q2);
    forall i | 0 <= i < |c| ensures q3[i] == c[i] {
      assert Unscored(c[i]) == Unscored(p2[i]);
      assert c[i].links == p2[i].links;
    }
    assert q3 == c;
  }

  /** Every score vector has non-negative entries. */
  predicate ScoresNonNegative(locs: seq<Location>)
  {
    forall l, k :: 0 <= l < |locs| && 0 <= k < |locs[l].scores| ==> locs[l].scores[k] >= 0.0
  }

  /** With non-negative camp and conflict weights, the cascade keeps every score
      non-negative, so route weights stay non-negative. */
  lemma CascadeNonNegative(s: SimulationSettings, locs: seq<Location>)
    requires GraphWf(locs) && s.Valid()
    requires ScoresNonNegative(locs)
    ensures ScoresNonNegative(Cascade(s, locs))
  {
    var c := Cascade(s, locs);
    forall l | 0 <= l < |c| ensures LocationScores(c)[l] >= 0.0 {
      LocationScoreOfCascade(s, locs, l);
    }
    forall l | 0 <= l < |c| ensures NeighbourhoodScores(c)[l] >= 0.0 {
      NeighbourhoodNonNegative(s, locs, l);
    }
    forall l | 0 <= l < |c| ensures forall k :: 0 <= k < |c[l].scores| ==> c[l].scores[k] >= 0.0 {
      VectorNonNegative(s, locs, l);
    }
  }

  lemma LocationScoreOfCascade(s: SimulationSettings, locs: seq<Location>, l: nat)
    requires GraphWf(locs) && l < |locs|
    ensures Cascade(s, locs)[l].locationScore == LocationScoreOf(s, locs[l])
  {
    if Isolated(locs[l]) {
      CascadeIsolated(s, locs, l);
    } else {
      CascadeAveraged(s, locs, l);
    }
  }

  lemma NeighbourhoodNonNegative(s: SimulationSettings, locs: seq<Location>, l: nat)
    requires GraphWf(locs) && s.Valid() && l < |locs|
    requires forall i :: 0 <= i < |locs| ==> LocationScores(Cascade(s, locs))[i] >= 0.0
    ensures Cascade(s, locs)[l].neighbourhoodScore >= 0.0
  {
    if Isolated(locs[l]) {
      CascadeIsolated(s, locs, l);
    } else {
      CascadeStages(s, locs);
      var p1 := LocationPass(s, locs);
      var p2 := NeighbourhoodPass(p1);
      assert p1[l].links == locs[l].links && p1[l].camp == locs[l].camp;
      NeighbourhoodTierNonNegative(p1, l);
      RegionTierBetween(p2, l);
    }
  }

  /** The second pass averages non-negative location scores into a
      non-negative neighbourhood score. */
  lemma NeighbourhoodTierNonNegative(p1: seq<Location>, i: nat)
    requires GraphWf(p1) && i < |p1| && !Isolated(p1[i])
    requires forall j :: 0 <= j < |p1| ==> LocationScores(p1)[j] >= 0.0
    ensures NeighbourhoodPass(p1)[i].neighbourhoodScore >= 0.0
    ensures NeighbourhoodPass(p1)[i].links == p1[i].links && NeighbourhoodPass(p1)[i].camp == p1[i].camp
  {
    var ls := LocationScores(p1);
    assert NeighbourhoodPass(p1)[i] == p1[i].(neighbourhoodScore := NeighbourhoodScoreOf(p1[i], ls));
    AverageWithin(p1[i].links, ls, 0.0, NeighbourMax(p1[i].links, ls));
  }

  lemma VectorNonNegative(s: SimulationSettings, locs: seq<Location>, l: nat)
    requires GraphWf(locs) && s.Valid() && l < |locs|
    requires ScoresNonNegative(locs)
    requires forall i :: 0 <= i < |locs| ==> NeighbourhoodScores(Cascade(s, locs))[i] >= 0.0
    ensures forall k :: 0 <= k < |Cascade(s, locs)[l].scores| ==> Cascade(s, locs)[l].scores[k] >= 0.0
  {
    if Isolated(locs[l]) {
      CascadeIsolated(s, locs, l);
    } else {
      CascadeStages(s, locs);
      var p1 := LocationPass(s, locs);
      var p2 := NeighbourhoodPass(p1);
      assert p1[l] == locs[l].(locationScore := LocationScoreOf(s, locs[l]));
      NeighbourhoodTierBetween(p1, l);
      RegionVectorNonNegative(p2, l);
    }
  }

  /** The third pass writes a non-negative vector once the tiers it copies
      are non-negative. */
  lemma RegionVectorNonNegative(p2: seq<Location>, i: nat)
    requires GraphWf(p2) && i < |p2| && !Isolated(p2[i])
    requires p2[i].locationScore >= 0.0
    requires forall j :: 0 <= j < |p2| ==> NeighbourhoodScores(p2)[j] >= 0.0
    ensures forall k :: 0 <= k < |RegionPass(p2)[i].scores| ==> RegionPass(p2)[i].scores[k] >= 0.0
  {
    var ns := NeighbourhoodScores(p2);
    var l := RegionPass(p2)[i];
    assert l == WithRegionScore(p2[i], ns);
    assert p2[i].neighbourhoodScore == ns[i];
    AverageWithin(p2[i].links, ns, 0.0, NeighbourMax(p2[i].links, ns));
    FreshVectorNonNegative(l.scores, p2[i].locationScore, p2[i].neighbourhoodScore, l.regionScore);
  }

  lemma FreshVectorNonNegative(v: seq<real>, a: real, b: real, c: real)
    requires v == [1.0, a, b, c] && a >= 0.0 && b >= 0.0 && c >= 0.0
    ensures forall k :: 0 <= k < |v| ==> v[k] >= 0.0
  {
  }
}
