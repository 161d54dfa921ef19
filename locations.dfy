/** Locations and links of the displacement graph (`Location` and `Link` in
    flee.py): the admission check and the three-tier attractiveness cascade.

    A `Link` names its endpoint by index into the ecosystem's location list; the
    location that owns a link (in its `links` list) is the link's source. */
module Locations {
  import opened Sums
  import opened Settings

  datatype Link = Link(
    endpoint: nat,           // index of the destination location
    distance: real,          // km
    numAgents: int,          // agents currently travelling on this link
    forcedRedirection: bool) // if set, every departing agent takes this link

  datatype Location = Location(
    name: string,
    movechance: real,
    links: seq<Link>,
    numAgents: int,          // agents currently at this location
    capacity: int,           // -1: unlimited
    pop: int,                // remaining non-agent population
    foreign: bool,
    conflict: bool,
    camp: bool,
    locationScore: real,
    neighbourhoodScore: real,
    regionScore: real,
    scores: seq<real>,       // [1.0, LocationScore, NeighbourhoodScore, RegionScore]
    incomingJourneyLengths: seq<nat>)

  /** A location is tagged a camp when fewer than 1% of its agents would leave per tick. */
  const CampThreshold: real := 0.01

  /** `Location.__init__`: no links, no agents, all scores 1.0, camp derived from movechance. */
  function NewLocation(name: string, movechance: real, capacity: int, pop: int, foreign: bool): (l: Location)
    ensures l.camp <==> movechance < CampThreshold
    ensures !l.conflict && l.links == [] && l.numAgents == 0
    ensures l.scores == [1.0, 1.0, 1.0, 1.0]
  {
    Location(name, movechance, [], 0, capacity, pop, foreign, false, movechance < CampThreshold,
             1.0, 1.0, 1.0, [1.0, 1.0, 1.0, 1.0], [])
  }

  /** `Location.isFull(numOnLink)`. The argument is accepted and ignored. */
  function IsFull(s: SimulationSettings, l: Location, numOnLink: int): (full: bool)
    ensures l.capacity < 0 ==> !full
    ensures l.capacity >= 0 ==> (full <==> l.numAgents as real >= l.capacity as real * s.capacityBuffer)
  {
    if l.capacity < 0 then false
    else if l.numAgents as real >= l.capacity as real * s.capacityBuffer then true
    else false
  }

  /** Fullness does not depend on the number of agents on the incoming link. */
  lemma IsFullIgnoresLinkLoad(s: SimulationSettings, l: Location, m: int, n: int)
    ensures IsFull(s, l, m) == IsFull(s, l, n)
  {
  }

  /** `updateLocationScore`: foreign beats conflict, everything else scores 1.0. */
  function LocationScoreOf(s: SimulationSettings, l: Location): (score: real)
    ensures l.foreign ==> score == s.campWeight
    ensures !l.foreign && l.conflict ==> score == s.conflictWeight
    ensures !l.foreign && !l.conflict ==> score == 1.0
    ensures s.Valid() ==> score >= 0.0
  {
    if l.foreign then s.campWeight
    else if l.conflict then s.conflictWeight
    else 1.0
  }

  // ---------------------------------------------------------------------------
  // Inverse-distance-weighted average over a location's outgoing links.

  /** Every link points into a list of `n` locations and has a positive length. */
  predicate LinksInto(links: seq<Link>, n: nat)
  {
    forall k :: 0 <= k < |links| ==> links[k].endpoint < n && links[k].distance > 0.0
  }

  /** The graph is well formed: every link of every location points at a
      location of the list and has a positive length, and every score vector
      has its four entries. */
  predicate GraphWf(locs: seq<Location>)
  {
    forall l :: 0 <= l < |locs| ==> LinksInto(locs[l].links, |locs|) && |locs[l].scores| == 4
  }

  /** Sum over the links of `values[endpoint] / distance`. */
  function WeightedSum(links: seq<Link>, values: seq<real>): real
    requires LinksInto(links, |values|)
  {
    if |links| == 0 then 0.0
    else
      var last := links[|links| - 1];
      WeightedSum(links[..|links| - 1], values) + values[last.endpoint] / last.distance
  }

  /** Sum over the links of `1 / distance`. */
  function InverseDistanceTotal(links: seq<Link>): real
    requires forall k :: 0 <= k < |links| ==> links[k].distance > 0.0
  {
    if |links| == 0 then 0.0
    else InverseDistanceTotal(links[..|links| - 1]) + 1.0 / links[|links| - 1].distance
  }

  function InverseDistanceAverage(links: seq<Link>, values: seq<real>): real
    requires |links| > 0 && LinksInto(links, |values|)
  {
    InverseDistanceTotalPositive(links);
    WeightedSum(links, values) / InverseDistanceTotal(links)
  }

  lemma {:induction false} InverseDistanceTotalPositive(links: seq<Link>)
    requires forall k :: 0 <= k < |links| ==> links[k].distance > 0.0
    ensures |links| > 0 ==> InverseDistanceTotal(links) > 0.0
    ensures InverseDistanceTotal(links) >= 0.0
  {
    if |links| > 0 {
      InverseDistanceTotalPositive(links[..|links| - 1]);
    }
  }

  /** The value the average reads through link `k`. */
  function Via(links: seq<Link>, values: seq<real>, k: nat): real
    requires k < |links| && links[k].endpoint < |values|
  {
    values[links[k].endpoint]
  }

  lemma {:induction false} WeightedSumBounds(links: seq<Link>, values: seq<real>, lo: real, hi: real)
    requires LinksInto(links, |values|)
    requires forall k :: 0 <= k < |links| ==> lo <= Via(links, values, k) <= hi
    ensures lo * InverseDistanceTotal(links) <= WeightedSum(links, values) <= hi * InverseDistanceTotal(links)
  {
    if |links| > 0 {
      var init := links[..|links| - 1];
      var last := links[|links| - 1];
      assert forall k :: 0 <= k < |init| ==> Via(init, values, k) == Via(links, values, k);
      WeightedSumBounds(init, values, lo, hi);
      var v := values[last.endpoint];
      assert Via(links, values, |links| - 1) == v;
      var w := 1.0 / last.distance;
      assert v / last.distance == v * w;
      assert lo * w <= v * w <= hi * w;
    }
  }

  /** The inverse-distance-weighted average of the neighbours' values lies
      within any bounds that hold for every neighbour. */
  lemma AverageWithin(links: seq<Link>, values: seq<real>, lo: real, hi: real)
    requires |links| > 0 && LinksInto(links, |values|)
    requires forall k :: 0 <= k < |links| ==> lo <= Via(links, values, k) <= hi
    ensures lo <= InverseDistanceAverage(links, values) <= hi
  {
    WeightedSumBounds(links, values, lo, hi);
    InverseDistanceTotalPositive(links);
    var t := InverseDistanceTotal(links);
    var ws := WeightedSum(links, values);
    assert lo * t <= ws <= hi * t;
    assert ws / t >= lo by {
      assert ws >= lo * t;
    }
    assert ws / t <= hi by {
      assert ws <= hi * t;
    }
  }

  /** Smallest and largest value over the neighbours. */
  function NeighbourMin(links: seq<Link>, values: seq<real>): (m: real)
    requires |links| > 0 && LinksInto(links, |values|)
    ensures forall k :: 0 <= k < |links| ==> m <= Via(links, values, k)
    ensures exists k :: 0 <= k < |links| && m == Via(links, values, k)
  {
    if |links| == 1 then Via(links, values, 0)
    else
      var rest := NeighbourMin(links[1..], values);
      assert forall k :: 1 <= k < |links| ==> Via(links[1..], values, k - 1) == Via(links, values, k);
      assert forall k :: 0 <= k < |links| - 1 ==> Via(links[1..], values, k) == Via(links, values, k + 1);
      if Via(links, values, 0) <= rest then Via(links, values, 0) else rest
  }

  function NeighbourMax(links: seq<Link>, values: seq<real>): (m: real)
    requires |links| > 0 && LinksInto(links, |values|)
    ensures forall k :: 0 <= k < |links| ==> Via(links, values, k) <= m
    ensures exists k :: 0 <= k < |links| && m == Via(links, values, k)
  {
    if |links| == 1 then Via(links, values, 0)
    else
      var rest := NeighbourMax(links[1..], values);
      assert forall k :: 1 <= k < |links| ==> Via(links[1..], values, k - 1) == Via(links, values, k);
      assert forall k :: 0 <= k < |links| - 1 ==> Via(links[1..], values, k) == Via(links, values, k + 1);
      if Via(links, values, 0) >= rest then Via(links, values, 0) else rest
  }

  /** The loop of `updateNeighbourhoodScore` / `updateRegionScore`: accumulate
      `value / distance` and `1 / distance` over the links, then divide. */
  method NeighbourAverage(links: seq<Link>, values: seq<real>) returns (avg: real)
    requires |links| > 0 && LinksInto(links, |values|)
    ensures avg == InverseDistanceAverage(links, values)
    ensures NeighbourMin(links, values) <= avg <= NeighbourMax(links, values)
  {
    var score := 0.0;
    var totalLinkWeight := 0.0;
    for i := 0 to |links|
      invariant score == WeightedSum(links[..i], values)
      invariant totalLinkWeight == InverseDistanceTotal(links[..i])
    {
      assert links[..i + 1][..i] == links[..i];
      score := score + values[links[i].endpoint] / links[i].distance;
      totalLinkWeight := totalLinkWeight + 1.0 / links[i].distance;
    }
    assert links[..|links|] == links;
    InverseDistanceTotalPositive(links);
    avg := score / totalLinkWeight;
    AverageWithin(links, values, NeighbourMin(links, values), NeighbourMax(links, values));
  }
}
