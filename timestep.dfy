/** One tick of `Ecosystem.evolve` (flee.py:382-403) as functions of the
    world: the score cascade, a departure decision for every agent in list
    order, then hop completion for every agent in list order; and the camp
    arrival statistics of `_aggregate_arrivals` (flee.py:278-299). */
module Timestep {
  import opened Sums
  import opened Settings
  import opened Locations
  import opened Scoring
  import opened Agents

  // ---------------------------------------------------------------------------
  // The two agent passes.

  /** `a.evolve()` for the agents from index `i` on, in list order. */
  function DecisionPass(s: SimulationSettings, w: World, d: Draws, i: nat): (r: (World, Draws))
    requires Wf(s, w) && i <= |w.agents|
    ensures Wf(s, r.0) && SameGraph(w.locations, r.0.locations)
    ensures |r.0.agents| == |w.agents|
    ensures forall b :: 0 <= b < i ==> r.0.agents[b] == w.agents[b]
    ensures forall b :: i <= b < |w.agents| ==>
      r.0.agents[b].timestepsSinceDeparture == w.agents[b].timestepsSinceDeparture + 1
    ensures r.1.py.draw == d.py.draw && r.1.np.draw == d.np.draw
    decreases |w.agents| - i
  {
    if i == |w.agents| then (w, d)
    else
      var r1 := EvolveAgent(s, w, i, d);
      var r := DecisionPass(s, r1.0, r1.1, i + 1);
      SameGraphTransitive(w.locations, r1.0.locations, r.0.locations);
      r
  }

  /** `a.finish_travel()` for the agents from index `i` on, in list order. */
  function CompletionPass(s: SimulationSettings, w: World, d: Draws, i: nat, ghost eps: real): (r: (World, Draws))
    requires Wf(s, w) && i <= |w.agents|
    requires eps > 0.0 && LinksAtLeast(w.locations, eps)
    ensures Wf(s, r.0) && SameGraph(w.locations, r.0.locations)
    ensures |r.0.agents| == |w.agents|
    ensures forall b :: 0 <= b < i ==> r.0.agents[b] == w.agents[b]
    ensures forall b :: 0 <= b < |w.agents| ==>
      r.0.agents[b].timestepsSinceDeparture >= w.agents[b].timestepsSinceDeparture
    ensures r.1.py.draw == d.py.draw && r.1.np.draw == d.np.draw
    decreases |w.agents| - i
  {
    if i == |w.agents| then (w, d)
    else
      var r1 := FinishTravel(s, w, i, 0.0, d, eps);
      SameGraphKeepsLengths(w.locations, r1.0.locations, eps);
      var r := CompletionPass(s, r1.0, r1.1, i + 1, eps);
      SameGraphTransitive(w.locations, r1.0.locations, r.0.locations);
      r
  }

  /** Every departure decision of the pass keeps the counts right. */
  lemma DecisionPassKeepsCounts(s: SimulationSettings, w: World, d: Draws)
    requires Wf(s, w) && Counted(w)
    ensures Counted(DecisionPass(s, w, d, 0).0)
  {
    var cur, dc, k := w, d, 0;
    while k < |w.agents|
      invariant k <= |w.agents| && |cur.agents| == |w.agents|
      invariant Wf(s, cur) && Counted(cur)
      invariant DecisionPass(s, cur, dc, k) == DecisionPass(s, w, d, 0)
    {
      cur, dc := DecisionHead(s, cur, dc, k);
      k := k + 1;
    }
    DecisionPassEnds(s, cur, dc, k);
  }

  /** The pass leaves the world as it is once every agent has decided. */
  lemma DecisionPassEnds(s: SimulationSettings, w: World, d: Draws, i: nat)
    requires Wf(s, w) && i == |w.agents|
    ensures DecisionPass(s, w, d, i) == (w, d)
  {
  }

  /** The pass from `i` is agent `i`'s decision followed by the pass from `i + 1`. */
  lemma DecisionHead(s: SimulationSettings, w: World, d: Draws, i: nat) returns (w1: World, d1: Draws)
    requires Wf(s, w) && Counted(w) && i < |w.agents|
    ensures Wf(s, w1) && Counted(w1) && |w1.agents| == |w.agents|
    ensures DecisionPass(s, w, d, i) == DecisionPass(s, w1, d1, i + 1)
  {
    EvolveAgentKeepsCounts(s, w, i, d);
    w1, d1 := EvolveAgent(s, w, i, d).0, EvolveAgent(s, w, i, d).1;
  }

  /** Every hop completion of the pass keeps the counts right. */
  lemma CompletionPassKeepsCounts(s: SimulationSettings, w: World, d: Draws, eps: real)
    requires Wf(s, w) && Counted(w)
    requires eps > 0.0 && LinksAtLeast(w.locations, eps)
    ensures Counted(CompletionPass(s, w, d, 0, eps).0)
  {
    var cur, dc, k := w, d, 0;
    while k < |w.agents|
      invariant k <= |w.agents| && |cur.agents| == |w.agents|
      invariant Wf(s, cur) && Counted(cur) && LinksAtLeast(cur.locations, eps)
      invariant CompletionPass(s, cur, dc, k, eps) == CompletionPass(s, w, d, 0, eps)
    {
      cur, dc := CompletionHead(s, cur, dc, k, eps);
      k := k + 1;
    }
    CompletionPassEnds(s, cur, dc, k, eps);
  }

  /** The pass leaves the world as it is once every agent has travelled. */
  lemma CompletionPassEnds(s: SimulationSettings, w: World, d: Draws, i: nat, eps: real)
    requires Wf(s, w) && i == |w.agents|
    requires eps > 0.0 && LinksAtLeast(w.locations, eps)
    ensures CompletionPass(s, w, d, i, eps) == (w, d)
  {
  }

  /** The pass from `i` is agent `i`'s hops followed by the pass from `i + 1`. */
  lemma CompletionHead(s: SimulationSettings, w: World, d: Draws, i: nat, eps: real) returns (w1: World, d1: Draws)
    requires Wf(s, w) && Counted(w) && i < |w.agents|
    requires eps > 0.0 && LinksAtLeast(w.locations, eps)
    ensures Wf(s, w1) && Counted(w1) && |w1.agents| == |w.agents| && LinksAtLeast(w1.locations, eps)
    ensures CompletionPass(s, w, d, i, eps) == CompletionPass(s, w1, d1, i + 1, eps)
  {
    FinishTravelKeepsCounts(s, w, i, 0.0, d, eps);
    w1, d1 := FinishTravel(s, w, i, 0.0, d, eps).0, FinishTravel(s, w, i, 0.0, d, eps).1;
    SameGraphKeepsLengths(w.locations, w1.locations, eps);
  }

  // ---------------------------------------------------------------------------
  // The shortest link.

  /** Every link of the locations has a positive length. */
  predicate PositiveLengths(locs: seq<Location>)
  {
    forall l, k :: 0 <= l < |locs| && 0 <= k < |locs[l].links| ==> locs[l].links[k].distance > 0.0
  }

  /** A positive lower bound on the length of the given links. */
  ghost function ShortestLink(links: seq<Link>): (eps: real)
    requires forall k :: 0 <= k < |links| ==> links[k].distance > 0.0
    ensures eps > 0.0 && forall k :: 0 <= k < |links| ==> links[k].distance >= eps
  {
    if |links| == 0 then 1.0
    else
      var rest := ShortestLink(links[..|links| - 1]);
      var last := links[|links| - 1].distance;
      if last < rest then last else rest
  }

  /** A positive lower bound on the length of every link: the bound on the
      number of hops an agent chains within one tick. */
  ghost function ShortestLinkOf(locs: seq<Location>): (eps: real)
    requires PositiveLengths(locs)
    ensures eps > 0.0 && LinksAtLeast(locs, eps)
  {
    if |locs| == 0 then 1.0
    else
      var init := locs[..|locs| - 1];
      assert forall l :: 0 <= l < |init| ==> init[l] == locs[l];
      var rest := ShortestLinkOf(init);
      var last := ShortestLink(locs[|locs| - 1].links);
      if last < rest then last else rest
  }

  // ---------------------------------------------------------------------------
  // The tick.

  /** Scores are recomputed, then every agent decides, then every traveller
      moves. */
  function Step(s: SimulationSettings, w: World, d: Draws): (r: (World, Draws))
    requires Wf(s, w)
    ensures Wf(s, r.0) && SameGraph(Cascade(s, w.locations), r.0.locations)
    ensures |r.0.agents| == |w.agents|
    ensures forall b :: 0 <= b < |w.agents| ==>
      r.0.agents[b].timestepsSinceDeparture >= w.agents[b].timestepsSinceDeparture + 1
    ensures r.1.py.draw == d.py.draw && r.1.np.draw == d.np.draw
  {
    var w1 := Scored(s, w);
    var r1 := DecisionPass(s, w1, d, 0);
    ghost var eps := ShortestLinkOf(r1.0.locations);
    var r2 := CompletionPass(s, r1.0, r1.1, 0, eps);
    SameGraphTransitive(w1.locations, r1.0.locations, r2.0.locations);
    r2
  }

  /** The world after the score cascade. */
  function Scored(s: SimulationSettings, w: World): (w': World)
    requires Wf(s, w)
    ensures Wf(s, w') && w'.locations == Cascade(s, w.locations) && w'.agents == w.agents
  {
    var locs := Cascade(s, w.locations);
    CascadeNonNegative(s, w.locations);
    CascadeKeepsPositions(s, w);
    World(locs, w.agents)
  }

  lemma CascadeKeepsPositions(s: SimulationSettings, w: World)
    requires Wf(s, w)
    ensures PositionsIn(Cascade(s, w.locations), w.agents)
  {
    var c := Cascade(s, w.locations);
    forall a | 0 <= a < |w.agents| ensures ValidPlace(c, PlaceOf(w.agents[a].position)) {
      match w.agents[a].position
      case AtLocation(l) =>
      case OnLink(l, j, _) => CascadeKeepsLinks(s, w.locations, l);
    }
  }

  /** The cascade changes only scores, so every count stays right. */
  lemma ScoredKeepsCounts(s: SimulationSettings, w: World)
    requires Valid(s, w)
    ensures Valid(s, Scored(s, w))
  {
    var c := Cascade(s, w.locations);
    assert forall i :: 0 <= i < |c| ==> Unscored(c[i]) == Unscored(w.locations[i]);
    forall x | ValidPlace(c, x) ensures ValidPlace(w.locations, x) && Load(c, x) == Load(w.locations, x) {
      match x
      case Loc(l) => assert Unscored(c[l]).numAgents == c[l].numAgents;
      case Edge(l, j) => CascadeKeepsLinks(s, w.locations, l);
    }
    var f := seq(|c|, i requires 0 <= i < |c| => LocationLoad(c[i]));
    var g := seq(|c|, i requires 0 <= i < |c| => LocationLoad(w.locations[i]));
    forall i | 0 <= i < |c| ensures f[i] == g[i] {
      CascadeKeepsLinks(s, w.locations, i);
      assert Unscored(c[i]).numAgents == c[i].numAgents;
    }
    assert f == g;
  }

  /** The per-place counts stay equal to the agents at each place, and their
      sum to the number of agents, through a whole tick. */
  lemma StepKeepsCounts(s: SimulationSettings, w: World, d: Draws)
    requires Valid(s, w)
    ensures Valid(s, Step(s, w, d).0)
  {
    var w1 := Scored(s, w);
    ScoredKeepsCounts(s, w);
    assert Wf(s, w1) && Counted(w1);
    DecisionPassKeepsCounts(s, w1, d);
    var r1 := DecisionPass(s, w1, d, 0);
    var eps := ShortestLinkOf(r1.0.locations);
    CompletionPassKeepsCounts(s, r1.0, r1.1, eps);
  }

  // ---------------------------------------------------------------------------
  // Camp arrival statistics.

  /** The journey lengths logged at camps since the last aggregation. */
  function CampLog(l: Location): seq<nat>
  {
    if l.camp then l.incomingJourneyLengths else []
  }

  /** Number of logged camp arrivals. */
  function ArrivalCount(locs: seq<Location>): nat
  {
    if |locs| == 0 then 0 else ArrivalCount(locs[..|locs| - 1]) + |CampLog(locs[|locs| - 1])|
  }

  /** The count is 0 exactly when no camp logged an arrival. */
  lemma {:induction false} NoArrivalsLogged(locs: seq<Location>)
    ensures ArrivalCount(locs) == 0 <==> forall i :: 0 <= i < |locs| ==> CampLog(locs[i]) == []
  {
    if |locs| > 0 {
      var init := locs[..|locs| - 1];
      NoArrivalsLogged(init);
      assert forall i :: 0 <= i < |init| ==> init[i] == locs[i];
    }
  }

  /** Sum of the logged journey lengths. */
  function ArrivalTotal(locs: seq<Location>): nat
  {
    if |locs| == 0 then 0 else ArrivalTotal(locs[..|locs| - 1]) + SumNat(CampLog(locs[|locs| - 1]))
  }

  /** Mean journey length of this tick's camp arrivals, 0.0 when there were none. */
  function MeanJourney(locs: seq<Location>): (mean: real)
    ensures ArrivalCount(locs) > 0 ==> mean * ArrivalCount(locs) as real == ArrivalTotal(locs) as real
    ensures ArrivalCount(locs) == 0 ==> mean == 0.0
  {
    Mean(ArrivalTotal(locs), ArrivalCount(locs))
  }

  /** The mean of `count` samples summing to `total`; 0.0 without samples. */
  function Mean(total: nat, count: nat): (mean: real)
    ensures count > 0 ==> mean * count as real == total as real
    ensures count == 0 ==> mean == 0.0
    ensures mean >= 0.0
  {
    if count > 0 then total as real / count as real else 0.0
  }

  /** A camp's log emptied; any other location unchanged. */
  function ClearLog(l: Location): (l': Location)
    ensures SameSite(l, l') && l'.numAgents == l.numAgents && l'.links == l.links
    ensures CampLog(l') == []
  {
    if l.camp then l.(incomingJourneyLengths := []) else l
  }

  function ClearedLogs(locs: seq<Location>): (r: seq<Location>)
    ensures |r| == |locs| && forall i :: 0 <= i < |locs| ==> r[i] == ClearLog(locs[i])
  {
    seq(|locs|, i requires 0 <= i < |locs| => ClearLog(locs[i]))
  }

  /** Without camp arrivals there is nothing to add up. */
  lemma {:induction false} NoArrivalsNoTotal(locs: seq<Location>)
    requires ArrivalCount(locs) == 0
    ensures ArrivalTotal(locs) == 0
  {
    if |locs| > 0 {
      NoArrivalsNoTotal(locs[..|locs| - 1]);
    }
  }

  /** After aggregation no arrival is left to count. */
  lemma {:induction false} ClearedLogsCountNothing(locs: seq<Location>)
    ensures ArrivalCount(ClearedLogs(locs)) == 0
  {
    if |locs| > 0 {
      assert ClearedLogs(locs)[..|locs| - 1] == ClearedLogs(locs[..|locs| - 1]);
      ClearedLogsCountNothing(locs[..|locs| - 1]);
    }
  }

  /** Clearing the logs keeps the graph and every count. */
  lemma ClearedLogsKeepValid(s: SimulationSettings, w: World)
    requires Valid(s, w)
    ensures SameGraph(w.locations, ClearedLogs(w.locations))
    ensures Valid(s, World(ClearedLogs(w.locations), w.agents))
  {
    var c := ClearedLogs(w.locations);
    SameGraphKeepsWf(s, w, c, w.agents);
    forall x | ValidPlace(c, x) ensures ValidPlace(w.locations, x) && Load(c, x) == Load(w.locations, x) {
    }
    assert seq(|c|, i requires 0 <= i < |c| => LocationLoad(c[i]))
        == seq(|c|, i requires 0 <= i < |c| => LocationLoad(w.locations[i]));
  }
}
