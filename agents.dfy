/** Agents and their movement (`Person` in flee.py:23-106): where an agent is,
    the per-place agent counts that locations and links keep, and the two
    transitions of an agent's state machine as functions of the whole world.

    The source keeps the agent's position in one field that holds either a
    Location or a Link, told apart by the `travelling` flag; here it is the
    tagged union `Position`. */
module Agents {
  import opened Sums
  import opened Settings
  import opened Random
  import opened Locations
  import opened Scoring
  import opened Routing

  datatype Position =
    | AtLocation(loc: nat)                          // travelling == False
    | OnLink(from: nat, link: nat, progress: real)  // travelling == True; link `link` of location `from`

  datatype Person = Person(
    position: Position,
    timestepsSinceDeparture: nat,  // never reset
    distanceTravelled: real,       // kept only when AgentLogLevel > 0
    placesTravelled: nat)          // kept only when AgentLogLevel > 0

  /** `Person.__init__` at a location. */
  function NewPerson(loc: nat): (p: Person)
    ensures p.position == AtLocation(loc) && p.timestepsSinceDeparture == 0
  {
    Person(AtLocation(loc), 0, 0.0, 1)
  }

  /** The locations and agents of an ecosystem. */
  datatype World = World(locations: seq<Location>, agents: seq<Person>)

  /** The two random sources: Python's `random` and numpy's generator. */
  datatype Draws = Draws(py: Stream, np: Stream)

  // ---------------------------------------------------------------------------
  // Places and counts.

  /** What an agent's position is counted against: a location or a link. */
  datatype Place = Loc(l: nat) | Edge(from: nat, link: nat)

  function PlaceOf(p: Position): Place
  {
    match p
    case AtLocation(l) => Loc(l)
    case OnLink(l, j, _) => Edge(l, j)
  }

  function Places(agents: seq<Person>): (ps: seq<Place>)
    ensures |ps| == |agents|
    ensures forall i :: 0 <= i < |agents| ==> ps[i] == PlaceOf(agents[i].position)
  {
    seq(|agents|, i requires 0 <= i < |agents| => PlaceOf(agents[i].position))
  }

  predicate ValidPlace(locs: seq<Location>, x: Place)
  {
    match x
    case Loc(l) => l < |locs|
    case Edge(l, j) => l < |locs| && j < |locs[l].links|
  }

  /** The `numAgents` counter a place keeps. */
  function Load(locs: seq<Location>, x: Place): int
    requires ValidPlace(locs, x)
  {
    match x
    case Loc(l) => locs[l].numAgents
    case Edge(l, j) => locs[l].links[j].numAgents
  }

  function LinkLoads(links: seq<Link>): (r: seq<int>)
    ensures |r| == |links|
  {
    seq(|links|, k requires 0 <= k < |links| => links[k].numAgents)
  }

  /** Agents counted at a location and on its outgoing links. */
  function LocationLoad(loc: Location): int
  {
    loc.numAgents + SumInts(LinkLoads(loc.links))
  }

  /** The sum of every location's and every link's `numAgents`. */
  function Total(locs: seq<Location>): int
  {
    SumInts(seq(|locs|, i requires 0 <= i < |locs| => LocationLoad(locs[i])))
  }

  /** Every position names an existing location or link. */
  predicate PositionsIn(locs: seq<Location>, agents: seq<Person>)
  {
    forall a :: 0 <= a < |agents| ==> ValidPlace(locs, PlaceOf(agents[a].position))
  }

  /** Structural well-formedness the transitions rely on. */
  predicate Wf(s: SimulationSettings, w: World)
  {
    && s.Valid()
    && GraphWf(w.locations)
    && ScoresNonNegative(w.locations)
    && PositionsIn(w.locations, w.agents)
  }

  /** Every counter equals the number of agents whose position is that place,
      and the counters add up to the number of agents. */
  ghost predicate Counted(w: World)
  {
    && (forall x :: ValidPlace(w.locations, x) ==> Load(w.locations, x) == multiset(Places(w.agents))[x])
    && Total(w.locations) == |w.agents|
  }

  ghost predicate Valid(s: SimulationSettings, w: World)
  {
    Wf(s, w) && Counted(w)
  }

  // ---------------------------------------------------------------------------
  // The graph without its counters: what agent movement never changes.

  /** Two lists of links that differ at most in their agent counts. */
  predicate SameLinks(a: seq<Link>, b: seq<Link>)
  {
    && |a| == |b|
    && forall k :: 0 <= k < |a| ==>
      a[k].endpoint == b[k].endpoint && a[k].distance == b[k].distance && a[k].forcedRedirection == b[k].forcedRedirection
  }

  /** Two locations that differ at most in their agent counts and journey logs. */
  predicate SameSite(x: Location, y: Location)
  {
    && x.name == y.name && x.movechance == y.movechance && SameLinks(x.links, y.links)
    && x.capacity == y.capacity && x.pop == y.pop
    && x.foreign == y.foreign && x.conflict == y.conflict && x.camp == y.camp
    && x.locationScore == y.locationScore && x.neighbourhoodScore == y.neighbourhoodScore
    && x.regionScore == y.regionScore && x.scores == y.scores
  }

  predicate SameGraph(a: seq<Location>, b: seq<Location>)
  {
    |a| == |b| && forall i :: 0 <= i < |a| ==> SameSite(a[i], b[i])
  }

  lemma SameGraphFacts(a: seq<Location>, b: seq<Location>, i: nat)
    requires SameGraph(a, b) && i < |a|
    ensures SameSite(a[i], b[i])
  {
  }

  lemma SameGraphTransitive(a: seq<Location>, b: seq<Location>, c: seq<Location>)
    requires SameGraph(a, b) && SameGraph(b, c)
    ensures SameGraph(a, c)
  {
    forall i | 0 <= i < |a| ensures SameSite(a[i], c[i]) {
      assert SameSite(a[i], b[i]) && SameSite(b[i], c[i]);
    }
  }

  /** Moving agents keeps the graph well formed and every position valid. */
  lemma SameGraphKeepsWf(s: SimulationSettings, w: World, locs: seq<Location>, agents: seq<Person>)
    requires Wf(s, w) && SameGraph(w.locations, locs)
    requires forall a :: 0 <= a < |agents| ==> ValidPlace(w.locations, PlaceOf(agents[a].position))
    ensures Wf(s, World(locs, agents))
  {
    forall i | 0 <= i < |locs| ensures LinksInto(locs[i].links, |locs|) && |locs[i].scores| == 4 {
      SameGraphFacts(w.locations, locs, i);
    }
    forall i | 0 <= i < |locs| ensures forall k :: 0 <= k < |locs[i].scores| ==> locs[i].scores[k] >= 0.0 {
      SameGraphFacts(w.locations, locs, i);
    }
    forall a | 0 <= a < |agents| ensures ValidPlace(locs, PlaceOf(agents[a].position)) {
      match agents[a].position
      case AtLocation(l) =>
      case OnLink(l, j, _) => SameGraphFacts(w.locations, locs, l);
    }
  }

  /** Every link is at least `eps` long. */
  predicate LinksAtLeast(locs: seq<Location>, eps: real)
  {
    forall l, k :: 0 <= l < |locs| && 0 <= k < |locs[l].links| ==> locs[l].links[k].distance >= eps
  }

  lemma SameGraphKeepsLengths(a: seq<Location>, b: seq<Location>, eps: real)
    requires SameGraph(a, b) && LinksAtLeast(a, eps)
    ensures LinksAtLeast(b, eps)
  {
    forall l | 0 <= l < |b| ensures forall k :: 0 <= k < |b[l].links| ==> b[l].links[k].distance >= eps {
      SameGraphFacts(a, b, l);
    }
  }

  // ---------------------------------------------------------------------------
  // Moving one count.

  /** Departure from location `l` onto its link `j` (flee.py:60-62). */
  function CountToLink(locs: seq<Location>, l: nat, j: nat): (r: seq<Location>)
    requires l < |locs| && j < |locs[l].links|
    ensures SameGraph(locs, r)
  {
    var loc := locs[l];
    var link := loc.links[j];
    var r := locs[l := loc.(numAgents := loc.numAgents - 1,
                            links := loc.links[j := link.(numAgents := link.numAgents + 1)])];
    r
  }

  /** Arrival from link `j` of location `l` at its endpoint (flee.py:91-93),
      with the journey length logged at a camp (flee.py:98-100). */
  function CountToEndpoint(s: SimulationSettings, locs: seq<Location>, l: nat, j: nat, journey: nat): (r: seq<Location>)
    requires l < |locs| && j < |locs[l].links| && locs[l].links[j].endpoint < |locs|
    ensures SameGraph(locs, r)
  {
    var loc := locs[l];
    var link := loc.links[j];
    var locs1 := locs[l := loc.(links := loc.links[j := link.(numAgents := link.numAgents - 1)])];
    var e := locs1[link.endpoint];
    var logged := if s.campLogLevel > 0 && e.camp then e.incomingJourneyLengths + [journey] else e.incomingJourneyLengths;
    var r := locs1[link.endpoint := e.(numAgents := e.numAgents + 1, incomingJourneyLengths := logged)];
    r
  }

  lemma {:induction false} LinkLoadsUpdate(links: seq<Link>, j: nat, delta: int)
    requires j < |links|
    ensures SumInts(LinkLoads(links[j := links[j].(numAgents := links[j].numAgents + delta)]))
         == SumInts(LinkLoads(links)) + delta
  {
    var links' := links[j := links[j].(numAgents := links[j].numAgents + delta)];
    assert LinkLoads(links') == LinkLoads(links)[j := links[j].numAgents + delta];
    SumIntsUpdate(LinkLoads(links), j, links[j].numAgents + delta);
  }

  lemma {:induction false} TotalUpdate(locs: seq<Location>, l: nat, loc: Location)
    requires l < |locs|
    ensures Total(locs[l := loc]) == Total(locs) - LocationLoad(locs[l]) + LocationLoad(loc)
  {
    var f := seq(|locs|, i requires 0 <= i < |locs| => LocationLoad(locs[i]));
    var locs' := locs[l := loc];
    assert seq(|locs'|, i requires 0 <= i < |locs'| => LocationLoad(locs'[i])) == f[l := LocationLoad(loc)];
    SumIntsUpdate(f, l, LocationLoad(loc));
  }

  lemma CountToLinkTotal(locs: seq<Location>, l: nat, j: nat)
    requires l < |locs| && j < |locs[l].links|
    ensures Total(CountToLink(locs, l, j)) == Total(locs)
  {
    var loc := locs[l];
    LinkLoadsUpdate(loc.links, j, 1);
    TotalUpdate(locs, l, CountToLink(locs, l, j)[l]);
  }

  lemma CountToEndpointTotal(s: SimulationSettings, locs: seq<Location>, l: nat, j: nat, journey: nat)
    requires l < |locs| && j < |locs[l].links| && locs[l].links[j].endpoint < |locs|
    ensures Total(CountToEndpoint(s, locs, l, j, journey)) == Total(locs)
  {
    var loc := locs[l];
    var link := loc.links[j];
    var locs1 := locs[l := loc.(links := loc.links[j := link.(numAgents := link.numAgents - 1)])];
    LinkLoadsUpdate(loc.links, j, -1);
    TotalUpdate(locs, l, locs1[l]);
    var e := locs1[link.endpoint];
    var r := CountToEndpoint(s, locs, l, j, journey);
    TotalUpdate(locs1, link.endpoint, r[link.endpoint]);
  }

  function Indicator(b: bool): int
  {
    if b then 1 else 0
  }

  lemma CountToLinkLoads(locs: seq<Location>, l: nat, j: nat, x: Place)
    requires l < |locs| && j < |locs[l].links| && ValidPlace(locs, x)
    ensures ValidPlace(CountToLink(locs, l, j), x)
    ensures Load(CountToLink(locs, l, j), x) == Load(locs, x) - Indicator(x == Loc(l)) + Indicator(x == Edge(l, j))
  {
  }

  lemma CountToEndpointLoads(s: SimulationSettings, locs: seq<Location>, l: nat, j: nat, journey: nat, x: Place)
    requires l < |locs| && j < |locs[l].links| && locs[l].links[j].endpoint < |locs| && ValidPlace(locs, x)
    ensures ValidPlace(CountToEndpoint(s, locs, l, j, journey), x)
    ensures Load(CountToEndpoint(s, locs, l, j, journey), x)
         == Load(locs, x) - Indicator(x == Edge(l, j)) + Indicator(x == Loc(locs[l].links[j].endpoint))
  {
  }

  /** One agent changes place from `src` to `dst` and the counters follow:
      every count stays equal to the number of agents at its place. */
  lemma MoveKeepsCounts(w: World, w': World, a: nat, src: Place, dst: Place)
    requires Counted(w) && SameGraph(w.locations, w'.locations)
    requires a < |w.agents| && |w'.agents| == |w.agents|
    requires forall b :: 0 <= b < |w.agents| && b != a ==> PlaceOf(w'.agents[b].position) == PlaceOf(w.agents[b].position)
    requires PlaceOf(w.agents[a].position) == src && PlaceOf(w'.agents[a].position) == dst
    requires forall x :: ValidPlace(w.locations, x) ==>
      ValidPlace(w'.locations, x) && Load(w'.locations, x) == Load(w.locations, x) - Indicator(x == src) + Indicator(x == dst)
    requires Total(w'.locations) == Total(w.locations)
    ensures Counted(w')
  {
    var ps, ps' := Places(w.agents), Places(w'.agents);
    assert ps' == ps[a := dst];
    assert multiset(ps') == multiset(ps) - multiset{src} + multiset{dst};
    forall x | ValidPlace(w'.locations, x)
      ensures Load(w'.locations, x) == multiset(ps')[x]
    {
      match x
      case Loc(l) =>
      case Edge(l, j) => SameGraphFacts(w.locations, w'.locations, l);
      assert ValidPlace(w.locations, x);
    }
  }

  /** An agent that keeps its place keeps every count right. */
  lemma StayKeepsCounts(w: World, agents': seq<Person>)
    requires Counted(w) && |agents'| == |w.agents|
    requires forall b :: 0 <= b < |w.agents| ==> PlaceOf(agents'[b].position) == PlaceOf(w.agents[b].position)
    ensures Counted(World(w.locations, agents'))
  {
    assert Places(agents') == Places(w.agents);
  }

  // ---------------------------------------------------------------------------
  // Person.evolve: the departure decision.

  /** `Person.evolve` for agent `a` (flee.py:49-68). An agent at a location
      consumes one Python draw; if it falls below the location's movechance
      the agent picks a route (consuming a numpy draw only when a weighted
      choice is made) and, if there is one, moves onto it. Every agent,
      travelling or not, ages by one tick. */
  function EvolveAgent(s: SimulationSettings, w: World, a: nat, d: Draws): (r: (World, Draws))
    requires Wf(s, w) && a < |w.agents|
    ensures Wf(s, r.0) && SameGraph(w.locations, r.0.locations)
    ensures |r.0.agents| == |w.agents|
    ensures forall b :: 0 <= b < |w.agents| && b != a ==> r.0.agents[b] == w.agents[b]
    ensures r.0.agents[a].timestepsSinceDeparture == w.agents[a].timestepsSinceDeparture + 1
    ensures r.1.py.draw == d.py.draw && r.1.np.draw == d.np.draw
    // A travelling agent only ages; nothing is drawn.
    ensures w.agents[a].position.OnLink? ==>
      r == (World(w.locations, w.agents[a := w.agents[a].(timestepsSinceDeparture := w.agents[a].timestepsSinceDeparture + 1)]), d)
    // It leaves exactly when the draw is below the movechance and there is a link to take.
    ensures w.agents[a].position.AtLocation? ==>
      var l := w.agents[a].position.loc;
      (r.0.agents[a].position.OnLink? <==> d.py.Peek() < w.locations[l].movechance && |w.locations[l].links| > 0)
    // An agent at a location consumes exactly one Python draw, and one numpy
    // draw exactly when it tries to leave and the route is drawn by numpy.
    ensures w.agents[a].position.AtLocation? ==>
      var l := w.agents[a].position.loc;
      var route := RouteChoice(s, w.locations, l, w.agents[a].timestepsSinceDeparture, d.np.Peek());
      && r.1.py == d.py.Next()
      && r.1.np.pos == d.np.pos + (if d.py.Peek() < w.locations[l].movechance && route.1 then 1 else 0)
    // A departing agent starts at the beginning of the chosen link, and its
    // count moves from the location to that link.
    ensures w.agents[a].position.AtLocation? && r.0.agents[a].position.OnLink? ==>
      var l := w.agents[a].position.loc;
      var route := RouteChoice(s, w.locations, l, w.agents[a].timestepsSinceDeparture, d.np.Peek());
      && 0 <= route.0 < |w.locations[l].links|
      && r.0.agents[a].position == OnLink(l, route.0, 0.0)
      && r.0.locations == CountToLink(w.locations, l, route.0)
    ensures w.agents[a].position.AtLocation? && r.0.agents[a].position.OnLink? ==>
      r.0.agents[a] == w.agents[a].(position := r.0.agents[a].position,
                                    timestepsSinceDeparture := w.agents[a].timestepsSinceDeparture + 1)
    // An agent that stays keeps its place and its logs, and only ages.
    ensures r.0.agents[a].position.AtLocation? ==> r.0 == World(w.locations, r.0.agents)
    ensures w.agents[a].position.AtLocation? && r.0.agents[a].position.AtLocation? ==>
      r.0.agents[a] == w.agents[a].(timestepsSinceDeparture := w.agents[a].timestepsSinceDeparture + 1)
  {
    var p := w.agents[a];
    var aged := p.(timestepsSinceDeparture := p.timestepsSinceDeparture + 1);
    var stay := World(w.locations, w.agents[a := aged]);
    SameGraphKeepsWf(s, w, w.locations, stay.agents);
    match p.position
    case OnLink(_, _, _) => (stay, d)
    case AtLocation(l) =>
      var d1 := d.(py := d.py.Next());
      if d.py.Peek() < w.locations[l].movechance then
        var (route, drew) := RouteChoice(s, w.locations, l, p.timestepsSinceDeparture, d.np.Peek());
        var d2 := if drew then d1.(np := d.np.Next()) else d1;
        if route >= 0 then
          var locs := CountToLink(w.locations, l, route);
          var agents := w.agents[a := aged.(position := OnLink(l, route, 0.0))];
          SameGraphKeepsWf(s, w, locs, agents);
          (World(locs, agents), d2)
        else (stay, d2)
      else (stay, d1)
  }

  /** An agent that decides to leave a location whose first forcing link is
      `i` takes link `i`, and numpy is not drawn from. */
  lemma ForcedDeparture(s: SimulationSettings, w: World, a: nat, d: Draws, i: nat)
    requires Wf(s, w) && a < |w.agents| && w.agents[a].position.AtLocation?
    requires var l := w.agents[a].position.loc;
      && d.py.Peek() < w.locations[l].movechance
      && i < |w.locations[l].links|
      && Forces(s, w.locations, w.locations[l].links[i])
      && forall j :: 0 <= j < i ==> !Forces(s, w.locations, w.locations[l].links[j])
    ensures var r := EvolveAgent(s, w, a, d);
      && r.0.agents[a].position == OnLink(w.agents[a].position.loc, i, 0.0)
      && r.1.np == d.np
  {
    var l := w.agents[a].position.loc;
    RouteForced(s, w.locations, l, w.agents[a].timestepsSinceDeparture, d.np.Peek(), i);
  }

  /** An agent that decides to leave a location with links, none of them
      forcing, takes the link numpy draws, and when some link has positive
      weight the link taken has positive weight and an endpoint with room. */
  lemma DrawnDeparture(s: SimulationSettings, w: World, a: nat, d: Draws)
    requires Wf(s, w) && a < |w.agents| && w.agents[a].position.AtLocation?
    requires var l := w.agents[a].position.loc;
      && d.py.Peek() < w.locations[l].movechance
      && |w.locations[l].links| > 0
      && FirstForcedFrom(s, w.locations, w.locations[l].links, 0).None?
    ensures var l := w.agents[a].position.loc;
      var links := w.locations[l].links;
      var weights := RouteWeights(s, w.locations, links, AwarenessLevel(s, w.agents[a].timestepsSinceDeparture));
      var r := EvolveAgent(s, w, a, d);
      && r.0.agents[a].position.OnLink?
      && var j := r.0.agents[a].position.link;
      && r.0.agents[a].position == OnLink(l, j, 0.0)
      && r.1.np == d.np.Next()
      && (Sum(weights) > 0.0 ==> weights[j] > 0.0 && !EndpointFull(s, w.locations, links[j]))
  {
    var l := w.agents[a].position.loc;
    RouteChosen(s, w.locations, l, w.agents[a].timestepsSinceDeparture, d.np.Peek());
  }

  /** Deciding to leave moves one agent from a location onto a link, and every
      count follows it. */
  lemma EvolveAgentKeepsCounts(s: SimulationSettings, w: World, a: nat, d: Draws)
    requires Valid(s, w) && a < |w.agents|
    ensures Valid(s, EvolveAgent(s, w, a, d).0)
  {
    var w' := EvolveAgent(s, w, a, d).0;
    var p := w.agents[a];
    if w'.agents[a].position.OnLink? && p.position.AtLocation? {
      var l := p.position.loc;
      var route := w'.agents[a].position.link;
      assert w'.locations == CountToLink(w.locations, l, route);
      forall x | ValidPlace(w.locations, x)
        ensures ValidPlace(w'.locations, x)
        ensures Load(w'.locations, x) == Load(w.locations, x) - Indicator(x == Loc(l)) + Indicator(x == Edge(l, route))
      {
        CountToLinkLoads(w.locations, l, route, x);
      }
      CountToLinkTotal(w.locations, l, route);
      MoveKeepsCounts(w, w', a, Loc(l), Edge(l, route));
    } else {
      StayKeepsCounts(w, w'.agents);
    }
  }

  // ---------------------------------------------------------------------------
  // Person.finish_travel: completing hops.

  /** The agent-log counters on reaching the end of a link (flee.py:79-82). */
  function Arrive(s: SimulationSettings, p: Person, distance: real): (q: Person)
    ensures q.position == p.position && q.timestepsSinceDeparture == p.timestepsSinceDeparture
    ensures s.agentLogLevel > 0 ==>
      q.placesTravelled == p.placesTravelled + 1 && q.distanceTravelled == p.distanceTravelled + distance
    ensures s.agentLogLevel <= 0 ==> q == p
  {
    if s.agentLogLevel > 0 then
      p.(placesTravelled := p.placesTravelled + 1, distanceTravelled := p.distanceTravelled + distance)
    else p
  }

  /** How many more hops an agent that has covered `moved` km this tick can
      still chain: each chained hop covers a link of at least `eps` km, and
      chaining stops once `minMoveSpeed` km are covered. */
  ghost function HopBudget(s: SimulationSettings, moved: real, eps: real): nat
    requires eps > 0.0
  {
    if moved < s.minMoveSpeed then
      QuotientFloorNonNegative(s.minMoveSpeed - moved, eps);
      ((s.minMoveSpeed - moved) / eps).Floor + 1
    else 0
  }

  lemma QuotientFloorNonNegative(x: real, y: real)
    requires x > 0.0 && y > 0.0
    ensures (x / y).Floor >= 0
  {
    assert x / y > 0.0;
  }

  lemma HopBudgetDecreases(s: SimulationSettings, moved: real, distance: real, eps: real)
    requires eps > 0.0 && distance >= eps && moved + distance < s.minMoveSpeed
    ensures HopBudget(s, moved + distance, eps) < HopBudget(s, moved, eps)
  {
    var q := (s.minMoveSpeed - moved) / eps;
    var q' := (s.minMoveSpeed - moved - distance) / eps;
    assert q' == q - distance / eps;
    QuotientAtLeastOne(distance, eps);
  }

  lemma QuotientAtLeastOne(x: real, y: real)
    requires y > 0.0 && x >= y
    ensures x / y >= 1.0
  {
    var q := x / y;
    assert q * y == x;
  }

  /** An agent on link `j` of location `l` steps off at the link's endpoint
      (flee.py:79-100): agent-log counters, both counts and the camp's
      journey log are updated, and the agent stands at the endpoint. */
  function CompleteHop(s: SimulationSettings, w: World, a: nat): (w': World)
    requires Wf(s, w) && a < |w.agents| && w.agents[a].position.OnLink?
    ensures Wf(s, w') && SameGraph(w.locations, w'.locations)
    ensures |w'.agents| == |w.agents|
    ensures forall b :: 0 <= b < |w.agents| && b != a ==> w'.agents[b] == w.agents[b]
    ensures w'.agents[a].position == AtLocation(w.locations[w.agents[a].position.from].links[w.agents[a].position.link].endpoint)
    ensures w'.agents[a].timestepsSinceDeparture == w.agents[a].timestepsSinceDeparture
    // The counters and the camp log follow the agent, and its logs record the hop.
    ensures var pos := w.agents[a].position;
      var link := w.locations[pos.from].links[pos.link];
      && w'.locations == CountToEndpoint(s, w.locations, pos.from, pos.link, w.agents[a].timestepsSinceDeparture)
      && w'.agents[a] == Arrive(s, w.agents[a], link.distance).(position := AtLocation(link.endpoint))
  {
    var p := w.agents[a];
    var l, j := p.position.from, p.position.link;
    var link := w.locations[l].links[j];
    var locs := CountToEndpoint(s, w.locations, l, j, p.timestepsSinceDeparture);
    var agents := w.agents[a := Arrive(s, p, link.distance).(position := AtLocation(link.endpoint))];
    SameGraphKeepsWf(s, w, locs, agents);
    World(locs, agents)
  }

  /** An agent on a link that does not reach its end this tick advances by
      MaxMoveSpeed km along it (flee.py:76). */
  function Advance(s: SimulationSettings, w: World, a: nat): (w': World)
    requires Wf(s, w) && a < |w.agents| && w.agents[a].position.OnLink?
    ensures Wf(s, w') && w'.locations == w.locations
    ensures |w'.agents| == |w.agents|
    ensures forall b :: 0 <= b < |w.agents| && b != a ==> w'.agents[b] == w.agents[b]
    ensures var pos := w.agents[a].position;
      w'.agents[a] == w.agents[a].(position := pos.(progress := pos.progress + s.maxMoveSpeed))
  {
    var p := w.agents[a];
    var agents := w.agents[a := p.(position := p.position.(progress := p.position.progress + s.maxMoveSpeed))];
    SameGraphKeepsWf(s, w, w.locations, agents);
    World(w.locations, agents)
  }

  /** The hop of a travelling agent completes this tick: the distance it has
      advanced, less what it already covered, exceeds the link's length. */
  predicate HopCompletes(s: SimulationSettings, w: World, a: nat, moved: real)
    requires Wf(s, w) && a < |w.agents| && w.agents[a].position.OnLink?
  {
    var pos := w.agents[a].position;
    pos.progress + s.maxMoveSpeed - moved > w.locations[pos.from].links[pos.link].distance
  }

  /** The length of the link a travelling agent is on. */
  function HopLength(w: World, a: nat): real
    requires a < |w.agents| && w.agents[a].position.OnLink?
    requires PositionsIn(w.locations, w.agents)
  {
    var pos := w.agents[a].position;
    w.locations[pos.from].links[pos.link].distance
  }

  /** The outcome of one pass through `finish_travel`'s body: the new world
      and draws, the distance covered this tick, and whether the agent goes on
      with another `finish_travel` call. */
  datatype Leg = Leg(world: World, draws: Draws, moved: real, more: bool)

  /** One pass through `Person.finish_travel(moved)` for agent `a`
      (flee.py:71-106). A travelling agent advances MaxMoveSpeed km along its
      link; once that exceeds the link's length (less what it already covered
      this tick) it reaches the endpoint. If the distance covered this tick is
      still below MinMoveSpeed km, the agent decides again at once and another
      pass follows. */
  function TravelStep(s: SimulationSettings, w: World, a: nat, moved: real, d: Draws): (leg: Leg)
    requires Wf(s, w) && a < |w.agents|
    ensures Wf(s, leg.world) && SameGraph(w.locations, leg.world.locations)
    ensures |leg.world.agents| == |w.agents|
    ensures forall b :: 0 <= b < |w.agents| && b != a ==> leg.world.agents[b] == w.agents[b]
    ensures leg.draws.py.draw == d.py.draw && leg.draws.np.draw == d.np.draw
    ensures d.py.pos <= leg.draws.py.pos && d.np.pos <= leg.draws.np.pos
    ensures leg.more ==>
      && w.agents[a].position.OnLink? && HopCompletes(s, w, a, moved)
      && leg.moved == moved + HopLength(w, a) < s.minMoveSpeed
    ensures leg.world.agents[a].timestepsSinceDeparture >= w.agents[a].timestepsSinceDeparture
  {
    if w.agents[a].position.AtLocation? then Leg(w, d, moved, false)
    else if !HopCompletes(s, w, a, moved) then Leg(Advance(s, w, a), d, moved, false)
    else
      var distance := HopLength(w, a);
      var w1 := CompleteHop(s, w, a);
      if distance + moved < s.minMoveSpeed then
        var r1 := EvolveAgent(s, w1, a, d);
        SameGraphTransitive(w.locations, w1.locations, r1.0.locations);
        Leg(r1.0, r1.1, moved + distance, true)
      else Leg(w1, d, moved, false)
  }

  /** The four cases of a pass. */
  lemma TravelStepCases(s: SimulationSettings, w: World, a: nat, moved: real, d: Draws)
    requires Wf(s, w) && a < |w.agents|
    ensures var leg := TravelStep(s, w, a, moved, d);
      && (w.agents[a].position.AtLocation? ==> leg == Leg(w, d, moved, false))
      // Hop not complete: the agent only moves along its link.
      && (w.agents[a].position.OnLink? && !HopCompletes(s, w, a, moved) ==>
            leg == Leg(Advance(s, w, a), d, moved, false))
      // Hop complete with MinMoveSpeed covered: the agent stops at the endpoint.
      && (w.agents[a].position.OnLink? && HopCompletes(s, w, a, moved) && HopLength(w, a) + moved >= s.minMoveSpeed ==>
            leg == Leg(CompleteHop(s, w, a), d, moved, false))
      // Hop complete and short: a new decision, and another pass with the hop's length counted.
      && (w.agents[a].position.OnLink? && HopCompletes(s, w, a, moved) && HopLength(w, a) + moved < s.minMoveSpeed ==>
            var r1 := EvolveAgent(s, CompleteHop(s, w, a), a, d);
            leg == Leg(r1.0, r1.1, moved + HopLength(w, a), true))
  {
  }

  /** `Person.finish_travel(moved)`: passes of `TravelStep` until the agent
      stops. `eps` is a lower bound on every link's length, which bounds the
      number of chained hops. */
  function FinishTravel(s: SimulationSettings, w: World, a: nat, moved: real, d: Draws, ghost eps: real): (r: (World, Draws))
    requires Wf(s, w) && a < |w.agents|
    requires eps > 0.0 && LinksAtLeast(w.locations, eps)
    ensures Wf(s, r.0) && SameGraph(w.locations, r.0.locations)
    ensures |r.0.agents| == |w.agents|
    ensures forall b :: 0 <= b < |w.agents| && b != a ==> r.0.agents[b] == w.agents[b]
    ensures r.1.py.draw == d.py.draw && r.1.np.draw == d.np.draw
    ensures d.py.pos <= r.1.py.pos && d.np.pos <= r.1.np.pos
    ensures r.0.agents[a].timestepsSinceDeparture >= w.agents[a].timestepsSinceDeparture
    decreases HopBudget(s, moved, eps)
  {
    var leg := TravelStep(s, w, a, moved, d);
    if leg.more then
      SameGraphKeepsLengths(w.locations, leg.world.locations, eps);
      HopBudgetDecreases(s, moved, HopLength(w, a), eps);
      var r := FinishTravel(s, leg.world, a, leg.moved, leg.draws, eps);
      SameGraphTransitive(w.locations, leg.world.locations, r.0.locations);
      r
    else (leg.world, leg.draws)
  }

  /** A pass that ends the travel is the whole of `finish_travel`; otherwise
      travel goes on from the pass's result. */
  lemma FinishTravelUnfolds(s: SimulationSettings, w: World, a: nat, moved: real, d: Draws, eps: real)
    requires Wf(s, w) && a < |w.agents| && eps > 0.0 && LinksAtLeast(w.locations, eps)
    ensures var leg := TravelStep(s, w, a, moved, d);
      && LinksAtLeast(leg.world.locations, eps)
      && (!leg.more ==> FinishTravel(s, w, a, moved, d, eps) == (leg.world, leg.draws))
      && (leg.more ==> FinishTravel(s, w, a, moved, d, eps) == FinishTravel(s, leg.world, a, leg.moved, leg.draws, eps))
  {
    SameGraphKeepsLengths(w.locations, TravelStep(s, w, a, moved, d).world.locations, eps);
  }

  /** One pass keeps every count equal to the agents at its place. */
  lemma TravelStepKeepsCounts(s: SimulationSettings, w: World, a: nat, moved: real, d: Draws)
    requires Wf(s, w) && Counted(w) && a < |w.agents|
    ensures Counted(TravelStep(s, w, a, moved, d).world)
  {
    TravelStepCases(s, w, a, moved, d);
    if w.agents[a].position.OnLink? {
      if !HopCompletes(s, w, a, moved) {
        StayKeepsCounts(w, Advance(s, w, a).agents);
      } else {
        ArrivalKeepsCounts(s, w, a);
        if HopLength(w, a) + moved < s.minMoveSpeed {
          EvolveAgentKeepsCounts(s, CompleteHop(s, w, a), a, d);
        }
      }
    }
  }

  /** `finish_travel` keeps every count equal to the agents at its place. */
  lemma FinishTravelKeepsCounts(s: SimulationSettings, w: World, a: nat, moved: real, d: Draws, eps: real)
    requires Wf(s, w) && Counted(w) && a < |w.agents|
    requires eps > 0.0 && LinksAtLeast(w.locations, eps)
    ensures Counted(FinishTravel(s, w, a, moved, d, eps).0)
  {
    var cur, m, dc := w, moved, d;
    while TravelStep(s, cur, a, m, dc).more
      invariant Wf(s, cur) && Counted(cur) && a < |cur.agents| && LinksAtLeast(cur.locations, eps)
      invariant FinishTravel(s, cur, a, m, dc, eps) == FinishTravel(s, w, a, moved, d, eps)
      decreases HopBudget(s, m, eps)
    {
      cur, m, dc := ChainedTravel(s, cur, a, m, dc, eps);
    }
    FinishTravelUnfolds(s, cur, a, m, dc, eps);
    TravelStepKeepsCounts(s, cur, a, m, dc);
  }

  /** A pass that goes on leaves a counted world from which `finish_travel`
      continues with a smaller hop budget. */
  lemma ChainedTravel(s: SimulationSettings, w: World, a: nat, moved: real, d: Draws, eps: real)
    returns (w1: World, moved1: real, d1: Draws)
    requires Wf(s, w) && Counted(w) && a < |w.agents|
    requires eps > 0.0 && LinksAtLeast(w.locations, eps)
    requires TravelStep(s, w, a, moved, d).more
    ensures Wf(s, w1) && Counted(w1) && a < |w1.agents| && LinksAtLeast(w1.locations, eps)
    ensures HopBudget(s, moved1, eps) < HopBudget(s, moved, eps)
    ensures FinishTravel(s, w, a, moved, d, eps) == FinishTravel(s, w1, a, moved1, d1, eps)
  {
    var leg := TravelStep(s, w, a, moved, d);
    FinishTravelUnfolds(s, w, a, moved, d, eps);
    TravelStepKeepsCounts(s, w, a, moved, d);
    ChainedTravelShrinksBudget(s, w, a, moved, d, eps);
    w1, moved1, d1 := leg.world, leg.moved, leg.draws;
  }

  lemma ChainedTravelShrinksBudget(s: SimulationSettings, w: World, a: nat, moved: real, d: Draws, eps: real)
    requires Wf(s, w) && a < |w.agents|
    requires eps > 0.0 && LinksAtLeast(w.locations, eps)
    requires TravelStep(s, w, a, moved, d).more
    ensures HopBudget(s, TravelStep(s, w, a, moved, d).moved, eps) < HopBudget(s, moved, eps)
  {
    HopBudgetDecreases(s, moved, HopLength(w, a), eps);
  }

  /** Reaching the end of a link moves one agent from the link to its endpoint,
      and every count follows it. */
  lemma ArrivalKeepsCounts(s: SimulationSettings, w: World, a: nat)
    requires Valid(s, w) && a < |w.agents| && w.agents[a].position.OnLink?
    ensures Valid(s, CompleteHop(s, w, a))
  {
    var p := w.agents[a];
    var l, j := p.position.from, p.position.link;
    var e := w.locations[l].links[j].endpoint;
    var w1 := CompleteHop(s, w, a);
    forall x | ValidPlace(w.locations, x)
      ensures ValidPlace(w1.locations, x)
      ensures Load(w1.locations, x) == Load(w.locations, x) - Indicator(x == Edge(l, j)) + Indicator(x == Loc(e))
    {
      CountToEndpointLoads(s, w.locations, l, j, p.timestepsSinceDeparture, x);
    }
    CountToEndpointTotal(s, w.locations, l, j, p.timestepsSinceDeparture);
    MoveKeepsCounts(w, w1, a, Edge(l, j), Loc(e));
  }
}
