/** Building the ecosystem: adding locations, links and agents, registering
    conflict zones and drawing a conflict zone (flee.py:321-445), as
    functions of the location list, with the facts that these steps keep the
    agent counts right. */
module Building {
  import opened Wrappers
  import opened Sums
  import opened Settings
  import opened Random
  import opened Locations
  import opened Scoring
  import opened Agents

  // ---------------------------------------------------------------------------
  // What the ecosystem keeps consistent.

  /** The name list is the list of the locations' names. */
  predicate NamesMatch(names: seq<string>, locs: seq<Location>)
  {
    |names| == |locs| && forall i :: 0 <= i < |locs| ==> names[i] == locs[i].name
  }

  /** Every zone is an existing location registered under its name, and no
      name is registered twice. */
  predicate ZonesRegistered(zones: seq<nat>, zoneNames: seq<string>, names: seq<string>)
  {
    && |zoneNames| == |zones|
    && (forall k :: 0 <= k < |zones| ==> zones[k] < |names| && names[zones[k]] == zoneNames[k])
    && (forall j, k :: 0 <= j < k < |zoneNames| ==> zoneNames[j] != zoneNames[k])
  }

  /** The ecosystem's conflict-zone lists: location indices, their names,
      their weights and the weights' total. */
  datatype Registry = Registry(zones: seq<nat>, names: seq<string>, weights: seq<real>, pop: real)

  /** The agent counts are right, the name list is the locations' names,
      and the registry describes distinct existing locations with the total
      of their weights. */
  ghost predicate Consistent(s: SimulationSettings, w: World, names: seq<string>, reg: Registry)
  {
    && Valid(s, w)
    && NamesMatch(names, w.locations)
    && ZonesRegistered(reg.zones, reg.names, names)
    && |reg.weights| == |reg.zones| && reg.pop == Sum(reg.weights)
  }

  // ---------------------------------------------------------------------------
  // Name lookup.

  /** The index the last matching name has: `linkUp` scans the whole list and
      keeps overwriting its index. */
  function LastIndexOf(names: seq<string>, name: string): (r: Option<nat>)
    ensures r.Some? ==>
      && r.value < |names| && names[r.value] == name
      && forall k :: r.value < k < |names| ==> names[k] != name
    ensures r.None? <==> name !in names
  {
    if |names| == 0 then None
    else if names[|names| - 1] == name then Some(|names| - 1)
    else
      var r := LastIndexOf(names[..|names| - 1], name);
      assert names == names[..|names| - 1] + [names[|names| - 1]];
      r
  }

  /** The index the first matching name has: `add_conflict_zone` stops at the
      first match it registers. */
  function FirstIndexOf(names: seq<string>, name: string): (r: Option<nat>)
    ensures r.Some? ==>
      && r.value < |names| && names[r.value] == name
      && forall k :: 0 <= k < r.value ==> names[k] != name
    ensures r.None? <==> name !in names
  {
    if |names| == 0 then None
    else if names[0] == name then Some(0)
    else
      var r := FirstIndexOf(names[1..], name);
      assert names == [names[0]] + names[1..];
      match r
      case None => None
      case Some(k) => Some(k + 1)
  }

  // ---------------------------------------------------------------------------
  // Locations.

  /** A new location keeps the world valid: nothing is counted at it yet. */
  lemma AddLocationKeepsValid(s: SimulationSettings, w: World, loc: Location)
    requires Valid(s, w)
    requires loc.links == [] && loc.numAgents == 0 && |loc.scores| == 4
    requires forall k :: 0 <= k < |loc.scores| ==> loc.scores[k] >= 0.0
    ensures Valid(s, World(w.locations + [loc], w.agents))
  {
    var locs := w.locations + [loc];
    var n := |w.locations|;
    forall l | 0 <= l < |locs| ensures LinksInto(locs[l].links, |locs|) && |locs[l].scores| == 4 {
      if l < n {
        assert LinksInto(w.locations[l].links, n);
      }
    }
    var ps := Places(w.agents);
    forall x | ValidPlace(locs, x)
      ensures Load(locs, x) == multiset(ps)[x]
    {
      if x == Loc(n) {
        assert x !in ps by {
          forall a | 0 <= a < |ps| ensures ps[a] != x {
            assert ValidPlace(w.locations, PlaceOf(w.agents[a].position));
          }
        }
      } else {
        assert ValidPlace(w.locations, x);
      }
    }
    var f := seq(|w.locations|, i requires 0 <= i < |w.locations| => LocationLoad(w.locations[i]));
    assert Total(w.locations) == SumInts(f) by {
      var old_ := w.locations;
      assert seq(|old_|, i requires 0 <= i < |old_| => LocationLoad(old_[i])) == f;
    }
    assert LinkLoads(loc.links) == [];
    assert LocationLoad(loc) == 0;
    var g := seq(|locs|, i requires 0 <= i < |locs| => LocationLoad(locs[i]));
    assert g == f + [0];
    SumIntsAppend(f, 0);
    assert Total(locs) == SumInts(g);
  }

  // ---------------------------------------------------------------------------
  // Links.

  /** Location `l` with `link` appended to its outgoing links. */
  function WithLink(locs: seq<Location>, l: nat, link: Link): (r: seq<Location>)
    requires l < |locs|
    ensures |r| == |locs| && r[l] == locs[l].(links := locs[l].links + [link])
    ensures forall i :: 0 <= i < |locs| && i != l ==> r[i] == locs[i]
  {
    locs[l := locs[l].(links := locs[l].links + [link])]
  }

  /** `linkUp`: a link from `i1` to `i2` carrying the forced-redirection flag,
      and a link back from `i2` to `i1` that never carries it. */
  function Linked(locs: seq<Location>, i1: nat, i2: nat, distance: real, forcedRedirection: bool): (r: seq<Location>)
    requires i1 < |locs| && i2 < |locs|
    ensures |r| == |locs|
    ensures forall i :: 0 <= i < |locs| ==> r[i].name == locs[i].name
  {
    WithLink(WithLink(locs, i1, Link(i2, distance, 0, forcedRedirection)), i2, Link(i1, distance, 0, false))
  }

  /** The two links `linkUp` appends, in order, when the endpoints differ. */
  lemma LinkedLinks(locs: seq<Location>, i1: nat, i2: nat, distance: real, forcedRedirection: bool)
    requires i1 < |locs| && i2 < |locs|
    ensures var r := Linked(locs, i1, i2, distance, forcedRedirection);
      && (i1 != i2 ==>
            && r[i1].links == locs[i1].links + [Link(i2, distance, 0, forcedRedirection)]
            && r[i2].links == locs[i2].links + [Link(i1, distance, 0, false)])
      && (i1 == i2 ==>
            r[i1].links == locs[i1].links + [Link(i2, distance, 0, forcedRedirection), Link(i1, distance, 0, false)])
      && forall i :: 0 <= i < |locs| && i != i1 && i != i2 ==> r[i] == locs[i]
  {
  }

  /** A new, empty link of positive length keeps the world valid. */
  lemma AddLinkKeepsValid(s: SimulationSettings, w: World, l: nat, link: Link)
    requires Valid(s, w) && l < |w.locations|
    requires link.endpoint < |w.locations| && link.distance > 0.0 && link.numAgents == 0
    ensures Valid(s, World(WithLink(w.locations, l, link), w.agents))
  {
    var locs := WithLink(w.locations, l, link);
    var n := |w.locations[l].links|;
    assert GraphWf(locs) by {
      forall i | 0 <= i < |locs| ensures LinksInto(locs[i].links, |locs|) && |locs[i].scores| == 4 {
        assert LinksInto(w.locations[i].links, |locs|);
      }
    }
    forall a | 0 <= a < |w.agents| ensures ValidPlace(locs, PlaceOf(w.agents[a].position)) {
      assert ValidPlace(w.locations, PlaceOf(w.agents[a].position));
    }
    var ps := Places(w.agents);
    forall x | ValidPlace(locs, x)
      ensures Load(locs, x) == multiset(ps)[x]
    {
      if x == Edge(l, n) {
        assert x !in ps by {
          forall a | 0 <= a < |ps| ensures ps[a] != x {
            assert ValidPlace(w.locations, PlaceOf(w.agents[a].position));
          }
        }
      } else {
        assert ValidPlace(w.locations, x);
        match x
        case Loc(i) =>
        case Edge(i, j) =>
          if i == l {
            assert locs[l].links[j] == w.locations[l].links[j];
          }
      }
    }
    assert LinkLoads(locs[l].links) == LinkLoads(w.locations[l].links) + [0];
    SumIntsAppend(LinkLoads(w.locations[l].links), 0);
    TotalUpdate(w.locations, l, locs[l]);
  }

  lemma LinkedKeepsValid(s: SimulationSettings, w: World, i1: nat, i2: nat, distance: real, forcedRedirection: bool)
    requires Valid(s, w) && i1 < |w.locations| && i2 < |w.locations| && distance > 0.0
    ensures Valid(s, World(Linked(w.locations, i1, i2, distance, forcedRedirection), w.agents))
  {
    var locs1 := WithLink(w.locations, i1, Link(i2, distance, 0, forcedRedirection));
    AddLinkKeepsValid(s, w, i1, Link(i2, distance, 0, forcedRedirection));
    AddLinkKeepsValid(s, World(locs1, w.agents), i2, Link(i1, distance, 0, false));
  }

  // ---------------------------------------------------------------------------
  // Agents.

  /** The location an agent is added at: one more agent, and one fewer
      inhabitant when refugees are taken from a positive population. */
  function WithNewAgent(s: SimulationSettings, loc: Location): (r: Location)
    ensures r.numAgents == loc.numAgents + 1
    ensures s.takeRefugeesFromPopulation && loc.pop > 0 ==> r.pop == loc.pop - 1
    ensures !(s.takeRefugeesFromPopulation && loc.pop > 0) ==> r.pop == loc.pop
    ensures SameLinks(r.links, loc.links) && r.links == loc.links
    ensures r.(numAgents := loc.numAgents, pop := loc.pop) == loc
  {
    var pop := if s.takeRefugeesFromPopulation && loc.pop > 0 then loc.pop - 1 else loc.pop;
    loc.(pop := pop, numAgents := loc.numAgents + 1)
  }

  lemma AddAgentKeepsValid(s: SimulationSettings, w: World, l: nat)
    requires Valid(s, w) && l < |w.locations|
    ensures Valid(s, World(w.locations[l := WithNewAgent(s, w.locations[l])], w.agents + [NewPerson(l)]))
  {
    var locs := w.locations[l := WithNewAgent(s, w.locations[l])];
    var agents := w.agents + [NewPerson(l)];
    forall i | 0 <= i < |locs| ensures LinksInto(locs[i].links, |locs|) && |locs[i].scores| == 4 {
      assert locs[i].links == w.locations[i].links;
    }
    forall a | 0 <= a < |agents| ensures ValidPlace(locs, PlaceOf(agents[a].position)) {
      if a < |w.agents| {
        assert ValidPlace(w.locations, PlaceOf(w.agents[a].position));
      }
    }
    assert Places(agents) == Places(w.agents) + [Loc(l)];
    forall x | ValidPlace(locs, x)
      ensures Load(locs, x) == multiset(Places(agents))[x]
    {
      assert ValidPlace(w.locations, x);
    }
    TotalUpdate(w.locations, l, locs[l]);
  }

  // ---------------------------------------------------------------------------
  // Conflict zones.

  /** A location declared a conflict zone with `change_movechance`: every
      agent there leaves when it next decides, and it scores ConflictWeight. */
  function Conflicted(loc: Location): (r: Location)
    ensures r.movechance == 1.0 && r.conflict
    ensures r.(movechance := loc.movechance, conflict := loc.conflict) == loc
  {
    loc.(movechance := 1.0, conflict := true)
  }

  lemma ConflictedKeepsValid(s: SimulationSettings, w: World, l: nat)
    requires Valid(s, w) && l < |w.locations|
    ensures Valid(s, World(w.locations[l := Conflicted(w.locations[l])], w.agents))
  {
    var locs := w.locations[l := Conflicted(w.locations[l])];
    forall i | 0 <= i < |locs| ensures LinksInto(locs[i].links, |locs|) && |locs[i].scores| == 4 {
      assert locs[i].links == w.locations[i].links;
    }
    forall a | 0 <= a < |w.agents| ensures ValidPlace(locs, PlaceOf(w.agents[a].position)) {
      assert ValidPlace(w.locations, PlaceOf(w.agents[a].position));
    }
    forall x | ValidPlace(locs, x)
      ensures Load(locs, x) == multiset(Places(w.agents))[x]
    {
      assert ValidPlace(w.locations, x);
    }
    TotalUpdate(w.locations, l, locs[l]);
  }

  /** The population of every conflict zone, as `refresh_conflict_weights`
      writes it into the weight list. */
  function ZonePops(locs: seq<Location>, zones: seq<nat>): (r: seq<real>)
    requires forall k :: 0 <= k < |zones| ==> zones[k] < |locs|
    ensures |r| == |zones| && forall k :: 0 <= k < |zones| ==> r[k] == locs[zones[k]].pop as real
  {
    seq(|zones|, k requires 0 <= k < |zones| => locs[zones[k]].pop as real)
  }

  /** `pick_conflict_location` with the numpy draw `u`: the weights divided by
      their total are the probabilities. numpy refuses an empty list, a total
      of zero (the division gives NaN) and a negative probability; those
      calls raise, which is `None` here. */
  function PickZone(zones: seq<nat>, weights: seq<real>, total: real, u: Unit): (r: Option<nat>)
    requires |weights| == |zones|
    ensures r.None? <==> |zones| == 0 || total == 0.0 || !NonNegative(Divided(weights, total))
  {
    if |zones| == 0 || total == 0.0 then None
    else
      var p := Divided(weights, total);
      if !NonNegative(p) then None
      else
        var k := Choice(p, u);
        if k < |zones| then Some(zones[k]) else Some(zones[|zones| - 1])
  }

  /** When the total is the sum of the weights, the probabilities add up to one. */
  lemma ProbabilitiesSumToOne(weights: seq<real>, total: real)
    requires total == Sum(weights) && total != 0.0
    ensures Sum(Divided(weights, total)) == 1.0
  {
    SumDivided(weights, total);
    SelfQuotient(total);
  }

  /** Every pick is a registered zone drawn with positive probability, and zone
      `k` is drawn exactly when `u` falls in its slice of [0, 1), whose width
      is its share of the total weight. */
  lemma PickZoneDistribution(zones: seq<nat>, weights: seq<real>, total: real, u: Unit)
    requires |weights| == |zones| && total == Sum(weights)
    requires PickZone(zones, weights, total, u).Some?
    ensures var p := Divided(weights, total);
      && Choice(p, u) < |zones|
      && PickZone(zones, weights, total, u) == Some(zones[Choice(p, u)])
      && p[Choice(p, u)] > 0.0
      && forall k :: 0 <= k < |zones| ==> (Choice(p, u) == k <==> Cumulative(p, k) <= u < Cumulative(p, k + 1))
  {
    var p := Divided(weights, total);
    ProbabilitiesSumToOne(weights, total);
    ChoiceInRange(p, u);
    forall k | 0 <= k < |zones| ensures (Choice(p, u) == k <==> Cumulative(p, k) <= u < Cumulative(p, k + 1)) {
      ChoiceIsInterval(p, u, k);
    }
  }
}
