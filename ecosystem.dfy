/** `Ecosystem` (flee.py:261-445): the location list, the agent list, the
    registered conflict zones and the camp arrival statistics, updated in
    place by the building operations and by one tick of `evolve`.

    Locations and agents are values held in the ecosystem's lists and named
    by index; a conflict zone is the index of its location, so a zone's
    population is always read from the location list, as the source reads it
    from the shared location object. */
module Flee {
  import opened Wrappers
  import opened Sums
  import opened Settings
  import opened Random
  import opened Locations
  import opened Scoring
  import opened Agents
  import opened Timestep
  import opened Building

  /** `-1` for a missing name, as the index variables of `linkUp` hold it. */
  function IndexOr(r: Option<nat>): (i: int)
    ensures r.None? ==> i == -1
    ensures r.Some? ==> i == r.value
  {
    match r
    case None => -1
    case Some(k) => k
  }

  /** A tick never renames a location: the cascade changes only scores, the
      agent passes only counts and logs. */
  lemma StepKeepsNames(s: SimulationSettings, w: World, names: seq<string>, d: Draws)
    requires Wf(s, w) && NamesMatch(names, w.locations)
    ensures NamesMatch(names, Step(s, w, d).0.locations)
  {
    var c := Cascade(s, w.locations);
    var r := Step(s, w, d).0.locations;
    forall i | 0 <= i < |w.locations| ensures r[i].name == names[i] {
      assert Unscored(c[i]).name == c[i].name && Unscored(w.locations[i]).name == w.locations[i].name;
      SameGraphFacts(c, r, i);
    }
  }

  // ---------------------------------------------------------------------------
  // Every operation keeps the ecosystem consistent.

  lemma TickKeepsConsistent(s: SimulationSettings, w: World, names: seq<string>, reg: Registry, d: Draws)
    requires Consistent(s, w, names, reg)
    ensures Consistent(s, Step(s, w, d).0, names, reg)
  {
    StepKeepsCounts(s, w, d);
    StepKeepsNames(s, w, names, d);
  }

  lemma ClearingKeepsConsistent(s: SimulationSettings, w: World, names: seq<string>, reg: Registry)
    requires Consistent(s, w, names, reg)
    ensures Consistent(s, World(ClearedLogs(w.locations), w.agents), names, reg)
  {
    ClearedLogsKeepValid(s, w);
  }

  lemma AddLocationKeepsConsistent(s: SimulationSettings, w: World, names: seq<string>, reg: Registry, loc: Location)
    requires Consistent(s, w, names, reg)
    requires loc.links == [] && loc.numAgents == 0 && loc.scores == [1.0, 1.0, 1.0, 1.0]
    ensures Consistent(s, World(w.locations + [loc], w.agents), names + [loc.name], reg)
  {
    AddLocationKeepsValid(s, w, loc);
    assert ZonesRegistered(reg.zones, reg.names, names + [loc.name]) by {
      forall k | 0 <= k < |reg.zones| ensures (names + [loc.name])[reg.zones[k]] == reg.names[k] {
      }
    }
  }

  lemma AddAgentKeepsConsistent(s: SimulationSettings, w: World, names: seq<string>, reg: Registry, l: nat)
    requires Consistent(s, w, names, reg) && l < |w.locations|
    ensures Consistent(s, World(w.locations[l := WithNewAgent(s, w.locations[l])], w.agents + [NewPerson(l)]), names, reg)
  {
    AddAgentKeepsValid(s, w, l);
  }

  lemma LinkedKeepsConsistent(s: SimulationSettings, w: World, names: seq<string>, reg: Registry,
                              i1: nat, i2: nat, distance: real, forcedRedirection: bool)
    requires Consistent(s, w, names, reg) && i1 < |w.locations| && i2 < |w.locations| && distance > 0.0
    ensures Consistent(s, World(Linked(w.locations, i1, i2, distance, forcedRedirection), w.agents), names, reg)
  {
    LinkedKeepsValid(s, w, i1, i2, distance, forcedRedirection);
  }

  /** The locations after `add_conflict_zone` registers location `i`. */
  function MaybeConflicted(locs: seq<Location>, i: nat, changeMovechance: bool): (r: seq<Location>)
    requires i < |locs|
    ensures |r| == |locs|
  {
    if changeMovechance then locs[i := Conflicted(locs[i])] else locs
  }

  /** The registry after `add_conflict_zone` registers location `i` with
      population `pop` under `name`. */
  function Registered(reg: Registry, i: nat, name: string, pop: int): (r: Registry)
    ensures r.zones == reg.zones + [i] && r.names == reg.names + [name]
    ensures r.weights == reg.weights + [pop as real]
  {
    Registry(reg.zones + [i], reg.names + [name], reg.weights + [pop as real], Sum(reg.weights + [pop as real]))
  }

  lemma RegisterKeepsConsistent(s: SimulationSettings, w: World, names: seq<string>, reg: Registry,
                                i: nat, name: string, changeMovechance: bool)
    requires Consistent(s, w, names, reg) && i < |w.locations|
    requires names[i] == name && name !in reg.names
    ensures var r := Registered(reg, i, name, w.locations[i].pop);
      && Consistent(s, World(MaybeConflicted(w.locations, i, changeMovechance), w.agents), names, r)
      && r.pop == reg.pop + w.locations[i].pop as real
  {
    if changeMovechance {
      ConflictedKeepsValid(s, w, i);
    }
    SumAppend(reg.weights, w.locations[i].pop as real);
  }

  lemma RefreshKeepsConsistent(s: SimulationSettings, w: World, names: seq<string>, reg: Registry)
    requires Consistent(s, w, names, reg)
    ensures var p := ZonePops(w.locations, reg.zones);
      Consistent(s, w, names, Registry(reg.zones, reg.names, p, Sum(p)))
  {
  }

  /** The loop of `_aggregate_arrivals`: every camp's journey log added up
      and emptied. */
  method Tally(locs: seq<Location>) returns (cleared: seq<Location>, count: nat, total: nat)
    ensures cleared == ClearedLogs(locs)
    ensures count == ArrivalCount(locs) && total == ArrivalTotal(locs)
  {
    cleared, count, total := locs, 0, 0;
    for i := 0 to |locs|
      invariant |cleared| == |locs|
      invariant total == ArrivalTotal(locs[..i]) && count == ArrivalCount(locs[..i])
      invariant forall k :: 0 <= k < i ==> cleared[k] == ClearLog(locs[k])
      invariant forall k :: i <= k < |locs| ==> cleared[k] == locs[k]
    {
      assert locs[..i + 1][..i] == locs[..i];
      var l := cleared[i];
      if l.camp {
        total := total + SumNat(l.incomingJourneyLengths);
        count := count + |l.incomingJourneyLengths|;
        cleared := cleared[i := l.(incomingJourneyLengths := [])];
      }
    }
    assert locs[..|locs|] == locs;
  }

  /** The scan of `linkUp`: the index of the last location carrying each
      name, `-1` for a name no location carries. */
  method FindEndpoints(names: seq<string>, endpoint1: string, endpoint2: string) returns (index1: int, index2: int)
    ensures index1 == IndexOr(LastIndexOf(names, endpoint1))
    ensures index2 == IndexOr(LastIndexOf(names, endpoint2))
  {
    index1, index2 := -1, -1;
    for i := 0 to |names|
      invariant index1 == IndexOr(LastIndexOf(names[..i], endpoint1))
      invariant index2 == IndexOr(LastIndexOf(names[..i], endpoint2))
    {
      assert names[..i + 1][..i] == names[..i];
      if names[i] == endpoint1 {
        index1 := i;
      }
      if names[i] == endpoint2 {
        index2 := i;
      }
    }
    assert names[..|names|] == names;
  }

  /** The scan of `add_conflict_zone`: the first location carrying the
      name, `-1` when none does or the name is already registered. */
  method FindUnregistered(names: seq<string>, zoneNames: seq<string>, name: string) returns (index: int)
    ensures index == if name in zoneNames then -1 else IndexOr(FirstIndexOf(names, name))
  {
    for i := 0 to |names|
      invariant forall k :: 0 <= k < i ==> names[k] != name || name in zoneNames
    {
      if names[i] == name && name !in zoneNames {
        assert FirstIndexOf(names, name).value == i;
        return i;
      }
    }
    return -1;
  }

  class Ecosystem {
    const settings: SimulationSettings
    var locations: seq<Location>
    var locationNames: seq<string>
    var agents: seq<Person>
    var time: nat

    var conflictZones: seq<nat>         // location index of every registered zone
    var conflictZoneNames: seq<string>
    var conflictWeights: seq<real>      // the zones' populations when last refreshed
    var conflictPop: real               // the sum of the weights

    var numArrivals: seq<nat>           // camp arrivals, one entry per aggregated tick
    var travelDurations: seq<real>      // their mean journey length in ticks

    /** The agent counts are right, every name is its location's name, and
        the conflict lists describe distinct existing locations with the
        total of their weights. */
    ghost predicate Valid()
      reads this`locations, this`agents, this`locationNames
      reads this`conflictZones, this`conflictZoneNames, this`conflictWeights, this`conflictPop
    {
      Consistent(settings, World(locations, agents), locationNames, Zones())
    }

    /** The conflict-zone lists as one value. */
    ghost function Zones(): Registry
      reads this`conflictZones, this`conflictZoneNames, this`conflictWeights, this`conflictPop
    {
      Registry(conflictZones, conflictZoneNames, conflictWeights, conflictPop)
    }

    /** `Ecosystem.__init__`: everything empty, time zero. */
    constructor (settings: SimulationSettings)
      requires settings.Valid()
      ensures Valid() && this.settings == settings
      ensures locations == [] && locationNames == [] && agents == [] && time == 0
      ensures conflictZones == [] && conflictZoneNames == [] && conflictWeights == [] && conflictPop == 0.0
      ensures numArrivals == [] && travelDurations == []
    {
      this.settings := settings;
      locations := [];
      locationNames := [];
      agents := [];
      time := 0;
      conflictZones := [];
      conflictZoneNames := [];
      conflictWeights := [];
      conflictPop := 0.0;
      numArrivals := [];
      travelDurations := [];
    }

    // -------------------------------------------------------------------------
    // The score cascade, location by location.

    /** The three score passes, each over every location. */
    method UpdateScores()
      requires GraphWf(locations)
      modifies this`locations
      ensures locations == Cascade(settings, old(locations))
    {
      UpdateLocationScores();
      assert SameButScores(old(locations), locations);
      SameButScoresKeepsGraph(old(locations), locations);
      UpdateNeighbourhoodScores();
      assert SameButScores(old(locations), locations);
      SameButScoresKeepsGraph(old(locations), locations);
      UpdateRegionScores();
    }

    /** `l.updateLocationScore()` for every location. */
    method UpdateLocationScores()
      modifies this`locations
      ensures locations == LocationPass(settings, old(locations))
    {
      var locs := locations;
      ghost var target := LocationPass(settings, locs);
      for i := 0 to |locs|
        invariant |locs| == |target|
        invariant forall k :: 0 <= k < i ==> locs[k] == target[k]
        invariant forall k :: i <= k < |locs| ==> locs[k] == locations[k]
      {
        locs := locs[i := locs[i].(locationScore := LocationScoreOf(settings, locs[i]))];
      }
      locations := locs;
    }

    /** `l.updateNeighbourhoodScore()` for every location. The pass writes
        only neighbourhood scores, so every location reads its neighbours'
        location scores as they were before the pass. */
    method UpdateNeighbourhoodScores()
      requires GraphWf(locations)
      modifies this`locations
      ensures locations == NeighbourhoodPass(old(locations))
    {
      var locs := locations;
      ghost var orig := locs;
      ghost var target := NeighbourhoodPass(orig);
      for i := 0 to |locs|
        invariant |locs| == |orig| && GraphWf(orig)
        invariant forall k :: 0 <= k < i ==> locs[k] == target[k]
        invariant forall k :: i <= k < |locs| ==> locs[k] == orig[k]
      {
        assert LocationScores(locs) == LocationScores(orig) by {
          forall k | 0 <= k < |orig| ensures locs[k].locationScore == orig[k].locationScore {
          }
        }
        var l := UpdateNeighbourhoodScore(locs[i], LocationScores(locs));
        locs := locs[i := l];
      }
      locations := locs;
    }

    /** `l.updateRegionScore()` for every location: the averaging branch also
        refreshes the score vector, the early return keeps it. */
    method UpdateRegionScores()
      requires GraphWf(locations)
      modifies this`locations
      ensures locations == RegionPass(old(locations))
    {
      var locs := locations;
      ghost var orig := locs;
      ghost var target := RegionPass(orig);
      for i := 0 to |locs|
        invariant |locs| == |orig| && GraphWf(orig)
        invariant forall k :: 0 <= k < i ==> locs[k] == target[k]
        invariant forall k :: i <= k < |locs| ==> locs[k] == orig[k]
      {
        assert NeighbourhoodScores(locs) == NeighbourhoodScores(orig) by {
          forall k | 0 <= k < |orig| ensures locs[k].neighbourhoodScore == orig[k].neighbourhoodScore {
          }
        }
        var l := UpdateRegionScore(locs[i], NeighbourhoodScores(locs));
        locs := locs[i := l];
      }
      locations := locs;
    }

    // -------------------------------------------------------------------------
    // The tick.

    /** `Ecosystem.evolve`: the three score passes, `evolve` for every agent,
        `finish_travel` for every agent, the arrival statistics when camps log
        journeys, and the clock. The random draws it consumes come from `d`
        and the unread rest is returned. */
    method Evolve(d: Draws) returns (d': Draws)
      requires Valid()
      modifies this`locations, this`agents, this`numArrivals, this`travelDurations, this`time
      ensures Valid()
      ensures var r := Step(settings, World(old(locations), old(agents)), d);
        && agents == r.0.agents && d' == r.1
        && locations == (if settings.campLogLevel > 0 then ClearedLogs(r.0.locations) else r.0.locations)
        && (settings.campLogLevel > 0 ==>
              && numArrivals == old(numArrivals) + [ArrivalCount(r.0.locations)]
              && travelDurations == old(travelDurations) + [MeanJourney(r.0.locations)])
      ensures settings.campLogLevel <= 0 ==> numArrivals == old(numArrivals) && travelDurations == old(travelDurations)
      ensures time == old(time) + 1
    {
      d' := MoveAgents(d);
      CloseTick();
    }

    /** The end of `evolve`: the camp statistics, when logged, and the clock. */
    method CloseTick()
      requires Valid()
      modifies this`locations, this`numArrivals, this`travelDurations, this`time
      ensures Valid() && agents == old(agents) && time == old(time) + 1
      ensures settings.campLogLevel > 0 ==>
        && locations == ClearedLogs(old(locations))
        && numArrivals == old(numArrivals) + [ArrivalCount(old(locations))]
        && travelDurations == old(travelDurations) + [MeanJourney(old(locations))]
      ensures settings.campLogLevel <= 0 ==>
        locations == old(locations) && numArrivals == old(numArrivals) && travelDurations == old(travelDurations)
    {
      if settings.campLogLevel > 0 {
        AggregateArrivals();
      }
      time := time + 1;
    }

    /** The part of `evolve` before the statistics: the score cascade and
        the two agent passes. */
    method MoveAgents(d: Draws) returns (d': Draws)
      requires Valid()
      modifies this`locations, this`agents
      ensures Valid()
      ensures (World(locations, agents), d') == Step(settings, World(old(locations), old(agents)), d)
    {
      TickKeepsConsistent(settings, World(locations, agents), locationNames, Zones(), d);
      d' := RunPasses(d);
    }

    method RunPasses(d: Draws) returns (d': Draws)
      requires Wf(settings, World(locations, agents))
      modifies this`locations, this`agents
      ensures (World(locations, agents), d') == Step(settings, World(old(locations), old(agents)), d)
    {
      ghost var w := World(locations, agents);
      UpdateScores();
      assert World(locations, agents) == Scored(settings, w);
      d' := DecideDepartures(d);
      d' := CompleteTravel(d');
    }

    /** `a.evolve()` for every agent, in list order. */
    method DecideDepartures(d: Draws) returns (d': Draws)
      requires Wf(settings, World(locations, agents))
      modifies this`locations, this`agents
      ensures (World(locations, agents), d') == DecisionPass(settings, World(old(locations), old(agents)), d, 0)
    {
      var w := World(locations, agents);
      ghost var w0 := w;
      d' := d;
      for i := 0 to |w.agents|
        invariant |w.agents| == |w0.agents| && Wf(settings, w)
        invariant DecisionPass(settings, w, d', i) == DecisionPass(settings, w0, d, 0)
      {
        var r := EvolveAgent(settings, w, i, d');
        w, d' := r.0, r.1;
      }
      locations, agents := w.locations, w.agents;
    }

    /** `a.finish_travel()` for every agent, in list order. */
    method CompleteTravel(d: Draws) returns (d': Draws)
      requires Wf(settings, World(locations, agents))
      modifies this`locations, this`agents
      ensures var w := World(old(locations), old(agents));
        (World(locations, agents), d') == CompletionPass(settings, w, d, 0, ShortestLinkOf(w.locations))
    {
      var w := World(locations, agents);
      ghost var w0 := w;
      ghost var eps := ShortestLinkOf(w.locations);
      d' := d;
      for i := 0 to |w.agents|
        invariant |w.agents| == |w0.agents| && Wf(settings, w) && LinksAtLeast(w.locations, eps)
        invariant CompletionPass(settings, w, d', i, eps) == CompletionPass(settings, w0, d, 0, eps)
      {
        var r := FinishTravel(settings, w, i, 0.0, d', eps);
        SameGraphKeepsLengths(w.locations, r.0.locations, eps);
        w, d' := r.0, r.1;
      }
      locations, agents := w.locations, w.agents;
    }

    /** `_aggregate_arrivals`: add up and clear every camp's journey log, and
        record the number of arrivals and their mean journey length. */
    method AggregateArrivals()
      requires Valid()
      modifies this`locations, this`numArrivals, this`travelDurations
      ensures Valid()
      ensures settings.campLogLevel > 0 ==>
        && locations == ClearedLogs(old(locations))
        && numArrivals == old(numArrivals) + [ArrivalCount(old(locations))]
        && travelDurations == old(travelDurations) + [MeanJourney(old(locations))]
      ensures settings.campLogLevel <= 0 ==>
        locations == old(locations) && numArrivals == old(numArrivals) && travelDurations == old(travelDurations)
    {
      if settings.campLogLevel > 0 {
        ClearingKeepsConsistent(settings, World(locations, agents), locationNames, Zones());
        var cleared, count, arrivalTotal := Tally(locations);
        locations := cleared;
        numArrivals := numArrivals + [count];
        if count > 0 {
          travelDurations := travelDurations + [arrivalTotal as real / count as real];
        } else {
          travelDurations := travelDurations + [0.0];
        }
      }
    }

    // -------------------------------------------------------------------------
    // Building the ecosystem.

    /** `addLocation`: a new location with no links and no agents; the index
        it gets stands for the object the source returns. */
    method AddLocation(name: string, movechance: real, capacity: int, pop: int, foreign: bool) returns (index: nat)
      requires Valid()
      modifies this`locations, this`locationNames
      ensures Valid()
      ensures locations == old(locations) + [NewLocation(name, movechance, capacity, pop, foreign)]
      ensures locationNames == old(locationNames) + [name]
      ensures index == |old(locations)| && locations[index].name == name
    {
      var l := NewLocation(name, movechance, capacity, pop, foreign);
      AddLocationKeepsConsistent(settings, World(locations, agents), locationNames, Zones(), l);
      index := |locations|;
      locations := locations + [l];
      locationNames := locationNames + [name];
    }

    /** `addAgent`: a new agent at location `location`, drawn from its
        population when the settings say so. */
    method AddAgent(location: nat)
      requires Valid() && location < |locations|
      modifies this`locations, this`agents
      ensures Valid()
      ensures locations == old(locations)[location := WithNewAgent(settings, old(locations)[location])]
      ensures agents == old(agents) + [NewPerson(location)]
    {
      AddAgentKeepsConsistent(settings, World(locations, agents), locationNames, Zones(), location);
      locations := locations[location := WithNewAgent(settings, locations[location])];
      agents := agents + [NewPerson(location)];
    }

    /** The number of agents, which on a valid ecosystem is also the number
        the locations and links count. */
    function NumAgents(): (n: nat)
      reads this
      ensures n == |agents|
      ensures Valid() ==> n == Total(locations)
    {
      |agents|
    }

    /** `linkUp`: the last location carrying each name is the endpoint. A
        missing name ends the source's process; here it fails and changes
        nothing. */
    method LinkUp(endpoint1: string, endpoint2: string, distance: real, forcedRedirection: bool) returns (ok: bool)
      requires Valid() && distance > 0.0
      modifies this`locations
      ensures Valid()
      ensures ok <==> endpoint1 in locationNames && endpoint2 in locationNames
      ensures ok ==> locations == Linked(old(locations), LastIndexOf(locationNames, endpoint1).value,
                                         LastIndexOf(locationNames, endpoint2).value, distance, forcedRedirection)
      ensures !ok ==> locations == old(locations)
    {
      var index1, index2 := FindEndpoints(locationNames, endpoint1, endpoint2);
      if index1 < 0 || index2 < 0 {
        return false;
      }
      LinkedKeepsConsistent(settings, World(locations, agents), locationNames, Zones(), index1, index2, distance, forcedRedirection);
      LinkedLinks(locations, index1, index2, distance, forcedRedirection);
      locations := Linked(locations, index1, index2, distance, forcedRedirection);
      return true;
    }

    // -------------------------------------------------------------------------
    // Conflict zones.

    /** `add_conflict_zone`: the first location with the name becomes a zone
        weighted by its population, unless the name is already registered or
        no location has it; with `changeMovechance` every agent there leaves
        at its next decision. */
    method AddConflictZone(name: string, changeMovechance: bool)
      requires Valid()
      modifies this`locations, this`conflictZones, this`conflictZoneNames, this`conflictWeights, this`conflictPop
      ensures Valid()
      ensures name in old(locationNames) && name !in old(conflictZoneNames) ==>
        var k := FirstIndexOf(old(locationNames), name).value;
        && conflictZones == old(conflictZones) + [k]
        && conflictZoneNames == old(conflictZoneNames) + [name]
        && conflictWeights == old(conflictWeights) + [old(locations)[k].pop as real]
        && conflictPop == old(conflictPop) + old(locations)[k].pop as real
        && locations == (if changeMovechance then old(locations)[k := Conflicted(old(locations)[k])] else old(locations))
      ensures name !in old(locationNames) || name in old(conflictZoneNames) ==>
        && locations == old(locations) && conflictZones == old(conflictZones)
        && conflictZoneNames == old(conflictZoneNames) && conflictWeights == old(conflictWeights)
        && conflictPop == old(conflictPop)
    {
      var i := FindUnregistered(locationNames, conflictZoneNames, name);
      if i >= 0 {
        Register(i, name, changeMovechance);
      }
    }

    /** The registration step of `add_conflict_zone` for location `i`. */
    method Register(i: nat, name: string, changeMovechance: bool)
      requires Valid() && i < |locations| && locationNames[i] == name && name !in conflictZoneNames
      modifies this`locations, this`conflictZones, this`conflictZoneNames, this`conflictWeights, this`conflictPop
      ensures Valid()
      ensures Zones() == Registered(old(Zones()), i, name, old(locations)[i].pop)
      ensures conflictPop == old(conflictPop) + old(locations)[i].pop as real
      ensures locations == MaybeConflicted(old(locations), i, changeMovechance)
    {
      RegisterKeepsConsistent(settings, World(locations, agents), locationNames, Zones(), i, name, changeMovechance);
      if changeMovechance {
        locations := locations[i := Conflicted(locations[i])];
      }
      conflictZoneNames := conflictZoneNames + [name];
      conflictZones := conflictZones + [i];
      conflictWeights := conflictWeights + [locations[i].pop as real];
      conflictPop := Sum(conflictWeights);
    }

    /** `refresh_conflict_weights`: every weight becomes its zone's current
        population, and the total their sum. */
    method RefreshConflictWeights()
      requires Valid()
      modifies this`conflictWeights, this`conflictPop
      ensures Valid()
      ensures conflictWeights == ZonePops(locations, conflictZones)
    {
      RefreshKeepsConsistent(settings, World(locations, agents), locationNames, Zones());
      var zones, weights := conflictZones, conflictWeights;
      for i := 0 to |zones|
        invariant |weights| == |zones|
        invariant forall k :: 0 <= k < i ==> weights[k] == locations[zones[k]].pop as real
      {
        weights := weights[i := locations[zones[i]].pop as real];
      }
      conflictWeights := weights;
      conflictPop := Sum(weights);
    }

    /** `pick_conflict_location` with the numpy draw `u`: a registered zone,
        or `None` where numpy raises. */
    function PickConflictLocation(u: Unit): (r: Option<nat>)
      reads this
      requires Valid()
      ensures r.None? <==> |conflictZones| == 0 || conflictPop == 0.0 || !NonNegative(Divided(conflictWeights, conflictPop))
      ensures r.Some? ==> r.value in conflictZones && r.value < |locations|
      // numpy's draw over the registry, so that `PickZoneDistribution` applies.
      ensures r == PickZone(conflictZones, conflictWeights, conflictPop, u)
    {
      var r := PickZone(conflictZones, conflictWeights, conflictPop, u);
      if r.Some? then
        PickZoneDistribution(conflictZones, conflictWeights, conflictPop, u);
        r
      else r
    }
  }
}
