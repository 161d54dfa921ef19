# Flee in Dafny

A model of the core of Flee (`flee.py`), an agent-based simulation of people
displaced by conflict. Locations (towns, camps, conflict zones) are joined by
links of a given length in km. Each agent stands at a location or travels along
a link. One tick of `Ecosystem.evolve` does five things in order:

1. It recomputes every location's three-tier attractiveness: location, then
   neighbourhood, then region score.
2. It lets every agent decide whether to leave and by which link.
3. It moves every travelling agent along its link. An agent that reached the
   next location early in the tick decides again and chains another hop.
4. When camp logging is on, it adds up the camp arrival statistics.
5. It advances the clock.

The model has these parts:

- `settings.dfy` (module `Settings`): the `SimulationSettings` parameters. They
  are a record passed to the ecosystem, with the defaults the source ships.
- `random.dfy` (module `Random`): the two random sources the source draws from.
  Python's `random.random()` and numpy's global generator are each a stream of
  uniform draws in [0, 1). `np.random.choice` is the first index whose
  cumulative probability exceeds the draw.
- `locations.dfy` (module `Locations`): `Link` and `Location` values, the
  capacity test, the location score, and the inverse-distance average behind
  the higher score tiers.
- `scoring.dfy` (module `Scoring`): the three score passes over all locations,
  and the facts about their composition.
- `routing.dfy` (module `Routing`): `getLinkWeight` and `selectRoute`. Forced
  links, full endpoints, normalisation and the uniform fallback are all here.
- `agents.dfy` (module `Agents`): `Person`, its position, and its two
  transitions, `evolve` and `finish_travel`. These are functions of the whole
  world: the location list and the agent list.
- `timestep.dfy` (module `Timestep`): one tick as a function of the world, and
  the camp arrival statistics.
- `building.dfy` (module `Building`): adding locations, links and agents,
  registering conflict zones and drawing one, as functions of the location
  list.
- `ecosystem.dfy` (module `Flee`): the `Ecosystem` class. Its methods update its
  lists in place with the same loops as the source. Each method is proved equal
  to the functions above.

The central invariant is `Agents.Counted`, and every operation keeps it. Every
location's and every link's `numAgents` equals the number of agents standing
there. The counters together add up to the number of agents. The class
invariant `Flee.Ecosystem.Valid` adds three things:

- the name list is the list of the locations' names;
- the conflict-zone lists describe distinct, existing, correctly named
  locations;
- `conflict_pop` is the sum of the weights.

A few behaviours of flee.py are easy to miss; the model follows them:

- `linkUp` with an unknown name ends the process (`sys.exit`). Here it
  returns `false` and changes nothing.
- Location names are not checked for uniqueness. `linkUp` uses the last
  location with a name, and `add_conflict_zone` uses the first.
- Registering a conflict zone a second time changes nothing. The source then
  prints its "does not exist" diagnostic.

## Model

| member | source | states |
|---|---|---|
| `Random.ChoiceIsInterval` | flee.py:162 | `np.random.choice` with draw `u` picks index `k` exactly when `u` lies in `[P(<k), P(<=k))`, so `k` is drawn with probability `p[k]` |
| `Random.ChoiceInRange` | flee.py:162 | for a non-negative `p` summing to 1, the pick is a valid index whose probability is positive |
| `Random.Choice` | flee.py:162 | the pick is an index of `p`, or `|p|` only when the draw lies past the total; `ChoiceIsInterval` says which index |
| `Locations.NewLocation` | flee.py:165-188 | a new location is a camp iff its movechance is below 0.01; it has no conflict flag, links or agents, and its score vector is `[1, 1, 1, 1]` |
| `Locations.IsFull` | flee.py:190-196 | a negative capacity is never full; otherwise full iff `numAgents >= capacity * CapacityBuffer` |
| `Locations.IsFullIgnoresLinkLoad` | flee.py:190-196 | the answer does not depend on the `numOnLink` argument |
| `Locations.LocationScoreOf` | flee.py:199-207 | foreign gives CampWeight, else conflict gives ConflictWeight, else 1.0; non-negative under valid settings |
| `Locations.InverseDistanceTotalPositive` | flee.py:219-225 | the total link weight `sum(1/distance)` is positive once there is a link, so the division is defined |
| `Locations.AverageWithin` | flee.py:218-225 | an inverse-distance weighted average of neighbour values lies within any bounds on those values |
| `Locations.NeighbourAverage` | flee.py:218-225 | the accumulating loop yields the inverse-distance weighted average, which lies between the smallest and the largest neighbour value |
| `Scoring.UpdateNeighbourhoodScore` | flee.py:209-225 | only the neighbourhood score changes: to the own location score for a camp or a link-less location, else to the average over the neighbours' location scores |
| `Scoring.UpdateRegionScore` | flee.py:227-243 | a camp or link-less location takes its location score as region score and keeps its score vector; any other takes the average of neighbourhood scores and the vector `[1, location, neighbourhood, region]` |
| `Scoring.LocationPass` | flee.py:384-385 | every location's score becomes `LocationScoreOf` and nothing else changes |
| `Scoring.NeighbourhoodPass` | flee.py:387-388 | every location's neighbourhood score becomes `NeighbourhoodScoreOf` over the location scores before the pass, and nothing else changes |
| `Scoring.RegionPass` | flee.py:390-391 | every location becomes `WithRegionScore` over the neighbourhood scores before the pass |
| `Scoring.NeighbourhoodScoreOf` | flee.py:209-225 | a camp or a location without links takes its own location score; any other takes a weighted average that lies between the smallest and the largest neighbouring location score |
| `Scoring.WithRegionScore` | flee.py:227-243 | only the region score and the score vector can change; a camp or a location without links takes its location score and keeps its vector; any other takes an average between its neighbours' smallest and largest neighbourhood scores and gets the vector `[1, location, neighbourhood, region]` |
| `Scoring.Cascade` | flee.py:383-391 | the three passes in order change only scores and keep the graph well formed |
| `Scoring.CascadeStages` | flee.py:383-391 | after the three passes, location scores are those of pass one and neighbourhood scores those of pass two |
| `Scoring.CascadeKeepsLinks` | flee.py:383-391 | the cascade changes no location's links or camp flag |
| `Scoring.CascadeIsolated` | flee.py:212-215 | after the cascade a camp or link-less location has neighbourhood = region = location score, and its score vector is unchanged |
| `Scoring.CascadeAveraged` | flee.py:218-243 | after the cascade any other location holds the weighted averages of its neighbours' location and neighbourhood scores and the vector `[1, location, neighbourhood, region]` |
| `Scoring.CascadeBetweenNeighbours` | flee.py:218-243 | both averaged tiers lie between the least and the greatest neighbour value |
| `Scoring.CascadeIdempotent` | flee.py:383-391 | running the cascade twice with no change between gives the same locations as running it once |
| `Scoring.CascadeNonNegative` | flee.py:199-243 | under valid settings every score and every score-vector entry after the cascade is non-negative |
| `Routing.AwarenessLevel` | flee.py:124-149 | the configured level without dynamic awareness; with it, level 0, 1, 2 or 3 exactly when the ticks since departure are 0, 1, 2-3 or at least 4 |
| `Routing.LinkWeight` | flee.py:108-118 | the weight times `Softening + distance` is the endpoint's score at the chosen tier; non-negative scores give a non-negative weight |
| `Routing.FirstForcedFrom` | flee.py:125-140 | the first link from `i` on that is forced and whose endpoint is not full, with no such link before it; `None` iff there is none |
| `Routing.RouteWeights` | flee.py:125-149 | a full endpoint gets weight 0; any other link gets the weight that times `Softening + distance` is the endpoint's score at the given tier |
| `Routing.Normalise` | flee.py:151-157 | one probability per link; its meaning is `NormaliseIsDistribution` |
| `Routing.RouteChoice` | flee.py:120-162 | the route is `-1` exactly when the location has no links, otherwise a valid link index |
| `Routing.RouteWeightsNonNegative` | flee.py:125-149 | the scan's weights are non-negative: 0 for a full endpoint, the link weight otherwise |
| `Routing.NormaliseIsDistribution` | flee.py:151-157 | normalised weights are non-negative and sum to 1: weight over sum when the sum is positive, `1/n` each otherwise |
| `Routing.NormaliseByPositiveSum` | flee.py:154-155 | with a positive sum every weight is divided by it and the result is a distribution |
| `Routing.NormaliseUniform` | flee.py:156-157 | with an all-zero weight list every link gets `1/n`, full endpoints included |
| `Routing.RouteWithoutLinks` | flee.py:151-152 | a location without links gives no route, and nothing is drawn |
| `Routing.RouteForced` | flee.py:125-140 | the first forced link with room is taken whatever the other weights, and nothing is drawn; a forced link with a full endpoint is passed over |
| `Routing.RouteChosen` | flee.py:151-162 | with links and no forcing, numpy is drawn from; with a positive weight sum the chosen link has positive weight and a non-full endpoint |
| `Routing.SelectRoute` | flee.py:120-162 | the in-place weight array, early return and normalisation compute exactly `RouteChoice` |
| `Agents.NewPerson` | flee.py:24-46 | a new agent stands at its location and has spent no ticks since departure |
| `Agents.CountToLink` | flee.py:60-62 | departure from location `l` onto its link `j` changes only counters, never the graph (its counter changes are `CountToLinkLoads`) |
| `Agents.CountToEndpoint` | flee.py:91-100 | arrival from link `j` at its endpoint, with the journey length logged at a camp, changes only counters and logs, never the graph (its counter changes are `CountToEndpointLoads`) |
| `Agents.CountToLinkLoads` | flee.py:60-62 | departure decrements the location's counter and increments the chosen link's; every other counter is unchanged |
| `Agents.CountToEndpointLoads` | flee.py:91-93 | arrival decrements the link's counter and increments the endpoint's; every other counter is unchanged |
| `Agents.CountToLinkTotal` | flee.py:60-62 | departure keeps the sum of all counters |
| `Agents.CountToEndpointTotal` | flee.py:91-100 | arrival keeps the sum of all counters |
| `Agents.EvolveAgent` | flee.py:48-66 | every agent ages one tick and no other agent changes; a travelling agent draws nothing; an agent at a location consumes one Python draw, and one numpy draw exactly when it tries to leave and the route is drawn; it leaves iff the draw is below its movechance and it has a link, and then stands at progress 0 on the link `RouteChoice` picks, with its count moved from the location to that link and its record otherwise only aged; an agent that stays keeps its place, its logs and the graph, and only ages |
| `Agents.ForcedDeparture` | flee.py:53-64 | an agent that decides to leave takes the first forcing link, and numpy is not drawn from |
| `Agents.DrawnDeparture` | flee.py:53-64 | without a forcing link, a departing agent takes the link numpy draws, consuming one draw; with a positive weight sum that link has positive weight and an endpoint with room |
| `Agents.EvolveAgentKeepsCounts` | flee.py:55-64 | a departure decision keeps every counter equal to the agents at its place |
| `Agents.Arrive` | flee.py:79-82 | with agent logging one more place and the link's distance are recorded; without it the agent is unchanged |
| `Agents.CompleteHop` | flee.py:79-100 | the agent stands at the link's endpoint with its travel logs updated by `Arrive`, the counters become `CountToEndpoint` (moved from the link to the endpoint, and logged there when it is a camp), and no other agent changes |
| `Agents.Advance` | flee.py:76 | the agent moves MaxMoveSpeed km further along its link and nothing else changes |
| `Agents.ArrivalKeepsCounts` | flee.py:90-100 | reaching the endpoint keeps every counter equal to the agents at its place |
| `Agents.HopBudgetDecreases` | flee.py:84-88 | a chained hop of at least `eps` km strictly reduces the number of hops left before MinMoveSpeed is covered |
| `Agents.TravelStep` | flee.py:69-106 | one pass changes only the given agent and never lowers its age; it continues only after a completed hop that leaves the distance moved this tick below MinMoveSpeed, with the hop's length added |
| `Agents.TravelStepCases` | flee.py:69-106 | the unfolding of `TravelStep`'s definition into its four cases: at a location nothing happens; a hop not completed advances; a hop completed with MinMoveSpeed covered stops at the endpoint; a short completed hop decides again and continues |
| `Agents.TravelStepKeepsCounts` | flee.py:69-106 | one pass keeps every counter equal to the agents at its place |
| `Agents.FinishTravel` | flee.py:69-106 | chained passes terminate, change only the given agent and never lower its age |
| `Agents.FinishTravelKeepsCounts` | flee.py:69-106 | the whole of `finish_travel` keeps every counter equal to the agents at its place |
| `Timestep.DecisionPass` | flee.py:394-395 | every agent from `i` on ages exactly one tick, earlier agents are untouched, and the graph changes only in its counters |
| `Timestep.CompletionPass` | flee.py:397-398 | agents before `i` are untouched, no agent's age goes down, and the graph changes only in its counters |
| `Timestep.DecisionPassKeepsCounts` | flee.py:394-395 | the decision pass keeps every counter right |
| `Timestep.CompletionPassKeepsCounts` | flee.py:397-398 | the completion pass keeps every counter right |
| `Timestep.Scored` | flee.py:383-391 | the scored world holds the cascaded locations and the same agents, and stays well formed |
| `Timestep.ScoredKeepsCounts` | flee.py:383-391 | the cascade keeps every counter right |
| `Timestep.Step` | flee.py:382-398 | a tick keeps the number of agents and the graph (the scores aside), and every agent ages at least one tick |
| `Timestep.StepKeepsCounts` | flee.py:382-398 | through a whole tick every counter equals the agents at its place and the counters sum to the number of agents: no agent is created or lost |
| `Timestep.Mean` | flee.py:294-297 | the mean times the number of arrivals is their total journey length; it is 0.0 without arrivals, and never negative |
| `Timestep.ClearLog` | flee.py:287-290 | a camp's journey log is emptied; name, links and counter stay |
| `Timestep.NoArrivalsNoTotal` | flee.py:283-297 | without camp arrivals the summed journey length is 0 |
| `Timestep.NoArrivalsLogged` | flee.py:283-292 | the arrival count is 0 exactly when every camp's journey log is empty |
| `Timestep.MeanJourney` | flee.py:294-297 | the mean times the number of logged arrivals is their summed journey length, and it is 0.0 when nothing arrived |
| `Timestep.ClearedLogsCountNothing` | flee.py:290 | after aggregation no camp arrival is left to count |
| `Timestep.ClearedLogsKeepValid` | flee.py:286-290 | clearing the logs keeps the graph and every counter |
| `Building.LastIndexOf` | flee.py:427-433 | the index of the last entry with the name, with no match after it; `None` iff the name is absent |
| `Building.FirstIndexOf` | flee.py:325-327 | the index of the first entry with the name, with no match before it; `None` iff the name is absent |
| `Building.AddLocationKeepsValid` | flee.py:405-411 | appending a location with no links and no agents keeps every counter right |
| `Building.WithLink` | flee.py:444-445 | the location gets the link appended and every other location is unchanged |
| `Building.Linked` | flee.py:444-445 | linking keeps every location's name |
| `Building.LinkedLinks` | flee.py:444-445 | the forward link carries the forced flag and the backward link never does; no other location changes (a self-link appends both, in order) |
| `Building.AddLinkKeepsValid` | flee.py:444-445 | an empty link of positive length keeps every counter right |
| `Building.LinkedKeepsValid` | flee.py:444-445 | both links of `linkUp` keep every counter right |
| `Building.WithNewAgent` | flee.py:414-418 | the counter grows by one; the population drops by one only under TakeRefugeesFromPopulation with a positive population; nothing else changes |
| `Building.AddAgentKeepsValid` | flee.py:414-418 | adding the agent and its count keeps every counter right |
| `Building.Conflicted` | flee.py:328-330 | movechance becomes 1.0 and the conflict flag is set; nothing else changes |
| `Building.ConflictedKeepsValid` | flee.py:328-330 | marking a conflict zone keeps every counter right |
| `Building.ZonePops` | flee.py:377-378 | the weight of zone `k` is its location's current population |
| `Building.PickZone` | flee.py:364-369 | no pick (numpy raises) exactly when there are no zones, the total is 0, or a probability is negative |
| `Building.ProbabilitiesSumToOne` | flee.py:369 | weights divided by their sum add up to one |
| `Building.PickZoneDistribution` | flee.py:364-369 | every pick is a registered zone with positive probability, drawn exactly when `u` falls in its slice, whose width is its share of the total weight |
| `Flee.StepKeepsNames` | flee.py:382-398 | a tick renames no location |
| `Flee.TickKeepsConsistent` | flee.py:382-398 | a tick keeps counters, names and the conflict registry consistent |
| `Flee.ClearingKeepsConsistent` | flee.py:286-290 | clearing camp logs keeps the ecosystem consistent |
| `Flee.AddLocationKeepsConsistent` | flee.py:405-411 | appending a location and its name keeps the ecosystem consistent |
| `Flee.AddAgentKeepsConsistent` | flee.py:414-418 | adding an agent keeps the ecosystem consistent |
| `Flee.LinkedKeepsConsistent` | flee.py:444-445 | linking two locations keeps the ecosystem consistent |
| `Flee.Registered` | flee.py:331-334 | registration appends the zone, its name and its population as weight |
| `Flee.RegisterKeepsConsistent` | flee.py:327-334 | registering an unregistered location keeps the ecosystem consistent and adds its population to the total |
| `Flee.RefreshKeepsConsistent` | flee.py:377-379 | refreshed weights with their sum keep the ecosystem consistent |
| `Flee.Tally` | flee.py:283-292 | the loop empties every camp's log and returns the number of logged arrivals and their total journey length, that is `ArrivalCount` and `ArrivalTotal` of the logs |
| `Flee.FindEndpoints` | flee.py:427-433 | the scan finds the last index of each name, `-1` for a missing one |
| `Flee.FindUnregistered` | flee.py:325-338 | the scan finds the first index with the name, or `-1` when there is none or the name is already a zone |
| `Flee.Ecosystem.constructor` | flee.py:262-276 | every list is empty, the total conflict population is 0 and the clock is 0 |
| `Flee.Ecosystem.UpdateScores` | flee.py:383-391 | the three in-place passes give the cascade of the old locations |
| `Flee.Ecosystem.UpdateLocationScores` | flee.py:384-385 | every location's score becomes `LocationScoreOf` |
| `Flee.Ecosystem.UpdateNeighbourhoodScores` | flee.py:387-388 | the in-place pass equals the pass over the locations as they were before it |
| `Flee.Ecosystem.UpdateRegionScores` | flee.py:390-391 | the in-place pass equals the pass over the locations as they were before it |
| `Flee.Ecosystem.Evolve` | flee.py:382-403 | the new agents, locations and unread draws are those of `Step`; with camp logging the logs are cleared and the arrival count and mean journey appended; the clock advances by one; the ecosystem stays consistent |
| `Flee.Ecosystem.CloseTick` | flee.py:400-403 | the statistics when logged, the clock advanced by one, agents untouched |
| `Flee.Ecosystem.MoveAgents` | flee.py:383-398 | the cascade and both agent passes give `Step`, and consistency is kept |
| `Flee.Ecosystem.RunPasses` | flee.py:383-398 | the in-place passes give `Step` |
| `Flee.Ecosystem.DecideDepartures` | flee.py:394-395 | the loop over agents gives `DecisionPass` |
| `Flee.Ecosystem.CompleteTravel` | flee.py:397-398 | the loop over agents gives `CompletionPass` |
| `Flee.Ecosystem.AggregateArrivals` | flee.py:278-299 | with camp logging the logs are cleared and the arrival count and mean journey appended; otherwise nothing changes; consistency is kept |
| `Flee.Ecosystem.AddLocation` | flee.py:405-411 | the new location and its name are appended at the returned index, and consistency is kept |
| `Flee.Ecosystem.AddAgent` | flee.py:414-418 | the agent is appended at the location, whose counter and population follow, and consistency is kept |
| `Flee.Ecosystem.NumAgents` | flee.py:420-421 | the number of agents, which on a consistent ecosystem equals the sum of all counters |
| `Flee.Ecosystem.LinkUp` | flee.py:424-445 | succeeds iff both names exist; it then links the last locations with those names both ways; on failure nothing changes; consistency is kept |
| `Flee.Ecosystem.AddConflictZone` | flee.py:321-341 | an existing, unregistered name registers its first location, weighted by population and added to the total; with `change_movechance` that location is conflicted; otherwise nothing changes |
| `Flee.Ecosystem.Register` | flee.py:327-334 | the registry grows by the zone, and the location is conflicted when asked |
| `Flee.Ecosystem.RefreshConflictWeights` | flee.py:372-379 | every weight becomes its zone's current population, and consistency is kept |
| `Flee.Ecosystem.PickConflictLocation` | flee.py:364-369 | no pick exactly where numpy raises; otherwise a registered zone that is an existing location; the pick is `PickZone` over the registry, so `PickZoneDistribution` gives each zone its weight's share |

## Left out

- Object identity and aliasing. Locations, links and agents are values in
  the ecosystem's lists, referred to by index. A `Location` object the caller
  holds is here its index, and a conflict zone is the index of its location.
- `x`, `y`, `health`, `injured`, `age` and `home_location`. These fields are
  set but never read by the core.
- `printInfo`, the `__main__` driver, every `print` and `InitLogLevel`: they
  are output only.
- The random generators. Each is a stream of draws supplied from outside.
  `np.random.choice` is modelled as a search for the first index whose
  cumulative probability exceeds the draw, which is how numpy samples.
  Its tolerance check on the probability sum is not modelled.
- `remove_link`. As written it always fails: its last line assigns through
  the undefined attribute `self.location` (flee.py:318).
- `remove_conflict_zone`. Its loop reads the undefined global
  `conflict_zones` (flee.py:354), so it raises `NameError` once any zone is
  registered. With no zone registered the loop does not run, and the method
  only resets the zone list, the weights and the total to empty and 0
  (flee.py:359-361); `conflict_zone_names` is not touched. Neither path is
  modelled.
- `Settings.Valid`: every operation assumes `Softening >= 0`, `CampWeight >= 0`,
  `ConflictWeight >= 0` and, when `UseDynamicAwareness` is off,
  `0 <= AwarenessLevel <= 3`. flee.py never checks these. With dynamic
  awareness the configured level is never read (flee.py:138-149), so any
  value is accepted there. Outside these bounds the source fails or reads
  other data, and these paths are not modelled:
  - A negative weight makes `np.random.choice` raise `ValueError` when the
    weights sum to more than 0, since a probability is then negative.
  - When the weights sum to 0 or less, the fallback adds `1/n` to each
    weight (flee.py:156-157). numpy then accepts them only when the original
    sum was exactly 0 and no weight is below `-1/n`; otherwise it raises
    `ValueError`.
  - A negative `Softening` can make a softened distance 0. The score is a
    numpy array entry (flee.py:118, 185), so the division gives `inf`, or
    `nan` for a zero score, with a warning rather than an exception.
    Normalising then leaves a `nan` probability, and `np.random.choice`
    raises `ValueError`.
  - Without dynamic awareness, an `AwarenessLevel` of 4 or more raises
    `IndexError`. One from -1 to -4 reads the score vector from its end.
- Floating point. Scores, distances and weights are reals, so rounding is
  not modelled.
- Default argument values, including the string defaults of `addLocation`
  and `linkUp`. Every argument is explicit and `distance` is a real.
- `Flee.Ecosystem.LinkUp`: it requires `distance > 0`, and the source never
  checks this. These lengths are not modelled:
  - A zero length raises `ZeroDivisionError` in the score cascade once the
    link leaves a location that is not a camp (flee.py:222, 239).
  - A negative length gives a negative route weight when it outweighs the
    softening (flee.py:118). `np.random.choice` then raises `ValueError`, as
    for the negative weights under `Settings.Valid`.
  - A negative length also breaks the chaining test of `finish_travel`
    (flee.py:86-88). The distance moved shrinks, so the test keeps holding.
    An agent on a cycle of such links through locations with movechance 1
    hops again and again until Python raises `RecursionError`.
- `Flee.Ecosystem.LinkUp`: `sys.exit` on an unknown name is a `false` result
  that leaves the ecosystem unchanged.
- `num_arrivals`, `travel_durations` and `incoming_journey_lengths`. They
  always exist here; in the source they are created only when CampLogLevel
  is positive.
- `Agents.FinishTravel`: its termination measure assumes a lower bound on
  link lengths, the shortest link of the graph. This always exists because
  every link has positive length.
- `Flee.Ecosystem.PickConflictLocation`: it returns the index of the chosen
  location rather than the location object.
