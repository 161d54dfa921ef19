/** The simulation's configuration (`SimulationSettings` in flee.py). In the
    source these are class attributes read as process-wide globals; here they are
    one immutable record handed to the ecosystem when it is created. */
module Settings {

  datatype SimulationSettings = SimulationSettings(
    softening: real,                  // added to every link distance when weighting routes
    agentLogLevel: int,               // > 0: agents count places and distance travelled
    campLogLevel: int,                // > 0: camps record journey lengths, ticks aggregate them
    takeRefugeesFromPopulation: bool, // addAgent draws one person from the location's pop
    campWeight: real,                 // score of a foreign location
    conflictWeight: real,             // score of a conflict zone
    minMoveSpeed: real,               // km: below this an agent may hop again in the same tick
    maxMoveSpeed: real,               // km added to link progress each tick
    capacityBuffer: real,             // multiplier on a location's capacity
    awarenessLevel: int,              // index into a location's score vector (0..3) unless dynamic
    useDynamicAwareness: bool)        // pick the score level from the time since departure
  {
    /** What the source relies on without checking: route weights are
        `score / (Softening + distance)` and must be non-negative for numpy's
        categorical choice, and the fixed awareness level indexes a 4-entry
        vector. With dynamic awareness the fixed level is never read. */
    predicate Valid()
    {
      && softening >= 0.0
      && campWeight >= 0.0
      && conflictWeight >= 0.0
      && (useDynamicAwareness || 0 <= awarenessLevel <= 3)
    }
  }

  /** The values flee.py:6-21 ships with. */
  const Defaults := SimulationSettings(
    softening := 0.0,
    agentLogLevel := 0,
    campLogLevel := 0,
    takeRefugeesFromPopulation := true,
    campWeight := 2.0,
    conflictWeight := 0.25,
    minMoveSpeed := 25.0,
    maxMoveSpeed := 250.0,
    capacityBuffer := 1.0,
    awarenessLevel := 1,
    useDynamicAwareness := false)
}
