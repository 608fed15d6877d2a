/** generateConditionalEvents of data-generator/random-event-generators.js:
    fuel checkpoints with refuelling, driver breaks, and periodic vehicle telemetry. */
module Conditional {
  import opened Draws
  import opened Events
  import opened Geometry
  import opened Numeric

  /** The draws of the refuelling stops and of the breaks. A refuel at checkpoint sample i
      uses entries 2i (how far ahead the station is) and 2i + 1 (duration) of its stream;
      break i uses entries 1 + 2i (sample) and 2 + 2i (duration) after the count. */
  datatype ConditionalDraws = ConditionalDraws(refuel: Stream, breaks: Stream) {
    ghost predicate Valid() {
      IsStream(refuel) && IsStream(breaks)
    }
  }

  /** Litres per kilometre. */
  const FuelConsumptionRate: real := 0.12
  /** Litres. */
  const TankCapacity: real := 80.0
  const StartFuelLevel: real := 95.0
  const MinFuelLevel: real := 5.0
  const LowFuelThreshold: real := 25.0
  const RefuelThreshold: real := 15.0
  const RefuelTarget: real := 90.0

  // ---------------------------------------------------------------------------
  // Checkpoint spacing: the source's step and the corrected one.

  /** Math.floor(n / 8): the fuel checkpoint spacing as the source computes it, the
      largest k with 8 k samples within the route. */
  function FuelCheckInterval(n: nat): (k: nat)
    ensures 8 * k <= n < 8 * k + 8
  {
    n / 8
  }

  /** Math.floor(n / 12): the telemetry spacing as the source computes it. */
  function TelemetryInterval(n: nat): (k: nat)
    ensures 12 * k <= n < 12 * k + 12
  {
    n / 12
  }

  /** The loop index after k passes of a loop that starts at `start` and adds `step`: it
      stays at `start` when the step is 0, and otherwise has moved on by at least k. */
  function IndexAfter(start: nat, step: nat, k: nat): (j: nat)
    ensures step == 0 ==> j == start
    ensures 0 < step ==> start + k <= j
  {
    var j := start + k * step;
    if 0 < step then
      MulIntLe(1, step, k);
      j
    else
      j
  }

  /** On a route of fewer than 8 samples the fuel loop starts at 0, adds 0, and so never
      leaves its range: the source does not terminate. */
  lemma FuelLoopNeverEnds(n: nat)
    requires 0 < n < 8
    ensures FuelCheckInterval(n) == 0
    ensures forall k: nat :: IndexAfter(FuelCheckInterval(n), FuelCheckInterval(n), k) < n
  {
  }

  /** The same for the telemetry loop on fewer than 12 samples. */
  lemma TelemetryLoopNeverEnds(n: nat)
    requires 0 < n < 12
    ensures TelemetryInterval(n) == 0
    ensures forall k: nat :: IndexAfter(TelemetryInterval(n), TelemetryInterval(n), k) < n
  {
  }

  /** The corrected spacing: n / parts, but at least one sample. */
  function CheckpointStep(n: nat, parts: nat): (step: nat)
    requires 0 < parts
    ensures 0 < step
  {
    if n / parts == 0 then 1 else n / parts
  }

  /** Wherever the source terminates, the corrected spacing is the source's spacing. */
  lemma CorrectedStepAgrees(n: nat)
    ensures n >= 8 ==> CheckpointStep(n, 8) == FuelCheckInterval(n)
    ensures n >= 12 ==> CheckpointStep(n, 12) == TelemetryInterval(n)
    ensures n < 8 ==> CheckpointStep(n, 8) == 1
    ensures n < 12 ==> CheckpointStep(n, 12) == 1
  {
  }

  /** How many checkpoints a loop from i in steps of `step` visits below n. */
  function Checkpoints(n: nat, step: nat, i: nat): nat
    requires 0 < step
    decreases n - i
  {
    if i >= n then 0 else 1 + Checkpoints(n, step, i + step)
  }

  /** With a step of one sample the loop visits every sample from i on. */
  lemma {:induction false} UnitStepVisitsAll(n: nat, i: nat)
    requires i <= n
    ensures Checkpoints(n, 1, i) == n - i
    decreases n - i
  {
    if i < n {
      UnitStepVisitsAll(n, i + 1);
    }
  }

  /** On a short route the corrected loops end, after a checkpoint at every sample but the
      first. */
  lemma ShortRouteCheckpoints(n: nat)
    requires 0 < n < 8
    ensures Checkpoints(n, CheckpointStep(n, 8), CheckpointStep(n, 8)) == n - 1
    ensures Checkpoints(n, CheckpointStep(n, 12), CheckpointStep(n, 12)) == n - 1
  {
    UnitStepVisitsAll(n, 1);
  }

  // ---------------------------------------------------------------------------
  // Fuel.

  /** The fuel level at checkpoint sample i: the fuel burnt over the share i / n of the
      route, taken from the 95% start, never below 5%. */
  function CheckpointLevel(n: nat, totalDistance: real, i: nat): (level: real)
    requires 0 < n
    ensures MinFuelLevel <= level
  {
    var distanceTraveled := (i as real / n as real) * totalDistance;
    var fuelConsumed := distanceTraveled * FuelConsumptionRate;
    MaxReal(MinFuelLevel, StartFuelLevel - (fuelConsumed / TankCapacity) * 100.0)
  }

  /** Along a route of non-negative length, the level never rises from one checkpoint to a
      later one, and never exceeds the starting level. */
  lemma {:induction false} LevelFallsAlongRoute(n: nat, totalDistance: real, i: nat, j: nat)
    requires 0 < n && 0.0 <= totalDistance && i <= j
    ensures CheckpointLevel(n, totalDistance, j) <= CheckpointLevel(n, totalDistance, i) <= StartFuelLevel
  {
    DivLe(i as real, j as real, n as real);
    DivLe(0.0, i as real, n as real);
    MulLeNonNeg(i as real / n as real, j as real / n as real, totalDistance);
    MulLeNonNeg(0.0, i as real / n as real, totalDistance);
  }

  /** The events of checkpoint i at level `level`, and the level it leaves behind. Below 25%
      a low-fuel warning; below 15% also a refuel at a station up to 99 samples ahead,
      lasting 10 to 18 minutes, that brings the tank to 90%. */
  function FuelCheckpoint(n: nat, interval: nat, rs: Stream, i: nat, level: real): (r: (seq<Event>, real))
    requires i < n && IsStream(rs)
    ensures |r.0| == 0 <==> level >= LowFuelThreshold
    ensures |r.0| == 3 <==> level < RefuelThreshold
    ensures |r.0| <= 3 && |r.0| != 2
    ensures |r.0| < 3 ==> r.1 == level
    ensures |r.0| == 3 ==> r.1 == RefuelTarget
  {
    if level < LowFuelThreshold then
      var low := Event(SampleOffset(i, interval), i, FuelLevelLow(level));
      if level < RefuelThreshold then
        var refuelIndex := Min(n - 1, i + Uniform(rs(2 * i), 100));
        var refuelStartTime := SampleOffset(refuelIndex, interval);
        var refuelDuration := 10.0 + rs(2 * i + 1) * 8.0;
        var refuelEndTime := refuelStartTime + refuelDuration * 60.0;
        var fuelAdded := (RefuelTarget - level) / 100.0 * TankCapacity;
        ([low,
          Event(refuelStartTime, refuelIndex, RefuelingStarted(level)),
          Event(refuelEndTime, refuelIndex,
                RefuelingCompleted(refuelDuration, RefuelTarget - fuelAdded / TankCapacity * 100.0, RefuelTarget))],
         RefuelTarget)
      else
        ([low], level)
    else
      ([], level)
  }

  /** What a checkpoint emits: the warning at the checkpoint itself; for a refuel, the start
      on a sample at most 99 ahead and the completion at the same sample 10 to 18 minutes
      later, reporting the checkpoint level before and 90% after; every event on the route. */
  lemma FuelCheckpointShape(n: nat, interval: nat, rs: Stream, i: nat, level: real)
    requires i < n && IsStream(rs)
    ensures var r := FuelCheckpoint(n, interval, rs, i, level);
            (|r.0| > 0 ==> r.0[0] == Event(SampleOffset(i, interval), i, FuelLevelLow(level))) &&
            (|r.0| == 3 ==>
               r.0[1].payload == RefuelingStarted(level) && r.0[2].payload.RefuelingCompleted? &&
               i <= r.0[1].at < n && r.0[1].at <= i + 99 && r.0[2].at == r.0[1].at &&
               r.0[1].offset == SampleOffset(r.0[1].at, interval) &&
               10.0 <= r.0[2].payload.refuelMinutes < 18.0 &&
               r.0[2].offset == r.0[1].offset + r.0[2].payload.refuelMinutes * 60.0 &&
               r.0[2].payload.levelBeforePercent == level &&
               r.0[2].payload.levelAfterPercent == RefuelTarget)
  {
  }

  predicate IsFuel(p: Payload) {
    p.FuelLevelLow? || p.RefuelingStarted? || p.RefuelingCompleted?
  }

  /** The fuel loop from checkpoint i on, entered at level `level`: its events and the
      level it ends at. */
  function FuelFrom(n: nat, totalDistance: real, interval: nat, rs: Stream, step: nat, i: nat, level: real)
    : (r: (seq<Event>, real))
    requires 0 < n && 0 < step && IsStream(rs)
    ensures |r.0| <= 3 * Checkpoints(n, step, i)
    decreases n - i
  {
    if i >= n then ([], level)
    else
      var c := FuelCheckpoint(n, interval, rs, i, CheckpointLevel(n, totalDistance, i));
      var rest := FuelFrom(n, totalDistance, interval, rs, step, i + step, c.1);
      (c.0 + rest.0, rest.1)
  }

  /** Every event of one checkpoint sits on a route sample and is a fuel event. */
  lemma CheckpointKinds(n: nat, interval: nat, rs: Stream, i: nat, level: real)
    requires i < n && IsStream(rs)
    ensures forall e <- FuelCheckpoint(n, interval, rs, i, level).0 :: e.at < n && IsFuel(e.payload)
  {
    FuelCheckpointShape(n, interval, rs, i, level);
  }

  /** Every fuel event sits on a route sample and is a warning or a refuel event. */
  lemma {:induction false} FuelFromKinds(n: nat, totalDistance: real, interval: nat, rs: Stream, step: nat,
                                         i: nat, level: real)
    requires 0 < n && 0 < step && IsStream(rs)
    ensures forall e <- FuelFrom(n, totalDistance, interval, rs, step, i, level).0 :: e.at < n && IsFuel(e.payload)
    decreases n - i
  {
    if i < n {
      var c := FuelCheckpoint(n, interval, rs, i, CheckpointLevel(n, totalDistance, i));
      var rest := FuelFrom(n, totalDistance, interval, rs, step, i + step, c.1);
      assert FuelFrom(n, totalDistance, interval, rs, step, i, level).0 == c.0 + rest.0;
      FuelFromKinds(n, totalDistance, interval, rs, step, i + step, c.1);
      CheckpointKinds(n, interval, rs, i, CheckpointLevel(n, totalDistance, i));
    }
  }

  /** The refuel to 90% does not carry over: every checkpoint recomputes its level from the
      start, so once one checkpoint needs a refuel every later one warns and refuels again. */
  lemma {:induction false} RefuelRepeats(n: nat, totalDistance: real, interval: nat, rs: Stream, step: nat,
                                         i: nat, j: nat, level: real)
    requires 0 < n && 0 < step && IsStream(rs) && 0.0 <= totalDistance
    requires i <= j && CheckpointLevel(n, totalDistance, i) < RefuelThreshold
    ensures |FuelFrom(n, totalDistance, interval, rs, step, j, level).0| == 3 * Checkpoints(n, step, j)
    decreases n - j
  {
    if j < n {
      LevelFallsAlongRoute(n, totalDistance, i, j);
      var c := FuelCheckpoint(n, interval, rs, j, CheckpointLevel(n, totalDistance, j));
      RefuelRepeats(n, totalDistance, interval, rs, step, i, j + step, c.1);
    }
  }

  /** The last checkpoint a loop from i in steps of `step` visits below n. */
  function LastCheckpoint(n: nat, step: nat, i: nat): (k: nat)
    requires 0 < step && i < n
    ensures i <= k < n && n <= k + step
    decreases n - i
  {
    if i + step >= n then i else LastCheckpoint(n, step, i + step)
  }

  /** The level the fuel loop ends at, which every telemetry record reports: the level it
      was entered at when there is no checkpoint; otherwise 90 if the last checkpoint
      refuels, and that checkpoint's recomputed level if not. */
  lemma {:induction false} FinalLevel(n: nat, totalDistance: real, interval: nat, rs: Stream, step: nat,
                                      i: nat, level: real)
    requires 0 < n && 0 < step && IsStream(rs)
    ensures var final := FuelFrom(n, totalDistance, interval, rs, step, i, level).1;
            (i >= n ==> final == level) &&
            (i < n ==> var last := CheckpointLevel(n, totalDistance, LastCheckpoint(n, step, i));
                       final == if last < RefuelThreshold then RefuelTarget else last)
    decreases n - i
  {
    if i < n {
      var c := FuelCheckpoint(n, interval, rs, i, CheckpointLevel(n, totalDistance, i));
      FinalLevel(n, totalDistance, interval, rs, step, i + step, c.1);
    }
  }

  /** The level the loop ends at, which the telemetry reports, stays within [5, 95] on a
      route of non-negative length. */
  lemma {:induction false} FinalLevelBounds(n: nat, totalDistance: real, interval: nat, rs: Stream, step: nat,
                                            i: nat, level: real)
    requires 0 < n && 0 < step && IsStream(rs) && 0.0 <= totalDistance
    requires MinFuelLevel <= level <= StartFuelLevel
    ensures MinFuelLevel <= FuelFrom(n, totalDistance, interval, rs, step, i, level).1 <= StartFuelLevel
    decreases n - i
  {
    if i < n {
      LevelFallsAlongRoute(n, totalDistance, 0, i);
      var c := FuelCheckpoint(n, interval, rs, i, CheckpointLevel(n, totalDistance, i));
      FinalLevelBounds(n, totalDistance, interval, rs, step, i + step, c.1);
    }
  }

  /** All fuel events, with the corrected spacing, and the final level. */
  function FuelEvents(n: nat, totalDistance: real, interval: nat, rs: Stream): (seq<Event>, real)
    requires 0 < n && IsStream(rs)
  {
    var step := CheckpointStep(n, 8);
    FuelFrom(n, totalDistance, interval, rs, step, step, StartFuelLevel)
  }

  // ---------------------------------------------------------------------------
  // Driver breaks.

  /** 2 to 4 breaks. */
  function BreakCount(rs: Stream): (c: nat)
    requires IsStream(rs)
    ensures 2 <= c <= 4
  {
    Count(2, 3, rs(0))
  }

  /** Break i: paused at a random sample, resumed 15 to 45 minutes later at the same place. */
  function BreakAt(n: nat, d: seq<real>, interval: nat, rs: Stream, i: nat): (p: seq<Event>)
    requires 0 < n <= |d| && IsStream(rs)
    ensures |p| == 2 && p[0].payload.TripPaused? && p[1].payload.TripResumed?
    ensures p[0].at < n && p[1].at == p[0].at
    ensures p[0].offset == SampleOffset(p[0].at, interval)
    ensures p[0].payload.distanceKm == d[p[0].at]
    ensures p[0].payload.elapsedMinutes * 60.0 == p[0].offset
    ensures 15.0 <= p[1].payload.pauseMinutes < 45.0
    ensures p[1].offset == p[0].offset + p[1].payload.pauseMinutes * 60.0
  {
    var randomIndex := Uniform(rs(1 + 2 * i), n);
    var pauseTime := SampleOffset(randomIndex, interval);
    var breakDuration := 15.0 + rs(2 + 2 * i) * 30.0;
    [Event(pauseTime, randomIndex, TripPaused(d[randomIndex], ElapsedMinutes(randomIndex, interval))),
     Event(pauseTime + breakDuration * 60.0, randomIndex, TripResumed(breakDuration))]
  }

  /** The breaks, flattened: paused, resumed, paused, resumed, ... */
  function BreakEvents(n: nat, d: seq<real>, interval: nat, rs: Stream): (events: seq<Event>)
    requires 0 < n <= |d| && IsStream(rs)
    ensures forall j :: 0 <= j < |events| ==> events[j].at < n && (events[j].payload.TripPaused? || events[j].payload.TripResumed?)
  {
    assert forall j :: 0 <= j < 2 * BreakCount(rs) ==> j % 2 == 0 || j % 2 == 1;
    seq(2 * BreakCount(rs), (j: int) requires 0 <= j => BreakAt(n, d, interval, rs, j / 2)[j % 2])
  }

  // ---------------------------------------------------------------------------
  // Telemetry.

  /** The telemetry loop from sample i on: one record per checkpoint, reporting the
      distance covered there and the given fuel level. */
  function TelemetryFrom(n: nat, d: seq<real>, interval: nat, step: nat, i: nat, level: real)
    : (events: seq<Event>)
    requires 0 < step && n <= |d|
    ensures |events| == Checkpoints(n, step, i)
    decreases n - i
  {
    if i >= n then []
    else [Event(SampleOffset(i, interval), i, VehicleTelemetry(d[i], level))] +
         TelemetryFrom(n, d, interval, step, i + step, level)
  }

  /** Each record sits on a checkpoint sample at or after i and reports the distance
      covered there and the given level. */
  lemma {:induction false} TelemetryFromShape(n: nat, d: seq<real>, interval: nat, step: nat, i: nat, level: real)
    requires 0 < step && n <= |d|
    ensures forall e <- TelemetryFrom(n, d, interval, step, i, level) ::
              i <= e.at < n && e.offset == SampleOffset(e.at, interval) && e.payload == VehicleTelemetry(d[e.at], level)
    decreases n - i
  {
    if i < n {
      TelemetryFromShape(n, d, interval, step, i + step, level);
    }
  }

  /** All telemetry records, with the corrected spacing. */
  function TelemetryEvents(n: nat, d: seq<real>, interval: nat, level: real): seq<Event>
    requires 0 < n <= |d|
  {
    var step := CheckpointStep(n, 12);
    TelemetryFrom(n, d, interval, step, step, level)
  }

  // ---------------------------------------------------------------------------
  // The whole generator.

  predicate IsConditional(p: Payload) {
    IsFuel(p) || p.TripPaused? || p.TripResumed? || p.VehicleTelemetry?
  }

  /** Fuel events, then breaks, then telemetry reporting the level the fuel loop ended at. */
  function ConditionalEvents(coords: seq<Coord>, dist: Distance, interval: nat, draws: ConditionalDraws)
    : seq<Event>
    requires 0 < |coords| && draws.Valid()
  {
    var n := |coords|;
    var d := Cumulative(coords, dist);
    var fuel := FuelEvents(n, Last(d), interval, draws.refuel);
    fuel.0 + BreakEvents(n, d, interval, draws.breaks) + TelemetryEvents(n, d, interval, fuel.1)
  }

  /** Every conditional event sits on a route sample and is one of the family's kinds. */
  lemma ConditionalEventsShape(coords: seq<Coord>, dist: Distance, interval: nat, draws: ConditionalDraws)
    requires 0 < |coords| && draws.Valid()
    ensures forall e <- ConditionalEvents(coords, dist, interval, draws) :: e.at < |coords| && IsConditional(e.payload)
  {
    var n := |coords|;
    var d := Cumulative(coords, dist);
    var fuel := FuelEvents(n, Last(d), interval, draws.refuel);
    var breaks := BreakEvents(n, d, interval, draws.breaks);
    var telemetry := TelemetryEvents(n, d, interval, fuel.1);
    var events := ConditionalEvents(coords, dist, interval, draws);
    assert events == fuel.0 + breaks + telemetry;
    var step := CheckpointStep(n, 8);
    FuelFromKinds(n, Last(d), interval, draws.refuel, step, step, StartFuelLevel);
    var tstep := CheckpointStep(n, 12);
    TelemetryFromShape(n, d, interval, tstep, tstep, fuel.1);
    forall e | e in events
      ensures e.at < n && IsConditional(e.payload)
    {
      if e in breaks {
        var j :| 0 <= j < |breaks| && breaks[j] == e;
      }
    }
  }

  /** One pass of the fuel loop: the level at sample i and what it triggers. */
  method FuelCheckpointStep(n: nat, totalDistance: real, timeInterval: nat, rs: Stream, i: nat)
    returns (out: seq<Event>, currentFuelLevel: real)
    requires i < n && IsStream(rs)
    ensures (out, currentFuelLevel) == FuelCheckpoint(n, timeInterval, rs, i, CheckpointLevel(n, totalDistance, i))
  {
    var distanceTraveled := (i as real / n as real) * totalDistance;
    var fuelConsumed := distanceTraveled * FuelConsumptionRate;
    currentFuelLevel := MaxReal(MinFuelLevel, StartFuelLevel - (fuelConsumed / TankCapacity) * 100.0);
    assert currentFuelLevel == CheckpointLevel(n, totalDistance, i);
    ghost var expected := FuelCheckpoint(n, timeInterval, rs, i, currentFuelLevel);
    out := [];
    if currentFuelLevel < LowFuelThreshold {
      out := [Event(SampleOffset(i, timeInterval), i, FuelLevelLow(currentFuelLevel))];
      if currentFuelLevel < RefuelThreshold {
        var refuelIndex := Min(n - 1, i + Uniform(rs(2 * i), 100));
        var refuelStartTime := SampleOffset(refuelIndex, timeInterval);
        var refuelDuration := 10.0 + rs(2 * i + 1) * 8.0;
        var refuelEndTime := refuelStartTime + refuelDuration * 60.0;
        out := out + [Event(refuelStartTime, refuelIndex, RefuelingStarted(currentFuelLevel))];
        var fuelAdded := (RefuelTarget - currentFuelLevel) / 100.0 * TankCapacity;
        currentFuelLevel := RefuelTarget;
        out := out + [Event(refuelEndTime, refuelIndex,
                            RefuelingCompleted(refuelDuration, currentFuelLevel - fuelAdded / TankCapacity * 100.0,
                                               currentFuelLevel))];
        assert out[0] == expected.0[0];
        assert out[1] == expected.0[1];
        assert out[2].payload == expected.0[2].payload;
        assert out[2] == expected.0[2];
        assert out == expected.0;
      }
    }
    assert (out, currentFuelLevel) == expected;
  }

  /** The fuel loop, with the corrected spacing. */
  method FuelLoop(n: nat, totalDistance: real, timeInterval: nat, rs: Stream)
    returns (events: seq<Event>, currentFuelLevel: real)
    requires 0 < n && IsStream(rs)
    ensures (events, currentFuelLevel) == FuelEvents(n, totalDistance, timeInterval, rs)
  {
    events := [];
    currentFuelLevel := StartFuelLevel;
    var fuelCheckInterval := CheckpointStep(n, 8);
    var i := fuelCheckInterval;
    ghost var whole := FuelFrom(n, totalDistance, timeInterval, rs, fuelCheckInterval, i, currentFuelLevel);
    while i < n
      invariant events + FuelFrom(n, totalDistance, timeInterval, rs, fuelCheckInterval, i, currentFuelLevel).0 == whole.0
      invariant FuelFrom(n, totalDistance, timeInterval, rs, fuelCheckInterval, i, currentFuelLevel).1 == whole.1
      decreases n - i
    {
      var out, level := FuelCheckpointStep(n, totalDistance, timeInterval, rs, i);
      ghost var rest := FuelFrom(n, totalDistance, timeInterval, rs, fuelCheckInterval, i + fuelCheckInterval, level);
      AppendAssoc(events, out, rest.0);
      events := events + out;
      currentFuelLevel := level;
      i := i + fuelCheckInterval;
    }
    assert events == whole.0;
  }

  method BreakStep(n: nat, distances: seq<real>, timeInterval: nat, rs: Stream, i: nat) returns (pair: seq<Event>)
    requires 0 < n <= |distances| && IsStream(rs)
    ensures pair == BreakAt(n, distances, timeInterval, rs, i)
  {
    var randomIndex := Uniform(rs(1 + 2 * i), n);
    var pauseTime := SampleOffset(randomIndex, timeInterval);
    var breakDuration := 15.0 + rs(2 + 2 * i) * 30.0;
    var resumeTime := pauseTime + breakDuration * 60.0;
    var distanceTraveled := distances[randomIndex];
    var elapsedMinutes := ElapsedMinutes(randomIndex, timeInterval);
    pair := [Event(pauseTime, randomIndex, TripPaused(distanceTraveled, elapsedMinutes)),
             Event(resumeTime, randomIndex, TripResumed(breakDuration))];
  }

  lemma PairsMakeBreakEvents(n: nat, d: seq<real>, interval: nat, rs: Stream, events: seq<Event>)
    requires 0 < n <= |d| && IsStream(rs) && |events| == 2 * BreakCount(rs)
    requires forall k :: 0 <= k < BreakCount(rs) ==> events[2 * k..2 * k + 2] == BreakAt(n, d, interval, rs, k)
    ensures events == BreakEvents(n, d, interval, rs)
  {
    forall j | 0 <= j < |events|
      ensures events[j] == BreakAt(n, d, interval, rs, j / 2)[j % 2]
    {
      var k := j / 2;
      assert events[2 * k..2 * k + 2][j % 2] == events[j];
    }
  }

  /** The break loop. */
  method BreakLoop(n: nat, distances: seq<real>, timeInterval: nat, rs: Stream) returns (events: seq<Event>)
    requires 0 < n <= |distances| && IsStream(rs)
    ensures events == BreakEvents(n, distances, timeInterval, rs)
  {
    events := [];
    var breakCount := Count(2, 3, rs(0));
    var i := 0;
    while i < breakCount
      invariant i <= breakCount && |events| == 2 * i
      invariant forall k :: 0 <= k < i ==> events[2 * k..2 * k + 2] == BreakAt(n, distances, timeInterval, rs, k)
    {
      var pair := BreakStep(n, distances, timeInterval, rs, i);
      ghost var before := events;
      events := events + pair;
      forall k | 0 <= k < i
        ensures events[2 * k..2 * k + 2] == BreakAt(n, distances, timeInterval, rs, k)
      {
        assert events[2 * k..2 * k + 2] == before[2 * k..2 * k + 2];
      }
      assert events[2 * i..2 * i + 2] == pair;
      i := i + 1;
    }
    PairsMakeBreakEvents(n, distances, timeInterval, rs, events);
  }

  /** The telemetry loop, with the corrected spacing. */
  method TelemetryLoop(n: nat, distances: seq<real>, timeInterval: nat, currentFuelLevel: real)
    returns (events: seq<Event>)
    requires 0 < n <= |distances|
    ensures events == TelemetryEvents(n, distances, timeInterval, currentFuelLevel)
  {
    events := [];
    var telemetryInterval := CheckpointStep(n, 12);
    var i := telemetryInterval;
    while i < n
      invariant events + TelemetryFrom(n, distances, timeInterval, telemetryInterval, i, currentFuelLevel)
                == TelemetryEvents(n, distances, timeInterval, currentFuelLevel)
      decreases n - i
    {
      var record := Event(SampleOffset(i, timeInterval), i, VehicleTelemetry(distances[i], currentFuelLevel));
      AppendAssoc(events, [record], TelemetryFrom(n, distances, timeInterval, telemetryInterval, i + telemetryInterval, currentFuelLevel));
      events := events + [record];
      i := i + telemetryInterval;
    }
  }

  /** generateConditionalEvents. */
  method GenerateConditionalEvents(coords: seq<Coord>, dist: Distance, timeInterval: nat, draws: ConditionalDraws)
    returns (events: seq<Event>)
    requires 0 < |coords| && draws.Valid()
    ensures events == ConditionalEvents(coords, dist, timeInterval, draws)
    ensures forall e <- events :: e.at < |coords| && IsConditional(e.payload)
  {
    var n := |coords|;
    var distances, totalDistance := CalculateCumulativeDistances(coords, dist);
    var fuel, currentFuelLevel := FuelLoop(n, totalDistance, timeInterval, draws.refuel);
    var breaks := BreakLoop(n, distances, timeInterval, draws.breaks);
    var telemetry := TelemetryLoop(n, distances, timeInterval, currentFuelLevel);
    events := fuel + breaks + telemetry;
    ConditionalEventsShape(coords, dist, timeInterval, draws);
  }
}
