/** generateMovementEvents of data-generator/random-event-generators.js:
    speed changes and speed violations at random samples. */
module Movement {
  import opened Draws
  import opened Events

  /** The draws of the two families. In each stream, entry 0 is the count and item i
      uses entries 1 + 3i (sample index), 2 + 3i and 3 + 3i. */
  datatype MovementDraws = MovementDraws(changes: Stream, violations: Stream) {
    ghost predicate Valid() {
      IsStream(changes) && IsStream(violations)
    }
  }

  /** Road type by speed: highway above 80 km/h, arterial above 50, city street otherwise. */
  function RoadTypeFor(speedKmh: real): (road: RoadType)
    ensures road == Highway <==> speedKmh > 80.0
    ensures road == Arterial <==> 50.0 < speedKmh <= 80.0
    ensures road == CityStreet <==> speedKmh <= 50.0
  {
    if speedKmh > 80.0 then Highway else if speedKmh > 50.0 then Arterial else CityStreet
  }

  /** Speed change i. The previous speed lies in [45, 75) and the change in [-20, 20),
      so the [15, 120] clamp of the source never takes effect. */
  function SpeedChangeAt(n: nat, interval: nat, rs: Stream, i: nat): (e: Event)
    requires 0 < n && IsStream(rs)
    ensures e.at < n && e.offset == SampleOffset(e.at, interval)
    ensures e.payload.SpeedChanged?
    ensures 45.0 <= e.payload.previousKmh < 75.0
    ensures 15.0 <= e.payload.currentKmh <= 120.0
    ensures e.payload.currentKmh == e.payload.previousKmh + (rs(3 + 3 * i) - 0.5) * 40.0
    ensures e.payload.changeKmh == e.payload.currentKmh - e.payload.previousKmh
    ensures -20.0 <= e.payload.changeKmh < 20.0
    ensures e.payload.road == RoadTypeFor(e.payload.currentKmh)
  {
    var randomIndex := Uniform(rs(1 + 3 * i), n);
    var previousSpeed := 45.0 + rs(2 + 3 * i) * 30.0;
    var currentSpeed := MaxReal(15.0, MinReal(120.0, previousSpeed + (rs(3 + 3 * i) - 0.5) * 40.0));
    Event(SampleOffset(randomIndex, interval), randomIndex,
          SpeedChanged(previousSpeed, currentSpeed, currentSpeed - previousSpeed, RoadTypeFor(currentSpeed)))
  }

  /** Speed violation i: a limit in [80, 105) exceeded by 10 to 30 km/h. */
  function SpeedViolationAt(n: nat, interval: nat, rs: Stream, i: nat): (e: Event)
    requires 0 < n && IsStream(rs)
    ensures e.at < n && e.offset == SampleOffset(e.at, interval)
    ensures e.payload.SpeedViolation?
    ensures 80.0 <= e.payload.limitKmh < 105.0
    ensures 10.0 <= e.payload.overspeedKmh < 30.0
    ensures e.payload.currentKmh == e.payload.limitKmh + e.payload.overspeedKmh
  {
    var randomIndex := Uniform(rs(1 + 3 * i), n);
    var speedLimit := 80.0 + rs(2 + 3 * i) * 25.0;
    var currentSpeed := speedLimit + 10.0 + rs(3 + 3 * i) * 20.0;
    Event(SampleOffset(randomIndex, interval), randomIndex,
          SpeedViolation(currentSpeed, speedLimit, currentSpeed - speedLimit))
  }

  /** 10 to 15 speed changes. */
  function SpeedChangeCount(rs: Stream): (c: nat)
    requires IsStream(rs)
    ensures 10 <= c <= 15
  {
    Count(10, 6, rs(0))
  }

  /** 2 to 4 speed violations. */
  function ViolationCount(rs: Stream): (c: nat)
    requires IsStream(rs)
    ensures 2 <= c <= 4
  {
    Count(2, 3, rs(0))
  }

  function SpeedChanges(n: nat, interval: nat, rs: Stream): seq<Event>
    requires 0 < n && IsStream(rs)
  {
    seq(SpeedChangeCount(rs), (i: int) requires 0 <= i => SpeedChangeAt(n, interval, rs, i))
  }

  function SpeedViolations(n: nat, interval: nat, rs: Stream): seq<Event>
    requires 0 < n && IsStream(rs)
  {
    seq(ViolationCount(rs), (i: int) requires 0 <= i => SpeedViolationAt(n, interval, rs, i))
  }

  /** All movement events: the speed changes, then the violations. */
  function MovementEvents(n: nat, interval: nat, draws: MovementDraws): seq<Event>
    requires 0 < n && draws.Valid()
  {
    SpeedChanges(n, interval, draws.changes) + SpeedViolations(n, interval, draws.violations)
  }

  /** generateMovementEvents. */
  method GenerateMovementEvents(coords: seq<Coord>, timeInterval: nat, draws: MovementDraws)
    returns (events: seq<Event>)
    requires |coords| > 0 && draws.Valid()
    ensures events == MovementEvents(|coords|, timeInterval, draws)
    ensures 12 <= |events| <= 19
    ensures forall e <- events :: e.at < |coords| && (e.payload.SpeedChanged? || e.payload.SpeedViolation?)
  {
    var n := |coords|;
    var rs := draws.changes;
    events := [];
    var speedChangeCount := Count(10, 6, rs(0));
    var i := 0;
    while i < speedChangeCount
      invariant i <= speedChangeCount
      invariant |events| == i
      invariant forall j :: 0 <= j < i ==> events[j] == SpeedChangeAt(n, timeInterval, rs, j)
    {
      var randomIndex := Uniform(rs(1 + 3 * i), n);
      var previousSpeed := 45.0 + rs(2 + 3 * i) * 30.0;
      var currentSpeed := MaxReal(15.0, MinReal(120.0, previousSpeed + (rs(3 + 3 * i) - 0.5) * 40.0));
      var speedChange := currentSpeed - previousSpeed;
      var roadType := CityStreet;
      if currentSpeed > 80.0 {
        roadType := Highway;
      } else if currentSpeed > 50.0 {
        roadType := Arterial;
      }
      events := events + [Event(SampleOffset(randomIndex, timeInterval), randomIndex,
                                SpeedChanged(previousSpeed, currentSpeed, speedChange, roadType))];
      i := i + 1;
    }
    var changes := events;
    var vs := draws.violations;
    var violationCount := Count(2, 3, vs(0));
    i := 0;
    while i < violationCount
      invariant i <= violationCount
      invariant |events| == |changes| + i
      invariant events[..|changes|] == changes
      invariant forall j :: 0 <= j < i ==> events[|changes| + j] == SpeedViolationAt(n, timeInterval, vs, j)
    {
      var randomIndex := Uniform(vs(1 + 3 * i), n);
      var speedLimit := 80.0 + vs(2 + 3 * i) * 25.0;
      var currentSpeed := speedLimit + 10.0 + vs(3 + 3 * i) * 20.0;
      var overspeed := currentSpeed - speedLimit;
      events := events + [Event(SampleOffset(randomIndex, timeInterval), randomIndex,
                                SpeedViolation(currentSpeed, speedLimit, overspeed))];
      i := i + 1;
    }
    assert events == changes + events[|changes|..];
  }
}
