/** The deterministic generators of data-generator/event-generators.js:
    trip lifecycle, distance and time milestones, scheduled stops. */
module Placement {
  import opened Events
  import opened Geometry

  // ---------------------------------------------------------------- lifecycle

  /** generateTripLifecycleEvents. The trip lasts n * 0.5 minutes whatever the
      sample interval; a cancelled trip keeps only the two opening events. */
  function LifecycleEvents(coords: seq<Coord>, dist: Distance, cancelled: bool): (events: seq<Event>)
    requires |coords| >= 1
    ensures |events| == if cancelled then 2 else 4
    ensures forall e <- events :: e.at < |coords|
  {
    var n := |coords|;
    var totalDistance := Last(Cumulative(coords, dist));
    var totalTimeMinutes := n as real * 0.5;
    var tripEndTime := totalTimeMinutes * 60.0;
    var opening := [Event(-300.0, 0, TrackingStarted), Event(0.0, 0, TripStarted)];
    if cancelled then opening
    else
      opening + [ Event(tripEndTime, n - 1, TripCompleted((totalTimeMinutes + 0.5).Floor, totalDistance)),
                  Event(tripEndTime + 300.0, n - 1, TrackingStopped(totalDistance)) ]
  }

  predicate IsLifecycle(p: Payload) {
    p.TrackingStarted? || p.TripStarted? || p.TripCompleted? || p.TrackingStopped?
  }

  /** The normal path: tracking starts five minutes before the trip, the trip ends
      after n * 30 seconds, tracking stops five minutes later; the offsets rise strictly.
      The cancelled path is exactly the first two of these events. */
  lemma LifecycleShape(coords: seq<Coord>, dist: Distance)
    requires |coords| >= 1
    ensures var full := LifecycleEvents(coords, dist, false);
            && full[0].payload == TrackingStarted && full[0].offset == -300.0
            && full[1].payload == TripStarted && full[1].offset == 0.0
            && full[2].payload.TripCompleted? && full[2].offset == (30 * |coords|) as real
            && full[3].payload.TrackingStopped? && full[3].offset == (30 * |coords| + 300) as real
            && full[2].payload.tripMinutes == (|coords| + 1) / 2
            && (forall i, j :: 0 <= i < j < 4 ==> full[i].offset < full[j].offset)
            && LifecycleEvents(coords, dist, true) == full[..2]
  {
    var n := |coords|;
    var m := n as real * 0.5;
    if n % 2 == 0 {
      assert m + 0.5 == (n / 2) as real + 0.5;
    } else {
      assert m + 0.5 == ((n + 1) / 2) as real;
    }
  }

  // ------------------------------------------------------- distance milestones

  /** The distance thresholds in km: there is no 350 and no 450. */
  const MilestoneKms: seq<int> := [50, 100, 150, 200, 250, 300, 400, 500]

  /** What an emitted distance milestone for threshold km satisfies: it sits at the
      nearest sample to km, that sample lies at km - 5 or beyond, and the event is
      placed at that sample's offset. */
  ghost predicate IsDistanceMilestone(d: seq<real>, interval: nat, e: Event) {
    && e.payload.DistanceMilestone?
    && |d| > 0
    && e.at == Nearest(d, e.payload.milestoneKm as real)
    && e.payload.distanceKm == d[e.at]
    && d[e.at] >= e.payload.milestoneKm as real - 5.0
    && e.offset == SampleOffset(e.at, interval)
  }

  function DistanceMilestoneFor(d: seq<real>, interval: nat, km: int): (r: Option<Event>)
    requires |d| > 0
    ensures r.Some? <==> d[Nearest(d, km as real)] >= km as real - 5.0
    ensures r.Some? ==> IsDistanceMilestone(d, interval, r.value) && r.value.payload.milestoneKm == km
  {
    var closestIndex := Nearest(d, km as real);
    if d[closestIndex] >= km as real - 5.0 then
      var elapsedTimeMinutes := SampleOffset(closestIndex, interval) / 60.0;
      var stopsCount := (elapsedTimeMinutes / 120.0).Floor;
      Some(Event(SampleOffset(closestIndex, interval), closestIndex,
                 DistanceMilestone(km, d[closestIndex], elapsedTimeMinutes, stopsCount)))
    else None
  }

  function OptionToSeq(r: Option<Event>): seq<Event> {
    if r.Some? then [r.value] else []
  }

  lemma MilestoneKmsIncrease(i: nat, j: nat)
    requires i < j < |MilestoneKms|
    ensures MilestoneKms[i] < MilestoneKms[j]
  {
  }

  /** The threshold an event reports, for ordering (0 for other events). */
  function MilestoneKmOf(e: Event): int {
    if e.payload.DistanceMilestone? then e.payload.milestoneKm else 0
  }

  /** A threshold listed before the m-th is below it. */
  lemma PrefixBelow(m: nat, x: int)
    requires 0 < m <= |MilestoneKms| && x in MilestoneKms[..m - 1]
    ensures x < MilestoneKms[m - 1]
  {
    var k :| 0 <= k < m - 1 && MilestoneKms[k] == x;
    MilestoneKmsIncrease(k, m - 1);
  }

  /** The milestone events for the first m thresholds, in threshold order. */
  function DistanceMilestones(d: seq<real>, interval: nat, m: nat): (events: seq<Event>)
    requires |d| > 0 && m <= |MilestoneKms|
    ensures |events| <= m
    ensures forall e <- events :: IsDistanceMilestone(d, interval, e)
    ensures forall e <- events :: e.payload.DistanceMilestone? && e.payload.milestoneKm in MilestoneKms[..m]
    ensures forall i, j :: 0 <= i < j < |events| ==> MilestoneKmOf(events[i]) < MilestoneKmOf(events[j])
  {
    if m == 0 then []
    else
      var km := MilestoneKms[m - 1];
      var earlier := DistanceMilestones(d, interval, m - 1);
      assert forall e <- earlier :: MilestoneKmOf(e) < km by {
        forall e <- earlier ensures MilestoneKmOf(e) < km {
          PrefixBelow(m, e.payload.milestoneKm);
        }
      }
      earlier + OptionToSeq(DistanceMilestoneFor(d, interval, km))
  }

  /** A threshold has an event among the first m exactly when it has one among the first
      m - 1, or it is the m-th threshold's own event. */
  lemma MilestoneAmongFirst(d: seq<real>, interval: nat, m: nat, x: int)
    requires |d| > 0 && 0 < m <= |MilestoneKms|
    ensures var r := DistanceMilestoneFor(d, interval, MilestoneKms[m - 1]);
            (exists e <- DistanceMilestones(d, interval, m) :: MilestoneKmOf(e) == x) <==>
              (exists e <- DistanceMilestones(d, interval, m - 1) :: MilestoneKmOf(e) == x) ||
              (r.Some? && MilestoneKmOf(r.value) == x)
  {
    var r := DistanceMilestoneFor(d, interval, MilestoneKms[m - 1]);
    var earlier := DistanceMilestones(d, interval, m - 1);
    var all := earlier + OptionToSeq(r);
    assert DistanceMilestones(d, interval, m) == all;
    if e :| e in all && MilestoneKmOf(e) == x {
      assert e in earlier || e == r.value;
    }
    if e :| e in earlier && MilestoneKmOf(e) == x {
      assert e in all;
    }
    if r.Some? {
      assert r.value in all;
    }
  }

  /** A threshold gets its event exactly when its nearest sample is within 5 km below it or beyond. */
  lemma {:induction false} DistanceMilestoneEmitted(d: seq<real>, interval: nat, m: nat, k: nat)
    requires |d| > 0 && k < m <= |MilestoneKms|
    ensures (exists e <- DistanceMilestones(d, interval, m) :: MilestoneKmOf(e) == MilestoneKms[k])
        <==> d[Nearest(d, MilestoneKms[k] as real)] >= MilestoneKms[k] as real - 5.0
  {
    var km := MilestoneKms[k];
    MilestoneAmongFirst(d, interval, m, km);
    if k < m - 1 {
      DistanceMilestoneEmitted(d, interval, m - 1, k);
      MilestoneKmsIncrease(k, m - 1);
    } else {
      if e :| e in DistanceMilestones(d, interval, m - 1) && MilestoneKmOf(e) == km {
        PrefixBelow(m, e.payload.milestoneKm);
      }
    }
  }

  /** Every emitted milestone sits at the first sample closest to its threshold. */
  lemma DistanceMilestoneAtFirstNearest(d: seq<real>, interval: nat, e: Event)
    requires IsDistanceMilestone(d, interval, e)
    ensures IsFirstNearest(d, e.payload.milestoneKm as real, e.at)
  {
    NearestIsFirstNearest(d, e.payload.milestoneKm as real);
  }

  /** A threshold more than 5 km beyond the route's total distance never gets an event. */
  lemma NoMilestoneBeyondRoute(coords: seq<Coord>, dist: Distance, interval: nat, e: Event)
    requires NonNegative(dist) && |coords| >= 1
    requires e in DistanceMilestones(Cumulative(coords, dist), interval, |MilestoneKms|)
    ensures e.payload.milestoneKm as real - 5.0 <= Last(Cumulative(coords, dist))
  {
    CumulativeMonotone(coords, dist, e.at, |coords| - 1);
  }

  /** One pass of the loop of generateDistanceMilestoneEvents. */
  method DistanceMilestoneStep(distances: seq<real>, timeInterval: nat, milestoneKm: int) returns (r: Option<Event>)
    requires |distances| > 0
    ensures r == DistanceMilestoneFor(distances, timeInterval, milestoneKm)
  {
    var closestIndex := FindNearest(distances, milestoneKm as real);
    r := None;
    if distances[closestIndex] >= milestoneKm as real - 5.0 {
      var elapsedTimeMinutes := SampleOffset(closestIndex, timeInterval) / 60.0;
      var stopsCount := (elapsedTimeMinutes / 120.0).Floor;
      r := Some(Event(SampleOffset(closestIndex, timeInterval), closestIndex,
                      DistanceMilestone(milestoneKm, distances[closestIndex], elapsedTimeMinutes, stopsCount)));
    }
  }

  /** generateDistanceMilestoneEvents. */
  method GenerateDistanceMilestoneEvents(coords: seq<Coord>, dist: Distance, timeInterval: nat)
    returns (events: seq<Event>)
    ensures events == DistanceMilestones(Cumulative(coords, dist), timeInterval, |MilestoneKms|)
    ensures |events| <= 8
    ensures forall e <- events :: e.at < |Cumulative(coords, dist)| && e.payload.DistanceMilestone?
    ensures forall i, j :: 0 <= i < j < |events| ==> events[i].payload.milestoneKm < events[j].payload.milestoneKm
  {
    var distances, _ := CalculateCumulativeDistances(coords, dist);
    events := [];
    var m := 0;
    while m < |MilestoneKms|
      invariant m <= |MilestoneKms|
      invariant events == DistanceMilestones(distances, timeInterval, m)
    {
      var milestone := DistanceMilestoneStep(distances, timeInterval, MilestoneKms[m]);
      events := events + OptionToSeq(milestone);
      m := m + 1;
    }
  }

  // ----------------------------------------------------------- time milestones

  const MilestoneHours: seq<int> := [1, 2, 4, 6, 8, 12, 16, 20, 24]

  /** The stop time one stop adds by second `limit`: its duration, cut at the limit,
      and nothing if it starts after the limit. */
  function StopContribution(stop: StopInterval, limit: int): (c: int)
    ensures stop.startSeconds <= limit ==> 0 <= c <= stop.durationMinutes * 60 && c <= limit - stop.startSeconds
    ensures limit < stop.startSeconds ==> c == 0
  {
    if stop.startSeconds <= limit then Min(stop.durationMinutes * 60, limit - stop.startSeconds) else 0
  }

  /** Total stop time accrued by second `limit`. Overlapping stops are counted once each. */
  function StopTimeBy(stops: seq<StopInterval>, limit: int): (total: int)
    ensures 0 <= total
  {
    if stops == [] then 0
    else StopTimeBy(stops[..|stops| - 1], limit) + StopContribution(stops[|stops| - 1], limit)
  }

  /** How many stops start no later than second `limit`. */
  function StopsStartedBy(stops: seq<StopInterval>, limit: int): (count: nat)
    ensures count <= |stops|
  {
    if stops == [] then 0
    else StopsStartedBy(stops[..|stops| - 1], limit) + (if stops[|stops| - 1].startSeconds <= limit then 1 else 0)
  }

  /** No stop adds more than its own duration, so the accrued time is bounded by the sum of durations. */
  function TotalStopSeconds(stops: seq<StopInterval>): int {
    if stops == [] then 0 else TotalStopSeconds(stops[..|stops| - 1]) + stops[|stops| - 1].durationMinutes * 60
  }

  lemma {:induction false} StopTimeBounded(stops: seq<StopInterval>, limit: int)
    ensures StopTimeBy(stops, limit) <= TotalStopSeconds(stops)
  {
    if stops != [] {
      StopTimeBounded(stops[..|stops| - 1], limit);
    }
  }

  /** The inner loop of generateTimeMilestoneEvents that sums the stop time. */
  method AccrueStopTime(stopEvents: seq<StopInterval>, milestoneSeconds: int) returns (totalStopTime: int)
    ensures totalStopTime == StopTimeBy(stopEvents, milestoneSeconds)
    ensures 0 <= totalStopTime
  {
    totalStopTime := 0;
    var i := 0;
    while i < |stopEvents|
      invariant i <= |stopEvents|
      invariant totalStopTime == StopTimeBy(stopEvents[..i], milestoneSeconds)
    {
      var stop := stopEvents[i];
      if stop.startSeconds <= milestoneSeconds {
        totalStopTime := totalStopTime + Min(stop.durationMinutes * 60, milestoneSeconds - stop.startSeconds);
      }
      assert stopEvents[..i + 1][..i] == stopEvents[..i];
      i := i + 1;
    }
    assert stopEvents[..i] == stopEvents;
  }

  lemma DivBounds(a: nat, b: nat)
    requires b > 0
    ensures 0 <= a / b
    ensures (a / b) * b <= a < (a / b) * b + b
  {
  }

  /** The time milestone for `hours`, if the stop-adjusted offset still maps to a sample. */
  function TimeMilestoneFor(d: seq<real>, n: nat, interval: nat, stops: seq<StopInterval>, hours: nat): (r: Option<Event>)
    requires interval > 0 && n <= |d|
    ensures r.Some? <==> (hours * 3600 + StopTimeBy(stops, hours * 3600)) / interval < n
    ensures r.Some? ==> r.value.at < n && r.value.payload.TimeMilestone? && r.value.payload.milestoneHours == hours
  {
    var milestoneSeconds := hours * 3600;
    var totalStopTime := StopTimeBy(stops, milestoneSeconds);
    var adjustedSeconds := milestoneSeconds + totalStopTime;
    var coordinateIndex := adjustedSeconds / interval;
    if coordinateIndex < n then
      var elapsedTimeMinutes := hours * 60;
      var distanceTraveled := d[Min(coordinateIndex, |d| - 1)];
      var movingTimeMinutes := elapsedTimeMinutes as real - totalStopTime as real / 60.0;
      Some(Event(adjustedSeconds as real, coordinateIndex,
                 TimeMilestone(hours, distanceTraveled, StopsStartedBy(stops, milestoneSeconds), movingTimeMinutes)))
    else None
  }

  /** An emitted time milestone: its offset is the nominal threshold plus the accrued
      stop time, so never earlier than the threshold; it sits at the sample whose slot
      contains that offset; it counts the stops started by the threshold; and its moving
      time is the elapsed time less the accrued stop time. */
  lemma TimeMilestoneShape(d: seq<real>, n: nat, interval: nat, stops: seq<StopInterval>, hours: nat)
    requires interval > 0 && n <= |d|
    requires TimeMilestoneFor(d, n, interval, stops, hours).Some?
    ensures var e := TimeMilestoneFor(d, n, interval, stops, hours).value;
            var m := hours * 3600;
            var stopTime := StopTimeBy(stops, m);
            && e.offset == (m + stopTime) as real
            && e.offset >= m as real
            && SampleOffset(e.at, interval) <= e.offset < SampleOffset(e.at, interval) + interval as real
            && e.payload.distanceKm == d[e.at]
            && e.payload.stopsCount == StopsStartedBy(stops, m)
            && e.payload.movingMinutes == (hours * 60) as real - stopTime as real / 60.0
            && e.payload.movingMinutes <= (hours * 60) as real
  {
    var m := hours * 3600;
    DivBounds(m + StopTimeBy(stops, m), interval);
  }

  /** An hour threshold listed before the m-th is below it. */
  lemma HoursPrefixBelow(m: nat, x: int)
    requires 0 < m <= |MilestoneHours| && x in MilestoneHours[..m - 1]
    ensures x < MilestoneHours[m - 1]
  {
    var k :| 0 <= k < m - 1 && MilestoneHours[k] == x;
  }

  /** The time milestones for the first m thresholds. */
  function TimeMilestones(d: seq<real>, n: nat, interval: nat, stops: seq<StopInterval>, m: nat): (events: seq<Event>)
    requires interval > 0 && n <= |d| && m <= |MilestoneHours|
    ensures |events| <= m
    ensures forall e <- events :: e.at < n && e.payload.TimeMilestone? && e.payload.milestoneHours in MilestoneHours[..m]
    ensures forall i, j :: 0 <= i < j < |events| ==> events[i].payload.milestoneHours < events[j].payload.milestoneHours
  {
    if m == 0 then []
    else
      var hours := MilestoneHours[m - 1];
      var earlier := TimeMilestones(d, n, interval, stops, m - 1);
      assert forall e <- earlier :: e.payload.milestoneHours < hours by {
        forall e <- earlier ensures e.payload.milestoneHours < hours {
          HoursPrefixBelow(m, e.payload.milestoneHours);
        }
      }
      var r := TimeMilestoneFor(d, n, interval, stops, hours);
      earlier + (if r.Some? then [r.value] else [])
  }

  /** One pass of the outer loop of generateTimeMilestoneEvents. */
  method TimeMilestoneStep(distances: seq<real>, n: nat, timeInterval: nat, stopEvents: seq<StopInterval>, milestoneHour: nat)
    returns (r: Option<Event>)
    requires timeInterval > 0 && n <= |distances|
    ensures r == TimeMilestoneFor(distances, n, timeInterval, stopEvents, milestoneHour)
  {
    var milestoneSeconds := milestoneHour * 3600;
    var totalStopTime := AccrueStopTime(stopEvents, milestoneSeconds);
    var adjustedSeconds: nat := milestoneSeconds + totalStopTime;
    DivBounds(adjustedSeconds, timeInterval);
    var coordinateIndex: nat := adjustedSeconds / timeInterval;
    if coordinateIndex < n {
      var elapsedTimeMinutes := milestoneHour * 60;
      var distanceTraveled := distances[Min(coordinateIndex, |distances| - 1)];
      var movingTimeMinutes := elapsedTimeMinutes as real - totalStopTime as real / 60.0;
      r := Some(Event(adjustedSeconds as real, coordinateIndex,
                      TimeMilestone(milestoneHour, distanceTraveled, StopsStartedBy(stopEvents, milestoneSeconds), movingTimeMinutes)));
    } else {
      r := None;
    }
  }

  /** generateTimeMilestoneEvents. */
  method GenerateTimeMilestoneEvents(coords: seq<Coord>, dist: Distance, timeInterval: nat, stopEvents: seq<StopInterval>)
    returns (events: seq<Event>)
    requires timeInterval > 0
    ensures events == TimeMilestones(Cumulative(coords, dist), |coords|, timeInterval, stopEvents, |MilestoneHours|)
    ensures |events| <= 9
    ensures forall e <- events :: e.at < |coords| && e.payload.TimeMilestone?
  {
    var distances, _ := CalculateCumulativeDistances(coords, dist);
    events := [];
    var m := 0;
    while m < |MilestoneHours|
      invariant m <= |MilestoneHours|
      invariant events == TimeMilestones(distances, |coords|, timeInterval, stopEvents, m)
    {
      var r := TimeMilestoneStep(distances, |coords|, timeInterval, stopEvents, MilestoneHours[m]);
      if r.Some? {
        events := events + [r.value];
      }
      m := m + 1;
    }
  }

  /** Stops that overlap are each counted in full: six 29-minute stops at the first
      sample give the one-hour milestone a negative moving time. */
  lemma OverlappingStopsDoubleCount()
    ensures var stop := StopInterval(0, 1740, 29);
            var stops := [stop, stop, stop, stop, stop, stop];
            StopTimeBy(stops, 3600) == 10440
            && 60.0 - StopTimeBy(stops, 3600) as real / 60.0 < 0.0
  {
    var stop := StopInterval(0, 1740, 29);
    var stops := [stop, stop, stop, stop, stop, stop];
    assert StopContribution(stop, 3600) == 1740;
    assert StopTimeBy([], 3600) == 0;
    assert stops[..1] == [stop] && [stop][..0] == [];
    assert StopTimeBy(stops[..1], 3600) == 1740;
    assert stops[..2][..1] == stops[..1];
    assert StopTimeBy(stops[..2], 3600) == 3480;
    assert stops[..3][..2] == stops[..2];
    assert StopTimeBy(stops[..3], 3600) == 5220;
    assert stops[..4][..3] == stops[..3];
    assert StopTimeBy(stops[..4], 3600) == 6960;
    assert stops[..5][..4] == stops[..4];
    assert StopTimeBy(stops[..5], 3600) == 8700;
    assert stops[..6] == stops;
  }

  // ----------------------------------------------------------- scheduled stops

  /** Scheduled stops sit at 25%, 50% and 75% of the route distance. */
  const StopFractions: seq<real> := [0.25, 0.5, 0.75]

  /** Arrival and departure for scheduled stop k (0-based): the departure follows the
      arrival by the 15-minute stop at the same sample. */
  function ScheduledStop(d: seq<real>, interval: nat, k: nat): (pair: seq<Event>)
    requires |d| > 0 && k < |StopFractions|
    ensures |pair| == 2
    ensures pair[0].at < |d|
    ensures pair[0].payload == StopArrival(k + 1, d[pair[0].at])
    ensures pair[1].payload == StopDeparture(k + 1, 15)
    ensures pair[0].at == Nearest(d, Last(d) * StopFractions[k])
    ensures pair[0].offset == SampleOffset(pair[0].at, interval)
    ensures pair[1].at == pair[0].at && pair[1].offset == pair[0].offset + 900.0
  {
    var targetDistance := Last(d) * StopFractions[k];
    var closestIndex := Nearest(d, targetDistance);
    var arrivalTime := SampleOffset(closestIndex, interval);
    var stopDuration := 900.0;
    [ Event(arrivalTime, closestIndex, StopArrival(k + 1, d[closestIndex])),
      Event(arrivalTime + stopDuration, closestIndex, StopDeparture(k + 1, 15)) ]
  }

  /** The events of the first k scheduled stops: arrival, departure, arrival, ... */
  function ScheduledStops(d: seq<real>, interval: nat, k: nat): (events: seq<Event>)
    requires |d| > 0 && k <= |StopFractions|
    ensures |events| == 2 * k
    ensures forall j :: 0 <= j < |events| ==> events[j].at < |d|
    ensures forall j :: 0 <= j < |events| ==> events[j].payload.StopArrival? || events[j].payload.StopDeparture?
    ensures forall i :: 0 <= i < k ==>
              events[2 * i] == ScheduledStop(d, interval, i)[0] && events[2 * i + 1] == ScheduledStop(d, interval, i)[1]
  {
    if k == 0 then []
    else ScheduledStops(d, interval, k - 1) + ScheduledStop(d, interval, k - 1)
  }

  /** Always three arrival/departure pairs, numbered 1 to 3, each departure 15 minutes
      after its arrival at the same sample. */
  lemma ScheduledStopsShape(d: seq<real>, interval: nat)
    requires |d| > 0
    ensures var events := ScheduledStops(d, interval, |StopFractions|);
            forall i :: 0 <= i < 3 ==>
              && events[2 * i].payload == StopArrival(i + 1, d[events[2 * i].at])
              && events[2 * i + 1].payload == StopDeparture(i + 1, 15)
              && events[2 * i + 1].at == events[2 * i].at
              && events[2 * i + 1].offset == events[2 * i].offset + 900.0
  {
  }

  /** One pass of the loop of generateScheduledStopEvents. */
  method ScheduledStopStep(distances: seq<real>, totalDistance: real, timeInterval: nat, i: nat)
    returns (pair: seq<Event>)
    requires |distances| > 0 && totalDistance == Last(distances) && i < |StopFractions|
    ensures pair == ScheduledStop(distances, timeInterval, i)
  {
    var targetDistance := totalDistance * StopFractions[i];
    var closestIndex := FindNearest(distances, targetDistance);
    var arrivalTime := SampleOffset(closestIndex, timeInterval);
    var stopDuration := 900.0;
    var departureTime := arrivalTime + stopDuration;
    pair := [ Event(arrivalTime, closestIndex, StopArrival(i + 1, distances[closestIndex])),
              Event(departureTime, closestIndex, StopDeparture(i + 1, 15)) ];
  }

  /** generateScheduledStopEvents. */
  method GenerateScheduledStopEvents(coords: seq<Coord>, dist: Distance, timeInterval: nat)
    returns (events: seq<Event>)
    ensures events == ScheduledStops(Cumulative(coords, dist), timeInterval, |StopFractions|)
    ensures |events| == 6
    ensures forall j :: 0 <= j < |events| ==> events[j].at < |Cumulative(coords, dist)|
  {
    var distances, totalDistance := CalculateCumulativeDistances(coords, dist);
    events := [];
    var i := 0;
    while i < |StopFractions|
      invariant i <= |StopFractions|
      invariant events == ScheduledStops(distances, timeInterval, i)
    {
      var pair := ScheduledStopStep(distances, totalDistance, timeInterval, i);
      events := events + pair;
      i := i + 1;
    }
  }
}
