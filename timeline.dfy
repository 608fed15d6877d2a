/** The main routine of data-generator/generate-trip-events.js: cancellation first, every
    generator on the route up to the cancellation, the cancellation cut-off, and the final
    ordering by timestamp. */
module Timeline {
  import opened Draws
  import opened Events
  import opened Geometry
  import opened Placement
  import opened Location
  import opened Movement
  import opened UnscheduledStops
  import opened Technical
  import opened Cancellation
  import opened Conditional
  import opened Ordering

  /** Seconds between route samples. */
  const TimeInterval: nat := 30

  // ------------------------------------------------------------------ the trip

  /** The draws of every family. */
  datatype TripDraws = TripDraws(cancel: Stream, location: Stream, movement: MovementDraws, stops: Stream,
                                 technical: TechnicalDraws, conditional: ConditionalDraws) {
    ghost predicate Valid() {
      IsStream(cancel) && IsStream(location) && movement.Valid() && IsStream(stops) &&
      technical.Valid() && conditional.Valid()
    }
  }

  /** The payloads only a trip that runs to its end produces. */
  predicate IsTripEnd(p: Payload) {
    p.TripCompleted? || p.TrackingStopped?
  }

  ghost predicate Within(s: seq<Event>, n: nat) {
    forall e <- s :: e.at < n
  }

  ghost predicate NoTripEnd(s: seq<Event>) {
    forall e <- s :: !IsTripEnd(e.payload)
  }

  function Cancel(coords: seq<Coord>, dist: Distance, draws: TripDraws): Option<CancellationOutcome>
    requires 0 < |coords| && draws.Valid()
  {
    TripCancellation(coords, dist, TimeInterval, draws.cancel)
  }

  /** The route the generators see: up to and including the cancellation sample. */
  function EffectiveRoute(coords: seq<Coord>, c: Option<CancellationOutcome>): (eff: seq<Coord>)
    requires 0 < |coords| && (c.Some? ==> c.value.cancellationIndex < |coords|)
    ensures 0 < |eff| <= |coords| && eff == coords[..|eff|]
    ensures c.Some? ==> |eff| == c.value.cancellationIndex + 1
    ensures c.None? ==> eff == coords
  {
    if c.Some? then coords[..c.value.cancellationIndex + 1] else coords
  }

  /** Every generator's events on the effective route, in the order they are combined: the
      lifecycle events first, then one ping per sample in route order, then the rest. */
  function GeneratedEvents(eff: seq<Coord>, dist: Distance, bearing: Bearing, draws: TripDraws, cancelled: bool)
    : (r: seq<Event>)
    requires 0 < |eff| && draws.Valid() && InAtan2Range(bearing)
    ensures var life := LifecycleEvents(eff, dist, cancelled);
            |life| + |eff| <= |r| && r[..|life| + |eff|] == life + LocationEvents(eff, dist, bearing, draws.location)
  {
    var life := LifecycleEvents(eff, dist, cancelled);
    var pings := LocationEvents(eff, dist, bearing, draws.location);
    var later := LaterEvents(eff, dist, draws);
    life + pings + later
  }

  /** The events combined after the pings, family by family in the order they are spread:
      distance and time milestones, scheduled stops, movement, unscheduled stops, technical
      and conditional events. */
  function LaterEvents(eff: seq<Coord>, dist: Distance, draws: TripDraws): seq<Event>
    requires 0 < |eff| && draws.Valid()
  {
    var n := |eff|;
    var d := Cumulative(eff, dist);
    DistanceMilestones(d, TimeInterval, |MilestoneKms|) +
    TimeMilestones(d, n, TimeInterval, StopIntervals(n, TimeInterval, draws.stops), |MilestoneHours|) +
    ScheduledStops(d, TimeInterval, |StopFractions|) +
    MovementEvents(n, TimeInterval, draws.movement) +
    UnscheduledStopEvents(n, TimeInterval, draws.stops) +
    TechnicalEvents(n, TimeInterval, draws.technical) +
    ConditionalEvents(eff, dist, TimeInterval, draws.conditional)
  }

  /** The combined list, the cancellation last: without a cancellation, the generated
      events of the whole route and nothing else. */
  function CombinedEvents(coords: seq<Coord>, dist: Distance, bearing: Bearing, draws: TripDraws): (r: seq<Event>)
    requires 0 < |coords| && draws.Valid() && InAtan2Range(bearing)
    ensures var c := Cancel(coords, dist, draws);
            (c.None? ==> r == GeneratedEvents(coords, dist, bearing, draws, false)) &&
            (c.Some? ==> 0 < |r| && r[|r| - 1] == c.value.event)
  {
    var c := Cancel(coords, dist, draws);
    GeneratedEvents(EffectiveRoute(coords, c), dist, bearing, draws, c.Some?) +
    (if c.Some? then [c.value.event] else [])
  }

  /** The combined list after the cut-off at the cancellation instant: a sub-multiset of
      it, everything when there is no cancellation, nothing stamped later when there is. */
  function KeptEvents(coords: seq<Coord>, dist: Distance, bearing: Bearing, draws: TripDraws): (r: seq<Event>)
    requires 0 < |coords| && draws.Valid() && InAtan2Range(bearing)
    ensures multiset(r) <= multiset(CombinedEvents(coords, dist, bearing, draws))
    ensures var c := Cancel(coords, dist, draws);
            (c.None? ==> r == CombinedEvents(coords, dist, bearing, draws)) &&
            (c.Some? ==> forall e <- r :: Key(e) <= Key(c.value.event))
  {
    var c := Cancel(coords, dist, draws);
    var all := CombinedEvents(coords, dist, bearing, draws);
    if c.Some? then KeepUntil(all, Key(c.value.event)) else all
  }

  /** The trip's event stream as the program writes it out: the kept events, reordered by
      timestamp (TripEventsOrdered proves the order). */
  function TripEvents(coords: seq<Coord>, dist: Distance, bearing: Bearing, draws: TripDraws): (r: seq<Event>)
    requires 0 < |coords| && draws.Valid() && InAtan2Range(bearing)
    ensures multiset(r) == multiset(KeptEvents(coords, dist, bearing, draws))
  {
    SortByTime(KeptEvents(coords, dist, bearing, draws))
  }

  // Every family stays on the effective route, and only the lifecycle can end the trip.

  lemma LifecycleOnRoute(eff: seq<Coord>, dist: Distance, cancelled: bool)
    requires 0 < |eff|
    ensures Within(LifecycleEvents(eff, dist, cancelled), |eff|)
    ensures cancelled ==> NoTripEnd(LifecycleEvents(eff, dist, cancelled))
  {
    LifecycleShape(eff, dist);
  }

  lemma LocationOnRoute(eff: seq<Coord>, dist: Distance, bearing: Bearing, rs: Stream)
    requires IsStream(rs) && InAtan2Range(bearing)
    ensures Within(LocationEvents(eff, dist, bearing, rs), |eff|) && NoTripEnd(LocationEvents(eff, dist, bearing, rs))
  {
    var s := LocationEvents(eff, dist, bearing, rs);
    forall e | e in s
      ensures e.at < |eff| && !IsTripEnd(e.payload)
    {
      var i :| 0 <= i < |s| && s[i] == e;
    }
  }

  lemma MovementOnRoute(n: nat, draws: MovementDraws)
    requires 0 < n && draws.Valid()
    ensures Within(MovementEvents(n, TimeInterval, draws), n) && NoTripEnd(MovementEvents(n, TimeInterval, draws))
  {
    var a := SpeedChanges(n, TimeInterval, draws.changes);
    var b := SpeedViolations(n, TimeInterval, draws.violations);
    forall e | e in a
      ensures e.at < n && !IsTripEnd(e.payload)
    {
      var i :| 0 <= i < |a| && a[i] == e;
    }
    forall e | e in b
      ensures e.at < n && !IsTripEnd(e.payload)
    {
      var i :| 0 <= i < |b| && b[i] == e;
    }
  }

  lemma PlacementOnRoute(eff: seq<Coord>, dist: Distance, stops: seq<StopInterval>)
    requires 0 < |eff|
    ensures var d := Cumulative(eff, dist);
            var dm := DistanceMilestones(d, TimeInterval, |MilestoneKms|);
            var tm := TimeMilestones(d, |eff|, TimeInterval, stops, |MilestoneHours|);
            var ss := ScheduledStops(d, TimeInterval, |StopFractions|);
            Within(dm, |eff|) && NoTripEnd(dm) && Within(tm, |eff|) && NoTripEnd(tm) &&
            Within(ss, |eff|) && NoTripEnd(ss)
  {
    var d := Cumulative(eff, dist);
    var sched := ScheduledStops(d, TimeInterval, |StopFractions|);
    forall e | e in sched
      ensures e.at < |eff| && !IsTripEnd(e.payload)
    {
      var i :| 0 <= i < |sched| && sched[i] == e;
    }
  }

  lemma ConcatOnRoute(a: seq<Event>, b: seq<Event>, n: nat, noEnd: bool)
    requires Within(a, n) && Within(b, n)
    requires noEnd ==> NoTripEnd(a) && NoTripEnd(b)
    ensures Within(a + b, n) && (noEnd ==> NoTripEnd(a + b))
  {
  }

  lemma StopsOnRoute(n: nat, draws: TripDraws)
    requires 0 < n && draws.Valid()
    ensures Within(UnscheduledStopEvents(n, TimeInterval, draws.stops), n)
    ensures NoTripEnd(UnscheduledStopEvents(n, TimeInterval, draws.stops))
  {
    StopEventKinds(n, TimeInterval, draws.stops);
  }

  lemma TechnicalOnRoute(n: nat, draws: TripDraws)
    requires 0 < n && draws.Valid()
    ensures Within(TechnicalEvents(n, TimeInterval, draws.technical), n)
    ensures NoTripEnd(TechnicalEvents(n, TimeInterval, draws.technical))
  {
    TechnicalEventsShape(n, TimeInterval, draws.technical);
  }

  lemma ConditionalOnRoute(eff: seq<Coord>, dist: Distance, draws: TripDraws)
    requires 0 < |eff| && draws.Valid()
    ensures Within(ConditionalEvents(eff, dist, TimeInterval, draws.conditional), |eff|)
    ensures NoTripEnd(ConditionalEvents(eff, dist, TimeInterval, draws.conditional))
  {
    ConditionalEventsShape(eff, dist, TimeInterval, draws.conditional);
  }

  lemma GeneratedOnRoute(eff: seq<Coord>, dist: Distance, bearing: Bearing, draws: TripDraws, cancelled: bool)
    requires 0 < |eff| && draws.Valid() && InAtan2Range(bearing)
    ensures Within(GeneratedEvents(eff, dist, bearing, draws, cancelled), |eff|)
    ensures cancelled ==> NoTripEnd(GeneratedEvents(eff, dist, bearing, draws, cancelled))
  {
    var n := |eff|;
    var d := Cumulative(eff, dist);
    var stops := StopIntervals(n, TimeInterval, draws.stops);
    var s1 := DistanceMilestones(d, TimeInterval, |MilestoneKms|);
    var s2 := s1 + TimeMilestones(d, n, TimeInterval, stops, |MilestoneHours|);
    var s3 := s2 + ScheduledStops(d, TimeInterval, |StopFractions|);
    var s4 := s3 + MovementEvents(n, TimeInterval, draws.movement);
    var s5 := s4 + UnscheduledStopEvents(n, TimeInterval, draws.stops);
    var s6 := s5 + TechnicalEvents(n, TimeInterval, draws.technical);
    var life := LifecycleEvents(eff, dist, cancelled);
    var pings := LocationEvents(eff, dist, bearing, draws.location);
    LifecycleOnRoute(eff, dist, cancelled);
    LocationOnRoute(eff, dist, bearing, draws.location);
    PlacementOnRoute(eff, dist, stops);
    MovementOnRoute(n, draws.movement);
    StopsOnRoute(n, draws);
    TechnicalOnRoute(n, draws);
    ConditionalOnRoute(eff, dist, draws);
    ConcatOnRoute(s1, TimeMilestones(d, n, TimeInterval, stops, |MilestoneHours|), n, cancelled);
    ConcatOnRoute(s2, ScheduledStops(d, TimeInterval, |StopFractions|), n, cancelled);
    ConcatOnRoute(s3, MovementEvents(n, TimeInterval, draws.movement), n, cancelled);
    ConcatOnRoute(s4, UnscheduledStopEvents(n, TimeInterval, draws.stops), n, cancelled);
    ConcatOnRoute(s5, TechnicalEvents(n, TimeInterval, draws.technical), n, cancelled);
    ConcatOnRoute(s6, ConditionalEvents(eff, dist, TimeInterval, draws.conditional), n, cancelled);
    ConcatOnRoute(life, pings, n, cancelled);
    ConcatOnRoute(life + pings, LaterEvents(eff, dist, draws), n, cancelled);
  }

  // ------------------------------------------------------------------ trip properties

  /** The output is ordered by timestamp, and events stamped with the same instant keep the
      order of the combined list. */
  lemma TripEventsOrdered(coords: seq<Coord>, dist: Distance, bearing: Bearing, draws: TripDraws)
    requires 0 < |coords| && draws.Valid() && InAtan2Range(bearing)
    ensures SortedByKey(TripEvents(coords, dist, bearing, draws))
    ensures forall k :: WithKey(TripEvents(coords, dist, bearing, draws), k) == WithKey(KeptEvents(coords, dist, bearing, draws), k)
  {
    var kept := KeptEvents(coords, dist, bearing, draws);
    SortByTimeSorted(kept);
    forall k
      ensures WithKey(SortByTime(kept), k) == WithKey(kept, k)
    {
      SortByTimeStable(kept, k);
    }
  }

  /** Cutting a list at an event's instant and sorting it keeps that event. */
  lemma CutKeepsLast(generated: seq<Event>, last: Event)
    ensures last in SortByTime(KeepUntil(generated + [last], Key(last)))
  {
    var kept := KeepUntil(generated + [last], Key(last));
    assert last in kept;
    assert last in multiset(SortByTime(kept));
  }

  /** Cutting a list at an event's instant and sorting it leaves nothing stamped later,
      and nothing the list and the event did not already satisfy. */
  lemma CutAndSort(generated: seq<Event>, last: Event, n: nat)
    requires Within(generated, n) && NoTripEnd(generated)
    requires last.at < n && !IsTripEnd(last.payload)
    ensures forall e <- SortByTime(KeepUntil(generated + [last], Key(last))) ::
              Key(e) <= Key(last) && e.at < n && !IsTripEnd(e.payload)
  {
    var all := generated + [last];
    var kept := KeepUntil(all, Key(last));
    forall e | e in SortByTime(kept)
      ensures Key(e) <= Key(last) && e.at < n && !IsTripEnd(e.payload)
    {
      assert e in multiset(kept);
      assert e in all;
    }
  }

  /** The events generated on a cancelled route, cut at an event on its last sample and
      sorted, lie on the route, are stamped no later than that event and never end the trip. */
  lemma CutGeneratedAt(eff: seq<Coord>, dist: Distance, bearing: Bearing, draws: TripDraws, last: Event)
    requires 0 < |eff| && draws.Valid() && InAtan2Range(bearing)
    requires last.at < |eff| && !IsTripEnd(last.payload)
    ensures forall e <- SortByTime(KeepUntil(GeneratedEvents(eff, dist, bearing, draws, true) + [last], Key(last))) ::
              Key(e) <= Key(last) && e.at < |eff| && !IsTripEnd(e.payload)
  {
    GeneratedOnRoute(eff, dist, bearing, draws, true);
    CutAndSort(GeneratedEvents(eff, dist, bearing, draws, true), last, |eff|);
  }

  /** The cancellation event sits on the last sample of the effective route and does not
      end the trip. */
  lemma CancellationOnLastSample(coords: seq<Coord>, dist: Distance, draws: TripDraws)
    requires 0 < |coords| && draws.Valid()
    requires Cancel(coords, dist, draws).Some?
    ensures var c := Cancel(coords, dist, draws).value;
            c.event.at == |EffectiveRoute(coords, Some(c))| - 1 && !IsTripEnd(c.event.payload)
  {
  }

  /** A cancelled trip's stream: the generated events and the cancellation, cut at its
      instant and sorted. */
  lemma CancelledTripEvents(coords: seq<Coord>, dist: Distance, bearing: Bearing, draws: TripDraws)
    requires 0 < |coords| && draws.Valid() && InAtan2Range(bearing)
    requires Cancel(coords, dist, draws).Some?
    ensures var c := Cancel(coords, dist, draws).value;
            var generated := GeneratedEvents(EffectiveRoute(coords, Some(c)), dist, bearing, draws, true);
            TripEvents(coords, dist, bearing, draws) == SortByTime(KeepUntil(generated + [c.event], Key(c.event)))
  {
  }

  /** A cancelled trip's stream contains the cancellation. */
  lemma CancelledTripReportsCancellation(coords: seq<Coord>, dist: Distance, bearing: Bearing, draws: TripDraws)
    requires 0 < |coords| && draws.Valid() && InAtan2Range(bearing)
    requires Cancel(coords, dist, draws).Some?
    ensures Cancel(coords, dist, draws).value.event in TripEvents(coords, dist, bearing, draws)
  {
    var c := Cancel(coords, dist, draws).value;
    CancelledTripEvents(coords, dist, bearing, draws);
    CutKeepsLast(GeneratedEvents(EffectiveRoute(coords, Some(c)), dist, bearing, draws, true), c.event);
  }

  /** A cancelled trip ends at the cancellation: nothing is stamped later, nothing lies past
      the cancellation sample, and the trip neither completes nor stops tracking. */
  lemma CancelledTrip(coords: seq<Coord>, dist: Distance, bearing: Bearing, draws: TripDraws)
    requires 0 < |coords| && draws.Valid() && InAtan2Range(bearing)
    requires Cancel(coords, dist, draws).Some?
    ensures var c := Cancel(coords, dist, draws).value;
            forall e <- TripEvents(coords, dist, bearing, draws) ::
              Key(e) <= Key(c.event) && e.at <= c.cancellationIndex && !IsTripEnd(e.payload)
  {
    var c := Cancel(coords, dist, draws).value;
    var eff := EffectiveRoute(coords, Some(c));
    var cut := SortByTime(KeepUntil(GeneratedEvents(eff, dist, bearing, draws, true) + [c.event], Key(c.event)));
    CancellationOnLastSample(coords, dist, draws);
    CancelledTripEvents(coords, dist, bearing, draws);
    CutGeneratedAt(eff, dist, bearing, draws, c.event);
    forall e | e in TripEvents(coords, dist, bearing, draws)
      ensures Key(e) <= Key(c.event) && e.at <= c.cancellationIndex && !IsTripEnd(e.payload)
    {
      assert e in cut;
    }
  }

  /** A cancelled trip keeps the ping of every sample up to the cancellation. */
  lemma CancelledTripKeepsPings(coords: seq<Coord>, dist: Distance, bearing: Bearing, draws: TripDraws, j: nat)
    requires 0 < |coords| && draws.Valid() && InAtan2Range(bearing)
    requires Cancel(coords, dist, draws).Some? && j <= Cancel(coords, dist, draws).value.cancellationIndex
    ensures LocationPingAt(EffectiveRoute(coords, Cancel(coords, dist, draws)), dist, bearing, draws.location, j)
            in TripEvents(coords, dist, bearing, draws)
  {
    var c := Cancel(coords, dist, draws).value;
    var eff := EffectiveRoute(coords, Some(c));
    var ping := LocationPingAt(eff, dist, bearing, draws.location, j);
    var pings := LocationEvents(eff, dist, bearing, draws.location);
    assert pings[j] == ping;
    var generated := GeneratedEvents(eff, dist, bearing, draws, true);
    assert ping in generated;
    var all := generated + [c.event];
    assert all == CombinedEvents(coords, dist, bearing, draws);
    assert SampleOffset(j, PingInterval) <= SampleOffset(c.cancellationIndex, TimeInterval);
    TimestampMonotone(BaseTime, ping.offset, c.event.offset);
    var kept := KeepUntil(all, Key(c.event));
    assert ping in kept;
    assert ping in multiset(SortByTime(kept));
  }

  /** An uncancelled trip's stream is the generated events of the whole route, sorted. */
  lemma CompletedTripEvents(coords: seq<Coord>, dist: Distance, bearing: Bearing, draws: TripDraws)
    requires 0 < |coords| && draws.Valid() && InAtan2Range(bearing)
    requires Cancel(coords, dist, draws).None?
    ensures TripEvents(coords, dist, bearing, draws) == SortByTime(GeneratedEvents(coords, dist, bearing, draws, false))
  {
    assert KeptEvents(coords, dist, bearing, draws) == GeneratedEvents(coords, dist, bearing, draws, false);
  }

  /** The lifecycle events lead the generated events. */
  lemma LifecycleGenerated(eff: seq<Coord>, dist: Distance, bearing: Bearing, draws: TripDraws, cancelled: bool)
    requires 0 < |eff| && draws.Valid() && InAtan2Range(bearing)
    ensures forall e <- LifecycleEvents(eff, dist, cancelled) :: e in GeneratedEvents(eff, dist, bearing, draws, cancelled)
  {
    var life := LifecycleEvents(eff, dist, cancelled);
    var generated := GeneratedEvents(eff, dist, bearing, draws, cancelled);
    forall e | e in life
      ensures e in generated
    {
      assert e in generated[..|life| + |eff|];
    }
  }

  /** A trip that is not cancelled loses no event: its stream is a reordering of the
      generated events of the whole route. */
  lemma CompletedTrip(coords: seq<Coord>, dist: Distance, bearing: Bearing, draws: TripDraws)
    requires 0 < |coords| && draws.Valid() && InAtan2Range(bearing)
    requires Cancel(coords, dist, draws).None?
    ensures multiset(TripEvents(coords, dist, bearing, draws)) == multiset(GeneratedEvents(coords, dist, bearing, draws, false))
  {
    assert KeptEvents(coords, dist, bearing, draws) == GeneratedEvents(coords, dist, bearing, draws, false);
  }

  /** A trip that is not cancelled completes: the trip-completed and tracking-stopped
      events of the whole route are in the output. */
  lemma CompletedTripFinishes(coords: seq<Coord>, dist: Distance, bearing: Bearing, draws: TripDraws)
    requires 0 < |coords| && draws.Valid() && InAtan2Range(bearing)
    requires Cancel(coords, dist, draws).None?
    ensures var life := LifecycleEvents(coords, dist, false);
            var out := TripEvents(coords, dist, bearing, draws);
            life[2].payload.TripCompleted? && life[3].payload.TrackingStopped? && life[2] in out && life[3] in out
  {
    LifecycleShape(coords, dist);
    LifecycleSurvives(coords, dist, bearing, draws);
  }

  /** Without cancellation every lifecycle event of the whole route reaches the output. */
  lemma LifecycleSurvives(coords: seq<Coord>, dist: Distance, bearing: Bearing, draws: TripDraws)
    requires 0 < |coords| && draws.Valid() && InAtan2Range(bearing)
    requires Cancel(coords, dist, draws).None?
    ensures forall e <- LifecycleEvents(coords, dist, false) :: e in TripEvents(coords, dist, bearing, draws)
  {
    var generated := GeneratedEvents(coords, dist, bearing, draws, false);
    LifecycleGenerated(coords, dist, bearing, draws, false);
    assert KeptEvents(coords, dist, bearing, draws) == generated;
    forall e | e in LifecycleEvents(coords, dist, false)
      ensures e in SortByTime(generated)
    {
      SortKeeps(generated, e);
    }
  }

  /** With draws 0 and 0 the trip is cancelled at the first sample. The generators then see
      a one-sample route, on which the source's fuel and telemetry loops step by
      floor(1 / 8) = floor(1 / 12) = 0 and never end. */
  lemma EarlyCancellationStallsCheckpointLoops(coords: seq<Coord>, dist: Distance, draws: TripDraws)
    requires 0 < |coords| && draws.Valid()
    requires draws.cancel(0) == 0.0 && draws.cancel(1) == 0.0
    ensures Cancel(coords, dist, draws).Some? && Cancel(coords, dist, draws).value.cancellationIndex == 0
    ensures |EffectiveRoute(coords, Cancel(coords, dist, draws))| == 1
    ensures FuelCheckInterval(1) == 0 && TelemetryInterval(1) == 0
    ensures forall k: nat :: IndexAfter(FuelCheckInterval(1), FuelCheckInterval(1), k) < 1
    ensures forall k: nat :: IndexAfter(TelemetryInterval(1), TelemetryInterval(1), k) < 1
  {
    FuelLoopNeverEnds(1);
    TelemetryLoopNeverEnds(1);
  }

  // ------------------------------------------------------------------ the composer

  /** Generates a trip's event stream: the cancellation is decided first, every family is
      generated on the effective route, the lists are combined, cut at the cancellation
      instant when there is one, and ordered by timestamp. */
  method GenerateTripEvents(coords: seq<Coord>, dist: Distance, bearing: Bearing, draws: TripDraws)
    returns (events: seq<Event>)
    requires 0 < |coords| && draws.Valid() && InAtan2Range(bearing)
    ensures events == TripEvents(coords, dist, bearing, draws)
    ensures SortedByKey(events)
    ensures multiset(events) == multiset(KeptEvents(coords, dist, bearing, draws))
  {
    var cancellation := TripCancellation(coords, dist, TimeInterval, draws.cancel);
    var effective := coords;
    var cancelled := false;
    var cancellationEvents: seq<Event> := [];
    if cancellation.Some? {
      effective := coords[..cancellation.value.cancellationIndex + 1];
      cancelled := true;
      cancellationEvents := [cancellation.value.event];
    }
    assert effective == EffectiveRoute(coords, cancellation);

    var locationEvents := GenerateLocationEvents(effective, dist, bearing, draws.location);
    var lifecycleEvents := LifecycleEvents(effective, dist, cancelled);
    var distanceMilestones := GenerateDistanceMilestoneEvents(effective, dist, TimeInterval);
    var stopEvents := GenerateScheduledStopEvents(effective, dist, TimeInterval);
    var movementEvents := GenerateMovementEvents(effective, TimeInterval, draws.movement);
    var unscheduledStopEvents, unscheduledStops := GenerateUnscheduledStopEvents(effective, TimeInterval, draws.stops);
    var technicalEvents := GenerateTechnicalEvents(effective, TimeInterval, draws.technical);
    var conditionalEvents := GenerateConditionalEvents(effective, dist, TimeInterval, draws.conditional);
    var timeMilestones := GenerateTimeMilestoneEvents(effective, dist, TimeInterval, unscheduledStops);

    var laterEvents := distanceMilestones + timeMilestones + stopEvents + movementEvents +
                       unscheduledStopEvents + technicalEvents + conditionalEvents;
    assert laterEvents == LaterEvents(effective, dist, draws);
    var allEvents := lifecycleEvents + locationEvents + laterEvents;
    assert allEvents == GeneratedEvents(effective, dist, bearing, draws, cancelled);
    allEvents := allEvents + cancellationEvents;
    assert allEvents == CombinedEvents(coords, dist, bearing, draws);
    if cancelled {
      allEvents := KeepUntil(allEvents, Key(cancellation.value.event));
    }
    events := SortByTime(allEvents);
    TripEventsOrdered(coords, dist, bearing, draws);
  }
}
