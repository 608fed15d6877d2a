/** generateTripCancellationEvent of data-generator/random-event-generators.js:
    a rare cancellation early in the trip. */
module Cancellation {
  import opened Draws
  import opened Events
  import opened Geometry

  /** A cancellation and the sample the trip stops at. */
  datatype CancellationOutcome = CancellationOutcome(event: Event, cancellationIndex: nat)

  /** The trip is cancelled unless the first draw exceeds this. */
  const CancellationChance: real := 0.05

  /** Math.floor(Math.random() * n * 0.2): a sample in the first 20% of the route. */
  function EarlyIndex(n: nat, r: real): (idx: nat)
    requires 0 < n && IsUnit(r)
    ensures (idx as real) < n as real * 0.2 && idx < n
  {
    ScaleBelow(r, n as real);
    var k := (r * n as real * 0.2).Floor;
    assert (k as real) < n as real * 0.2 <= n as real;
    k
  }

  /** generateTripCancellationEvent. Draw 0 decides whether the trip is cancelled,
      draw 1 picks the sample within the first 20% of the route, draw 2 the reason. */
  function TripCancellation(coords: seq<Coord>, dist: Distance, timeInterval: nat, rs: Stream)
    : (r: Option<CancellationOutcome>)
    requires |coords| > 0 && IsStream(rs)
    ensures r.None? <==> rs(0) > CancellationChance
    ensures r.Some? ==> r.value.cancellationIndex < |coords|
    ensures r.Some? ==> (r.value.cancellationIndex as real) < |coords| as real * 0.2
    ensures r.Some? ==> r.value.event.at == r.value.cancellationIndex
    ensures r.Some? ==> r.value.event.offset == SampleOffset(r.value.cancellationIndex, timeInterval)
    ensures r.Some? ==> r.value.event.payload.TripCancelled? && r.value.event.payload.reason < 5
    ensures r.Some? ==> r.value.event.payload.distanceCompletedKm == Cumulative(coords, dist)[r.value.cancellationIndex]
    ensures r.Some? ==> r.value.event.payload.elapsedMinutes * 60.0 == r.value.event.offset
  {
    if rs(0) > CancellationChance then None
    else
      var n := |coords|;
      var cancellationIndex := EarlyIndex(n, rs(1));
      var distances := Cumulative(coords, dist);
      var elapsedMinutes := ElapsedMinutes(cancellationIndex, timeInterval);
      Some(CancellationOutcome(
             Event(SampleOffset(cancellationIndex, timeInterval), cancellationIndex,
                   TripCancelled(Uniform(rs(2), 5), distances[cancellationIndex], elapsedMinutes)),
             cancellationIndex))
  }

  /** The distance completed at the cancellation never exceeds the length of the route. */
  lemma CancellationWithinRoute(coords: seq<Coord>, dist: Distance, timeInterval: nat, rs: Stream)
    requires |coords| > 0 && IsStream(rs) && NonNegative(dist)
    requires TripCancellation(coords, dist, timeInterval, rs).Some?
    ensures 0.0 <= TripCancellation(coords, dist, timeInterval, rs).value.event.payload.distanceCompletedKm
                <= Last(Cumulative(coords, dist))
  {
    var c := TripCancellation(coords, dist, timeInterval, rs).value;
    var idx := c.cancellationIndex;
    var d := Cumulative(coords, dist);
    assert c.event.payload.distanceCompletedKm == d[idx];
    CumulativeMonotone(coords, dist, 0, idx);
    CumulativeMonotone(coords, dist, idx, |coords| - 1);
    assert Last(d) == d[|coords| - 1];
  }
}
