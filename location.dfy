/** generateLocationEvents, calculateSpeed and calculateHeading of
    data-generator/generate-trip-events.js: one GPS ping per route sample. */
module Location {
  import opened Draws
  import opened Events
  import opened Geometry
  import opened Numeric

  /** Seconds between pings; generateLocationEvents fixes it. */
  const PingInterval: nat := 30
  /** calculateSpeed caps the speed at this many km/h. */
  const MaxSpeedKmh: real := 120.0

  /** The initial bearing from one sample to the next, in degrees, as atan2 returns it. */
  type Bearing = (Coord, Coord) -> real

  ghost predicate InAtan2Range(bearing: Bearing) {
    forall a: Coord, b: Coord :: -180.0 <= bearing(a, b) <= 180.0
  }

  /** calculateSpeed: the km/h needed to cover distanceKm in the interval, kept within
      [0, 120]. */
  function CalculateSpeed(distanceKm: real, timeIntervalSeconds: nat): (speed: real)
    requires 0 < timeIntervalSeconds
    ensures 0.0 <= speed <= MaxSpeedKmh
    ensures var raw := distanceKm / timeIntervalSeconds as real * 3600.0;
            (0.0 <= raw <= MaxSpeedKmh ==> speed == raw) &&
            (raw > MaxSpeedKmh ==> speed == MaxSpeedKmh) &&
            (raw < 0.0 ==> speed == 0.0)
  {
    var speed := distanceKm / timeIntervalSeconds as real * 3600.0;
    MaxReal(0.0, MinReal(speed, MaxSpeedKmh))
  }

  /** JavaScript's % on reals: the remainder takes the sign of the dividend. */
  function JsRem(x: real, m: real): (r: real)
    requires m != 0.0
    ensures 0.0 < m && 0.0 <= x ==> 0.0 <= r < m
    ensures 0.0 < m && x < 0.0 ==> -m < r <= 0.0
  {
    var t := Trunc(x / m);
    var r := x - t as real * m;
    if 0.0 < m && 0.0 <= x then
      DivScale(x, m);
      RemainderAbove(x, m, t as real);
      r
    else if 0.0 < m then
      RemainderBelow(x, m, t as real);
      r
    else
      r
  }

  /** calculateHeading: (bearing + 360) % 360. For an atan2 bearing the heading lies in
      [0, 360) and is the bearing itself, or the bearing plus a full turn when negative. */
  function CalculateHeading(bearing: real): (heading: real)
    requires -180.0 <= bearing <= 180.0
    ensures 0.0 <= heading < 360.0
    ensures bearing >= 0.0 ==> heading == bearing
    ensures bearing < 0.0 ==> heading == bearing + 360.0
  {
    var x := bearing + 360.0;
    assert 180.0 <= x <= 540.0;
    assert Trunc(x / 360.0) == if x < 360.0 then 0 else 1;
    JsRem(x, 360.0)
  }

  /** The quality label for an accuracy in metres, the last exceeded threshold winning: the
      four labels partition the accuracies into (-inf, 12], (12, 20], (20, 50], (50, inf). */
  function SignalQualityOf(accuracy: real): (q: SignalQuality)
    ensures q == Excellent <==> accuracy <= 12.0
    ensures q == Good <==> 12.0 < accuracy <= 20.0
    ensures q == Fair <==> 20.0 < accuracy <= 50.0
    ensures q == Poor <==> 50.0 < accuracy
  {
    var q := Excellent;
    var q := if accuracy > 12.0 then Good else q;
    var q := if accuracy > 20.0 then Fair else q;
    if accuracy > 50.0 then Poor else q
  }

  /** Ping i: at sample i, 30 s apart; the first ping is stationary with heading 0, later
      ones take speed and heading from the step from sample i - 1. Entry i of the stream
      sets the accuracy, 5 to 15 m. */
  function LocationPingAt(coords: seq<Coord>, dist: Distance, bearing: Bearing, rs: Stream, i: nat): (e: Event)
    requires i < |coords| && IsStream(rs) && InAtan2Range(bearing)
    ensures e.at == i && e.offset == SampleOffset(i, PingInterval)
    ensures e.payload.LocationPing?
    ensures 5.0 <= e.payload.accuracyMeters < 15.0
    ensures 0.0 <= e.payload.speedKmh <= MaxSpeedKmh
    ensures 0.0 <= e.payload.headingDegrees < 360.0
    ensures e.payload.moving <==> e.payload.speedKmh > 1.0
    ensures i == 0 ==> e.payload.speedKmh == 0.0 && e.payload.headingDegrees == 0.0
    ensures i > 0 ==> e.payload.speedKmh == CalculateSpeed(dist(coords[i - 1], coords[i]), PingInterval)
    ensures i > 0 ==> e.payload.headingDegrees == CalculateHeading(bearing(coords[i - 1], coords[i]))
    ensures e.payload.quality == SignalQualityOf(e.payload.accuracyMeters)
  {
    var speed := if i > 0 then CalculateSpeed(dist(coords[i - 1], coords[i]), PingInterval) else 0.0;
    var heading := if i > 0 then CalculateHeading(bearing(coords[i - 1], coords[i])) else 0.0;
    var accuracy := 5.0 + rs(i) * 10.0;
    Event(SampleOffset(i, PingInterval), i,
          LocationPing(accuracy, speed, heading, speed > 1.0, SignalQualityOf(accuracy)))
  }

  /** Pings only ever report excellent or good signal: their accuracy stays under 15 m,
      below the 20 m at which "fair" would begin. */
  lemma PingQualityIsExcellentOrGood(coords: seq<Coord>, dist: Distance, bearing: Bearing, rs: Stream, i: nat)
    requires i < |coords| && IsStream(rs) && InAtan2Range(bearing)
    ensures var q := LocationPingAt(coords, dist, bearing, rs, i).payload.quality;
            q == Excellent || q == Good
  {
  }

  function LocationEvents(coords: seq<Coord>, dist: Distance, bearing: Bearing, rs: Stream): (events: seq<Event>)
    requires IsStream(rs) && InAtan2Range(bearing)
    ensures |events| == |coords|
  {
    seq(|coords|, (i: int) requires 0 <= i < |coords| => LocationPingAt(coords, dist, bearing, rs, i))
  }

  /** One pass of the loop of generateLocationEvents. */
  method LocationPingStep(coords: seq<Coord>, dist: Distance, bearing: Bearing, rs: Stream, i: nat)
    returns (event: Event)
    requires i < |coords| && IsStream(rs) && InAtan2Range(bearing)
    ensures event == LocationPingAt(coords, dist, bearing, rs, i)
  {
    var speed := 0.0;
    var heading := 0.0;
    var moving := false;
    if i > 0 {
      speed := CalculateSpeed(dist(coords[i - 1], coords[i]), PingInterval);
      heading := CalculateHeading(bearing(coords[i - 1], coords[i]));
      moving := speed > 1.0;
    }
    var accuracy := 5.0 + rs(i) * 10.0;
    var signalQuality := Excellent;
    if accuracy > 12.0 { signalQuality := Good; }
    if accuracy > 20.0 { signalQuality := Fair; }
    if accuracy > 50.0 { signalQuality := Poor; }
    event := Event(SampleOffset(i, PingInterval), i, LocationPing(accuracy, speed, heading, moving, signalQuality));
  }

  /** generateLocationEvents: ping i is the i-th event. */
  method GenerateLocationEvents(coords: seq<Coord>, dist: Distance, bearing: Bearing, rs: Stream)
    returns (events: seq<Event>)
    requires IsStream(rs) && InAtan2Range(bearing)
    ensures events == LocationEvents(coords, dist, bearing, rs)
    ensures |events| == |coords|
    ensures forall i :: 0 <= i < |events| ==> events[i].at == i && events[i].payload.LocationPing?
  {
    events := [];
    var i := 0;
    while i < |coords|
      invariant i <= |coords| && |events| == i
      invariant forall j :: 0 <= j < i ==> events[j] == LocationPingAt(coords, dist, bearing, rs, j)
    {
      var event := LocationPingStep(coords, dist, bearing, rs, i);
      events := events + [event];
      i := i + 1;
    }
  }
}
