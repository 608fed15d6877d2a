/** The event record shared by every generator, and the timeline clock. */
module Events {
  import opened Numeric

  datatype Option<T> = None | Some(value: T)

  function Min(a: int, b: int): int { if a <= b then a else b }
  function MinReal(a: real, b: real): real { if a <= b then a else b }
  function MaxReal(a: real, b: real): real { if a >= b then a else b }
  function Abs(x: real): real { if x < 0.0 then -x else x }

  /** A route sample: longitude and latitude in decimal degrees. */
  datatype Coord = Coord(lng: real, lat: real)

  datatype RoadType = CityStreet | Arterial | Highway

  datatype SignalQuality = Excellent | Good | Fair | Poor

  /** The event type tag together with the type-specific fields the model keeps.
      Indices such as `reason` or `errorType` point into the source's fixed vocabularies. */
  datatype Payload =
    | TrackingStarted
    | TripStarted
    | TripCompleted(tripMinutes: int, totalDistanceKm: real)
    | TrackingStopped(totalDistanceKm: real)
    | LocationPing(accuracyMeters: real, speedKmh: real, headingDegrees: real, moving: bool, quality: SignalQuality)
    | DistanceMilestone(milestoneKm: int, distanceKm: real, elapsedMinutes: real, stopsCount: nat)
    | TimeMilestone(milestoneHours: int, distanceKm: real, stopsCount: nat, movingMinutes: real)
    | StopArrival(stopNumber: nat, distanceKm: real)
    | StopDeparture(stopNumber: nat, stopMinutes: nat)
    | VehicleStopped(placeType: nat)
    | UnscheduledStop(stopMinutes: nat, reason: nat)
    | VehicleMoving(stopMinutes: nat)
    | SpeedChanged(previousKmh: real, currentKmh: real, changeKmh: real, road: RoadType)
    | SpeedViolation(currentKmh: real, limitKmh: real, overspeedKmh: real)
    | SignalDegraded(accuracyPreviousMeters: real, accuracyCurrentMeters: real, quality: SignalQuality)
    | SignalLost
    | SignalRecovered(lostSeconds: real)
    | DeviceBatteryLow(batteryPercent: int)
    | DeviceOverheating
    | DeviceError(errorType: nat, severity: nat)
    | FuelLevelLow(levelPercent: real)
    | RefuelingStarted(levelPercent: real)
    | RefuelingCompleted(refuelMinutes: real, levelBeforePercent: real, levelAfterPercent: real)
    | TripPaused(distanceKm: real, elapsedMinutes: real)
    | TripResumed(pauseMinutes: real)
    | VehicleTelemetry(distanceKm: real, fuelLevelPercent: real)
    | TripCancelled(reason: nat, distanceCompletedKm: real, elapsedMinutes: real)

  /** An event: its offset in seconds from the trip's base time, the index of the
      route sample it is located at, and its payload. */
  datatype Event = Event(offset: real, at: nat, payload: Payload)

  /** The bookkeeping record of one unscheduled stop (offsets in seconds). */
  datatype StopInterval = StopInterval(startSeconds: nat, endSeconds: nat, durationMinutes: nat)

  /** Appending in two steps is appending once. */
  lemma AppendAssoc(a: seq<Event>, b: seq<Event>, c: seq<Event>)
    ensures a + (b + c) == (a + b) + c
  {
  }

  /** The offset of route sample i, index * interval, in whole seconds. */
  function SampleSecond(i: nat, interval: nat): nat {
    i * interval
  }

  /** index * (interval / 60): the minutes elapsed at sample idx. */
  function ElapsedMinutes(idx: nat, interval: nat): (m: real)
    ensures m * 60.0 == SampleOffset(idx, interval)
  {
    assert SampleOffset(idx, interval) == idx as real * interval as real;
    idx as real * (interval as real / 60.0)
  }

  /** The same offset as a number of seconds: a whole number of seconds, never before the
      base time. */
  function SampleOffset(i: nat, interval: nat): (s: real)
    ensures 0.0 <= s && s.Floor as real == s
  {
    SampleSecond(i, interval) as real
  }

  /** Samples are evenly spaced: a later sample is never earlier, and with a positive
      interval it is at least one interval later. */
  lemma SampleOffsetMonotone(i: nat, j: nat, interval: nat)
    requires i <= j
    ensures SampleOffset(i, interval) <= SampleOffset(j, interval)
    ensures i < j ==> SampleOffset(i, interval) + interval as real <= SampleOffset(j, interval)
  {
    MulIntLe(i, j, interval);
    if i < j {
      MulIntLe(i + 1, j, interval);
      assert (i + 1) * interval == i * interval + interval;
    }
  }

  /** Conversion of a number to an integer toward zero, as a Date does with its time value:
      the integer nearest x on the side of zero, less than one away. */
  function Trunc(x: real): (t: int)
    ensures 0.0 <= x ==> t as real <= x < t as real + 1.0
    ensures x < 0.0 ==> t as real - 1.0 < x <= t as real
  {
    if x >= 0.0 then x.Floor else -((-x).Floor)
  }

  /** new Date(base + offsetSeconds * 1000): milliseconds since the epoch, the fraction of
      a millisecond dropped. */
  function Timestamp(base: int, offsetSeconds: real): (t: int)
    ensures var ms := base as real + offsetSeconds * 1000.0;
            0.0 <= ms ==> t as real <= ms < t as real + 1.0
    ensures offsetSeconds.Floor as real == offsetSeconds ==> t == base + 1000 * offsetSeconds.Floor
  {
    Trunc(base as real + offsetSeconds * 1000.0)
  }

  lemma TruncMonotone(x: real, y: real)
    requires x <= y
    ensures Trunc(x) <= Trunc(y)
  {
  }

  /** Timestamp order follows offset order. */
  lemma TimestampMonotone(base: int, a: real, b: real)
    requires a <= b
    ensures Timestamp(base, a) <= Timestamp(base, b)
  {
    TruncMonotone(base as real + a * 1000.0, base as real + b * 1000.0);
  }

  /** Offsets at least a millisecond apart give strictly ordered timestamps after the epoch. */
  lemma TimestampStrict(base: int, a: real, b: real)
    requires 0.0 <= base as real + a * 1000.0
    requires a + 0.001 <= b
    ensures Timestamp(base, a) < Timestamp(base, b)
  {
  }
}
