/** generateUnscheduledStopEvents of data-generator/random-event-generators.js:
    unplanned stops at random samples, and the stop intervals the time milestones consume. */
module UnscheduledStops {
  import opened Draws
  import opened Events

  /** 3 to 6 unscheduled stops. */
  function StopCount(rs: Stream): (c: nat)
    requires IsStream(rs)
    ensures 3 <= c <= 6
  {
    Count(3, 4, rs(0))
  }

  /** Stop i. Its draws are entries 1 + 4i (sample index), 2 + 4i (duration), 3 + 4i (reason)
      and 4 + 4i (place type) of the stream. The result is the three events of the stop, in
      order vehicle stopped, unscheduled stop, vehicle moving, and the recorded interval. */
  function UnscheduledStopAt(n: nat, interval: nat, rs: Stream, i: nat): (r: (seq<Event>, StopInterval))
    requires 0 < n && IsStream(rs)
    ensures |r.0| == 3
    ensures r.0[0].payload.VehicleStopped? && r.0[1].payload.UnscheduledStop? && r.0[2].payload.VehicleMoving?
    ensures r.0[0].at < n && r.0[1].at == r.0[0].at && r.0[2].at == r.0[0].at
    ensures r.1.startSeconds == SampleSecond(r.0[0].at, interval)
    ensures r.0[0].offset == r.1.startSeconds as real
    ensures r.0[1].offset == r.0[0].offset + 60.0
    ensures r.0[2].offset == r.1.endSeconds as real
    ensures 5 <= r.1.durationMinutes <= 29
    ensures r.1.endSeconds == r.1.startSeconds + r.1.durationMinutes * 60
    ensures r.0[1].payload.stopMinutes == r.1.durationMinutes && r.0[2].payload.stopMinutes == r.1.durationMinutes
    ensures r.0[1].payload.reason < 5 && r.0[0].payload.placeType < 5
  {
    var randomIndex := Uniform(rs(1 + 4 * i), n);
    var stopDuration: nat := Count(5, 25, rs(2 + 4 * i));
    var arrivalTime := SampleSecond(randomIndex, interval);
    var departureTime := arrivalTime + stopDuration * 60;
    var reason := Uniform(rs(3 + 4 * i), 5);
    var placeType := Uniform(rs(4 + 4 * i), 5);
    ([Event(arrivalTime as real, randomIndex, VehicleStopped(placeType)),
      Event((arrivalTime + 60) as real, randomIndex, UnscheduledStop(stopDuration, reason)),
      Event(departureTime as real, randomIndex, VehicleMoving(stopDuration))],
     StopInterval(arrivalTime, departureTime, stopDuration))
  }

  /** The events of all stops, three per stop, stop after stop. */
  function UnscheduledStopEvents(n: nat, interval: nat, rs: Stream): seq<Event>
    requires 0 < n && IsStream(rs)
  {
    seq(3 * StopCount(rs), (j: int) requires 0 <= j => UnscheduledStopAt(n, interval, rs, j / 3).0[j % 3])
  }

  /** The recorded stop intervals, one per stop. */
  function StopIntervals(n: nat, interval: nat, rs: Stream): seq<StopInterval>
    requires 0 < n && IsStream(rs)
  {
    seq(StopCount(rs), (i: int) requires 0 <= i => UnscheduledStopAt(n, interval, rs, i).1)
  }

  /** Every recorded interval is one the events announce: for stop i, the vehicle stops at
      its start, and moves again at its end after the recorded number of minutes. */
  lemma {:induction false} IntervalsMatchEvents(n: nat, interval: nat, rs: Stream, i: nat)
    requires 0 < n && IsStream(rs) && i < StopCount(rs)
    ensures var events := UnscheduledStopEvents(n, interval, rs);
            var stop := StopIntervals(n, interval, rs)[i];
            |events| == 3 * |StopIntervals(n, interval, rs)| &&
            events[3 * i].payload.VehicleStopped? && events[3 * i].offset == stop.startSeconds as real &&
            events[3 * i + 2].payload == VehicleMoving(stop.durationMinutes) &&
            events[3 * i + 2].offset == stop.endSeconds as real &&
            stop.endSeconds - stop.startSeconds == 60 * stop.durationMinutes
  {
    var r := UnscheduledStopAt(n, interval, rs, i);
    assert (3 * i) / 3 == i && (3 * i) % 3 == 0;
    assert (3 * i + 2) / 3 == i && (3 * i + 2) % 3 == 2;
  }

  /** A sequence made of the stops' three-event blocks, in order, is the event list. */
  lemma BlocksMakeStopEvents(n: nat, interval: nat, rs: Stream, events: seq<Event>)
    requires 0 < n && IsStream(rs) && |events| == 3 * StopCount(rs)
    requires forall k :: 0 <= k < StopCount(rs) ==> events[3 * k..3 * k + 3] == UnscheduledStopAt(n, interval, rs, k).0
    ensures events == UnscheduledStopEvents(n, interval, rs)
  {
    forall j | 0 <= j < |events|
      ensures events[j] == UnscheduledStopAt(n, interval, rs, j / 3).0[j % 3]
    {
      var k := j / 3;
      assert events[3 * k..3 * k + 3][j % 3] == events[j];
    }
  }

  /** Appending the blocks of stop i keeps the blocks of the earlier stops in place. */
  lemma AppendStopBlock(n: nat, interval: nat, rs: Stream, events: seq<Event>, i: nat)
    requires 0 < n && IsStream(rs) && |events| == 3 * i
    requires forall k :: 0 <= k < i ==> events[3 * k..3 * k + 3] == UnscheduledStopAt(n, interval, rs, k).0
    ensures forall k :: 0 <= k < i + 1 ==>
              (events + UnscheduledStopAt(n, interval, rs, i).0)[3 * k..3 * k + 3] == UnscheduledStopAt(n, interval, rs, k).0
  {
    var after := events + UnscheduledStopAt(n, interval, rs, i).0;
    forall k | 0 <= k < i + 1
      ensures after[3 * k..3 * k + 3] == UnscheduledStopAt(n, interval, rs, k).0
    {
      if k < i {
        assert after[3 * k..3 * k + 3] == events[3 * k..3 * k + 3];
      } else {
        assert after[3 * k..3 * k + 3] == UnscheduledStopAt(n, interval, rs, i).0;
      }
    }
  }

  /** A sequence holding the intervals of the stops, in order, is the interval list. */
  lemma RecordsMakeStopIntervals(n: nat, interval: nat, rs: Stream, records: seq<StopInterval>)
    requires 0 < n && IsStream(rs) && |records| == StopCount(rs)
    requires forall k :: 0 <= k < StopCount(rs) ==> records[k] == UnscheduledStopAt(n, interval, rs, k).1
    ensures records == StopIntervals(n, interval, rs)
  {
  }

  /** Every event of the family sits on a route sample and is one of the three stop kinds. */
  lemma StopEventKinds(n: nat, interval: nat, rs: Stream)
    requires 0 < n && IsStream(rs)
    ensures forall e <- UnscheduledStopEvents(n, interval, rs) :: e.at < n &&
              (e.payload.VehicleStopped? || e.payload.UnscheduledStop? || e.payload.VehicleMoving?)
  {
    var events := UnscheduledStopEvents(n, interval, rs);
    forall e | e in events
      ensures e.at < n && (e.payload.VehicleStopped? || e.payload.UnscheduledStop? || e.payload.VehicleMoving?)
    {
      var j :| 0 <= j < |events| && events[j] == e;
      var r := UnscheduledStopAt(n, interval, rs, j / 3).0;
      assert e == r[j % 3];
      assert j % 3 == 0 || j % 3 == 1 || j % 3 == 2;
    }
  }

  /** One pass of the loop of generateUnscheduledStopEvents. */
  method UnscheduledStopStep(n: nat, timeInterval: nat, rs: Stream, i: nat)
    returns (stop: seq<Event>, record: StopInterval)
    requires 0 < n && IsStream(rs)
    ensures (stop, record) == UnscheduledStopAt(n, timeInterval, rs, i)
  {
    var randomIndex := Uniform(rs(1 + 4 * i), n);
    var stopDuration: nat := Count(5, 25, rs(2 + 4 * i));
    var arrivalTime := SampleSecond(randomIndex, timeInterval);
    var departureTime := arrivalTime + stopDuration * 60;
    var reason := Uniform(rs(3 + 4 * i), 5);
    var placeType := Uniform(rs(4 + 4 * i), 5);
    stop := [Event(arrivalTime as real, randomIndex, VehicleStopped(placeType)),
             Event((arrivalTime + 60) as real, randomIndex, UnscheduledStop(stopDuration, reason)),
             Event(departureTime as real, randomIndex, VehicleMoving(stopDuration))];
    record := StopInterval(arrivalTime, departureTime, stopDuration);
  }

  /** generateUnscheduledStopEvents. */
  method GenerateUnscheduledStopEvents(coords: seq<Coord>, timeInterval: nat, rs: Stream)
    returns (events: seq<Event>, stopEvents: seq<StopInterval>)
    requires |coords| > 0 && IsStream(rs)
    ensures events == UnscheduledStopEvents(|coords|, timeInterval, rs)
    ensures stopEvents == StopIntervals(|coords|, timeInterval, rs)
    ensures 9 <= |events| <= 18 && |events| == 3 * |stopEvents|
    ensures forall e <- events :: e.at < |coords| &&
              (e.payload.VehicleStopped? || e.payload.UnscheduledStop? || e.payload.VehicleMoving?)
  {
    var n := |coords|;
    events := [];
    stopEvents := [];
    var stopCount := Count(3, 4, rs(0));
    var i := 0;
    while i < stopCount
      invariant i <= stopCount
      invariant |events| == 3 * i && |stopEvents| == i
      invariant forall k :: 0 <= k < i ==> events[3 * k..3 * k + 3] == UnscheduledStopAt(n, timeInterval, rs, k).0
      invariant forall k :: 0 <= k < i ==> stopEvents[k] == UnscheduledStopAt(n, timeInterval, rs, k).1
    {
      var stop, record := UnscheduledStopStep(n, timeInterval, rs, i);
      AppendStopBlock(n, timeInterval, rs, events, i);
      events := events + stop;
      stopEvents := stopEvents + [record];
      i := i + 1;
    }
    BlocksMakeStopEvents(n, timeInterval, rs, events);
    RecordsMakeStopIntervals(n, timeInterval, rs, stopEvents);
    StopEventKinds(n, timeInterval, rs);
  }
}
