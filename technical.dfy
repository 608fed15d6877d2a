/** generateTechnicalEvents of data-generator/random-event-generators.js:
    GPS signal degradation, signal loss and recovery, battery, overheating and device errors. */
module Technical {
  import opened Draws
  import opened Events
  import opened Numeric

  /** The draws of the five families. Entry 0 of each stream is the count (the overheating
      stream has no count: its entry 0 places the single event). */
  datatype TechnicalDraws = TechnicalDraws(degraded: Stream, signal: Stream, battery: Stream,
                                           overheating: Stream, errors: Stream) {
    ghost predicate Valid() {
      IsStream(degraded) && IsStream(signal) && IsStream(battery) && IsStream(overheating) && IsStream(errors)
    }
  }

  /** Math.floor(x / interval) for an offset x: the sample whose slot contains x, which
      starts at or before x and ends after it. */
  function SlotOf(x: real, interval: nat): (f: nat)
    requires 0.0 <= x && 0 < interval
    ensures (f * interval) as real <= x < ((f + 1) * interval) as real
  {
    var c := interval as real;
    DivScale(x, c);
    var q := x / c;
    var f: nat := q.Floor;
    RemainderAbove(x, c, f as real);
    CastMul(f, interval);
    CastMul(f + 1, interval);
    assert (f + 1) as real * c == f as real * c + c;
    f
  }

  /** An offset at least as late as sample idx never lies in an earlier slot. */
  lemma {:induction false} SlotAtLeast(idx: nat, interval: nat, extra: real)
    requires 0 < interval && 0.0 <= extra
    ensures idx <= SlotOf(SampleOffset(idx, interval) + extra, interval)
  {
    var x := SampleOffset(idx, interval) + extra;
    var f := SlotOf(x, interval);
    assert (idx * interval) as real <= x;
    if f + 1 <= idx {
      MulIntLe(f + 1, idx, interval);
      assert false;
    }
  }

  /** Math.floor(n * lo + r * n * width), for a draw r, lies at or after floor(n * lo) and
      before n * (lo + width). */
  lemma {:induction false} ScaledIndex(n: nat, r: real, lo: real, width: real)
    requires IsUnit(r) && 0 < n && 0.0 < width
    ensures var k := (n as real * lo + r * n as real * width).Floor;
            (n as real * lo).Floor <= k && k as real < n as real * lo + n as real * width
  {
    assert 0.0 < n as real;
    ScaleBelow(r, n as real);
    var rn := r * n as real;
    assert 0.0 <= rn < n as real;
    MulLe(0.0, rn, width);
    MulLt(rn, n as real, width);
  }

  /** Math.floor(n * lo + r * n * width): a sample drawn from the band of the route that
      starts at fraction lo and spans fraction width. */
  function ScaledSample(n: nat, r: real, lo: real, width: real): (k: nat)
    requires IsUnit(r) && 0 < n && 0.0 <= lo && 0.0 < width
    ensures (n as real * lo).Floor <= k && (k as real) < n as real * lo + n as real * width
  {
    ScaledIndex(n, r, lo, width);
    MulLeNonNeg(0.0, lo, n as real);
    (n as real * lo + r * n as real * width).Floor
  }

  /** Signal degraded i: accuracy drops from 5 to 20 m to 50 to 250 m. */
  function SignalDegradedAt(n: nat, interval: nat, rs: Stream, i: nat): (e: Event)
    requires 0 < n && IsStream(rs)
    ensures e.at < n && e.offset == SampleOffset(e.at, interval)
    ensures e.payload.SignalDegraded?
    ensures 5.0 <= e.payload.accuracyPreviousMeters < 20.0
    ensures 50.0 <= e.payload.accuracyCurrentMeters < 250.0
    ensures e.payload.quality == Poor || e.payload.quality == Fair
  {
    var randomIndex := Uniform(rs(1 + 4 * i), n);
    var accuracyPrevious := 5.0 + rs(2 + 4 * i) * 15.0;
    var accuracyCurrent := 50.0 + rs(3 + 4 * i) * 200.0;
    var quality := [Poor, Fair][Uniform(rs(4 + 4 * i), 2)];
    Event(SampleOffset(randomIndex, interval), randomIndex,
          SignalDegraded(accuracyPrevious, accuracyCurrent, quality))
  }

  /** Signal loss i: the lost event at a random sample and the recovered event 30 to 150 s
      later, on the sample whose slot holds the recovery time (the last sample if the
      recovery falls after the route ends). */
  function SignalPairAt(n: nat, interval: nat, rs: Stream, i: nat): (p: seq<Event>)
    requires 0 < n && IsStream(rs)
    ensures |p| == 2 && p[0].payload == SignalLost && p[1].payload.SignalRecovered?
    ensures p[0].at < n && p[1].at < n
    ensures p[0].offset == SampleOffset(p[0].at, interval)
    ensures 30.0 <= p[1].offset - p[0].offset < 150.0
    ensures p[1].payload.lostSeconds == p[1].offset - p[0].offset
    ensures interval == 0 ==> p[1].at == n - 1
    ensures 0 < interval ==> p[1].at == Min(n - 1, SlotOf(p[1].offset, interval))
  {
    var randomIndex := Uniform(rs(1 + 2 * i), n);
    var lostTime := SampleOffset(randomIndex, interval);
    var lostDuration := 30.0 + rs(2 + 2 * i) * 120.0;
    var recoveredTime := lostTime + lostDuration;
    var recoveryIndex: nat := if interval == 0 then n - 1 else Min(n - 1, SlotOf(recoveredTime, interval));
    assert 0.0 <= lostDuration - 30.0 <= 120.0 by { ScaleBelow(rs(2 + 2 * i), 120.0); }
    [Event(lostTime, randomIndex, SignalLost),
     Event(recoveredTime, recoveryIndex, SignalRecovered(lostDuration))]
  }

  /** The recovered event never sits on a sample before the lost one, and unless it was
      clamped to the last sample its slot contains the recovery time. */
  lemma {:induction false} RecoveryFollowsLoss(n: nat, interval: nat, rs: Stream, i: nat)
    requires 0 < n && IsStream(rs) && 0 < interval
    ensures var p := SignalPairAt(n, interval, rs, i);
            p[0].at <= p[1].at &&
            (p[1].at < n - 1 ==> (p[1].at * interval) as real <= p[1].offset < ((p[1].at + 1) * interval) as real)
  {
    var p := SignalPairAt(n, interval, rs, i);
    SlotAtLeast(p[0].at, interval, p[1].offset - p[0].offset);
  }

  /** Battery low i: on a sample in the last 40% of the route, at 10 to 19 percent. */
  function BatteryLowAt(n: nat, interval: nat, rs: Stream, i: nat): (e: Event)
    requires 0 < n && IsStream(rs)
    ensures (n as real * 0.6).Floor <= e.at < n && e.offset == SampleOffset(e.at, interval)
    ensures e.payload.DeviceBatteryLow?
    ensures 10 <= e.payload.batteryPercent <= 19
  {
    var laterIndex := ScaledSample(n, rs(1 + 2 * i), 0.6, 0.4);
    Event(SampleOffset(laterIndex, interval), laterIndex, DeviceBatteryLow(Count(10, 10, rs(2 + 2 * i))))
  }

  /** The overheating event: on a sample between 40% and 70% of the route. */
  function OverheatingAt(n: nat, interval: nat, rs: Stream): (e: Event)
    requires 0 < n && IsStream(rs)
    ensures (n as real * 0.4).Floor <= e.at && (e.at as real) < n as real * 0.7 && e.at < n
    ensures e.offset == SampleOffset(e.at, interval)
    ensures e.payload == DeviceOverheating
  {
    var midIndex := ScaledSample(n, rs(0), 0.4, 0.3);
    Event(SampleOffset(midIndex, interval), midIndex, DeviceOverheating)
  }

  /** Device error i: one of four types and three severities. */
  function DeviceErrorAt(n: nat, interval: nat, rs: Stream, i: nat): (e: Event)
    requires 0 < n && IsStream(rs)
    ensures e.at < n && e.offset == SampleOffset(e.at, interval)
    ensures e.payload.DeviceError? && e.payload.errorType < 4 && e.payload.severity < 3
  {
    var randomIndex := Uniform(rs(1 + 3 * i), n);
    Event(SampleOffset(randomIndex, interval), randomIndex,
          DeviceError(Uniform(rs(2 + 3 * i), 4), Uniform(rs(3 + 3 * i), 3)))
  }

  /** 8 to 12 degradations. */
  function DegradedCount(rs: Stream): (c: nat)
    requires IsStream(rs)
    ensures 8 <= c <= 12
  {
    Count(8, 5, rs(0))
  }

  /** 2 or 3 loss and recovery pairs. */
  function SignalLossCount(rs: Stream): (c: nat)
    requires IsStream(rs)
    ensures 2 <= c <= 3
  {
    Count(2, 2, rs(0))
  }

  /** 1 or 2 battery warnings. */
  function BatteryLowCount(rs: Stream): (c: nat)
    requires IsStream(rs)
    ensures 1 <= c <= 2
  {
    Count(1, 2, rs(0))
  }

  /** 2 or 3 device errors. */
  function ErrorCount(rs: Stream): (c: nat)
    requires IsStream(rs)
    ensures 2 <= c <= 3
  {
    Count(2, 2, rs(0))
  }

  function DegradedEvents(n: nat, interval: nat, rs: Stream): (events: seq<Event>)
    requires 0 < n && IsStream(rs)
    ensures forall j :: 0 <= j < |events| ==> events[j].at < n && events[j].payload.SignalDegraded?
  {
    seq(DegradedCount(rs), (i: int) requires 0 <= i => SignalDegradedAt(n, interval, rs, i))
  }

  /** The loss pairs, flattened: lost, recovered, lost, recovered, ... */
  function SignalEvents(n: nat, interval: nat, rs: Stream): (events: seq<Event>)
    requires 0 < n && IsStream(rs)
    ensures forall j :: 0 <= j < |events| ==> events[j].at < n && (events[j].payload.SignalLost? || events[j].payload.SignalRecovered?)
  {
    assert forall j :: 0 <= j < 2 * SignalLossCount(rs) ==> j % 2 == 0 || j % 2 == 1;
    seq(2 * SignalLossCount(rs), (j: int) requires 0 <= j => SignalPairAt(n, interval, rs, j / 2)[j % 2])
  }

  function BatteryEvents(n: nat, interval: nat, rs: Stream): (events: seq<Event>)
    requires 0 < n && IsStream(rs)
    ensures forall j :: 0 <= j < |events| ==> events[j].at < n && events[j].payload.DeviceBatteryLow?
  {
    seq(BatteryLowCount(rs), (i: int) requires 0 <= i => BatteryLowAt(n, interval, rs, i))
  }

  function ErrorEvents(n: nat, interval: nat, rs: Stream): (events: seq<Event>)
    requires 0 < n && IsStream(rs)
    ensures forall j :: 0 <= j < |events| ==> events[j].at < n && events[j].payload.DeviceError?
  {
    seq(ErrorCount(rs), (i: int) requires 0 <= i => DeviceErrorAt(n, interval, rs, i))
  }

  /** All technical events, family after family in the order the source emits them. */
  function TechnicalEvents(n: nat, interval: nat, draws: TechnicalDraws): seq<Event>
    requires 0 < n && draws.Valid()
  {
    DegradedEvents(n, interval, draws.degraded) + SignalEvents(n, interval, draws.signal) +
    BatteryEvents(n, interval, draws.battery) + [OverheatingAt(n, interval, draws.overheating)] +
    ErrorEvents(n, interval, draws.errors)
  }

  predicate IsTechnical(p: Payload) {
    p.SignalDegraded? || p.SignalLost? || p.SignalRecovered? || p.DeviceBatteryLow? ||
    p.DeviceOverheating? || p.DeviceError?
  }

  /** Every event of `events` sits on one of the n route samples and is a technical event. */
  predicate TechnicalOn(events: seq<Event>, n: nat) {
    forall e <- events :: e.at < n && IsTechnical(e.payload)
  }

  lemma FamilyTechnical(events: seq<Event>, n: nat)
    requires forall j :: 0 <= j < |events| ==> events[j].at < n && IsTechnical(events[j].payload)
    ensures TechnicalOn(events, n)
  {
  }

  /** Every technical event sits on a route sample, and there are 16 to 24 of them. */
  lemma TechnicalEventsShape(n: nat, interval: nat, draws: TechnicalDraws)
    requires 0 < n && draws.Valid()
    ensures var events := TechnicalEvents(n, interval, draws);
            16 <= |events| <= 24 && forall e <- events :: e.at < n && IsTechnical(e.payload)
  {
    var degraded := DegradedEvents(n, interval, draws.degraded);
    var signal := SignalEvents(n, interval, draws.signal);
    var battery := BatteryEvents(n, interval, draws.battery);
    var overheating := [OverheatingAt(n, interval, draws.overheating)];
    var errors := ErrorEvents(n, interval, draws.errors);
    FamilyTechnical(degraded, n);
    FamilyTechnical(signal, n);
    FamilyTechnical(battery, n);
    FamilyTechnical(overheating, n);
    FamilyTechnical(errors, n);
    assert TechnicalOn(degraded + signal, n);
    assert TechnicalOn(degraded + signal + battery, n);
    assert TechnicalOn(degraded + signal + battery + overheating, n);
    assert TechnicalOn(degraded + signal + battery + overheating + errors, n);
  }

  method SignalDegradedLoop(n: nat, timeInterval: nat, rs: Stream) returns (events: seq<Event>)
    requires 0 < n && IsStream(rs)
    ensures events == DegradedEvents(n, timeInterval, rs)
  {
    events := [];
    var signalDegradedCount := Count(8, 5, rs(0));
    var i := 0;
    while i < signalDegradedCount
      invariant i <= signalDegradedCount && |events| == i
      invariant forall j :: 0 <= j < i ==> events[j] == SignalDegradedAt(n, timeInterval, rs, j)
    {
      var randomIndex := Uniform(rs(1 + 4 * i), n);
      var accuracyPrevious := 5.0 + rs(2 + 4 * i) * 15.0;
      var accuracyCurrent := 50.0 + rs(3 + 4 * i) * 200.0;
      var signalQualities := [Poor, Fair];
      var quality := signalQualities[Uniform(rs(4 + 4 * i), |signalQualities|)];
      events := events + [Event(SampleOffset(randomIndex, timeInterval), randomIndex,
                                SignalDegraded(accuracyPrevious, accuracyCurrent, quality))];
      i := i + 1;
    }
  }

  method SignalPairStep(n: nat, timeInterval: nat, rs: Stream, i: nat) returns (pair: seq<Event>)
    requires 0 < n && IsStream(rs)
    ensures pair == SignalPairAt(n, timeInterval, rs, i)
  {
    var randomIndex := Uniform(rs(1 + 2 * i), n);
    var lostTime := SampleOffset(randomIndex, timeInterval);
    var lostDuration := 30.0 + rs(2 + 2 * i) * 120.0;
    var recoveredTime := lostTime + lostDuration;
    var recoveryIndex: nat := n - 1;
    if timeInterval != 0 {
      recoveryIndex := Min(n - 1, SlotOf(recoveredTime, timeInterval));
    }
    pair := [Event(lostTime, randomIndex, SignalLost),
             Event(recoveredTime, recoveryIndex, SignalRecovered(lostDuration))];
  }

  lemma PairsMakeSignalEvents(n: nat, interval: nat, rs: Stream, events: seq<Event>)
    requires 0 < n && IsStream(rs) && |events| == 2 * SignalLossCount(rs)
    requires forall k :: 0 <= k < SignalLossCount(rs) ==> events[2 * k..2 * k + 2] == SignalPairAt(n, interval, rs, k)
    ensures events == SignalEvents(n, interval, rs)
  {
    forall j | 0 <= j < |events|
      ensures events[j] == SignalPairAt(n, interval, rs, j / 2)[j % 2]
    {
      var k := j / 2;
      assert events[2 * k..2 * k + 2][j % 2] == events[j];
    }
  }

  method SignalLossLoop(n: nat, timeInterval: nat, rs: Stream) returns (events: seq<Event>)
    requires 0 < n && IsStream(rs)
    ensures events == SignalEvents(n, timeInterval, rs)
  {
    events := [];
    var signalLostCount := Count(2, 2, rs(0));
    var i := 0;
    while i < signalLostCount
      invariant i <= signalLostCount && |events| == 2 * i
      invariant forall k :: 0 <= k < i ==> events[2 * k..2 * k + 2] == SignalPairAt(n, timeInterval, rs, k)
    {
      var pair := SignalPairStep(n, timeInterval, rs, i);
      ghost var before := events;
      events := events + pair;
      forall k | 0 <= k < i
        ensures events[2 * k..2 * k + 2] == SignalPairAt(n, timeInterval, rs, k)
      {
        assert events[2 * k..2 * k + 2] == before[2 * k..2 * k + 2];
      }
      assert events[2 * i..2 * i + 2] == pair;
      i := i + 1;
    }
    PairsMakeSignalEvents(n, timeInterval, rs, events);
  }

  method BatteryLowLoop(n: nat, timeInterval: nat, rs: Stream) returns (events: seq<Event>)
    requires 0 < n && IsStream(rs)
    ensures events == BatteryEvents(n, timeInterval, rs)
  {
    events := [];
    var batteryLowCount := Count(1, 2, rs(0));
    var i := 0;
    while i < batteryLowCount
      invariant i <= batteryLowCount && |events| == i
      invariant forall j :: 0 <= j < i ==> events[j] == BatteryLowAt(n, timeInterval, rs, j)
    {
      var event := BatteryLowStep(n, timeInterval, rs, i);
      events := events + [event];
      i := i + 1;
    }
  }

  /** One pass of the battery loop. */
  method BatteryLowStep(n: nat, timeInterval: nat, rs: Stream, i: nat) returns (e: Event)
    requires 0 < n && IsStream(rs)
    ensures e == BatteryLowAt(n, timeInterval, rs, i)
  {
    var laterIndex := ScaledSample(n, rs(1 + 2 * i), 0.6, 0.4);
    e := Event(SampleOffset(laterIndex, timeInterval), laterIndex, DeviceBatteryLow(Count(10, 10, rs(2 + 2 * i))));
  }

  method DeviceErrorLoop(n: nat, timeInterval: nat, rs: Stream) returns (events: seq<Event>)
    requires 0 < n && IsStream(rs)
    ensures events == ErrorEvents(n, timeInterval, rs)
  {
    events := [];
    var errorCount := Count(2, 2, rs(0));
    var i := 0;
    while i < errorCount
      invariant i <= errorCount && |events| == i
      invariant forall j :: 0 <= j < i ==> events[j] == DeviceErrorAt(n, timeInterval, rs, j)
    {
      var randomIndex := Uniform(rs(1 + 3 * i), n);
      var errorTypeIndex := Uniform(rs(2 + 3 * i), 4);
      events := events + [Event(SampleOffset(randomIndex, timeInterval), randomIndex,
                                DeviceError(errorTypeIndex, Uniform(rs(3 + 3 * i), 3)))];
      i := i + 1;
    }
  }

  /** The single overheating event of generateTechnicalEvents. */
  method OverheatingStep(n: nat, timeInterval: nat, rs: Stream) returns (e: Event)
    requires 0 < n && IsStream(rs)
    ensures e == OverheatingAt(n, timeInterval, rs)
  {
    var midIndex := ScaledSample(n, rs(0), 0.4, 0.3);
    e := Event(SampleOffset(midIndex, timeInterval), midIndex, DeviceOverheating);
  }

  /** generateTechnicalEvents: its four loops and the single overheating event, in order. */
  method GenerateTechnicalEvents(coords: seq<Coord>, timeInterval: nat, draws: TechnicalDraws)
    returns (events: seq<Event>)
    requires |coords| > 0 && draws.Valid()
    ensures events == TechnicalEvents(|coords|, timeInterval, draws)
    ensures 16 <= |events| <= 24
    ensures forall e <- events :: e.at < |coords| && IsTechnical(e.payload)
  {
    var n := |coords|;
    var degraded := SignalDegradedLoop(n, timeInterval, draws.degraded);
    var signal := SignalLossLoop(n, timeInterval, draws.signal);
    var battery := BatteryLowLoop(n, timeInterval, draws.battery);
    var overheating := OverheatingStep(n, timeInterval, draws.overheating);
    var errors := DeviceErrorLoop(n, timeInterval, draws.errors);
    events := degraded + signal + battery + [overheating] + errors;
    TechnicalEventsShape(n, timeInterval, draws);
  }
}
