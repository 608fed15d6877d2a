# Fleet trip event synthesis: a verified model

The data generator takes one delivery trip's route and builds a single synthetic stream of
fleet-tracking events from it, ordered by timestamp. The route is a sequence of
longitude/latitude samples, one every 30 seconds. The stream holds these families:

- tracking/trip lifecycle events;
- one location ping per sample;
- distance milestones and time milestones;
- three scheduled customer stops;
- random speed changes and violations;
- random unscheduled stops;
- technical events: signal degradation, signal loss and recovery, low battery, overheating, device errors;
- conditional events: low fuel and refuelling, driver breaks, periodic telemetry.

A trip may also be cancelled early. In that case every family is generated on the route up
to the cancellation sample only. Events stamped after the cancellation are then dropped.

The model is split into modules that follow the program's files:

- `Draws` (draws.dfy): how random draws become counts and indices.
- `Events` (events.dfy): the event record and the trip clock.
- `Geometry` (geometry.dfy): cumulative distances and the closest-sample scan.
- `Placement` (placement.dfy): the deterministic generators of `event-generators.js`.
- `Movement`, `UnscheduledStops`, `Technical`, `Cancellation` and `Conditional`: the generators of `random-event-generators.js`.
- `Location` and `Timeline`: the pings, speed, heading and the composer of `generate-trip-events.js`.
- `Ordering` (ordering.dfy): the composer's last step, the cut-off at the cancellation instant and the sort by timestamp.
- `Numeric`: a few arithmetic helper lemmas.

An event is modelled as its offset in seconds from the trip's base time, the index of the
route sample it sits on, and a payload holding the type tag and the fields the model
keeps: those that place an event on the route or in time, and those the properties below
relate to the route or the draws. The derived fields it drops are listed under "## Left out".

Each generator that builds its list in a loop has two forms:

- a specification function that gives its output for a route and a draw stream;
- an imperative `method` with the source's loops, proved to return exactly that output.

The lifecycle events (Placement.LifecycleEvents) and the cancellation
(Cancellation.TripCancellation) have no loop in the source, so they are specification
functions only.

Lemmas about the specification functions state what the generator promises: counts, bounds,
placement on the route, ordering, and the relations between fields.

## Model

| member | source | states |
|---|---|---|
| Draws.Count | data-generator/random-event-generators.js:11 | floor(a + r*k) for a draw r in [0,1) lies in a..a+k-1, the count range every family announces |
| Draws.Uniform | data-generator/random-event-generators.js:13 | floor(r*n) for a draw r in [0,1) is a valid index below n |
| Events.ElapsedMinutes | data-generator/random-event-generators.js:454 | index * (interval/60) minutes is exactly the sample's offset in seconds divided by 60 |
| Events.SampleOffset | data-generator/random-event-generators.js:448 | a sample's offset is a whole, non-negative number of seconds |
| Events.SampleOffsetMonotone | data-generator/generate-trip-events.js:88 | samples are evenly spaced: a later sample is at least one interval later |
| Events.TruncMonotone | data-generator/event-generators.js:9-12 | the millisecond truncation of a Date never reverses the order of two instants |
| Events.TimestampMonotone | data-generator/event-generators.js:9-12 | a later offset never yields an earlier timestamp |
| Events.Trunc | data-generator/event-generators.js:9-12 | truncation toward zero: the integer on the side of zero less than one away from the value |
| Events.Timestamp | data-generator/event-generators.js:9-12 | the millisecond time value of base plus the offset, its fraction dropped; a whole-second offset s gives exactly base + 1000*s |
| Events.TimestampStrict | data-generator/event-generators.js:9-12 | offsets at least a millisecond apart give strictly ordered timestamps |
| Geometry.Cumulative | data-generator/event-generators.js:27-38 | the distance list has one entry per sample (one for an empty route) and starts at 0 |
| Geometry.CumulativeStep | data-generator/event-generators.js:31-35 | each entry is the previous one plus the segment from the previous sample |
| Geometry.CumulativeMonotone | data-generator/event-generators.js:27-38 | with non-negative segment lengths the cumulative distances never decrease |
| Geometry.PathLengthSnoc | data-generator/event-generators.js:31-35 | the route length is the length without the last sample plus the last segment |
| Geometry.CumulativeTotal | data-generator/event-generators.js:27-38 | the last cumulative distance is the total route length returned beside the list |
| Geometry.CalculateCumulativeDistances | data-generator/event-generators.js:27-38 | the loop returns the cumulative list and the last entry as the total |
| Geometry.NearestFrom | data-generator/event-generators.js:140-146 | the scan from a position onward returns an index inside the list |
| Geometry.Nearest | data-generator/event-generators.js:137-147 | the closest-sample scan returns an index inside the list |
| Geometry.NearestFromIsFirstNearest | data-generator/event-generators.js:140-146 | continuing the scan keeps the first index of minimal distance to the target |
| Geometry.NearestIsFirstNearest | data-generator/event-generators.js:137-147 | the scan returns an index of minimal distance to the target, and the first such index (ties keep the earlier sample) |
| Geometry.FindNearest | data-generator/event-generators.js:242-252 | the imperative scan returns the first closest index |
| Placement.LifecycleEvents | data-generator/event-generators.js:41-127 | four lifecycle events, or two for a cancelled trip, all on route samples |
| Placement.LifecycleShape | data-generator/event-generators.js:41-127 | tracking starts 300 s before the trip; the trip completes at n*30 s after round(n/2) minutes; tracking stops 300 s later; offsets strictly rise; a cancelled trip keeps exactly the first two |
| Placement.DistanceMilestoneFor | data-generator/event-generators.js:135-171 | a milestone is emitted iff the closest sample's distance is at least the threshold minus 5 km; it sits at that sample with its distance and offset |
| Placement.MilestoneKmsIncrease | data-generator/event-generators.js:133 | the distance thresholds strictly increase |
| Placement.DistanceMilestones | data-generator/event-generators.js:130-174 | at most one milestone per threshold, each well placed, in increasing threshold order |
| Placement.DistanceMilestoneEmitted | data-generator/event-generators.js:149 | a threshold appears in the output iff the 5 km tolerance test passes at its closest sample |
| Placement.MilestoneAmongFirst | data-generator/event-generators.js:130-174 | a threshold has an event after m thresholds iff it had one after m - 1 or it is the m-th threshold's own |
| Placement.DistanceMilestoneAtFirstNearest | data-generator/event-generators.js:137-147 | a milestone sits at the first sample closest to its threshold |
| Placement.NoMilestoneBeyondRoute | data-generator/event-generators.js:149 | no milestone is emitted for a threshold more than 5 km past the route's total length |
| Placement.DistanceMilestoneStep | data-generator/event-generators.js:135-171 | one pass of the threshold loop yields that threshold's milestone or nothing |
| Placement.GenerateDistanceMilestoneEvents | data-generator/event-generators.js:130-174 | the loop returns the milestone list: at most 8 events, on the route, in increasing threshold order |
| Placement.StopContribution | data-generator/event-generators.js:188-190 | a stop started by the milestone adds between 0 and its duration, and no more than the time since it started; a later stop adds nothing |
| Placement.StopTimeBy | data-generator/event-generators.js:186-191 | the stop time accrued by a milestone is non-negative |
| Placement.StopsStartedBy | data-generator/event-generators.js:202 | the stops counted by a milestone are at most all the stops |
| Placement.StopTimeBounded | data-generator/event-generators.js:186-191 | the accrued stop time never exceeds the stops' total duration |
| Placement.AccrueStopTime | data-generator/event-generators.js:186-191 | the accumulation loop returns the accrued stop time |
| Placement.TimeMilestoneFor | data-generator/event-generators.js:182-222 | an hour milestone is emitted iff the stop-adjusted sample index is on the route; it then carries its hour |
| Placement.TimeMilestoneShape | data-generator/event-generators.js:192-222 | the milestone is stamped at hours*3600 plus the accrued stop time, inside its sample's slot, with that sample's distance, the count of stops started and moving minutes = elapsed minus stop minutes |
| Placement.TimeMilestones | data-generator/event-generators.js:177-226 | at most one milestone per hour threshold, on the route, in increasing hour order |
| Placement.TimeMilestoneStep | data-generator/event-generators.js:183-223 | one pass of the hour loop yields that hour's milestone or nothing |
| Placement.GenerateTimeMilestoneEvents | data-generator/event-generators.js:177-226 | the loop returns the time milestone list: at most 9 events, on the route |
| Placement.OverlappingStopsDoubleCount | data-generator/event-generators.js:186-203 | stops drawn at the same sample are each counted in full, so an hour milestone can report negative moving minutes |
| Placement.ScheduledStop | data-generator/event-generators.js:238-292 | stop k arrives at the first sample closest to fraction k of the route length, with that distance, and departs from the same sample 900 s later |
| Placement.ScheduledStops | data-generator/event-generators.js:229-295 | arrival/departure pairs in stop order, all on the route |
| Placement.ScheduledStopsShape | data-generator/event-generators.js:229-295 | each of the three stops is numbered 1..3, lasts 15 minutes and departs where it arrived |
| Placement.ScheduledStopStep | data-generator/event-generators.js:239-291 | one pass of the stop loop yields that stop's pair |
| Placement.GenerateScheduledStopEvents | data-generator/event-generators.js:229-295 | the loop returns the six scheduled stop events |
| Movement.RoadTypeFor | data-generator/random-event-generators.js:22-26 | highway iff above 80 km/h, arterial iff in (50, 80], city street iff at most 50 |
| Movement.SpeedChangeAt | data-generator/random-event-generators.js:12-42 | a speed change sits on the route; the previous speed is in [45,75); the new speed is previous + (r-0.5)*40 and within [15,120]; the change is new minus previous, within [-20,20); the road type follows the new speed |
| Movement.SpeedViolationAt | data-generator/random-event-generators.js:46-72 | the limit is in [80,105), the excess in [10,30), and the reported speed is limit plus excess |
| Movement.SpeedChangeCount | data-generator/random-event-generators.js:11 | 10 to 15 speed changes |
| Movement.ViolationCount | data-generator/random-event-generators.js:45 | 2 to 4 violations |
| Movement.GenerateMovementEvents | data-generator/random-event-generators.js:6-74 | the two loops return the changes then the violations, 12 to 19 events, all on the route |
| UnscheduledStops.StopCount | data-generator/random-event-generators.js:82 | 3 to 6 unscheduled stops |
| UnscheduledStops.UnscheduledStopAt | data-generator/random-event-generators.js:84-151 | stopped, unscheduled-stop and moving events at one sample, 60 s apart then at the stop's end; the duration is 5..29 minutes; the record's start and end match the events; reason and place type are valid indices |
| UnscheduledStops.IntervalsMatchEvents | data-generator/random-event-generators.js:84-151 | the i-th stop record agrees with the i-th triple of events: start, end, duration |
| UnscheduledStops.BlocksMakeStopEvents | data-generator/random-event-generators.js:84-151 | a list made of the per-stop triples in order is the family's output |
| UnscheduledStops.StopEventKinds | data-generator/random-event-generators.js:77-154 | every event of the family is on the route and of one of the three stop kinds |
| UnscheduledStops.AppendStopBlock | data-generator/random-event-generators.js:84-143 | appending a stop's three events leaves the earlier stops' events in place |
| UnscheduledStops.UnscheduledStopStep | data-generator/random-event-generators.js:85-150 | one pass of the loop yields that stop's triple and record |
| UnscheduledStops.GenerateUnscheduledStopEvents | data-generator/random-event-generators.js:77-154 | the loop returns the events and the stop records, 9 to 18 events, three per record |
| Technical.SlotOf | data-generator/random-event-generators.js:213 | floor(x/interval) names the sample k whose slot [k*interval, (k+1)*interval) contains x |
| Technical.SlotAtLeast | data-generator/random-event-generators.js:213 | a time at or after a sample's offset falls in that sample's slot or a later one |
| Technical.ScaledIndex | data-generator/random-event-generators.js:235 | floor(n*lo + r*n*w) lies between floor(n*lo) and n*(lo+w) |
| Technical.ScaledSample | data-generator/random-event-generators.js:235 | the sample drawn from a band of the route lies at or after the band's start and before its end |
| Technical.SignalDegradedAt | data-generator/random-event-generators.js:162-185 | on the route; previous accuracy in [5,20), current in [50,250), quality poor or fair |
| Technical.SignalPairAt | data-generator/random-event-generators.js:189-230 | loss then recovery 30..150 s later, lost seconds equal to that gap, the recovery at the slot of its time capped at the last sample |
| Technical.RecoveryFollowsLoss | data-generator/random-event-generators.js:189-230 | the recovery is never at an earlier sample than the loss, and unless capped its sample's slot contains the recovery time |
| Technical.BatteryLowAt | data-generator/random-event-generators.js:234-254 | in the last 40% of the route, with 10..19 percent battery |
| Technical.OverheatingAt | data-generator/random-event-generators.js:257-274 | between 40% and 70% of the route |
| Technical.DeviceErrorAt | data-generator/random-event-generators.js:288-309 | on the route, with a valid error type and severity |
| Technical.DegradedCount | data-generator/random-event-generators.js:161 | 8 to 12 degradations |
| Technical.SignalLossCount | data-generator/random-event-generators.js:188 | 2 to 3 loss/recovery pairs |
| Technical.BatteryLowCount | data-generator/random-event-generators.js:233 | 1 to 2 battery warnings |
| Technical.ErrorCount | data-generator/random-event-generators.js:277 | 2 to 3 device errors |
| Technical.DegradedEvents | data-generator/random-event-generators.js:161-186 | every event is a degradation on the route |
| Technical.SignalEvents | data-generator/random-event-generators.js:188-231 | every event is a loss or a recovery on the route |
| Technical.BatteryEvents | data-generator/random-event-generators.js:233-255 | every event is a battery warning on the route |
| Technical.ErrorEvents | data-generator/random-event-generators.js:277-310 | every event is a device error on the route |
| Technical.TechnicalEventsShape | data-generator/random-event-generators.js:157-312 | 16 to 24 technical events, all on the route |
| Technical.SignalDegradedLoop | data-generator/random-event-generators.js:161-186 | the loop returns the degradation list |
| Technical.SignalPairStep | data-generator/random-event-generators.js:190-230 | one pass yields that pair |
| Technical.PairsMakeSignalEvents | data-generator/random-event-generators.js:189-230 | a list made of the pairs in order is the loss/recovery output |
| Technical.SignalLossLoop | data-generator/random-event-generators.js:188-231 | the loop returns the loss/recovery list |
| Technical.BatteryLowLoop | data-generator/random-event-generators.js:233-255 | the loop returns the battery list |
| Technical.BatteryLowStep | data-generator/random-event-generators.js:234-254 | one pass of the battery loop yields that warning |
| Technical.DeviceErrorLoop | data-generator/random-event-generators.js:277-310 | the loop returns the error list |
| Technical.OverheatingStep | data-generator/random-event-generators.js:257-274 | returns the overheating event |
| Technical.GenerateTechnicalEvents | data-generator/random-event-generators.js:157-312 | the generator returns the technical list, 16 to 24 events on the route |
| Cancellation.EarlyIndex | data-generator/random-event-generators.js:322 | the cancellation sample lies in the first 20% of the route |
| Cancellation.TripCancellation | data-generator/random-event-generators.js:315-356 | no cancellation iff the draw exceeds 0.05; otherwise the event sits at an early sample with its offset, a valid reason, the distance covered so far and elapsed minutes matching the offset |
| Cancellation.CancellationWithinRoute | data-generator/random-event-generators.js:336 | the distance completed lies between 0 and the route length |
| Conditional.FuelLoopNeverEnds | data-generator/random-event-generators.js:369-370 | as written, a route of fewer than 8 samples gives a fuel step of 0, so the loop index never reaches the end |
| Conditional.TelemetryLoopNeverEnds | data-generator/random-event-generators.js:488-489 | as written, fewer than 12 samples give a telemetry step of 0 and the loop never ends |
| Conditional.CheckpointStep | data-generator/random-event-generators.js:369 | the corrected checkpoint step is always positive |
| Conditional.CorrectedStepAgrees | data-generator/random-event-generators.js:369 | the corrected step equals the source's floor(n/8) and floor(n/12) wherever those are positive, and is 1 below |
| Conditional.UnitStepVisitsAll | data-generator/random-event-generators.js:370 | with step 1 the loop visits every remaining sample |
| Conditional.ShortRouteCheckpoints | data-generator/random-event-generators.js:370 | on a short route the corrected fuel and telemetry loops end after n-1 checkpoints |
| Conditional.CheckpointLevel | data-generator/random-event-generators.js:372-374 | the level recomputed at a checkpoint never drops below 5% |
| Conditional.LevelFallsAlongRoute | data-generator/random-event-generators.js:372-374 | the recomputed level never rises from one checkpoint to a later one and never exceeds 95% |
| Conditional.FuelCheckInterval | data-generator/random-event-generators.js:369 | the source's fuel step floor(n/8): the largest k with 8*k at most n |
| Conditional.TelemetryInterval | data-generator/random-event-generators.js:488 | the source's telemetry step floor(n/12): the largest k with 12*k at most n |
| Conditional.IndexAfter | data-generator/random-event-generators.js:370 | the loop index after k steps: it stays at the start when the step is 0, and is at least k past the start when the step is positive |
| Conditional.LastCheckpoint | data-generator/random-event-generators.js:370 | the last index a loop with a positive step visits is at or after its start, on the route, and less than one step before the end |
| Conditional.FuelCheckpoint | data-generator/random-event-generators.js:376-440 | no event iff the level is at least 25; three events iff it is below 15, the level then becoming 90; otherwise just the warning and the level unchanged |
| Conditional.FuelCheckpointShape | data-generator/random-event-generators.js:376-440 | the warning sits at the checkpoint; refuelling starts at a sample within 99 of it, lasts 10..18 minutes, and goes from the level to 90% |
| Conditional.FuelFrom | data-generator/random-event-generators.js:370-441 | at most three fuel events per checkpoint |
| Conditional.FuelFromKinds | data-generator/random-event-generators.js:370-441 | every fuel event is on the route and of a fuel kind |
| Conditional.CheckpointKinds | data-generator/random-event-generators.js:376-440 | every event one checkpoint emits is on the route and of a fuel kind |
| Conditional.RefuelRepeats | data-generator/random-event-generators.js:370-441 | once the recomputed level is below 15, every later checkpoint refuels again: the 90% refill does not carry over |
| Conditional.FinalLevelBounds | data-generator/random-event-generators.js:370-441 | the level the loop ends at lies in [5, 95] |
| Conditional.FinalLevel | data-generator/random-event-generators.js:370-441 | the level the fuel loop ends at: the level it was entered at (95) when no checkpoint is visited; otherwise 90 when the last checkpoint's recomputed level is below 15, and that level when it is not |
| Conditional.BreakCount | data-generator/random-event-generators.js:444 | 2 to 4 breaks |
| Conditional.BreakAt | data-generator/random-event-generators.js:445-485 | pause and resume at the same sample, with the distance and elapsed minutes there; the resume is 15..45 minutes later |
| Conditional.BreakEvents | data-generator/random-event-generators.js:444-485 | every event is a pause or resume on the route |
| Conditional.TelemetryFrom | data-generator/random-event-generators.js:489-516 | one telemetry event per checkpoint |
| Conditional.TelemetryFromShape | data-generator/random-event-generators.js:489-516 | each reports its sample's distance and the level the fuel loop ended at |
| Conditional.ConditionalEventsShape | data-generator/random-event-generators.js:359-519 | every conditional event is on the route and of a conditional kind |
| Conditional.FuelCheckpointStep | data-generator/random-event-generators.js:371-440 | one pass of the fuel loop yields that checkpoint's events and level |
| Conditional.FuelLoop | data-generator/random-event-generators.js:369-441 | the loop returns the fuel events and final level |
| Conditional.BreakStep | data-generator/random-event-generators.js:446-484 | one pass yields that break's pair |
| Conditional.PairsMakeBreakEvents | data-generator/random-event-generators.js:445-485 | a list made of the pairs in order is the break output |
| Conditional.BreakLoop | data-generator/random-event-generators.js:444-485 | the loop returns the break list |
| Conditional.TelemetryLoop | data-generator/random-event-generators.js:488-516 | the loop returns the telemetry list |
| Conditional.GenerateConditionalEvents | data-generator/random-event-generators.js:359-519 | the generator returns fuel, break and telemetry events, all on the route |
| Location.CalculateSpeed | data-generator/generate-trip-events.js:30-42 | the speed is distance/interval*3600 when within [0,120], else clamped to 0 or 120 |
| Location.CalculateHeading | data-generator/generate-trip-events.js:45-55 | the heading lies in [0,360): the bearing itself when non-negative, else bearing + 360 |
| Location.JsRem | data-generator/generate-trip-events.js:54 | JavaScript `%`: the remainder has the dividend's sign and is smaller than the divisor in size |
| Location.SignalQualityOf | data-generator/generate-trip-events.js:106-110 | excellent iff accuracy <= 12, good iff in (12,20], fair iff in (20,50], poor iff above 50 |
| Location.LocationPingAt | data-generator/generate-trip-events.js:86-133 | ping i is at sample i, 30*i s; accuracy in [5,15); speed in [0,120] and heading in [0,360), both 0 at the first sample, else from the previous sample, the heading being the bearing taken modulo 360; moving iff speed > 1; quality by band |
| Location.PingQualityIsExcellentOrGood | data-generator/generate-trip-events.js:103-110 | with accuracy below 15 m a ping is never fair or poor |
| Location.LocationEvents | data-generator/generate-trip-events.js:79-136 | one ping per sample |
| Location.LocationPingStep | data-generator/generate-trip-events.js:87-133 | one pass of the loop yields ping i |
| Location.GenerateLocationEvents | data-generator/generate-trip-events.js:79-136 | the loop returns one ping per sample, ping i at sample i |
| Ordering.Key | data-generator/generate-trip-events.js:198-204 | the instant an event is compared by: a whole-second offset s gives 2025-11-03T10:00:00Z plus 1000*s milliseconds |
| Ordering.Insert | data-generator/generate-trip-events.js:204 | inserting adds exactly that event |
| Ordering.InsertSorted | data-generator/generate-trip-events.js:204 | inserting into a timestamp-ordered list keeps it ordered |
| Ordering.InsertStable | data-generator/generate-trip-events.js:204 | the inserted event goes after every event with the same timestamp |
| Ordering.SortByTime | data-generator/generate-trip-events.js:204 | sorting permutes the events |
| Ordering.SortByTimeSorted | data-generator/generate-trip-events.js:204 | the sorted list is ordered by timestamp |
| Ordering.SortByTimeStable | data-generator/generate-trip-events.js:204 | events with equal timestamps keep their order in the list sorted |
| Ordering.SortKeeps | data-generator/generate-trip-events.js:204 | sorting loses no event |
| Ordering.KeepUntil | data-generator/generate-trip-events.js:197-201 | an event is kept iff it is in the list and stamped no later than the cut-off; nothing is duplicated |
| Ordering.KeepUntilStable | data-generator/generate-trip-events.js:197-201 | the cut keeps every event of an instant up to the cut-off, in its order |
| Timeline.EffectiveRoute | data-generator/generate-trip-events.js:152-163 | the generators see a non-empty prefix of the route: up to and including the cancellation sample, or the whole route |
| Timeline.GeneratedEvents | data-generator/generate-trip-events.js:165-194 | the generated list opens with the lifecycle events, followed by one ping per sample in route order |
| Timeline.CombinedEvents | data-generator/generate-trip-events.js:183-194 | without a cancellation, exactly the generated events of the whole route; with one, the cancellation event comes last |
| Timeline.KeptEvents | data-generator/generate-trip-events.js:196-201 | a sub-multiset of the combined list: all of it without a cancellation, nothing stamped after the cancellation instant with one |
| Timeline.TripEvents | data-generator/generate-trip-events.js:204 | the output is a permutation of the kept events |
| Timeline.LifecycleOnRoute | data-generator/event-generators.js:85 | lifecycle events sit on the route, and a cancelled trip has no completion events |
| Timeline.LocationOnRoute | data-generator/generate-trip-events.js:79-136 | pings sit on the route and never end the trip |
| Timeline.MovementOnRoute | data-generator/random-event-generators.js:6-74 | movement events sit on the route |
| Timeline.PlacementOnRoute | data-generator/event-generators.js:130-295 | milestones and scheduled stops sit on the route |
| Timeline.StopsOnRoute | data-generator/random-event-generators.js:77-154 | unscheduled-stop events sit on the route and never end the trip |
| Timeline.TechnicalOnRoute | data-generator/random-event-generators.js:157-312 | technical events sit on the route and never end the trip |
| Timeline.ConditionalOnRoute | data-generator/random-event-generators.js:359-519 | conditional events sit on the route and never end the trip |
| Timeline.ConcatOnRoute | data-generator/generate-trip-events.js:183-194 | combining lists keeps every event on the route |
| Timeline.GeneratedOnRoute | data-generator/generate-trip-events.js:165-194 | every generated event sits on the effective route; when cancelled none completes the trip |
| Timeline.TripEventsOrdered | data-generator/generate-trip-events.js:183-204 | the output is ordered by timestamp, and events of one instant keep their order in the kept list; Ordering.KeepUntilStable carries that order back to the combined list for every instant up to the cut-off |
| Timeline.CutKeepsLast | data-generator/generate-trip-events.js:197-204 | the event whose instant is the cut-off survives the cut and the sort |
| Timeline.CutAndSort | data-generator/generate-trip-events.js:197-204 | after cutting at an event's instant and sorting, nothing is stamped later, lies past its sample or ends the trip |
| Timeline.CutGeneratedAt | data-generator/generate-trip-events.js:165-204 | the same bound for the generated events of a cancelled trip cut at one of its own samples |
| Timeline.CancellationOnLastSample | data-generator/generate-trip-events.js:158-161 | the cancellation sits on the last sample of the shortened route and is not a trip-completed event |
| Timeline.CancelledTripEvents | data-generator/generate-trip-events.js:183-204 | a cancelled trip's output is the generated list plus the cancellation, cut at its instant and sorted |
| Timeline.CancelledTripReportsCancellation | data-generator/generate-trip-events.js:151-204 | a cancelled trip's output contains the cancellation event |
| Timeline.CancelledTrip | data-generator/generate-trip-events.js:151-204 | in a cancelled trip nothing is stamped later than the cancellation or lies past its sample, and no trip-completed or tracking-stopped event remains |
| Timeline.CancelledTripKeepsPings | data-generator/generate-trip-events.js:151-204 | a cancelled trip keeps the ping of every sample up to the cancellation |
| Timeline.CompletedTripEvents | data-generator/generate-trip-events.js:151-204 | without cancellation the output is the generated list over the whole route, sorted |
| Timeline.LifecycleGenerated | data-generator/generate-trip-events.js:165-194 | every lifecycle event is among the generated events |
| Timeline.CompletedTrip | data-generator/generate-trip-events.js:151-204 | without cancellation no event is lost: the output is a permutation of the generated events of the whole route |
| Timeline.LifecycleSurvives | data-generator/generate-trip-events.js:151-204 | without cancellation every lifecycle event of the whole route is in the output |
| Timeline.CompletedTripFinishes | data-generator/generate-trip-events.js:151-204 | without cancellation the trip-completed and tracking-stopped events are in the output |
| Timeline.EarlyCancellationStallsCheckpointLoops | data-generator/random-event-generators.js:322 | draws 0 and 0 cancel at sample 0, leaving a one-sample route on which the source's fuel and telemetry loops never end |
| Timeline.GenerateTripEvents | data-generator/generate-trip-events.js:139-204 | the composer returns the trip stream: ordered by timestamp, and a permutation of the combined list after the cut-off |

## Left out

- Fetching the route (`fetchRoute`), writing the JSON file and console output: I/O. The route is a parameter.
- An empty route: the source fails with a TypeError (data-generator/event-generators.js:56 reads the first sample's latitude, and data-generator/random-event-generators.js:348 reads the cancellation sample's). The composer catches it and exits with status 1 (data-generator/generate-trip-events.js:233-235). The model does not represent that error path: Timeline.GenerateTripEvents, Placement.LifecycleEvents and Cancellation.TripCancellation require a non-empty route.
- Event ids, vehicle, trip and device ids, place names, addresses and other constant fields.
- Cosmetic draws, which never affect any other field:
  - altitude, temperatures and voltages;
  - `speed_before_stop_kmh` and `engine_running` (data-generator/random-event-generators.js:109-110);
  - `distance_to_next_scheduled_stop_km` (data-generator/random-event-generators.js:127);
  - vehicle_moving's `current_speed_kmh` (data-generator/random-event-generators.js:142);
  - the signal loss and recovery `accuracy_meters` (data-generator/random-event-generators.js:206, 226);
  - `estimated_remaining_hours` (data-generator/random-event-generators.js:251);
  - `performance_throttled` (data-generator/random-event-generators.js:273);
  - in vehicle_telemetry: `speed_kmh`, `accuracy_meters`, `coolant_temp_celsius` and `oil_pressure_kpa` (data-generator/random-event-generators.js:504, 507, 511-512).
- Derived report fields that no other field depends on are not in the payload:
  - trip_completed: `odometer_end_km`, `fuel_consumed_liters` and `avg_speed_kmh` (data-generator/event-generators.js:102, 104, 105);
  - tracking_stopped: `session_duration_hours` (data-generator/event-generators.js:121);
  - distance and time milestones: `average_speed_kmh` (data-generator/event-generators.js:167, 218);
  - stop_arrival: `time_from_start_minutes` (data-generator/event-generators.js:274);
  - speed_violation: `violation_duration_seconds` (data-generator/random-event-generators.js:69);
  - fuel_level_low: `estimated_range_km`, computed from the recomputed fuel level (data-generator/random-event-generators.js:377, 390);
  - refueling_completed: `fuel_added_liters` (data-generator/random-event-generators.js:437);
  - vehicle_telemetry: `odometer_km` and `engine_hours` (data-generator/random-event-generators.js:508, 510).
- The time milestone's `average_speed_kmh` divides the distance at the stop-adjusted sample by the hour count (data-generator/event-generators.js:218), not by the moving time. The stop time that Placement.TimeMilestoneShape accounts for (the milestone's stamp and its moving minutes) therefore shifts only the sample, not the divisor. The model says nothing about that speed.
- JavaScript numbers are modelled as exact reals throughout: distances, speeds, fuel levels, band samples and the millisecond arithmetic of timestamps. Rounding at the edges is not captured. For example, in doubles `Math.floor(coordinates.length * 0.6 + Math.random() * coordinates.length * 0.4)` (data-generator/random-event-generators.js:235) can round up to the route length, an index past the last sample, which Technical.ScaledIndex and Technical.ScaledSample exclude only in real arithmetic. Likewise a threshold comparison can flip under rounding.
- ISO-8601 string formatting of timestamps. A timestamp is the millisecond count `Date` holds, truncated toward zero.
- Location.CalculateSpeed, Location.CalculateHeading: the haversine distance and the atan2 bearing are parameters of the model. Only a bearing in [-180, 180] is assumed. Floating-point rounding is not modelled.
- Location.CalculateSpeed: requires a positive interval. The source divides by the interval and is only called with 30.
- Math.round on reported fields: values are kept unrounded. This includes accuracies, speeds, fuel levels, minutes and the lost-signal seconds.
- Draws: `Math.random()` becomes one stream of values in [0,1) per event family, read at fixed positions. The model does not say which concrete sequence the runtime produces.
- Conditional.GenerateConditionalEvents: the unscheduled-stop list the source passes in is unused there, so it is not a parameter.
- Conditional.FuelFrom: the code recomputes the level from 95% at every checkpoint (data-generator/random-event-generators.js:372-374), so a refill to 90% does not persist into later checkpoints. Conditional.RefuelRepeats states the consequence.
- Ordering.SortByTime: modelled as a stable insertion sort on values, not as the engine's in-place sort. The JavaScript sort is stable, which Ordering.SortByTimeStable captures.
- Timeline.GenerateTripEvents: uses the corrected checkpoint step, so it terminates on every route. For 12 or more samples it is identical to the source.
- Conditional.FuelEvents, Conditional.TelemetryEvents, Conditional.FuelLoop, Conditional.TelemetryLoop, Conditional.GenerateConditionalEvents: use the corrected checkpoint step. They agree with the source from 8 samples (fuel) and 12 samples (telemetry) on. On shorter routes the source's loops never end (see Findings), while the model visits every sample after the first.

## Findings

| source | as written | input that shows it | evidently intended | confidence | as-written member | corrected member |
|---|---|---|---|---|---|---|
| data-generator/random-event-generators.js:369-370, 488-489 | checkpoint step floor(n/8) and floor(n/12) with `i += step` | a route of 1 to 7 samples (or 1 to 11 for telemetry); e.g. a cancellation with draws 0, 0 cuts any route to one sample | a positive step, so the fuel and telemetry loops end on short routes | not executed | Conditional.FuelLoopNeverEnds | Conditional.CorrectedStepAgrees |
