# EventCounter in Dafny

A model of the decaying event counter of YRashid/EventCounter. A client submits
events; the counter reports how many were submitted in the last minute, the
last hour and the last day.

The counter keeps:

- a buffer of raw timestamps;
- three queues of *events buckets*, for the minute, hour and day tiers;
- a running total per tier.

Background passes move the data along:

- The buffer pass drains the buffer. It merges consecutive timestamps that lie
  within one second of the first timestamp of their run into one bucket, and
  appends the buckets to the minute queue.
- The minute pass moves expired head buckets of the minute queue to the hour
  queue, and takes their events off the minute total.
- The hour pass does the same from the hour queue to the day queue.
- The day pass discards expired head buckets and takes their events off the
  day total.

Files:

- `buckets.dfy`: the `Bucket` value held in a queue, the `EventsBucket` class
  that the buffer pass mutates, and the event total `Sum` of a queue.
- `compression.dfy`: the merge rule. `Compress` is a fold with an open bucket.
  `Describes` characterises it independently as maximal runs anchored at their
  first timestamp. The two are proved equivalent, and the merge is proved to
  lose and invent no event.
- `tiers.dfy`: expiry. `ExpiredCount` is the length of the expired prefix an
  eviction pass removes. It is characterised by where it stops, and a second
  pass at the same instant removes nothing.
- `pipeline.dfy`: the whole state as a value, and one function per operation
  saying what it does to that state. `Conserved` is the invariant tying the
  totals to the queues. Every operation keeps it.
- `event_counter.dfy`: the `ConcurrentEventCounter` class. Each method updates
  the fields with the loop of ConcurrentEventCounter.java, and is proved to
  reach the state its function in `pipeline.dfy` gives.
- `scenarios.dfy`: the behaviours the repository's tests check. Where a test
  only needs nothing to have expired, any schedule of passes the caller picks
  is allowed, as long as every pass runs within the minute window of the first
  submission. Where a test needs buckets to expire, every pass runs once, in
  pipeline order, at the instant the test reads the totals. A reading taken
  right after submission comes before any pass.

`pipeline.dfy` also states when an eviction pass is complete. The passes stop
at the first fresh head bucket. They are guaranteed to leave no expired bucket
behind when the timestamps travel through the counter in time order
(`Ordered`); `Pipeline.UnorderedLeavesExpired` shows that the guarantee can fail
without it. Every operation keeps that order, provided that each submission
happens no earlier than every event already held.

The wall clock (`System.currentTimeMillis()`) is the `now` parameter of the
operations that read it. The tier windows are constructor parameters, because
the tests shorten them.

## Model

| member | source | states |
|---|---|---|
| Buckets.EventsBucket.constructor | src/main/java/com/rashid/EventsBucket.java:12-15 | a new bucket holds the given anchor time and event count |
| Buckets.EventsBucket.GetTime | src/main/java/com/rashid/EventsBucket.java:17-19 | returns the anchor time |
| Buckets.EventsBucket.SetTime | src/main/java/com/rashid/EventsBucket.java:21-23 | replaces the anchor time and leaves the count alone |
| Buckets.EventsBucket.GetCountOfEvents | src/main/java/com/rashid/EventsBucket.java:25-27 | returns the event count |
| Buckets.EventsBucket.SetCountOfEvents | src/main/java/com/rashid/EventsBucket.java:29-31 | replaces the count and leaves the anchor alone |
| Buckets.EventsBucket.IncrementCountOfEvents | src/main/java/com/rashid/EventsBucket.java:33-35 | adds one event and leaves the anchor alone |
| Compression.CompressDescribes | src/main/java/com/rashid/ConcurrentEventCounter.java:51-68 | the buckets the buffer pass produces are maximal runs, each anchored at its first timestamp and holding exactly the following timestamps within one second of the anchor |
| Compression.DescribesDeterministic | src/main/java/com/rashid/ConcurrentEventCounter.java:51-68 | a sequence of timestamps has only one such division into runs |
| Compression.CompressCharacterised | src/main/java/com/rashid/ConcurrentEventCounter.java:51-68 | a bucket sequence is what the buffer pass produces from the buffer if and only if it divides the buffer into those maximal runs |
| Compression.CompressConserves | src/main/java/com/rashid/ConcurrentEventCounter.java:51-68 | the buckets hold exactly as many events as the buffer had timestamps, each bucket holds at least one, there are no more buckets than timestamps, and they are empty exactly when the buffer was |
| Compression.DescribesConserves | src/main/java/com/rashid/ConcurrentEventCounter.java:53-63 | any division into runs accounts for every timestamp exactly once |
| Compression.DescribesLowerBound | src/main/java/com/rashid/ConcurrentEventCounter.java:53-63 | every bucket is anchored at one of the buffer's timestamps, and any lower bound of the buffer bounds every anchor |
| Compression.DescribesSorted | src/main/java/com/rashid/ConcurrentEventCounter.java:53-63 | when the buffer is in time order, so are the anchors of its runs |
| Compression.CompressOrdered | src/main/java/com/rashid/ConcurrentEventCounter.java:51-68 | from a buffer in time order the pass emits buckets in time order, none older than the buffer's first timestamp |
| Compression.CompressSameInstant | src/main/java/com/rashid/ConcurrentEventCounter.java:51-68 | timestamps that all lie at one instant become exactly one bucket holding all of them |
| Tiers.ExpiredCountStops | src/main/java/com/rashid/ConcurrentEventCounter.java:80 | every bucket an eviction pass removes is outside the window, and the pass stops at the first bucket inside it or at the end of the queue |
| Tiers.ExpiredCountUnique | src/main/java/com/rashid/ConcurrentEventCounter.java:80 | any cut point with those two properties is the pass's cut point, so no fresh bucket, and nothing behind one, is removed |
| Tiers.EvictionIdempotent | src/main/java/com/rashid/ConcurrentEventCounter.java:78-86 | a second pass at the same instant removes nothing |
| Pipeline.EmptyConserved | src/main/java/com/rashid/ConcurrentEventCounter.java:17-24 | a new counter holds no events and its totals agree with its queues |
| Pipeline.SubmitConserves | src/main/java/com/rashid/ConcurrentEventCounter.java:141-149 | a submission adds one held event and one to each total, keeping the totals in agreement with the queues |
| Pipeline.DrainConserves | src/main/java/com/rashid/ConcurrentEventCounter.java:43-72 | the buffer pass changes no total and no number of held events |
| Pipeline.MinutePassConserves | src/main/java/com/rashid/ConcurrentEventCounter.java:77-87 | the minute total loses exactly the events moved to the hour queue, and nothing leaves the counter |
| Pipeline.HourPassConserves | src/main/java/com/rashid/ConcurrentEventCounter.java:92-103 | the hour total loses exactly the events moved to the day queue, and nothing leaves the counter |
| Pipeline.DayPassConserves | src/main/java/com/rashid/ConcurrentEventCounter.java:108-118 | the day total drops by exactly the events discarded, which are the events of the expired head buckets |
| Pipeline.MinutePassStops | src/main/java/com/rashid/ConcurrentEventCounter.java:77-87 | after the minute pass the minute queue is empty or starts fresh; the moved buckets are expired and are appended in order behind the old hour queue; the buffer, the day queue and the hour and day totals are untouched |
| Pipeline.HourPassStops | src/main/java/com/rashid/ConcurrentEventCounter.java:92-103 | the same for the hour pass, moving buckets into the day queue |
| Pipeline.DayPassStops | src/main/java/com/rashid/ConcurrentEventCounter.java:108-118 | after the day pass the day queue is empty or starts fresh; it lost only a prefix of expired buckets; nothing else changed |
| Pipeline.EmptyOrdered | src/main/java/com/rashid/ConcurrentEventCounter.java:17-24 | a new counter holds its timestamps in time order |
| Pipeline.SubmitOrdered | src/main/java/com/rashid/ConcurrentEventCounter.java:141-149 | a submission at an instant no earlier than every held timestamp keeps the held timestamps in time order |
| Pipeline.DrainOrdered | src/main/java/com/rashid/ConcurrentEventCounter.java:43-72 | the buffer pass keeps the held timestamps in time order |
| Pipeline.MinutePassOrdered | src/main/java/com/rashid/ConcurrentEventCounter.java:77-87 | the minute pass leaves the held timestamps, oldest tier first, exactly as they were, and so keeps their order |
| Pipeline.HourPassOrdered | src/main/java/com/rashid/ConcurrentEventCounter.java:92-103 | the hour pass leaves the held timestamps exactly as they were, and so keeps their order |
| Pipeline.DayPassOrdered | src/main/java/com/rashid/ConcurrentEventCounter.java:108-118 | the day pass drops exactly the oldest held buckets, and so keeps the order |
| Pipeline.MinutePassLeavesFresh | src/main/java/com/rashid/ConcurrentEventCounter.java:77-87 | on a counter in time order, every bucket the minute pass leaves in the minute queue lies within the minute window |
| Pipeline.HourPassLeavesFresh | src/main/java/com/rashid/ConcurrentEventCounter.java:92-103 | on a counter in time order, every bucket the hour pass leaves in the hour queue lies within the hour window |
| Pipeline.DayPassLeavesFresh | src/main/java/com/rashid/ConcurrentEventCounter.java:108-118 | on a counter in time order, every bucket the day pass leaves in the day queue lies within the day window |
| Pipeline.UnorderedLeavesExpired | src/main/java/com/rashid/ConcurrentEventCounter.java:51-87 | without time order the guarantee fails: a timestamp buffered after a newer one forms a bucket that the minute pass leaves behind the fresh head although it is expired |
| Pipeline.EmptyHeldSince | src/main/java/com/rashid/ConcurrentEventCounter.java:17-24 | a new counter holds nothing older than any instant and nothing outside the minute tier |
| Pipeline.PassWithinWindow | src/main/java/com/rashid/ConcurrentEventCounter.java:43-118 | any pass run within the minute window of the oldest held event changes no total and moves nothing out of the minute tier |
| Pipeline.ScheduleWithinWindow | src/main/java/com/rashid/ConcurrentEventCounter.java:43-118 | the same for any sequence of passes, in any order and at any instants within that window |
| Pipeline.TotalsNested | src/main/java/com/rashid/ConcurrentEventCounter.java:152-164 | the totals are non-negative and nested (minute ≤ hour ≤ day), and the day total is every event the counter holds |
| Counter.ConcurrentEventCounter.constructor | src/main/java/com/rashid/ConcurrentEventCounter.java:17-37 | a new counter is empty, with the given windows, and satisfies the invariant |
| Counter.ConcurrentEventCounter.IsInLastPeriod | src/main/java/com/rashid/ConcurrentEventCounter.java:127-137 | only minutes, hours and days are accepted; for them the answer is true exactly when at most the window has elapsed since `millis`; any other unit is an illegal argument |
| Counter.ConcurrentEventCounter.SubmitEvent | src/main/java/com/rashid/ConcurrentEventCounter.java:141-149 | the event is always accepted, its timestamp joins the tail of the buffer, and each total grows by one |
| Counter.ConcurrentEventCounter.DrainBuffer | src/main/java/com/rashid/ConcurrentEventCounter.java:43-72 | the buffer ends empty and the minute queue gains, in order, the buckets the merge rule produces from it; nothing else changes |
| Counter.ConcurrentEventCounter.EvictMinute | src/main/java/com/rashid/ConcurrentEventCounter.java:77-87 | the expired prefix of the minute queue moves to the tail of the hour queue and its events come off the minute total; nothing else changes |
| Counter.ConcurrentEventCounter.EvictHour | src/main/java/com/rashid/ConcurrentEventCounter.java:92-103 | the expired prefix of the hour queue moves to the tail of the day queue and its events come off the hour total; nothing else changes |
| Counter.ConcurrentEventCounter.EvictDay | src/main/java/com/rashid/ConcurrentEventCounter.java:108-118 | the expired prefix of the day queue is discarded and its events come off the day total; nothing else changes |
| Counter.ConcurrentEventCounter.GetQuantityByLastMinute | src/main/java/com/rashid/ConcurrentEventCounter.java:151-154 | the minute total counts the events waiting in the buffer and the minute queue, and is non-negative |
| Counter.ConcurrentEventCounter.GetQuantityByLastHour | src/main/java/com/rashid/ConcurrentEventCounter.java:156-159 | the hour total also counts the hour queue, and is at least the minute total |
| Counter.ConcurrentEventCounter.GetQuantityByLastDay | src/main/java/com/rashid/ConcurrentEventCounter.java:161-164 | the day total counts every event the counter holds, and is at least the hour total |
| Scenarios.NoDecayWithinMinute | src/test/java/com/rashid/ConcurrentEventCounterTest.java:26-39 | any number of events submitted at one instant are counted in all three tiers at once, and still are after any schedule of passes that all run within a minute of the submission |
| Scenarios.TwoWavesWithinMinute | src/test/java/com/rashid/ConcurrentEventCounterTest.java:62-84 | two waves of n events read (n, n, n) and then (2n, 2n, 2n) with the default windows, after any schedules of passes that all run within a minute of the first wave |
| Scenarios.TwoWavesOn | src/test/java/com/rashid/ConcurrentEventCounterTest.java:62-84 | the same on any counter whose held events are all within the minute tier and no older than the first wave: each wave adds n to every total |
| Scenarios.WaveWithinWindow | src/test/java/com/rashid/ConcurrentEventCounterTest.java:62-84 | a wave of n events at t, no earlier than the oldest held event, adds n to every total, and any schedule of passes within the minute window keeps those totals |
| Scenarios.NewCounter | src/main/java/com/rashid/ConcurrentEventCounter.java:17-37 | a new counter reads (0, 0, 0) and holds nothing outside the minute tier |
| Scenarios.ThreeCloseEvents | src/test/java/com/rashid/ConcurrentEventCounterTest.java:41-60 | three events 50 ms apart, drained together by one buffer pass 1.15 s after the first, merge into one bucket of three anchored at the first, and all three are still counted in every tier |
| Scenarios.ThreeCloseEventsAnySchedule | src/test/java/com/rashid/ConcurrentEventCounterTest.java:41-60 | three events 50 ms apart read (3, 3, 3) after the third, and again after further passes, whatever passes the scheduler runs between and after the submissions, as long as each runs within a minute of the first event |
| Scenarios.ShortWindows | src/test/java/com/rashid/ConcurrentEventCounterTest.java:87-116 | with 5 s, 10 s and 15 s windows one event reads (1, 1, 1) at once, (0, 1, 1) after 6 s, (0, 0, 1) after 12 s and (0, 0, 0) after 18 s |
| Scenarios.CloseEventsTick | src/test/java/com/rashid/ConcurrentEventCounterTest.java:41-60 | one buffer pass 1.15 s after events at t, t + 50 and t + 100, which drains all three, followed by the other passes, leaves one bucket of three anchored at t in the minute queue |
| Scenarios.FirstTick | src/test/java/com/rashid/ConcurrentEventCounterTest.java:100-103 | with 5 s, 10 s and 15 s windows, the passes 6 s after one event move its bucket to the hour queue and take it off the minute total only |
| Scenarios.SecondTick | src/test/java/com/rashid/ConcurrentEventCounterTest.java:105-108 | the passes 12 s after the event move its bucket on to the day queue and take it off the hour total |
| Scenarios.ThirdTick | src/test/java/com/rashid/ConcurrentEventCounterTest.java:110-113 | the passes 18 s after the event discard its bucket and leave the counter empty |
| Scenarios.SixSecondsLater | src/test/java/com/rashid/ConcurrentEventCounterTest.java:100-103 | 6 s after the event it has left the minute tier only |
| Scenarios.TwelveSecondsLater | src/test/java/com/rashid/ConcurrentEventCounterTest.java:105-108 | 12 s after the event it has left the hour tier too |
| Scenarios.EighteenSecondsLater | src/test/java/com/rashid/ConcurrentEventCounterTest.java:110-113 | 18 s after the event the counter is empty again |
| Scenarios.RunPass | src/main/java/com/rashid/ConcurrentEventCounter.java:43-118 | one background pass, whichever the scheduler picks, reaches the state its function gives and keeps the invariant |
| Scenarios.RunSchedule | src/main/java/com/rashid/ConcurrentEventCounter.java:43-118 | any sequence of passes at any instants reaches the state the schedule function gives and keeps the invariant |
| Scenarios.SubmitWave | src/test/java/com/rashid/ConcurrentEventCounterTest.java:170-183 | n submissions at one instant append n copies of that instant to the buffer and add n to each total |
| Scenarios.WaveOnZeroReading | src/test/java/com/rashid/ConcurrentEventCounterTest.java:131 | a wave on a counter that reads zero leaves exactly that wave in the buffer |
| Scenarios.FirstWaveTick | src/test/java/com/rashid/ConcurrentEventCounterTest.java:133-136 | with 5 s, 12 s and 17 s windows, the passes 3 s after a wave of n merge it into one bucket of n that stays in the minute tier |
| Scenarios.WaveDrain | src/main/java/com/rashid/ConcurrentEventCounter.java:51-68 | a wave of n events submitted at one instant onto an empty buffer drains into one bucket of n at the tail of the minute queue, and adds n to every total |
| Scenarios.SecondWaveTick | src/test/java/com/rashid/ConcurrentEventCounterTest.java:138-144 | after a second wave at 3 s, the passes at 8 s move the first wave's bucket to the hour queue and keep the second's in the minute queue |
| Scenarios.LastWaveTick | src/test/java/com/rashid/ConcurrentEventCounterTest.java:145-148 | the passes at 25 s discard both buckets and leave the counter empty |
| Scenarios.WaveOnNewCounter | src/test/java/com/rashid/ConcurrentEventCounterTest.java:131 | a wave of n events at t on a counter that reads zero leaves n copies of t in the buffer and n in each total |
| Scenarios.TwoWavesShortWindows | src/test/java/com/rashid/ConcurrentEventCounterTest.java:118-152 | with 5 s, 12 s and 17 s windows, two waves of n events 3 s apart read (n, n, n) at 3 s; at 8 s the minute total is at least n and below 2n while the hour and day totals are 2n, in fact (n, 2n, 2n); and (0, 0, 0) at 25 s |
| Scenarios.ThreeSecondsIntoTwoWaves | src/test/java/com/rashid/ConcurrentEventCounterTest.java:133-136 | 3 s after the first wave it is one bucket of n in the minute tier, read as (n, n, n) |
| Scenarios.EightSecondsIntoTwoWaves | src/test/java/com/rashid/ConcurrentEventCounterTest.java:138-144 | the second wave followed by the passes at 8 s read (n, 2n, 2n) |
| Scenarios.TwentyFiveSecondsIntoTwoWaves | src/test/java/com/rashid/ConcurrentEventCounterTest.java:145-148 | 25 s after the first wave the counter reads (0, 0, 0) |

## Left out

- Scheduling is left out (lines 26-29, 44, 71, 78, 86, 93, 102, 109, 117). That covers the four single-thread executors, the fixed delays (200 ms for the buffer pass, 1 s for the others) and the initial delays of the hour and day passes. Each pass is a method the caller invokes, and `Scenarios.RunSchedule` runs any sequence of passes at any instants. The scenarios of tests that need buckets to expire run every pass once at each instant they read the totals. An hour or day pass that would not yet have started removes nothing at those instants anyway.
- `stopWorkers` (lines 169-174) is not modelled, because it only shuts down the executors.
- Concurrency is not modelled. The atomic counters and the concurrent queues are plain fields, and each operation runs alone. The multi-threaded tests (test lines 62-84 and 118-152) are modelled as two waves of events, each submitted at one instant, by `Scenarios.TwoWavesWithinMinute` and `Scenarios.TwoWavesShortWindows`. The interleaving of the submitting threads with each other and with the passes is not modelled.
- The source reads the clock again on every iteration of an eviction loop (lines 80, 95, 111, through `isInLastPeriod`). The model reads `now` once per pass, so a pass that runs across a millisecond boundary may, in the source, remove a bucket that the model's pass keeps.
- Pipeline.MinutePassLeavesFresh, HourPassLeavesFresh and DayPassLeavesFresh require `Ordered`. The source gives no such guarantee under concurrency: submitting threads can offer their timestamps out of clock order, and the wall clock can go backwards. `Pipeline.SubmitOrdered` needs each submission to be no earlier than every held timestamp, and `Pipeline.UnorderedLeavesExpired` shows an expired bucket left behind when that fails.
- `Thread.interrupted()` (lines 51, 80, 95, 111) is not modelled. The passes run to completion. An interrupt in the source can end the buffer pass after a timestamp was polled but before its bucket was offered, losing that event from the queues but not from the totals.
- Counter.ConcurrentEventCounter.SubmitEvent: returns `true` unconditionally, because an unbounded `ConcurrentLinkedQueue.offer` never fails. The `if (result)` branch of line 143 is kept.
- Buckets.EventsBucket.IncrementCountOfEvents: Java `int` overflow of `countOfEvents` after 2^31 - 1 merged events is not modelled; counts are unbounded integers. The same holds for the `long` totals and timestamps.
- The Java `long` wrap-around of `Math.abs` and of `now - millis` at the extremes of the `long` range is not modelled; differences are exact.
- Queues hold `Bucket` values, not references to `EventsBucket` objects. The source never changes a bucket after offering it, so no aliasing is observable. The open bucket of the buffer pass is an `EventsBucket` object.
- Counter.ConcurrentEventCounter.DrainBuffer, EvictMinute, EvictHour, EvictDay and SubmitEvent state the new state, not the invariant `Valid`. The `Pipeline.*Conserves` lemmas prove that each of those state functions keeps the invariant.
- Counter.ConcurrentEventCounter.GetQuantityByLastMinute, GetQuantityByLastHour and GetQuantityByLastDay require `Valid`. The constructor establishes it and every operation keeps it, so every reachable counter meets it.
- The time windows are constructor parameters, not static constants. The tests replace the constants by reflection (test lines 154-168), which this gives directly. The defaults are `MILLIS_IN_MINUTE`, `MILLIS_IN_HOUR` and `MILLIS_IN_DAY`.
- The `EventCounter` interface (EventCounter.java) is not modelled separately; its operations are the class's methods.
