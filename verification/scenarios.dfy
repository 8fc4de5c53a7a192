/** The behaviours the repository's tests check, replayed on the model with the
    clock as an explicit argument. Where a test waits for the background tasks
    to run, the scenario either runs each of them once, in pipeline order, at
    the instant of the reading, or lets the caller choose any schedule of
    passes; a reading taken right after submission comes before any pass. */
module Scenarios {
  import opened Buckets
  import opened Compression
  import opened Tiers
  import opened Pipeline
  import opened Counter

  datatype Reading = Reading(minute: int, hour: int, day: int)

  /** What the three getters report. */
  function Read(c: ConcurrentEventCounter): (r: Reading)
    reads c
    requires c.Valid()
    ensures 0 <= r.minute <= r.hour <= r.day
  {
    Reading(c.GetQuantityByLastMinute(), c.GetQuantityByLastHour(), c.GetQuantityByLastDay())
  }

  method Submit(c: ConcurrentEventCounter, now: int)
    requires c.Valid()
    modifies c
    ensures c.Valid()
    ensures c.State() == AfterSubmit(old(c.State()), now)
  {
    SubmitConserves(c.State(), now);
    var accepted := c.SubmitEvent(now);
  }

  /** One run of each background task, in pipeline order, at the instant `now`. */
  function Tick(s: CounterState, now: int, minute: int, hour: int, day: int): CounterState
  {
    AfterDayPass(AfterHourPass(AfterMinutePass(AfterDrain(s), now, minute), now, hour), now, day)
  }

  method RunPasses(c: ConcurrentEventCounter, now: int)
    requires c.Valid()
    modifies c
    ensures c.Valid()
    ensures c.State() == Tick(old(c.State()), now, c.millisInMinute, c.millisInHour, c.millisInDay)
  {
    DrainConserves(c.State());
    c.DrainBuffer();
    MinutePassConserves(c.State(), now, c.millisInMinute);
    c.EvictMinute(now);
    HourPassConserves(c.State(), now, c.millisInHour);
    c.EvictHour(now);
    DayPassConserves(c.State(), now, c.millisInDay);
    c.EvictDay(now);
  }

  /** 6 s after an event it has left the 5 s minute tier only. */
  lemma FirstTick(t0: int)
    ensures Tick(CounterState([t0], [], [], [], 1, 1, 1), t0 + 6000, 5000, 10000, 15000)
         == CounterState([], [], [Bucket(t0, 1)], [], 0, 1, 1)
  {
    var s1 := AfterDrain(CounterState([t0], [], [], [], 1, 1, 1));
    assert s1.minuteQueue == [Bucket(t0, 1)];
    var s2 := AfterMinutePass(s1, t0 + 6000, 5000);
    assert ExpiredCount(s1.minuteQueue, t0 + 6000, 5000) == 1;
    assert s1.minuteQueue[..1] == [Bucket(t0, 1)] && s1.minuteQueue[1..] == [];
    assert Sum([Bucket(t0, 1)]) == 1 by { assert [Bucket(t0, 1)][1..] == []; }
    assert s2 == CounterState([], [], [Bucket(t0, 1)], [], 0, 1, 1);
    assert ExpiredCount(s2.hourQueue, t0 + 6000, 10000) == 0;
  }

  /** 12 s after the event it has left the 10 s hour tier too. */
  lemma SecondTick(t0: int)
    ensures Tick(CounterState([], [], [Bucket(t0, 1)], [], 0, 1, 1), t0 + 12000, 5000, 10000, 15000)
         == CounterState([], [], [], [Bucket(t0, 1)], 0, 0, 1)
  {
    var s1 := AfterDrain(CounterState([], [], [Bucket(t0, 1)], [], 0, 1, 1));
    assert s1 == CounterState([], [], [Bucket(t0, 1)], [], 0, 1, 1);
    var s2 := AfterMinutePass(s1, t0 + 12000, 5000);
    assert s2 == s1;
    var s3 := AfterHourPass(s2, t0 + 12000, 10000);
    assert ExpiredCount(s2.hourQueue, t0 + 12000, 10000) == 1;
    assert s2.hourQueue[..1] == [Bucket(t0, 1)] && s2.hourQueue[1..] == [];
    assert Sum([Bucket(t0, 1)]) == 1 by { assert [Bucket(t0, 1)][1..] == []; }
    assert s3 == CounterState([], [], [], [Bucket(t0, 1)], 0, 0, 1);
    assert ExpiredCount(s3.dayQueue, t0 + 12000, 15000) == 0;
  }

  /** 18 s after the event it has left the 15 s day tier as well. */
  lemma ThirdTick(t0: int)
    ensures Tick(CounterState([], [], [], [Bucket(t0, 1)], 0, 0, 1), t0 + 18000, 5000, 10000, 15000)
         == Empty
  {
    var s1 := AfterDrain(CounterState([], [], [], [Bucket(t0, 1)], 0, 0, 1));
    assert s1 == CounterState([], [], [], [Bucket(t0, 1)], 0, 0, 1);
    var s3 := AfterHourPass(AfterMinutePass(s1, t0 + 18000, 5000), t0 + 18000, 10000);
    assert s3 == s1;
    assert ExpiredCount(s3.dayQueue, t0 + 18000, 15000) == 1;
    assert s3.dayQueue[..1] == [Bucket(t0, 1)] && s3.dayQueue[1..] == [];
    assert Sum([Bucket(t0, 1)]) == 1 by { assert [Bucket(t0, 1)][1..] == []; }
  }

  /** A counter that reads zero holds nothing, so a wave leaves exactly that
      wave in the buffer. */
  lemma WaveOnZeroReading(s: CounterState, t: int, n: nat)
    requires Conserved(s) && s.quantityByLastDay == 0
    ensures AfterWave(s, t, n) == CounterState(Repeat(t, n), [], [], [], n, n, n)
  {
    SumAtLeastLength(s.minuteQueue);
    SumAtLeastLength(s.hourQueue);
    SumAtLeastLength(s.dayQueue);
    assert s.buffer + Repeat(t, n) == Repeat(t, n);
  }

  /** With 5 s, 12 s and 17 s windows, 3 s after a wave of `n` events: one
      bucket of `n` in the minute tier. */
  lemma FirstWaveTick(t0: int, n: nat)
    requires n >= 1
    ensures Tick(CounterState(Repeat(t0, n), [], [], [], n, n, n), t0 + 3000, 5000, 12000, 17000)
         == CounterState([], [Bucket(t0, n)], [], [], n, n, n)
  {
    CompressSameInstant(Repeat(t0, n));
    var s1 := AfterDrain(CounterState(Repeat(t0, n), [], [], [], n, n, n));
    assert s1 == CounterState([], [Bucket(t0, n)], [], [], n, n, n);
    assert ExpiredCount(s1.minuteQueue, t0 + 3000, 5000) == 0;
    assert s1.minuteQueue[..0] == [] && s1.minuteQueue[0..] == s1.minuteQueue;
  }

  /** A wave of `n` events submitted at one instant onto an empty buffer
      drains into one bucket of `n` at the tail of the minute queue. */
  lemma WaveDrain(s: CounterState, t: int, n: nat)
    requires n >= 1 && s.buffer == []
    ensures AfterDrain(AfterWave(s, t, n))
         == s.(minuteQueue := s.minuteQueue + [Bucket(t, n)],
               quantityByLastMinute := s.quantityByLastMinute + n,
               quantityByLastHour := s.quantityByLastHour + n,
               quantityByLastDay := s.quantityByLastDay + n)
  {
    assert AfterWave(s, t, n).buffer == Repeat(t, n);
    CompressSameInstant(Repeat(t, n));
  }

  /** A second wave of `n` events at 3 s; 8 s after the first wave its bucket
      has left the 5 s minute tier, while the second wave's has not. */
  lemma SecondWaveTick(t0: int, n: nat)
    requires n >= 1
    ensures Tick(AfterWave(CounterState([], [Bucket(t0, n)], [], [], n, n, n), t0 + 3000, n),
                 t0 + 8000, 5000, 12000, 17000)
         == CounterState([], [Bucket(t0 + 3000, n)], [Bucket(t0, n)], [], n, 2 * n, 2 * n)
  {
    WaveDrain(CounterState([], [Bucket(t0, n)], [], [], n, n, n), t0 + 3000, n);
    var q := [Bucket(t0, n), Bucket(t0 + 3000, n)];
    var s1 := CounterState([], q, [], [], 2 * n, 2 * n, 2 * n);
    assert ExpiredCount(q[1..], t0 + 8000, 5000) == 0;
    assert ExpiredCount(q, t0 + 8000, 5000) == 1;
    assert q[..1] == [Bucket(t0, n)] && q[1..] == [Bucket(t0 + 3000, n)];
    assert Sum([Bucket(t0, n)]) == n by { assert [Bucket(t0, n)][1..] == []; }
    var s2 := AfterMinutePass(s1, t0 + 8000, 5000);
    assert s2 == CounterState([], [Bucket(t0 + 3000, n)], [Bucket(t0, n)], [], n, 2 * n, 2 * n);
    assert ExpiredCount(s2.hourQueue, t0 + 8000, 12000) == 0;
    assert s2.hourQueue[..0] == [] && s2.hourQueue[0..] == s2.hourQueue;
  }

  /** 25 s after the first wave both buckets have left every tier. */
  lemma LastWaveTick(t0: int, n: nat)
    ensures Tick(CounterState([], [Bucket(t0 + 3000, n)], [Bucket(t0, n)], [], n, 2 * n, 2 * n),
                 t0 + 25000, 5000, 12000, 17000)
         == Empty
  {
    var both := [Bucket(t0, n), Bucket(t0 + 3000, n)];
    assert Sum([Bucket(t0, n)]) == n by { assert [Bucket(t0, n)][1..] == []; }
    assert Sum([Bucket(t0 + 3000, n)]) == n by { assert [Bucket(t0 + 3000, n)][1..] == []; }
    assert Sum(both) == 2 * n by {
      assert both == [Bucket(t0, n)] + [Bucket(t0 + 3000, n)];
      SumAppend([Bucket(t0, n)], [Bucket(t0 + 3000, n)]);
    }
    var s1 := AfterDrain(CounterState([], [Bucket(t0 + 3000, n)], [Bucket(t0, n)], [], n, 2 * n, 2 * n));
    assert s1 == CounterState([], [Bucket(t0 + 3000, n)], [Bucket(t0, n)], [], n, 2 * n, 2 * n);
    assert ExpiredCount(s1.minuteQueue, t0 + 25000, 5000) == 1;
    assert s1.minuteQueue[..1] == s1.minuteQueue && s1.minuteQueue[1..] == [];
    var s2 := AfterMinutePass(s1, t0 + 25000, 5000);
    assert s2 == CounterState([], [], both, [], 0, 2 * n, 2 * n);
    assert ExpiredCount(both, t0 + 25000, 12000) == 2;
    assert both[..2] == both && both[2..] == [];
    var s3 := AfterHourPass(s2, t0 + 25000, 12000);
    assert s3 == CounterState([], [], [], both, 0, 0, 2 * n);
    assert ExpiredCount(both, t0 + 25000, 17000) == 2;
  }

  /** Three events 50 ms apart, all drained by one buffer pass 1.15 s after
      the first: one bucket of three, still in the minute tier. */
  lemma CloseEventsTick(t: int)
    ensures Tick(CounterState([t, t + 50, t + 100], [], [], [], 3, 3, 3), t + 1150,
                 MILLIS_IN_MINUTE, MILLIS_IN_HOUR, MILLIS_IN_DAY)
         == CounterState([], [Bucket(t, 3)], [], [], 3, 3, 3)
  {
    var ts := [t, t + 50, t + 100];
    assert Runs(Bucket(t, 3), []) == [Bucket(t, 3)];
    assert Runs(Bucket(t, 2), [t + 100]) == [Bucket(t, 3)];
    assert Runs(Bucket(t, 1), [t + 50, t + 100]) == [Bucket(t, 3)];
    assert Compress(ts) == [Bucket(t, 3)];
    var s1 := AfterDrain(CounterState(ts, [], [], [], 3, 3, 3));
    assert s1 == CounterState([], [Bucket(t, 3)], [], [], 3, 3, 3);
    assert ExpiredCount(s1.minuteQueue, t + 1150, MILLIS_IN_MINUTE) == 0;
  }

  /** One background pass, run at the instant its step names. */
  method RunPass(c: ConcurrentEventCounter, step: Step)
    requires c.Valid()
    modifies c
    ensures c.Valid()
    ensures c.State() == AfterPass(old(c.State()), step, c.millisInMinute, c.millisInHour, c.millisInDay)
  {
    match step.pass
    case Drain =>
      DrainConserves(c.State());
      c.DrainBuffer();
    case MinutePass =>
      MinutePassConserves(c.State(), step.at, c.millisInMinute);
      c.EvictMinute(step.at);
    case HourPass =>
      HourPassConserves(c.State(), step.at, c.millisInHour);
      c.EvictHour(step.at);
    case DayPass =>
      DayPassConserves(c.State(), step.at, c.millisInDay);
      c.EvictDay(step.at);
  }

  /** The background passes in the order and at the instants the scheduler
      picks. */
  method RunSchedule(c: ConcurrentEventCounter, steps: seq<Step>)
    requires c.Valid()
    modifies c
    ensures c.Valid()
    ensures c.State() == AfterSchedule(old(c.State()), steps, c.millisInMinute, c.millisInHour, c.millisInDay)
  {
    ghost var s0 := c.State();
    for i := 0 to |steps|
      invariant c.Valid()
      invariant c.State() == AfterSchedule(s0, steps[..i], c.millisInMinute, c.millisInHour, c.millisInDay)
    {
      RunPass(c, steps[i]);
      assert steps[..i + 1][..i] == steps[..i];
    }
    assert steps[..|steps|] == steps;
  }

  /** `n` timestamps, all `t`. */
  function Repeat(t: int, n: nat): seq<int>
  {
    seq(n, _ => t)
  }

  /** `n` events submitted at the same instant `t`. */
  function AfterWave(s: CounterState, t: int, n: nat): CounterState
  {
    s.(buffer := s.buffer + Repeat(t, n),
       quantityByLastMinute := s.quantityByLastMinute + n,
       quantityByLastHour := s.quantityByLastHour + n,
       quantityByLastDay := s.quantityByLastDay + n)
  }

  /** A wave submitted no earlier than `t0` keeps every held event at or after
      `t0`, and adds its events to each total. */
  lemma WaveHeldSince(s: CounterState, t0: int, t: int, n: nat)
    requires HeldSince(s, t0) && t0 <= t
    ensures HeldSince(AfterWave(s, t, n), t0)
  {
    var b := s.buffer + Repeat(t, n);
    forall j | 0 <= j < |b| ensures t0 <= b[j] {
      if j >= |s.buffer| { assert b[j] == Repeat(t, n)[j - |s.buffer|]; }
    }
  }

  method SubmitWave(c: ConcurrentEventCounter, t: int, n: nat)
    requires c.Valid()
    modifies c
    ensures c.Valid()
    ensures c.State() == AfterWave(old(c.State()), t, n)
  {
    ghost var s0 := c.State();
    for i := 0 to n
      invariant c.Valid()
      invariant c.State() == AfterWave(s0, t, i)
    {
      Submit(c, t);
      assert s0.buffer + Repeat(t, i) + [t] == s0.buffer + Repeat(t, i + 1);
    }
  }

  /** A new counter reads zero and holds nothing, so everything it holds
      happened at or after any instant `t0`. */
  method NewCounter(minute: int, hour: int, day: int, t0: int) returns (c: ConcurrentEventCounter)
    ensures fresh(c) && c.Valid()
    ensures c.millisInMinute == minute && c.millisInHour == hour && c.millisInDay == day
    ensures Read(c) == Reading(0, 0, 0) && HeldSince(c.State(), t0)
  {
    c := new ConcurrentEventCounter(minute, hour, day);
    EmptyHeldSince(t0);
  }

  /** On a counter that reads `before`, whose held events all happened at `t0`
      or later and none of which has left the minute tier, a wave of `n` events
      at `t`, no earlier than `t0`, is counted in all three tiers at once, and
      still is after any schedule of passes that all run within the minute
      window of `t0`. */
  method WaveWithinWindow(c: ConcurrentEventCounter, before: Reading, t0: int, t: int, n: nat, steps: seq<Step>)
    returns (submitted: Reading, later: Reading)
    requires c.Valid() && Read(c) == before && HeldSince(c.State(), t0) && t0 <= t
    requires forall i :: 0 <= i < |steps| ==> steps[i].at - t0 <= c.millisInMinute
    modifies c
    ensures c.Valid() && HeldSince(c.State(), t0)
    ensures submitted == Reading(before.minute + n, before.hour + n, before.day + n)
    ensures later == submitted && later == Read(c)
  {
    WaveHeldSince(c.State(), t0, t, n);
    SubmitWave(c, t, n);
    submitted := Read(c);
    ScheduleWithinWindow(c.State(), steps, t0, c.millisInMinute, c.millisInHour, c.millisInDay);
    RunSchedule(c, steps);
    later := Read(c);
  }

  /** `n` events submitted at one instant are counted in all three tiers at
      once, and still are after any schedule of passes that all run within a
      minute of the submission. */
  method NoDecayWithinMinute(n: nat, now: int, steps: seq<Step>) returns (submitted: Reading, later: Reading)
    requires forall i :: 0 <= i < |steps| ==> steps[i].at <= now + MILLIS_IN_MINUTE
    ensures submitted == Reading(n, n, n)
    ensures later == Reading(n, n, n)
  {
    var c := NewCounter(MILLIS_IN_MINUTE, MILLIS_IN_HOUR, MILLIS_IN_DAY, now);
    submitted, later := WaveWithinWindow(c, Reading(0, 0, 0), now, now, n, steps);
  }

  /** Two waves of `n` events on a counter that reads `before` and whose held
      events all happened at `t0` or later: after the first wave at `t0` and
      the passes `first`, then the second wave at `t1` and the passes
      `second`, every event of both waves is counted in all three tiers, as
      long as every pass runs within the minute window of `t0`. */
  method TwoWavesOn(c: ConcurrentEventCounter, before: Reading, n: nat, t0: int, t1: int,
                    first: seq<Step>, second: seq<Step>)
    returns (afterFirst: Reading, afterSecond: Reading)
    requires c.Valid() && Read(c) == before && HeldSince(c.State(), t0) && t0 <= t1
    requires forall i :: 0 <= i < |first| ==> first[i].at - t0 <= c.millisInMinute
    requires forall i :: 0 <= i < |second| ==> second[i].at - t0 <= c.millisInMinute
    modifies c
    ensures afterFirst == Reading(before.minute + n, before.hour + n, before.day + n)
    ensures afterSecond == Reading(before.minute + 2 * n, before.hour + 2 * n, before.day + 2 * n)
  {
    var submitted;
    submitted, afterFirst := WaveWithinWindow(c, before, t0, t0, n, first);
    submitted, afterSecond := WaveWithinWindow(c, afterFirst, t0, t1, n, second);
  }

  /** Two waves of `n` events, the second at `t1`, no earlier than the first
      at `t0`, on a new counter: each wave is counted in all three tiers after
      any schedule of passes that all run within a minute of the first wave. */
  method TwoWavesWithinMinute(n: nat, t0: int, t1: int, first: seq<Step>, second: seq<Step>)
    returns (afterFirst: Reading, afterSecond: Reading)
    requires t0 <= t1
    requires forall i :: 0 <= i < |first| ==> first[i].at <= t0 + MILLIS_IN_MINUTE
    requires forall i :: 0 <= i < |second| ==> second[i].at <= t0 + MILLIS_IN_MINUTE
    ensures afterFirst == Reading(n, n, n)
    ensures afterSecond == Reading(2 * n, 2 * n, 2 * n)
  {
    var c := NewCounter(MILLIS_IN_MINUTE, MILLIS_IN_HOUR, MILLIS_IN_DAY, t0);
    afterFirst, afterSecond := TwoWavesOn(c, Reading(0, 0, 0), n, t0, t1, first, second);
  }

  /** With 5 s, 10 s and 15 s windows, one event reads (1, 1, 1) when it is
      submitted, (0, 1, 1) 6 s later, (0, 0, 1) 12 s later and (0, 0, 0) 18 s
      later. */
  method ShortWindows(t0: int) returns (r0: Reading, r6: Reading, r12: Reading, r18: Reading)
    ensures r0 == Reading(1, 1, 1)
    ensures r6 == Reading(0, 1, 1)
    ensures r12 == Reading(0, 0, 1)
    ensures r18 == Reading(0, 0, 0)
  {
    var c := new ConcurrentEventCounter(5000, 10000, 15000);
    Submit(c, t0);
    assert c.State() == CounterState([t0], [], [], [], 1, 1, 1);
    r0 := Read(c);
    r6 := SixSecondsLater(c, t0);
    r12 := TwelveSecondsLater(c, t0);
    r18 := EighteenSecondsLater(c, t0);
  }

  method SixSecondsLater(c: ConcurrentEventCounter, t0: int) returns (r: Reading)
    requires c.millisInMinute == 5000 && c.millisInHour == 10000 && c.millisInDay == 15000
    requires c.Valid() && c.State() == CounterState([t0], [], [], [], 1, 1, 1)
    modifies c
    ensures c.Valid() && c.State() == CounterState([], [], [Bucket(t0, 1)], [], 0, 1, 1)
    ensures r == Reading(0, 1, 1)
  {
    RunPasses(c, t0 + 6000);
    assert c.State() == CounterState([], [], [Bucket(t0, 1)], [], 0, 1, 1) by { FirstTick(t0); }
    r := Read(c);
  }

  method TwelveSecondsLater(c: ConcurrentEventCounter, t0: int) returns (r: Reading)
    requires c.millisInMinute == 5000 && c.millisInHour == 10000 && c.millisInDay == 15000
    requires c.Valid() && c.State() == CounterState([], [], [Bucket(t0, 1)], [], 0, 1, 1)
    modifies c
    ensures c.Valid() && c.State() == CounterState([], [], [], [Bucket(t0, 1)], 0, 0, 1)
    ensures r == Reading(0, 0, 1)
  {
    RunPasses(c, t0 + 12000);
    assert c.State() == CounterState([], [], [], [Bucket(t0, 1)], 0, 0, 1) by { SecondTick(t0); }
    r := Read(c);
  }

  method EighteenSecondsLater(c: ConcurrentEventCounter, t0: int) returns (r: Reading)
    requires c.millisInMinute == 5000 && c.millisInHour == 10000 && c.millisInDay == 15000
    requires c.Valid() && c.State() == CounterState([], [], [], [Bucket(t0, 1)], 0, 0, 1)
    modifies c
    ensures c.Valid() && c.State() == Empty
    ensures r == Reading(0, 0, 0)
  {
    RunPasses(c, t0 + 18000);
    assert c.State() == Empty by { ThirdTick(t0); }
    r := Read(c);
  }

  /** Three events 50 ms apart, drained together by one buffer pass 1.15 s
      after the first, merge into one bucket anchored at the first, and all
      three are still counted. */
  method ThreeCloseEvents(t: int) returns (r: Reading, minuteQueue: seq<Bucket>)
    ensures r == Reading(3, 3, 3)
    ensures minuteQueue == [Bucket(t, 3)]
  {
    var c := new ConcurrentEventCounter(MILLIS_IN_MINUTE, MILLIS_IN_HOUR, MILLIS_IN_DAY);
    Submit(c, t);
    Submit(c, t + 50);
    Submit(c, t + 100);
    assert c.State() == CounterState([t, t + 50, t + 100], [], [], [], 3, 3, 3);
    RunPasses(c, t + 1150);
    assert c.State() == CounterState([], [Bucket(t, 3)], [], [], 3, 3, 3) by { CloseEventsTick(t); }
    r := Read(c);
    minuteQueue := c.minuteQueue;
  }

  /** Three events 50 ms apart, each followed by any passes the scheduler
      runs, read (3, 3, 3) after the third, and still do after any further
      passes, as long as every pass runs within a minute of the first event. */
  method ThreeCloseEventsAnySchedule(t: int, s1: seq<Step>, s2: seq<Step>, s3: seq<Step>, later: seq<Step>)
    returns (r: Reading, rLater: Reading)
    requires forall i :: 0 <= i < |s1| ==> s1[i].at <= t + MILLIS_IN_MINUTE
    requires forall i :: 0 <= i < |s2| ==> s2[i].at <= t + MILLIS_IN_MINUTE
    requires forall i :: 0 <= i < |s3| ==> s3[i].at <= t + MILLIS_IN_MINUTE
    requires forall i :: 0 <= i < |later| ==> later[i].at <= t + MILLIS_IN_MINUTE
    ensures r == Reading(3, 3, 3)
    ensures rLater == Reading(3, 3, 3)
  {
    var c := NewCounter(MILLIS_IN_MINUTE, MILLIS_IN_HOUR, MILLIS_IN_DAY, t);
    var submitted, r1 := WaveWithinWindow(c, Reading(0, 0, 0), t, t, 1, s1);
    var r2;
    submitted, r2 := WaveWithinWindow(c, r1, t, t + 50, 1, s2);
    submitted, r := WaveWithinWindow(c, r2, t, t + 100, 1, s3);
    submitted, rLater := WaveWithinWindow(c, r, t, t + 100, 0, later);
  }

  /** A wave of `n` events at `t` on a counter that reads zero. */
  method WaveOnNewCounter(c: ConcurrentEventCounter, t: int, n: nat)
    requires c.Valid() && Read(c) == Reading(0, 0, 0)
    modifies c
    ensures c.Valid() && c.State() == CounterState(Repeat(t, n), [], [], [], n, n, n)
  {
    ghost var s0 := c.State();
    SubmitWave(c, t, n);
    WaveOnZeroReading(s0, t, n);
  }

  /** With 5 s, 12 s and 17 s windows, two waves of `n` events 3 s apart read
      (n, n, n) 3 s after the first wave, just before the second; (n, 2n, 2n)
      8 s after the first wave, so the minute total is at least n and below
      2n; and (0, 0, 0) 25 s after it. */
  method TwoWavesShortWindows(t0: int, n: nat) returns (r3: Reading, r8: Reading, r25: Reading)
    requires n >= 1
    ensures r3 == Reading(n, n, n)
    ensures n <= r8.minute < 2 * n && r8.hour == 2 * n && r8.day == 2 * n
    ensures r8 == Reading(n, 2 * n, 2 * n)
    ensures r25 == Reading(0, 0, 0)
  {
    var c := NewCounter(5000, 12000, 17000, t0);
    WaveOnNewCounter(c, t0, n);
    r3 := ThreeSecondsIntoTwoWaves(c, t0, n);
    r8 := EightSecondsIntoTwoWaves(c, t0, n);
    r25 := TwentyFiveSecondsIntoTwoWaves(c, t0, n);
  }

  method ThreeSecondsIntoTwoWaves(c: ConcurrentEventCounter, t0: int, n: nat) returns (r: Reading)
    requires n >= 1
    requires c.millisInMinute == 5000 && c.millisInHour == 12000 && c.millisInDay == 17000
    requires c.Valid() && c.State() == CounterState(Repeat(t0, n), [], [], [], n, n, n)
    modifies c
    ensures c.Valid() && c.State() == CounterState([], [Bucket(t0, n)], [], [], n, n, n)
    ensures r == Reading(n, n, n)
  {
    RunPasses(c, t0 + 3000);
    assert c.State() == CounterState([], [Bucket(t0, n)], [], [], n, n, n) by { FirstWaveTick(t0, n); }
    r := Read(c);
  }

  method EightSecondsIntoTwoWaves(c: ConcurrentEventCounter, t0: int, n: nat) returns (r: Reading)
    requires n >= 1
    requires c.millisInMinute == 5000 && c.millisInHour == 12000 && c.millisInDay == 17000
    requires c.Valid() && c.State() == CounterState([], [Bucket(t0, n)], [], [], n, n, n)
    modifies c
    ensures c.Valid() && c.State() == CounterState([], [Bucket(t0 + 3000, n)], [Bucket(t0, n)], [], n, 2 * n, 2 * n)
    ensures r == Reading(n, 2 * n, 2 * n)
  {
    SubmitWave(c, t0 + 3000, n);
    RunPasses(c, t0 + 8000);
    assert c.State() == CounterState([], [Bucket(t0 + 3000, n)], [Bucket(t0, n)], [], n, 2 * n, 2 * n) by {
      SecondWaveTick(t0, n);
    }
    r := Read(c);
  }

  method TwentyFiveSecondsIntoTwoWaves(c: ConcurrentEventCounter, t0: int, n: nat) returns (r: Reading)
    requires c.millisInMinute == 5000 && c.millisInHour == 12000 && c.millisInDay == 17000
    requires c.Valid() && c.State() == CounterState([], [Bucket(t0 + 3000, n)], [Bucket(t0, n)], [], n, 2 * n, 2 * n)
    modifies c
    ensures c.Valid()
    ensures r == Reading(0, 0, 0)
  {
    RunPasses(c, t0 + 25000);
    assert c.State() == Empty by { LastWaveTick(t0, n); }
    r := Read(c);
  }
}
