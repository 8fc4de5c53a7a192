/** The counter's state as a value, and what each operation does to it.

    The buffer holds raw timestamps; the minute, hour and day queues hold
    buckets; each tier has a running total. `Conserved` is the invariant that
    ties the totals to the queues: the minute total counts the buffer and the
    minute queue, the hour total adds the hour queue, the day total adds the day
    queue. Every operation keeps it. */
module Pipeline {
  import opened Buckets
  import opened Compression
  import opened Tiers

  datatype CounterState = CounterState(
    buffer: seq<int>,
    minuteQueue: seq<Bucket>,
    hourQueue: seq<Bucket>,
    dayQueue: seq<Bucket>,
    quantityByLastMinute: int,
    quantityByLastHour: int,
    quantityByLastDay: int)

  predicate Conserved(s: CounterState)
  {
    AllPositive(s.minuteQueue) && AllPositive(s.hourQueue) && AllPositive(s.dayQueue)
    && s.quantityByLastMinute == |s.buffer| + Sum(s.minuteQueue)
    && s.quantityByLastHour == s.quantityByLastMinute + Sum(s.hourQueue)
    && s.quantityByLastDay == s.quantityByLastHour + Sum(s.dayQueue)
  }

  /** Events held anywhere in the pipeline. */
  function Held(s: CounterState): int
  {
    |s.buffer| + Sum(s.minuteQueue) + Sum(s.hourQueue) + Sum(s.dayQueue)
  }

  const Empty := CounterState([], [], [], [], 0, 0, 0)

  /** Submitting an event at `now`. */
  function AfterSubmit(s: CounterState, now: int): CounterState
  {
    s.(buffer := s.buffer + [now],
       quantityByLastMinute := s.quantityByLastMinute + 1,
       quantityByLastHour := s.quantityByLastHour + 1,
       quantityByLastDay := s.quantityByLastDay + 1)
  }

  /** The buffer pass. */
  function AfterDrain(s: CounterState): CounterState
  {
    s.(buffer := [], minuteQueue := s.minuteQueue + Compress(s.buffer))
  }

  /** The minute pass with a minute window of `window` milliseconds. */
  function AfterMinutePass(s: CounterState, now: int, window: int): CounterState
  {
    var k := ExpiredCount(s.minuteQueue, now, window);
    s.(minuteQueue := s.minuteQueue[k..],
       hourQueue := s.hourQueue + s.minuteQueue[..k],
       quantityByLastMinute := s.quantityByLastMinute - Sum(s.minuteQueue[..k]))
  }

  /** The hour pass with an hour window of `window` milliseconds. */
  function AfterHourPass(s: CounterState, now: int, window: int): CounterState
  {
    var k := ExpiredCount(s.hourQueue, now, window);
    s.(hourQueue := s.hourQueue[k..],
       dayQueue := s.dayQueue + s.hourQueue[..k],
       quantityByLastHour := s.quantityByLastHour - Sum(s.hourQueue[..k]))
  }

  /** The day pass with a day window of `window` milliseconds. */
  function AfterDayPass(s: CounterState, now: int, window: int): CounterState
  {
    var k := ExpiredCount(s.dayQueue, now, window);
    s.(dayQueue := s.dayQueue[k..],
       quantityByLastDay := s.quantityByLastDay - Sum(s.dayQueue[..k]))
  }

  /** Moving the first `k` buckets of `q` to the tail of `next` splits the
      events of `q` between the two and keeps every bucket non-empty. */
  lemma Promoted(q: seq<Bucket>, k: nat, next: seq<Bucket>)
    requires k <= |q|
    requires AllPositive(q) && AllPositive(next)
    ensures Sum(q[k..]) == Sum(q) - Sum(q[..k])
    ensures Sum(next + q[..k]) == Sum(next) + Sum(q[..k])
    ensures AllPositive(q[k..]) && AllPositive(next + q[..k])
  {
    SumSplit(q, k);
    SumAppend(next, q[..k]);
    AllPositiveSplit(q, k);
    AllPositiveAppend(next, q[..k]);
  }

  lemma EmptyConserved()
    ensures Conserved(Empty) && Held(Empty) == 0
  {
  }

  /** A submission adds one event to the pipeline and one to each total. */
  lemma SubmitConserves(s: CounterState, now: int)
    requires Conserved(s)
    ensures Conserved(AfterSubmit(s, now))
    ensures Held(AfterSubmit(s, now)) == Held(s) + 1
  {
  }

  /** The buffer pass moves every buffered event into exactly one new bucket
      of the minute queue: no total and no event count changes. */
  lemma DrainConserves(s: CounterState)
    requires Conserved(s)
    ensures Conserved(AfterDrain(s))
    ensures Held(AfterDrain(s)) == Held(s)
  {
    CompressConserves(s.buffer);
    SumAppend(s.minuteQueue, Compress(s.buffer));
    AllPositiveAppend(s.minuteQueue, Compress(s.buffer));
  }

  /** The minute pass takes from the minute total exactly the events it moves
      to the hour queue; nothing leaves the pipeline. */
  lemma MinutePassConserves(s: CounterState, now: int, window: int)
    requires Conserved(s)
    ensures Conserved(AfterMinutePass(s, now, window))
    ensures Held(AfterMinutePass(s, now, window)) == Held(s)
  {
    Promoted(s.minuteQueue, ExpiredCount(s.minuteQueue, now, window), s.hourQueue);
  }

  /** The hour pass takes from the hour total exactly the events it moves to
      the day queue; nothing leaves the pipeline. */
  lemma HourPassConserves(s: CounterState, now: int, window: int)
    requires Conserved(s)
    ensures Conserved(AfterHourPass(s, now, window))
    ensures Held(AfterHourPass(s, now, window)) == Held(s)
  {
    Promoted(s.hourQueue, ExpiredCount(s.hourQueue, now, window), s.dayQueue);
  }

  /** The day pass takes from the day total exactly the events it discards. */
  lemma DayPassConserves(s: CounterState, now: int, window: int)
    requires Conserved(s)
    ensures Conserved(AfterDayPass(s, now, window))
    ensures Held(s) - Held(AfterDayPass(s, now, window))
         == s.quantityByLastDay - AfterDayPass(s, now, window).quantityByLastDay
         == Sum(s.dayQueue[..ExpiredCount(s.dayQueue, now, window)])
  {
    var k := ExpiredCount(s.dayQueue, now, window);
    SumSplit(s.dayQueue, k);
    AllPositiveSplit(s.dayQueue, k);
  }

  /** After the minute pass the minute queue is empty or its head is fresh;
      every bucket it moved was expired, left in order at the tail of the hour
      queue; the buffer, the day queue and the hour and day totals are
      untouched. */
  lemma MinutePassStops(s: CounterState, now: int, window: int)
    ensures var r := AfterMinutePass(s, now, window);
      && (r.minuteQueue == [] || Fresh(r.minuteQueue[0].time, now, window))
      && s.minuteQueue == (r.hourQueue[|s.hourQueue|..]) + r.minuteQueue
      && r.hourQueue[..|s.hourQueue|] == s.hourQueue
      && (forall b :: b in r.hourQueue[|s.hourQueue|..] ==> !Fresh(b.time, now, window))
      && r.buffer == s.buffer && r.dayQueue == s.dayQueue
      && r.quantityByLastHour == s.quantityByLastHour && r.quantityByLastDay == s.quantityByLastDay
  {
    var k := ExpiredCount(s.minuteQueue, now, window);
    ExpiredCountStops(s.minuteQueue, now, window);
    var r := AfterMinutePass(s, now, window);
    assert r.hourQueue[|s.hourQueue|..] == s.minuteQueue[..k];
    assert s.minuteQueue == s.minuteQueue[..k] + s.minuteQueue[k..];
  }

  /** The hour pass counterpart of MinutePassStops. */
  lemma HourPassStops(s: CounterState, now: int, window: int)
    ensures var r := AfterHourPass(s, now, window);
      && (r.hourQueue == [] || Fresh(r.hourQueue[0].time, now, window))
      && s.hourQueue == (r.dayQueue[|s.dayQueue|..]) + r.hourQueue
      && r.dayQueue[..|s.dayQueue|] == s.dayQueue
      && (forall b :: b in r.dayQueue[|s.dayQueue|..] ==> !Fresh(b.time, now, window))
      && r.buffer == s.buffer && r.minuteQueue == s.minuteQueue
      && r.quantityByLastMinute == s.quantityByLastMinute && r.quantityByLastDay == s.quantityByLastDay
  {
    var k := ExpiredCount(s.hourQueue, now, window);
    ExpiredCountStops(s.hourQueue, now, window);
    var r := AfterHourPass(s, now, window);
    assert r.dayQueue[|s.dayQueue|..] == s.hourQueue[..k];
    assert s.hourQueue == s.hourQueue[..k] + s.hourQueue[k..];
  }

  /** After the day pass the day queue is empty or its head is fresh; it lost
      only a prefix of expired buckets; nothing else changed. */
  lemma DayPassStops(s: CounterState, now: int, window: int)
    ensures var r := AfterDayPass(s, now, window);
      && (r.dayQueue == [] || Fresh(r.dayQueue[0].time, now, window))
      && (exists k :: 0 <= k <= |s.dayQueue| && r.dayQueue == s.dayQueue[k..]
            && (forall j :: 0 <= j < k ==> !Fresh(s.dayQueue[j].time, now, window)))
      && r.buffer == s.buffer && r.minuteQueue == s.minuteQueue && r.hourQueue == s.hourQueue
      && r.quantityByLastMinute == s.quantityByLastMinute && r.quantityByLastHour == s.quantityByLastHour
  {
    var k := ExpiredCount(s.dayQueue, now, window);
    ExpiredCountStops(s.dayQueue, now, window);
  }

  /** Every timestamp the counter holds, oldest tier first: the anchors of the
      day, hour and minute queues, then the buffer. */
  function Times(s: CounterState): seq<int>
  {
    Anchors(s.dayQueue) + Anchors(s.hourQueue) + Anchors(s.minuteQueue) + s.buffer
  }

  /** Events travel through the counter in time order: each queue is ordered
      from head to tail, each tier's buckets are no newer than the next tier's,
      and the buffer holds the newest timestamps. */
  predicate Ordered(s: CounterState)
  {
    Sorted(Times(s))
  }

  lemma EmptyOrdered()
    ensures Ordered(Empty)
  {
    assert Times(Empty) == [];
  }

  /** Submitting at an instant no earlier than anything held keeps the order. */
  lemma SubmitOrdered(s: CounterState, now: int)
    requires Ordered(s)
    requires forall i :: 0 <= i < |Times(s)| ==> Times(s)[i] <= now
    ensures Ordered(AfterSubmit(s, now))
  {
    assert Times(AfterSubmit(s, now)) == Times(s) + [now];
    SortedConcat(Times(s), [now]);
  }

  /** The buffer pass keeps the order: its buckets are anchored at run starts,
      in buffer order. */
  lemma DrainOrdered(s: CounterState)
    requires Ordered(s)
    ensures Ordered(AfterDrain(s))
  {
    var older := Anchors(s.dayQueue) + Anchors(s.hourQueue) + Anchors(s.minuteQueue);
    var c := Compress(s.buffer);
    assert Times(s) == older + s.buffer;
    AnchorsAppend(s.minuteQueue, c);
    assert Times(AfterDrain(s)) == older + Anchors(c);
    if s.buffer == [] {
      assert c == [];
      assert older + Anchors(c) == older + s.buffer;
    } else {
      assert Sorted(older) by {
        forall i, j | 0 <= i <= j < |older| ensures older[i] <= older[j] {
          assert Times(s)[i] == older[i] && Times(s)[j] == older[j];
        }
      }
      assert Sorted(s.buffer) by {
        forall i, j | 0 <= i <= j < |s.buffer| ensures s.buffer[i] <= s.buffer[j] {
          assert Times(s)[|older| + i] == s.buffer[i] && Times(s)[|older| + j] == s.buffer[j];
        }
      }
      CompressOrdered(s.buffer);
      forall i, j | 0 <= i < |older| && 0 <= j < |Anchors(c)| ensures older[i] <= Anchors(c)[j] {
        assert Times(s)[i] == older[i] && Times(s)[|older|] == s.buffer[0];
      }
      SortedConcat(older, Anchors(c));
    }
  }

  /** Moving the first `k` buckets of `q` to the tail of `a` leaves the
      anchors of the two queues, read one after the other, as they were. */
  lemma AnchorsMoveBoundary(a: seq<Bucket>, q: seq<Bucket>, k: nat)
    requires k <= |q|
    ensures Anchors(a + q[..k]) + Anchors(q[k..]) == Anchors(a) + Anchors(q)
  {
    AnchorsAppend(a, q[..k]);
    AnchorsAppend(q[..k], q[k..]);
    assert q[..k] + q[k..] == q;
  }

  /** The minute pass only moves the boundary between the hour and minute
      queues, so every held timestamp stays where it was. */
  lemma MinutePassOrdered(s: CounterState, now: int, window: int)
    ensures Times(AfterMinutePass(s, now, window)) == Times(s)
    ensures Ordered(s) ==> Ordered(AfterMinutePass(s, now, window))
  {
    var k := ExpiredCount(s.minuteQueue, now, window);
    var r := AfterMinutePass(s, now, window);
    AnchorsMoveBoundary(s.hourQueue, s.minuteQueue, k);
    assert Anchors(r.hourQueue) + Anchors(r.minuteQueue) == Anchors(s.hourQueue) + Anchors(s.minuteQueue);
    assert Times(r) == Anchors(s.dayQueue) + (Anchors(r.hourQueue) + Anchors(r.minuteQueue)) + s.buffer;
    assert Times(s) == Anchors(s.dayQueue) + (Anchors(s.hourQueue) + Anchors(s.minuteQueue)) + s.buffer;
  }

  /** The hour pass only moves the boundary between the day and hour queues. */
  lemma HourPassOrdered(s: CounterState, now: int, window: int)
    ensures Times(AfterHourPass(s, now, window)) == Times(s)
    ensures Ordered(s) ==> Ordered(AfterHourPass(s, now, window))
  {
    var k := ExpiredCount(s.hourQueue, now, window);
    var r := AfterHourPass(s, now, window);
    AnchorsMoveBoundary(s.dayQueue, s.hourQueue, k);
    assert Anchors(r.dayQueue) + Anchors(r.hourQueue) == Anchors(s.dayQueue) + Anchors(s.hourQueue);
    assert Times(r) == (Anchors(r.dayQueue) + Anchors(r.hourQueue)) + Anchors(s.minuteQueue) + s.buffer;
    assert Times(s) == (Anchors(s.dayQueue) + Anchors(s.hourQueue)) + Anchors(s.minuteQueue) + s.buffer;
  }

  /** The day pass drops the oldest held buckets and nothing else. */
  lemma DayPassOrdered(s: CounterState, now: int, window: int)
    ensures Times(AfterDayPass(s, now, window)) == Times(s)[ExpiredCount(s.dayQueue, now, window)..]
    ensures Ordered(s) ==> Ordered(AfterDayPass(s, now, window))
  {
    var k := ExpiredCount(s.dayQueue, now, window);
    var d, h, m := Anchors(s.dayQueue), Anchors(s.hourQueue), Anchors(s.minuteQueue);
    AnchorsDrop(s.dayQueue, k);
    DropConcat(d, h, k);
    DropConcat(d + h, m, k);
    DropConcat(d + h + m, s.buffer, k);
    assert Times(AfterDayPass(s, now, window)) == d[k..] + h + m + s.buffer;
    if Ordered(s) {
      SortedDrop(Times(s), k);
    }
  }

  /** In an ordered queue, once the first of the buckets from index `k` on is
      fresh, all of them are. */
  lemma FreshFrom(q: seq<Bucket>, k: nat, now: int, window: int)
    requires Sorted(Anchors(q)) && k <= |q|
    requires k == |q| || Fresh(q[k].time, now, window)
    ensures forall b :: b in q[k..] ==> Fresh(b.time, now, window)
  {
    forall b | b in q[k..] ensures Fresh(b.time, now, window) {
      var j :| 0 <= j < |q[k..]| && q[k..][j] == b;
      assert Anchors(q)[k] <= Anchors(q)[k + j];
    }
  }

  /** An ordered state's minute, hour and day queues are each ordered. */
  lemma OrderedQueues(s: CounterState)
    requires Ordered(s)
    ensures Sorted(Anchors(s.minuteQueue)) && Sorted(Anchors(s.hourQueue)) && Sorted(Anchors(s.dayQueue))
  {
    var d, h, m := Anchors(s.dayQueue), Anchors(s.hourQueue), Anchors(s.minuteQueue);
    assert Times(s) == d + h + m + s.buffer;
    forall i, j | 0 <= i <= j < |d| ensures d[i] <= d[j] {
      assert Times(s)[i] == d[i] && Times(s)[j] == d[j];
    }
    forall i, j | 0 <= i <= j < |h| ensures h[i] <= h[j] {
      assert Times(s)[|d| + i] == h[i] && Times(s)[|d| + j] == h[j];
    }
    forall i, j | 0 <= i <= j < |m| ensures m[i] <= m[j] {
      assert Times(s)[|d| + |h| + i] == m[i] && Times(s)[|d| + |h| + j] == m[j];
    }
  }

  /** On an ordered counter, after the minute pass every bucket left in the
      minute queue lies within the minute window. */
  lemma MinutePassLeavesFresh(s: CounterState, now: int, window: int)
    requires Ordered(s)
    ensures forall b :: b in AfterMinutePass(s, now, window).minuteQueue ==> Fresh(b.time, now, window)
  {
    OrderedQueues(s);
    ExpiredCountStops(s.minuteQueue, now, window);
    FreshFrom(s.minuteQueue, ExpiredCount(s.minuteQueue, now, window), now, window);
  }

  /** On an ordered counter, after the hour pass every bucket left in the hour
      queue lies within the hour window. */
  lemma HourPassLeavesFresh(s: CounterState, now: int, window: int)
    requires Ordered(s)
    ensures forall b :: b in AfterHourPass(s, now, window).hourQueue ==> Fresh(b.time, now, window)
  {
    OrderedQueues(s);
    ExpiredCountStops(s.hourQueue, now, window);
    FreshFrom(s.hourQueue, ExpiredCount(s.hourQueue, now, window), now, window);
  }

  /** On an ordered counter, after the day pass every bucket left in the day
      queue lies within the day window. */
  lemma DayPassLeavesFresh(s: CounterState, now: int, window: int)
    requires Ordered(s)
    ensures forall b :: b in AfterDayPass(s, now, window).dayQueue ==> Fresh(b.time, now, window)
  {
    OrderedQueues(s);
    ExpiredCountStops(s.dayQueue, now, window);
    FreshFrom(s.dayQueue, ExpiredCount(s.dayQueue, now, window), now, window);
  }

  /** The order is needed: when an event at `t` is buffered before one 5 s
      older, the minute pass 57 s after `t` stops at the fresh head and leaves
      the expired older bucket behind it. */
  lemma UnorderedLeavesExpired(t: int)
    ensures !Ordered(AfterDrain(CounterState([t, t - 5000], [], [], [], 2, 2, 2)))
    ensures Bucket(t - 5000, 1) in AfterMinutePass(AfterDrain(CounterState([t, t - 5000], [], [], [], 2, 2, 2)), t + 57000, 60000).minuteQueue
    ensures !Fresh(t - 5000, t + 57000, 60000)
  {
    var s := CounterState([t, t - 5000], [], [], [], 2, 2, 2);
    assert Runs(Bucket(t - 5000, 1), []) == [Bucket(t - 5000, 1)];
    assert !Within(t - 5000, t);
    assert s.buffer[1..] == [t - 5000] && [t - 5000][1..] == [];
    assert Runs(Bucket(t, 1), [t - 5000]) == [Bucket(t, 1)] + Runs(Bucket(t - 5000, 1), []);
    assert Compress(s.buffer) == [Bucket(t, 1), Bucket(t - 5000, 1)];
    var d := AfterDrain(s);
    assert d.minuteQueue == [Bucket(t, 1), Bucket(t - 5000, 1)];
    assert Times(d)[0] == t && Times(d)[1] == t - 5000;
    assert ExpiredCount(d.minuteQueue, t + 57000, 60000) == 0;
    assert d.minuteQueue[0..] == d.minuteQueue;
  }

  /** The four background tasks, each run at an instant of its own. */
  datatype Pass = Drain | MinutePass | HourPass | DayPass
  datatype Step = Step(pass: Pass, at: int)

  /** One run of one background task, with the counter's three windows. */
  function AfterPass(s: CounterState, step: Step, minute: int, hour: int, day: int): CounterState
  {
    match step.pass
    case Drain => AfterDrain(s)
    case MinutePass => AfterMinutePass(s, step.at, minute)
    case HourPass => AfterHourPass(s, step.at, hour)
    case DayPass => AfterDayPass(s, step.at, day)
  }

  /** The background tasks run one after another in the order `steps` lists
      them, each at its own instant, in any interleaving the scheduler picks. */
  function AfterSchedule(s: CounterState, steps: seq<Step>, minute: int, hour: int, day: int): CounterState
    decreases |steps|
  {
    if steps == [] then s
    else AfterPass(AfterSchedule(s, steps[..|steps| - 1], minute, hour, day), steps[|steps| - 1], minute, hour, day)
  }

  /** Nothing has left the minute tier yet and every held event happened at
      `t0` or later. */
  predicate HeldSince(s: CounterState, t0: int)
  {
    s.hourQueue == [] && s.dayQueue == []
    && (forall j :: 0 <= j < |s.buffer| ==> t0 <= s.buffer[j])
    && (forall i :: 0 <= i < |s.minuteQueue| ==> t0 <= s.minuteQueue[i].time)
  }

  /** An empty counter holds nothing, so it holds nothing older than any
      instant. */
  lemma EmptyHeldSince(t0: int)
    ensures HeldSince(Empty, t0)
  {
  }

  /** A pass run while every held event is still inside the minute window
      changes no total, and leaves every event inside the minute tier. */
  lemma PassWithinWindow(s: CounterState, step: Step, t0: int, minute: int, hour: int, day: int)
    requires HeldSince(s, t0)
    requires step.at - t0 <= minute
    ensures HeldSince(AfterPass(s, step, minute, hour, day), t0)
    ensures AfterPass(s, step, minute, hour, day).quantityByLastMinute == s.quantityByLastMinute
    ensures AfterPass(s, step, minute, hour, day).quantityByLastHour == s.quantityByLastHour
    ensures AfterPass(s, step, minute, hour, day).quantityByLastDay == s.quantityByLastDay
  {
    match step.pass
    case Drain =>
      var c := Compress(s.buffer);
      CompressDescribes(s.buffer);
      DescribesLowerBound(c, s.buffer, t0);
      var m := s.minuteQueue + c;
      forall i | 0 <= i < |m| ensures t0 <= m[i].time {
        if i >= |s.minuteQueue| { assert m[i] == c[i - |s.minuteQueue|]; }
      }
    case MinutePass =>
      assert ExpiredCount(s.minuteQueue, step.at, minute) == 0;
      assert s.minuteQueue[..0] == [] && s.minuteQueue[0..] == s.minuteQueue;
    case HourPass =>
      assert s.hourQueue[..0] == [];
    case DayPass =>
      assert s.dayQueue[..0] == [];
  }

  /** However the scheduler interleaves the passes, as long as every one of
      them runs within the minute window of the oldest held event, no total
      changes. */
  lemma {:induction false} ScheduleWithinWindow(s: CounterState, steps: seq<Step>, t0: int, minute: int, hour: int, day: int)
    requires HeldSince(s, t0)
    requires forall i :: 0 <= i < |steps| ==> steps[i].at - t0 <= minute
    ensures HeldSince(AfterSchedule(s, steps, minute, hour, day), t0)
    ensures AfterSchedule(s, steps, minute, hour, day).quantityByLastMinute == s.quantityByLastMinute
    ensures AfterSchedule(s, steps, minute, hour, day).quantityByLastHour == s.quantityByLastHour
    ensures AfterSchedule(s, steps, minute, hour, day).quantityByLastDay == s.quantityByLastDay
    decreases |steps|
  {
    if steps != [] {
      var init := steps[..|steps| - 1];
      ScheduleWithinWindow(s, init, t0, minute, hour, day);
      PassWithinWindow(AfterSchedule(s, init, minute, hour, day), steps[|steps| - 1], t0, minute, hour, day);
    }
  }

  /** The totals are never negative and are nested. */
  lemma TotalsNested(s: CounterState)
    requires Conserved(s)
    ensures 0 <= s.quantityByLastMinute <= s.quantityByLastHour <= s.quantityByLastDay == Held(s)
  {
    SumAtLeastLength(s.minuteQueue);
    SumAtLeastLength(s.hourQueue);
    SumAtLeastLength(s.dayQueue);
  }
}
