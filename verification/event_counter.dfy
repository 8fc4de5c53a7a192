/** The decaying event counter of ConcurrentEventCounter.java, one operation at
    a time.

    Submitted timestamps wait in a raw buffer; the buffer pass merges them into
    buckets on the minute queue; the minute and hour passes move expired buckets
    one tier down; the day pass discards them. Each tier keeps a running total.
    Every method is proved against the function of module Pipeline that says
    what it does to the whole state, and keeps the conservation invariant. The
    wall clock is the `now` parameter of the operations that read it. */
module Counter {
  import opened Buckets
  import opened Compression
  import opened Tiers
  import opened Pipeline

  const MILLIS_IN_MINUTE: int := 60_000
  const MILLIS_IN_HOUR: int := 3_600_000
  const MILLIS_IN_DAY: int := 86_400_000

  datatype TimeUnit = Nanoseconds | Microseconds | Milliseconds | Seconds | Minutes | Hours | Days

  /** A value, or the IllegalArgumentException raised for an unsupported unit. */
  datatype Result<T> = Ok(value: T) | IllegalArgument(unit: TimeUnit)

  class ConcurrentEventCounter {
    const millisInMinute: int
    const millisInHour: int
    const millisInDay: int

    var buffer: seq<int>
    var minuteQueue: seq<Bucket>
    var hourQueue: seq<Bucket>
    var dayQueue: seq<Bucket>

    var quantityByLastMinute: int
    var quantityByLastHour: int
    var quantityByLastDay: int

    /** The whole mutable state as a value. */
    function State(): CounterState
      reads this
    {
      CounterState(buffer, minuteQueue, hourQueue, dayQueue,
                   quantityByLastMinute, quantityByLastHour, quantityByLastDay)
    }

    ghost predicate Valid()
      reads this
    {
      Conserved(State())
    }

    /** The windows are parameters because the tests shorten them. */
    constructor (millisInMinute: int, millisInHour: int, millisInDay: int)
      ensures Valid()
      ensures State() == Empty
      ensures this.millisInMinute == millisInMinute
      ensures this.millisInHour == millisInHour
      ensures this.millisInDay == millisInDay
    {
      this.millisInMinute := millisInMinute;
      this.millisInHour := millisInHour;
      this.millisInDay := millisInDay;
      buffer, minuteQueue, hourQueue, dayQueue := [], [], [], [];
      quantityByLastMinute, quantityByLastHour, quantityByLastDay := 0, 0, 0;
      EmptyConserved();
    }

    /** The window of a unit, if the counter has one for it. */
    function Window(timeUnit: TimeUnit): int
      requires timeUnit in {Minutes, Hours, Days}
    {
      match timeUnit
      case Minutes => millisInMinute
      case Hours => millisInHour
      case Days => millisInDay
    }

    /** Whether `millis` lies within the last minute, hour or day as of `now`;
        any other unit is an illegal argument. */
    function IsInLastPeriod(timeUnit: TimeUnit, millis: int, now: int): (r: Result<bool>)
      ensures r.Ok? <==> timeUnit in {Minutes, Hours, Days}
      ensures r.Ok? ==> (r.value <==> Fresh(millis, now, Window(timeUnit)))
      ensures r.IllegalArgument? ==> r.unit == timeUnit
    {
      match timeUnit
      case Minutes => Ok(now - millis <= millisInMinute)
      case Hours => Ok(now - millis <= millisInHour)
      case Days => Ok(now - millis <= millisInDay)
      case _ => IllegalArgument(timeUnit)
    }

    /** Records one event at `now`. The unbounded queue always accepts it. */
    method SubmitEvent(now: int) returns (result: bool)
      modifies this
      ensures result
      ensures State() == AfterSubmit(old(State()), now)
    {
      buffer := buffer + [now];
      result := true;
      if result {
        quantityByLastMinute := quantityByLastMinute + 1;
        quantityByLastHour := quantityByLastHour + 1;
        quantityByLastDay := quantityByLastDay + 1;
      }
    }

    /** The buffer pass: drains the buffer and appends its merged buckets, in
        order, to the minute queue. */
    method DrainBuffer()
      modifies this
      ensures State() == AfterDrain(old(State()))
    {
      ghost var queued, drained := minuteQueue, buffer;
      var eventsBucket: EventsBucket? := null;
      ghost var open: Bucket := Bucket(0, 0);
      ghost var emitted: seq<Bucket> := [];
      while buffer != []
        invariant minuteQueue == queued + emitted
        invariant eventsBucket == null ==> emitted == [] && buffer == drained
        invariant eventsBucket != null ==> fresh(eventsBucket) && eventsBucket.Snapshot() == open
        invariant eventsBucket != null ==> emitted + Runs(open, buffer) == Compress(drained)
        invariant hourQueue == old(hourQueue) && dayQueue == old(dayQueue)
        invariant quantityByLastMinute == old(quantityByLastMinute)
        invariant quantityByLastHour == old(quantityByLastHour)
        invariant quantityByLastDay == old(quantityByLastDay)
        decreases |buffer|
      {
        var eventTime := buffer[0];
        ghost var pending := buffer;
        buffer := buffer[1..];

        if eventsBucket == null {
          eventsBucket := new EventsBucket(eventTime, 1);
          open := Bucket(eventTime, 1);
          continue;
        }

        var anchor := eventsBucket.GetTime();
        if Abs(eventTime - anchor) <= MILLIS_IN_SECOND {
          eventsBucket.IncrementCountOfEvents();
          open := open.(count := open.count + 1);
        } else {
          RunsClose(emitted, open, pending);
          minuteQueue := minuteQueue + [eventsBucket.Snapshot()];
          emitted := emitted + [open];
          eventsBucket := new EventsBucket(eventTime, 1);
          open := Bucket(eventTime, 1);
        }
      }

      if eventsBucket != null {
        minuteQueue := minuteQueue + [eventsBucket.Snapshot()];
        emitted := emitted + [open];
      }
    }

    /** The minute pass: while the head bucket of the minute queue is outside
        the minute window, moves it to the hour queue and takes its events off
        the minute total. */
    method EvictMinute(now: int)
      modifies this
      ensures State() == AfterMinutePass(old(State()), now, millisInMinute)
    {
      ghost var q0, h0, m0 := minuteQueue, hourQueue, quantityByLastMinute;
      ghost var k: nat := 0;
      while minuteQueue != [] && IsInLastPeriod(Minutes, minuteQueue[0].time, now) == Ok(false)
        invariant k <= |q0| && minuteQueue == q0[k..]
        invariant hourQueue == h0 + q0[..k]
        invariant quantityByLastMinute == m0 - Sum(q0[..k])
        invariant forall j :: 0 <= j < k ==> !Fresh(q0[j].time, now, millisInMinute)
        invariant buffer == old(buffer) && dayQueue == old(dayQueue)
        invariant quantityByLastHour == old(quantityByLastHour)
        invariant quantityByLastDay == old(quantityByLastDay)
        decreases |minuteQueue|
      {
        EvictStep(q0, k, h0);
        var eventsBucket := minuteQueue[0];
        minuteQueue := minuteQueue[1..];
        var countOfEvents := eventsBucket.count;
        quantityByLastMinute := quantityByLastMinute - countOfEvents;
        hourQueue := hourQueue + [eventsBucket];
        k := k + 1;
      }
      ExpiredCountUnique(q0, now, millisInMinute, k);
    }

    /** The hour pass: while the head bucket of the hour queue is outside the
        hour window, moves it to the day queue and takes its events off the
        hour total. */
    method EvictHour(now: int)
      modifies this
      ensures State() == AfterHourPass(old(State()), now, millisInHour)
    {
      ghost var q0, d0, h0 := hourQueue, dayQueue, quantityByLastHour;
      ghost var k: nat := 0;
      while hourQueue != [] && IsInLastPeriod(Hours, hourQueue[0].time, now) == Ok(false)
        invariant k <= |q0| && hourQueue == q0[k..]
        invariant dayQueue == d0 + q0[..k]
        invariant quantityByLastHour == h0 - Sum(q0[..k])
        invariant forall j :: 0 <= j < k ==> !Fresh(q0[j].time, now, millisInHour)
        invariant buffer == old(buffer) && minuteQueue == old(minuteQueue)
        invariant quantityByLastMinute == old(quantityByLastMinute)
        invariant quantityByLastDay == old(quantityByLastDay)
        decreases |hourQueue|
      {
        EvictStep(q0, k, d0);
        var eventsBucket := hourQueue[0];
        hourQueue := hourQueue[1..];
        var countOfEvents := eventsBucket.count;
        quantityByLastHour := quantityByLastHour - countOfEvents;
        dayQueue := dayQueue + [eventsBucket];
        k := k + 1;
      }
      ExpiredCountUnique(q0, now, millisInHour, k);
    }

    /** The day pass: while the head bucket of the day queue is outside the
        day window, discards it and takes its events off the day total. */
    method EvictDay(now: int)
      modifies this
      ensures State() == AfterDayPass(old(State()), now, millisInDay)
    {
      ghost var q0, d0 := dayQueue, quantityByLastDay;
      ghost var k: nat := 0;
      while dayQueue != [] && IsInLastPeriod(Days, dayQueue[0].time, now) == Ok(false)
        invariant k <= |q0| && dayQueue == q0[k..]
        invariant quantityByLastDay == d0 - Sum(q0[..k])
        invariant forall j :: 0 <= j < k ==> !Fresh(q0[j].time, now, millisInDay)
        invariant buffer == old(buffer) && minuteQueue == old(minuteQueue) && hourQueue == old(hourQueue)
        invariant quantityByLastMinute == old(quantityByLastMinute)
        invariant quantityByLastHour == old(quantityByLastHour)
        decreases |dayQueue|
      {
        EvictStep(q0, k, []);
        var eventsBucket := dayQueue[0];
        dayQueue := dayQueue[1..];
        var countOfEvents := eventsBucket.count;
        quantityByLastDay := quantityByLastDay - countOfEvents;
        k := k + 1;
      }
      ExpiredCountUnique(q0, now, millisInDay, k);
    }

    /** Events waiting in the buffer or the minute queue. */
    function GetQuantityByLastMinute(): (r: int)
      reads this
      requires Valid()
      ensures r == |buffer| + Sum(minuteQueue)
      ensures r >= 0
    {
      TotalsNested(State());
      quantityByLastMinute
    }

    /** Events waiting in the buffer, the minute queue or the hour queue. */
    function GetQuantityByLastHour(): (r: int)
      reads this
      requires Valid()
      ensures r == |buffer| + Sum(minuteQueue) + Sum(hourQueue)
      ensures r >= GetQuantityByLastMinute()
    {
      TotalsNested(State());
      quantityByLastHour
    }

    /** Events held anywhere in the pipeline. */
    function GetQuantityByLastDay(): (r: int)
      reads this
      requires Valid()
      ensures r == Held(State())
      ensures r >= GetQuantityByLastHour()
    {
      TotalsNested(State());
      quantityByLastDay
    }
  }

}
