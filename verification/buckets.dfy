/** Events buckets: a representative (anchor) timestamp in milliseconds and the
    number of events merged under it.

    `Bucket` is the value a tier queue holds: once the buffer pass offers a
    bucket to the minute queue nothing changes it again, it is only moved from
    queue to queue. `EventsBucket` is the mutable record the buffer pass builds
    up while it merges timestamps. */
module Buckets {

  datatype Bucket = Bucket(time: int, count: int)

  /** Total number of events held by a queue of buckets. */
  function Sum(q: seq<Bucket>): int
  {
    if q == [] then 0 else q[0].count + Sum(q[1..])
  }

  /** Every bucket holds at least one event. */
  predicate AllPositive(q: seq<Bucket>)
    decreases |q|
  {
    q == [] || (q[0].count >= 1 && AllPositive(q[1..]))
  }

  lemma {:induction false} SumAppend(a: seq<Bucket>, b: seq<Bucket>)
    ensures Sum(a + b) == Sum(a) + Sum(b)
    decreases |a|
  {
    if a == [] {
      assert a + b == b;
    } else {
      assert (a + b)[1..] == a[1..] + b;
      SumAppend(a[1..], b);
    }
  }

  /** Cutting a queue at any point splits its total between the two parts. */
  lemma SumSplit(q: seq<Bucket>, k: nat)
    requires k <= |q|
    ensures Sum(q) == Sum(q[..k]) + Sum(q[k..])
  {
    assert q == q[..k] + q[k..];
    SumAppend(q[..k], q[k..]);
  }

  /** A queue of non-empty buckets holds at least one event per bucket. */
  lemma {:induction false} SumAtLeastLength(q: seq<Bucket>)
    requires AllPositive(q)
    ensures Sum(q) >= |q|
    decreases |q|
  {
    if q != [] {
      SumAtLeastLength(q[1..]);
    }
  }

  lemma {:induction false} AllPositiveAppend(a: seq<Bucket>, b: seq<Bucket>)
    requires AllPositive(a) && AllPositive(b)
    ensures AllPositive(a + b)
    decreases |a|
  {
    if a != [] {
      assert (a + b)[1..] == a[1..] + b;
      AllPositiveAppend(a[1..], b);
    } else {
      assert a + b == b;
    }
  }

  /** Both parts of a queue of non-empty buckets hold only non-empty buckets. */
  lemma {:induction false} AllPositiveSplit(q: seq<Bucket>, k: nat)
    requires k <= |q| && AllPositive(q)
    ensures AllPositive(q[..k]) && AllPositive(q[k..])
    decreases k
  {
    if k > 0 {
      AllPositiveSplit(q[1..], k - 1);
      assert q[..k][1..] == q[1..][..k - 1];
      assert q[k..] == q[1..][k - 1..];
    }
  }

  /** The anchor times of a queue, head first. */
  function Anchors(q: seq<Bucket>): seq<int>
  {
    seq(|q|, i requires 0 <= i < |q| => q[i].time)
  }

  predicate Sorted(xs: seq<int>)
  {
    forall i, j :: 0 <= i <= j < |xs| ==> xs[i] <= xs[j]
  }

  lemma AnchorsAppend(a: seq<Bucket>, b: seq<Bucket>)
    ensures Anchors(a + b) == Anchors(a) + Anchors(b)
  {
  }

  /** Two sorted sequences, every element of the first at most every element
      of the second, concatenate to a sorted sequence. */
  lemma SortedConcat(a: seq<int>, c: seq<int>)
    requires Sorted(a) && Sorted(c)
    requires forall i, j :: 0 <= i < |a| && 0 <= j < |c| ==> a[i] <= c[j]
    ensures Sorted(a + c)
  {
    forall i, j | 0 <= i <= j < |a + c|
      ensures (a + c)[i] <= (a + c)[j]
    {
      if j < |a| {
      } else if i < |a| {
        assert (a + c)[i] == a[i] && (a + c)[j] == c[j - |a|];
      } else {
        assert (a + c)[i] == c[i - |a|] && (a + c)[j] == c[j - |a|];
      }
    }
  }

  lemma AnchorsDrop(q: seq<Bucket>, k: nat)
    requires k <= |q|
    ensures Anchors(q[k..]) == Anchors(q)[k..]
  {
  }

  lemma DropConcat(a: seq<int>, c: seq<int>, k: nat)
    requires k <= |a|
    ensures (a + c)[k..] == a[k..] + c
  {
  }

  /** Dropping a prefix of a sorted sequence leaves it sorted. */
  lemma SortedDrop(xs: seq<int>, k: nat)
    requires Sorted(xs) && k <= |xs|
    ensures Sorted(xs[k..])
  {
    forall i, j | 0 <= i <= j < |xs[k..]| ensures xs[k..][i] <= xs[k..][j] {
      assert xs[k..][i] == xs[k + i] && xs[k..][j] == xs[k + j];
    }
  }

  /** The mutable bucket of EventsBucket.java. */
  class EventsBucket {
    var time: int
    var countOfEvents: int

    constructor (time: int, countOfEvents: int)
      ensures this.time == time && this.countOfEvents == countOfEvents
    {
      this.time := time;
      this.countOfEvents := countOfEvents;
    }

    method GetTime() returns (t: int)
      ensures t == time
    {
      t := time;
    }

    method SetTime(time: int)
      modifies this`time
      ensures this.time == time
      ensures countOfEvents == old(countOfEvents)
    {
      this.time := time;
    }

    method GetCountOfEvents() returns (c: int)
      ensures c == countOfEvents
    {
      c := countOfEvents;
    }

    method SetCountOfEvents(countOfEvents: int)
      modifies this`countOfEvents
      ensures this.countOfEvents == countOfEvents
      ensures time == old(time)
    {
      this.countOfEvents := countOfEvents;
    }

    method IncrementCountOfEvents()
      modifies this`countOfEvents
      ensures countOfEvents == old(countOfEvents) + 1
      ensures time == old(time)
    {
      countOfEvents := countOfEvents + 1;
    }

    /** The value this bucket contributes once it is offered to a queue. */
    function Snapshot(): Bucket
      reads this
    {
      Bucket(time, countOfEvents)
    }
  }
}
