/** Expiry in a tier queue. A bucket is fresh for a tier while the time elapsed
    since its anchor is at most the tier's window; an eviction pass removes the
    expired buckets at the head of the queue and stops at the first fresh one. */
module Tiers {
  import opened Buckets

  predicate Fresh(time: int, now: int, window: int)
  {
    now - time <= window
  }

  /** The number of buckets an eviction pass at `now` removes from the head of
      `q`: the length of its longest prefix of expired buckets. */
  function ExpiredCount(q: seq<Bucket>, now: int, window: int): (k: nat)
    ensures k <= |q|
    decreases |q|
  {
    if q == [] || Fresh(q[0].time, now, window) then 0
    else 1 + ExpiredCount(q[1..], now, window)
  }

  /** Every bucket the pass removes is expired, and the pass stops at a fresh
      bucket or at the end of the queue. */
  lemma {:induction false} ExpiredCountStops(q: seq<Bucket>, now: int, window: int)
    ensures forall j :: 0 <= j < ExpiredCount(q, now, window) ==> !Fresh(q[j].time, now, window)
    ensures ExpiredCount(q, now, window) == |q| || Fresh(q[ExpiredCount(q, now, window)].time, now, window)
    decreases |q|
  {
    if q != [] && !Fresh(q[0].time, now, window) {
      ExpiredCountStops(q[1..], now, window);
      forall j | 0 <= j < ExpiredCount(q, now, window)
        ensures !Fresh(q[j].time, now, window)
      {
        if j > 0 { assert q[j] == q[1..][j - 1]; }
      }
    }
  }

  /** A cut point with those two properties is the pass's: no fresh bucket, and
      nothing behind one, is ever removed. */
  lemma {:induction false} ExpiredCountUnique(q: seq<Bucket>, now: int, window: int, k: nat)
    requires k <= |q|
    requires forall j :: 0 <= j < k ==> !Fresh(q[j].time, now, window)
    requires k == |q| || Fresh(q[k].time, now, window)
    ensures ExpiredCount(q, now, window) == k
    decreases k
  {
    if k > 0 {
      assert !Fresh(q[0].time, now, window);
      forall j | 0 <= j < k - 1 ensures !Fresh(q[1..][j].time, now, window) {
        assert q[1..][j] == q[j + 1];
      }
      assert k - 1 < |q| - 1 ==> q[1..][k - 1] == q[k];
      ExpiredCountUnique(q[1..], now, window, k - 1);
    }
  }

  /** A second pass at the same instant removes nothing. */
  lemma EvictionIdempotent(q: seq<Bucket>, now: int, window: int)
    ensures ExpiredCount(q[ExpiredCount(q, now, window)..], now, window) == 0
  {
    ExpiredCountStops(q, now, window);
  }

  /** One step of an eviction pass: the bucket `q[k]` joins the evicted
      prefix, which the pass appends to `next`. */
  lemma EvictStep(q: seq<Bucket>, k: nat, next: seq<Bucket>)
    requires k < |q|
    ensures q[k + 1..] == q[k..][1..]
    ensures next + q[..k + 1] == (next + q[..k]) + [q[k]]
    ensures Sum(q[..k + 1]) == Sum(q[..k]) + q[k].count
  {
    assert q[..k + 1] == q[..k] + [q[k]];
    SumAppend(q[..k], [q[k]]);
  }
}
