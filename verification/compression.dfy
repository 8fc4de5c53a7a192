/** The merge rule of the buffer pass: runs of raw timestamps become buckets.

    A timestamp joins the open bucket when it lies within one second of the
    bucket's anchor (its first timestamp); the anchor never moves. Otherwise the
    open bucket is closed and a new one is opened at that timestamp. */
module Compression {
  import opened Buckets

  const MILLIS_IN_SECOND: int := 1000

  function Abs(x: int): nat
  {
    if x < 0 then -x else x
  }

  /** Whether timestamp `t` may be merged into a bucket anchored at `anchor`. */
  predicate Within(t: int, anchor: int)
  {
    Abs(t - anchor) <= MILLIS_IN_SECOND
  }

  /** The buckets the pass emits when `open` is the open bucket and `ts` are
      the timestamps still to be drained. */
  function Runs(open: Bucket, ts: seq<int>): seq<Bucket>
    decreases |ts|
  {
    if ts == [] then [open]
    else if Within(ts[0], open.time) then Runs(open.(count := open.count + 1), ts[1..])
    else [open] + Runs(Bucket(ts[0], 1), ts[1..])
  }

  /** Closing the open bucket before a timestamp outside its second. */
  lemma RunsClose(emitted: seq<Bucket>, open: Bucket, ts: seq<int>)
    requires ts != [] && !Within(ts[0], open.time)
    ensures emitted + Runs(open, ts) == (emitted + [open]) + Runs(Bucket(ts[0], 1), ts[1..])
  {
  }

  /** The buckets the pass emits for a whole buffer, in order. */
  function Compress(ts: seq<int>): seq<Bucket>
  {
    if ts == [] then [] else Runs(Bucket(ts[0], 1), ts[1..])
  }

  /** `bs` splits `ts` into consecutive maximal runs: each bucket is anchored
      at the first timestamp of its run, counts the run, every timestamp of the
      run lies within one second of the anchor, and the timestamp right after
      the run does not. This is the merge rule stated without the pass. */
  predicate Describes(bs: seq<Bucket>, ts: seq<int>)
    decreases |bs|
  {
    if bs == [] then ts == []
    else
      var b := bs[0];
      1 <= b.count <= |ts| && ts[0] == b.time
      && (forall j :: 0 <= j < b.count ==> Within(ts[j], b.time))
      && (b.count < |ts| ==> !Within(ts[b.count], b.time))
      && Describes(bs[1..], ts[b.count..])
  }

  /** Continuing the pass with an open bucket that already holds the
      timestamps `held` splits `held + ts` into maximal runs. */
  lemma {:induction false} RunsDescribe(held: seq<int>, ts: seq<int>)
    requires held != []
    requires forall j :: 0 <= j < |held| ==> Within(held[j], held[0])
    ensures Describes(Runs(Bucket(held[0], |held|), ts), held + ts)
    decreases |ts|
  {
    var open := Bucket(held[0], |held|);
    if ts == [] {
      assert held + ts == held;
      assert Describes([], held[|held|..]);
    } else if Within(ts[0], held[0]) {
      var held' := held + [ts[0]];
      RunsDescribe(held', ts[1..]);
      assert held' + ts[1..] == held + ts;
    } else {
      var rest := Runs(Bucket(ts[0], 1), ts[1..]);
      RunsDescribe([ts[0]], ts[1..]);
      assert [ts[0]] + ts[1..] == ts;
      assert (held + ts)[|held|..] == ts;
      assert ([open] + rest)[1..] == rest;
      assert (held + ts)[|held|] == ts[0];
    }
  }

  /** The pass splits the buffer into maximal runs. */
  lemma CompressDescribes(ts: seq<int>)
    ensures Describes(Compress(ts), ts)
  {
    if ts != [] {
      RunsDescribe([ts[0]], ts[1..]);
      assert [ts[0]] + ts[1..] == ts;
    }
  }

  /** There is only one way to split a buffer into maximal runs. */
  lemma {:induction false} DescribesDeterministic(bs1: seq<Bucket>, bs2: seq<Bucket>, ts: seq<int>)
    requires Describes(bs1, ts) && Describes(bs2, ts)
    ensures bs1 == bs2
    decreases |ts|
  {
    if ts != [] {
      var c1, c2 := bs1[0].count, bs2[0].count;
      // the run ends at the first timestamp outside the anchor's second
      assert c1 == c2;
      DescribesDeterministic(bs1[1..], bs2[1..], ts[c1..]);
      assert bs1 == [bs1[0]] + bs1[1..];
      assert bs2 == [bs2[0]] + bs2[1..];
    }
  }

  /** The merge rule characterises the pass completely, in both directions. */
  lemma CompressCharacterised(bs: seq<Bucket>, ts: seq<int>)
    ensures Describes(bs, ts) <==> bs == Compress(ts)
  {
    CompressDescribes(ts);
    if Describes(bs, ts) {
      DescribesDeterministic(bs, Compress(ts), ts);
    }
  }

  /** Every timestamp of a described buffer is counted by exactly one bucket,
      every bucket holds at least one, and there are no more buckets than
      timestamps. */
  lemma {:induction false} DescribesConserves(bs: seq<Bucket>, ts: seq<int>)
    requires Describes(bs, ts)
    ensures Sum(bs) == |ts|
    ensures AllPositive(bs)
    ensures |bs| <= |ts|
    decreases |bs|
  {
    if bs != [] {
      DescribesConserves(bs[1..], ts[bs[0].count..]);
    }
  }

  /** Every anchor of a described buffer is one of its timestamps, so a lower
      bound of the buffer bounds the anchors too. */
  lemma {:induction false} DescribesLowerBound(bs: seq<Bucket>, ts: seq<int>, lo: int)
    requires Describes(bs, ts)
    requires forall j :: 0 <= j < |ts| ==> lo <= ts[j]
    ensures forall i :: 0 <= i < |bs| ==> bs[i].time in ts && lo <= bs[i].time
    decreases |bs|
  {
    if bs != [] {
      var c := bs[0].count;
      forall j | 0 <= j < |ts[c..]| ensures lo <= ts[c..][j] {
        assert ts[c..][j] == ts[c + j];
      }
      DescribesLowerBound(bs[1..], ts[c..], lo);
      assert bs[0].time == ts[0];
      forall i | 1 <= i < |bs| ensures bs[i].time in ts && lo <= bs[i].time {
        assert bs[i] == bs[1..][i - 1];
        var j :| 0 <= j < |ts[c..]| && ts[c..][j] == bs[i].time;
        assert ts[c + j] == bs[i].time;
      }
    }
  }

  /** The anchors of a sorted buffer's runs are its run starts, in buffer
      order. */
  lemma {:induction false} DescribesSorted(bs: seq<Bucket>, ts: seq<int>)
    requires Describes(bs, ts) && Sorted(ts)
    ensures Sorted(Anchors(bs))
    decreases |bs|
  {
    if bs != [] {
      var c := bs[0].count;
      assert Sorted(ts[c..]) by {
        forall i, j | 0 <= i <= j < |ts[c..]| ensures ts[c..][i] <= ts[c..][j] {
          assert ts[c..][i] == ts[c + i] && ts[c..][j] == ts[c + j];
        }
      }
      DescribesSorted(bs[1..], ts[c..]);
      forall j | 0 <= j < |ts[c..]| ensures ts[0] <= ts[c..][j] {
        assert ts[c..][j] == ts[c + j];
      }
      DescribesLowerBound(bs[1..], ts[c..], ts[0]);
      forall i, j | 0 <= i <= j < |bs| ensures Anchors(bs)[i] <= Anchors(bs)[j] {
        if j > 0 {
          assert bs[j] == bs[1..][j - 1];
          if i > 0 {
            assert bs[i] == bs[1..][i - 1];
            assert Anchors(bs[1..])[i - 1] <= Anchors(bs[1..])[j - 1];
          }
        }
      }
    }
  }

  /** The pass emits buckets anchored at or after the buffer's first
      timestamp, in buffer order, when the buffer is in time order. */
  lemma CompressOrdered(ts: seq<int>)
    requires Sorted(ts)
    ensures Sorted(Anchors(Compress(ts)))
    ensures forall i :: 0 <= i < |Compress(ts)| ==> ts[0] <= Compress(ts)[i].time
  {
    CompressDescribes(ts);
    DescribesSorted(Compress(ts), ts);
    if ts != [] {
      DescribesLowerBound(Compress(ts), ts, ts[0]);
    }
  }

  /** Timestamps that all lie at one instant become a single bucket. */
  lemma CompressSameInstant(ts: seq<int>)
    requires ts != []
    requires forall j :: 0 <= j < |ts| ==> ts[j] == ts[0]
    ensures Compress(ts) == [Bucket(ts[0], |ts|)]
  {
    var b := Bucket(ts[0], |ts|);
    assert ts[|ts|..] == [];
    assert [b][1..] == [];
    assert forall j :: 0 <= j < |ts| ==> Within(ts[j], ts[0]);
    assert Describes([b], ts);
    CompressCharacterised([b], ts);
  }

  /** The buffer pass loses and invents no events. */
  lemma CompressConserves(ts: seq<int>)
    ensures Sum(Compress(ts)) == |ts|
    ensures AllPositive(Compress(ts))
    ensures |Compress(ts)| <= |ts|
    ensures Compress(ts) == [] <==> ts == []
  {
    CompressDescribes(ts);
    DescribesConserves(Compress(ts), ts);
  }
}
