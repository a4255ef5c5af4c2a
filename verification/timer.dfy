/** A timer asset: `play` starts its clock and takes the largest handler
    threshold as its duration; each frame `process` either stops it, once
    the elapsed time passes the duration, or runs the handlers whose
    thresholds the elapsed time has reached since the previous frame.
    Handler runs are recorded as handler indices in declaration order. */
module Timers {
  import opened Bytes
  import A = Assets

  /** A value of the millisecond clock, an unsigned 32-bit counter. */
  type Millis = x: nat | x < TWO_32

  /** The largest threshold, as the loop in `play` finds it; 0 with no time
      handlers. */
  function Duration(ts: seq<nat>): (d: nat)
    ensures forall i :: 0 <= i < |ts| ==> ts[i] <= d
    ensures |ts| == 0 ==> d == 0
    ensures |ts| > 0 ==> exists i :: 0 <= i < |ts| && ts[i] == d
    decreases |ts|
  {
    if |ts| == 0 then 0
    else
      var before := Duration(ts[..|ts| - 1]);
      assert forall i :: 0 <= i < |ts| - 1 ==> ts[..|ts| - 1][i] == ts[i];
      if ts[|ts| - 1] > before then ts[|ts| - 1] else before
  }

  /** `play`: a playing timer is left alone; otherwise it starts at `now`
      with nothing processed and the duration of its handlers. */
  function Play(ts: seq<nat>, c: A.Clock, now: Millis): (r: A.Clock)
    ensures c.playing ==> r == c
    ensures !c.playing ==> r == A.Clock(true, now, 0, Duration(ts))
  {
    if c.playing then c else A.Clock(true, now, 0, Duration(ts))
  }

  /** `stop`: a stopped timer is left alone; otherwise playing, start and
      last-processed are cleared and the duration is kept. */
  function Stop(c: A.Clock): (r: A.Clock)
    ensures !r.playing
    ensures !c.playing ==> r == c
    ensures c.playing ==> r == A.Clock(false, 0, 0, c.duration)
  {
    if !c.playing then c else c.(playing := false, startTime := 0, lastProcessed := 0)
  }

  /** `currentTime - _startTime` on unsigned 32-bit values. */
  function Elapsed(now: nat, start: nat): (e: Millis)
    ensures start <= now < TWO_32 ==> e == now - start
  {
    (now - start) % TWO_32
  }

  /** The indices from `j` on, in order, whose thresholds lie in
      `[lo, hi]`. */
  function Due(ts: seq<nat>, lo: int, hi: int, j: nat): seq<nat>
    decreases |ts| - j
  {
    if j >= |ts| then []
    else if lo <= ts[j] <= hi then [j] + Due(ts, lo, hi, j + 1)
    else Due(ts, lo, hi, j + 1)
  }

  /** The due indices are exactly those from `j` on whose thresholds lie in
      `[lo, hi]`, in increasing order. */
  lemma {:induction false} DueMembers(ts: seq<nat>, lo: int, hi: int, j: nat)
    ensures forall k :: 0 <= k < |Due(ts, lo, hi, j)| ==>
      j <= Due(ts, lo, hi, j)[k] < |ts| && lo <= ts[Due(ts, lo, hi, j)[k]] <= hi
    ensures forall k, l :: 0 <= k < l < |Due(ts, lo, hi, j)| ==> Due(ts, lo, hi, j)[k] < Due(ts, lo, hi, j)[l]
    ensures forall i :: j <= i < |ts| && lo <= ts[i] <= hi ==> i in Due(ts, lo, hi, j)
    decreases |ts| - j
  {
    if j < |ts| {
      DueMembers(ts, lo, hi, j + 1);
    }
  }

  /** Each index fires at most once in one `process` call. */
  lemma {:induction false} DueCount(ts: seq<nat>, lo: int, hi: int, j: nat, i: nat)
    ensures multiset(Due(ts, lo, hi, j))[i] == if j <= i < |ts| && lo <= ts[i] <= hi then 1 else 0
    decreases |ts| - j
  {
    if j < |ts| {
      DueCount(ts, lo, hi, j + 1, i);
      if lo <= ts[j] <= hi {
        var one: seq<nat> := [j];
        assert multiset(one + Due(ts, lo, hi, j + 1)) == multiset(one) + multiset(Due(ts, lo, hi, j + 1));
      }
    }
  }

  /** `process` as written: the expiry check comes first, then every
      handler with `lastProcessed <= t <= elapsed` runs, then the elapsed
      time is recorded. */
  function Process(ts: seq<nat>, c: A.Clock, now: Millis): (r: (A.Clock, seq<nat>))
    ensures !c.playing ==> r == (c, [])
    ensures c.playing && Elapsed(now, c.startTime) > c.duration ==> r == (Stop(c), [])
    ensures c.playing && Elapsed(now, c.startTime) <= c.duration ==>
      && r.0 == c.(lastProcessed := Elapsed(now, c.startTime))
      && forall i :: 0 <= i < |ts| ==>
           (i in r.1 <==> c.lastProcessed <= ts[i] <= Elapsed(now, c.startTime))
  {
    if !c.playing then (c, [])
    else
      var e := Elapsed(now, c.startTime);
      if e > c.duration then (Stop(c), [])
      else
        DueMembers(ts, c.lastProcessed, e, 0);
        (c.(lastProcessed := e), Due(ts, c.lastProcessed, e, 0))
  }

  /** `process` with the two defects removed: `lastProcessed` holds the first
      millisecond not yet processed, and the due handlers run before an
      expired timer stops. */
  function ProcessFixed(ts: seq<nat>, c: A.Clock, now: Millis): (r: (A.Clock, seq<nat>))
    ensures !c.playing ==> r == (c, [])
    ensures c.playing && Elapsed(now, c.startTime) > c.duration ==> r.0 == Stop(c)
    ensures c.playing ==>
      forall i :: 0 <= i < |ts| ==>
        (i in r.1 <==> c.lastProcessed <= ts[i] <= Elapsed(now, c.startTime))
  {
    if !c.playing then (c, [])
    else
      var e := Elapsed(now, c.startTime);
      var fired := Due(ts, c.lastProcessed, e, 0);
      DueMembers(ts, c.lastProcessed, e, 0);
      if e > c.duration then (Stop(c), fired) else (c.(lastProcessed := e + 1), fired)
  }

  /** Frames in turn, with the handler runs of all of them. */
  function Run(ts: seq<nat>, c: A.Clock, nows: seq<Millis>): (A.Clock, seq<nat>)
    decreases |nows|
  {
    if |nows| == 0 then (c, [])
    else
      var (c1, fired) := Process(ts, c, nows[0]);
      var (c2, more) := Run(ts, c1, nows[1..]);
      (c2, fired + more)
  }

  function RunFixed(ts: seq<nat>, c: A.Clock, nows: seq<Millis>): (A.Clock, seq<nat>)
    decreases |nows|
  {
    if |nows| == 0 then (c, [])
    else
      var (c1, fired) := ProcessFixed(ts, c, nows[0]);
      var (c2, more) := RunFixed(ts, c1, nows[1..]);
      (c2, fired + more)
  }

  // ---------------------------------------------------------------------------
  // The two defects, on concrete frames.

  /** A threshold equal to the previous frame's elapsed time fires again:
      with thresholds 5 and 10, frames at 5 and 7 ms run handler 0 twice. */
  lemma SampledThresholdFiresTwice()
    ensures Run([5, 10], Play([5, 10], A.Fresh, 0), [5, 7]).1 == [0, 0]
    ensures RunFixed([5, 10], Play([5, 10], A.Fresh, 0), [5, 7]).1 == [0]
  {
    var ts: seq<nat> := [5, 10];
    var c := Play(ts, A.Fresh, 0);
    assert Duration(ts) == 10;
    assert Due(ts, 0, 5, 0) == [0] by {
      assert Due(ts, 0, 5, 2) == [];
      assert Due(ts, 0, 5, 1) == [];
    }
    assert Due(ts, 5, 7, 0) == [0] by {
      assert Due(ts, 5, 7, 2) == [];
      assert Due(ts, 5, 7, 1) == [];
    }
    assert Due(ts, 6, 7, 0) == [] by {
      assert Due(ts, 6, 7, 2) == [];
      assert Due(ts, 6, 7, 1) == [];
    }
    assert [5, 7][1..] == [7];
    assert Run(ts, c.(lastProcessed := 5), [7]).1 == [0];
    assert RunFixed(ts, c.(lastProcessed := 6), [7]).1 == [];
  }

  /** A frame that passes the duration stops the timer before the last
      threshold is checked: with threshold 10, frames at 5 and 11 ms never run
      the handler. */
  lemma ExpiryHidesLastThreshold()
    ensures Run([10], Play([10], A.Fresh, 0), [5, 11]).1 == []
    ensures RunFixed([10], Play([10], A.Fresh, 0), [5, 11]).1 == [0]
  {
    var ts: seq<nat> := [10];
    var c := Play(ts, A.Fresh, 0);
    assert Duration(ts) == 10;
    assert Due(ts, 0, 5, 0) == [] by {
      assert Due(ts, 0, 5, 1) == [];
    }
    assert Due(ts, 6, 11, 0) == [0] by {
      assert Due(ts, 6, 11, 1) == [];
    }
    assert [5, 11][1..] == [11];
    assert Run(ts, c.(lastProcessed := 5), [11]).1 == [];
    assert RunFixed(ts, c.(lastProcessed := 6), [11]).1 == [0];
  }

  // ---------------------------------------------------------------------------
  // The corrected timer runs every handler exactly once.

  /** The frames' elapsed times never go backwards. */
  predicate Monotone(nows: seq<Millis>, start: nat) {
    forall k :: 0 <= k < |nows| - 1 ==> Elapsed(nows[k], start) <= Elapsed(nows[k + 1], start)
  }

  /** Some frame's elapsed time reaches `t`. */
  function Reaches(nows: seq<Millis>, start: nat, t: nat): bool
    decreases |nows|
  {
    |nows| > 0 && (Elapsed(nows[0], start) >= t || Reaches(nows[1..], start, t))
  }

  lemma {:induction false} ReachesExists(nows: seq<Millis>, start: nat, t: nat)
    ensures Reaches(nows, start, t) <==> exists k :: 0 <= k < |nows| && Elapsed(nows[k], start) >= t
    decreases |nows|
  {
    if |nows| > 0 {
      ReachesExists(nows[1..], start, t);
      if Reaches(nows[1..], start, t) {
        var k :| 0 <= k < |nows[1..]| && Elapsed(nows[1..][k], start) >= t;
        assert Elapsed(nows[k + 1], start) >= t;
      }
      if exists k :: 0 <= k < |nows| && Elapsed(nows[k], start) >= t {
        var k :| 0 <= k < |nows| && Elapsed(nows[k], start) >= t;
        if k > 0 {
          assert Elapsed(nows[1..][k - 1], start) >= t;
        }
      }
    }
  }

  /** The clock of a timer started at `start`. */
  predicate Started(ts: seq<nat>, c: A.Clock, start: nat) {
    c.playing ==> c.startTime == start && c.duration == Duration(ts)
  }

  /** The induction behind `ExactlyOnce`: from a clock whose next unprocessed
      millisecond is at most one past the coming frame, a handler runs once
      if its threshold is at least that millisecond and some frame reaches
      it, and otherwise not at all. A stopped timer runs nothing. */
  lemma {:induction false} RunFixedCounts(ts: seq<nat>, c: A.Clock, start: nat, nows: seq<Millis>, i: nat)
    requires i < |ts| && Started(ts, c, start) && Monotone(nows, start)
    requires c.playing && |nows| > 0 ==> c.lastProcessed <= Elapsed(nows[0], start) + 1
    ensures multiset(RunFixed(ts, c, nows).1)[i] ==
      if c.playing && ts[i] >= c.lastProcessed && Reaches(nows, start, ts[i]) then 1 else 0
    decreases |nows|
  {
    if |nows| > 0 {
      var e := Elapsed(nows[0], start);
      var (c1, fired) := ProcessFixed(ts, c, nows[0]);
      assert RunFixed(ts, c, nows).1 == fired + RunFixed(ts, c1, nows[1..]).1;
      assert Monotone(nows[1..], start) by {
        forall k | 0 <= k < |nows[1..]| - 1
          ensures Elapsed(nows[1..][k], start) <= Elapsed(nows[1..][k + 1], start)
        {
          assert nows[1..][k] == nows[k + 1] && nows[1..][k + 1] == nows[k + 2];
        }
      }
      if |nows| > 1 {
        assert e <= Elapsed(nows[1..][0], start);
      }
      RunFixedCounts(ts, c1, start, nows[1..], i);
      if c.playing {
        DueCount(ts, c.lastProcessed, e, 0, i);
        assert ts[i] <= c.duration;
      }
    }
  }

  /** Started by `play` and driven by frames whose elapsed times never go
      backwards, the corrected timer runs each handler exactly once if some
      frame reaches its threshold, and never otherwise. */
  lemma ExactlyOnce(ts: seq<nat>, start: Millis, nows: seq<Millis>, i: nat)
    requires i < |ts| && Monotone(nows, start)
    ensures multiset(RunFixed(ts, Play(ts, A.Fresh, start), nows).1)[i] ==
      if exists k :: 0 <= k < |nows| && Elapsed(nows[k], start) >= ts[i] then 1 else 0
  {
    RunFixedCounts(ts, Play(ts, A.Fresh, start), start, nows, i);
    ReachesExists(nows, start, ts[i]);
  }
}
