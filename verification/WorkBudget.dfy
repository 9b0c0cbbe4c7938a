/**
 The cooperative work budget of the worker: how many receives and how much time may pass before the worker has
 to block, and how batches are cut inside that. Fairness must not depend on the clock behaving well.
*/
module WorkBudgets {
  import opened Arithmetic

  datatype Limits = Limits(maxFramesPerBatch: nat, maxBatchTimeUs: nat, maxReceiveCalls: nat, maxRunnableTimeUs: nat)

  /** The part of the configuration check that concerns the budget. */
  predicate ValidLimits(l: Limits) {
    && 1 <= l.maxFramesPerBatch <= l.maxReceiveCalls <= 65535
    && 1 <= l.maxBatchTimeUs <= l.maxRunnableTimeUs <= 1000000
  }

  datatype Verdict = Continue | Checkpoint | Pause

  datatype Budget = Budget(receiveCalls: nat, batchFrames: nat, batchStarted: nat, runnableStarted: nat)

  /** One receive: whether it returned a frame, and the platform clock afterwards. */
  datatype Sample = Sample(frame: bool, now: nat)

  /** Inclusive deadline; a clock that has gone back never expires it. */
  predicate Elapsed(now: nat, start: nat, limit: nat) {
    now >= start && now - start >= limit
  }

  function Fresh(now: nat): Budget {
    Budget(0, 0, now, now)
  }

  function Count(b: Budget, s: Sample): Budget {
    b.(receiveCalls := b.receiveCalls + 1, batchFrames := b.batchFrames + (if s.frame then 1 else 0))
  }

  /** The verdict on a sample, given the budget that already counts it. */
  function Judge(l: Limits, counted: Budget, s: Sample): Verdict {
    if counted.receiveCalls >= l.maxReceiveCalls || Elapsed(s.now, counted.runnableStarted, l.maxRunnableTimeUs)
    then Pause
    else if !s.frame || counted.batchFrames >= l.maxFramesPerBatch
            || Elapsed(s.now, counted.batchStarted, l.maxBatchTimeUs)
    then Checkpoint
    else Continue
  }

  function Next(l: Limits, b: Budget, s: Sample): Budget {
    var counted := Count(b, s);
    if Judge(l, counted, s).Checkpoint? then counted.(batchFrames := 0, batchStarted := s.now) else counted
  }

  function VerdictOn(l: Limits, b: Budget, s: Sample): Verdict {
    Judge(l, Count(b, s), s)
  }

  /** The budget after a sequence of receives, and the verdict on the k-th of them. */
  function Feed(l: Limits, b: Budget, samples: seq<Sample>): Budget {
    if samples == [] then b else Next(l, Feed(l, b, samples[..|samples| - 1]), samples[|samples| - 1])
  }

  function VerdictAt(l: Limits, b: Budget, samples: seq<Sample>, k: nat): Verdict
    requires k < |samples|
  {
    VerdictOn(l, Feed(l, b, samples[..k]), samples[k])
  }

  // --- whatever the clock does ---------------------------------------------------------------------------------

  lemma {:induction false} FeedCounts(l: Limits, b: Budget, samples: seq<Sample>)
    ensures var f := Feed(l, b, samples);
            && f.receiveCalls == b.receiveCalls + |samples|
            && f.runnableStarted == b.runnableStarted
            && f.batchFrames <= b.batchFrames + |samples|
  {
    if samples == [] {
    } else {
      FeedCounts(l, b, samples[..|samples| - 1]);
    }
  }

  /**
   Between two pauses there are at most maxReceiveCalls receives: by then at the latest the verdict is Pause, for
   every sequence of frames and non-frames and every clock, frozen and backward ones included.
  */
  lemma PauseComesInTime(l: Limits, start: nat, samples: seq<Sample>)
    requires ValidLimits(l) && |samples| >= l.maxReceiveCalls
    ensures exists k :: 0 <= k < l.maxReceiveCalls && VerdictAt(l, Fresh(start), samples, k).Pause?
  {
    var k := l.maxReceiveCalls - 1;
    FeedCounts(l, Fresh(start), samples[..k]);
    assert VerdictAt(l, Fresh(start), samples, k).Pause?;
  }

  /** A batch just started at `b`, and no verdict so far cut it: then only frames were received, all counted. */
  lemma {:induction false} UncutBatchIsAllFrames(l: Limits, b: Budget, samples: seq<Sample>)
    requires b.batchFrames == 0
    requires forall k :: 0 <= k < |samples| ==> VerdictAt(l, b, samples, k).Continue?
    ensures var f := Feed(l, b, samples);
            && f.batchFrames == |samples|
            && f.batchStarted == b.batchStarted
            && (forall k :: 0 <= k < |samples| ==> samples[k].frame)
            && (samples != [] ==>
                  && |samples| < l.maxFramesPerBatch
                  && !Elapsed(samples[|samples| - 1].now, b.batchStarted, l.maxBatchTimeUs)
                  && !Elapsed(samples[|samples| - 1].now, b.runnableStarted, l.maxRunnableTimeUs))
  {
    if samples == [] {
    } else {
      var last := |samples| - 1;
      var before := samples[..last];
      forall k | 0 <= k < last ensures VerdictAt(l, b, before, k).Continue? {
        assert before[..k] == samples[..k];
        assert VerdictAt(l, b, samples, k).Continue?;
      }
      UncutBatchIsAllFrames(l, b, before);
      FeedCounts(l, b, before);
      assert VerdictAt(l, b, samples, last).Continue?;
    }
  }

  /** The batch that the k-th receive belongs to began after position j - 1, or at `start` for j == 0. */
  ghost predicate BatchFrom(l: Limits, start: nat, samples: seq<Sample>, j: nat, k: nat)
    requires k < |samples|
  {
    && j <= k
    && (forall i :: j <= i < k ==> VerdictAt(l, Fresh(start), samples, i).Continue?)
    && (j > 0 ==> VerdictAt(l, Fresh(start), samples, j - 1).Checkpoint?)
  }

  lemma {:induction false} BatchCounts(l: Limits, start: nat, samples: seq<Sample>, j: nat, k: nat)
    requires k < |samples| && BatchFrom(l, start, samples, j, k)
    ensures var b := Feed(l, Fresh(start), samples[..k]);
            && b.receiveCalls == k && b.runnableStarted == start
            && b.batchFrames == k - j
            && b.batchStarted == (if j == 0 then start else samples[j - 1].now)
    decreases k
  {
    FeedCounts(l, Fresh(start), samples[..k]);
    if k == 0 {
    } else {
      var last := k - 1;
      assert samples[..k][..last] == samples[..last] && samples[..k][last] == samples[last];
      FeedCounts(l, Fresh(start), samples[..last]);
      if j == k {
        assert VerdictAt(l, Fresh(start), samples, last).Checkpoint?;
      } else {
        BatchCounts(l, start, samples, j, last);
        assert VerdictAt(l, Fresh(start), samples, last).Continue?;
      }
    }
  }

  /**
   The verdict on the k-th receive since a pause, for every clock: Pause exactly when the calls or the runnable time
   reached their limit; else Checkpoint exactly when no frame came or the frames or the time of the batch reached
   theirs.
  */
  lemma VerdictsMeetLimits(l: Limits, start: nat, samples: seq<Sample>, j: nat, k: nat)
    requires k < |samples| && BatchFrom(l, start, samples, j, k)
    ensures var now := samples[k].now;
            var batchStart := if j == 0 then start else samples[j - 1].now;
            var pause := k + 1 >= l.maxReceiveCalls || (now >= start && now - start >= l.maxRunnableTimeUs);
            var cut := || !samples[k].frame || k + 1 - j >= l.maxFramesPerBatch
                       || (now >= batchStart && now - batchStart >= l.maxBatchTimeUs);
            VerdictAt(l, Fresh(start), samples, k) == if pause then Pause else if cut then Checkpoint else Continue
  {
    BatchCounts(l, start, samples, j, k);
  }

  /** Every batch is cut within maxFramesPerBatch receives, whatever the clock does. */
  lemma BatchIsCutInTime(l: Limits, b: Budget, samples: seq<Sample>)
    requires ValidLimits(l) && b.batchFrames == 0 && |samples| >= l.maxFramesPerBatch
    ensures exists k :: 0 <= k < l.maxFramesPerBatch && !VerdictAt(l, b, samples, k).Continue?
  {
    if forall k :: 0 <= k < l.maxFramesPerBatch ==> VerdictAt(l, b, samples, k).Continue? {
      var batch := samples[..l.maxFramesPerBatch];
      forall k | 0 <= k < |batch| ensures VerdictAt(l, b, batch, k).Continue? {
        assert batch[..k] == samples[..k];
        assert VerdictAt(l, b, samples, k).Continue?;
      }
      UncutBatchIsAllFrames(l, b, batch);
    }
  }

  // --- a clock that moves forward in bounded steps -------------------------------------------------------------

  /** The instant before the k-th sample. */
  function Before(start: nat, samples: seq<Sample>, k: nat): nat
    requires k < |samples|
  {
    if k == 0 then start else samples[k - 1].now
  }

  /** From `start` on, consecutive samples are at most `gap` apart and never go back. */
  predicate Steady(start: nat, samples: seq<Sample>, gap: nat) {
    forall k :: 0 <= k < |samples| ==>
      Before(start, samples, k) <= samples[k].now <= Before(start, samples, k) + gap
  }

  lemma {:induction false} SteadyIsForward(start: nat, samples: seq<Sample>, gap: nat, k: nat)
    requires Steady(start, samples, gap) && k < |samples|
    ensures start <= samples[k].now
  {
    assert Before(start, samples, k) <= samples[k].now;
    if k == 0 {
    } else {
      SteadyIsForward(start, samples, gap, k - 1);
    }
  }

  /** The span of any batch, up to the receive that cuts it, stays below its limit plus one gap. */
  lemma SpansOvershootByOneGap(l: Limits, b: Budget, samples: seq<Sample>, gap: nat)
    requires ValidLimits(l) && b.batchFrames == 0
    requires Steady(b.batchStarted, samples, gap) && samples != []
    requires forall k :: 0 <= k < |samples| - 1 ==> VerdictAt(l, b, samples, k).Continue?
    ensures samples[|samples| - 1].now - b.batchStarted < l.maxBatchTimeUs + gap
  {
    var last := |samples| - 1;
    var before := samples[..last];
    forall k | 0 <= k < last ensures VerdictAt(l, b, before, k).Continue? {
      assert before[..k] == samples[..k];
      assert VerdictAt(l, b, samples, k).Continue?;
    }
    UncutBatchIsAllFrames(l, b, before);
    assert samples[last].now <= Before(b.batchStarted, samples, last) + gap;
    if last > 0 {
      SteadyIsForward(b.batchStarted, samples, gap, last - 1);
    }
  }

  /** So does the runnable span, up to the receive that pauses. */
  lemma RunnableSpanOvershootsByOneGap(l: Limits, start: nat, samples: seq<Sample>, gap: nat)
    requires ValidLimits(l) && Steady(start, samples, gap) && samples != []
    requires forall k :: 0 <= k < |samples| - 1 ==> !VerdictAt(l, Fresh(start), samples, k).Pause?
    ensures samples[|samples| - 1].now - start < l.maxRunnableTimeUs + gap
  {
    var last := |samples| - 1;
    assert samples[last].now <= Before(start, samples, last) + gap;
    if last > 0 {
      SteadyIsForward(start, samples, gap, last - 1);
      FeedCounts(l, Fresh(start), samples[..last - 1]);
      assert !VerdictAt(l, Fresh(start), samples, last - 1).Pause?;
    }
  }

  // --- a frozen clock under full load --------------------------------------------------------------------------

  function Frozen(n: nat, now: nat): seq<Sample> {
    seq(n, k => Sample(true, now))
  }

  lemma {:induction false} FrozenBudget(l: Limits, now: nat, n: nat)
    requires ValidLimits(l) && n < l.maxReceiveCalls
    ensures Feed(l, Fresh(now), Frozen(n, now)) == Budget(n, n % l.maxFramesPerBatch, now, now)
  {
    if n == 0 {
      ZeroRemainder(l.maxFramesPerBatch);
    } else {
      FrozenBudget(l, now, n - 1);
      FrozenFeed(l, now, n);
      NextRemainder(n - 1, l.maxFramesPerBatch);
      FrozenNext(l, now, n - 1, (n - 1) % l.maxFramesPerBatch);
    }
  }

  lemma ZeroRemainder(m: nat)
    requires m > 0
    ensures 0 % m == 0
  {
  }

  lemma FrozenFeed(l: Limits, now: nat, n: nat)
    requires n > 0
    ensures Feed(l, Fresh(now), Frozen(n, now)) == Next(l, Feed(l, Fresh(now), Frozen(n - 1, now)), Sample(true, now))
  {
    hide Next;
    assert Frozen(n, now)[..n - 1] == Frozen(n - 1, now);
  }

  /** One frame more under a frozen clock, before the call limit. */
  lemma FrozenNext(l: Limits, now: nat, calls: nat, frames: nat)
    requires ValidLimits(l) && calls + 1 < l.maxReceiveCalls && frames < l.maxFramesPerBatch
    ensures Next(l, Budget(calls, frames, now, now), Sample(true, now)) ==
              Budget(calls + 1, if frames + 1 == l.maxFramesPerBatch then 0 else frames + 1, now, now)
  {
  }

  lemma NextRemainder(n: nat, m: nat)
    requires m > 0
    ensures (n + 1) % m == if n % m + 1 == m then 0 else n % m + 1
  {
    RemainderStep(m, n / m, n % m);
  }

  lemma RemainderStep(m: nat, q: nat, r: nat)
    requires r < m
    ensures (m * q + r + 1) % m == if r + 1 == m then 0 else r + 1
  {
    if r + 1 == m {
      RemainderIs(m, q + 1, 0);
      assert m * (q + 1) == m * q + m;
    } else {
      RemainderIs(m, q, r + 1);
    }
  }

  lemma RemainderIs(m: nat, q: nat, r: nat)
    requires r < m
    ensures (m * q + r) % m == r
  {
    var n: int := m * q + r;
    var d := n / m - q;
    assert r - n % m == m * d;
    if r > n % m {
      NotAMultiple(m, d, r - n % m);
    } else if r < n % m {
      NotAMultiple(m, -d, n % m - r);
    }
  }

  /**
   With a frozen clock and nothing but frames, call k pauses exactly when k is the call limit, and before that it
   checkpoints exactly at the multiples of the batch size.
  */
  lemma FrozenClockSchedule(l: Limits, now: nat, k: nat)
    requires ValidLimits(l) && 1 <= k <= l.maxReceiveCalls
    ensures VerdictAt(l, Fresh(now), Frozen(k, now), k - 1) ==
              if k == l.maxReceiveCalls then Pause
              else if k % l.maxFramesPerBatch == 0 then Checkpoint
              else Continue
  {
    FrozenBudget(l, now, k - 1);
    assert Frozen(k, now)[..k - 1] == Frozen(k - 1, now);
    NextRemainder(k - 1, l.maxFramesPerBatch);
    FrozenVerdict(l, now, k - 1, (k - 1) % l.maxFramesPerBatch);
  }

  lemma FrozenVerdict(l: Limits, now: nat, calls: nat, frames: nat)
    requires ValidLimits(l) && frames < l.maxFramesPerBatch
    ensures VerdictOn(l, Budget(calls, frames, now, now), Sample(true, now)) ==
              if calls + 1 >= l.maxReceiveCalls then Pause
              else if frames + 1 == l.maxFramesPerBatch then Checkpoint
              else Continue
  {
  }

  // --- the worker's counters -----------------------------------------------------------------------------------

  class WorkBudget {
    const limits: Limits
    var receiveCalls: nat
    var batchFrames: nat
    var batchStarted: nat
    var runnableStarted: nat

    ghost function Now(): Budget
      reads this
    {
      Budget(receiveCalls, batchFrames, batchStarted, runnableStarted)
    }

    constructor (limits: Limits, now: nat)
      ensures this.limits == limits && Now() == Fresh(now)
    {
      this.limits := limits;
      receiveCalls, batchFrames := 0, 0;
      batchStarted, runnableStarted := now, now;
    }

    method AfterReceive(frame: bool, now: nat) returns (verdict: Verdict)
      modifies this
      ensures verdict == VerdictOn(limits, old(Now()), Sample(frame, now))
      ensures Now() == Next(limits, old(Now()), Sample(frame, now))
    {
      receiveCalls := receiveCalls + 1;
      if frame {
        batchFrames := batchFrames + 1;
      }
      if receiveCalls >= limits.maxReceiveCalls || Elapsed(now, runnableStarted, limits.maxRunnableTimeUs) {
        return Pause;
      }
      if !frame || batchFrames >= limits.maxFramesPerBatch || Elapsed(now, batchStarted, limits.maxBatchTimeUs) {
        batchFrames := 0;
        batchStarted := now;
        return Checkpoint;
      }
      return Continue;
    }

    method AfterPause(now: nat)
      modifies this
      ensures Now() == Fresh(now)
    {
      receiveCalls := 0;
      batchFrames := 0;
      runnableStarted := now;
      batchStarted := now;
    }
  }
}
