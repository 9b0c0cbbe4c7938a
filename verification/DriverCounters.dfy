/**
 Following the driver's cumulative 32-bit counters: the deltas recorded at each poll against the true counts, which
 the driver reports modulo 2^32.
*/
module DriverCounters {

  const WORD := 0x1_0000_0000

  type Word = n: nat | n < WORD

  function Reported(count: nat): Word {
    count % WORD
  }

  /** Unsigned 32-bit subtraction. */
  function CounterDelta(current: Word, previous: Word): (delta: Word)
    ensures (previous + delta) % WORD == current
  {
    if current >= previous then current - previous else current + WORD - previous
  }

  /** What is recorded over successive readings, the first one against `previous`. */
  function Accumulated(previous: Word, readings: seq<Word>): nat
    decreases |readings|
  {
    if readings == [] then 0 else CounterDelta(readings[0], previous) + Accumulated(readings[0], readings[1..])
  }

  function ReportedAll(counts: seq<nat>): seq<Word> {
    seq(|counts|, k requires 0 <= k < |counts| => Reported(counts[k]))
  }

  /** How far the k-th poll has advanced, the first one from `before`. */
  function Advance(before: nat, counts: seq<nat>, k: nat): int
    requires k < |counts|
  {
    var previous: int := if k == 0 then before else counts[k - 1];
    counts[k] - previous
  }

  /** True counts never go down. */
  ghost predicate Rising(before: nat, counts: seq<nat>) {
    forall k: nat | k < |counts| :: Advance(before, counts, k) >= 0
  }

  ghost predicate PolledInTime(before: nat, counts: seq<nat>) {
    forall k: nat | k < |counts| :: Advance(before, counts, k) < WORD
  }

  function Last(before: nat, counts: seq<nat>): nat {
    if counts == [] then before else counts[|counts| - 1]
  }

  /** One delta never exceeds the advance, and equals it exactly if the counter did not wrap all the way round. */
  lemma DeltaOfAdvance(before: nat, after: nat)
    requires before <= after
    ensures var delta := CounterDelta(Reported(after), Reported(before));
            before + delta <= after && (before + delta == after <==> after - before < WORD)
  {
  }

  lemma FirstPoll(before: nat, counts: seq<nat>)
    requires counts != [] && Rising(before, counts)
    ensures before <= counts[0] && Rising(counts[0], counts[1..])
    ensures PolledInTime(before, counts) <==> counts[0] - before < WORD && PolledInTime(counts[0], counts[1..])
  {
    var rest := counts[1..];
    assert Advance(before, counts, 0) == counts[0] - before;
    forall k: nat | k < |rest| ensures Advance(counts[0], rest, k) == Advance(before, counts, k + 1) {
    }
    if counts[0] - before < WORD && PolledInTime(counts[0], rest) {
      forall k: nat | k < |counts| ensures Advance(before, counts, k) < WORD {
        assert k > 0 ==> Advance(counts[0], rest, k - 1) < WORD;
      }
    }
  }

  /**
   What is recorded between two true counts never exceeds their difference, and is that difference if and only if
   no poll came too late.
  */
  lemma {:induction false} DeltasTelescope(before: nat, counts: seq<nat>)
    requires Rising(before, counts)
    ensures var recorded := Accumulated(Reported(before), ReportedAll(counts));
            && before + recorded <= Last(before, counts)
            && (before + recorded == Last(before, counts) <==> PolledInTime(before, counts))
    decreases |counts|
  {
    hide CounterDelta, Reported;
    if counts == [] {
      assert ReportedAll(counts) == [];
    } else {
      FirstPoll(before, counts);
      DeltasTelescope(counts[0], counts[1..]);
      DeltaOfAdvance(before, counts[0]);
      assert ReportedAll(counts)[0] == Reported(counts[0]) && ReportedAll(counts)[1..] == ReportedAll(counts[1..]);
      assert Last(counts[0], counts[1..]) == Last(before, counts);
    }
  }
}
