/** An observed value with a timestamp, a freshness timeout and a status; order of arrival must not matter. */
module Signals {

  datatype SignalStatus = Unknown | Valid | Stale

  datatype UpdateResult = Rejected | Idempotent | Updated

  datatype Availability = NoData | Fresh | StaleData | FreshnessUnverified | Unavailable

  datatype Timeout = NoTimeout | After(us: nat)

  /** The accepted observation, if there is one. */
  datatype Observation<+T> = Nothing | Observed(value: T, at: nat)

  datatype View<+T> = View(last: Observation<T>, status: SignalStatus)

  datatype Operation<+T> = Update(value: T, at: nat) | Invalidate(at: nat) | Refresh(now: nat)

  // --- what the operations mean --------------------------------------------------------------------------------

  function UpdateView<T>(v: View<T>, value: T, at: nat): View<T> {
    if v.last.Nothing? || at > v.last.at then View(Observed(value, at), Valid) else v
  }

  function InvalidateView<T>(v: View<T>, at: nat): View<T> {
    if v.last.Observed? && at <= v.last.at then v else v.(status := Unknown)
  }

  /** The age at which a valid observation stops being one; without a timeout any later instant is too late. */
  predicate TooOld(timeout: Timeout, at: nat, now: nat) {
    now >= at && (if timeout.NoTimeout? then now > at else now - at > timeout.us)
  }

  function RefreshView<T>(v: View<T>, timeout: Timeout, now: nat): View<T> {
    if v.status.Valid? && v.last.Observed? && TooOld(timeout, v.last.at, now) then v.(status := Stale) else v
  }

  function StatusAt<T>(v: View<T>, timeout: Timeout, now: nat): Availability {
    if v.last.Nothing? then NoData
    else if v.status.Unknown? then Unavailable
    else if timeout.NoTimeout? then FreshnessUnverified
    else if now >= v.last.at && now - v.last.at > timeout.us then StaleData
    else Fresh
  }

  function Perform<T>(v: View<T>, timeout: Timeout, o: Operation<T>): View<T> {
    match o
    case Update(value, at) => UpdateView(v, value, at)
    case Invalidate(at) => InvalidateView(v, at)
    case Refresh(now) => RefreshView(v, timeout, now)
  }

  function History<T>(timeout: Timeout, ops: seq<Operation<T>>): View<T> {
    if ops == [] then View(Nothing, Unknown)
    else Perform(History(timeout, ops[..|ops| - 1]), timeout, ops[|ops| - 1])
  }

  // --- order independence --------------------------------------------------------------------------------------

  /** An update at this position carries the highest timestamp of all, and is the first to carry it. */
  ghost predicate FirstAtMaximum<T>(ops: seq<Operation<T>>, k: nat) {
    && k < |ops| && ops[k].Update?
    && (forall i :: 0 <= i < |ops| && ops[i].Update? ==> ops[i].at <= ops[k].at)
    && (forall i :: 0 <= i < k && ops[i].Update? ==> ops[i].at < ops[k].at)
  }

  /** Whatever is interleaved, the signal holds the first value offered at the maximum timestamp offered. */
  lemma {:induction false} HoldsFirstAtMaximum<T>(timeout: Timeout, ops: seq<Operation<T>>)
    ensures var last := History(timeout, ops).last;
            && (last.Nothing? <==> forall i :: 0 <= i < |ops| ==> !ops[i].Update?)
            && (last.Observed? ==>
                  exists k: nat :: FirstAtMaximum(ops, k) && last == Observed(ops[k].value, ops[k].at))
  {
    if ops == [] {
    } else {
      var before, o := ops[..|ops| - 1], ops[|ops| - 1];
      HoldsFirstAtMaximum(timeout, before);
      var last, last' := History(timeout, before).last, History(timeout, ops).last;
      if last' != last {
        assert FirstAtMaximum(ops, |ops| - 1);
      } else if last.Observed? {
        var k: nat :| FirstAtMaximum(before, k) && last == Observed(before[k].value, before[k].at);
        assert FirstAtMaximum(ops, k) && ops[k] == before[k];
      } else {
        assert !o.Update?;
      }
    }
  }

  ghost predicate DistinctTimes<T>(ops: seq<Operation<T>>) {
    forall i, j :: 0 <= i < j < |ops| && ops[i].Update? && ops[j].Update? ==> ops[i].at != ops[j].at
  }

  lemma Elsewhere<T>(a: seq<T>, b: seq<T>, i: nat) returns (j: nat)
    requires multiset(a) == multiset(b) && i < |a|
    ensures j < |b| && b[j] == a[i]
  {
    assert a[i] in multiset(b);
    j :| j < |b| && b[j] == a[i];
  }

  /** Every history that offers the maximum of another one holds an observation at least as recent. */
  lemma HoldsAtLeast<T>(timeout: Timeout, ops: seq<Operation<T>>, other: seq<Operation<T>>)
    requires multiset(ops) == multiset(other) && History(timeout, ops).last.Observed?
    ensures var last := History(timeout, ops).last;
            && History(timeout, other).last.Observed?
            && last.at <= History(timeout, other).last.at
            && Update(last.value, last.at) in ops
  {
    HoldsFirstAtMaximum(timeout, ops);
    HoldsFirstAtMaximum(timeout, other);
    var last := History(timeout, ops).last;
    var k: nat :| FirstAtMaximum(ops, k) && last == Observed(ops[k].value, ops[k].at);
    var j := Elsewhere(ops, other, k);
  }

  lemma SameTimeSameUpdate<T>(ops: seq<Operation<T>>, a: Operation<T>, b: Operation<T>)
    requires DistinctTimes(ops) && a in ops && b in ops && a.Update? && b.Update? && a.at == b.at
    ensures a == b
  {
    var i :| 0 <= i < |ops| && ops[i] == a;
    var j :| 0 <= j < |ops| && ops[j] == b;
    assert i == j;
  }

  /** With distinct timestamps the held value and its timestamp do not depend on the order of arrival. */
  lemma OrderDoesNotMatter<T>(timeout: Timeout, ops: seq<Operation<T>>, other: seq<Operation<T>>)
    requires DistinctTimes(ops) && multiset(ops) == multiset(other)
    ensures History(timeout, ops).last == History(timeout, other).last
  {
    var a, b := History(timeout, ops).last, History(timeout, other).last;
    if a.Observed? {
      HoldsAtLeast(timeout, ops, other);
    }
    if b.Observed? {
      HoldsAtLeast(timeout, other, ops);
      assert Update(b.value, b.at) in multiset(other);
      SameTimeSameUpdate(ops, Update(a.value, a.at), Update(b.value, b.at));
    }
  }

  // --- the status against its history --------------------------------------------------------------------------

  /** An invalidation strictly newer than the observation made at position k arrived after it. */
  ghost predicate InvalidatedAfter<T>(ops: seq<Operation<T>>, k: nat)
    requires k < |ops| && ops[k].Update?
  {
    exists j :: k < j < |ops| && ops[j].Invalidate? && ops[j].at > ops[k].at
  }

  /** A refresh arrived after it that found it too old: older than the timeout, or at all old without one. */
  ghost predicate OutdatedAfter<T>(timeout: Timeout, ops: seq<Operation<T>>, k: nat)
    requires k < |ops| && ops[k].Update?
  {
    exists j :: k < j < |ops| && ops[j].Refresh? &&
      ops[j].now > ops[k].at + if timeout.After? then timeout.us else 0
  }

  /** What the next operation adds to the history of the observation at position k. */
  lemma OneMoreOperation<T>(timeout: Timeout, ops: seq<Operation<T>>, k: nat)
    requires k < |ops| - 1 && ops[k].Update?
    ensures var o := ops[|ops| - 1];
            var before := ops[..|ops| - 1];
            && (InvalidatedAfter(ops, k) <==> InvalidatedAfter(before, k) || (o.Invalidate? && o.at > ops[k].at))
            && (OutdatedAfter(timeout, ops, k) <==>
                  || OutdatedAfter(timeout, before, k)
                  || (o.Refresh? && o.now > ops[k].at + if timeout.After? then timeout.us else 0))
  {
    var before, last := ops[..|ops| - 1], |ops| - 1;
    if InvalidatedAfter(ops, k) {
      var j :| k < j < |ops| && ops[j].Invalidate? && ops[j].at > ops[k].at;
      assert j < last ==> before[j] == ops[j];
    }
    if InvalidatedAfter(before, k) {
      var j :| k < j < |before| && before[j].Invalidate? && before[j].at > before[k].at;
      assert ops[j] == before[j];
    }
    if OutdatedAfter(timeout, ops, k) {
      var j :| k < j < |ops| && ops[j].Refresh? &&
        ops[j].now > ops[k].at + if timeout.After? then timeout.us else 0;
      assert j < last ==> before[j] == ops[j];
    }
    if OutdatedAfter(timeout, before, k) {
      var j :| k < j < |before| && before[j].Refresh? &&
        before[j].now > before[k].at + if timeout.After? then timeout.us else 0;
      assert ops[j] == before[j];
    }
  }

  lemma OneFirstAtMaximum<T>(ops: seq<Operation<T>>, j: nat, k: nat)
    requires FirstAtMaximum(ops, j) && FirstAtMaximum(ops, k)
    ensures j == k
  {
  }

  /** The status that the history of the observation at position k amounts to. */
  ghost predicate StatusFollows<T>(timeout: Timeout, ops: seq<Operation<T>>, k: nat, status: SignalStatus)
    requires k < |ops| && ops[k].Update?
  {
    && (status.Unknown? <==> InvalidatedAfter(ops, k))
    && (status.Stale? <==> !InvalidatedAfter(ops, k) && OutdatedAfter(timeout, ops, k))
  }

  /**
   The status over every history: Unknown before the first update; afterwards, counted from the update that is held,
   Unknown exactly if a strictly newer invalidation followed it, else Stale exactly if a refresh found it too old,
   else Valid.
  */
  lemma {:induction false} StatusMeetsHistory<T>(timeout: Timeout, ops: seq<Operation<T>>)
    ensures var v := History(timeout, ops);
            && (v.last.Nothing? ==> v.status.Unknown?)
            && forall k: nat | FirstAtMaximum(ops, k) ::
                 v.last == Observed(ops[k].value, ops[k].at) && StatusFollows(timeout, ops, k, v.status)
  {
    if ops == [] {
    } else {
      var before, o, last := ops[..|ops| - 1], ops[|ops| - 1], |ops| - 1;
      var u, v := History(timeout, before), History(timeout, ops);
      StatusMeetsHistory(timeout, before);
      HoldsFirstAtMaximum(timeout, before);
      forall k: nat | FirstAtMaximum(ops, k)
        ensures v.last == Observed(ops[k].value, ops[k].at) && StatusFollows(timeout, ops, k, v.status)
      {
        if k < last {
          assert before[k] == ops[k] && FirstAtMaximum(before, k);
          OneMoreOperation(timeout, ops, k);
        } else {
          NewerThanHeld(timeout, ops);
        }
      }
    }
  }

  /** An update newer than all before it is accepted. */
  lemma NewerThanHeld<T>(timeout: Timeout, ops: seq<Operation<T>>)
    requires ops != [] && FirstAtMaximum(ops, |ops| - 1)
    ensures var o := ops[|ops| - 1];
            History(timeout, ops).last == Observed(o.value, o.at) && History(timeout, ops).status.Valid?
  {
    var before := ops[..|ops| - 1];
    HoldsFirstAtMaximum(timeout, before);
    if History(timeout, before).last.Observed? {
      var k: nat :| FirstAtMaximum(before, k)
        && History(timeout, before).last == Observed(before[k].value, before[k].at);
      assert ops[k] == before[k];
    }
  }

  /**
   What a reader at instant `now` is told, over every history: no data before the first update; afterwards the held
   update counts, which is unavailable exactly if a strictly newer invalidation followed it, unverified without a
   timeout, and otherwise stale exactly if it is older than the timeout.
  */
  lemma AvailabilityMeetsHistory<T>(timeout: Timeout, ops: seq<Operation<T>>, now: nat)
    ensures var a := StatusAt(History(timeout, ops), timeout, now);
            && (a.NoData? <==> forall i :: 0 <= i < |ops| ==> !ops[i].Update?)
            && forall k: nat | FirstAtMaximum(ops, k) ::
                 && (a.Unavailable? <==> InvalidatedAfter(ops, k))
                 && (a.FreshnessUnverified? <==> !InvalidatedAfter(ops, k) && timeout.NoTimeout?)
                 && (a.StaleData? <==>
                       !InvalidatedAfter(ops, k) && timeout.After? && now > ops[k].at + timeout.us)
  {
    StatusMeetsHistory(timeout, ops);
    HoldsFirstAtMaximum(timeout, ops);
  }

  /** Just after an update that is newer than every update before it, the signal is fresh. */
  lemma AcceptedUpdateIsFresh<T>(timeout: Timeout, ops: seq<Operation<T>>, value: T, at: nat)
    requires forall i :: 0 <= i < |ops| && ops[i].Update? ==> ops[i].at < at
    ensures var v := History(timeout, ops + [Update(value, at)]);
            && v == View(Observed(value, at), Valid)
            && StatusAt(v, timeout, at) == if timeout.After? then Fresh else FreshnessUnverified
  {
    NewerThanHeld(timeout, ops + [Update(value, at)]);
  }

  // --- refreshed status against the pure one -------------------------------------------------------------------

  /** A refresh that follows another one does not go back in time. */
  ghost predicate RefreshesForward<T>(ops: seq<Operation<T>>) {
    forall i, j :: 0 <= i < j < |ops| && ops[i].Refresh? && ops[j].Refresh? ==> ops[i].now <= ops[j].now
  }

  /** A stale status can only stem from a refresh at an instant at which the held observation was too old. */
  lemma {:induction false} StaleHasAWitness<T>(us: nat, ops: seq<Operation<T>>)
    ensures var v := History(After(us), ops);
            && (v.status.Valid? ==> v.last.Observed?)
            && (v.status.Stale? ==>
                  && v.last.Observed?
                  && exists k :: 0 <= k < |ops| && ops[k].Refresh? && TooOld(After(us), v.last.at, ops[k].now))
  {
    if ops == [] {
    } else {
      var before, o := ops[..|ops| - 1], ops[|ops| - 1];
      StaleHasAWitness(us, before);
      var v, v' := History(After(us), before), History(After(us), ops);
      if v'.status.Stale? {
        if v.status.Stale? && v == v' {
          var k :| 0 <= k < |before| && before[k].Refresh? && TooOld(After(us), v.last.at, before[k].now);
          assert ops[k] == before[k];
        } else {
          assert ops[|ops| - 1].Refresh?;
        }
      }
    }
  }

  /**
   With a fixed timeout and refreshes that do not go back in time, the status left by a refresh agrees with the
   pure availability at that instant.
  */
  lemma RefreshAgreesWithStatusAt<T>(us: nat, ops: seq<Operation<T>>)
    requires ops != [] && ops[|ops| - 1].Refresh? && RefreshesForward(ops)
    ensures var v := History(After(us), ops);
            StatusAt(v, After(us), ops[|ops| - 1].now) ==
              if v.last.Nothing? then NoData
              else if v.status.Unknown? then Unavailable
              else if v.status.Stale? then StaleData
              else Fresh
  {
    StaleHasAWitness(us, ops);
    StaleHasAWitness(us, ops[..|ops| - 1]);
  }

  // --- the cell itself -----------------------------------------------------------------------------------------

  class Signal<T(==, 0)> {
    var value: T
    var hasValue: bool
    var lastUpdateUs: nat
    var freshnessTimeoutUs: Timeout
    var status: SignalStatus

    ghost predicate Wellformed()
      reads this
    {
      status.Valid? ==> hasValue
    }

    ghost function ViewNow(): View<T>
      reads this
    {
      View(if hasValue then Observed(value, lastUpdateUs) else Nothing, status)
    }

    constructor (timeout: Timeout, blank: T)
      ensures Wellformed() && ViewNow() == View(Nothing, Unknown) && freshnessTimeoutUs == timeout
    {
      value, hasValue, lastUpdateUs := blank, false, 0;
      freshnessTimeoutUs, status := timeout, Unknown;
    }

    method UpdateStatus(newValue: T, timestampUs: nat) returns (r: UpdateResult)
      requires Wellformed()
      modifies this
      ensures Wellformed() && freshnessTimeoutUs == old(freshnessTimeoutUs)
      ensures ViewNow() == UpdateView(old(ViewNow()), newValue, timestampUs)
      ensures r.Updated? <==> !old(hasValue) || timestampUs > old(lastUpdateUs)
      ensures r.Idempotent? <==> old(hasValue) && timestampUs == old(lastUpdateUs) && newValue == old(value)
      ensures if r.Updated? then hasValue && value == newValue && lastUpdateUs == timestampUs && status.Valid?
              else ViewNow() == old(ViewNow())
    {
      if !hasValue {
        value, lastUpdateUs, hasValue, status := newValue, timestampUs, true, Valid;
        return Updated;
      }
      if timestampUs < lastUpdateUs {
        return Rejected;
      }
      if timestampUs == lastUpdateUs {
        return if value == newValue then Idempotent else Rejected;
      }
      value, lastUpdateUs, status := newValue, timestampUs, Valid;
      return Updated;
    }

    method InvalidateAt(timestampUs: nat) returns (accepted: bool)
      requires Wellformed()
      modifies this`status
      ensures Wellformed() && ViewNow() == InvalidateView(old(ViewNow()), timestampUs)
      ensures accepted <==> !old(hasValue) || timestampUs > old(lastUpdateUs)
    {
      if hasValue && timestampUs <= lastUpdateUs {
        return false;
      }
      status := Unknown;
      return true;
    }

    method RefreshAt(nowUs: nat)
      requires Wellformed()
      modifies this`status
      ensures Wellformed() && ViewNow() == RefreshView(old(ViewNow()), freshnessTimeoutUs, nowUs)
    {
      if !status.Valid? || nowUs < lastUpdateUs {
        return;
      }
      if freshnessTimeoutUs.NoTimeout? {
        if nowUs > lastUpdateUs {
          status := Stale;
        }
        return;
      }
      if nowUs - lastUpdateUs > freshnessTimeoutUs.us {
        status := Stale;
      }
    }

    method Availability(nowUs: nat) returns (a: Availability)
      ensures a == StatusAt(ViewNow(), freshnessTimeoutUs, nowUs)
    {
      if !hasValue {
        return NoData;
      }
      if status.Unknown? {
        return Unavailable;
      }
      if freshnessTimeoutUs.NoTimeout? {
        return FreshnessUnverified;
      }
      var age := if nowUs >= lastUpdateUs then nowUs - lastUpdateUs else 0;
      return if age <= freshnessTimeoutUs.us then Fresh else StaleData;
    }
  }
}
