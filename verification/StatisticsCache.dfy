/** The runtime's cache of the source's statistics: how often the source is asked, and how old an answer can be. */
module StatisticsCaches {

  const REFRESH_INTERVAL_US := 1000000

  datatype Cache = Empty | Sampled(at: nat)

  /** A refresh at an instant of the injected clock, forced or not, or the reset at the borders of a run. */
  datatype Request = Request(now: nat, force: bool) | ResetCache

  predicate Due(c: Cache, now: nat) {
    c.Empty? || (now >= c.at && now - c.at >= REFRESH_INTERVAL_US)
  }

  predicate Asks(c: Cache, r: Request) {
    r.Request? && (r.force || Due(c, r.now))
  }

  function Refresh(c: Cache, r: Request): Cache {
    if r.ResetCache? then Empty else if Asks(c, r) then Sampled(r.now) else c
  }

  function After(requests: seq<Request>): Cache {
    if requests == [] then Empty else Refresh(After(requests[..|requests| - 1]), requests[|requests| - 1])
  }

  /** The instants at which the source is asked. */
  function Asked(requests: seq<Request>): seq<nat> {
    if requests == [] then []
    else
      var before, r := requests[..|requests| - 1], requests[|requests| - 1];
      Asked(before) + if Asks(After(before), r) then [r.now] else []
  }

  /** When the source is asked, for every history: whenever forced, without an answer, or after a whole interval. */
  lemma AsksExactlyWhenDue(requests: seq<Request>, now: nat, force: bool)
    ensures var asked, next := Asked(requests), Asked(requests + [Request(now, force)]);
            var sampled := After(requests);
            && next == asked + (if force || sampled.Empty? || (now >= sampled.at && now - sampled.at >= 1000000)
                                then [now] else [])
            && After(requests + [Request(now, force)])
               == (if next == asked then sampled else Sampled(now))
            && After(requests + [ResetCache]) == Empty && Asked(requests + [ResetCache]) == asked
  {
    assert (requests + [Request(now, force)])[..|requests|] == requests;
    assert (requests + [ResetCache])[..|requests|] == requests;
  }

  ghost predicate Spaced(asked: seq<nat>) {
    forall i :: 0 < i < |asked| ==> asked[i] >= asked[i - 1] + REFRESH_INTERVAL_US
  }

  /**
   Requests that are not forced, with any clock, ask the source at most once per interval, the first one at once;
   the cache holds the last answer.
  */
  lemma {:induction false} UnforcedAsksAreSpaced(requests: seq<Request>)
    requires forall i :: 0 <= i < |requests| ==> requests[i].Request? && !requests[i].force
    ensures var asked := Asked(requests);
            && Spaced(asked)
            && (requests != [] ==> asked != [] && asked[0] == requests[0].now)
            && After(requests) == if asked == [] then Empty else Sampled(asked[|asked| - 1])
  {
    if requests == [] {
    } else {
      var before, r := requests[..|requests| - 1], requests[|requests| - 1];
      hide Due;
      UnforcedAsksAreSpaced(before);
      DueIsLater(After(before), r.now);
      assert requests[0] == if before == [] then r else before[0];
      if Asks(After(before), r) {
        SpacedAppend(Asked(before), r.now);
      } else {
        assert Asked(requests) == Asked(before);
      }
    }
  }

  lemma DueIsLater(c: Cache, now: nat)
    ensures Due(c, now) ==> c.Empty? || now >= c.at + REFRESH_INTERVAL_US
    ensures c.Empty? ==> Due(c, now)
  {
  }

  lemma SpacedAppend(asked: seq<nat>, now: nat)
    requires Spaced(asked) && (asked != [] ==> now >= asked[|asked| - 1] + REFRESH_INTERVAL_US)
    ensures Spaced(asked + [now])
  {
  }

  /**
   After any refresh, whatever resets went before, the answer in the cache is less than one interval old, unless the
   clock is behind it.
  */
  lemma AnswerIsFresh(requests: seq<Request>)
    requires requests != [] && requests[|requests| - 1].Request?
    ensures var c, now := After(requests), requests[|requests| - 1].now;
            c.Sampled? && (now >= c.at ==> now - c.at < REFRESH_INTERVAL_US)
  {
    assert After(requests) == Refresh(After(requests[..|requests| - 1]), requests[|requests| - 1]);
  }

  class StatisticsCache {
    var cacheValid: bool
    var sampleUs: nat
    var cached: nat

    ghost function Now(): Cache
      reads this
    {
      if cacheValid then Sampled(sampleUs) else Empty
    }

    constructor ()
      ensures Now() == Empty
    {
      cacheValid, sampleUs, cached := false, 0, 0;
    }

    method Reset()
      modifies this`cacheValid, this`sampleUs
      ensures Now() == Refresh(old(Now()), ResetCache) && cached == old(cached)
    {
      cacheValid := false;
      sampleUs := 0;
    }

    /** `answer` is what the source's statistics() returns if it is asked. */
    method RefreshIfDue(now: nat, force: bool, answer: nat)
      modifies this
      ensures Now() == Refresh(old(Now()), Request(now, force))
      ensures cached == if force || !old(cacheValid) || (now >= old(sampleUs) && now - old(sampleUs) >= 1000000)
                        then answer else old(cached)
      ensures cacheValid && (force ==> sampleUs == now)
    {
      var due := !cacheValid || (now >= sampleUs && now - sampleUs >= REFRESH_INTERVAL_US);
      if !force && !due {
        return;
      }
      cached := answer;
      sampleUs := now;
      cacheValid := true;
    }
  }
}
