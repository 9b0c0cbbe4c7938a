/** A depth read that is overtaken by a whole turn of the tail word can be wrong, whatever the width of the words. */
module RingLapped {
  import opened Frames
  import opened RingMachine
  import opened RingWords

  lemma Advance(c: nat, m: nat, s0: State, h: seq<Action>, s: State, a: Action)
    returns (h': seq<Action>, s': State)
    requires c > 0 && Run(c, m, s0, h) == s
    ensures h' == h + [a] && s' == Step(c, m, s, a) && Run(c, m, s0, h') == s'
  {
    hide Step;
    h', s' := h + [a], Step(c, m, s, a);
    assert h'[..|h'| - 1] == h;
  }

  /** A push, up to its head store. */
  lemma PushUntilPublished(c: nat, m: nat, s0: State, h: seq<Action>, s: State, frame: RawCanFrame)
    returns (h': seq<Action>, s': State)
    requires c > 0 && Run(c, m, s0, h) == s && s.producer.PIdle? && |s.slots| == c
    requires 0 <= Distance(m, s.head, s.tail) < c
    ensures Run(c, m, s0, h') == s'
    ensures s'.producer == PLoadMark(Distance(m, Successor(m, s.head), s.tail)) && s'.head == Successor(m, s.head)
    ensures |s'.accepted| == |s.accepted| + 1 && |s'.slots| == c
    ensures s'.tail == s.tail && s'.popped == s.popped && s'.consumer == s.consumer
    ensures s'.observers == s.observers && s'.mark == s.mark
  {
    hide Run;
    h', s' := Advance(c, m, s0, h, s, BeginPush(frame));
    h', s' := Advance(c, m, s0, h', s', Produce(false));
    h', s' := Advance(c, m, s0, h', s', Produce(false));
    h', s' := Advance(c, m, s0, h', s', Produce(false));
    h', s' := Advance(c, m, s0, h', s', Produce(false));
  }

  /** The rest of that push, raising the watermark if need be. */
  lemma PushUntilDone(c: nat, m: nat, s0: State, h: seq<Action>, s: State)
    returns (h': seq<Action>, s': State)
    requires c > 0 && Run(c, m, s0, h) == s && s.producer.PLoadMark?
    ensures Run(c, m, s0, h') == s' && s'.producer.PIdle?
    ensures s'.head == s.head && s'.accepted == s.accepted && |s'.slots| == |s.slots|
    ensures s'.tail == s.tail && s'.popped == s.popped && s'.consumer == s.consumer && s'.observers == s.observers
  {
    hide Run;
    h', s' := Advance(c, m, s0, h, s, Produce(false));
    if s'.producer.PRaise? {
      h', s' := Advance(c, m, s0, h', s', Produce(false));
    }
    h', s' := Advance(c, m, s0, h', s', Produce(false));
  }

  /** A whole pop. */
  lemma Pop(c: nat, m: nat, s0: State, h: seq<Action>, s: State)
    returns (h': seq<Action>, s': State)
    requires c > 0 && Run(c, m, s0, h) == s && s.consumer.CIdle? && |s.slots| == c && s.tail != s.head
    ensures Run(c, m, s0, h') == s' && s'.consumer.CIdle?
    ensures s'.tail == Successor(m, s.tail) && |s'.popped| == |s.popped| + 1 && |s'.slots| == c
    ensures s'.head == s.head && s'.accepted == s.accepted && s'.producer == s.producer
    ensures s'.observers == s.observers
  {
    hide Run;
    h', s' := Advance(c, m, s0, h, s, Consume);
    h', s' := Advance(c, m, s0, h', s', Consume);
    h', s' := Advance(c, m, s0, h', s', Consume);
    h', s' := Advance(c, m, s0, h', s', Consume);
    h', s' := Advance(c, m, s0, h', s', Consume);
  }

  /** The observer has loaded tail word 0, and since then `k` frames were pushed and popped again. */
  ghost predicate Overtaken(c: nat, s: State, k: nat) {
    && s.observers == [OHead(Sample(false), 0, 0, 0)] && s.producer.PIdle? && s.consumer.CIdle?
    && s.head == s.tail == |s.accepted| == |s.popped| == k && |s.slots| == c
  }

  lemma TailLoaded(c: nat, m: nat, blank: RawCanFrame)
    returns (h: seq<Action>, s: State)
    requires 0 < c < m
    ensures Run(c, m, Initial(c, 1, blank), h) == s && Overtaken(c, s, 0)
  {
    hide Run, Initial;
    var s0 := Initial(c, 1, blank);
    AtFirst(c, m, blank);
    h, s := Advance(c, m, s0, [], s0, BeginSnapshot(0, false));
    assert s.observers == [OTailBefore(Sample(false), 0, 0)];
    h, s := Advance(c, m, s0, h, s, Observe(0, false));
    assert s.observers == [OHead(Sample(false), 0, 0, 0)];
  }

  lemma AtFirst(c: nat, m: nat, blank: RawCanFrame)
    requires c > 0
    ensures var s0 := Initial(c, 1, blank);
            && Run(c, m, s0, []) == s0
            && s0.observers == [OIdle] && s0.producer.PIdle? && s0.consumer.CIdle?
            && s0.head == s0.tail == |s0.accepted| == |s0.popped| == 0 && |s0.slots| == c
  {
  }

  /** One frame in, one frame out. */
  lemma Round(c: nat, m: nat, s0: State, h: seq<Action>, s: State, k: nat, frame: RawCanFrame)
    returns (h': seq<Action>, s': State)
    requires 0 < c < m && k + 1 < m && Run(c, m, s0, h) == s && Overtaken(c, s, k)
    ensures Run(c, m, s0, h') == s' && Overtaken(c, s', k + 1)
  {
    hide Run, Step;
    NextWord(m, k);
    h', s' := PushUntilPublished(c, m, s0, h, s, frame);
    h', s' := PushUntilDone(c, m, s0, h', s');
    h', s' := Pop(c, m, s0, h', s');
  }

  lemma NextWord(m: nat, k: nat)
    requires k + 1 < m
    ensures Successor(m, k) == k + 1 && Distance(m, k, k) == 0
  {
  }

  lemma {:induction false} Rounds(c: nat, m: nat, blank: RawCanFrame, k: nat)
    returns (h: seq<Action>, s: State)
    requires 0 < c < m && k < m
    ensures Run(c, m, Initial(c, 1, blank), h) == s && Overtaken(c, s, k)
  {
    hide Run, Step, Initial;
    if k == 0 {
      h, s := TailLoaded(c, m, blank);
    } else {
      h, s := Rounds(c, m, blank, k - 1);
      h, s := Round(c, m, Initial(c, 1, blank), h, s, k - 1, blank);
    }
  }

  /** One more frame is queued when the observer loads head, and popped before it loads tail again. */
  lemma LastRound(c: nat, m: nat, s0: State, h: seq<Action>, s: State, frame: RawCanFrame)
    returns (h': seq<Action>, s': State)
    requires 0 < c < m && Run(c, m, s0, h) == s && Overtaken(c, s, m - 1)
    ensures Run(c, m, s0, h') == s' && s'.tail == 0
    ensures s'.observers == [OTailAfter(Sample(false), 0, 0, 0, 0, m - 1, 1)]
  {
    hide Run;
    LastWord(m);
    h', s' := PushUntilPublished(c, m, s0, h, s, frame);
    h', s' := Advance(c, m, s0, h', s', Observe(0, false));
    assert s'.observers == [OTailAfter(Sample(false), 0, 0, 0, 0, m - 1, 1)];
    h', s' := Pop(c, m, s0, h', s');
  }

  lemma LastWord(m: nat)
    requires m > 1
    ensures Successor(m, m - 1) == 0 && Distance(m, m - 1, m - 1) == 0
  {
  }

  lemma WrongSample(c: nat, m: nat, s: State)
    requires 0 < c < m && s.tail == 0 && s.observers == [OTailAfter(Sample(false), 0, 0, 0, 0, m - 1, 1)]
    ensures Step(c, m, s, Observe(0, false)).observers == [OCounters(false, 0, [])]
  {
  }

  /**
   For every capacity and every word above it, 32 and 64 bits included: an observer delayed across a whole turn of
   the tail word accepts depth 0 although one frame was queued when it loaded head.
  */
  lemma LappedSampleCanBeWrong(c: nat, m: nat, blank: RawCanFrame)
    requires Modulus(c, m)
    ensures exists actions: seq<Action> ::
              var s := Run(c, m, Initial(c, 1, blank), actions);
              && |s.observers| == 1 && s.observers[0].OTailAfter? && s.observers[0].depthSeen == 1
              && Step(c, m, s, Observe(0, false)).observers == [OCounters(false, 0, [])]
  {
    hide Run, Step, Initial;
    var h, s := Rounds(c, m, blank, m - 1);
    h, s := LastRound(c, m, Initial(c, 1, blank), h, s, blank);
    WrongSample(c, m, s);
  }
}
