/**
 How high the watermark can be, and what one push makes of it. RingWatermark.dfy bounds it from below; from above it
 never exceeds the deepest queue so far by more than the one frame whose producer counts a pop it has not seen yet.
*/
module RingPeak {
  import opened Frames
  import opened RingMachine
  import opened RingSafety

  function Max(a: int, b: int): int {
    if a > b then a else b
  }

  /** The deepest the queue has been at any point of a run. */
  function Peak(c: nat, s0: State, actions: seq<Action>): int
    requires c > 0
  {
    var s := Run(c, 0, s0, actions);
    if actions == [] then s.head - s.tail
    else Max(Peak(c, s0, actions[..|actions| - 1]), s.head - s.tail)
  }

  // --- every interleaving --------------------------------------------------------------------------------------

  ghost predicate ProducerBelow(s: State, peak: int) {
    match s.producer
    case PWriteSlot(_, head, tail) => head - tail <= peak
    case PPublish(_, head, tail) => head - tail <= peak
    case PLoadMark(depth) => depth <= peak + 1
    case PRaise(depth, _) => depth <= peak + 1
    case _ => true
  }

  ghost predicate ObserverBelow(o: Observer, peak: int) {
    match o
    case OTailAfter(_, _, _, _, _, _, depthSeen) => depthSeen <= peak
    case OCounters(_, depth, _) => depth <= peak
    case OLoadMark(depth) => depth <= peak
    case ORaise(depth, _) => depth <= peak
    case _ => true
  }

  /** Nothing that is on its way into the watermark, or in it, exceeds the peak by more than one. */
  ghost predicate Below(s: State, peak: int) {
    && s.head - s.tail <= peak && s.mark <= peak + 1
    && ProducerBelow(s, peak)
    && forall i :: 0 <= i < |s.observers| ==> ObserverBelow(s.observers[i], peak)
  }

  lemma ProducerStaysBelow(c: nat, s: State, spurious: bool, peak: int)
    requires c > 0 && Inv(c, s) && Below(s, peak)
    ensures var t := ProducerStep(c, 0, s, spurious); Below(t, Max(peak, t.head - t.tail))
  {
    var t := ProducerStep(c, 0, s, spurious);
    forall i | 0 <= i < |t.observers| ensures ObserverBelow(t.observers[i], Max(peak, t.head - t.tail)) {
      assert t.observers[i] == s.observers[i] && ObserverBelow(s.observers[i], peak);
    }
  }

  lemma ConsumerStaysBelow(c: nat, s: State, peak: int)
    requires c > 0 && Inv(c, s) && Below(s, peak)
    ensures var t := ConsumerStep(c, 0, s); Below(t, peak) && t.head - t.tail <= peak
  {
  }

  lemma ObserverMovesBelow(c: nat, s: State, i: nat, spurious: bool, peak: int)
    requires i < |s.observers| && ObserverOk(c, s, s.observers[i]) && ObserverBelow(s.observers[i], peak)
    requires c > 0 && s.head - s.tail <= peak && s.mark <= peak + 1
    requires |s.accepted| == s.head && |s.popped| == s.tail
    ensures var t := ObserverStep(c, 0, s, i, spurious);
            && t.head == s.head && t.tail == s.tail && t.producer == s.producer && t.mark <= peak + 1
            && t.observers == s.observers[i := t.observers[i]] && ObserverBelow(t.observers[i], peak)
  {
  }

  lemma ObserverStaysBelow(c: nat, s: State, i: nat, spurious: bool, peak: int)
    requires c > 0 && Inv(c, s) && Below(s, peak) && i < |s.observers|
    ensures Below(ObserverStep(c, 0, s, i, spurious), peak)
  {
    hide ObserverStep, ObserverOk;
    var t := ObserverStep(c, 0, s, i, spurious);
    ObserverMovesBelow(c, s, i, spurious, peak);
    forall j | 0 <= j < |t.observers| ensures ObserverBelow(t.observers[j], peak) {
      assert j != i ==> t.observers[j] == s.observers[j] && ObserverBelow(s.observers[j], peak);
    }
  }

  lemma StepStaysBelow(c: nat, s: State, a: Action, peak: int)
    requires c > 0 && Inv(c, s) && Below(s, peak)
    ensures var t := Step(c, 0, s, a); Below(t, Max(peak, t.head - t.tail))
  {
    hide ProducerStep, ConsumerStep, ObserverStep, Inv;
    match a {
      case Produce(spurious) => ProducerStaysBelow(c, s, spurious, peak);
      case Consume => ConsumerStaysBelow(c, s, peak);
      case Observe(i, spurious) =>
        if i < |s.observers| {
          ObserverStaysBelow(c, s, i, spurious, peak);
        }
      case Discard => DiscardIsShallow(c, s);
      case _ =>
    }
  }

  lemma DiscardIsShallow(c: nat, s: State)
    requires c > 0 && Inv(c, s)
    ensures 0 <= s.head - s.tail
  {
  }

  lemma {:induction false} RunStaysBelow(c: nat, n: nat, blank: RawCanFrame, actions: seq<Action>)
    requires c > 0
    ensures var s0 := Initial(c, n, blank); Below(Run(c, 0, s0, actions), Peak(c, s0, actions))
  {
    hide Step, Below;
    var s0 := Initial(c, n, blank);
    if actions == [] {
      NothingAbove(c, n, blank);
    } else {
      var before := actions[..|actions| - 1];
      RunStaysBelow(c, n, blank, before);
      RunKeepsInv(c, n, blank, before);
      StepStaysBelow(c, Run(c, 0, s0, before), actions[|actions| - 1], Peak(c, s0, before));
    }
  }

  lemma NothingAbove(c: nat, n: nat, blank: RawCanFrame)
    requires c > 0
    ensures var s0 := Initial(c, n, blank); Below(s0, 0) && Peak(c, s0, []) == 0
  {
  }

  /**
   In every interleaving, for any observers and resets: the watermark is at most one more than the deepest the queue has
   been, which allows for a producer that counts its frame without a pop it has not seen.
  */
  lemma WatermarkFollowsPeak(c: nat, n: nat, blank: RawCanFrame, actions: seq<Action>)
    requires c > 0
    ensures var s0 := Initial(c, n, blank); Run(c, 0, s0, actions).mark <= Peak(c, s0, actions) + 1
  {
    hide Run;
    RunStaysBelow(c, n, blank, actions);
  }

  // --- one undisturbed push ------------------------------------------------------------------------------------

  /** Only the producer moves; `tries` says at which of its steps a weak exchange fails spuriously. */
  function Alone(c: nat, s: State, tries: seq<bool>): State
    requires c > 0
  {
    if tries == [] then s
    else ProducerStep(c, 0, Alone(c, s, tries[..|tries| - 1]), tries[|tries| - 1])
  }

  function Tries(tries: seq<bool>): seq<Action> {
    seq(|tries|, k requires 0 <= k < |tries| => Produce(tries[k]))
  }

  lemma {:induction false} AloneIsRun(c: nat, s0: State, actions: seq<Action>, tries: seq<bool>)
    requires c > 0
    ensures Run(c, 0, s0, actions + Tries(tries)) == Alone(c, Run(c, 0, s0, actions), tries)
  {
    hide ProducerStep;
    var all := actions + Tries(tries);
    if tries == [] {
      assert all == actions;
    } else {
      var last := |tries| - 1;
      AloneIsRun(c, s0, actions, tries[..last]);
      assert all[..|all| - 1] == actions + Tries(tries[..last]) && all[|all| - 1] == Produce(tries[last]);
    }
  }

  /** What a push that began with the tail load at `s` has done so far, on its own. */
  ghost predicate Pushing(c: nat, s: State, t: State) {
    var deeper := s.head - s.tail + 1;
    && t.tail == s.tail && s.producer.PLoadTail?
    && match t.producer
       case PLoadTail(_, _) => t == s
       case PWriteSlot(_, head, tail) => head == t.head == s.head && tail == s.tail && deeper <= c && t.mark == s.mark
       case PPublish(_, head, tail) => head == t.head == s.head && tail == s.tail && deeper <= c && t.mark == s.mark
       case PLoadMark(depth) => t.head == s.head + 1 && depth == deeper <= c && t.mark == s.mark
       case PRaise(depth, seen) =>
         t.head == s.head + 1 && depth == deeper <= c && seen == t.mark == s.mark && depth > seen
       case PCountQueued => t.head == s.head + 1 && deeper <= c && t.mark == Max(s.mark, deeper)
       case PIdle =>
         if deeper <= c then t.head == s.head + 1 && t.mark == Max(s.mark, deeper)
         else t.head == s.head && t.mark == s.mark
       case PCountDrop => t.head == s.head && t.mark == s.mark && deeper > c
       case PCountOverflow => t.head == s.head && t.mark == s.mark && deeper > c
       case _ => false
  }

  predicate NoneSpurious(tries: seq<bool>) {
    forall k :: 0 <= k < |tries| ==> !tries[k]
  }

  /** How many successful steps the push still takes at most. */
  function Steps(p: Producer): nat {
    match p
    case PIdle => 0
    case PCountQueued => 1
    case PCountOverflow => 1
    case PRaise(_, _) => 2
    case PCountDrop => 2
    case PLoadMark(_) => 3
    case PPublish(_, _, _) => 4
    case PWriteSlot(_, _, _) => 5
    case _ => 6
  }

  lemma {:induction false} AlonePushes(c: nat, s: State, tries: seq<bool>)
    requires c > 0 && Inv(c, s) && s.producer.PLoadTail?
    ensures var t := Alone(c, s, tries);
            && Inv(c, t) && Pushing(c, s, t)
            && (NoneSpurious(tries) ==> Steps(t.producer) + |tries| <= 6 || t.producer.PIdle?)
  {
    hide Inv, ProducerStep, Pushing, Steps;
    if tries == [] {
      assert Pushing(c, s, s) && Steps(s.producer) == 6 by { StandsAtTail(c, s); }
    } else {
      var last := |tries| - 1;
      AlonePushes(c, s, tries[..last]);
      var t := Alone(c, s, tries[..last]);
      ProducerKeepsInv(c, t, tries[last]);
      PushGoesOn(c, s, t, tries[last]);
      assert NoneSpurious(tries) ==> NoneSpurious(tries[..last]) && !tries[last];
    }
  }

  lemma StandsAtTail(c: nat, s: State)
    requires s.producer.PLoadTail?
    ensures Pushing(c, s, s) && Steps(s.producer) == 6
  {
  }

  lemma PushGoesOn(c: nat, s: State, t: State, spurious: bool)
    requires c > 0 && Inv(c, s) && Inv(c, t) && Pushing(c, s, t)
    ensures var u := ProducerStep(c, 0, t, spurious);
            && Pushing(c, s, u)
            && (!spurious ==> Steps(u.producer) < Steps(t.producer) || u.producer.PIdle?)
            && (t.producer.PIdle? ==> u.producer.PIdle?)
  {
  }

  /**
   A push that nothing disturbs between its tail load and its end, wherever a run has led and however often its exchange
   fails: with room in the ring the watermark is then the larger of what it was and the new depth, and without room it
   is what it was. Six successful steps end the push.
  */
  lemma UndisturbedPushMarks(c: nat, n: nat, blank: RawCanFrame, actions: seq<Action>, tries: seq<bool>)
    requires c > 0
    ensures var s := Run(c, 0, Initial(c, n, blank), actions);
            var t := Run(c, 0, Initial(c, n, blank), actions + Tries(tries));
            s.producer.PLoadTail? ==>
              && (t.producer.PIdle? ==>
                    if s.head - s.tail < c then
                      && t.head - t.tail == s.head - s.tail + 1
                      && t.mark == if s.mark > t.head - t.tail then s.mark else t.head - t.tail
                    else t.head == s.head && t.tail == s.tail && t.mark == s.mark)
              && (|tries| >= 6 && NoneSpurious(tries) ==> t.producer.PIdle?)
  {
    hide Run, Initial, Inv;
    var s := Run(c, 0, Initial(c, n, blank), actions);
    AloneIsRun(c, Initial(c, n, blank), actions, tries);
    RunKeepsInv(c, n, blank, actions);
    if s.producer.PLoadTail? {
      AlonePushes(c, s, tries);
    }
  }
}
