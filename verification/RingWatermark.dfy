/** The high watermark never falls below the live depth, however resets and pushes interleave. */
module RingWatermark {
  import opened Frames
  import opened RingMachine
  import opened RingSafety

  /** A push between its head store and the end of its watermark raise. */
  predicate Raising(p: Producer) {
    p.PLoadMark? || p.PRaise?
  }

  /** A reset between its watermark exchange and the end of its reconciliation. */
  predicate Reconciling(o: Observer) {
    match o
    case OTailBefore(p, _, _) => p.Reconcile?
    case OHead(p, _, _, _) => p.Reconcile?
    case OTailAfter(p, _, _, _, _, _, _) => p.Reconcile?
    case OLoadMark(_) => true
    case ORaise(_, _) => true
    case _ => false
  }

  /** A reconciling reset that is still bound to lift the watermark to at least the live depth. */
  ghost predicate WillCover(s: State, o: Observer) {
    && Reconciling(o)
    && match o
       case OTailAfter(_, _, _, _, head, _, _) => head == s.head
       case OLoadMark(depth) => s.head - s.tail <= depth
       case ORaise(depth, _) => s.head - s.tail <= depth
       case _ => true
  }

  ghost predicate Covered(s: State) {
    || s.head - s.tail <= s.mark
    || Raising(s.producer)
    || exists i :: 0 <= i < |s.observers| && WillCover(s, s.observers[i])
  }

  lemma CoverSurvives(s: State, t: State)
    requires Covered(s) && t.observers == s.observers && t.head == s.head && s.tail <= t.tail && t.mark == s.mark
    requires Raising(s.producer) ==> Raising(t.producer)
    ensures Covered(t)
  {
    if i :| 0 <= i < |s.observers| && WillCover(s, s.observers[i]) {
      assert WillCover(t, t.observers[i]);
    }
  }

  lemma ProducerKeepsCover(c: nat, s: State, spurious: bool)
    requires c > 0 && Inv(c, s) && Covered(s)
    ensures Covered(ProducerStep(c, 0, s, spurious))
  {
    if !s.producer.PPublish? && !Raising(s.producer) {
      CoverSurvives(s, ProducerStep(c, 0, s, spurious));
    }
  }

  lemma ObserverKeepsCover(c: nat, s: State, i: nat, spurious: bool)
    requires c > 0 && Inv(c, s) && Covered(s) && i < |s.observers|
    ensures Covered(ObserverStep(c, 0, s, i, spurious))
  {
    var t := ObserverStep(c, 0, s, i, spurious);
    ObserverMove(c, s, i, spurious);
    assert ObserverOk(c, s, s.observers[i]);
    if Reconciling(t.observers[i]) && !Reconciling(s.observers[i]) {
      assert WillCover(t, t.observers[i]);
    } else if j :| 0 <= j < |s.observers| && WillCover(s, s.observers[j]) {
      if j != i {
        assert WillCover(t, t.observers[j]);
      } else {
        assert WillCover(t, t.observers[i]) || s.head - s.tail <= t.mark;
      }
    }
  }

  lemma StepKeepsCover(c: nat, s: State, a: Action)
    requires c > 0 && Inv(c, s) && Covered(s)
    ensures Covered(Step(c, 0, s, a))
  {
    match a {
      case Produce(spurious) => ProducerKeepsCover(c, s, spurious);
      case Observe(i, spurious) => if i < |s.observers| { ObserverKeepsCover(c, s, i, spurious); }
      case BeginSnapshot(i, reset) =>
        var t := Step(c, 0, s, a);
        if j :| 0 <= j < |s.observers| && WillCover(s, s.observers[j]) {
          assert WillCover(t, t.observers[j]);
        }
      case Discard =>
      case ZeroMark => if !Undisturbed(s) || s.head != s.tail { CoverSurvives(s, s); }
      case _ => CoverSurvives(s, Step(c, 0, s, a));
    }
  }

  lemma {:induction false} RunKeepsCover(c: nat, n: nat, blank: RawCanFrame, actions: seq<Action>)
    requires c > 0
    ensures Covered(Run(c, 0, Initial(c, n, blank), actions))
  {
    if actions == [] {
    } else {
      var before := actions[..|actions| - 1];
      RunKeepsCover(c, n, blank, before);
      RunKeepsInv(c, n, blank, before);
      StepKeepsCover(c, Run(c, 0, Initial(c, n, blank), before), actions[|actions| - 1]);
    }
  }

  /**
   In every interleaving the watermark stays within the capacity, and whenever no push is raising it and no
   reset is reconciling it, it is at least the live depth.
  */
  lemma WatermarkCoversDepth(c: nat, n: nat, blank: RawCanFrame, actions: seq<Action>)
    requires c > 0
    ensures var s := Run(c, 0, Initial(c, n, blank), actions);
            && 0 <= s.mark <= c
            && (!Raising(s.producer) && (forall i :: 0 <= i < |s.observers| ==> !Reconciling(s.observers[i])) ==>
                  s.head - s.tail <= s.mark)
  {
    RunKeepsInv(c, n, blank, actions);
    RunKeepsCover(c, n, blank, actions);
  }
}
