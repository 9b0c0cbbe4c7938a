/**
 The frame ring as one thread sees it: an array of slots, two index words modulo `modulus`, the interval
 counters and the high watermark. RingMachine.dfy models the same code at the granularity of its atomic
 accesses, with producer, consumer and observers interleaved.
*/
module FrameRings {
  import opened Frames
  import opened RingMachine
  import opened RingSafety
  import opened RingWords

  datatype Statistics = Statistics(
    framesReceived: nat,
    framesQueued: nat,
    framesDelivered: nat,
    framesDropped: nat,
    queueOverflows: nat,
    busErrors: nat,
    driverRxMissed: nat,
    controllerResets: nat,
    busOffEvents: nat,
    queueDepth: nat,
    queueHighWatermark: nat,
    queueCapacity: nat)

  datatype StatisticsOperation = Snapshot | SnapshotAndReset

  datatype Popped = NoFrame | Frame(frame: RawCanFrame)

  /** The three index loads of one round of the depth read. */
  datatype Loads = Loads(tailBefore: nat, head: nat, tailAfter: nat)

  predicate Coherent(c: nat, m: nat, l: Loads) {
    l.tailBefore == l.tailAfter && 0 <= Distance(m, l.head, l.tailAfter) <= c
  }

  /** Returns the distance of the first coherent round, whatever the other threads make the loads return. */
  method CoherentDepth(c: nat, m: nat, loads: seq<Loads>) returns (depth: nat, round: nat)
    requires exists k :: 0 <= k < |loads| && Coherent(c, m, loads[k])
    ensures round < |loads| && Coherent(c, m, loads[round])
    ensures forall k :: 0 <= k < round ==> !Coherent(c, m, loads[k])
    ensures depth == Distance(m, loads[round].head, loads[round].tailAfter)
  {
    round := 0;
    while !Coherent(c, m, loads[round])
      invariant round < |loads| && forall k :: 0 <= k < round ==> !Coherent(c, m, loads[k])
      decreases |loads| - round
    {
      round := round + 1;
    }
    depth := Distance(m, loads[round].head, loads[round].tailAfter);
  }

  function Maximum(depths: seq<nat>): nat {
    if depths == [] then 0
    else
      var rest, last := Maximum(depths[..|depths| - 1]), depths[|depths| - 1];
      if last > rest then last else rest
  }

  lemma {:induction false} MaximumBounds(depths: seq<nat>)
    ensures forall k :: 0 <= k < |depths| ==> depths[k] <= Maximum(depths)
    ensures depths != [] ==> exists k :: 0 <= k < |depths| && depths[k] == Maximum(depths)
  {
    if depths == [] {
    } else {
      var rest := depths[..|depths| - 1];
      MaximumBounds(rest);
      if Maximum(depths) == Maximum(rest) && rest != [] {
        var k :| 0 <= k < |rest| && rest[k] == Maximum(rest);
        assert depths[k] == Maximum(depths);
      } else {
        assert depths[|depths| - 1] == Maximum(depths);
      }
    }
  }

  lemma MaximumAppend(depths: seq<nat>, d: nat)
    ensures Maximum(depths + [d]) == if d > Maximum(depths) then d else Maximum(depths)
  {
    assert (depths + [d])[..|depths|] == depths;
  }

  /** The word reached from `tail` in `k` increments. */
  function WordAfter(m: nat, tail: nat, k: nat): nat {
    if k == 0 then tail else Successor(m, WordAfter(m, tail, k - 1))
  }

  /** The slot of a word, counted down; SlotIsRemainder relates it to the remainder. */
  function Slot(c: nat, word: nat): (slot: nat)
    requires c > 0
    ensures slot < c
  {
    if word < c then word else Slot(c, word - c)
  }

  lemma {:induction false} SlotIsRemainder(c: nat, word: nat)
    requires c > 0
    ensures Slot(c, word) == word % c
  {
    if word < c {
    } else {
      SlotIsRemainder(c, word - c);
      Congruent(c, word, word - c, 1);
    }
  }

  lemma {:induction false} WordAfterIsRemainder(m: nat, tail: nat, k: nat)
    requires tail < m
    ensures WordAfter(m, tail, k) == (tail + k) % m
  {
    if k == 0 {
    } else {
      WordAfterIsRemainder(m, tail, k - 1);
      SuccessorOfMod(m, tail + k - 1);
    }
  }

  lemma SlotsOfWordsDiffer(c: nat, m: nat, tail: nat, i: nat, j: nat)
    requires Modulus(c, m) && tail < m && i < j < i + c
    ensures Slot(c, WordAfter(m, tail, i)) != Slot(c, WordAfter(m, tail, j))
  {
    WordAfterIsRemainder(m, tail, i);
    WordAfterIsRemainder(m, tail, j);
    SlotIsRemainder(c, WordAfter(m, tail, i));
    SlotIsRemainder(c, WordAfter(m, tail, j));
    ModOfMod(c, m, tail + i);
    ModOfMod(c, m, tail + j);
    SlotsDiffer(c, tail + i, tail + j);
  }

  lemma {:induction false} NextWord(m: nat, tail: nat, k: nat)
    ensures WordAfter(m, Successor(m, tail), k) == WordAfter(m, tail, k + 1)
  {
    if k == 0 {
    } else {
      NextWord(m, tail, k - 1);
    }
  }

  lemma BackDistance(m: nat, word: int, tail: int, k: nat, turns: int)
    requires k < m && word == tail + k - m * turns
    ensures (word - tail) % m == k
  {
    Congruent(m, word - tail, k, -turns);
  }

  lemma WordDistance(m: nat, tail: nat, k: nat)
    requires tail < m && k < m
    ensures Distance(m, WordAfter(m, tail, k), tail) == k && WordAfter(m, tail, k) < m
    ensures WordAfter(m, tail, k) == tail <==> k == 0
  {
    WordAfterIsRemainder(m, tail, k);
    BackDistance(m, WordAfter(m, tail, k), tail, k, (tail + k) / m);
    if k > 0 {
      SlotsDiffer(m, tail, tail + k);
    }
  }

  /** The slots starting at word `tail` hold the queue. */
  ghost predicate Holds(c: nat, m: nat, slots: seq<RawCanFrame>, tail: nat, queue: seq<RawCanFrame>) {
    && Modulus(c, m)
    && |slots| == c
    && |queue| <= c
    && tail < m
    && forall k :: 0 <= k < |queue| ==> queue[k] == slots[Slot(c, WordAfter(m, tail, k))]
  }

  lemma WriteHolds(c: nat, m: nat, slots: seq<RawCanFrame>, tail: nat, queue: seq<RawCanFrame>, frame: RawCanFrame)
    requires Holds(c, m, slots, tail, queue) && |queue| < c
    ensures var slot := WordAfter(m, tail, |queue|) % c;
            slot < c && Holds(c, m, slots[slot := frame], tail, queue + [frame])
  {
    SlotIsRemainder(c, WordAfter(m, tail, |queue|));
    forall k | 0 <= k < |queue| ensures Slot(c, WordAfter(m, tail, k)) != Slot(c, WordAfter(m, tail, |queue|)) {
      SlotsOfWordsDiffer(c, m, tail, k, |queue|);
    }
  }

  lemma ReadHolds(c: nat, m: nat, slots: seq<RawCanFrame>, tail: nat, queue: seq<RawCanFrame>)
    requires Holds(c, m, slots, tail, queue) && queue != []
    ensures tail % c < c && queue[0] == slots[tail % c]
    ensures Holds(c, m, slots, Successor(m, tail), queue[1..])
    ensures WordAfter(m, Successor(m, tail), |queue| - 1) == WordAfter(m, tail, |queue|)
  {
    assert WordAfter(m, tail, 0) == tail;
    SlotIsRemainder(c, tail);
    WordDistance(m, tail, 1);
    assert WordAfter(m, tail, 1) == Successor(m, WordAfter(m, tail, 0));
    forall k | 0 <= k < |queue|
      ensures WordAfter(m, Successor(m, tail), k) == WordAfter(m, tail, k + 1)
    {
      NextWord(m, tail, k);
    }
  }

  /** The watermark is the highest depth of the interval, whose last depth is the live one. */
  ghost predicate Marks(c: nat, depths: seq<nat>, depth: nat, mark: nat) {
    && depths != []
    && depths[|depths| - 1] == depth
    && mark == Maximum(depths) <= c
  }

  lemma MarksRestart(c: nat, depth: nat)
    requires depth <= c
    ensures Marks(c, [depth], depth, depth)
  {
    assert Maximum([depth]) == depth by { MaximumAppend([], depth); assert [] + [depth] == [depth]; }
  }

  lemma MarksAppend(c: nat, depths: seq<nat>, depth: nat, mark: nat, next: nat)
    requires Marks(c, depths, depth, mark) && next <= c
    ensures Marks(c, depths + [next], next, if next > mark then next else mark)
    ensures next <= depth ==> next <= mark
  {
    MaximumAppend(depths, next);
    MaximumBounds(depths);
  }

  class FrameRing {
    const capacity: nat
    const modulus: nat
    const frames: array<RawCanFrame>
    var head: nat
    var tail: nat
    var framesReceived: nat
    var framesQueued: nat
    var framesDelivered: nat
    var framesDropped: nat
    var queueOverflows: nat
    var busErrors: nat
    var driverRxMissed: nat
    var controllerResets: nat
    var busOffEvents: nat
    var queueHighWatermark: nat
    /** The frames in the ring, oldest first. */
    ghost var queue: seq<RawCanFrame>
    /** The depth at the last reset and after every operation since. */
    ghost var depths: seq<nat>

    ghost predicate Valid()
      reads this, frames
    {
      && Holds(capacity, modulus, frames[..], tail, queue)
      && head == WordAfter(modulus, tail, |queue|)
      && Marks(capacity, depths, |queue|, queueHighWatermark)
    }

    /** The statistics a snapshot taken now would report. */
    ghost function Live(): Statistics
      reads this
    {
      Statistics(framesReceived, framesQueued, framesDelivered, framesDropped, queueOverflows, busErrors,
                 driverRxMissed, controllerResets, busOffEvents, |queue|, queueHighWatermark, capacity)
    }

    constructor (capacity: nat, modulus: nat, blank: RawCanFrame)
      requires Modulus(capacity, modulus)
      ensures Valid() && fresh(frames) && queue == [] && depths == [0]
      ensures this.capacity == capacity && this.modulus == modulus
      ensures Live() == Statistics(0, 0, 0, 0, 0, 0, 0, 0, 0, 0, 0, capacity)
    {
      this.capacity, this.modulus := capacity, modulus;
      frames := new RawCanFrame[capacity](_ => blank);
      head, tail := 0, 0;
      framesReceived, framesQueued, framesDelivered, framesDropped, queueOverflows := 0, 0, 0, 0, 0;
      busErrors, driverRxMissed, controllerResets, busOffEvents, queueHighWatermark := 0, 0, 0, 0, 0;
      queue, depths := [], [0];
    }

    method Depth() returns (depth: nat)
      requires Valid()
      ensures depth == |queue|
    {
      WordDistance(modulus, tail, |queue|);
      var loads := [Loads(tail, head, tail)];
      assert Coherent(capacity, modulus, loads[0]);
      var round;
      depth, round := CoherentDepth(capacity, modulus, loads);
    }

    /**
     The compare-exchange loop of update_watermark and ensure_watermark_at_least; `spurious` is how often the
     weak exchange fails before it succeeds.
    */
    method RaiseWatermark(depthValue: nat, spurious: nat)
      modifies this`queueHighWatermark
      ensures queueHighWatermark == if depthValue > old(queueHighWatermark) then depthValue else old(queueHighWatermark)
    {
      var watermark, failures, exchanged := queueHighWatermark, spurious, false;
      while depthValue > watermark && !exchanged
        invariant !exchanged ==> watermark == queueHighWatermark == old(queueHighWatermark)
        invariant exchanged ==> queueHighWatermark == depthValue > old(queueHighWatermark)
        decreases failures, !exchanged
      {
        if failures > 0 {
          failures := failures - 1;
          watermark := queueHighWatermark;
        } else {
          queueHighWatermark := depthValue;
          exchanged := true;
        }
      }
    }

    /** head - tail as push() and pop() compute it. */
    method Occupied(h: nat, t: nat) returns (distance: int)
      requires Valid() && h == head && t == tail
      ensures distance == |queue| && (t == h <==> queue == [])
    {
      WordDistance(modulus, t, |queue|);
      distance := Distance(modulus, h, t);
    }

    /** The part of push() behind the capacity check: write the slot, publish head, raise the watermark. */
    method Publish(frame: RawCanFrame, h: nat, t: nat, spurious: nat)
      requires Valid() && h == head && t == tail && |queue| < capacity
      modifies this`head, this`queue, this`depths, this`queueHighWatermark, frames
      ensures Valid() && queue == old(queue) + [frame] && depths == old(depths) + [|queue|]
      ensures queueHighWatermark == Maximum(depths)
    {
      WriteHolds(capacity, modulus, frames[..], t, queue, frame);
      WordDistance(modulus, t, |queue| + 1);
      MarksAppend(capacity, depths, |queue|, queueHighWatermark, |queue| + 1);
      frames[h % capacity] := frame;
      head := Successor(modulus, h);
      queue := queue + [frame];
      depths := depths + [|queue|];
      RaiseWatermark(Distance(modulus, head, t), spurious);
    }

    method Push(frame: RawCanFrame, spurious: nat) returns (ok: bool)
      requires Valid()
      modifies this, frames
      ensures Valid()
      ensures ok == (|old(queue)| < capacity)
      ensures queue == old(queue) + (if ok then [frame] else [])
      ensures depths == old(depths) + (if ok then [|queue|] else [])
      ensures Live() == old(Live()).(framesReceived := old(framesReceived) + 1,
                                     framesQueued := old(framesQueued) + (if ok then 1 else 0),
                                     framesDropped := old(framesDropped) + (if ok then 0 else 1),
                                     queueOverflows := old(queueOverflows) + (if ok then 0 else 1),
                                     queueDepth := |queue|,
                                     queueHighWatermark := Maximum(depths))
    {
      hide Holds, Maximum;
      framesReceived := framesReceived + 1;
      var h, t := head, tail;
      var occupied := Occupied(h, t);
      if occupied >= capacity {
        framesDropped := framesDropped + 1;
        queueOverflows := queueOverflows + 1;
        return false;
      }
      Publish(frame, h, t, spurious);
      framesQueued := framesQueued + 1;
      return true;
    }

    /** The part of pop() behind the emptiness check: read the slot and publish tail. */
    method Take(t: nat) returns (frame: RawCanFrame)
      requires Valid() && t == tail && queue != []
      modifies this`tail, this`queue, this`depths
      ensures Valid() && frame == old(queue)[0] && queue == old(queue)[1..] && depths == old(depths) + [|queue|]
    {
      ReadHolds(capacity, modulus, frames[..], t, queue);
      MarksAppend(capacity, depths, |queue|, queueHighWatermark, |queue| - 1);
      frame := frames[t % capacity];
      tail := Successor(modulus, t);
      queue := queue[1..];
      depths := depths + [|queue|];
    }

    method Pop() returns (r: Popped)
      requires Valid()
      modifies this
      ensures Valid()
      ensures r == if old(queue) == [] then NoFrame else Frame(old(queue)[0])
      ensures queue == if old(queue) == [] then [] else old(queue)[1..]
      ensures depths == old(depths) + (if old(queue) == [] then [] else [|queue|])
      ensures Live() == old(Live()).(framesDelivered := old(framesDelivered) + (if r.Frame? then 1 else 0),
                                     queueDepth := |queue|)
    {
      var t, h := tail, head;
      var occupied := Occupied(h, t);
      if t == h {
        return NoFrame;
      }
      var frame := Take(t);
      framesDelivered := framesDelivered + 1;
      return Frame(frame);
    }

    method RecordBusError(count: nat)
      requires Valid()
      modifies this`busErrors
      ensures Valid() && Live() == old(Live()).(busErrors := old(busErrors) + count)
    {
      busErrors := busErrors + count;
    }

    method RecordDriverRxMissed(count: nat)
      requires Valid()
      modifies this`driverRxMissed
      ensures Valid() && Live() == old(Live()).(driverRxMissed := old(driverRxMissed) + count)
    {
      driverRxMissed := driverRxMissed + count;
    }

    method RecordControllerReset(count: nat)
      requires Valid()
      modifies this`controllerResets
      ensures Valid() && Live() == old(Live()).(controllerResets := old(controllerResets) + count)
    {
      controllerResets := controllerResets + count;
    }

    method RecordBusOff(count: nat)
      requires Valid()
      modifies this`busOffEvents
      ensures Valid() && Live() == old(Live()).(busOffEvents := old(busOffEvents) + count)
    {
      busOffEvents := busOffEvents + count;
    }

    method ZeroCounters()
      modifies this`framesReceived, this`framesQueued, this`framesDelivered, this`framesDropped, this`queueOverflows,
               this`busErrors, this`driverRxMissed, this`controllerResets, this`busOffEvents
      ensures Live() == Statistics(0, 0, 0, 0, 0, 0, 0, 0, 0, |queue|, queueHighWatermark, capacity)
    {
      framesReceived, framesQueued, framesDelivered, framesDropped, queueOverflows := 0, 0, 0, 0, 0;
      busErrors, driverRxMissed, controllerResets, busOffEvents := 0, 0, 0, 0;
    }

    /** The watermark exchange of a reset and its reconciliation against a fresh depth. */
    method RestartWatermark(depth: nat, spurious: nat)
      requires Valid() && depth == |queue|
      modifies this`queueHighWatermark, this`depths
      ensures Valid() && depths == [|queue|] && queueHighWatermark == |queue|
    {
      queueHighWatermark := depth;
      depths := [depth];
      MarksRestart(capacity, depth);
      var live := Depth();
      RaiseWatermark(live, spurious);
    }

    method TakeSnapshot(operation: StatisticsOperation, spurious: nat) returns (result: Statistics)
      requires Valid()
      modifies this
      ensures Valid() && queue == old(queue) && result == old(Live())
      ensures operation.Snapshot? ==> Live() == old(Live()) && depths == old(depths)
      ensures operation.SnapshotAndReset? ==>
                && depths == [|queue|]
                && Live() == Statistics(0, 0, 0, 0, 0, 0, 0, 0, 0, |queue|, |queue|, capacity)
      ensures head == old(head) && tail == old(tail)
    {
      var depth := Depth();
      result := Statistics(framesReceived, framesQueued, framesDelivered, framesDropped, queueOverflows, busErrors,
                           driverRxMissed, controllerResets, busOffEvents, depth, queueHighWatermark, capacity);
      if operation.SnapshotAndReset? {
        ZeroCounters();
        RestartWatermark(depth, spurious);
      }
    }

    method Clear(spurious: nat)
      requires Valid()
      modifies this
      ensures Valid() && queue == [] && depths == [0]
      ensures Live() == Statistics(0, 0, 0, 0, 0, 0, 0, 0, 0, 0, 0, capacity)
    {
      MarksAppend(capacity, depths, |queue|, queueHighWatermark, 0);
      WordDistance(modulus, tail, |queue|);
      tail := head;
      queue := [];
      depths := depths + [0];
      var discarded := TakeSnapshot(SnapshotAndReset, spurious);
      queueHighWatermark := 0;
    }
  }
}
