/** The reusable barrier: its counters, one function per lock region, and the class that
    changes them in place. */
module BarrierCounters {
  datatype Counters = Counters(thresh: nat, generation: nat, waiting: nat, released: nat,
                               triggered: bool, canceled: bool)

  /** The arrival that completes a generation; it wakes everybody. */
  predicate Fills(b: Counters) { b.waiting + 1 >= b.thresh }

  function Arrive(b: Counters): Counters {
    if Fills(b) then b.(waiting := 0, triggered := true, generation := b.generation + 1)
    else b.(waiting := b.waiting + 1)
  }

  /** The predicate of the condition variable. */
  predicate MayLeave(b: Counters, generation: nat) {
    b.canceled || (b.triggered && generation < b.generation)
  }

  function Leave(b: Counters): Counters {
    if b.released + 1 >= b.thresh then b.(released := 0, triggered := false)
    else b.(released := b.released + 1)
  }

  function Cleared(b: Counters): Counters {
    Counters(b.thresh, 0, 0, 0, false, false)
  }

  class Barrier {
    const thresh: nat
    var generation: nat
    var waiting: nat
    var released: nat
    var triggered: bool
    var canceled: bool

    function Value(): Counters
      reads this
    {
      Counters(thresh, generation, waiting, released, triggered, canceled)
    }

    constructor (thresh: nat)
      ensures Value() == Counters(thresh, 0, 0, 0, false, false)
    {
      this.thresh := thresh;
      generation, waiting, released, triggered, canceled := 0, 0, 0, false, false;
    }

    /** The part of `wait` up to the first evaluation of the predicate, and beyond it when it
        already holds: one lock region. */
    method Enter() returns (arrivedIn: nat, notified: bool, left: bool, passed: bool)
      modifies this
      ensures arrivedIn == old(generation) && notified == Fills(old(Value()))
      ensures left == MayLeave(Arrive(old(Value())), arrivedIn)
      ensures Value() == if left then Leave(Arrive(old(Value()))) else Arrive(old(Value()))
      ensures passed == (left && !old(canceled))
    {
      arrivedIn := generation;
      waiting := waiting + 1;
      notified := waiting >= thresh;
      if notified {
        waiting := 0;
        triggered := true;
        generation := generation + 1;
      }
      left, passed := Check(arrivedIn);
    }

    /** The part of `wait` a woken thread executes: leave, or sleep again. */
    method Check(arrivedIn: nat) returns (left: bool, passed: bool)
      modifies this`released, this`triggered
      ensures left == MayLeave(old(Value()), arrivedIn)
      ensures Value() == if left then Leave(old(Value())) else old(Value())
      ensures passed == (left && !canceled)
    {
      left := canceled || (triggered && arrivedIn < generation);
      if left {
        released := released + 1;
        if released >= thresh {
          released := 0;
          triggered := false;
        }
      }
      passed := left && !canceled;
    }

    method Cancel()
      modifies this`canceled
      ensures Value() == old(Value()).(canceled := true)
    {
      canceled := true;
    }

    method Reset()
      modifies this
      ensures Value() == Cleared(old(Value()))
    {
      canceled, triggered, waiting, released, generation := false, false, 0, 0, 0;
    }
  }
}
