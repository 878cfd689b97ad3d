/** N threads using the barrier, interleaved by lock regions. */
module BarrierRuns {
  import opened BarrierCounters

  /** A thread inside `wait` remembers the generation it arrived in. */
  datatype Thread = Idle | Asleep(gen: nat) | Awake(gen: nat)

  /** `arrived` and `passed` count, since the last reset, the calls of `wait` and those that
      returned true. */
  datatype System = System(b: Counters, threads: seq<Thread>, arrived: seq<nat>, passed: seq<nat>)

  datatype Event =
    | Enter(t: nat)   // call wait
    | Wake(t: nat)    // spurious wake-up
    | Check(t: nat)   // an awake thread evaluates the predicate
    | Cancel
    | Reset

  ghost predicate Shaped(s: System) {
    |s.threads| == |s.arrived| == |s.passed| == s.b.thresh >= 1
  }

  ghost predicate Enabled(s: System, e: Event) {
    match e
    case Enter(t) => t < |s.threads| && s.threads[t].Idle?
    case Wake(t) => t < |s.threads| && s.threads[t].Asleep?
    case Check(t) => t < |s.threads| && s.threads[t].Awake?
    case Cancel => true
    case Reset => forall t :: 0 <= t < |s.threads| ==> s.threads[t].Idle?
  }

  function WakeAll(threads: seq<Thread>): (r: seq<Thread>)
    ensures |r| == |threads|
    ensures forall t :: 0 <= t < |r| ==> r[t] == if threads[t].Asleep? then Awake(threads[t].gen) else threads[t]
  {
    seq(|threads|, t requires 0 <= t < |threads| =>
      if threads[t].Asleep? then Awake(threads[t].gen) else threads[t])
  }

  function Evaluate(s: System, t: nat): System
    requires t < |s.threads| == |s.passed| && s.threads[t].Awake?
  {
    var gen := s.threads[t].gen;
    if MayLeave(s.b, gen) then
      s.(b := Leave(s.b), threads := s.threads[t := Idle],
         passed := if s.b.canceled then s.passed else s.passed[t := s.passed[t] + 1])
    else
      s.(threads := s.threads[t := Asleep(gen)])
  }

  function Arriving(s: System, t: nat): System
    requires t < |s.threads| == |s.arrived|
  {
    s.(b := Arrive(s.b),
       threads := (if Fills(s.b) then WakeAll(s.threads) else s.threads)[t := Awake(s.b.generation)],
       arrived := s.arrived[t := s.arrived[t] + 1])
  }

  function Step(s: System, e: Event): System
    requires |s.threads| == |s.arrived| == |s.passed|
    requires e.Enter? || e.Check? || e.Wake? ==> e.t < |s.threads|
    requires e.Check? ==> s.threads[e.t].Awake?
    requires e.Wake? ==> s.threads[e.t].Asleep?
  {
    match e
    case Enter(t) => Evaluate(Arriving(s, t), t)
    case Wake(t) => s.(threads := s.threads[t := Awake(s.threads[t].gen)])
    case Check(t) => Evaluate(s, t)
    case Cancel => s.(b := s.b.(canceled := true), threads := WakeAll(s.threads))
    case Reset => s.(b := Cleared(s.b), arrived := seq(|s.threads|, _ => 0), passed := seq(|s.threads|, _ => 0))
  }

  // ---- counting ----------------------------------------------------------------------------

  predicate In(th: Thread, gen: nat) { !th.Idle? && th.gen == gen }

  function Count(threads: seq<Thread>, gen: nat): nat {
    if threads == [] then 0 else (if In(threads[0], gen) then 1 else 0) + Count(threads[1..], gen)
  }

  lemma {:induction false} CountUpdate(threads: seq<Thread>, t: nat, th: Thread, gen: nat)
    requires t < |threads|
    ensures Count(threads[t := th], gen) ==
              Count(threads, gen) - (if In(threads[t], gen) then 1 else 0) + (if In(th, gen) then 1 else 0)
  {
    if t > 0 {
      assert threads[t := th][1..] == threads[1..][t - 1 := th];
      CountUpdate(threads[1..], t - 1, th, gen);
    } else {
      assert threads[t := th][1..] == threads[1..];
    }
  }

  lemma {:induction false} CountWakeAll(threads: seq<Thread>, gen: nat)
    ensures Count(WakeAll(threads), gen) == Count(threads, gen)
  {
    if threads != [] {
      assert WakeAll(threads)[1..] == WakeAll(threads[1..]);
      CountWakeAll(threads[1..], gen);
    }
  }

  lemma {:induction false} CountBounds(threads: seq<Thread>, gen: nat, other: nat)
    requires gen != other
    ensures Count(threads, gen) + Count(threads, other) <= |threads|
    ensures Count(threads, gen) == |threads| <==> forall t :: 0 <= t < |threads| ==> In(threads[t], gen)
    ensures Count(threads, gen) == 0 <==> forall t :: 0 <= t < |threads| ==> !In(threads[t], gen)
  {
    if threads != [] {
      CountBounds(threads[1..], gen, other);
      assert forall t :: 1 <= t < |threads| ==> threads[t] == threads[1..][t - 1];
      assert Count(threads, gen) == |threads| ==> In(threads[0], gen);
    }
  }

  // ---- the invariant -----------------------------------------------------------------------

  /** How far a thread is, relative to the barrier's generation. */
  ghost predicate InStep(b: Counters, th: Thread, arrived: nat, passed: nat) {
    match th
    case Idle => arrived == passed == b.generation
    case _ => (th.gen == b.generation || th.gen + 1 == b.generation) && arrived == th.gen + 1 && passed == th.gen
  }

  /** `_waiting` counts the threads of the current generation, `_released` those of the
      previous one that have left. */
  ghost predicate Counted(b: Counters, threads: seq<Thread>) {
    && b.waiting == Count(threads, b.generation) < b.thresh
    && (b.triggered ==>
          b.generation >= 1 && b.released < b.thresh
          && Count(threads, b.generation - 1) == b.thresh - b.released)
    && (!b.triggered ==>
          b.released == 0 && (b.generation >= 1 ==> Count(threads, b.generation - 1) == 0))
  }

  /** No lost wake-up: a sleeping thread's predicate is false. */
  ghost predicate NoneMissed(s: System) {
    forall t :: 0 <= t < |s.threads| && s.threads[t].Asleep? ==> !MayLeave(s.b, s.threads[t].gen)
  }

  ghost predicate Active(s: System) {
    && Shaped(s) && !s.b.canceled && Counted(s.b, s.threads) && NoneMissed(s)
    && forall t :: 0 <= t < |s.threads| ==> InStep(s.b, s.threads[t], s.arrived[t], s.passed[t])
  }

  /** After a cancellation nobody sleeps and the counts of successful waits are frozen. */
  ghost predicate Canceled(s: System) {
    && Shaped(s) && s.b.canceled && NoneMissed(s)
    && forall t, u :: 0 <= t < |s.threads| && 0 <= u < |s.threads| ==>
         s.passed[t] <= s.passed[u] + 1 && s.passed[t] <= s.arrived[u]
  }

  ghost predicate Safe(s: System) { Active(s) || Canceled(s) }

  lemma ArrivingCounts(s: System, t: nat)
    requires Active(s) && t < |s.threads| && s.threads[t].Idle?
    ensures var threads' := Arriving(s, t).threads;
            && Count(threads', s.b.generation) == s.b.waiting + 1
            && (s.b.generation >= 1 ==>
                  Count(threads', s.b.generation - 1) == Count(s.threads, s.b.generation - 1))
  {
    var gen := s.b.generation;
    var base := if Fills(s.b) then WakeAll(s.threads) else s.threads;
    CountWakeAll(s.threads, gen);
    CountUpdate(base, t, Awake(gen), gen);
    if gen >= 1 {
      CountWakeAll(s.threads, gen - 1);
      CountUpdate(base, t, Awake(gen), gen - 1);
    }
  }

  lemma ArrivingNotLast(s: System, t: nat)
    requires Active(s) && t < |s.threads| && s.threads[t].Idle? && !Fills(s.b)
    ensures Active(Arriving(s, t))
  {
    ArrivingCounts(s, t);
  }

  /** The last arrival finds everybody else waiting in its generation. */
  lemma ArrivingLastCounts(s: System, t: nat)
    requires Active(s) && t < |s.threads| && s.threads[t].Idle? && Fills(s.b)
    ensures !s.b.triggered && Counted(Arrive(s.b), Arriving(s, t).threads)
    ensures forall u :: 0 <= u < |s.threads| ==> In(Arriving(s, t).threads[u], s.b.generation)
  {
    ArrivingCounts(s, t);
    var gen := s.b.generation;
    var threads' := Arriving(s, t).threads;
    CountBounds(threads', gen, gen + 1);
    CountBounds(threads', gen + 1, gen);
    if gen >= 1 { CountBounds(threads', gen, gen - 1); }
  }

  lemma ArrivingLast(s: System, t: nat)
    requires Active(s) && t < |s.threads| && s.threads[t].Idle? && Fills(s.b)
    ensures Active(Arriving(s, t))
  {
    ArrivingLastCounts(s, t);
    var threads' := Arriving(s, t).threads;
    forall u | 0 <= u < |threads'|
      ensures InStep(Arrive(s.b), threads'[u], Arriving(s, t).arrived[u], s.passed[u]) && threads'[u].Awake?
    {
      assert In(threads'[u], s.b.generation);
    }
  }

  lemma ArrivingKeepsActive(s: System, t: nat)
    requires Active(s) && t < |s.threads| && s.threads[t].Idle?
    ensures Active(Arriving(s, t))
  {
    if Fills(s.b) { ArrivingLast(s, t); } else { ArrivingNotLast(s, t); }
  }

  lemma EvaluateKeepsActive(s: System, t: nat)
    requires Active(s) && t < |s.threads| && s.threads[t].Awake?
    ensures Active(Evaluate(s, t))
  {
    var g := s.b.generation;
    var s' := Evaluate(s, t);
    CountUpdate(s.threads, t, s'.threads[t], g);
    if g >= 1 { CountUpdate(s.threads, t, s'.threads[t], g - 1); }
  }

  lemma StepKeepsCanceled(s: System, e: Event)
    requires Canceled(s) && Enabled(s, e) && !e.Reset?
    ensures Canceled(Step(s, e)) && Step(s, e).passed == s.passed
  {
  }

  lemma ResetIsActive(s: System)
    requires Shaped(s) && Enabled(s, Reset)
    ensures Active(Step(s, Reset))
  {
    CountBounds(s.threads, 0, 1);
  }

  lemma ActiveCancels(s: System)
    requires Active(s)
    ensures Canceled(Step(s, Cancel)) && Step(s, Cancel).passed == s.passed
  {
  }

  /** Every lock region of every interleaving keeps the invariant. */
  lemma StepKeepsSafe(s: System, e: Event)
    requires Safe(s) && Enabled(s, e)
    ensures Safe(Step(s, e)) && |Step(s, e).threads| == |s.threads|
    ensures Active(s) && !e.Cancel? ==> Active(Step(s, e))
  {
    if e.Reset? {
      ResetIsActive(s);
    } else if Canceled(s) {
      StepKeepsCanceled(s, e);
    } else if e.Cancel? {
      ActiveCancels(s);
    } else if e.Enter? {
      ArrivingKeepsActive(s, e.t);
      EvaluateKeepsActive(Arriving(s, e.t), e.t);
    } else if e.Check? {
      EvaluateKeepsActive(s, e.t);
    } else {
      var s' := Step(s, e);
      CountUpdate(s.threads, e.t, s'.threads[e.t], s.b.generation);
      if s.b.generation >= 1 {
        CountUpdate(s.threads, e.t, s'.threads[e.t], s.b.generation - 1);
      }
    }
  }

  // ---- runs --------------------------------------------------------------------------------

  ghost predicate EnabledRun(s: System, es: seq<Event>)
    decreases |es|
  {
    Shaped(s) && (es != [] ==> Enabled(s, es[0]) && EnabledRun(Step(s, es[0]), es[1..]))
  }

  function Run(s: System, es: seq<Event>): System
    requires EnabledRun(s, es)
    decreases |es|
  {
    if es == [] then s else Run(Step(s, es[0]), es[1..])
  }

  function Start(n: nat): System {
    System(Counters(n, 0, 0, 0, false, false), seq(n, _ => Idle), seq(n, _ => 0), seq(n, _ => 0))
  }

  lemma StartIsActive(n: nat)
    requires n >= 1
    ensures Active(Start(n))
  {
    CountBounds(Start(n).threads, 0, 1);
  }

  /** The numbers of successful waits of any two threads differ by at most one. */
  ghost predicate Together(s: System) {
    && |s.passed| == |s.threads|
    && forall t, u :: 0 <= t < |s.passed| && 0 <= u < |s.passed| ==> s.passed[t] <= s.passed[u] + 1
  }

  /** In every interleaving of any number of threads, with cancellations at any time and resets
      while nobody waits: the invariant, no lost wake-up, and successful waits in step. */
  lemma {:induction false} RunStaysSafe(s: System, es: seq<Event>)
    requires Safe(s) && EnabledRun(s, es)
    ensures var s' := Run(s, es);
            Safe(s') && NoneMissed(s') && Together(s') && |s'.threads| == |s.threads|
    decreases |es|
  {
    if es != [] {
      StepKeepsSafe(s, es[0]);
      RunStaysSafe(Step(s, es[0]), es[1..]);
    }
  }

  /** The call of `wait` that this event ends returns true. */
  predicate PassesAt(s: System, e: Event)
    requires |s.threads| == |s.arrived|
    requires e.Enter? || e.Check? || e.Wake? ==> e.t < |s.threads|
  {
    !s.b.canceled &&
    match e
    case Enter(t) => MayLeave(Arrive(s.b), s.b.generation)
    case Check(t) => s.threads[t].Awake? && MayLeave(s.b, s.threads[t].gen)
    case _ => false
  }

  /** A wait returns true only after all N threads have arrived for its generation, and it is
      counted as that generation's pass. */
  lemma PassMeansAllArrived(s: System, e: Event)
    requires Safe(s) && Enabled(s, e) && PassesAt(s, e)
    ensures var s' := Step(s, e);
            && s'.passed[e.t] == s.passed[e.t] + 1
            && forall u :: 0 <= u < |s'.arrived| ==> s'.arrived[u] >= s'.passed[e.t]
  {
    var m := if e.Enter? then Arriving(s, e.t) else s;
    if e.Enter? { ArrivingKeepsActive(s, e.t); }
    assert Active(m);
    assert InStep(m.b, m.threads[e.t], m.arrived[e.t], m.passed[e.t]);
    forall u | 0 <= u < |m.arrived| ensures m.arrived[u] >= m.passed[e.t] + 1 {
      assert InStep(m.b, m.threads[u], m.arrived[u], m.passed[u]);
    }
  }

  /** After a cancellation no wait returns true until the reset, and nobody stays asleep. */
  lemma {:induction false} CanceledUntilReset(s: System, es: seq<Event>)
    requires Canceled(s) && EnabledRun(s, es) && forall i :: 0 <= i < |es| ==> !es[i].Reset?
    ensures var s' := Run(s, es);
            && Canceled(s') && s'.passed == s.passed
            && forall t :: 0 <= t < |s'.threads| ==> !s'.threads[t].Asleep?
    decreases |es|
  {
    if es != [] {
      StepKeepsCanceled(s, es[0]);
      CanceledUntilReset(Step(s, es[0]), es[1..]);
    }
  }

  /** An event that takes some thread through `wait`. */
  ghost predicate Productive(s: System, e: Event) {
    Enabled(s, e) &&
    (e.Enter? || (e.Check? && MayLeave(s.b, s.threads[e.t].gen)))
  }

  /** No deadlock: in every state some thread can call `wait` or leave it. */
  lemma SomeoneCanMove(s: System)
    requires Safe(s)
    ensures exists e :: Productive(s, e)
  {
    if t :| 0 <= t < |s.threads| && s.threads[t].Idle? {
      assert Productive(s, Enter(t));
    } else if s.b.canceled {
      assert s.threads[0].Awake?;
      assert Productive(s, Check(0));
    } else {
      var gen := s.b.generation;
      CountBounds(s.threads, gen, gen + 1);
      assert !forall t :: 0 <= t < |s.threads| ==> In(s.threads[t], gen);
      var t :| 0 <= t < |s.threads| && !In(s.threads[t], gen);
      assert InStep(s.b, s.threads[t], s.arrived[t], s.passed[t]);
      CountBounds(s.threads, gen - 1, gen);
      assert In(s.threads[t], gen - 1);
      assert s.b.triggered;
      assert Productive(s, Check(t));
    }
  }

  // ---- progress ----------------------------------------------------------------------------

  function Sum(xs: seq<nat>): nat {
    if xs == [] then 0 else xs[0] + Sum(xs[1..])
  }

  lemma {:induction false} SumUpdate(xs: seq<nat>, i: nat, x: nat)
    requires i < |xs|
    ensures Sum(xs[i := x]) == Sum(xs) - xs[i] + x
  {
    if i > 0 {
      assert xs[i := x][1..] == xs[1..][i - 1 := x];
      SumUpdate(xs[1..], i - 1, x);
    } else {
      assert xs[i := x][1..] == xs[1..];
    }
  }

  lemma {:induction false} SumBound(xs: seq<nat>, bound: nat)
    requires forall i :: 0 <= i < |xs| ==> xs[i] <= bound
    ensures Sum(xs) <= |xs| * bound
  {
    if xs != [] {
      SumBound(xs[1..], bound);
      assert |xs| * bound == bound + (|xs| - 1) * bound;
    }
  }

  ghost function Moves(s: System, es: seq<Event>): nat
    requires EnabledRun(s, es)
    decreases |es|
  {
    if es == [] then 0 else (if Productive(s, es[0]) then 1 else 0) + Moves(Step(s, es[0]), es[1..])
  }

  lemma StepAdvances(s: System, e: Event)
    requires Active(s) && Enabled(s, e) && !e.Cancel? && !e.Reset?
    ensures var s' := Step(s, e);
            Sum(s'.arrived) + Sum(s'.passed) >=
              Sum(s.arrived) + Sum(s.passed) + (if Productive(s, e) then 1 else 0)
  {
    if e.Enter? {
      SumUpdate(s.arrived, e.t, s.arrived[e.t] + 1);
      SumUpdate(s.passed, e.t, s.passed[e.t] + 1);
    } else if e.Check? {
      SumUpdate(s.passed, e.t, s.passed[e.t] + 1);
    }
  }

  lemma {:induction false} RunAdvances(s: System, es: seq<Event>)
    requires Active(s) && EnabledRun(s, es)
    requires forall i :: 0 <= i < |es| ==> !es[i].Cancel? && !es[i].Reset?
    ensures var s' := Run(s, es);
            && Active(s') && |s'.threads| == |s.threads|
            && Sum(s'.arrived) + Sum(s'.passed) >= Sum(s.arrived) + Sum(s.passed) + Moves(s, es)
    decreases |es|
  {
    if es != [] {
      StepKeepsSafe(s, es[0]);
      StepAdvances(s, es[0]);
      RunAdvances(Step(s, es[0]), es[1..]);
    }
  }

  lemma Twice(n: nat, g: nat)
    ensures n * (g + 1) + n * g == n * (2 * g + 1)
  {
  }

  lemma ActiveBound(s: System)
    requires Active(s)
    ensures Sum(s.arrived) + Sum(s.passed) <= |s.threads| * (2 * s.b.generation + 1)
    ensures forall t :: 0 <= t < |s.passed| ==> s.passed[t] + 1 >= s.b.generation
  {
    forall t | 0 <= t < |s.threads|
      ensures s.arrived[t] <= s.b.generation + 1 && s.passed[t] <= s.b.generation <= s.passed[t] + 1
    {
      assert InStep(s.b, s.threads[t], s.arrived[t], s.passed[t]);
    }
    SumBound(s.arrived, s.b.generation + 1);
    SumBound(s.passed, s.b.generation);
    Twice(|s.threads|, s.b.generation);
  }

  /** Without cancellation, m productive events from the start complete at least about m / 2N
      generations: with no deadlock, every thread passes again and again. */
  lemma GenerationsAdvance(n: nat, es: seq<Event>)
    requires n >= 1 && EnabledRun(Start(n), es)
    requires forall i :: 0 <= i < |es| ==> !es[i].Cancel? && !es[i].Reset?
    ensures var s' := Run(Start(n), es);
            && n * (2 * s'.b.generation + 1) >= Moves(Start(n), es)
            && forall t :: 0 <= t < |s'.passed| ==> s'.passed[t] + 1 >= s'.b.generation
  {
    StartIsActive(n);
    RunAdvances(Start(n), es);
    ActiveBound(Run(Start(n), es));
  }
}
