/** Where the kernel's promises end: runs that leave the assumptions, and the absence
    of 64-bit overflow inside them. The exact conditions are CallKeepsGoodIff and
    DelayKeepsGoodIff, AdvanceThrowsIff and DanglingIff. */
module KernelLimits {
  import opened Options
  import opened ScheduleQueue
  import opened Kernel
  import opened KernelInvariant
  import opened KernelRuns
  import opened KernelActivation
  import opened KernelTermination
  import opened KernelTheorems

  const INT64_MIN: int := -0x8000_0000_0000_0000

  predicate Int64(x: int) { INT64_MIN <= x <= DURATION_MAX }

  // ---- no overflow over whole runs ---------------------------------------------------------

  predicate Entry64(e: Entry) { Int64(e.period) && Int64(e.repeat) }

  /** The periods and counts of all events are 64-bit values. */
  ghost predicate State64(s: State) {
    (forall x :: x in s.queue ==> Entry64(x)) && (s.current.Some? ==> Entry64(s.current.value))
  }

  /** The call is made with 64-bit arguments. */
  predicate Call64(c: Command) {
    match c
    case AddAt(_, _, _, cycle, repeat) => Int64(cycle) && Int64(repeat)
    case SetCycle(_, cycle) => Int64(cycle)
    case SetRepeat(_, repeat) => Int64(repeat)
    case _ => true
  }

  predicate Script64(cs: seq<Command>) { forall c :: c in cs ==> Call64(c) }

  predicate Calls64(calls: Calls) {
    Script64(calls.before) && Script64(calls.pre) && Script64(calls.post)
    && Script64(calls.body) && Script64(calls.after)
  }

  lemma Effect64(s: State, c: Command)
    requires State64(s) && Call64(c) && Effect(s, c).Some?
    ensures Entry64(Effect(s, c).value)
  {
  }

  lemma CurrentKeeps64(s: State, c: Command)
    requires State64(s) && Call64(c) && Apply(s, c).current.Some?
    ensures Entry64(Apply(s, c).current.value)
  {
  }

  lemma CallKeeps64(s: State, c: Command)
    requires WellFormed(s) && State64(s) && Call64(c)
    ensures WellFormed(Apply(s, c)) && State64(Apply(s, c))
  {
    ApplyEffect(s, c);
    if Effect(s, c).Some? { Effect64(s, c); }
    if Apply(s, c).current.Some? { CurrentKeeps64(s, c); }
  }

  lemma {:induction false} CallsKeep64(s: State, cs: seq<Command>)
    requires WellFormed(s) && State64(s) && Script64(cs)
    ensures WellFormed(ApplyAll(s, cs)) && State64(ApplyAll(s, cs))
    decreases |cs|
  {
    if cs != [] {
      CallKeeps64(s, cs[0]);
      CallsKeep64(Apply(s, cs[0]), cs[1..]);
    }
  }

  lemma ReadyKeeps64(s: State, calls: Calls)
    requires Inv(s) && s.running && !Exhausted(s) && LegalStep(s, calls)
    requires State64(s) && Calls64(calls)
    ensures Ready(s, calls).Some? && State64(Ready(s, calls).value)
  {
    MovedGood(s, calls);
    CallsKeep64(s, calls.before);
    CallsKeep64(ApplyAll(s, calls.before), calls.pre);
    CallsKeep64(Moved(ApplyAll(s, calls.before), calls.pre), calls.post);
  }

  lemma RearmKeeps64(r: State, calls: Calls)
    requires Good(r, r.now) && r.cached == r.now && r.current.None? && Pops(r)
    requires r.queue != [] && LegalFiring(r, calls) && State64(r)
    ensures State64(Rearm(Take(r)))
  {
    TakeGood(r);
    RearmGood(Take(r));
  }

  lemma FiringKeeps64(r: State, calls: Calls)
    requires Good(r, r.now) && r.cached == r.now && r.current.None? && Pops(r)
    requires r.queue != [] && LegalFiring(r, calls) && State64(r) && Calls64(calls)
    ensures State64(ApplyAll(Fire(Take(r), calls.body), calls.after))
  {
    RearmKeeps64(r, calls);
    RearmTakenGood(r, calls);
    var k := Rearm(Take(r));
    CallsKeep64(Started(k), calls.body);
    ExecuteGood(k, calls.body);
    ParkGood(Execute(k, calls.body), r.queue[0].repeat == 0);
    FireGood(r, calls);
    CallsKeep64(Fire(Take(r), calls.body), calls.after);
  }

  lemma StepKeeps64(s: State, calls: Calls)
    requires Inv(s) && LegalStep(s, calls) && State64(s) && Calls64(calls)
    ensures Step(s, calls).Running? && State64(Step(s, calls).state)
  {
    StepKeepsInvariant(s, calls);
    if s.running {
      if Exhausted(s) {
        CallKeeps64(s, Hold(true));
      } else {
        ReadyGood(s, calls);
        ReadyKeeps64(s, calls);
        var r := Ready(s, calls).value;
        if Pops(r) {
          TakeGood(r);
          FiringKeeps64(r, calls);
        }
      }
    }
  }

  lemma {:induction false} RunKeeps64(s: State, ins: seq<Calls>)
    requires Inv(s) && LegalRun(s, ins) && State64(s) && forall i :: 0 <= i < |ins| ==> Calls64(ins[i])
    ensures Run(s, ins).Running? && Inv(Run(s, ins).state) && State64(Run(s, ins).state)
    decreases |ins|
  {
    if ins != [] {
      StepKeepsInvariant(s, ins[0]);
      StepKeeps64(s, ins[0]);
      RunKeeps64(Step(s, ins[0]).state, ins[1..]);
    }
  }

  /** What is computed for a relative time. */
  lemma DelayFits(s: State, floor: int, delay: int)
    requires Good(s, floor) && Int64(delay)
    ensures Int64(DURATION_MAX - s.cached)
    ensures AbsoluteTime(s.cached, delay).Some? ==> Int64(AbsoluteTime(s.cached, delay).value)
  {
  }

  /** What is computed when an event is re-armed. */
  lemma RearmFits(s: State, floor: int, e: Entry)
    requires Good(s, floor) && e in s.queue && e.time != PARKED && Int64(e.period)
    ensures e.repeat != 0 && e.period > 0 ==>
              && Int64(DURATION_MAX - e.time) && Int64(Following(e))
              && (Following(e) == PARKED || e.time < Following(e) < DURATION_MAX)
  {
  }

  /** Over every legal run whose calls have 64-bit arguments, no step overflows when it re-arms the
      event it executes. */
  lemma NoOverflow(s: State, ins: seq<Calls>, calls: Calls)
    requires Inv(s) && State64(s) && LegalRun(s, ins)
    requires (forall i :: 0 <= i < |ins| ==> Calls64(ins[i])) && Calls64(calls)
    requires Run(s, ins).Running? ==> LegalStep(Run(s, ins).state, calls)
    ensures Run(s, ins).Running?
    ensures var e := Fired(Run(s, ins).state, calls);
            e.Some? && e.value.repeat != 0 && e.value.period > 0 ==>
              && Int64(DURATION_MAX - e.value.time) && Int64(Following(e.value))
              && (Following(e.value) == PARKED || e.value.time < Following(e.value) < DURATION_MAX)
  {
    RunKeeps64(s, ins);
    var m := Run(s, ins).state;
    if Fired(m, calls).Some? {
      ReadyGood(m, calls);
      ReadyKeeps64(m, calls);
      var r := Ready(m, calls).value;
      assert r.queue[0] in r.queue;
      RearmFits(r, r.now, r.queue[0]);
    }
  }

  ghost predicate DelaysFit(s: State, clock: Clock) {
    forall t: int :: 0 <= t <= DURATION_MAX ==> Int64(Delay(s, clock, t))
  }

  /** The difference to the time a clock shows fits for every non-negative 64-bit time exactly when
      that clock shows a non-negative one. */
  lemma DelaysFitIff(s: State, clock: Clock)
    requires !clock.SimulationClock?
    requires Int64(s.Epoch()) && Int64(s.Mission())
    ensures DelaysFit(s, clock) <==> (if clock.MissionClock? then s.Mission() else s.Epoch()) >= 0
  {
    assert DelaysFit(s, clock) ==> Int64(Delay(s, clock, DURATION_MAX));
  }

  /** Over a run that leaves the offsets alone, the clocks fit at every execution if they do at both
      ends of the run. */
  lemma ClocksFit(s: State, ins: seq<Calls>, i: nat)
    requires Inv(s) && LegalRun(s, ins) && forall k :: 0 <= k < |ins| ==> KeepsOffsets(ins[k])
    requires Int64(s.Epoch()) && Int64(s.Mission())
    requires Run(s, ins).Running? ==>
      var m := Run(s, ins).state;
      Int64(s.(now := m.now).Epoch()) && Int64(s.(now := m.now).Mission()) && |s.log| <= i < |m.log|
    ensures Run(s, ins).Running? && i < |Run(s, ins).state.log|
    ensures var f := Run(s, ins).state.log[i]; Int64(f.epoch) && Int64(f.mission)
  {
    RunKeepsInvariant(s, ins);
    RunKeepsOffsets(s, ins);
  }

  // ---- runs that leave the assumptions -----------------------------------------------------

  /** A running simulation with one event in the queue. */
  function OneEvent(now: int, e: Entry): State {
    State([e], None, e.id + 1, now, now, 0, 0, true, true, [])
  }

  lemma ApplyTwo(s: State, c1: Command, c2: Command)
    ensures ApplyAll(s, [c1, c2]) == Apply(Apply(s, c1), c2)
  {
    assert [c1, c2][1..] == [c2];
    assert ApplyAll(Apply(s, c1), [c2]) == Apply(Apply(s, c1), c2);
  }

  /** A step that starts with an activable event in the past throws. */
  lemma PastEventThrows(s: State)
    requires s.running && s.queue != [] && 0 <= s.queue[0].time < s.now <= DURATION_MAX
    ensures Step(s, QUIET) == TimeThrown
  {
  }

  lemma RunTwo(s: State, calls: Calls)
    requires Step(s, calls).Running? && Step(Step(s, calls).state, QUIET) == TimeThrown
    ensures Run(s, [calls, QUIET]) == TimeThrown
  {
    assert [calls, QUIET][1..] == [QUIET];
  }

  // ---- calls that count from the stale time ------------------------------------------------

  function LateEvent(n: nat): Command { AddAt(User(n), SimulationClock, 0, 0, 0) }

  function TwoLateEvents(): Calls { Calls([], [], [LateEvent(1), LateEvent(2)], [], []) }

  lemma StaleReady(now: int, e: Entry)
    requires 0 <= now < e.time < DURATION_MAX
    ensures Ready(OneEvent(now, e), TwoLateEvents()).Some?
    ensures var r := Ready(OneEvent(now, e), TwoLateEvents()).value;
            r.now == e.time && r.running && r.current.None?
            && r.queue == [Entry(e.id + 1, User(1), now, 0, 0), Entry(e.id + 2, User(2), now, 0, 0), e]
  {
    var s := OneEvent(now, e);
    var m := s.(now := e.time);
    assert ApplyAll(s, []) == s;
    var a, b := Entry(e.id + 1, User(1), now, 0, 0), Entry(e.id + 2, User(2), now, 0, 0);
    assert [e][1..] == [] && Erase([e], a.id) == [e] && Insert([e], a) == [a] + [e];
    assert Apply(m, LateEvent(1)).queue == [a, e];
    InsertSecond(a, b, e);
    assert Apply(Apply(m, LateEvent(1)), LateEvent(2)).queue == [a, b, e];
    ApplyTwo(m, LateEvent(1), LateEvent(2));
  }

  lemma InsertSecond(a: Entry, b: Entry, e: Entry)
    requires Less(a, b) && Less(b, e) && a.id < b.id && e.id < b.id
    ensures Reinsert([a, e], b) == [a, b, e]
  {
    assert [a, e][1..] == [e] && [e][1..] == [];
    assert Erase([e], b.id) == [e];
    assert Erase([a, e], b.id) == [a] + [e] == [a, e];
    assert Insert([e], b) == [b] + [e];
    assert Insert([a, e], b) == [a] + Insert([e], b);
  }

  lemma FiringOnce(r: State)
    requires r.queue != [] && r.queue[0].period == 0 && r.queue[0].ep.User?
    ensures var g := ApplyAll(Fire(Take(r), []), []);
            g.queue == r.queue[1..] && g.now == r.now && g.running == r.running
  {
  }

  lemma StepOnce(s: State, calls: Calls, r: State)
    requires s.running && !Exhausted(s) && Ready(s, calls) == Some(r) && Pops(r)
    requires r.queue != [] && r.queue[0].period == 0 && r.queue[0].ep.User?
    requires calls.body == [] == calls.after && Find(r.queue[1..], r.queue[0].id).None?
    ensures Step(s, calls).Running?
    ensures var s' := Step(s, calls).state;
            s'.queue == r.queue[1..] && s'.now == r.now && s'.running == r.running
  {
    FiringOnce(r);
  }

  /** Two calls with delay 0 from a handler of SMP_PostSimTimeChange: the scheduler still counts
      from the old time, so the second event is in the past when the next step starts. */
  lemma StaleHandlerThrows(now: int, e: Entry)
    requires 0 <= now < e.time < DURATION_MAX
    ensures Inv(OneEvent(now, e)) && Run(OneEvent(now, e), [TwoLateEvents(), QUIET]) == TimeThrown
  {
    var s := OneEvent(now, e);
    StaleReady(now, e);
    var r := Ready(s, TwoLateEvents()).value;
    assert r.queue[1..] == [Entry(e.id + 2, User(2), now, 0, 0), e];
    assert !Queued(r.queue[1..], e.id + 1);
    StepOnce(s, TwoLateEvents(), r);
    PastEventThrows(Step(s, TwoLateEvents()).state);
    RunTwo(s, TwoLateEvents());
  }

  // ---- the other assumptions ---------------------------------------------------------------

  /** Parking the last activable event after the scheduler checked for one. */
  lemma ParkingRaceThrows(now: int, e: Entry)
    requires 0 <= now <= e.time < DURATION_MAX
    ensures Inv(OneEvent(now, e))
    ensures Step(OneEvent(now, e), Calls([SetTime(e.id, SimulationClock, -1)], [], [], [], [])) == TimeThrown
  {
    var s := OneEvent(now, e);
    var c := SetTime(e.id, SimulationClock, -1);
    var parked := e.(time := PARKED);
    assert Reinsert([e], parked) == [parked] && Reinsert([parked], parked) == [parked];
    assert Apply(s, c).queue == [parked];
    assert ApplyAll(s, [c]) == Apply(s, c);
  }

  /** An event on its last execution that re-times itself is deleted while queued. */
  lemma LastExecutionDangles(e: Entry, delay: int)
    requires 0 <= e.time < DURATION_MAX - delay && delay >= 0 && e.repeat == 0
    ensures Inv(OneEvent(e.time, e))
    ensures Step(OneEvent(e.time, e), Calls([], [], [], [SetTime(e.id, SimulationClock, delay)], [])) == Dangling
  {
    var s := OneEvent(e.time, e);
    var c := SetTime(e.id, SimulationClock, delay);
    var again := e.(time := e.time + delay);
    var k := Started(Rearm(Take(s)));
    assert k.queue == [] && k.current == Some(e);
    assert Reinsert([], again) == [again] && Reinsert([again], again) == [again];
    assert Apply(k, c).queue == [again];
    assert ApplyAll(k, [c]) == Apply(k, c);
    assert Ready(s, Calls([], [], [], [c], [])) == Some(s);
    assert Fire(Take(s), [c]).queue == [again];
  }

  function TurnPeriodic(id: nat, cycle: int): Calls {
    Calls([SetRepeat(id, 1), SetCycle(id, cycle)], [], [], [], [])
  }

  /** An immediate event turned periodic: the step that executes it re-arms it from its reserved
      time -2, and the difference computed for that is not a 64-bit value. */
  lemma PeriodicImmediateOverflows(now: int, id: nat, cycle: int)
    requires 0 <= now < DURATION_MAX && cycle >= 1
    ensures var s := OneEvent(now, Entry(id, User(0), IMMEDIATE, 0, 0));
            && Inv(s) && Ready(s, TurnPeriodic(id, cycle)).Some?
            && var r := Ready(s, TurnPeriodic(id, cycle)).value;
            Pops(r) && r.queue == [Entry(id, User(0), IMMEDIATE, cycle, 1)] && !Int64(DURATION_MAX - r.queue[0].time)
  {
    var s := OneEvent(now, Entry(id, User(0), IMMEDIATE, 0, 0));
    ApplyTwo(s, SetRepeat(id, 1), SetCycle(id, cycle));
    assert Apply(s, SetRepeat(id, 1)).queue == [Entry(id, User(0), IMMEDIATE, 0, 1)];
    assert ApplyAll(s, TurnPeriodic(id, cycle).before).queue == [Entry(id, User(0), IMMEDIATE, cycle, 1)];
  }

  // ---- branches no legal run takes ---------------------------------------------------------

  /** At the largest time nothing is run: the loop holds, and the clock is not moved there. */
  lemma LargestTimeIsNotRun(s: State, calls: Calls)
    requires s.running && s.queue != [] && s.queue[0].time == DURATION_MAX && s.now < DURATION_MAX
    ensures Step(s, calls) == Running(Apply(s, Hold(true)))
    ensures Advance(s, calls.pre, calls.post) == Some(ApplyAll(s, calls.post))
  {
  }

  /** A loop that was stopped before the step picks its entry runs nothing more. */
  lemma StoppedPicksNothing(r: State, calls: Calls)
    requires !r.running
    ensures !Dangles(r, calls) && AfterDue(r, calls) == r.(current := None, cached := r.now)
  {
  }

  /** They are not taken: times stay below the largest one, and only the stop entry point clears the flag. */
  lemma NotTaken(s: State, calls: Calls)
    requires Inv(s) && s.running && !Exhausted(s) && LegalStep(s, calls)
    ensures s.NextTime() < DURATION_MAX && Ready(s, calls).Some? && Ready(s, calls).value.running
    ensures Pops(Ready(s, calls).value) ==> Ready(s, calls).value.NextTime() < DURATION_MAX
  {
    ReadyGood(s, calls);
    NextTimeIsLeast(s);
    NextTimeIsLeast(Ready(s, calls).value);
  }
}
