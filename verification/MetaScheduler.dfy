/** The meta-scheduler: schedules that are activated and deactivated by events and stay on
    their time grid. */
module MetaScheduling {
  import opened Options
  import opened ScheduleQueue
  import opened Kernel
  import opened KernelInvariant
  import opened KernelActivation
  import opened KernelCalls
  import opened KernelInside
  import opened KernelTheorems
  import opened SchedulerObjects

  /** The remainder of C++, which takes the sign of the dividend. */
  function Remainder(a: int, b: int): int
    requires b > 0
  {
    if a >= 0 then a % b else -((-a) % b)
  }

  function Phase(now: int, cycle: int, offset: int): int
    requires cycle > 0
  {
    Remainder(cycle - Remainder(now, cycle) + offset, cycle)
  }

  /** The delay `epActivate` schedules. */
  function ActivationDelay(now: int, cycle: int, offset: int): int {
    if offset != -1 && cycle > 0 then Phase(now, cycle, offset) else 0
  }

  lemma ModShift(a: int, k: int, c: int)
    requires c > 0
    ensures (a + k * c) % c == a % c
  {
    var q, r := a / c, a % c;
    assert a + k * c == (q + k) * c + r;
    ModUnique(a + k * c, q + k, r, c);
  }

  lemma MultipleBound(d: int, c: int)
    requires c > 0
    ensures (d >= 1 ==> d * c >= c) && (d == 0 ==> d * c == 0) && (d <= -1 ==> d * c <= -c)
  {
  }

  lemma ModUnique(a: int, q: int, r: int, c: int)
    requires c > 0 && a == q * c + r && 0 <= r < c
    ensures a % c == r && a / c == q
  {
    var d := a / c - q;
    assert a == (a / c) * c + a % c;
    assert d * c == r - a % c;
    MultipleBound(d, c);
  }

  lemma SameClass(a: int, b: int, c: int)
    requires c > 0 && a % c == b % c
    ensures a - b == (a / c - b / c) * c
  {
  }

  lemma NegativeClass(r: int, q: int, cycle: int)
    requires cycle > 0 && 0 <= r < cycle
    ensures ((-q) * cycle - r) % cycle == (-r) % cycle == if r == 0 then 0 else cycle - r
  {
    ModShift(-r, -q, cycle);
    if r > 0 { ModUnique(-r, -1, cycle - r, cycle); }
  }

  lemma RemainderStays(x: int, cycle: int)
    requires cycle > 0
    ensures -cycle < Remainder(x, cycle) < cycle && Remainder(x, cycle) % cycle == x % cycle
    ensures Remainder(x, cycle) < 0 <==> x < 0 && x % cycle != 0
  {
    if x < 0 {
      NegativeStays(x, cycle, (-x) / cycle, (-x) % cycle);
    } else {
      ModUnique(x % cycle, 0, x % cycle, cycle);
    }
  }

  lemma NegativeStays(x: int, cycle: int, q: int, r: int)
    requires cycle > 0 && x < 0 && q == (-x) / cycle && r == (-x) % cycle
    ensures (-r) % cycle == x % cycle && 0 <= r < cycle && (r == 0 <==> x % cycle == 0)
  {
    assert -x == q * cycle + r;
    assert x == (-q) * cycle - r;
    NegativeClass(r, q, cycle);
  }

  lemma SameSum(a: int, b: int, c: int, cycle: int)
    requires cycle > 0 && a % cycle == b % cycle
    ensures (c + a) % cycle == (c + b) % cycle
  {
    SameClass(a, b, cycle);
    ModShift(c + b, a / cycle - b / cycle, cycle);
  }

  /** Before the remainder is taken the formula is on the grid. */
  lemma BeforeRemainder(now: int, cycle: int, offset: int)
    requires cycle > 0
    ensures (now + (cycle - now % cycle + offset)) % cycle == offset % cycle
  {
    var k := now / cycle + 1;
    assert now == (now / cycle) * cycle + now % cycle;
    assert now + (cycle - now % cycle + offset) == offset + k * cycle;
    ModShift(offset, k, cycle);
  }

  /** With an offset below −1 the formula still lands on the grid, but not always ahead: it is negative
      exactly when the offset lies before the start of the current cycle by other than whole cycles. */
  lemma PhaseIsNegativeIff(now: int, cycle: int, offset: int)
    requires now >= 0 && cycle > 0
    ensures var p := Phase(now, cycle, offset);
            && -cycle < p < cycle && (now + p) % cycle == offset % cycle
            && (p < 0 <==> offset < now % cycle - cycle && offset % cycle != now % cycle)
  {
    var x := cycle - now % cycle + offset;
    RemainderStays(x, cycle);
    SameSum(Remainder(x, cycle), x, now, cycle);
    BeforeRemainder(now, cycle, offset);
    OnTheGridIff(now, x, cycle);
  }

  lemma OnTheGridIff(now: int, x: int, cycle: int)
    requires cycle > 0
    ensures x % cycle == 0 <==> (now + x) % cycle == now % cycle
  {
    if x % cycle == 0 { SameSum(x, 0, now, cycle); }
    if (now + x) % cycle == now % cycle { SameSum(now + x, now, -now, cycle); }
  }

  /** The phase formula picks the unique delay below one cycle that lands on the grid. */
  lemma PhaseIsUniqueDelay(now: int, cycle: int, offset: int, d: int)
    requires now >= 0 && cycle > 0 && offset >= 0
    ensures var p := Phase(now, cycle, offset);
            && 0 <= p < cycle && (now + p) % cycle == offset % cycle
            && (0 <= d < cycle && (now + d) % cycle == offset % cycle ==> d == p)
  {
    var p := Phase(now, cycle, offset);
    PhaseIsNegativeIff(now, cycle, offset);
    if 0 <= d < cycle && (now + d) % cycle == offset % cycle {
      SameClass(now + d, now + p, cycle);
      var m := (now + d) / cycle - (now + p) / cycle;
      assert d - p == m * cycle;
      MultipleBound(m, cycle);
    }
  }

  /** An activation that times the event in the past, and one that parks it. */
  lemma NegativeOffsetMisses()
    ensures ActivationDelay(0, 10, -15) == -5 && ActivationDelay(9, 10, -2) == -1
  {
  }

  /** A grid time not before `now` is a whole number of cycles after the first activation. */
  lemma GridIndex(now: int, cycle: int, offset: int, t: int) returns (k: nat)
    requires now >= 0 && cycle > 0 && offset >= 0 && t >= now && t % cycle == offset % cycle
    ensures t == now + Phase(now, cycle, offset) + k * cycle
  {
    var p := Phase(now, cycle, offset);
    PhaseIsUniqueDelay(now, cycle, offset, t - now);
    SameClass(t, now + p, cycle);
    var m := t / cycle - (now + p) / cycle;
    MultipleBound(m, cycle);
    k := m;
  }

  /** The executed times are exactly the grid times from `low` on, complete before `high`. */
  ghost predicate CoversGrid(times: seq<int>, cycle: int, offset: int, low: int, high: int)
    requires cycle > 0
  {
    && (forall t :: t in times ==> low <= t <= high && t % cycle == offset % cycle)
    && (forall t {:trigger t in times} :: low <= t < high && t % cycle == offset % cycle ==> t in times)
    && (forall i :: 0 < i < |times| ==> times[i] == times[i - 1] + cycle)
  }

  /** The ticks of a grid: all of them from `first` on, up to `high`. */
  ghost predicate Ticks(times: seq<int>, first: int, cycle: int, high: int) {
    && (forall i :: 0 <= i < |times| ==> times[i] == first + i * cycle <= high)
    && high <= first + |times| * cycle
  }

  lemma TicksAreOnGrid(now: int, cycle: int, offset: int, times: seq<int>, high: int, t: int)
    requires now >= 0 && cycle > 0 && offset >= 0 && t in times
    requires Ticks(times, now + Phase(now, cycle, offset), cycle, high)
    ensures now <= t <= high && t % cycle == offset % cycle
  {
    var g := now + Phase(now, cycle, offset);
    PhaseIsUniqueDelay(now, cycle, offset, 0);
    var i :| 0 <= i < |times| && times[i] == t;
    MultipleBound(i, cycle);
    ModShift(g, i, cycle);
  }

  lemma GridIsTicked(now: int, cycle: int, offset: int, times: seq<int>, high: int, t: int)
    requires now >= 0 && cycle > 0 && offset >= 0 && now <= t < high && t % cycle == offset % cycle
    requires Ticks(times, now + Phase(now, cycle, offset), cycle, high)
    ensures t in times
  {
    var k := GridIndex(now, cycle, offset, t);
    MultipleBound(k - |times|, cycle);
    assert k * cycle == (k - |times|) * cycle + |times| * cycle;
    assert times[k] == t;
  }

  lemma GridIsCovered(now: int, cycle: int, offset: int, times: seq<int>, high: int)
    requires now >= 0 && cycle > 0 && offset >= 0
    requires Ticks(times, now + Phase(now, cycle, offset), cycle, high)
    ensures CoversGrid(times, cycle, offset, now, high)
  {
    forall t | t in times ensures now <= t <= high && t % cycle == offset % cycle {
      TicksAreOnGrid(now, cycle, offset, times, high, t);
    }
    forall t | now <= t < high && t % cycle == offset % cycle ensures t in times {
      GridIsTicked(now, cycle, offset, times, high, t);
    }
    forall i | 0 < i < |times| ensures times[i] == times[i - 1] + cycle {
      assert i * cycle == (i - 1) * cycle + cycle;
    }
  }

  /** An endlessly repeated event after `j` ticks. */
  function Later(e: Entry, j: nat): Entry {
    var t := e.time + j * e.period;
    e.(time := if t < DURATION_MAX then t else PARKED)
  }

  lemma {:induction false} TimesOfSource(log: seq<Firing>, id: nat, i: nat) returns (k: nat)
    requires i < |TimesOf(log, id)|
    ensures k < |log| && log[k].time == TimesOf(log, id)[i]
    decreases |log|
  {
    if i < |TimesOf(log[..|log| - 1], id)| {
      k := TimesOfSource(log[..|log| - 1], id, i);
    } else {
      k := |log| - 1;
    }
  }

  lemma NewTimeInRange(s: State, s': State, id: nat, i: nat)
    requires s.log <= s'.log && i < |NewTimes(s, s', id)|
    requires Chronological(s'.log, |s.log|, s.now, s'.now)
    ensures s.now <= NewTimes(s, s', id)[i] <= s'.now
  {
    var k := TimesOfSource(s'.log[|s.log|..], id, i);
    assert s'.log[|s.log|..][k] == s'.log[|s.log| + k];
  }

  // ---- an activated schedule ---------------------------------------------------------------

  /** An endlessly repeated event nobody addresses ticks with its period. */
  lemma TicksWhileActive(s: State, e: Entry, ins: seq<Calls>)
    requires Inv(s) && e in s.queue && e.time >= 0 && e.period > 0 && e.repeat < 0
    requires LegalRun(s, ins) && UndisturbedRun(ins, e.id)
    ensures Run(s, ins).Running?
    ensures var s' := Run(s, ins).state;
            && Inv(s') && s.log <= s'.log
            && var times := NewTimes(s, s', e.id);
            Ticks(times, e.time, e.period, s'.now) && Later(e, |times|) in s'.queue
  {
    ExactActivations(s, ins, e);
    RunKeepsInvariant(s, ins);
    var s' := Run(s, ins).state;
    var times := NewTimes(s, s', e.id);
    assert GridEntry(e, |times|) == Later(e, |times|);
    forall i | 0 <= i < |times| ensures times[i] <= s'.now {
      NewTimeInRange(s, s', e.id, i);
    }
  }

  /** From any state in which the schedule is queued at its next grid time, it is executed exactly
      at the grid times from now on, and stays queued with its period. */
  lemma QueuedStaysOnGrid(s: State, e: Entry, offset: int, ins: seq<Calls>)
    requires Inv(s) && e in s.queue && e.period > 0 && e.repeat < 0 && offset >= 0
    requires e.time == s.now + Phase(s.now, e.period, offset)
    requires LegalRun(s, ins) && UndisturbedRun(ins, e.id)
    ensures Run(s, ins).Running?
    ensures var s' := Run(s, ins).state;
            && Inv(s') && s.log <= s'.log
            && CoversGrid(NewTimes(s, s', e.id), e.period, offset, s.now, s'.now)
            && exists t :: e.(time := t) in s'.queue
  {
    PhaseIsUniqueDelay(s.now, e.period, offset, 0);
    TicksWhileActive(s, e, ins);
    var times := NewTimes(s, Run(s, ins).state, e.id);
    GridIsCovered(s.now, e.period, offset, times, Run(s, ins).state.now);
    assert Later(e, |times|) == e.(time := Later(e, |times|).time);
  }

  // ---- activation and deactivation ---------------------------------------------------------

  /** `epActivate` and `epDeactivate` are run by events: between two steps, or inside a step, by the
      entry point it executes or by a handler that runs after it. */
  datatype Switch = Between | Inside(site: Site)

  /** The simulation time at which the switch happens. */
  function At(s: State, w: Switch): int {
    if w.Between? || Ready(s, w.site.calls).None? then s.now else Ready(s, w.site.calls).value.now
  }

  function Switched(s: State, id: nat, delay: int, w: Switch): Outcome {
    if w.Between? then Running(Apply(s, SetTime(id, SimulationClock, delay))) else Step(s, w.site.calls)
  }

  /** The event is re-timed with the delay and nothing else around addresses it. */
  predicate LegalSwitch(s: State, id: nat, delay: int, w: Switch) {
    && -1 <= delay < DURATION_MAX - At(s, w)
    && (w.Inside? ==>
          && LegalStep(s, w.site.calls) && Fired(s, w.site.calls).Some?
          && Calling(w.site, SetTime(id, SimulationClock, delay)) && OnlyCall(w.site, id))
  }

  lemma SwitchedBetween(s: State, e: Entry, delay: int)
    requires Inv(s) && e in s.queue && -1 <= delay < DURATION_MAX - s.now
    ensures var s1 := Apply(s, SetTime(e.id, SimulationClock, delay));
            Inv(s1) && s1.now == s.now && s1.log == s.log && e.(time := Due(s.now, delay)) in s1.queue
  {
    var c := SetTime(e.id, SimulationClock, delay);
    assert s.Lookup(e.id) == Some(e);
    ApplyEffect(s, c);
    CallKeepsGoodIff(s, s.now, c);
  }

  /** The switch is run by the event itself. */
  predicate Own(s: State, id: nat, w: Switch) {
    w.Inside? && Fired(s, w.site.calls).Some? && Fired(s, w.site.calls).value.id == id
  }

  /** After the switch the event is queued at the time asked for, and is the same otherwise. */
  lemma SwitchRetimes(s: State, e: Entry, delay: int, w: Switch)
    requires Inv(s) && e in s.queue && (Own(s, e.id, w) ==> e.period > 0 && e.repeat < 0)
    requires LegalSwitch(s, e.id, delay, w)
    ensures Switched(s, e.id, delay, w).Running?
    ensures var s1 := Switched(s, e.id, delay, w).state;
            && Inv(s1) && s.now <= s1.now == At(s, w) && s.log <= s1.log
            && e.(time := Due(s1.now, delay)) in s1.queue
  {
    if w.Between? {
      SwitchedBetween(s, e, delay);
    } else {
      RetimedInside(s, w.site, e, delay);
      StepEnds(s, w.site.calls);
      ReadyGood(s, w.site.calls);
    }
  }

  /** What the step of the switch executes: the event only if it was due, and it was not late. */
  lemma SwitchTimes(s: State, e: Entry, delay: int, w: Switch)
    requires Inv(s) && e in s.queue && e.time >= PARKED && (Own(s, e.id, w) ==> e.period > 0 && e.repeat < 0)
    requires LegalSwitch(s, e.id, delay, w)
    ensures Switched(s, e.id, delay, w).Running?
    ensures var s1 := Switched(s, e.id, delay, w).state;
            && s.log <= s1.log
            && var times := NewTimes(s, s1, e.id);
            && (times == [] || (times == [e.time] && s1.now == e.time))
            && (times == [] && e.time != PARKED ==> At(s, w) <= e.time)
  {
    SwitchRetimes(s, e, delay, w);
    if w.Between? {
      assert s.log[|s.log|..] == [];
    } else {
      var calls := w.site.calls;
      ReadyLeaves(s, calls, e.id);
      ReadyGood(s, calls);
      StepTimes(s, calls, e.id);
      StepLogsFired(s, calls);
      assert e in Ready(s, calls).value.queue;
    }
  }

  lemma OneMoreTick(times: seq<int>, first: int, cycle: int, middle: int, high: int)
    requires Ticks(times, first, cycle, middle) && middle <= high && high == first + |times| * cycle && cycle > 0
    ensures Ticks(times + [high], first, cycle, high)
  {
    assert (|times| + 1) * cycle == |times| * cycle + cycle;
    forall i | 0 <= i < |times| + 1 ensures (times + [high])[i] == first + i * cycle <= high {
      if i < |times| { assert (times + [high])[i] == times[i]; }
    }
  }

  /** One more tick, or none, in the step that deactivates: the grid is covered until then. */
  lemma TicksUntilOff(times: seq<int>, last: seq<int>, on: int, cycle: int, offset: int, middle: int, off: int,
                      next: int)
    requires on >= 0 && cycle > 0 && offset >= 0 && 0 <= middle <= off < DURATION_MAX
    requires var after := on + Phase(on, cycle, offset) + |times| * cycle;
      next == if after < DURATION_MAX then after else PARKED
    requires Ticks(times, on + Phase(on, cycle, offset), cycle, middle)
    requires last == [] || (last == [next] && off == next)
    requires last == [] && next != PARKED ==> off <= next
    ensures CoversGrid(times + last, cycle, offset, on, off)
  {
    var first := on + Phase(on, cycle, offset);
    if last == [] {
      assert times + last == times;
    } else {
      OneMoreTick(times, first, cycle, middle, off);
    }
    GridIsCovered(on, cycle, offset, times + last, off);
  }

  /** One activation period and the following deactivated one. */
  datatype Period = Period(activate: Switch, on: seq<Calls>, deactivate: Switch, off: seq<Calls>)

  function Activation(s: State, e: Entry, offset: int, p: Period): int {
    ActivationDelay(At(s, p.activate), e.period, offset)
  }

  function Activated(s: State, e: Entry, offset: int, p: Period): Outcome {
    Switched(s, e.id, Activation(s, e, offset, p), p.activate)
  }

  predicate LegalActivation(s: State, e: Entry, offset: int, p: Period) {
    && LegalSwitch(s, e.id, Activation(s, e, offset, p), p.activate)
    && (Activated(s, e, offset, p).Running? ==> LegalRun(Activated(s, e, offset, p).state, p.on))
    && UndisturbedRun(p.on, e.id)
  }

  lemma ParkedIsNotOwn(s: State, e: Entry, delay: int, w: Switch)
    requires Inv(s) && e in s.queue && e.time == PARKED && LegalSwitch(s, e.id, delay, w)
    ensures !Own(s, e.id, w)
  {
    if w.Inside? {
      var calls := w.site.calls;
      ReadyLeaves(s, calls, e.id);
      ReadyGood(s, calls);
      assert e in Ready(s, calls).value.queue;
      TakeGood(Ready(s, calls).value);
    }
  }

  lemma ParkedSwitch(s: State, e: Entry, delay: int, w: Switch)
    requires Inv(s) && e in s.queue && e.time == PARKED
    requires LegalSwitch(s, e.id, delay, w)
    ensures Switched(s, e.id, delay, w).Running?
    ensures var s1 := Switched(s, e.id, delay, w).state;
            && Inv(s1) && s1.now == At(s, w) && s.log <= s1.log && NewTimes(s, s1, e.id) == []
            && e.(time := Due(s1.now, delay)) in s1.queue
  {
    ParkedIsNotOwn(s, e, delay, w);
    SwitchRetimes(s, e, delay, w);
    SwitchTimes(s, e, delay, w);
  }

  lemma ActivationIsPhase(now: int, cycle: int, offset: int)
    requires now >= 0 && cycle > 0 && offset >= 0
    ensures ActivationDelay(now, cycle, offset) == Phase(now, cycle, offset) >= 0
  {
    PhaseIsUniqueDelay(now, cycle, offset, 0);
  }

  /** An activation executes nothing and queues the schedule at its next grid time. */
  lemma ActivationQueues(s: State, e: Entry, offset: int, p: Period)
    requires Inv(s) && e in s.queue && e.time == PARKED && e.period > 0 && e.repeat < 0 && offset >= 0
    requires LegalSwitch(s, e.id, Activation(s, e, offset, p), p.activate)
    ensures Activated(s, e, offset, p).Running?
    ensures var s1 := Activated(s, e, offset, p).state;
            && Inv(s1) && s1.now == At(s, p.activate) && s.log <= s1.log && NewTimes(s, s1, e.id) == []
            && Phase(s1.now, e.period, offset) >= 0 && First(s1, e, offset) in s1.queue
  {
    var delay := Activation(s, e, offset, p);
    ParkedSwitch(s, e, delay, p.activate);
    ActivationIsPhase(At(s, p.activate), e.period, offset);
    var s1 := Activated(s, e, offset, p).state;
    assert e.(time := Due(s1.now, delay)) == First(s1, e, offset);
  }

  function First(s: State, e: Entry, offset: int): Entry
    requires e.period > 0
  {
    e.(time := s.now + Phase(s.now, e.period, offset))
  }

  /** The executions of a parked schedule from its activation until it is next addressed. */
  lemma ActivatedTicks(s: State, e: Entry, offset: int, p: Period)
    requires Inv(s) && e in s.queue && e.time == PARKED && e.period > 0 && e.repeat < 0 && offset >= 0
    requires LegalActivation(s, e, offset, p)
    ensures Activated(s, e, offset, p).Running?
    ensures var s1 := Activated(s, e, offset, p).state;
            && Run(s1, p.on).Running? && Inv(s1)
            && var s2 := Run(s1, p.on).state;
            && Inv(s2) && s.log <= s1.log <= s2.log
            && var times := NewTimes(s, s2, e.id);
            && Ticks(times, First(s1, e, offset).time, e.period, s2.now)
            && Later(First(s1, e, offset), |times|) in s2.queue
  {
    ActivationQueues(s, e, offset, p);
    var s1 := Activated(s, e, offset, p).state;
    TicksWhileActive(s1, First(s1, e, offset), p.on);
    var s2 := Run(s1, p.on).state;
    NewTimesChain(s.log, s1.log, s2.log, e.id);
    assert NewTimes(s, s2, e.id) == NewTimes(s1, s2, e.id);
  }

  /** So it is executed exactly at the grid times from the activation on, and stays queued with its
      period. */
  lemma ActivatedStaysOnGrid(s: State, e: Entry, offset: int, p: Period)
    requires Inv(s) && e in s.queue && e.time == PARKED && e.period > 0 && e.repeat < 0 && offset >= 0
    requires LegalActivation(s, e, offset, p)
    ensures Activated(s, e, offset, p).Running?
    ensures var s1 := Activated(s, e, offset, p).state;
            && Run(s1, p.on).Running?
            && var s2 := Run(s1, p.on).state;
            && Inv(s2) && s.log <= s2.log
            && CoversGrid(NewTimes(s, s2, e.id), e.period, offset, s1.now, s2.now)
            && exists t :: e.(time := t) in s2.queue
  {
    ActivatedTicks(s, e, offset, p);
    var s1 := Activated(s, e, offset, p).state;
    var s2 := Run(s1, p.on).state;
    var times := NewTimes(s, s2, e.id);
    GridIsCovered(s1.now, e.period, offset, times, s2.now);
    var next := Later(First(s1, e, offset), |times|);
    assert next == e.(time := next.time);
  }

  // ---- schedules that are not cyclic -------------------------------------------------------

  /** An event due now over a run that leaves it alone. */
  lemma DueNow(s: State, e: Entry, ins: seq<Calls>)
    requires Inv(s) && e in s.queue && e.time == s.now && LegalRun(s, ins) && UndisturbedRun(ins, e.id)
    ensures Run(s, ins).Running?
    ensures var s' := Run(s, ins).state;
            && s.log <= s'.log
            && var times := NewTimes(s, s', e.id);
            && (if times == [] then e in s'.queue && s'.now == s.now else times[0] == s.now)
            && (e.period <= 0 ==>
                  |times| <= 1
                  && (times != [] ==>
                        Holds(s'.queue, e.id, if e.repeat != 0 && e.period == -1
                                              then Some(CountDown(e).(time := PARKED)) else None)))
  {
    RunKeepsInvariant(s, ins);
    RunFollowsFate(s, ins, e.id, Some(e));
    var s' := Run(s, ins).state;
    var times := NewTimes(s, s', e.id);
    FollowsHead(Some(e), times, s'.queue, e.id);
    if times != [] {
      FollowsTail(e, times, s'.queue);
      FollowsHead(Successor(e), times[1..], s'.queue, e.id);
    }
  }

  lemma ActivatedIsDue(s: State, e: Entry, offset: int, p: Period)
    requires Inv(s) && e in s.queue && e.time == PARKED && (e.period <= 0 || offset == -1)
    requires LegalSwitch(s, e.id, Activation(s, e, offset, p), p.activate)
    ensures Activated(s, e, offset, p).Running?
    ensures var s1 := Activated(s, e, offset, p).state;
            && Inv(s1) && s1.now == At(s, p.activate) && s.log <= s1.log && NewTimes(s, s1, e.id) == []
            && e.(time := s1.now) in s1.queue
  {
    var delay := Activation(s, e, offset, p);
    assert delay == 0;
    ParkedSwitch(s, e, delay, p.activate);
    var s1 := Activated(s, e, offset, p).state;
    assert e.(time := Due(s1.now, delay)) == e.(time := s1.now);
  }

  /** A schedule without a cycle, or whose time is −1, that is activated while parked is due at once:
      it is executed at the time of the activation. Without a cycle that is once, and it is parked
      again with one repeat fewer, ready for the next activation; with one, it goes on from there. */
  lemma ActivatedRunsNow(s: State, e: Entry, offset: int, p: Period)
    requires Inv(s) && e in s.queue && e.time == PARKED && (e.period <= 0 || offset == -1)
    requires LegalActivation(s, e, offset, p)
    ensures Activated(s, e, offset, p).Running?
    ensures var s1 := Activated(s, e, offset, p).state;
            && Inv(s1) && s1.now == At(s, p.activate) && e.(time := s1.now) in s1.queue
            && Run(s1, p.on).Running?
            && var s2 := Run(s1, p.on).state;
            && s.log <= s1.log <= s2.log
            && var times := NewTimes(s, s2, e.id);
            && (times == [] ==> s2.now == s1.now && e.(time := s1.now) in s2.queue)
            && (times != [] ==> times[0] == s1.now)
            && (e.period <= 0 ==> |times| <= 1)
            && (e.period == -1 && e.repeat != 0 && times != [] ==> CountDown(e) in s2.queue)
            && (e.period > 0 ==> OnGrid(e.(time := s1.now), times, s2.queue))
  {
    ActivatedIsDue(s, e, offset, p);
    var s1 := Activated(s, e, offset, p).state;
    var x := e.(time := s1.now);
    DueNow(s1, x, p.on);
    var s2 := Run(s1, p.on).state;
    NewTimesChain(s.log, s1.log, s2.log, e.id);
    assert NewTimes(s, s2, e.id) == NewTimes(s1, s2, e.id);
    assert CountDown(x).(time := PARKED) == CountDown(e);
    if e.period > 0 { ExactActivations(s1, p.on, x); }
  }

  // ---- deactivation ------------------------------------------------------------------------

  function Deactivated(s: State, e: Entry, p: Period): Outcome { Switched(s, e.id, -1, p.deactivate) }

  predicate LegalDeactivation(s: State, e: Entry, p: Period) {
    && LegalSwitch(s, e.id, -1, p.deactivate)
    && (Deactivated(s, e, p).Running? ==> LegalRun(Deactivated(s, e, p).state, p.off))
    && UndisturbedRun(p.off, e.id)
  }

  /** The step that deactivates ends the ticks, and nothing is executed after it. */
  lemma DeactivatedIsSilent(s: State, e: Entry, next: Entry, p: Period)
    requires Inv(s) && next in s.queue && e == next.(time := PARKED) && next.time >= PARKED
    requires e.period > 0 && e.repeat < 0 && LegalDeactivation(s, e, p)
    ensures Deactivated(s, e, p).Running?
    ensures var s3 := Deactivated(s, e, p).state;
            && Inv(s3) && s.now <= s3.now && s.log <= s3.log && Run(s3, p.off).Running?
            && var s4 := Run(s3, p.off).state;
            && Inv(s4) && s3.log <= s4.log && NewTimes(s3, s4, e.id) == [] && e in s4.queue
            && var last := NewTimes(s, s3, e.id);
            && (last == [] || (last == [next.time] && s3.now == next.time))
            && (last == [] && next.time != PARKED ==> s3.now <= next.time)
  {
    SwitchRetimes(s, next, -1, p.deactivate);
    SwitchTimes(s, next, -1, p.deactivate);
    var s3 := Deactivated(s, e, p).state;
    assert next.(time := Due(s3.now, -1)) == e;
    ParkedNeverRuns(s3, p.off, e);
    RunKeepsInvariant(s3, p.off);
  }

  function Ended(s: State, e: Entry, offset: int, p: Period): Outcome {
    match Activated(s, e, offset, p)
    case Running(s1) => Run(s1, p.on)
    case o => o
  }

  predicate LegalPeriod(s: State, e: Entry, offset: int, p: Period) {
    && LegalActivation(s, e, offset, p)
    && (Ended(s, e, offset, p).Running? ==> LegalDeactivation(Ended(s, e, offset, p).state, e, p))
  }

  /** From the activation to the end of the deactivation the executions cover the grid; none happens
      until the next activation; the schedule is then parked as at the start. */
  ghost predicate PeriodOnGrid(s: State, e: Entry, offset: int, p: Period)
    requires e.period > 0
  {
    && Activated(s, e, offset, p).Running?
    && var s1 := Activated(s, e, offset, p).state;
    && Run(s1, p.on).Running?
    && var s2 := Run(s1, p.on).state;
    && Deactivated(s2, e, p).Running?
    && var s3 := Deactivated(s2, e, p).state;
    && Run(s3, p.off).Running?
    && var s4 := Run(s3, p.off).state;
    && s.log <= s3.log <= s4.log && Inv(s4) && e in s4.queue
    && CoversGrid(NewTimes(s, s3, e.id), e.period, offset, s1.now, s3.now)
    && NewTimes(s3, s4, e.id) == []
  }

  lemma PeriodEnds(s: State, s1: State, s2: State, e: Entry, offset: int, p: Period)
    requires Inv(s1) && Inv(s2) && s.log <= s2.log && e.time == PARKED && e.period > 0 && e.repeat < 0 && offset >= 0
    requires LegalDeactivation(s2, e, p)
    requires var times := NewTimes(s, s2, e.id);
      && Ticks(times, First(s1, e, offset).time, e.period, s2.now)
      && Later(First(s1, e, offset), |times|) in s2.queue
    ensures Deactivated(s2, e, p).Running?
    ensures var s3 := Deactivated(s2, e, p).state;
      && Run(s3, p.off).Running?
      && var s4 := Run(s3, p.off).state;
      && s.log <= s3.log <= s4.log && Inv(s4) && e in s4.queue
      && CoversGrid(NewTimes(s, s3, e.id), e.period, offset, s1.now, s3.now)
      && NewTimes(s3, s4, e.id) == []
  {
    var times := NewTimes(s, s2, e.id);
    var next := Later(First(s1, e, offset), |times|);
    PhaseIsUniqueDelay(s1.now, e.period, offset, 0);
    MultipleBound(|times|, e.period);
    DeactivatedIsSilent(s2, e, next, p);
    var s3 := Deactivated(s2, e, p).state;
    NewTimesChain(s.log, s2.log, s3.log, e.id);
    TicksUntilOff(times, NewTimes(s2, s3, e.id), s1.now, e.period, offset, s2.now, s3.now, next.time);
  }

  lemma ActivateThenDeactivate(s: State, e: Entry, offset: int, p: Period)
    requires Inv(s) && e in s.queue && e.time == PARKED && e.period > 0 && e.repeat < 0 && offset >= 0
    requires LegalPeriod(s, e, offset, p)
    ensures PeriodOnGrid(s, e, offset, p)
  {
    ActivatedTicks(s, e, offset, p);
    var s1 := Activated(s, e, offset, p).state;
    PeriodEnds(s, s1, Run(s1, p.on).state, e, offset, p);
  }

  /** The activations and deactivations of a whole run, one after the other. */
  predicate LegalPeriods(s: State, e: Entry, offset: int, ps: seq<Period>)
    decreases |ps|
  {
    ps != [] ==>
      && LegalPeriod(s, e, offset, ps[0])
      && (Parked(s, e, offset, ps[0]).Running? ==>
            LegalPeriods(Parked(s, e, offset, ps[0]).state, e, offset, ps[1..]))
  }

  /** The outcome of one period. */
  function Parked(s: State, e: Entry, offset: int, p: Period): Outcome {
    match Ended(s, e, offset, p)
    case Running(s2) =>
      (match Deactivated(s2, e, p)
       case Running(s3) => Run(s3, p.off)
       case o => o)
    case o => o
  }

  ghost predicate OnGridThroughout(s: State, e: Entry, offset: int, ps: seq<Period>)
    requires e.period > 0
    decreases |ps|
  {
    ps != [] ==>
      && PeriodOnGrid(s, e, offset, ps[0])
      && OnGridThroughout(Parked(s, e, offset, ps[0]).state, e, offset, ps[1..])
  }

  /** Over any number of activations and deactivations, each between two steps or inside one, the
      schedule is executed exactly at the points of one and the same time grid, and only while
      activated. */
  lemma {:induction false} StaysOnGrid(s: State, e: Entry, offset: int, ps: seq<Period>)
    requires Inv(s) && e in s.queue && e.time == PARKED && e.period > 0 && e.repeat < 0 && offset >= 0
    requires LegalPeriods(s, e, offset, ps)
    ensures OnGridThroughout(s, e, offset, ps)
    decreases |ps|
  {
    if ps != [] {
      ActivateThenDeactivate(s, e, offset, ps[0]);
      StaysOnGrid(Parked(s, e, offset, ps[0]).state, e, offset, ps[1..]);
    }
  }

  /** Where an activation puts the event in any state: on the grid exactly when the scheduler's copy
      of the time is a whole number of cycles behind. It is not in general in the handlers of a time
      change: the phase is computed from the new time and counted from the old one. */
  lemma ActivationOnGridIff(s: State, id: nat, cycle: int, offset: int)
    requires s.now >= 0 && cycle > 0 && offset >= 0 && s.Lookup(id).Some?
    requires ActivationDelay(s.now, cycle, offset) < DURATION_MAX - s.cached
    ensures var e := Effect(s, SetTime(id, SimulationClock, ActivationDelay(s.now, cycle, offset)));
            && e.Some? && e.value.id == id
            && (e.value.time % cycle == offset % cycle <==> (s.now - s.cached) % cycle == 0)
  {
    var p := Phase(s.now, cycle, offset);
    PhaseIsUniqueDelay(s.now, cycle, offset, 0);
    SameClassIff(s.cached + p, s.now + p, cycle);
  }

  lemma SameClassIff(a: int, b: int, c: int)
    requires c > 0
    ensures a % c == b % c <==> (b - a) % c == 0
  {
    if a % c == b % c {
      SameClass(b, a, c);
      ModShift(0, b / c - a / c, c);
    } else if (b - a) % c == 0 {
      assert b == a + (b - a) / c * c;
      ModShift(a, (b - a) / c, c);
    }
  }

  // ---- the schedule object -----------------------------------------------------------------

  class MetaSchedule {
    const scheduler: Scheduler
    const ep: EntryPoint
    var eventId: int
    var active: bool
    var simulationTime: int
    var simulationTimeChanged: bool
    var cycleTime: int
    var cycleTimeChanged: bool
    var repeat: int
    var repeatChanged: bool

    constructor (scheduler: Scheduler, ep: EntryPoint)
      ensures this.scheduler == scheduler && this.ep == ep && eventId == -1 && active
      ensures simulationTime == 0 && cycleTime == 0 && repeat == 0
      ensures !simulationTimeChanged && !cycleTimeChanged && !repeatChanged
    {
      this.scheduler, this.ep, eventId, active := scheduler, ep, -1, true;
      simulationTime, cycleTime, repeat := 0, 0, 0;
      simulationTimeChanged, cycleTimeChanged, repeatChanged := false, false, false;
    }

    ghost predicate Valid()
      reads this, scheduler, scheduler.objects
    {
      scheduler.Valid() && -1 <= eventId
    }

    method SetSimulationTime(t: int)
      modifies this`simulationTime, this`simulationTimeChanged
      ensures simulationTime == t && (simulationTimeChanged <==> t != old(simulationTime))
    {
      simulationTimeChanged := t != simulationTime;
      simulationTime := t;
    }

    method SetCycleTime(t: int)
      modifies this`cycleTime, this`cycleTimeChanged
      ensures cycleTime == t && (cycleTimeChanged <==> t != old(cycleTime))
    {
      cycleTimeChanged := t != cycleTime;
      cycleTime := t;
    }

    method SetRepeat(n: int)
      modifies this`repeat, this`repeatChanged
      ensures repeat == n && (repeatChanged <==> n != old(repeat))
    {
      repeatChanged := repeat != n;
      repeat := n;
    }

    method AddToScheduler() returns (id: Option<nat>)
      requires Valid()
      modifies scheduler`scheduled, scheduler`nextId, scheduler`objects
      ensures Valid() && scheduler.Value() == Apply(old(scheduler.Value()), Addition())
      ensures id == if scheduler.nextId == old(scheduler.nextId) then None else Some(old(scheduler.nextId))
    {
      id := scheduler.AddEventAt(ep, SimulationClock, if active then simulationTime else -1, cycleTime, repeat);
    }

    /** The event at its offset from now, or parked. */
    function Addition(): Command
      reads this
    {
      AddAt(ep, SimulationClock, if active then simulationTime else -1, cycleTime, repeat)
    }

    /** What a first submission amounts to: an event with the schedule's own entry point, cycle and
        repeats, at its time from now, or parked when that is −1 or the schedule is inactive; it is
        refused past the last time, and with repeats but no cycle. */
    lemma AdditionAdds()
      requires Valid() && WellFormed(scheduler.Value())
      ensures var s := scheduler.Value();
        var s', d := Apply(s, Addition()), if active then simulationTime else -1;
        if (d != -1 && s.cached + d >= DURATION_MAX) || (repeat >= 1 && cycleTime != -1 && cycleTime <= 0)
        then s' == s
        else s'.Lookup(s.nextId) ==
               Some(Entry(s.nextId, ep, if d == -1 then PARKED else s.cached + d, cycleTime, repeat))
    {
      LookupAfterAdd(scheduler.Value(), Addition(), scheduler.Value().nextId);
    }

    /** The first submission adds the event, unless that throws. */
    method SubmitFirst()
      requires Valid() && eventId == -1
      modifies this`eventId, this`simulationTimeChanged, this`cycleTimeChanged, this`repeatChanged
      modifies scheduler`scheduled, scheduler`nextId, scheduler`objects
      ensures Valid() && scheduler.Value() == Apply(old(scheduler.Value()), Addition())
      ensures if scheduler.nextId == old(scheduler.nextId) then unchanged(this)
              else eventId == old(scheduler.nextId)
                   && !simulationTimeChanged && !cycleTimeChanged && !repeatChanged
    {
      var id := AddToScheduler();
      if id.Some? { MarkSubmitted(id.value); }
    }

    method MarkSubmitted(id: nat)
      requires Valid()
      modifies this`eventId, this`simulationTimeChanged, this`cycleTimeChanged, this`repeatChanged
      ensures Valid() && eventId == id
      ensures !simulationTimeChanged && !cycleTimeChanged && !repeatChanged
    {
      eventId := id;
      simulationTimeChanged, cycleTimeChanged, repeatChanged := false, false, false;
    }

    method ForwardTime() returns (thrown: bool)
      requires Valid() && eventId >= 0
      modifies scheduler`scheduled, scheduler`nextId, scheduler.objects`id, scheduler.objects`time
      ensures Valid() && (thrown <==> old(TimeRefused()))
      ensures scheduler.Value() == ApplyAll(old(scheduler.Value()), TimeChange())
      ensures thrown ==> scheduler.Value() == old(scheduler.Value())
    {
      OneOrNone(scheduler.Value(), TimeChange());
      thrown := false;
      if simulationTimeChanged {
        thrown := scheduler.SetEventTime(eventId, SimulationClock, if active then simulationTime else -1);
      }
    }

    method ForwardCycle() returns (thrown: bool)
      requires Valid() && eventId >= 0
      modifies scheduler.objects`period
      ensures Valid() && (thrown <==> CycleRefused())
      ensures scheduler.Value() == ApplyAll(old(scheduler.Value()), CycleChange())
      ensures thrown ==> scheduler.Value() == old(scheduler.Value())
    {
      OneOrNone(scheduler.Value(), CycleChange());
      thrown := false;
      if cycleTimeChanged {
        thrown := scheduler.SetEventCycleTime(eventId, cycleTime);
      }
    }

    method ForwardRepeat()
      requires Valid() && eventId >= 0
      modifies scheduler.objects`repeat
      ensures Valid() && scheduler.Value() == ApplyAll(old(scheduler.Value()), RepeatChange())
    {
      OneOrNone(scheduler.Value(), RepeatChange());
      if repeatChanged {
        scheduler.SetEventRepeat(eventId, repeat);
      }
    }

    method ForwardChanges() returns (thrown: bool)
      requires Valid() && eventId >= 0
      modifies scheduler`scheduled, scheduler`nextId
      modifies scheduler.objects`id, scheduler.objects`time, scheduler.objects`period, scheduler.objects`repeat
      ensures Valid() && (thrown <==> old(TimeRefused()) || CycleRefused())
      ensures scheduler.Value() == ApplyAll(old(scheduler.Value()), old(Forwarded()))
    {
      ghost var v := scheduler.Value();
      thrown := ForwardTime();
      if thrown { return; }
      thrown := ForwardCycle();
      if thrown { return; }
      ForwardRepeat();
      AllForwarded(v, TimeChange(), CycleChange(), RepeatChange());
    }

    /** A later submission forwards what changed, in this order; the first exception ends it, what
        was forwarded before it stays, and the changes stay marked. */
    method SubmitAgain() returns (thrown: bool)
      requires Valid() && eventId >= 0
      modifies this`eventId, this`simulationTimeChanged, this`cycleTimeChanged, this`repeatChanged
      modifies scheduler`scheduled, scheduler`nextId
      modifies scheduler.objects`id, scheduler.objects`time, scheduler.objects`period, scheduler.objects`repeat
      ensures Valid() && eventId == old(eventId) && (thrown <==> old(TimeRefused()) || old(CycleRefused()))
      ensures scheduler.Value() == ApplyAll(old(scheduler.Value()), old(Forwarded()))
      ensures if thrown then unchanged(this)
              else !simulationTimeChanged && !cycleTimeChanged && !repeatChanged
    {
      thrown := ForwardChanges();
      if !thrown { MarkSubmitted(eventId); }
    }

    /** The calls a submission makes before one throws, if one does. */
    ghost function Forwarded(): seq<Command>
      requires Valid() && eventId >= 0
      reads this, scheduler, scheduler.objects
    {
      if TimeRefused() then []
      else if CycleRefused() then TimeChange()
      else TimeChange() + CycleChange() + RepeatChange()
    }

    lemma RefusedIff()
      requires Valid()
      ensures var d := if active then simulationTime else -1;
        TimeRefused() <==> simulationTimeChanged && d != -1 && scheduler.simulationTime + d >= DURATION_MAX
      ensures CycleRefused() <==> cycleTimeChanged && cycleTime != -1 && cycleTime <= 0
    {
    }

    /** What a later submission amounts to: of the event exactly the changed attributes are overwritten
        with those of the schedule, up to the first one that is refused. */
    lemma ForwardedOverwrites()
      requires Valid() && eventId >= 0 && WellFormed(scheduler.Value()) && scheduler.Value().Lookup(eventId).Some?
      ensures ApplyAll(scheduler.Value(), Forwarded()).Lookup(eventId) == Some(Overwritten(scheduler.Value()))
    {
      RefusedIff();
      var s, d := scheduler.Value(), if active then simulationTime else -1;
      AttributesForwarded(s, eventId, simulationTimeChanged, d, cycleTimeChanged, cycleTime, repeatChanged, repeat);
      if TimeRefused() {
        assert ApplyAll(s, Forwarded()) == s;
      } else if CycleRefused() {
        assert Forwarded() == TimeChange();
      } else {
        assert Forwarded() == TimeChange() + CycleChange() + RepeatChange();
      }
    }

    /** The event with the changed attributes. */
    ghost function Overwritten(s: State): Entry
      requires Valid() && eventId >= 0 && s.Lookup(eventId).Some?
      reads this, scheduler, scheduler.objects
    {
      var e, d := s.Lookup(eventId).value, if active then simulationTime else -1;
      var e1 := if simulationTimeChanged then e.(time := if d == -1 then PARKED else s.cached + d) else e;
      if TimeRefused() then e
      else if CycleRefused() then e1
      else e1.(period := if cycleTimeChanged then cycleTime else e.period,
               repeat := if repeatChanged then repeat else e.repeat)
    }

    /** The time asked for is past the last one. */
    ghost predicate TimeRefused()
      requires Valid()
      reads this, scheduler, scheduler.objects
    {
      simulationTimeChanged && AbsoluteTime(scheduler.simulationTime, if active then simulationTime else -1).None?
    }

    ghost predicate CycleRefused()
      reads this
    {
      cycleTimeChanged && InvalidCycle(cycleTime)
    }

    ghost function TimeChange(): seq<Command>
      requires eventId >= 0
      reads this
    {
      if simulationTimeChanged then [SetTime(eventId, SimulationClock, if active then simulationTime else -1)] else []
    }

    ghost function CycleChange(): seq<Command>
      requires eventId >= 0
      reads this
    {
      if cycleTimeChanged then [SetCycle(eventId, cycleTime)] else []
    }

    ghost function RepeatChange(): seq<Command>
      requires eventId >= 0
      reads this
    {
      if repeatChanged then [Command.SetRepeat(eventId, repeat)] else []
    }

    method NextDelay() returns (delay: int)
      ensures delay == ActivationDelay(scheduler.timeKeeper.simTime, cycleTime, simulationTime)
    {
      delay := 0;
      if simulationTime != -1 && cycleTime > 0 {
        delay := Remainder(cycleTime - Remainder(scheduler.timeKeeper.simTime, cycleTime) + simulationTime, cycleTime);
      }
    }

    /** The part both entry points inherit. */
    method Activate()
      modifies this`active
      ensures active
    {
      active := true;
    }

    method Retime(delay: int)
      requires Valid() && eventId >= 0
      modifies scheduler`scheduled, scheduler`nextId, scheduler.objects`id, scheduler.objects`time
      ensures Valid()
      ensures scheduler.Value() == Apply(old(scheduler.Value()), SetTime(eventId, SimulationClock, delay))
    {
      var _ := scheduler.SetEventTime(eventId, SimulationClock, delay);
    }

    method EpActivate()
      requires Valid() && eventId >= 0
      modifies this`active, scheduler`scheduled, scheduler`nextId
      modifies scheduler.objects`id, scheduler.objects`time
      ensures Valid() && active
      ensures scheduler.Value() ==
                Apply(old(scheduler.Value()),
                      SetTime(eventId, SimulationClock,
                              ActivationDelay(scheduler.timeKeeper.simTime, cycleTime, simulationTime)))
    {
      Activate();
      var nextTime := NextDelay();
      Retime(nextTime);
    }

    /** The event is parked; the flag is set, not cleared, as in the source. */
    method EpDeactivate()
      requires Valid() && eventId >= 0
      modifies this`active, scheduler`scheduled, scheduler`nextId
      modifies scheduler.objects`id, scheduler.objects`time
      ensures Valid() && active
      ensures scheduler.Value() == Apply(old(scheduler.Value()), SetTime(eventId, SimulationClock, -1))
    {
      Activate();
      Retime(-1);
    }
  }

  /** One attribute of an event, forwarded if it changed. */
  lemma TimeForwarded(s: State, id: nat, changed: bool, d: int)
    requires WellFormed(s) && s.Lookup(id).Some?
    ensures var s' := ApplyAll(s, if changed then [SetTime(id, SimulationClock, d)] else []);
      && WellFormed(s')
      && s'.Lookup(id) == if changed && Accepted(s, d) then Some(s.Lookup(id).value.(time := TimeAfter(s, d)))
                          else s.Lookup(id)
  {
    var cs := if changed then [SetTime(id, SimulationClock, d)] else [];
    ApplyAllKeepsForm(s, cs);
    OneOrNone(s, cs);
    LookupAfterSetTime(s, id, SimulationClock, d, id);
  }

  lemma CycleForwarded(s: State, id: nat, changed: bool, cycle: int)
    requires WellFormed(s) && s.Lookup(id).Some?
    ensures var s' := ApplyAll(s, if changed then [SetCycle(id, cycle)] else []);
      && WellFormed(s')
      && s'.Lookup(id) == if changed && (cycle == -1 || cycle >= 1) then Some(s.Lookup(id).value.(period := cycle))
                          else s.Lookup(id)
  {
    var cs := if changed then [SetCycle(id, cycle)] else [];
    ApplyAllKeepsForm(s, cs);
    OneOrNone(s, cs);
    LookupAfterSetCycle(s, id, cycle, id);
  }

  lemma RepeatForwarded(s: State, id: nat, changed: bool, repeat: int)
    requires WellFormed(s) && s.Lookup(id).Some?
    ensures var s' := ApplyAll(s, if changed then [SetRepeat(id, repeat)] else []);
      && WellFormed(s')
      && s'.Lookup(id) == if changed then Some(s.Lookup(id).value.(repeat := repeat)) else s.Lookup(id)
  {
    var cs := if changed then [SetRepeat(id, repeat)] else [];
    ApplyAllKeepsForm(s, cs);
    OneOrNone(s, cs);
    LookupAfterSetRepeat(s, id, repeat, id);
  }

  lemma AttributesForwarded(s: State, id: nat, timeChanged: bool, d: int, cycleChanged: bool, cycle: int,
                            repeatChanged: bool, repeat: int)
    requires WellFormed(s) && s.Lookup(id).Some?
    ensures var t := if timeChanged then [SetTime(id, SimulationClock, d)] else [];
      var c := if cycleChanged then [SetCycle(id, cycle)] else [];
      var r := if repeatChanged then [SetRepeat(id, repeat)] else [];
      var e := s.Lookup(id).value;
      var e1 := if timeChanged && Accepted(s, d) then e.(time := TimeAfter(s, d)) else e;
      var e2 := if cycleChanged && (cycle == -1 || cycle >= 1) then e1.(period := cycle) else e1;
      && ApplyAll(s, t).Lookup(id) == Some(e1)
      && ApplyAll(s, t + c + r).Lookup(id) == Some(if repeatChanged then e2.(repeat := repeat) else e2)
  {
    var t := if timeChanged then [SetTime(id, SimulationClock, d)] else [];
    var c := if cycleChanged then [SetCycle(id, cycle)] else [];
    var r := if repeatChanged then [SetRepeat(id, repeat)] else [];
    TimeForwarded(s, id, timeChanged, d);
    CycleForwarded(ApplyAll(s, t), id, cycleChanged, cycle);
    RepeatForwarded(ApplyAll(ApplyAll(s, t), c), id, repeatChanged, repeat);
    AllForwarded(s, t, c, r);
  }

  lemma ApplyAllKeepsForm(s: State, cs: seq<Command>)
    requires WellFormed(s) && |cs| <= 1
    ensures WellFormed(ApplyAll(s, cs))
  {
    OneOrNone(s, cs);
    if cs != [] { ApplyEffect(s, cs[0]); }
  }

  lemma AllForwarded(s: State, a: seq<Command>, b: seq<Command>, c: seq<Command>)
    ensures ApplyAll(s, a + b + c) == ApplyAll(ApplyAll(ApplyAll(s, a), b), c)
  {
    ApplyAllConcat(s, a, b);
    ApplyAllConcat(s, a + b, c);
  }

  lemma OneOrNone(s: State, cs: seq<Command>)
    requires |cs| <= 1
    ensures ApplyAll(s, cs) == if cs == [] then s else Apply(s, cs[0])
  {
  }
}
