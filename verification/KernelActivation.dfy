/** Exact activations over whole runs: what happens to an event that no call addresses. */
module KernelActivation {
  import opened Options
  import opened ScheduleQueue
  import opened Kernel
  import opened KernelInvariant
  import opened KernelRuns

  predicate LegalRun(s: State, ins: seq<Calls>)
    decreases |ins|
  {
    ins != [] ==>
      LegalStep(s, ins[0]) &&
      (Step(s, ins[0]).Running? ==> LegalRun(Step(s, ins[0]).state, ins[1..]))
  }

  ghost predicate Chronological(log: seq<Firing>, from: nat, low: int, high: int) {
    && from <= |log|
    && (forall i :: from <= i < |log| ==> low <= log[i].time <= high)
    && (forall i, j :: from <= i < j < |log| ==> log[i].time <= log[j].time)
  }

  lemma ChronologicalChain(a: seq<Firing>, b: seq<Firing>, c: seq<Firing>, t0: int, t1: int, t2: int)
    requires a <= b <= c && t0 <= t1 <= t2
    requires Chronological(b, |a|, t0, t1) && Chronological(c, |b|, t1, t2)
    ensures a <= c && Chronological(c, |a|, t0, t2)
  {
  }

  /** Over every legal run nothing is thrown, nothing dangles, the invariant holds at the end,
      and the firings are appended in chronological order between the two current times. */
  lemma {:induction false} RunKeepsInvariant(s: State, ins: seq<Calls>)
    requires Inv(s) && LegalRun(s, ins)
    ensures Run(s, ins).Running?
    ensures var s' := Run(s, ins).state;
            && Inv(s') && s.now <= s'.now && s.nextId <= s'.nextId
            && s.log <= s'.log && Chronological(s'.log, |s.log|, s.now, s'.now)
    decreases |ins|
  {
    if ins != [] {
      StepKeepsInvariant(s, ins[0]);
      var m := Step(s, ins[0]).state;
      RunKeepsInvariant(m, ins[1..]);
      ChronologicalChain(s.log, m.log, Run(m, ins[1..]).state.log, s.now, m.now, Run(m, ins[1..]).state.now);
    }
  }

  // ---- an event nobody addresses ------------------------------------------------------------

  predicate Undisturbed(calls: Calls, id: nat) {
    Leaves(calls.before, id) && Leaves(calls.pre, id) && Leaves(calls.post, id)
    && Leaves(calls.body, id) && Leaves(calls.after, id)
  }

  /** Nothing that is called before the step picks its entry addresses the event. */
  predicate LeavesBefore(calls: Calls, id: nat) {
    Leaves(calls.before, id) && Leaves(calls.pre, id) && Leaves(calls.post, id)
  }

  predicate UndisturbedRun(ins: seq<Calls>, id: nat) {
    forall i :: 0 <= i < |ins| ==> Undisturbed(ins[i], id)
  }

  /** What one execution leaves of an event; None when it leaves the queue for good. */
  function Successor(e: Entry): Option<Entry> {
    if e.repeat == 0 then None
    else if e.period > 0 then Some(CountDown(e).(time := Following(e)))
    else if e.period == -1 then Some(CountDown(e).(time := PARKED))
    else None
  }

  ghost predicate Holds(q: seq<Entry>, id: nat, o: Option<Entry>) {
    match o
    case None => !Queued(q, id)
    case Some(x) => x in q && x.id == id
  }

  lemma ReadyLeaves(s: State, calls: Calls, id: nat)
    requires Inv(s) && s.running && !Exhausted(s) && LegalStep(s, calls)
    requires id < s.nextId && LeavesBefore(calls, id)
    ensures Ready(s, calls).Some? && SameEntry(s.queue, Ready(s, calls).value.queue, id)
  {
    MovedGood(s, calls);
    StaysPut(s, id, calls.before);
    var b := ApplyAll(s, calls.before);
    if b.NextTime() > b.now {
      StaysPut(b, id, calls.pre);
    }
    StaysPut(Moved(b, calls.pre), id, calls.post);
  }

  lemma FiringLeavesOthers(r: State, calls: Calls, id: nat)
    requires Good(r, r.now) && r.cached == r.now && r.current.None? && Pops(r)
    requires r.queue != [] && LegalFiring(r, calls)
    requires id < r.nextId && Leaves(calls.body, id) && Leaves(calls.after, id) && r.queue[0].id != id
    ensures SameEntry(r.queue, ApplyAll(Fire(Take(r), calls.body), calls.after).queue, id)
  {
    TakeGood(r);
    RearmGood(Take(r));
    RearmTakenGood(r, calls);
    var k := Rearm(Take(r));
    StaysPut(Started(k), id, calls.body);
    ExecuteGood(k, calls.body);
    ParkGood(Execute(k, calls.body), r.queue[0].repeat == 0);
    FireGood(r, calls);
    StaysPut(Fire(Take(r), calls.body), id, calls.after);
  }

  lemma FireLeavesSuccessor(r: State, calls: Calls)
    requires Good(r, r.now) && r.cached == r.now && r.current.None? && Pops(r)
    requires r.queue != [] && LegalFiring(r, calls)
    requires Undisturbed(calls, r.queue[0].id)
    ensures Holds(Fire(Take(r), calls.body).queue, r.queue[0].id, Successor(r.queue[0]))
  {
    var e := r.queue[0];
    TakeGood(r);
    RearmGood(Take(r));
    RearmTakenGood(r, calls);
    var k := Rearm(Take(r));
    StaysPut(Started(k), e.id, calls.body);
    ExecuteGood(k, calls.body);
    var x := Execute(k, calls.body);
    assert x.current == k.current && SameEntry(k.queue, x.queue, e.id);
    ParkGood(x, e.repeat == 0);
  }

  lemma FiringLeavesSuccessor(r: State, calls: Calls)
    requires Good(r, r.now) && r.cached == r.now && r.current.None? && Pops(r)
    requires r.queue != [] && LegalFiring(r, calls)
    requires Undisturbed(calls, r.queue[0].id)
    ensures Holds(ApplyAll(Fire(Take(r), calls.body), calls.after).queue, r.queue[0].id, Successor(r.queue[0]))
  {
    var id := r.queue[0].id;
    FireLeavesSuccessor(r, calls);
    FireGood(r, calls);
    assert r.queue[0] in r.queue;
    StaysPut(Fire(Take(r), calls.body), id, calls.after);
  }

  // ---- firings of one event ----------------------------------------------------------------------

  function TimesOf(log: seq<Firing>, id: nat): seq<int> {
    if log == [] then []
    else TimesOf(log[..|log| - 1], id) + if log[|log| - 1].id == id then [log[|log| - 1].time] else []
  }

  /** The times at which the event was executed between two states of a run. */
  function NewTimes(s: State, s': State, id: nat): seq<int>
    requires |s.log| <= |s'.log|
  {
    TimesOf(s'.log[|s.log|..], id)
  }

  /** The entry a step executes, if it executes one. */
  function Fired(s: State, calls: Calls): Option<Entry> {
    if !s.running || Exhausted(s) then None
    else
      match Ready(s, calls)
      case None => None
      case Some(r) => if Pops(r) && r.queue != [] then Some(r.queue[0]) else None
  }

  /** A step logs exactly the entry it executes, at the new current time, and that entry was
      due then. */
  lemma StepLogsFired(s: State, calls: Calls)
    requires Inv(s) && LegalStep(s, calls)
    ensures Step(s, calls).Running?
    ensures var s' := Step(s, calls).state;
            match Fired(s, calls)
            case None => s'.log == s.log
            case Some(h) =>
              && s'.log == Started(Take(Ready(s, calls).value)).log
              && s.log == Ready(s, calls).value.log && s'.now == Ready(s, calls).value.now
              && (h.time == IMMEDIATE || h.time == s'.now)
  {
    StepKeepsInvariant(s, calls);
    if s.running && !Exhausted(s) {
      ReadyGood(s, calls);
      var r := Ready(s, calls).value;
      if Pops(r) {
        TakeGood(r);
        FiringGood(r, calls);
      }
    } else if s.running {
      ApplyEffect(s, Hold(true));
    }
  }

  /** What is recorded: the identifier and entry point taken from the queue, and the three clocks. */
  lemma StepRecords(s: State, calls: Calls)
    requires Inv(s) && LegalStep(s, calls) && Fired(s, calls).Some?
    ensures Step(s, calls).Running?
    ensures var h, r, s' := Fired(s, calls).value, Ready(s, calls).value, Step(s, calls).state;
            s'.log == s.log + [Firing(h.id, h.ep, s'.now, r.epochOffset + s'.now,
                                      r.epochOffset + s'.now - r.missionStart)]
  {
    StepLogsFired(s, calls);
  }

  /** Only the stop entry point ends the run, and it always does: no other step changes whether the
      simulation runs or is executing. */
  lemma StepStopsIff(s: State, calls: Calls)
    requires Inv(s) && LegalStep(s, calls) && s.running
    ensures Step(s, calls).Running?
    ensures var s' := Step(s, calls).state;
            && (!s'.running <==> Fired(s, calls).Some? && Fired(s, calls).value.ep == Stop)
            && s'.executing == (s'.running && s.executing)
  {
    StepKeepsInvariant(s, calls);
    if !Exhausted(s) {
      ReadyGood(s, calls);
      var r := Ready(s, calls).value;
      if Pops(r) {
        TakeGood(r);
        FiringGood(r, calls);
      }
    } else {
      ApplyEffect(s, Hold(true));
    }
  }

  /** One legal step and an event nobody addresses: it stays as it is, or it is executed and
      replaced by its successor. */
  lemma UndisturbedStep(s: State, calls: Calls, e: Entry)
    requires Inv(s) && LegalStep(s, calls) && e in s.queue && Undisturbed(calls, e.id)
    ensures Step(s, calls).Running?
    ensures var s' := Step(s, calls).state;
            if Fired(s, calls).Some? && Fired(s, calls).value.id == e.id
            then Fired(s, calls) == Some(e) && Holds(s'.queue, e.id, Successor(e))
            else e in s'.queue
  {
    StepKeepsInvariant(s, calls);
    if s.running && !Exhausted(s) {
      ReadyLeaves(s, calls, e.id);
      ReadyGood(s, calls);
      var r := Ready(s, calls).value;
      if Pops(r) {
        TakeGood(r);
        if r.queue[0].id == e.id {
          FiringLeavesSuccessor(r, calls);
        } else {
          FiringLeavesOthers(r, calls, e.id);
        }
      }
    } else if s.running {
      CallLeavesEntry(s, e.id, Hold(true));
    }
  }

  /** An identifier that is not queued and not addressed stays out and is not executed. */
  lemma AbsentStep(s: State, calls: Calls, id: nat)
    requires Inv(s) && LegalStep(s, calls) && id < s.nextId && !Queued(s.queue, id) && Undisturbed(calls, id)
    ensures Step(s, calls).Running? && !Queued(Step(s, calls).state.queue, id)
    ensures Fired(s, calls).Some? ==> Fired(s, calls).value.id != id
  {
    StepKeepsInvariant(s, calls);
    if s.running && !Exhausted(s) {
      ReadyLeaves(s, calls, id);
      ReadyGood(s, calls);
      var r := Ready(s, calls).value;
      if Pops(r) {
        TakeGood(r);
        FiringLeavesOthers(r, calls, id);
      }
    } else if s.running {
      CallLeavesEntry(s, id, Hold(true));
    }
  }

  function FiredTime(s: State, calls: Calls, id: nat): seq<int> {
    match Fired(s, calls)
    case Some(h) => if h.id == id && Step(s, calls).Running? then [Step(s, calls).state.now] else []
    case None => []
  }

  lemma {:induction false} TimesOfConcat(a: seq<Firing>, b: seq<Firing>, id: nat)
    ensures TimesOf(a + b, id) == TimesOf(a, id) + TimesOf(b, id)
    decreases |b|
  {
    if b == [] {
      assert a + b == a;
    } else {
      assert (a + b)[..|a + b| - 1] == a + b[..|b| - 1];
      TimesOfConcat(a, b[..|b| - 1], id);
    }
  }

  lemma NewTimesChain(a: seq<Firing>, b: seq<Firing>, c: seq<Firing>, id: nat)
    requires a <= b <= c
    ensures TimesOf(c[|a|..], id) == TimesOf(b[|a|..], id) + TimesOf(c[|b|..], id)
  {
    assert c[|a|..] == b[|a|..] + c[|b|..];
    TimesOfConcat(b[|a|..], c[|b|..], id);
  }

  lemma StepTimes(s: State, calls: Calls, id: nat)
    requires Inv(s) && LegalStep(s, calls)
    ensures Step(s, calls).Running? && s.log <= Step(s, calls).state.log
    ensures NewTimes(s, Step(s, calls).state, id) == FiredTime(s, calls, id)
  {
    StepKeepsInvariant(s, calls);
    StepLogsFired(s, calls);
    var m := Step(s, calls).state;
    var first := m.log[|s.log|..];
    if Fired(s, calls).Some? {
      var r := Ready(s, calls).value;
      var f := Started(Take(r)).log[|r.log|];
      assert f.id == Fired(s, calls).value.id && f.time == m.now;
      assert first == [f] && first[..|first| - 1] == [];
      assert TimesOf([], id) == [];
    } else {
      assert first == [];
    }
  }

  /** The executions of a run are those of its first step followed by those of the rest. */
  lemma NewTimesSplit(s: State, ins: seq<Calls>, id: nat)
    requires Inv(s) && LegalRun(s, ins) && ins != []
    ensures Step(s, ins[0]).Running? && Run(s, ins).Running?
    ensures var m := Step(s, ins[0]).state;
            var s' := Run(s, ins).state;
            && Inv(m) && LegalRun(m, ins[1..]) && Run(m, ins[1..]) == Run(s, ins)
            && s.nextId <= m.nextId && s.log <= m.log <= s'.log
            && NewTimes(s, s', id) == FiredTime(s, ins[0], id) + NewTimes(m, s', id)
  {
    StepKeepsInvariant(s, ins[0]);
    var m := Step(s, ins[0]).state;
    RunKeepsInvariant(m, ins[1..]);
    StepTimes(s, ins[0], id);
    NewTimesChain(s.log, m.log, Run(s, ins).state.log, id);
  }

  function Fate(o: Option<Entry>, j: nat): Option<Entry>
    decreases j
  {
    if j == 0 || o.None? then o else Fate(Successor(o.value), j - 1)
  }

  /** The recorded times are those of the event and its successors; the queue holds the next one. */
  ghost predicate Follows(o: Option<Entry>, times: seq<int>, q: seq<Entry>, id: nat) {
    && Holds(q, id, Fate(o, |times|))
    && forall i :: 0 <= i < |times| ==> Fate(o, i).Some? && Fate(o, i).value.time == times[i] >= 0
  }

  lemma FollowsCons(e: Entry, t: int, times: seq<int>, q: seq<Entry>)
    requires e.time == t >= 0 && Follows(Successor(e), times, q, e.id)
    ensures Follows(Some(e), [t] + times, q, e.id)
  {
  }

  lemma UndisturbedFate(s: State, calls: Calls, id: nat, o: Option<Entry>)
    requires Inv(s) && LegalStep(s, calls) && Undisturbed(calls, id)
    requires id < s.nextId && Holds(s.queue, id, o) && (o.Some? ==> o.value.time != IMMEDIATE)
    ensures Step(s, calls).Running?
    ensures var m := Step(s, calls).state;
            if FiredTime(s, calls, id) == [] then Holds(m.queue, id, o)
            else o.Some? && FiredTime(s, calls, id) == [o.value.time] && o.value.time >= 0
                 && Holds(m.queue, id, Successor(o.value))
  {
    StepKeepsInvariant(s, calls);
    if o.None? {
      AbsentStep(s, calls, id);
    } else {
      UndisturbedStep(s, calls, o.value);
      StepLogsFired(s, calls);
    }
  }

  lemma SuccessorNotImmediate(e: Entry)
    requires e.time >= 0 && Successor(e).Some?
    ensures Successor(e).value.time >= PARKED && Successor(e).value.id == e.id
  {
  }

  /** Over a whole legal run, an event nobody addresses goes through its successors one by one,
      each executed at its own time; what is left in the queue is the next one. */
  lemma {:induction false} RunFollowsFate(s: State, ins: seq<Calls>, id: nat, o: Option<Entry>)
    requires Inv(s) && LegalRun(s, ins) && UndisturbedRun(ins, id)
    requires id < s.nextId && Holds(s.queue, id, o) && (o.Some? ==> o.value.time != IMMEDIATE)
    ensures Run(s, ins).Running?
    ensures var s' := Run(s, ins).state;
            s.log <= s'.log && Follows(o, NewTimes(s, s', id), s'.queue, id)
    decreases |ins|
  {
    RunKeepsInvariant(s, ins);
    if ins == [] {
      assert s.log[|s.log|..] == [];
    } else {
      NewTimesSplit(s, ins, id);
      var m := Step(s, ins[0]).state;
      var rest := NewTimes(m, Run(s, ins).state, id);
      assert UndisturbedRun(ins[1..], id) && Undisturbed(ins[0], id);
      UndisturbedFate(s, ins[0], id, o);
      if FiredTime(s, ins[0], id) == [] {
        RunFollowsFate(m, ins[1..], id, o);
        assert [] + rest == rest;
      } else {
        if Successor(o.value).Some? { SuccessorNotImmediate(o.value); }
        RunFollowsFate(m, ins[1..], id, Successor(o.value));
        FollowsCons(o.value, o.value.time, rest, Run(s, ins).state.queue);
      }
    }
  }
}
