/** What each call does to the events and the clocks, stated without the functions that compute it; and
    what becomes of an event that changes its own cycle while it runs. */
module KernelCalls {
  import opened Options
  import opened ScheduleQueue
  import opened Kernel
  import opened KernelInvariant
  import opened KernelRuns
  import opened KernelActivation
  import opened KernelInside

  // ---- events by identifier ----------------------------------------------------------------

  lemma {:induction false} FindAfterReplace(q: seq<Entry>, e: Entry, id: nat)
    ensures Find(Replace(q, e), id) == if id == e.id && Queued(q, id) then Some(e) else Find(q, id)
    decreases |q|
  {
    if q != [] {
      assert Replace(q, e)[1..] == Replace(q[1..], e);
      FindAfterReplace(q[1..], e, id);
      assert Queued(q, id) <==> q[0].id == id || Queued(q[1..], id) by {
        assert q == [q[0]] + q[1..];
      }
    }
  }

  /** The delay is accepted: it parks, or leads to a time before the last one. */
  predicate Accepted(s: State, delay: int) { delay == -1 || s.cached + delay < DURATION_MAX }

  function TimeAfter(s: State, delay: int): int { if delay == -1 then PARKED else s.cached + delay }

  lemma RetimeLookup(s: State, e: Entry, time: int, other: nat)
    requires WellFormed(s) && s.Lookup(e.id) == Some(e)
    ensures var s', e' := s.Retime(e, time), e.(time := time);
      && s'.ScheduleAgain(e') == s' && Queued(s'.queue, e.id)
      && s'.Lookup(other) == if other == e.id then Some(e') else s.Lookup(other)
  {
    var e' := e.(time := time);
    ReinsertTwice(s.queue, e');
    FindAfterReinsert(s.queue, e', other);
    ReinsertMembers(s.queue, e');
    assert e' in Reinsert(s.queue, e');
  }

  lemma OverwriteLookup(s: State, e: Entry, e': Entry, other: nat)
    requires WellFormed(s) && s.Lookup(e.id) == Some(e) && e'.id == e.id
    ensures var s' := s.Overwrite(e');
      && (Queued(s'.queue, e.id) <==> Queued(s.queue, e.id))
      && s'.Lookup(other) == if other == e.id then Some(e') else s.Lookup(other)
  {
    FindAfterReplace(s.queue, e', other);
    FindAfterReplace(s.queue, e', e.id);
  }

  lemma LookupHasId(s: State, id: nat)
    ensures s.Lookup(id).Some? ==> s.Lookup(id).value.id == id
  {
  }

  lemma SetTimeIs(s: State, id: nat, clock: Clock, t: int)
    ensures var d, found := Delay(s, clock, t), s.Lookup(id);
      Apply(s, SetTime(id, clock, t)) ==
        if Accepted(s, d) && found.Some?
        then s.Retime(found.value, TimeAfter(s, d)).ScheduleAgain(found.value.(time := TimeAfter(s, d)))
        else s
  {
  }

  lemma SetCycleIs(s: State, id: nat, cycle: int)
    ensures Apply(s, SetCycle(id, cycle)) ==
      if (cycle == -1 || cycle >= 1) && s.Lookup(id).Some?
      then s.Overwrite(s.Lookup(id).value.(period := cycle)) else s
  {
  }

  lemma SetRepeatIs(s: State, id: nat, repeat: int)
    ensures Apply(s, SetRepeat(id, repeat)) ==
      if s.Lookup(id).Some? then s.Overwrite(s.Lookup(id).value.(repeat := repeat)) else s
  {
  }

  lemma AddLookup(s: State, e: Entry, other: nat)
    requires WellFormed(s) && e.id == s.nextId
    ensures var s' := s.Add(e.ep, e.time, e.period, e.repeat);
      && s'.nextId == s.nextId + 1
      && s'.Lookup(other) == if other == s.nextId then Some(e) else s.Lookup(other)
  {
    FindAfterReinsert(s.queue, e, other);
  }

  lemma AddAtIs(s: State, c: Command)
    requires c.AddAt?
    ensures var d := Delay(s, c.clock, c.t);
      var fits := c.clock == SimulationClock && c.repeat >= 1 ==> c.cycle == -1 || c.cycle >= 1;
      Apply(s, c) == if Accepted(s, d) && fits then s.Add(c.ep, TimeAfter(s, d), c.cycle, c.repeat) else s
  {
  }

  /** A re-timing overwrites the time of the event it names, running or queued, and of no other;
      it is refused past the last time and ignored for an unknown event. */
  lemma LookupAfterSetTime(s: State, id: nat, clock: Clock, t: int, other: nat)
    requires WellFormed(s)
    ensures var s', d := Apply(s, SetTime(id, clock, t)), Delay(s, clock, t);
      if Accepted(s, d) && s.Lookup(id).Some? && other == id
      then s'.Lookup(id) == Some(s.Lookup(id).value.(time := TimeAfter(s, d))) && Queued(s'.queue, id)
      else s'.Lookup(other) == s.Lookup(other)
  {
    var d := Delay(s, clock, t);
    SetTimeIs(s, id, clock, t);
    LookupHasId(s, id);
    if Accepted(s, d) && s.Lookup(id).Some? {
      RetimeLookup(s, s.Lookup(id).value, TimeAfter(s, d), other);
    }
  }

  /** A change of cycle overwrites the period of that event only; it is refused for 0 and below −1. */
  lemma LookupAfterSetCycle(s: State, id: nat, cycle: int, other: nat)
    requires WellFormed(s)
    ensures var s' := Apply(s, SetCycle(id, cycle));
      if (cycle == -1 || cycle >= 1) && s.Lookup(id).Some? && other == id
      then s'.Lookup(id) == Some(s.Lookup(id).value.(period := cycle))
           && (Queued(s'.queue, id) <==> Queued(s.queue, id))
      else s'.Lookup(other) == s.Lookup(other)
  {
    SetCycleIs(s, id, cycle);
    LookupHasId(s, id);
    if s.Lookup(id).Some? {
      OverwriteLookup(s, s.Lookup(id).value, s.Lookup(id).value.(period := cycle), other);
    }
  }

  lemma LookupAfterSetRepeat(s: State, id: nat, repeat: int, other: nat)
    requires WellFormed(s)
    ensures var s' := Apply(s, SetRepeat(id, repeat));
      if s.Lookup(id).Some? && other == id
      then s'.Lookup(id) == Some(s.Lookup(id).value.(repeat := repeat))
           && (Queued(s'.queue, id) <==> Queued(s.queue, id))
      else s'.Lookup(other) == s.Lookup(other)
  {
    SetRepeatIs(s, id, repeat);
    LookupHasId(s, id);
    if s.Lookup(id).Some? {
      OverwriteLookup(s, s.Lookup(id).value, s.Lookup(id).value.(repeat := repeat), other);
    }
  }

  /** An added event is found under the identifier that was next; one for a simulation time is refused
      with repeats and without a cycle, and any past the last time. */
  lemma LookupAfterAdd(s: State, c: Command, other: nat)
    requires WellFormed(s) && c.AddAt?
    ensures var s', d := Apply(s, c), Delay(s, c.clock, c.t);
      var fits := c.clock == SimulationClock && c.repeat >= 1 ==> c.cycle == -1 || c.cycle >= 1;
      if Accepted(s, d) && fits
      then s'.nextId == s.nextId + 1
           && s'.Lookup(other) == if other == s.nextId
                                  then Some(Entry(s.nextId, c.ep, TimeAfter(s, d), c.cycle, c.repeat))
                                  else s.Lookup(other)
      else s' == s
  {
    AddAtIs(s, c);
    AddLookup(s, Entry(s.nextId, c.ep, TimeAfter(s, Delay(s, c.clock, c.t)), c.cycle, c.repeat), other);
  }

  /** Holding adds the stop; outside the executing state it is ignored. */
  lemma LookupAfterHold(s: State, immediate: bool, other: nat)
    requires WellFormed(s)
    ensures var s' := Apply(s, Hold(immediate));
      if s.executing && (immediate || s.cached + 1 < DURATION_MAX)
      then s'.nextId == s.nextId + 1
           && s'.Lookup(other) == if other == s.nextId
                                  then Some(Entry(s.nextId, Stop, if immediate then IMMEDIATE else s.cached + 1, 0, 0))
                                  else s.Lookup(other)
      else s' == s
  {
    AddLookup(s, Entry(s.nextId, Stop, if immediate then IMMEDIATE else s.cached + 1, 0, 0), other);
  }

  lemma LookupAfterAddImmediate(s: State, ep: EntryPoint, other: nat)
    requires WellFormed(s)
    ensures var s' := Apply(s, AddImmediate(ep));
      && s'.nextId == s.nextId + 1
      && s'.Lookup(other) == if other == s.nextId then Some(Entry(s.nextId, ep, IMMEDIATE, 0, 0)) else s.Lookup(other)
  {
    AddLookup(s, Entry(s.nextId, ep, IMMEDIATE, 0, 0), other);
  }

  // ---- the clocks --------------------------------------------------------------------------

  /** Mission time counts from the mission start, epoch time runs on whatever becomes of it; a set
      clock shows what was set. */
  lemma ClocksAfterCalls(s: State, t: int)
    ensures var e := Apply(s, SetEpochTime(t));
      e.Epoch() == t && e.Mission() - s.Mission() == t - s.Epoch() && e.now == s.now
    ensures var m := Apply(s, SetMissionTime(t)); m.Mission() == t && m.Epoch() == s.Epoch() && m.now == s.now
    ensures var b := Apply(s, SetMissionStart(t));
      b.Mission() == s.Epoch() - t && b.Epoch() == s.Epoch() && b.now == s.now
    ensures Apply(s, SetMissionStart(s.Epoch())).Mission() == 0
  {
  }

  // ---- an event that changes its own cycle while it runs -----------------------------------

  /** What is left of the event: the next activation was set before it ran, from the old period; the
      new one decides only whether it is parked. */
  function AfterOwnCycle(h: Entry, cycle: int): Option<Entry> {
    if h.repeat == 0 then None
    else if cycle == -1 then Some(CountDown(h).(time := PARKED, period := -1))
    else if h.period > 0 then Some(CountDown(h).(time := Following(h), period := cycle))
    else None
  }

  lemma RearmedEntry(r: State, calls: Calls)
    requires Good(r, r.now) && r.cached == r.now && r.current.None? && Pops(r)
    requires r.queue != [] && LegalFiring(r, calls)
    ensures var k, h := Started(Rearm(Take(r))), r.queue[0];
      && WellFormed(k) && k.current.Some? && k.current.value.id == h.id
      && k.current.value ==
           (if h.repeat != 0 && h.period > 0 then CountDown(h).(time := Following(h)) else CountDown(h))
      && (Queued(k.queue, h.id) <==> h.repeat != 0 && h.period > 0)
  {
    TakeGood(r);
    RearmGood(Take(r));
    if r.queue[0].repeat != 0 && r.queue[0].period > 0 {
      assert CountDown(r.queue[0]).(time := Following(r.queue[0])) in Rearm(Take(r)).queue;
    }
  }

  lemma QueuedLeft(q: seq<Entry>, q': seq<Entry>, id: nat)
    requires SameEntry(q, q', id)
    ensures Queued(q, id) <==> Queued(q', id)
  {
    if Queued(q, id) { var x :| x in q && x.id == id; assert x in q'; }
    if Queued(q', id) { var x :| x in q' && x.id == id; assert x in q; }
  }

  lemma OwnCycleInBody(k: State, id: nat, a: seq<Command>, cycle: int, b: seq<Command>)
    requires WellFormed(k) && k.IsCurrent(id) && Leaves(a, id) && Leaves(b, id) && (cycle == -1 || cycle >= 1)
    ensures var x := ApplyAll(k, a + [SetCycle(id, cycle)] + b);
      && WellFormed(x) && x.current == Some(k.current.value.(period := cycle))
      && (Queued(x.queue, id) <==> Queued(k.queue, id))
  {
    var c := SetCycle(id, cycle);
    ApplyAllConcat(k, a + [c], b);
    ApplyAllConcat(k, a, [c]);
    assert [c][1..] == [];
    var k1 := ApplyAll(k, a);
    StaysPut(k, id, a);
    ApplyAllWellFormed(k, a);
    QueuedLeft(k.queue, k1.queue, id);
    LookupAfterSetCycle(k1, id, cycle, id);
    ApplyEffect(k1, c);
    var k2 := Apply(k1, c);
    StaysPut(k2, id, b);
    QueuedLeft(k2.queue, ApplyAll(k2, b).queue, id);
  }

  lemma ParkedOrLost(x: State, h: Entry, cycle: int)
    requires Good(x, x.now) && x.cached == x.now && (cycle == -1 || cycle >= 1)
    requires x.current == Some((if h.repeat != 0 && h.period > 0
                                then CountDown(h).(time := Following(h)) else CountDown(h)).(period := cycle))
    requires Queued(x.queue, h.id) <==> h.repeat != 0 && h.period > 0
    requires h.time != PARKED
    ensures Holds(ParkAperiodic(x, h.repeat == 0).queue, h.id, AfterOwnCycle(h, cycle))
  {
    ParkGood(x, h.repeat == 0);
  }

  /** An event that gives itself another cycle while it runs: with −1 it is parked; if it was periodic
      it runs once more at the time set before, and then with the new cycle; but an event that was not
      periodic and asks for a cycle is lost, whatever repeats it had left. */
  lemma OwnCycleChange(s: State, calls: Calls, a: seq<Command>, cycle: int, b: seq<Command>)
    requires Inv(s) && LegalStep(s, calls) && Fired(s, calls).Some? && (cycle == -1 || cycle >= 1)
    requires calls.body == a + [SetCycle(Fired(s, calls).value.id, cycle)] + b
    requires var id := Fired(s, calls).value.id; Leaves(a, id) && Leaves(b, id) && Leaves(calls.after, id)
    ensures Step(s, calls).Running?
    ensures var h := Fired(s, calls).value; Holds(Step(s, calls).state.queue, h.id, AfterOwnCycle(h, cycle))
  {
    StepEnds(s, calls);
    ReadyGood(s, calls);
    var r := Ready(s, calls).value;
    var h, k := r.queue[0], Rearm(Take(r));
    TakeGood(r);
    RearmedEntry(r, calls);
    RearmTakenGood(r, calls);
    OwnCycleInBody(Started(k), h.id, a, cycle, b);
    ExecuteGood(k, calls.body);
    ParkedOrLost(Execute(k, calls.body), h, cycle);
    FireGood(r, calls);
    var f := Fire(Take(r), calls.body);
    StaysPut(f, h.id, calls.after);
    QueuedLeft(f.queue, ApplyAll(f, calls.after).queue, h.id);
  }
}
