/** `Simulator::Hold`: what still runs before the stop, and when the stop runs. */
module KernelHold {
  import opened Options
  import opened ScheduleQueue
  import opened Kernel
  import opened KernelInvariant
  import opened KernelRuns
  import opened KernelActivation
  import opened KernelInside
  import opened KernelTheorems

  // ---- immediate events -------------------------------------------------------------------

  /** Every immediate event registered before `bound` is one of `ids`. */
  ghost predicate ImmediatesIn(q: seq<Entry>, bound: nat, ids: set<nat>) {
    forall x :: x in q && x.time == IMMEDIATE && x.id < bound ==> x.id in ids
  }

  lemma SameTimeWritten(s: State, c: Command)
    requires WellFormed(s) && (c.SetCycle? || c.SetRepeat?) && Effect(s, c).Some?
    ensures exists y :: y in s.queue && y.id == Effect(s, c).value.id && y.time == Effect(s, c).value.time
  {
    assert Find(s.queue, c.id).value in s.queue;
  }

  /** A legal call makes no earlier registered event immediate. */
  lemma CallKeepsImmediates(s: State, floor: int, c: Command, bound: nat, ids: set<nat>)
    requires WellFormed(s) && Legal(s, floor, c) && bound <= s.nextId
    requires ImmediatesIn(s.queue, bound, ids)
    ensures ImmediatesIn(Apply(s, c).queue, bound, ids)
  {
    ApplyEffect(s, c);
    if (c.SetCycle? || c.SetRepeat?) && Effect(s, c).Some? { SameTimeWritten(s, c); }
  }

  lemma {:induction false} CallsKeepImmediates(s: State, floor: int, cs: seq<Command>, bound: nat, ids: set<nat>)
    requires Good(s, floor) && LegalAll(s, floor, cs) && bound <= s.nextId
    requires ImmediatesIn(s.queue, bound, ids)
    ensures ImmediatesIn(ApplyAll(s, cs).queue, bound, ids)
    decreases |cs|
  {
    if cs != [] {
      CallKeepsImmediates(s, floor, cs[0], bound, ids);
      ApplyEffect(s, cs[0]);
      CallKeepsGoodIff(s, floor, cs[0]);
      CallsKeepImmediates(Apply(s, cs[0]), floor, cs[1..], bound, ids);
    }
  }

  lemma RearmKeepsImmediates(r: State, bound: nat, ids: set<nat>)
    requires Good(r, r.now) && r.cached == r.now && r.current.None? && Pops(r)
    requires ImmediatesIn(r.queue, bound, ids)
    ensures r.queue != [] && ImmediatesIn(Rearm(Take(r)).queue, bound, ids - {r.queue[0].id})
  {
    TakeGood(r);
    RearmGood(Take(r));
  }

  lemma ExecuteKeepsImmediates(k: State, body: seq<Command>, completed: bool, bound: nat, ids: set<nat>)
    requires Good(k, k.now) && k.cached == k.now && k.current.Some? && bound <= k.nextId
    requires LegalAll(Started(k), k.now, body) && ImmediatesIn(k.queue, bound, ids)
    ensures ImmediatesIn(ParkAperiodic(Execute(k, body), completed).queue, bound, ids)
  {
    CallsKeepImmediates(Started(k), k.now, body, bound, ids);
    ExecuteGood(k, body);
    ParkGood(Execute(k, body), completed);
  }

  lemma FiringKeepsImmediates(r: State, calls: Calls, bound: nat, ids: set<nat>)
    requires Good(r, r.now) && r.cached == r.now && r.current.None? && Pops(r)
    requires r.queue != [] && LegalFiring(r, calls) && bound <= r.nextId
    requires ImmediatesIn(r.queue, bound, ids)
    ensures ImmediatesIn(ApplyAll(Fire(Take(r), calls.body), calls.after).queue, bound, ids - {r.queue[0].id})
  {
    RearmKeepsImmediates(r, bound, ids);
    var ids := ids - {r.queue[0].id};
    RearmTakenGood(r, calls);
    ExecuteKeepsImmediates(Rearm(Take(r)), calls.body, r.queue[0].repeat == 0, bound, ids);
    FireGood(r, calls);
    CallsKeepImmediates(Fire(Take(r), calls.body), r.now, calls.after, bound, ids);
  }

  /** An immediate event is queued. */
  ghost predicate Waiting(s: State, x: Entry, ids: set<nat>) {
    && Inv(s) && s.running && x in s.queue && x.time == IMMEDIATE && ImmediatesIn(s.queue, x.id, ids)
  }

  /** A stop request is queued as an immediate event. */
  ghost predicate Stopping(s: State, stop: Entry, ids: set<nat>) {
    Waiting(s, stop, ids) && s.executing && stop.ep == Stop
  }

  lemma WaitingHead(s: State, x: Entry, ids: set<nat>)
    requires Good(s, s.now) && x in s.queue && x.time == IMMEDIATE
    requires ImmediatesIn(s.queue, x.id, ids)
    ensures s.queue != [] && s.queue[0].time == IMMEDIATE && s.NextTime() == s.cached
    ensures s.queue[0] == x || s.queue[0].id in ids
  {
  }

  lemma BeforeWhileWaiting(s: State, calls: Calls, x: Entry, ids: set<nat>)
    requires Waiting(s, x, ids) && LegalStep(s, calls) && Undisturbed(calls, x.id)
    ensures !Exhausted(s)
    ensures var b := ApplyAll(s, calls.before);
            && Good(b, b.now) && b.cached == b.now == s.now && x.id < b.nextId
            && x in b.queue && ImmediatesIn(b.queue, x.id, ids)
            && b.NextTime() == b.now
  {
    WaitingHead(s, x, ids);
    StaysPut(s, x.id, calls.before);
    ApplyAllGood(s, s.now, calls.before);
    CallsKeepImmediates(s, s.now, calls.before, x.id, ids);
    WaitingHead(ApplyAll(s, calls.before), x, ids);
  }

  lemma ReadyWhileWaiting(s: State, calls: Calls, x: Entry, ids: set<nat>)
    requires Waiting(s, x, ids) && LegalStep(s, calls) && Undisturbed(calls, x.id)
    ensures !Exhausted(s) && Ready(s, calls).Some?
    ensures var r := Ready(s, calls).value;
            && r.now == s.now && x in r.queue && ImmediatesIn(r.queue, x.id, ids)
  {
    BeforeWhileWaiting(s, calls, x, ids);
    var b := ApplyAll(s, calls.before);
    ReadyLeaves(s, calls, x.id);
    ReadyGood(s, calls);
    var r := Ready(s, calls).value;
    assert r.queue == ApplyAll(b, calls.post).queue && r.now == ApplyAll(b, calls.post).now;
    CallsKeepImmediates(b, b.now, calls.post, x.id, ids);
    ApplyAllGood(b, b.now, calls.post);
  }

  /** An immediate event is queued when a step picks its entry: it is executed, or an earlier
      registered immediate event is, and it is then still queued. */
  lemma FiringWhileWaiting(s: State, calls: Calls, x: Entry, ids: set<nat>)
    requires Inv(s) && LegalStep(s, calls) && s.running && !Exhausted(s)
    requires Ready(s, calls).Some?
    requires var r := Ready(s, calls).value;
      && x in r.queue && x.time == IMMEDIATE && x.id < r.nextId && ImmediatesIn(r.queue, x.id, ids)
    requires Leaves(calls.body, x.id) && Leaves(calls.after, x.id)
    ensures Step(s, calls).Running? && Fired(s, calls).Some?
    ensures var s' := Step(s, calls).state;
      var h := Fired(s, calls).value;
      && s'.now == Ready(s, calls).value.now && Inv(s')
      && (h != x ==> h.id in ids && h.id != x.id && (s'.running ==> Waiting(s', x, ids - {h.id})))
  {
    StepKeepsInvariant(s, calls);
    ReadyGood(s, calls);
    var r := Ready(s, calls).value;
    WaitingHead(r, x, ids);
    TakeGood(r);
    FiringGood(r, calls);
    FiringKeepsImmediates(r, calls, x.id, ids);
    if r.queue[0] != x { FiringLeavesOthers(r, calls, x.id); }
  }

  lemma StepWhileWaiting(s: State, calls: Calls, x: Entry, ids: set<nat>)
    requires Waiting(s, x, ids) && LegalStep(s, calls) && Undisturbed(calls, x.id)
    ensures Step(s, calls).Running? && Fired(s, calls).Some?
    ensures var s' := Step(s, calls).state;
            var h := Fired(s, calls).value;
            && s'.now == s.now && Inv(s')
            && (h != x ==> h.id in ids && h.id != x.id && (s'.running ==> Waiting(s', x, ids - {h.id})))
  {
    ReadyWhileWaiting(s, calls, x, ids);
    ReadyGood(s, calls);
    FiringWhileWaiting(s, calls, x, ids);
  }

  lemma FiringWhileStopping(s: State, calls: Calls, stop: Entry, ids: set<nat>)
    requires Inv(s) && LegalStep(s, calls) && s.running && s.executing && !Exhausted(s)
    requires Ready(s, calls).Some?
    requires var r := Ready(s, calls).value;
      && stop in r.queue && stop.time == IMMEDIATE && stop.ep == Stop && stop.id < r.nextId
      && ImmediatesIn(r.queue, stop.id, ids)
    requires Leaves(calls.body, stop.id) && Leaves(calls.after, stop.id)
    ensures Step(s, calls).Running? && Fired(s, calls).Some?
    ensures var s' := Step(s, calls).state;
      var h := Fired(s, calls).value;
      && s'.now == Ready(s, calls).value.now && Inv(s')
      && if h == stop then !s'.running && !s'.executing
         else h.id in ids && h.id != stop.id && (h.ep.Stop? || Stopping(s', stop, ids - {h.id}))
              && (h.ep.Stop? ==> !s'.running)
  {
    FiringWhileWaiting(s, calls, stop, ids);
    StepStopsIff(s, calls);
  }

  /** The stop, or an earlier registered immediate event, is executed; time stands still. */
  lemma StepWhileStopping(s: State, calls: Calls, stop: Entry, ids: set<nat>)
    requires Stopping(s, stop, ids) && LegalStep(s, calls) && Undisturbed(calls, stop.id)
    ensures Step(s, calls).Running? && Fired(s, calls).Some?
    ensures var s' := Step(s, calls).state;
            var h := Fired(s, calls).value;
            && s'.now == s.now && Inv(s')
            && if h == stop then !s'.running && !s'.executing
               else h.id in ids && h.id != stop.id && (h.ep.Stop? || Stopping(s', stop, ids - {h.id}))
                    && (h.ep.Stop? ==> !s'.running)
  {
    StepWhileWaiting(s, calls, stop, ids);
    StepStopsIff(s, calls);
  }

  ghost predicate FiredFrom(log: seq<Firing>, from: nat, ids: set<nat>, stopId: nat, now: int) {
    && from <= |log|
    && forall i :: from <= i < |log| ==>
         log[i].time == now && (log[i].id in ids || (log[i].id == stopId && i == |log| - 1))
  }

  lemma FiredBefore(a: seq<Firing>, b: seq<Firing>, c: seq<Firing>, ids: set<nat>, stopId: nat, now: int)
    requires a <= b <= c && |b| == |a| + 1 && b[|a|].time == now && b[|a|].id in ids
    requires FiredFrom(c, |b|, ids - {b[|a|].id}, stopId, now)
    ensures a <= c && FiredFrom(c, |a|, ids, stopId, now)
  {
    assert c[|a|] == b[|a|];
  }

  lemma {:induction false} RunWhileStopping(s: State, ins: seq<Calls>, stop: Entry, ids: set<nat>)
    requires Stopping(s, stop, ids) && LegalRun(s, ins) && UndisturbedRun(ins, stop.id)
    ensures Run(s, ins).Running?
    ensures var s' := Run(s, ins).state;
            && s.log <= s'.log && s'.now == s.now
            && FiredFrom(s'.log, |s.log|, ids, stop.id, s.now)
            && (s'.running ==> |s'.log| == |s.log| + |ins| && |ins| <= |ids|)
    decreases |ins|
  {
    if ins != [] {
      assert Undisturbed(ins[0], stop.id);
      StepWhileStopping(s, ins[0], stop, ids);
      StepLogsFired(s, ins[0]);
      StepKeepsInvariant(s, ins[0]);
      var m := Step(s, ins[0]).state;
      var h := Fired(s, ins[0]).value;
      assert m.log[|s.log|].id == h.id;
      if m.running {
        assert UndisturbedRun(ins[1..], stop.id);
        RunWhileStopping(m, ins[1..], stop, ids - {h.id});
        FiredBefore(s.log, m.log, Run(s, ins).state.log, ids, stop.id, s.now);
      } else {
        StoppedRun(m, ins[1..]);
      }
    }
  }

  function QueuedIds(q: seq<Entry>): set<nat> {
    set x | x in q && x.time == IMMEDIATE :: x.id
  }

  /** `Hold(true)`: until the simulation stops, every step executes an event that was already
      queued as immediate, and then the stop; simulation time does not move, and the simulation
      has stopped after one step more than there were such events. */
  lemma HoldImmediately(s: State, ins: seq<Calls>)
    requires Inv(s) && s.running && s.executing
    requires LegalRun(Apply(s, Hold(true)), ins) && UndisturbedRun(ins, s.nextId)
    ensures var s1 := Apply(s, Hold(true));
            && Run(s1, ins).Running?
            && var s' := Run(s1, ins).state;
            && s'.now == s.now && s.log <= s'.log
            && FiredFrom(s'.log, |s.log|, QueuedIds(s.queue), s.nextId, s.now)
            && (s'.running ==> |s'.log| == |s.log| + |ins| && |ins| <= |QueuedIds(s.queue)|)
  {
    ApplyEffect(s, Hold(true));
    CallKeepsGoodIff(s, s.now, Hold(true));
    var stop := Entry(s.nextId, Stop, IMMEDIATE, 0, 0);
    RunWhileStopping(Apply(s, Hold(true)), ins, stop, QueuedIds(s.queue));
  }

  // ---- Hold(true) from inside a step -------------------------------------------------------

  lemma ImmediatesToTheEnd(s: State, w: Site, c: Command, bound: nat, ids: set<nat>)
    requires Inv(s) && LegalStep(s, w.calls) && Fired(s, w.calls).Some? && Calling(w, c)
    requires var k := CallState(s, w); bound <= k.nextId && ImmediatesIn(k.queue, bound, ids)
    ensures Step(s, w.calls).Running? && ImmediatesIn(Step(s, w.calls).state.queue, bound, ids)
  {
    StepEnds(s, w.calls);
    CallStateGood(s, w, c);
    var k, begin := CallState(s, w), Begins(s, w);
    if w.place.InBody? { BodyBegins(s, w); } else { AfterBegins(s, w); }
    SplitAt(begin, begin.now, w.a, c, w.b);
    CallKeepsImmediates(k, k.now, c, bound, ids);
    ApplyEffect(k, c);
    CallKeepsGoodIff(k, k.now, c);
    CallsKeepImmediates(Apply(k, c), k.now, w.b, bound, ids);
    if w.place.InBody? {
      ApplyAllGood(Apply(k, c), k.now, w.b);
      ImmediatesAfterBody(s, w, bound, ids);
    }
  }

  lemma ImmediatesAfterBody(s: State, w: Site, bound: nat, ids: set<nat>)
    requires Inv(s) && LegalStep(s, w.calls) && Fired(s, w.calls).Some? && w.place.InBody?
    requires var k := ApplyAll(Begins(s, w), w.calls.body); bound <= k.nextId && ImmediatesIn(k.queue, bound, ids)
    ensures ImmediatesIn(ApplyAll(Fire(Take(Ready(s, w.calls).value), w.calls.body), w.calls.after).queue, bound, ids)
  {
    ReadyGood(s, w.calls);
    var r := Ready(s, w.calls).value;
    TakeGood(r);
    RearmTakenGood(r, w.calls);
    ExecuteGood(Rearm(Take(r)), w.calls.body);
    ParkGood(Execute(Rearm(Take(r)), w.calls.body), r.queue[0].repeat == 0);
    FireGood(r, w.calls);
    CallsKeepImmediates(Fire(Take(r), w.calls.body), r.now, w.calls.after, bound, ids);
  }

  lemma ImmediatesAreQueued(q: seq<Entry>, bound: nat)
    ensures ImmediatesIn(q, bound, QueuedIds(q))
  {
  }

  /** `Hold(true)` called by an entry point or by a handler that runs after it: from the end of that
      step on, every step executes an event that was immediate when the call was made, and then the
      stop; simulation time does not move. */
  lemma HoldImmediatelyInside(s: State, w: Site, rest: seq<Calls>)
    requires Inv(s) && LegalStep(s, w.calls) && Fired(s, w.calls).Some? && Calling(w, Hold(true))
    requires s.executing && !Fired(s, w.calls).value.ep.Stop?
    requires var stop := CallState(s, w).nextId;
      && LeftAlone(w, stop) && UndisturbedRun(rest, stop)
      && (Step(s, w.calls).Running? ==> LegalRun(Step(s, w.calls).state, rest))
    ensures Step(s, w.calls).Running?
    ensures var k, s1 := CallState(s, w), Step(s, w.calls).state;
      && Run(s1, rest).Running?
      && var s2 := Run(s1, rest).state;
      && s2.now == s1.now == k.now && s1.log <= s2.log
      && FiredFrom(s2.log, |s1.log|, QueuedIds(k.queue), k.nextId, s1.now)
      && (s2.running ==> |s2.log| == |s1.log| + |rest| && |rest| <= |QueuedIds(k.queue)|)
  {
    var k := CallState(s, w);
    StopQueuedInside(s, w, true);
    ImmediatesAreQueued(k.queue, k.nextId);
    ImmediatesToTheEnd(s, w, Hold(true), k.nextId, QueuedIds(k.queue));
    StillRunning(s, w.calls);
    RunWhileStopping(Step(s, w.calls).state, rest, Entry(k.nextId, Stop, IMMEDIATE, 0, 0), QueuedIds(k.queue));
  }

  lemma StillRunning(s: State, calls: Calls)
    requires Inv(s) && LegalStep(s, calls) && Fired(s, calls).Some? && s.executing
    requires !Fired(s, calls).value.ep.Stop?
    ensures Step(s, calls).Running? && Step(s, calls).state.running && Step(s, calls).state.executing
  {
    StepEnds(s, calls);
    ReadyGood(s, calls);
    TakeGood(Ready(s, calls).value);
    FiringGood(Ready(s, calls).value, calls);
  }

  // ---- Hold(true) from a handler of the time change ----------------------------------------

  /** The state in which a handler of SMP_PostSimTimeChange makes its call. */
  function HandlerState(s: State, calls: Calls, a: seq<Command>): State {
    ApplyAll(Moved(ApplyAll(s, calls.before), calls.pre), a)
  }

  lemma HandlerGood(s: State, calls: Calls, a: seq<Command>, c: Command, b: seq<Command>)
    requires Inv(s) && LegalStep(s, calls) && s.running && !Exhausted(s) && calls.post == a + [c] + b
    ensures Ready(s, calls).Some?
    ensures var k, r := HandlerState(s, calls, a), Ready(s, calls).value;
      && k.now == r.now && Good(k, r.now) && Legal(k, r.now, c) && LegalAll(Apply(k, c), r.now, b)
      && r.queue == ApplyAll(Apply(k, c), b).queue && r.nextId == ApplyAll(Apply(k, c), b).nextId
      && k.executing == s.executing && r.executing == s.executing
  {
    MovedGood(s, calls);
    var m := Moved(ApplyAll(s, calls.before), calls.pre);
    ApplyAllGood(m, m.now, calls.post);
    SplitAt(m, m.now, a, c, b);
    ApplyAllGood(m, m.now, a);
  }

  /** The stop is queued, and no further immediate event comes before it, when the step picks its entry. */
  lemma StopQueuedByHandler(s: State, calls: Calls, a: seq<Command>, b: seq<Command>)
    requires Inv(s) && LegalStep(s, calls) && s.running && s.executing && !Exhausted(s)
    requires calls.post == a + [Hold(true)] + b && Leaves(b, HandlerState(s, calls, a).nextId)
    ensures Ready(s, calls).Some?
    ensures var k, r := HandlerState(s, calls, a), Ready(s, calls).value;
      && r.executing && k.nextId < r.nextId && Entry(k.nextId, Stop, IMMEDIATE, 0, 0) in r.queue
      && ImmediatesIn(r.queue, k.nextId, QueuedIds(k.queue))
  {
    HandlerGood(s, calls, a, Hold(true), b);
    var k, r := HandlerState(s, calls, a), Ready(s, calls).value;
    ImmediatesAreQueued(k.queue, k.nextId);
    CallKeepsImmediates(k, r.now, Hold(true), k.nextId, QueuedIds(k.queue));
    ApplyEffect(k, Hold(true));
    CallKeepsGoodIff(k, r.now, Hold(true));
    var k1 := Apply(k, Hold(true));
    CallsKeepImmediates(k1, r.now, b, k.nextId, QueuedIds(k.queue));
    StaysPut(k1, k.nextId, b);
    ApplyAllGood(k1, r.now, b);
  }

  /** `Hold(true)` called by a handler of the time change: time stays at the time just reached, this
      step and the next ones execute events that were immediate when the call was made, and then
      the stop. */
  lemma HoldImmediatelyByHandler(s: State, calls: Calls, a: seq<Command>, b: seq<Command>, rest: seq<Calls>)
    requires Inv(s) && LegalStep(s, calls) && s.running && s.executing && !Exhausted(s)
    requires calls.post == a + [Hold(true)] + b
    requires var stop := HandlerState(s, calls, a).nextId;
      && Leaves(b, stop) && Leaves(calls.body, stop) && Leaves(calls.after, stop) && UndisturbedRun(rest, stop)
      && (Step(s, calls).Running? ==> LegalRun(Step(s, calls).state, rest))
    ensures Step(s, calls).Running?
    ensures var k, s1 := HandlerState(s, calls, a), Step(s, calls).state;
      && Run(s1, rest).Running?
      && var s2 := Run(s1, rest).state;
      && s2.now == s1.now == k.now && s.log <= s2.log
      && FiredFrom(s2.log, |s.log|, QueuedIds(k.queue), k.nextId, s1.now)
      && (s2.running ==> |s2.log| == |s.log| + 1 + |rest| && 1 + |rest| <= |QueuedIds(k.queue)|)
  {
    StopQueuedByHandler(s, calls, a, b);
    HandlerGood(s, calls, a, Hold(true), b);
    var k := HandlerState(s, calls, a);
    StepThenRun(s, calls, rest, Entry(k.nextId, Stop, IMMEDIATE, 0, 0), QueuedIds(k.queue));
  }

  lemma StepThenRun(s: State, calls: Calls, rest: seq<Calls>, stop: Entry, ids: set<nat>)
    requires Inv(s) && LegalStep(s, calls) && s.running && s.executing && !Exhausted(s) && Ready(s, calls).Some?
    requires var r := Ready(s, calls).value;
      && stop in r.queue && stop.time == IMMEDIATE && stop.ep == Stop && stop.id < r.nextId
      && ImmediatesIn(r.queue, stop.id, ids)
    requires Leaves(calls.body, stop.id) && Leaves(calls.after, stop.id) && UndisturbedRun(rest, stop.id)
    requires Step(s, calls).Running? ==> LegalRun(Step(s, calls).state, rest)
    ensures Step(s, calls).Running?
    ensures var s1 := Step(s, calls).state;
      && Run(s1, rest).Running? && s1.now == Ready(s, calls).value.now
      && var s2 := Run(s1, rest).state;
      && s2.now == s1.now && s.log <= s2.log && FiredFrom(s2.log, |s.log|, ids, stop.id, s1.now)
      && (s2.running ==> |s2.log| == |s.log| + 1 + |rest| && 1 + |rest| <= |ids|)
  {
    FiringWhileStopping(s, calls, stop, ids);
    StepLogsFired(s, calls);
    StepKeepsInvariant(s, calls);
    var s1 := Step(s, calls).state;
    var h := Fired(s, calls).value;
    assert s1.log[|s.log|].id == h.id;
    if s1.running {
      RunWhileStopping(s1, rest, stop, ids - {h.id});
      FiredBefore(s.log, s1.log, Run(s1, rest).state.log, ids, stop.id, s1.now);
    } else {
      StoppedRun(s1, rest);
    }
  }

  // ---- the delayed stop ------------------------------------------------------------------

  /** Exactly when `Hold(false)` queues its stop, in any state: one more tick must be left. */
  lemma HoldDelayedIff(s: State)
    requires WellFormed(s) && s.executing
    ensures Entry(s.nextId, Stop, s.cached + 1, 0, 0) in Apply(s, Hold(false)).queue <==> s.cached + 1 < DURATION_MAX
  {
    ApplyEffect(s, Hold(false));
  }

  lemma StopStep(s: State, calls: Calls, stop: Entry)
    requires Inv(s) && LegalStep(s, calls) && Fired(s, calls) == Some(stop) && stop.ep == Stop
    ensures Step(s, calls).Running?
    ensures var m := Step(s, calls).state;
            !m.running && !m.executing && m.log != [] && m.log[|m.log| - 1].id == stop.id
  {
    StepKeepsInvariant(s, calls);
    StepLogsFired(s, calls);
    ReadyGood(s, calls);
    FiringGood(Ready(s, calls).value, calls);
  }

  lemma {:induction false} StopEndsRun(s: State, ins: seq<Calls>, stop: Entry)
    requires Inv(s) && LegalRun(s, ins) && UndisturbedRun(ins, stop.id)
    requires stop in s.queue && stop.ep == Stop && stop.time >= 0 && stop.repeat == 0
    ensures Run(s, ins).Running?
    ensures var s' := Run(s, ins).state;
            && s.log <= s'.log && Inv(s')
            && if NewTimes(s, s', stop.id) == [] then stop in s'.queue && s'.now <= stop.time
               else NewTimes(s, s', stop.id) == [stop.time] && !s'.running && !s'.executing
                    && s'.now == stop.time && s'.log[|s'.log| - 1].id == stop.id
    decreases |ins|
  {
    RunKeepsInvariant(s, ins);
    if ins == [] {
      assert s.log[|s.log|..] == [];
    } else {
      assert Undisturbed(ins[0], stop.id);
      NewTimesSplit(s, ins, stop.id);
      UndisturbedStep(s, ins[0], stop);
      StepKeepsInvariant(s, ins[0]);
      StepLogsFired(s, ins[0]);
      var m := Step(s, ins[0]).state;
      if FiredTime(s, ins[0], stop.id) == [] {
        assert UndisturbedRun(ins[1..], stop.id);
        StopEndsRun(m, ins[1..], stop);
      } else {
        StopFires(s, ins, stop);
      }
    }
  }

  lemma StopFires(s: State, ins: seq<Calls>, stop: Entry)
    requires Inv(s) && LegalRun(s, ins) && UndisturbedRun(ins, stop.id) && ins != []
    requires stop in s.queue && stop.ep == Stop && stop.time >= 0 && stop.repeat == 0
    requires FiredTime(s, ins[0], stop.id) != []
    ensures Run(s, ins).Running?
    ensures var s' := Run(s, ins).state;
            && s.log <= s'.log && Inv(s')
            && NewTimes(s, s', stop.id) == [stop.time] && !s'.running && !s'.executing
            && s'.now == stop.time && s'.log[|s'.log| - 1].id == stop.id
  {
    RunKeepsInvariant(s, ins);
    assert Undisturbed(ins[0], stop.id);
    NewTimesSplit(s, ins, stop.id);
    UndisturbedStep(s, ins[0], stop);
    StepKeepsInvariant(s, ins[0]);
    StepLogsFired(s, ins[0]);
    StopStep(s, ins[0], stop);
    var m := Step(s, ins[0]).state;
    StoppedRun(m, ins[1..]);
    assert m.log[|m.log|..] == [];
  }

  /** Whenever the stop has been executed, so has every event that was queued before it at any
      point of the run: immediate ones, and those at the time of the call, whenever they were added.
      `m` is that point; nobody addresses the event from there on. */
  lemma EverythingRunsBeforeStop(s: State, first: seq<Calls>, rest: seq<Calls>, stop: Entry, x: Entry)
    requires Inv(s) && LegalRun(s, first) && UndisturbedRun(first, stop.id) && UndisturbedRun(rest, stop.id)
    requires stop in s.queue && stop.ep == Stop && stop.time >= 0 && stop.repeat == 0
    requires Run(s, first).Running? ==>
      var m := Run(s, first).state;
      && LegalRun(m, rest) && UndisturbedRun(rest, x.id)
      && x in m.queue && x.time != PARKED && x.time < stop.time
      && s.log <= m.log && NewTimes(s, m, stop.id) == []
    ensures Run(s, first).Running?
    ensures var m := Run(s, first).state;
      && Run(m, rest).Running?
      && var s' := Run(m, rest).state;
      && s.log <= m.log <= s'.log
      && (NewTimes(s, s', stop.id) != [] ==> NewTimes(m, s', x.id) != [])
  {
    StopEndsRun(s, first, stop);
    var m := Run(s, first).state;
    RunKeepsInvariant(m, rest);
    LesserRunsFirst(m, rest, x, stop);
    NewTimesChain(s.log, m.log, Run(m, rest).state.log, stop.id);
  }

  /** `Hold(false)` at time T: the stop is executed at T + 1, nothing is executed after it, and
      until then it stays queued and time does not pass T + 1. */
  lemma HoldAfterNow(s: State, ins: seq<Calls>)
    requires Inv(s) && s.executing && s.now + 1 < DURATION_MAX
    requires LegalRun(Apply(s, Hold(false)), ins) && UndisturbedRun(ins, s.nextId)
    ensures var s1 := Apply(s, Hold(false));
            && Run(s1, ins).Running?
            && var s' := Run(s1, ins).state;
            && s1.log <= s'.log
            && if NewTimes(s1, s', s.nextId) == []
               then Entry(s.nextId, Stop, s.now + 1, 0, 0) in s'.queue && s'.now <= s.now + 1
               else NewTimes(s1, s', s.nextId) == [s.now + 1] && !s'.running && !s'.executing
                    && s'.now == s.now + 1 && s'.log[|s'.log| - 1].id == s.nextId
  {
    ApplyEffect(s, Hold(false));
    CallKeepsGoodIff(s, s.now, Hold(false));
    StopEndsRun(Apply(s, Hold(false)), ins, Entry(s.nextId, Stop, s.now + 1, 0, 0));
  }

  /** The same for `Hold(false)` called inside a step that has reached time T. */
  lemma HoldAfterNowInside(s: State, w: Site, rest: seq<Calls>)
    requires Inv(s) && LegalStep(s, w.calls) && Fired(s, w.calls).Some? && Calling(w, Hold(false))
    requires s.executing && !Fired(s, w.calls).value.ep.Stop?
    requires var k := CallState(s, w);
      && k.now + 1 < DURATION_MAX
      && LeftAlone(w, k.nextId)
      && UndisturbedRun(rest, k.nextId) && (Step(s, w.calls).Running? ==> LegalRun(Step(s, w.calls).state, rest))
    ensures Step(s, w.calls).Running?
    ensures var k, s1 := CallState(s, w), Step(s, w.calls).state;
      && s1.now == k.now && Entry(k.nextId, Stop, k.now + 1, 0, 0) in s1.queue
      && Run(s1, rest).Running?
      && var s2 := Run(s1, rest).state;
      && s1.log <= s2.log
      && if NewTimes(s1, s2, k.nextId) == []
         then Entry(k.nextId, Stop, k.now + 1, 0, 0) in s2.queue && s2.now <= k.now + 1
         else NewTimes(s1, s2, k.nextId) == [k.now + 1] && !s2.running && !s2.executing
              && s2.now == k.now + 1 && s2.log[|s2.log| - 1].id == k.nextId
  {
    var k := CallState(s, w);
    StopQueuedInside(s, w, false);
    StopEndsRun(Step(s, w.calls).state, rest, Entry(k.nextId, Stop, k.now + 1, 0, 0));
  }
}
