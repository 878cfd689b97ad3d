/** Immediate events run now, once, and before everything that has a time; with them, how a run starts
    and how it ends when nothing is left to do. */
module KernelImmediate {
  import opened Options
  import opened ScheduleQueue
  import opened Kernel
  import opened KernelInvariant
  import opened KernelRuns
  import opened KernelActivation
  import opened KernelInside
  import opened KernelTheorems
  import opened KernelHold

  /** The executions from `from` on, at one time, of events among `ids`. */
  ghost predicate Ahead(log: seq<Firing>, from: nat, to: nat, ids: set<nat>, now: int) {
    from <= to <= |log| && forall i :: from <= i < to ==> log[i].id in ids && log[i].time == now
  }

  /** What has become of a one-shot immediate event: it still waits, and only events ahead of it were
      executed; or it was executed, once, behind such events only, at that time. */
  ghost predicate RunsNow(s: State, s': State, x: Entry, ids: set<nat>, steps: nat)
    requires s.log <= s'.log
  {
    if NewTimes(s, s', x.id) == [] then
      && x in s'.queue && s'.now == s.now && Ahead(s'.log, |s.log|, |s'.log|, ids, s.now)
      && (s'.running ==> steps == |s'.log| - |s.log| <= |ids|)
    else
      && NewTimes(s, s', x.id) == [s.now] && !Queued(s'.queue, x.id)
      && exists i: nat ::
           Ahead(s'.log, |s.log|, i, ids, s.now) && i < |s'.log| && s'.log[i].id == x.id && s'.log[i].ep == x.ep
  }

  lemma OnceOnly(s: State, ins: seq<Calls>, id: nat)
    requires Inv(s) && LegalRun(s, ins) && UndisturbedRun(ins, id) && id < s.nextId && !Queued(s.queue, id)
    ensures Run(s, ins).Running?
    ensures var s' := Run(s, ins).state; s.log <= s'.log && NewTimes(s, s', id) == [] && !Queued(s'.queue, id)
  {
    RunFollowsFate(s, ins, id, None);
    FollowsHead(None, NewTimes(s, Run(s, ins).state, id), Run(s, ins).state.queue, id);
  }

  lemma AheadOne(a: seq<Firing>, b: seq<Firing>, c: seq<Firing>, to: nat, ids: set<nat>, now: int)
    requires a <= b <= c && |b| == |a| + 1 && b[|a|].time == now && b[|a|].id in ids
    requires Ahead(c, |b|, to, ids - {b[|a|].id}, now)
    ensures Ahead(c, |a|, to, ids, now)
  {
    assert c[|a|] == b[|a|];
  }

  lemma StepRunsNow(s: State, calls: Calls, x: Entry, ids: set<nat>)
    requires Waiting(s, x, ids) && x.repeat == 0 && LegalStep(s, calls) && Undisturbed(calls, x.id)
    ensures Step(s, calls).Running? && Fired(s, calls).Some?
    ensures var m, h := Step(s, calls).state, Fired(s, calls).value;
      && Inv(m) && m.now == s.now && s.log <= m.log && |m.log| == |s.log| + 1
      && m.log[|s.log|].id == h.id && m.log[|s.log|].time == s.now
      && if h.id == x.id
         then h == x && m.log[|s.log|].ep == x.ep && !Queued(m.queue, x.id) && FiredTime(s, calls, x.id) == [s.now]
         else h.id in ids && x in m.queue && FiredTime(s, calls, x.id) == []
              && (m.running ==> Waiting(m, x, ids - {h.id}))
  {
    StepWhileWaiting(s, calls, x, ids);
    StepRecords(s, calls);
    UndisturbedStep(s, calls, x);
  }

  /** Over every legal run. */
  lemma {:induction false} ImmediateRunsNow(s: State, ins: seq<Calls>, x: Entry, ids: set<nat>)
    requires Waiting(s, x, ids) && x.repeat == 0 && LegalRun(s, ins) && UndisturbedRun(ins, x.id)
    ensures Run(s, ins).Running?
    ensures s.log <= Run(s, ins).state.log && RunsNow(s, Run(s, ins).state, x, ids, |ins|)
    decreases |ins|
  {
    RunKeepsInvariant(s, ins);
    if ins == [] {
      assert s.log[|s.log|..] == [];
    } else {
      assert Undisturbed(ins[0], x.id) && UndisturbedRun(ins[1..], x.id);
      StepRunsNow(s, ins[0], x, ids);
      NewTimesSplit(s, ins, x.id);
      var m, h, s' := Step(s, ins[0]).state, Fired(s, ins[0]).value, Run(s, ins).state;
      if h.id == x.id {
        OnceOnly(m, ins[1..], x.id);
        assert s'.log[|s.log|] == m.log[|s.log|] && Ahead(s'.log, |s.log|, |s.log|, ids, s.now);
      } else if m.running {
        ImmediateRunsNow(m, ins[1..], x, ids - {h.id});
        StepThenRunsNow(s, m, s', x, ids, h.id, |ins|);
      } else {
        StoppedRun(m, ins[1..]);
        assert m.log[|m.log|..] == [];
      }
    }
  }

  lemma StepThenRunsNow(s: State, m: State, s': State, x: Entry, ids: set<nat>, h: nat, steps: nat)
    requires s.log <= m.log <= s'.log && |m.log| == |s.log| + 1 && m.now == s.now && steps > 0
    requires m.log[|s.log|].id == h && m.log[|s.log|].time == s.now && h in ids
    requires NewTimes(s, s', x.id) == [] + NewTimes(m, s', x.id)
    requires RunsNow(m, s', x, ids - {h}, steps - 1)
    ensures RunsNow(s, s', x, ids, steps)
  {
    if NewTimes(s, s', x.id) == [] {
      AheadOne(s.log, m.log, s'.log, |s'.log|, ids, s.now);
    } else {
      var i: nat :| Ahead(s'.log, |m.log|, i, ids - {h}, s.now)
                    && i < |s'.log| && s'.log[i].id == x.id && s'.log[i].ep == x.ep;
      AheadOne(s.log, m.log, s'.log, i, ids, s.now);
    }
  }

  /** `AddImmediateEvent` while the simulation runs: only immediate events queued before are executed
      ahead of it, at most so many steps later. */
  lemma AddedImmediately(s: State, ep: EntryPoint, ins: seq<Calls>)
    requires Inv(s) && s.running
    requires LegalRun(Apply(s, AddImmediate(ep)), ins) && UndisturbedRun(ins, s.nextId)
    ensures var s1 := Apply(s, AddImmediate(ep));
            && Run(s1, ins).Running? && s1.log == s.log <= Run(s1, ins).state.log
            && RunsNow(s1, Run(s1, ins).state, Entry(s.nextId, ep, IMMEDIATE, 0, 0), QueuedIds(s.queue), |ins|)
  {
    ApplyEffect(s, AddImmediate(ep));
    CallKeepsGoodIff(s, s.now, AddImmediate(ep));
    ImmediateRunsNow(Apply(s, AddImmediate(ep)), ins, Entry(s.nextId, ep, IMMEDIATE, 0, 0), QueuedIds(s.queue));
  }

  /** The same for a call made inside a step: it waits when the step ends. */
  lemma AddedImmediatelyInside(s: State, w: Site, ep: EntryPoint, rest: seq<Calls>)
    requires Inv(s) && LegalStep(s, w.calls) && Fired(s, w.calls).Some? && Calling(w, AddImmediate(ep))
    requires LeftAlone(w, CallState(s, w).nextId) && UndisturbedRun(rest, CallState(s, w).nextId)
    requires Step(s, w.calls).Running? ==>
      Step(s, w.calls).state.running && LegalRun(Step(s, w.calls).state, rest)
    ensures Step(s, w.calls).Running?
    ensures var k, s1 := CallState(s, w), Step(s, w.calls).state;
      && Run(s1, rest).Running? && k.now == s1.now && s1.log <= Run(s1, rest).state.log
      && RunsNow(s1, Run(s1, rest).state, Entry(k.nextId, ep, IMMEDIATE, 0, 0), QueuedIds(k.queue), |rest|)
  {
    var k, x := CallState(s, w), Entry(CallState(s, w).nextId, ep, IMMEDIATE, 0, 0);
    CallToEnd(s, w, AddImmediate(ep));
    ApplyEffect(k, AddImmediate(ep));
    StaysToTheEnd(s, w, AddImmediate(ep), x);
    ImmediatesAreQueued(k.queue, k.nextId);
    ImmediatesToTheEnd(s, w, AddImmediate(ep), k.nextId, QueuedIds(k.queue));
    ImmediateRunsNow(Step(s, w.calls).state, rest, x, QueuedIds(k.queue));
  }

  // ---- the start of a run ------------------------------------------------------------------

  /** A run starts with its start entry point queued, and otherwise with the queue there was, at the
      time keeper's time, whatever the scheduler's copy of it was. */
  lemma LaunchQueuesStart(s: State)
    requires Inv(s.(cached := s.now))
    ensures var r := Launch(s);
            && Inv(r) && r.running && r.executing && r.now == s.now && r.log == s.log
            && forall x :: x in r.queue <==> x == Entry(s.nextId, Start, IMMEDIATE, 0, 0) || x in s.queue
  {
    AddEffect(s, Start, IMMEDIATE, 0, 0);
  }

  /** It is executed exactly once, before every event that has a time and before every immediate one
      added later, in at most as many steps as there were immediate events in standby. */
  lemma StartRunsFirst(s: State, ins: seq<Calls>)
    requires Inv(s.(cached := s.now)) && LegalRun(Launch(s), ins) && UndisturbedRun(ins, s.nextId)
    ensures var r := Launch(s);
            && Run(r, ins).Running? && r.log == s.log <= Run(r, ins).state.log
            && RunsNow(r, Run(r, ins).state, Entry(s.nextId, Start, IMMEDIATE, 0, 0), QueuedIds(s.queue), |ins|)
  {
    LaunchQueuesStart(s);
    ImmediateRunsNow(Launch(s), ins, Entry(s.nextId, Start, IMMEDIATE, 0, 0), QueuedIds(s.queue));
  }

  // ---- the automatic stop ------------------------------------------------------------------

  /** With nothing activable left a step only queues the stop. */
  lemma NothingLeftQueuesStop(s: State, calls: Calls)
    requires Inv(s) && s.running && s.executing && forall x :: x in s.queue ==> x.time == PARKED
    ensures LegalStep(s, calls) && Step(s, calls).Running?
    ensures var s' := Step(s, calls).state;
            && Inv(s') && s' == s.(queue := s'.queue, nextId := s.nextId + 1)
            && forall x :: x in s'.queue <==> x == Entry(s.nextId, Stop, IMMEDIATE, 0, 0) || x in s.queue
  {
    NextTimeIsLeast(s);
    StepKeepsInvariant(s, calls);
    AddEffect(s, Stop, IMMEDIATE, 0, 0);
  }

  /** The step after that executes it: the run ends in standby, at the same time, with every event
      that was queued still parked, and it lasted two steps. */
  lemma NothingLeftStops(s: State, calls: Calls, next: Calls)
    requires Inv(s) && s.running && s.executing && forall x :: x in s.queue ==> x.time == PARKED
    requires Undisturbed(next, s.nextId)
    requires Step(s, calls).Running? ==> LegalStep(Step(s, calls).state, next)
    ensures Run(s, [calls, next]).Running?
    ensures var s' := Run(s, [calls, next]).state;
            && !s'.running && !s'.executing && s'.now == s.now
            && |s'.log| == |s.log| + 1 && s.log <= s'.log
            && s'.log[|s.log|].id == s.nextId && s'.log[|s.log|].ep == Stop
  {
    NothingLeftQueuesStop(s, calls);
    var m, stop := Step(s, calls).state, Entry(s.nextId, Stop, IMMEDIATE, 0, 0);
    assert Stopping(m, stop, {});
    StepWhileStopping(m, next, stop, {});
    StepRecords(m, next);
    assert [calls, next][1..] == [next] && [next][1..] == [];
    assert Run(m, [next]) == Step(m, next);
  }
}
