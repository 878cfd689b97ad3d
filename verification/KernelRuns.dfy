/** One step of the kernel: what calls leave alone, exactly when a deleted schedule is still queued,
    and the invariant. */
module KernelRuns {
  import opened ScheduleQueue
  import opened Kernel
  import opened KernelInvariant

  // ---- a completed schedule is never left in the queue -------------------------------------

  /** Some call of the script moves the event to a new time. */
  predicate Retimes(s: State, id: nat, cs: seq<Command>)
    decreases |cs|
  {
    cs != [] &&
    ((cs[0].SetTime? && cs[0].id == id && AbsoluteTime(s.cached, Delay(s, cs[0].clock, cs[0].t)).Some?)
     || Retimes(Apply(s, cs[0]), id, cs[1..]))
  }

  lemma QueuedAfterCall(s: State, id: nat, c: Command)
    requires WellFormed(s)
    ensures Queued(Apply(s, c).queue, id) <==>
              Queued(s.queue, id) || (Effect(s, c).Some? && Effect(s, c).value.id == id)
  {
    ApplyEffect(s, c);
    var q := Apply(s, c).queue;
    if Queued(s.queue, id) {
      var x :| x in s.queue && x.id == id;
      assert x in q || Effect(s, c).value in q;
    }
    if Effect(s, c).Some? {
      assert Effect(s, c).value in q;
    }
  }

  lemma {:induction false} RequeuedIff(s: State, id: nat, cs: seq<Command>)
    requires WellFormed(s) && s.IsCurrent(id) && !Queued(s.queue, id)
    ensures Queued(ApplyAll(s, cs).queue, id) <==> Retimes(s, id, cs)
    decreases |cs|
  {
    if cs != [] {
      var s' := Apply(s, cs[0]);
      ApplyEffect(s, cs[0]);
      QueuedAfterCall(s, id, cs[0]);
      if Queued(s'.queue, id) {
        StaysQueued(s', id, cs[1..]);
      } else {
        RequeuedIff(s', id, cs[1..]);
      }
    }
  }

  lemma {:induction false} StaysQueued(s: State, id: nat, cs: seq<Command>)
    requires WellFormed(s) && Queued(s.queue, id)
    ensures Queued(ApplyAll(s, cs).queue, id)
    decreases |cs|
  {
    if cs != [] {
      ApplyEffect(s, cs[0]);
      QueuedAfterCall(s, id, cs[0]);
      StaysQueued(Apply(s, cs[0]), id, cs[1..]);
    }
  }

  predicate Addresses(c: Command, id: nat) {
    (c.SetTime? || c.SetCycle? || c.SetRepeat?) && c.id == id
  }

  /** No call of the list addresses the event. */
  predicate Leaves(cs: seq<Command>, id: nat) {
    forall c :: c in cs ==> !Addresses(c, id)
  }

  ghost predicate SameEntry(q: seq<Entry>, q': seq<Entry>, id: nat) {
    forall x: Entry :: x.id == id ==> (x in q <==> x in q')
  }

  lemma CallLeavesCurrent(s: State, id: nat, c: Command)
    requires s.IsCurrent(id) && !Addresses(c, id)
    ensures Apply(s, c).current == s.current
  {
  }

  lemma CallLeavesEntry(s: State, id: nat, c: Command)
    requires WellFormed(s) && id < s.nextId && !Addresses(c, id)
    ensures SameEntry(s.queue, Apply(s, c).queue, id)
  {
    ApplyEffect(s, c);
    if Effect(s, c).Some? {
      assert Effect(s, c).value.id != id;
    }
  }

  lemma {:induction false} StaysPut(s: State, id: nat, cs: seq<Command>)
    requires WellFormed(s) && id < s.nextId && Leaves(cs, id)
    ensures WellFormed(ApplyAll(s, cs)) && SameEntry(s.queue, ApplyAll(s, cs).queue, id)
    ensures s.IsCurrent(id) ==> ApplyAll(s, cs).current == s.current
    ensures !s.IsCurrent(id) ==> !ApplyAll(s, cs).IsCurrent(id)
    decreases |cs|
  {
    if cs != [] {
      var s' := Apply(s, cs[0]);
      assert !Addresses(cs[0], id);
      ApplyEffect(s, cs[0]);
      CallLeavesEntry(s, id, cs[0]);
      if s.IsCurrent(id) { CallLeavesCurrent(s, id, cs[0]); }
      assert Leaves(cs[1..], id);
      StaysPut(s', id, cs[1..]);
    }
  }

  // ---- what one step does ---------------------------------------------------------------

  /** Exactly when a step deletes a schedule the queue still holds: the executed event was on
      its last execution and re-timed itself. */
  lemma DanglingIff(s: State, calls: Calls)
    requires Inv(s) && s.running && !Exhausted(s)
    requires Ready(s, calls).Some? && Pops(Ready(s, calls).value)
    requires Good(Ready(s, calls).value, Ready(s, calls).value.now) && Ready(s, calls).value.current.None?
    requires Ready(s, calls).value.queue != [] && Ready(s, calls).value.queue[0].repeat == 0
    ensures var r := Ready(s, calls).value;
            Step(s, calls).Dangling? <==>
              (Retimes(Started(Rearm(Take(r))), r.queue[0].id, calls.body)
               || Retimes(Fire(Take(r), calls.body), r.queue[0].id, calls.after))
  {
    var r := Ready(s, calls).value;
    var id := r.queue[0].id;
    TakeGood(r);
    var k := Started(Rearm(Take(r)));
    RequeuedIff(k, id, calls.body);
    ApplyAllWellFormed(k, calls.body);
    var f := Fire(Take(r), calls.body);
    assert f.queue == ApplyAll(k, calls.body).queue;
    assert WellFormed(f) && f.IsCurrent(id);
    var g := ApplyAll(f, calls.after);
    if Queued(f.queue, id) {
      StaysQueued(f, id, calls.after);
    } else {
      RequeuedIff(f, id, calls.after);
    }
    assert Find(g.queue, id).Some? <==> Queued(g.queue, id);
  }

  lemma {:induction false} ApplyAllWellFormed(s: State, cs: seq<Command>)
    requires WellFormed(s)
    ensures WellFormed(ApplyAll(s, cs)) && SameBut(s, ApplyAll(s, cs))
    decreases |cs|
  {
    if cs != [] {
      ApplyEffect(s, cs[0]);
      ApplyAllWellFormed(Apply(s, cs[0]), cs[1..]);
    }
  }

  lemma CallLeavesOut(s: State, id: nat, c: Command)
    requires WellFormed(s) && id < s.nextId && !Queued(s.queue, id) && !(c.SetTime? && c.id == id)
    ensures WellFormed(Apply(s, c)) && s.nextId <= Apply(s, c).nextId && !Queued(Apply(s, c).queue, id)
  {
    ApplyEffect(s, c);
    QueuedAfterCall(s, id, c);
  }

  lemma {:induction false} StaysOut(s: State, id: nat, cs: seq<Command>)
    requires WellFormed(s) && id < s.nextId && !Queued(s.queue, id)
    requires forall c :: c in cs ==> !(c.SetTime? && c.id == id)
    ensures !Queued(ApplyAll(s, cs).queue, id)
    decreases |cs|
  {
    if cs != [] {
      assert cs[0] in cs;
      CallLeavesOut(s, id, cs[0]);
      assert forall c :: c in cs[1..] ==> c in cs;
      StaysOut(Apply(s, cs[0]), id, cs[1..]);
    }
  }

  lemma CompletedStaysOut(r: State, calls: Calls)
    requires Good(r, r.now) && r.cached == r.now && r.current.None? && Pops(r)
    requires r.queue != [] && LegalFiring(r, calls) && r.queue[0].repeat == 0
    ensures !Queued(ApplyAll(Fire(Take(r), calls.body), calls.after).queue, r.queue[0].id)
  {
    var id := r.queue[0].id;
    TakeGood(r);
    RearmTakenGood(r, calls);
    var k := Started(Rearm(Take(r)));
    assert forall c :: c in calls.body ==> c in calls.body + calls.after;
    StaysOut(k, id, calls.body);
    FireGood(r, calls);
    var f := Fire(Take(r), calls.body);
    assert f.queue == ApplyAll(k, calls.body).queue;
    assert forall c :: c in calls.after ==> c in calls.body + calls.after;
    StaysOut(f, id, calls.after);
  }

  /** The log after a step: unchanged, or one firing at the new current time. */
  ghost predicate Logged(s: State, s': State) {
    || s'.log == s.log
    || (|s'.log| == |s.log| + 1 && s'.log[..|s.log|] == s.log && s'.log[|s.log|].time == s'.now)
  }

  /** Every legal step succeeds and keeps the invariant; time never decreases. */
  lemma StepKeepsInvariant(s: State, calls: Calls)
    requires Inv(s) && LegalStep(s, calls)
    ensures Step(s, calls).Running?
    ensures var s' := Step(s, calls).state;
            Inv(s') && s.now <= s'.now && s.nextId <= s'.nextId && Logged(s, s')
  {
    if s.running {
      if Exhausted(s) {
        ApplyEffect(s, Hold(true));
        CallKeepsGoodIff(s, s.now, Hold(true));
      } else {
        ReadyGood(s, calls);
        var r := Ready(s, calls).value;
        if Pops(r) {
          FiringGood(r, calls);
          if r.queue[0].repeat == 0 { CompletedStaysOut(r, calls); }
        }
      }
    }
  }
}
