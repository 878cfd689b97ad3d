/** The scheduler's run loop stops by itself once nobody calls the scheduler any more. */
module KernelTermination {
  import opened Options
  import opened ScheduleQueue
  import opened Kernel
  import opened KernelInvariant
  import opened KernelRuns
  import opened KernelActivation

  const QUIET := Calls([], [], [], [], [])

  /** How much simulation time an entry has left. */
  function Left(e: Entry): nat
  {
    if e.time == IMMEDIATE then 1
    else if 0 <= e.time < DURATION_MAX then DURATION_MAX - e.time
    else 0
  }

  function Weight(q: seq<Entry>): nat {
    if q == [] then 0 else Left(q[0]) + Weight(q[1..])
  }

  lemma {:induction false} WeightInsert(q: seq<Entry>, e: Entry)
    ensures Weight(Insert(q, e)) == Weight(q) + Left(e)
  {
    if q == [] || Less(e, q[0]) {
      assert ([e] + q)[1..] == q;
    } else {
      WeightInsert(q[1..], e);
      assert Insert(q, e)[1..] == Insert(q[1..], e);
    }
  }

  lemma {:induction false} WeightErase(q: seq<Entry>, id: nat)
    ensures Weight(Erase(q, id)) <= Weight(q)
  {
    if q != [] && q[0].id != id {
      WeightErase(q[1..], id);
      assert Erase(q, id)[1..] == Erase(q[1..], id);
    }
  }

  lemma WeightRetime(k: State, e: Entry, time: int)
    requires WellFormed(k)
    ensures Weight(k.Retime(e, time).queue) <= Weight(k.queue) + Left(e.(time := time))
  {
    WeightErase(k.queue, e.id);
    WeightInsert(Erase(k.queue, e.id), e.(time := time));
  }

  ghost predicate StopQueued(s: State) {
    exists x :: x in s.queue && x.ep.Stop? && x.time == IMMEDIATE
  }

  lemma QuietIsLegal(s: State)
    requires Inv(s)
    ensures LegalStep(s, QUIET)
  {
  }

  lemma QuietReady(s: State)
    requires Inv(s) && s.running && !Exhausted(s)
    ensures Ready(s, QUIET).Some?
    ensures var r := Ready(s, QUIET).value;
            r.queue == s.queue && r.queue != [] && Pops(r) && Good(r, r.now) && r.cached == r.now
            && r.current.None? && r.executing == s.executing && 0 <= r.now
  {
    NextTimeIsLeast(s);
  }

  lemma QuietFiringLegal(r: State)
    ensures LegalFiring(r, QUIET)
  {
  }

  /** Re-arming gives back less than taking the entry removed. */
  lemma QuietRearm(r: State)
    requires Good(r, r.now) && r.cached == r.now && r.current.None? && Pops(r) && r.queue != []
    ensures Weight(Rearm(Take(r)).queue) < Weight(r.queue)
  {
    TakeGood(r);
    var k := Take(r);
    var e := r.queue[0];
    assert Weight(r.queue) == Left(e) + Weight(k.queue) && Left(e) > 0;
    var k1 := k.(current := Some(CountDown(e)));
    if e.repeat != 0 && e.period > 0 {
      assert e.time != IMMEDIATE by { assert e in r.queue; }
      WeightRetime(k1, CountDown(e), Following(e));
    }
  }

  lemma QuietPark(x: State, completed: bool)
    requires WellFormed(x)
    ensures Weight(ParkAperiodic(x, completed).queue) <= Weight(x.queue)
  {
    if x.current.Some? { WeightRetime(x, x.current.value, PARKED); }
  }

  lemma QuietFiring(r: State)
    requires Good(r, r.now) && r.cached == r.now && r.current.None? && Pops(r) && r.queue != []
    ensures LegalFiring(r, QUIET)
    ensures var g := ApplyAll(Fire(Take(r), []), []);
            Weight(g.queue) < Weight(r.queue)
            && (forall x :: x in r.queue && x.id != r.queue[0].id ==> x in g.queue)
  {
    QuietFiringLegal(r);
    QuietRearm(r);
    RearmTakenGood(r, QUIET);
    var k := Rearm(Take(r));
    ExecuteGood(k, []);
    QuietPark(Execute(k, []), r.queue[0].repeat == 0);
    FiringLeavesAll(r);
  }

  lemma FiringLeavesAll(r: State)
    requires Good(r, r.now) && r.cached == r.now && r.current.None? && Pops(r) && r.queue != []
    ensures var g := ApplyAll(Fire(Take(r), []), []);
            forall x :: x in r.queue && x.id != r.queue[0].id ==> x in g.queue
  {
    forall x | x in r.queue && x.id != r.queue[0].id
      ensures x in ApplyAll(Fire(Take(r), []), []).queue
    {
      FiringLeavesOthers(r, QUIET, x.id);
    }
  }

  /** Since `log` the stop entry point was executed, as the last one. */
  predicate StopLogged(log: seq<Firing>, s: State) {
    log < s.log && s.log[|s.log| - 1].ep == Stop
  }

  /** Each step without calls executes the stop, or queues it, or uses up simulation time. */
  lemma QuietStepDecreases(s: State)
    requires Inv(s) && (s.running ==> s.executing) && s.running
    ensures Step(s, QUIET).Running?
    ensures var s' := Step(s, QUIET).state;
            && Inv(s') && (s'.running ==> s'.executing)
            && (!s'.running ==> !s'.executing && StopLogged(s.log, s'))
            && s.log <= s'.log
            && (s'.running ==>
                  || (!StopQueued(s) && StopQueued(s'))
                  || ((StopQueued(s) ==> StopQueued(s')) && Weight(s'.queue) < Weight(s.queue)))
  {
    QuietIsLegal(s);
    StepKeepsInvariant(s, QUIET);
    StepStopsIff(s, QUIET);
    var s' := Step(s, QUIET).state;
    if Fired(s, QUIET).Some? { StepRecords(s, QUIET); }
    if Exhausted(s) {
      ApplyEffect(s, Hold(true));
      assert Entry(s.nextId, Stop, IMMEDIATE, 0, 0) in s'.queue;
      NextTimeIsLeast(s);
    } else {
      QuietReady(s);
      var r := Ready(s, QUIET).value;
      QuietFiring(r);
      FiringGood(r, QUIET);
      if StopQueued(s) && s'.running {
        var x :| x in s.queue && x.ep.Stop? && x.time == IMMEDIATE;
        assert x in s'.queue;
      }
    }
  }

  function Repeated(n: nat): seq<Calls> { seq(n, _ => QUIET) }

  /** The run ends in standby, by its stop entry point. */
  predicate Ends(s: State, ins: seq<Calls>) {
    && Run(s, ins).Running?
    && var s' := Run(s, ins).state;
    !s'.running && !s'.executing && StopLogged(s.log, s')
  }

  /** From every state between two steps, without further calls, the loop executes the stop after
      finitely many steps, infinitely repeated events included, and is then in standby. */
  lemma {:induction false} RunLoopTerminates(s: State)
    requires Inv(s) && s.running && s.executing
    ensures exists n: nat :: Ends(s, Repeated(n))
    decreases !StopQueued(s), Weight(s.queue)
  {
    QuietStepDecreases(s);
    var m := Step(s, QUIET).state;
    if !m.running {
      assert Repeated(1)[1..] == [];
      assert Run(s, Repeated(1)) == Running(m);
    } else {
      RunLoopTerminates(m);
      var n: nat :| Ends(m, Repeated(n));
      assert Repeated(n + 1)[1..] == Repeated(n);
      assert Run(s, Repeated(n + 1)) == Run(m, Repeated(n));
    }
  }

  lemma {:induction false} OneStepMore(s: State, n: nat)
    requires Run(s, Repeated(n)).Running?
    ensures Run(s, Repeated(n + 1)) == Step(Run(s, Repeated(n)).state, QUIET)
    decreases n
  {
    assert Repeated(n + 1)[1..] == Repeated(n);
    if n > 0 {
      assert Repeated(n)[1..] == Repeated(n - 1);
      OneStepMore(Step(s, QUIET).state, n - 1);
    }
  }

  // ---- the start of a run ------------------------------------------------------------------

  const INITIAL := State([], None, 0, 0, 0, 0, 0, false, false, [])

  /** Whatever is legally scheduled in the standby state, a run starts with the time invariant. */
  lemma LaunchEstablishesInvariant(s: State, cs: seq<Command>)
    requires Inv(s) && LegalAll(s, s.now, cs)
    ensures Inv(INITIAL)
    ensures var t, r := ApplyAll(s, cs), Launch(ApplyAll(s, cs));
            && Inv(r) && r.running && r.executing && r.now == s.now
            && QueueEffect(t.queue, Some(Entry(t.nextId, Start, IMMEDIATE, 0, 0)), r.queue)
  {
    ApplyAllGood(s, s.now, cs);
    var t := ApplyAll(s, cs);
    AddEffect(t, Start, IMMEDIATE, 0, 0);
  }
}
