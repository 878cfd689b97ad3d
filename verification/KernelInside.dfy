/** Calls made while a step is running: what the queue holds at the end of the step because of one
    call of the entry point, or of a handler that runs after it. */
module KernelInside {
  import opened Options
  import opened ScheduleQueue
  import opened Kernel
  import opened KernelInvariant
  import opened KernelRuns
  import opened KernelActivation

  /** In the executed entry point, or in a handler of Scheduler_PostEventExecute. */
  datatype Place = InBody | InAfter

  function Script(calls: Calls, p: Place): seq<Command> {
    if p.InBody? then calls.body else calls.after
  }

  /** One call of the step: its place, and the calls before and behind it in the same script. */
  datatype Site = Site(calls: Calls, place: Place, a: seq<Command>, b: seq<Command>)

  predicate Calling(w: Site, c: Command) { Script(w.calls, w.place) == w.a + [c] + w.b }

  /** Nothing behind the call addresses the event until the step ends. */
  predicate LeftAlone(w: Site, id: nat) { Leaves(w.b, id) && (w.place.InBody? ==> Leaves(w.calls.after, id)) }

  /** The state in which the call is made. */
  function CallState(s: State, w: Site): State
    requires Fired(s, w.calls).Some?
  {
    var k := Take(Ready(s, w.calls).value);
    ApplyAll(if w.place.InBody? then Started(Rearm(k)) else Fire(k, w.calls.body), w.a)
  }

  // ---- scripts split at a call -------------------------------------------------------------

  lemma {:induction false} ApplyAllConcat(s: State, a: seq<Command>, b: seq<Command>)
    ensures ApplyAll(s, a + b) == ApplyAll(ApplyAll(s, a), b)
    decreases |a|
  {
    if a == [] {
      assert a + b == b;
    } else {
      assert (a + b)[1..] == a[1..] + b;
      ApplyAllConcat(Apply(s, a[0]), a[1..], b);
    }
  }

  lemma {:induction false} LegalAllConcat(s: State, floor: int, a: seq<Command>, b: seq<Command>)
    requires LegalAll(s, floor, a + b)
    ensures LegalAll(s, floor, a) && LegalAll(ApplyAll(s, a), floor, b)
    decreases |a|
  {
    if a == [] {
      assert a + b == b;
    } else {
      assert (a + b)[1..] == a[1..] + b;
      LegalAllConcat(Apply(s, a[0]), floor, a[1..], b);
    }
  }

  lemma SplitAt(s: State, floor: int, a: seq<Command>, c: Command, b: seq<Command>)
    requires LegalAll(s, floor, a + [c] + b)
    ensures LegalAll(s, floor, a) && Legal(ApplyAll(s, a), floor, c)
    ensures LegalAll(Apply(ApplyAll(s, a), c), floor, b)
    ensures ApplyAll(s, a + [c] + b) == ApplyAll(Apply(ApplyAll(s, a), c), b)
  {
    var k := ApplyAll(s, a);
    LegalAllConcat(s, floor, a + [c], b);
    LegalAllConcat(s, floor, a, [c]);
    ApplyAllConcat(s, a + [c], b);
    ApplyAllConcat(s, a, [c]);
    assert [c][1..] == [];
    assert ApplyAll(k, [c]) == Apply(k, c);
  }

  // ---- the state of the call ---------------------------------------------------------------

  /** The script the call is in begins in this state. */
  function Begins(s: State, w: Site): State
    requires Fired(s, w.calls).Some?
  {
    var k := Take(Ready(s, w.calls).value);
    if w.place.InBody? then Started(Rearm(k)) else Fire(k, w.calls.body)
  }

  lemma BodyBegins(s: State, w: Site)
    requires Inv(s) && LegalStep(s, w.calls) && Fired(s, w.calls).Some? && w.place.InBody?
    ensures var k, r, h := Begins(s, w), Ready(s, w.calls).value, Fired(s, w.calls).value;
      && Good(k, k.now) && k.cached == k.now == r.now && s.nextId <= k.nextId
      && k.current.Some? && k.current.value.id == h.id && LegalAll(k, k.now, w.calls.body)
      && k.executing == s.executing
  {
    ReadyGood(s, w.calls);
    var r := Ready(s, w.calls).value;
    TakeGood(r);
    RearmGood(Take(r));
    RearmTakenGood(r, w.calls);
  }

  lemma AfterBegins(s: State, w: Site)
    requires Inv(s) && LegalStep(s, w.calls) && Fired(s, w.calls).Some? && w.place.InAfter?
    ensures var k, r, h := Begins(s, w), Ready(s, w.calls).value, Fired(s, w.calls).value;
      && Good(k, k.now) && k.cached == k.now == r.now && s.nextId <= k.nextId
      && k.current.Some? && k.current.value.id == h.id && LegalAll(k, k.now, w.calls.after)
      && (!h.ep.Stop? ==> k.executing == s.executing)
  {
    ReadyGood(s, w.calls);
    var r := Ready(s, w.calls).value;
    TakeGood(r);
    RearmTakenGood(r, w.calls);
    ExecuteGood(Rearm(Take(r)), w.calls.body);
    ParkGood(Execute(Rearm(Take(r)), w.calls.body), r.queue[0].repeat == 0);
    FireGood(r, w.calls);
  }

  /** The call is made in a good state, at the time the step has reached, and is legal there. */
  lemma CallStateGood(s: State, w: Site, c: Command)
    requires Inv(s) && LegalStep(s, w.calls) && Fired(s, w.calls).Some? && Calling(w, c)
    ensures var k, h := CallState(s, w), Fired(s, w.calls).value;
      && Good(k, k.now) && k.cached == k.now == Ready(s, w.calls).value.now && s.nextId <= k.nextId
      && k.current.Some? && k.current.value.id == h.id && Legal(k, k.now, c)
      && (!h.ep.Stop? ==> k.executing == s.executing)
  {
    if w.place.InBody? { BodyBegins(s, w); } else { AfterBegins(s, w); }
    var k := Begins(s, w);
    SplitAt(k, k.now, w.a, c, w.b);
    ApplyAllGood(k, k.now, w.a);
  }

  // ---- from the call to the end of the step ------------------------------------------------

  lemma StepEnds(s: State, calls: Calls)
    requires Inv(s) && LegalStep(s, calls) && Fired(s, calls).Some?
    ensures Step(s, calls).Running?
    ensures var g := ApplyAll(Fire(Take(Ready(s, calls).value), calls.body), calls.after);
      Step(s, calls).state == g.(current := None, cached := g.now)
    ensures Step(s, calls).state.now == Ready(s, calls).value.now
    ensures Inv(Step(s, calls).state) && s.log <= Step(s, calls).state.log
  {
    StepKeepsInvariant(s, calls);
    ReadyGood(s, calls);
    var r := Ready(s, calls).value;
    TakeGood(r);
    FiringGood(r, calls);
    StepLogsFired(s, calls);
  }

  /** Parking an aperiodic event leaves an entry that is not the executed event, or is periodic. */
  lemma ParkLeaves(x: State, completed: bool, e: Entry)
    requires Good(x, x.now) && x.cached == x.now && x.current.Some? && e in x.queue
    requires x.IsCurrent(e.id) ==> e.period != -1
    ensures e in ParkAperiodic(x, completed).queue
  {
    ParkGood(x, completed);
  }

  /** What the call leaves in the queue and nothing addresses behind it is there when the step ends. */
  lemma StaysToTheEnd(s: State, w: Site, c: Command, x: Entry)
    requires Inv(s) && LegalStep(s, w.calls) && Fired(s, w.calls).Some? && Calling(w, c)
    requires x in Apply(CallState(s, w), c).queue
    requires LeftAlone(w, x.id)
    requires w.place.InBody? && Fired(s, w.calls).value.id == x.id ==> x.period != -1
    ensures Step(s, w.calls).Running? && x in Step(s, w.calls).state.queue
  {
    StepEnds(s, w.calls);
    CallStateGood(s, w, c);
    var k, begin := CallState(s, w), Begins(s, w);
    if w.place.InBody? { BodyBegins(s, w); } else { AfterBegins(s, w); }
    SplitAt(begin, begin.now, w.a, c, w.b);
    ApplyEffect(k, c);
    StaysPut(Apply(k, c), x.id, w.b);
    if w.place.InBody? { BodyEnds(s, w, x); }
  }

  lemma BodyEnds(s: State, w: Site, x: Entry)
    requires Inv(s) && LegalStep(s, w.calls) && Fired(s, w.calls).Some? && w.place.InBody?
    requires x in ApplyAll(Begins(s, w), w.calls.body).queue && Leaves(w.calls.after, x.id)
    requires Fired(s, w.calls).value.id == x.id ==> x.period != -1
    ensures x in ApplyAll(Fire(Take(Ready(s, w.calls).value), w.calls.body), w.calls.after).queue
  {
    ReadyGood(s, w.calls);
    var r := Ready(s, w.calls).value;
    TakeGood(r);
    RearmTakenGood(r, w.calls);
    var k := Rearm(Take(r));
    ExecuteGood(k, w.calls.body);
    ParkLeaves(Execute(k, w.calls.body), r.queue[0].repeat == 0, x);
    FireGood(r, w.calls);
    StaysPut(Fire(Take(r), w.calls.body), x.id, w.calls.after);
  }

  // ---- from the start of the step to the call ----------------------------------------------

  /** Nothing but the call itself addresses the event. */
  predicate OnlyCall(w: Site, id: nat) {
    LeavesBefore(w.calls, id) && Leaves(w.a, id) && Leaves(w.b, id)
    && (if w.place.InBody? then Leaves(w.calls.after, id) else Leaves(w.calls.body, id))
  }

  lemma OtherEntryAtCall(s: State, w: Site, c: Command, e: Entry)
    requires Inv(s) && LegalStep(s, w.calls) && Fired(s, w.calls).Some? && Calling(w, c)
    requires e in s.queue && OnlyCall(w, e.id) && Fired(s, w.calls).value.id != e.id
    ensures e in CallState(s, w).queue && !CallState(s, w).IsCurrent(e.id)
  {
    ReadyLeaves(s, w.calls, e.id);
    ReadyGood(s, w.calls);
    var r := Ready(s, w.calls).value;
    assert e in r.queue;
    TakeGood(r);
    RearmGood(Take(r));
    RearmTakenGood(r, w.calls);
    if w.place.InAfter? { OtherEntryFired(r, w.calls, e); }
    CallStateGood(s, w, c);
    if w.place.InBody? { BodyBegins(s, w); } else { AfterBegins(s, w); }
    StaysPut(Begins(s, w), e.id, w.a);
  }

  lemma OtherEntryFired(r: State, calls: Calls, e: Entry)
    requires Good(r, r.now) && r.cached == r.now && r.current.None? && Pops(r)
    requires r.queue != [] && LegalFiring(r, calls)
    requires e in r.queue && Leaves(calls.body, e.id) && r.queue[0].id != e.id
    ensures e in Fire(Take(r), calls.body).queue
  {
    TakeGood(r);
    RearmGood(Take(r));
    RearmTakenGood(r, calls);
    var k := Rearm(Take(r));
    StaysPut(Started(k), e.id, calls.body);
    ExecuteGood(k, calls.body);
    ParkLeaves(Execute(k, calls.body), r.queue[0].repeat == 0, e);
  }

  /** An endlessly repeated event that addresses itself: it has been re-armed by then. */
  lemma OwnEntryAtCall(s: State, w: Site, c: Command, e: Entry)
    requires Inv(s) && LegalStep(s, w.calls) && Fired(s, w.calls).Some? && Calling(w, c)
    requires e in s.queue && OnlyCall(w, e.id) && Fired(s, w.calls).value.id == e.id
    requires e.period > 0 && e.repeat < 0
    ensures CallState(s, w).current == Some(e.(time := Following(e)))
  {
    ReadyLeaves(s, w.calls, e.id);
    ReadyGood(s, w.calls);
    var r := Ready(s, w.calls).value;
    assert e in r.queue;
    TakeGood(r);
    assert r.queue[0] == e;
    RearmGood(Take(r));
    RearmTakenGood(r, w.calls);
    var k := Started(Rearm(Take(r)));
    if w.place.InAfter? {
      StaysPut(k, e.id, w.calls.body);
      ExecuteGood(Rearm(Take(r)), w.calls.body);
      assert Fire(Take(r), w.calls.body).current == k.current;
      AfterBegins(s, w);
    } else {
      BodyBegins(s, w);
    }
    StaysPut(Begins(s, w), e.id, w.a);
  }

  // ---- what a call inside a step achieves --------------------------------------------------

  /** The time a delay stands for. */
  function Due(now: int, delay: int): int { if delay == -1 then PARKED else now + delay }

  lemma LookupAtCall(s: State, w: Site, c: Command, e: Entry)
    requires Inv(s) && LegalStep(s, w.calls) && Fired(s, w.calls).Some? && Calling(w, c)
    requires e in s.queue && OnlyCall(w, e.id)
    requires Fired(s, w.calls).value.id == e.id ==> e.period > 0 && e.repeat < 0
    ensures var found := CallState(s, w).Lookup(e.id);
      found.Some? && found.value == e.(time := found.value.time)
  {
    CallStateGood(s, w, c);
    if Fired(s, w.calls).value.id == e.id {
      OwnEntryAtCall(s, w, c, e);
    } else {
      OtherEntryAtCall(s, w, c, e);
    }
  }

  lemma RetimedEntry(k: State, id: nat, delay: int)
    requires Good(k, k.now) && k.cached == k.now && delay < DURATION_MAX - k.now && k.Lookup(id).Some?
    ensures k.Lookup(id).value.(time := Due(k.now, delay)) in Apply(k, SetTime(id, SimulationClock, delay)).queue
    ensures k.Lookup(id).value.id == id
  {
    ApplyEffect(k, SetTime(id, SimulationClock, delay));
  }

  /** Re-timing: when the step ends the event is queued at the time asked for, and is otherwise as it
      was found when the call was made, whatever was called before. */
  lemma RetimedAtCall(s: State, w: Site, id: nat, delay: int)
    requires Inv(s) && LegalStep(s, w.calls) && Fired(s, w.calls).Some?
    requires Calling(w, SetTime(id, SimulationClock, delay)) && LeftAlone(w, id)
    requires var k := CallState(s, w);
      && delay < DURATION_MAX - k.now && k.Lookup(id).Some?
      && (w.place.InBody? && Fired(s, w.calls).value.id == id ==> k.Lookup(id).value.period != -1)
    ensures Step(s, w.calls).Running?
    ensures var k, s' := CallState(s, w), Step(s, w.calls).state;
      && Inv(s') && s.log <= s'.log && s'.now == k.now
      && k.Lookup(id).value.(time := Due(s'.now, delay)) in s'.queue
  {
    var c := SetTime(id, SimulationClock, delay);
    var k := CallState(s, w);
    StepEnds(s, w.calls);
    CallStateGood(s, w, c);
    RetimedEntry(k, id, delay);
    StaysToTheEnd(s, w, c, k.Lookup(id).value.(time := Due(k.now, delay)));
  }

  /** In particular another event, or a periodic and endless event that re-times itself, if the call
      is the only one that addresses it: it is the same as before the step except for its time. */
  lemma RetimedInside(s: State, w: Site, e: Entry, delay: int)
    requires Inv(s) && LegalStep(s, w.calls) && Fired(s, w.calls).Some?
    requires Calling(w, SetTime(e.id, SimulationClock, delay)) && e in s.queue && OnlyCall(w, e.id)
    requires Fired(s, w.calls).value.id == e.id ==> e.period > 0 && e.repeat < 0
    requires delay < DURATION_MAX - Ready(s, w.calls).value.now
    ensures Step(s, w.calls).Running?
    ensures var s' := Step(s, w.calls).state;
      Inv(s') && s.log <= s'.log && e.(time := Due(s'.now, delay)) in s'.queue
  {
    LookupAtCall(s, w, SetTime(e.id, SimulationClock, delay), e);
    CallStateGood(s, w, SetTime(e.id, SimulationClock, delay));
    RetimedAtCall(s, w, e.id, delay);
  }

  lemma CallToEnd(s: State, w: Site, c: Command)
    requires Inv(s) && LegalStep(s, w.calls) && Fired(s, w.calls).Some? && Calling(w, c)
    ensures Step(s, w.calls).Running?
    ensures var k, s' := CallState(s, w), Step(s, w.calls).state;
      && Inv(s') && s.log <= s'.log && WellFormed(k) && k.cached == k.now == s'.now
      && Fired(s, w.calls).value.id < k.nextId
      && (!Fired(s, w.calls).value.ep.Stop? ==> k.executing == s.executing)
  {
    StepEnds(s, w.calls);
    CallStateGood(s, w, c);
  }

  lemma AddQueues(k: State, c: Command)
    requires WellFormed(k) && k.cached == k.now && c.AddAt? && Delay(k, c.clock, c.t) < DURATION_MAX - k.cached
    requires !(c.clock.SimulationClock? && c.repeat > 0 && InvalidCycle(c.cycle))
    ensures Entry(k.nextId, c.ep, Due(k.now, Delay(k, c.clock, c.t)), c.cycle, c.repeat) in Apply(k, c).queue
  {
    ApplyEffect(k, c);
  }

  /** Adding an event: when the step ends it is queued under the identifier that was next. */
  lemma AddedInside(s: State, w: Site, ep: EntryPoint, clock: Clock, t: int, cycle: int, repeat: int)
    requires Inv(s) && LegalStep(s, w.calls) && Fired(s, w.calls).Some?
    requires Calling(w, AddAt(ep, clock, t, cycle, repeat))
    requires !(clock.SimulationClock? && repeat > 0 && InvalidCycle(cycle))
    requires var k := CallState(s, w);
      Delay(k, clock, t) < DURATION_MAX - k.cached
      && LeftAlone(w, k.nextId)
    ensures Step(s, w.calls).Running?
    ensures var k, s' := CallState(s, w), Step(s, w.calls).state;
      && Inv(s') && s.log <= s'.log && k.cached == k.now == s'.now
      && Entry(k.nextId, ep, Due(s'.now, Delay(k, clock, t)), cycle, repeat) in s'.queue
  {
    var c := AddAt(ep, clock, t, cycle, repeat);
    var k := CallState(s, w);
    CallToEnd(s, w, c);
    AddQueues(k, c);
    StaysToTheEnd(s, w, c, Entry(k.nextId, ep, Due(k.now, Delay(k, clock, t)), cycle, repeat));
  }

  lemma HoldQueues(k: State, immediate: bool)
    requires WellFormed(k) && k.cached == k.now && k.executing && (!immediate ==> 1 < DURATION_MAX - k.now)
    ensures Entry(k.nextId, Stop, if immediate then IMMEDIATE else k.now + 1, 0, 0) in Apply(k, Hold(immediate)).queue
  {
    ApplyEffect(k, Hold(immediate));
  }

  /** Holding: when the step ends the stop is queued. */
  lemma StopQueuedInside(s: State, w: Site, immediate: bool)
    requires Inv(s) && LegalStep(s, w.calls) && Fired(s, w.calls).Some? && Calling(w, Hold(immediate))
    requires s.executing && !Fired(s, w.calls).value.ep.Stop?
    requires var k := CallState(s, w);
      (!immediate ==> 1 < DURATION_MAX - k.now)
      && LeftAlone(w, k.nextId)
    ensures Step(s, w.calls).Running?
    ensures var k, s' := CallState(s, w), Step(s, w.calls).state;
      && Inv(s') && s.log <= s'.log && k.now == s'.now
      && Entry(k.nextId, Stop, if immediate then IMMEDIATE else s'.now + 1, 0, 0) in s'.queue
  {
    var c := Hold(immediate);
    var k := CallState(s, w);
    CallToEnd(s, w, c);
    HoldQueues(k, immediate);
    StaysToTheEnd(s, w, c, Entry(k.nextId, Stop, if immediate then IMMEDIATE else k.now + 1, 0, 0));
  }

  // ---- calls made before the step picks its entry ------------------------------------------

  /** Before the update of the time, in a handler of SMP_PreSimTimeChange, or of SMP_PostSimTimeChange. */
  datatype Early = InBefore | InPre | InPost

  function EarlyScript(calls: Calls, p: Early): seq<Command> {
    match p
    case InBefore => calls.before
    case InPre => calls.pre
    case InPost => calls.post
  }

  /** The state in which the script begins: the first handlers still see the old time. */
  function EarlyState(s: State, calls: Calls, p: Early): State {
    var b := ApplyAll(s, calls.before);
    match p
    case InBefore => s
    case InPre => b
    case InPost => Moved(b, calls.pre)
  }

  /** Whether the script is run in this step; handlers of SMP_PreSimTimeChange are when time advances. */
  predicate IsRun(s: State, calls: Calls, p: Early) {
    p.InPre? ==> ApplyAll(s, calls.before).NextTime() > s.now
  }

  /** Nothing that is called behind the script addresses the event. */
  predicate LeftBehind(calls: Calls, p: Early, id: nat) {
    (p.InBefore? ==> Leaves(calls.pre, id)) && (!p.InPost? ==> Leaves(calls.post, id))
  }

  lemma EarlyCall(k: State, floor: int, a: seq<Command>, c: Command, b: seq<Command>, x: Entry)
    requires Good(k, floor) && LegalAll(k, floor, a + [c] + b)
    requires x in Apply(ApplyAll(k, a), c).queue && Leaves(b, x.id)
    ensures x in ApplyAll(k, a + [c] + b).queue
  {
    SplitAt(k, floor, a, c, b);
    ApplyAllGood(k, floor, a);
    ApplyEffect(ApplyAll(k, a), c);
    StaysPut(Apply(ApplyAll(k, a), c), x.id, b);
  }

  function EarlyFloor(s: State, calls: Calls, p: Early): int {
    if p.InBefore? then s.now else ApplyAll(s, calls.before).NextTime()
  }

  lemma EarlyBegins(s: State, calls: Calls, p: Early)
    requires Inv(s) && LegalStep(s, calls) && s.running && !Exhausted(s) && IsRun(s, calls, p)
    ensures var k, floor := EarlyState(s, calls, p), EarlyFloor(s, calls, p);
      Good(k, floor) && k.now <= floor && LegalAll(k, floor, EarlyScript(calls, p))
  {
    MovedGood(s, calls);
  }

  lemma LaterScripts(s: State, calls: Calls, p: Early, x: Entry)
    requires Inv(s) && LegalStep(s, calls) && s.running && !Exhausted(s) && IsRun(s, calls, p)
    requires x in ApplyAll(EarlyState(s, calls, p), EarlyScript(calls, p)).queue && LeftBehind(calls, p, x.id)
    ensures Ready(s, calls).Some? && x in Ready(s, calls).value.queue
  {
    MovedGood(s, calls);
    var b := ApplyAll(s, calls.before);
    var m := Moved(b, calls.pre);
    if p.InBefore? && b.NextTime() > b.now { StaysPut(b, x.id, calls.pre); }
    if !p.InPost? { StaysPut(m, x.id, calls.post); }
  }

  /** What a call leaves in the queue before the step picks its entry, and nothing addresses behind it,
      is there when it picks: the calls of all three scripts are carried out, in this order. */
  lemma StaysUntilReady(s: State, calls: Calls, p: Early, a: seq<Command>, c: Command, b: seq<Command>, x: Entry)
    requires Inv(s) && LegalStep(s, calls) && s.running && !Exhausted(s) && IsRun(s, calls, p)
    requires EarlyScript(calls, p) == a + [c] + b && Leaves(b, x.id) && LeftBehind(calls, p, x.id)
    requires x in Apply(ApplyAll(EarlyState(s, calls, p), a), c).queue
    ensures Ready(s, calls).Some? && x in Ready(s, calls).value.queue
  {
    EarlyBegins(s, calls, p);
    EarlyCall(EarlyState(s, calls, p), EarlyFloor(s, calls, p), a, c, b, x);
    LaterScripts(s, calls, p, x);
  }
}
