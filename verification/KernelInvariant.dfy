/** The time invariant of the kernel: what one call keeps, exactly when it does, what a
    step keeps, and hence what every run keeps. */
module KernelInvariant {
  import opened Options
  import opened ScheduleQueue
  import opened Kernel

  ghost predicate WellFormed(s: State) {
    && Sorted(s.queue) && DistinctIds(s.queue)
    && (forall x :: x in s.queue ==> x.id < s.nextId)
    && (s.current.Some? ==>
          && s.current.value.id < s.nextId
          && forall x :: x in s.queue && x.id == s.current.value.id ==> x == s.current.value)
  }

  /** A queued entry is parked, immediate and not periodic, or not before `floor` and below the maximum. */
  predicate Fits(e: Entry, floor: int) {
    || e.time == PARKED
    || (e.time == IMMEDIATE && (e.period <= 0 || e.repeat == 0))
    || floor <= e.time < DURATION_MAX
  }

  ghost predicate Good(s: State, floor: int) {
    && WellFormed(s)
    && (forall x :: x in s.queue ==> Fits(x, floor))
    && 0 <= s.cached <= floor < DURATION_MAX
  }

  /** What holds between two steps. */
  ghost predicate Inv(s: State) {
    Good(s, s.now) && s.cached == s.now && s.current.None?
  }

  // ---- one call --------------------------------------------------------------------

  function Written(s: State, e: Option<Entry>): Option<Entry> {
    if e.Some? && Find(s.queue, e.value.id).Some? then e else None
  }

  /** The entry a call leaves in the queue, if it touches one. */
  function Effect(s: State, c: Command): Option<Entry> {
    match c
    case AddImmediate(ep) => Some(Entry(s.nextId, ep, IMMEDIATE, 0, 0))
    case AddAt(ep, clock, t, cycle, repeat) =>
      if clock.SimulationClock? && repeat > 0 && InvalidCycle(cycle) then None
      else
        (match AbsoluteTime(s.cached, Delay(s, clock, t))
         case None => None
         case Some(a) => Some(Entry(s.nextId, ep, a, cycle, repeat)))
    case SetTime(id, clock, t) =>
      (match (AbsoluteTime(s.cached, Delay(s, clock, t)), s.Lookup(id))
       case (Some(a), Some(e)) => Some(e.(time := a))
       case (_, _) => None)
    case SetCycle(id, cycle) =>
      if InvalidCycle(cycle) || s.Lookup(id).None? then None
      else Written(s, Some(s.Lookup(id).value.(period := cycle)))
    case SetRepeat(id, repeat) =>
      if s.Lookup(id).None? then None
      else Written(s, Some(s.Lookup(id).value.(repeat := repeat)))
    case Hold(immediate) =>
      if !s.executing then None
      else if immediate then Some(Entry(s.nextId, Stop, IMMEDIATE, 0, 0))
      else if 1 >= DURATION_MAX - s.cached then None
      else Some(Entry(s.nextId, Stop, s.cached + 1, 0, 0))
    case _ => None
  }

  ghost predicate QueueEffect(q: seq<Entry>, e: Option<Entry>, q': seq<Entry>) {
    forall x :: x in q' <==> (e.Some? && x == e.value) || (x in q && (e.Some? ==> x.id != e.value.id))
  }

  ghost predicate SameBut(s: State, s': State) {
    && s' == s.(queue := s'.queue, nextId := s'.nextId, current := s'.current,
                epochOffset := s'.epochOffset, missionStart := s'.missionStart)
    && s'.nextId >= s.nextId
    && (s'.current.Some? <==> s.current.Some?)
    && (s.current.Some? ==> s'.current.value.id == s.current.value.id
                            && s'.current.value.ep == s.current.value.ep)
  }

  lemma AddEffect(s: State, ep: EntryPoint, time: int, cycle: int, repeat: int)
    requires WellFormed(s)
    ensures var s' := s.Add(ep, time, cycle, repeat);
            && WellFormed(s') && SameBut(s, s')
            && QueueEffect(s.queue, Some(Entry(s.nextId, ep, time, cycle, repeat)), s'.queue)
            && s'.current == s.current
  {
    ReinsertMembers(s.queue, Entry(s.nextId, ep, time, cycle, repeat));
  }

  lemma RetimeEffect(s: State, e: Entry, time: int)
    requires WellFormed(s) && e.id < s.nextId
    requires s.IsCurrent(e.id) ==> e == s.current.value
    ensures var s' := s.Retime(e, time);
            && WellFormed(s') && SameBut(s, s')
            && QueueEffect(s.queue, Some(e.(time := time)), s'.queue)
            && (s.IsCurrent(e.id) ==> s'.current == Some(e.(time := time)))
            && (!s.IsCurrent(e.id) ==> s'.current == s.current)
  {
    ReinsertMembers(s.queue, e.(time := time));
  }

  lemma OverwriteEffect(s: State, e: Entry, e': Entry)
    requires WellFormed(s) && s.Lookup(e.id) == Some(e)
    requires e' == e.(period := e'.period, repeat := e'.repeat)
    ensures var s' := s.Overwrite(e');
            && WellFormed(s') && SameBut(s, s')
            && QueueEffect(s.queue, Written(s, Some(e')), s'.queue)
            && (s.IsCurrent(e.id) ==> s'.current == Some(e'))
            && (!s.IsCurrent(e.id) ==> s'.current == s.current)
  {
    ReplaceMembers(s.queue, e');
    if Find(s.queue, e.id).Some? {
      assert Queued(s.queue, e.id);
    }
  }

  ghost predicate Overwrites(s: State, e: Option<Entry>, s': State) {
    WellFormed(s') && SameBut(s, s') && QueueEffect(s.queue, e, s'.queue)
  }

  lemma SetTimeEffect(s: State, c: Command)
    requires WellFormed(s) && c.SetTime?
    ensures Overwrites(s, Effect(s, c), Apply(s, c))
  {
    var a := AbsoluteTime(s.cached, Delay(s, c.clock, c.t));
    if a.Some? && s.Lookup(c.id).Some? {
      var e := s.Lookup(c.id).value;
      RetimeEffect(s, e, a.value);
      ReinsertTwice(s.queue, e.(time := a.value));
      assert Apply(s, c) == s.Retime(e, a.value);
    }
  }

  lemma SetCycleEffect(s: State, c: Command)
    requires WellFormed(s) && c.SetCycle?
    ensures Overwrites(s, Effect(s, c), Apply(s, c))
  {
    if s.Lookup(c.id).Some? {
      OverwriteEffect(s, s.Lookup(c.id).value, s.Lookup(c.id).value.(period := c.cycle));
    }
  }

  lemma SetRepeatEffect(s: State, c: Command)
    requires WellFormed(s) && c.SetRepeat?
    ensures Overwrites(s, Effect(s, c), Apply(s, c))
  {
    if s.Lookup(c.id).Some? {
      OverwriteEffect(s, s.Lookup(c.id).value, s.Lookup(c.id).value.(repeat := c.repeat));
    }
  }

  lemma AddAtEffect(s: State, c: Command)
    requires WellFormed(s) && c.AddAt?
    ensures Overwrites(s, Effect(s, c), Apply(s, c))
  {
    var a := AbsoluteTime(s.cached, Delay(s, c.clock, c.t));
    if a.Some? { AddEffect(s, c.ep, a.value, c.cycle, c.repeat); }
  }

  lemma HoldEffect(s: State, c: Command)
    requires WellFormed(s) && c.Hold?
    ensures Overwrites(s, Effect(s, c), Apply(s, c))
  {
    AddEffect(s, Stop, if c.immediate then IMMEDIATE else s.cached + 1, 0, 0);
  }

  /** One call overwrites at most one entry of the queue and no clock but the offsets. */
  lemma ApplyEffect(s: State, c: Command)
    requires WellFormed(s)
    ensures Overwrites(s, Effect(s, c), Apply(s, c))
  {
    if c.SetTime? { SetTimeEffect(s, c); }
    else if c.SetCycle? { SetCycleEffect(s, c); }
    else if c.SetRepeat? { SetRepeatEffect(s, c); }
    else if c.AddAt? { AddAtEffect(s, c); }
    else if c.Hold? { HoldEffect(s, c); }
    else if c.AddImmediate? { AddEffect(s, c.ep, IMMEDIATE, 0, 0); }
  }

  /** Exactly when one call keeps the time invariant: the one entry it writes, if any, fits. */
  lemma CallKeepsGoodIff(s: State, floor: int, c: Command)
    requires Good(s, floor)
    ensures Good(Apply(s, c), floor) <==> (Effect(s, c).Some? ==> Fits(Effect(s, c).value, floor))
  {
    ApplyEffect(s, c);
    if Effect(s, c).Some? {
      assert Effect(s, c).value in Apply(s, c).queue;
    }
  }

  /** The same as a condition on the argument alone. With `floor` the current time: −1 parks, any
      non-negative delay is future or rejected, a smaller one backdates the event unless it hits
      one of the two reserved values. In the handlers of a time change `floor` is the new time
      while the scheduler still counts from the cached old one: the delay must bridge the gap. */
  lemma DelayKeepsGoodIff(s: State, floor: int, clock: Clock, id: nat, t: int)
    requires Good(s, floor) && s.Lookup(id).Some?
    ensures var c := SetTime(id, clock, t);
            var e := s.Lookup(id).value;
            var d := Delay(s, clock, t);
            Good(Apply(s, c), floor) <==>
              || d == -1 || d >= floor - s.cached || d >= DURATION_MAX - s.cached
              || s.cached + d == PARKED
              || (s.cached + d == IMMEDIATE && (e.period <= 0 || e.repeat == 0))
  {
    CallKeepsGoodIff(s, floor, SetTime(id, clock, t));
  }

  // ---- one step -------------------------------------------------------------------

  /** The assumption on a call: what it writes fits, and only AddImmediate makes immediate events. */
  predicate Legal(s: State, floor: int, c: Command) {
    Effect(s, c).Some? ==>
      && Fits(Effect(s, c).value, floor)
      && (c.AddAt? || c.SetTime? ==> Effect(s, c).value.time != IMMEDIATE)
  }

  predicate LegalAll(s: State, floor: int, cs: seq<Command>)
    decreases |cs|
  {
    cs != [] ==> Legal(s, floor, cs[0]) && LegalAll(Apply(s, cs[0]), floor, cs[1..])
  }

  lemma DelayFromNowIsLegal(s: State, c: Command)
    requires Good(s, s.now) && s.cached == s.now
    requires c.AddAt? || c.SetTime?
    requires Delay(s, c.clock, c.t) >= -1
    ensures Legal(s, s.now, c)
  {
  }

  lemma {:induction false} ApplyAllGood(s: State, floor: int, cs: seq<Command>)
    requires Good(s, floor) && LegalAll(s, floor, cs)
    ensures Good(ApplyAll(s, cs), floor) && SameBut(s, ApplyAll(s, cs))
    decreases |cs|
  {
    if cs != [] {
      ApplyEffect(s, cs[0]);
      CallKeepsGoodIff(s, floor, cs[0]);
      ApplyAllGood(Apply(s, cs[0]), floor, cs[1..]);
    }
  }

  /** The state after the handlers of SMP_PreSimTimeChange and the change of time itself. */
  function Moved(b: State, pre: seq<Command>): State {
    if b.NextTime() > b.now then ApplyAll(b, pre).(now := b.NextTime()) else b
  }

  function Started(k: State): State
    requires k.current.Some?
  {
    var e := k.current.value;
    k.(log := k.log + [Firing(e.id, e.ep, k.now, k.Epoch(), k.Mission())])
  }

  predicate LegalFiring(r: State, calls: Calls) {
    Pops(r) && r.queue != [] ==>
      && LegalAll(Started(Rearm(Take(r))), r.now, calls.body)
      && LegalAll(Fire(Take(r), calls.body), r.now, calls.after)
      && (r.queue[0].repeat == 0 ==>
            forall c :: c in calls.body + calls.after ==> !(c.SetTime? && c.id == r.queue[0].id))
  }

  /** The assumptions on what happens around one step:
      all calls are legal, those of time-change handlers against the new time;
      nobody parks the last activable event between the two lock regions;
      an event on its last execution is not re-timed. */
  predicate LegalStep(s: State, calls: Calls) {
    s.running && !Exhausted(s) ==>
      && LegalAll(s, s.now, calls.before)
      && var b := ApplyAll(s, calls.before);
      && b.NextTime() != PARKED
      && (b.NextTime() > b.now ==> LegalAll(b, b.NextTime(), calls.pre))
      && LegalAll(Moved(b, calls.pre), b.NextTime(), calls.post)
      && (Ready(s, calls).Some? ==> LegalFiring(Ready(s, calls).value, calls))
  }

  lemma NextTimeIsLeast(s: State)
    requires Good(s, s.now) && s.cached == s.now
    ensures s.NextTime() == PARKED <==> forall x :: x in s.queue ==> x.time == PARKED
    ensures s.NextTime() != PARKED ==> Good(s, s.NextTime()) && s.now <= s.NextTime() < DURATION_MAX
    ensures s.NextTime() > s.now ==> forall x :: x in s.queue ==> x.time == PARKED || s.NextTime() <= x.time
  {
    forall x | x in s.queue
      ensures s.queue[0].time != PARKED ==> x.time == PARKED || s.queue[0].time <= x.time
      ensures s.queue[0].time == PARKED ==> x.time == PARKED
      ensures Fits(x, s.now) && Fits(s.queue[0], s.now)
    {
      HeadIsLeast(s.queue, x);
      assert s.queue[0] in s.queue;
    }
    if s.queue != [] { assert s.queue[0] in s.queue; }
  }

  /** Exactly when the time keeper throws: no activable event is left when it asks. */
  lemma AdvanceThrowsIff(b: State, pre: seq<Command>, post: seq<Command>)
    requires Good(b, b.now) && b.cached == b.now
    ensures Advance(b, pre, post).None? <==> forall x :: x in b.queue ==> x.time == PARKED
  {
  }

  /** The calls before the time change, the change itself, and what is left to do after it. */
  lemma MovedGood(s: State, calls: Calls)
    requires Inv(s) && s.running && !Exhausted(s) && LegalStep(s, calls)
    ensures var b := ApplyAll(s, calls.before);
            && Good(b, b.now) && b.cached == b.now == s.now && SameBut(s, b)
            && s.now <= b.NextTime() && (b.NextTime() > b.now ==> Good(b, b.NextTime()))
            && var m := Moved(b, calls.pre);
            && Good(m, m.now) && m.now == b.NextTime() && LegalAll(m, m.now, calls.post)
            && m.current.None? && m.log == s.log && m.running && m.executing == s.executing
            && s.nextId <= m.nextId && b.nextId <= m.nextId
            && Ready(s, calls) == Some(ApplyAll(m, calls.post).(cached := ApplyAll(m, calls.post).now))
  {
    ApplyAllGood(s, s.now, calls.before);
    var b := ApplyAll(s, calls.before);
    NextTimeIsLeast(b);
    if b.NextTime() > b.now {
      ApplyAllGood(b, b.NextTime(), calls.pre);
    }
  }

  lemma ReadyGood(s: State, calls: Calls)
    requires Inv(s) && s.running && !Exhausted(s) && LegalStep(s, calls)
    ensures Ready(s, calls).Some?
    ensures var r := Ready(s, calls).value;
            && Good(r, r.now) && r.cached == r.now && r.current.None?
            && s.now <= r.now && r.log == s.log && r.running && r.executing == s.executing
            && s.nextId <= r.nextId
  {
    MovedGood(s, calls);
    var m := Moved(ApplyAll(s, calls.before), calls.pre);
    ApplyAllGood(m, m.now, calls.post);
  }

  lemma TakeGood(r: State)
    requires Good(r, r.now) && r.cached == r.now && r.current.None? && Pops(r)
    ensures r.queue != []
    ensures var k := Take(r);
            var e := r.queue[0];
            && Good(k, k.now) && e in r.queue
            && (forall x :: x in k.queue <==> x in r.queue && x != e)
            && (forall x :: x in k.queue ==> x.id != e.id)
            && (e.time == IMMEDIATE || e.time == r.now)
  {
  }

  lemma RearmGood(k: State)
    requires Good(k, k.now) && k.cached == k.now && k.current.Some?
    requires forall x :: x in k.queue ==> x.id != k.current.value.id
    requires var e := k.current.value;
             e.time == k.now || (e.time == IMMEDIATE && Fits(e, k.now))
    ensures Good(Rearm(k), k.now)
    ensures Rearm(k) == k.(queue := Rearm(k).queue, current := Rearm(k).current)
    ensures var e := k.current.value;
            && QueueEffect(k.queue,
                           if e.repeat != 0 && e.period > 0
                           then Some(CountDown(e).(time := Following(e))) else None,
                           Rearm(k).queue)
            && Rearm(k).current == (if e.repeat != 0 && e.period > 0
                                    then Some(CountDown(e).(time := Following(e))) else Some(CountDown(e)))
  {
    var e := k.current.value;
    var k1 := k.(current := Some(CountDown(e)));
    if e.repeat != 0 && e.period > 0 {
      RetimeEffect(k1, CountDown(e), Following(e));
      assert Fits(CountDown(e).(time := Following(e)), k.now);
    }
  }

  lemma ExecuteGood(k: State, body: seq<Command>)
    requires Good(k, k.now) && k.cached == k.now && k.current.Some?
    requires LegalAll(Started(k), k.now, body)
    ensures var k' := Execute(k, body);
            && Good(k', k.now) && k'.cached == k'.now == k.now
            && k'.current.Some? && k'.current.value.id == k.current.value.id
            && k'.log == Started(k).log && k'.nextId >= k.nextId
            && k'.queue == ApplyAll(Started(k), body).queue
            && k'.current == ApplyAll(Started(k), body).current
            && StopsIf(k.current.value.ep.Stop?, k, k')
  {
    ApplyAllGood(Started(k), k.now, body);
  }

  lemma ParkGood(k: State, completed: bool)
    requires Good(k, k.now) && k.cached == k.now && k.current.Some?
    ensures var k' := ParkAperiodic(k, completed);
            && Good(k', k.now) && SameBut(k, k')
            && QueueEffect(k.queue,
                           if !completed && k.current.value.time != PARKED && k.current.value.period == -1
                           then Some(k.current.value.(time := PARKED)) else None,
                           k'.queue)
  {
    if !completed && k.current.value.time != PARKED && k.current.value.period == -1 {
      RetimeEffect(k, k.current.value, PARKED);
    }
  }

  ghost predicate StopsIf(stop: bool, k: State, k': State) {
    && (stop ==> !k'.running && !k'.executing)
    && (!stop ==> k'.running == k.running && k'.executing == k.executing)
  }

  lemma RearmTakenGood(r: State, calls: Calls)
    requires Good(r, r.now) && r.cached == r.now && r.current.None? && Pops(r)
    requires r.queue != [] && LegalFiring(r, calls)
    ensures var k := Rearm(Take(r));
            && Good(k, k.now) && k.cached == k.now == r.now && k.current.Some?
            && k.current.value.id == r.queue[0].id && k.current.value.ep == r.queue[0].ep
            && LegalAll(Started(k), k.now, calls.body)
            && k == Take(r).(queue := k.queue, current := k.current)
            && Started(k).log == Started(Take(r)).log
  {
    TakeGood(r);
    RearmGood(Take(r));
  }

  lemma FireGood(r: State, calls: Calls)
    requires Good(r, r.now) && r.cached == r.now && r.current.None? && Pops(r)
    requires r.queue != [] && LegalFiring(r, calls)
    ensures var f := Fire(Take(r), calls.body);
            && Good(f, r.now) && f.cached == f.now == r.now
            && f.log == Started(Take(r)).log && f.nextId >= r.nextId
            && StopsIf(r.queue[0].ep.Stop?, r, f)
  {
    RearmTakenGood(r, calls);
    var k := Rearm(Take(r));
    ExecuteGood(k, calls.body);
    var x := Execute(k, calls.body);
    ParkGood(x, r.queue[0].repeat == 0);
    assert Fire(Take(r), calls.body) == ParkAperiodic(x, r.queue[0].repeat == 0);
  }

  lemma FiringGood(r: State, calls: Calls)
    requires Good(r, r.now) && r.cached == r.now && r.current.None? && Pops(r)
    requires r.queue != [] && LegalFiring(r, calls)
    ensures var g := ApplyAll(Fire(Take(r), calls.body), calls.after);
            && Good(g, r.now) && g.cached == g.now == r.now
            && g.log == Started(Take(r)).log && g.nextId >= r.nextId
            && StopsIf(r.queue[0].ep.Stop?, r, g)
  {
    FireGood(r, calls);
    ApplyAllGood(Fire(Take(r), calls.body), r.now, calls.after);
  }
}
