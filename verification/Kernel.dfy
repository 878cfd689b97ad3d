/** What the scheduler, the time keeper and the simulator compute, as functions on values.
    `Scheduler.dfy` holds the classes that change state in place and refine these functions. */
module Kernel {
  import opened Options
  import opened ScheduleQueue

  const DURATION_MAX: int := 0x7FFF_FFFF_FFFF_FFFF

  datatype Clock = SimulationClock | MissionClock | EpochClock

  /** The calls an entry point or an event handler may issue. */
  datatype Command =
    | AddImmediate(ep: EntryPoint)
    | AddAt(ep: EntryPoint, clock: Clock, t: int, cycle: int, repeat: int)
    | SetTime(id: nat, clock: Clock, t: int)
    | SetCycle(id: nat, cycle: int)
    | SetRepeat(id: nat, repeat: int)
    | SetEpochTime(t: int)
    | SetMissionStart(t: int)
    | SetMissionTime(t: int)
    | Hold(immediate: bool)

  /** One execution of an entry point, with the clocks it could read. */
  datatype Firing = Firing(id: nat, ep: EntryPoint, time: int, epoch: int, mission: int)

  /** `now` is the time keeper's simulation time, `cached` the scheduler's copy of it. */
  datatype State = State(queue: seq<Entry>, current: Option<Entry>, nextId: nat,
                         cached: int, now: int, epochOffset: int, missionStart: int,
                         running: bool, executing: bool, log: seq<Firing>)
  {
    function Epoch(): int { epochOffset + now }

    function Mission(): int { Epoch() - missionStart }

    function NextTime(): int {
      if queue == [] then PARKED
      else if queue[0].time == IMMEDIATE then cached
      else queue[0].time
    }

    function Lookup(id: nat): Option<Entry> {
      if current.Some? && current.value.id == id then current else Find(queue, id)
    }

    function IsCurrent(id: nat): bool {
      current.Some? && current.value.id == id
    }

    function Add(ep: EntryPoint, time: int, cycle: int, repeat: int): State {
      this.(queue := Reinsert(queue, Entry(nextId, ep, time, cycle, repeat)), nextId := nextId + 1)
    }

    /** The entry is re-keyed in place and scheduled again. */
    function Retime(e: Entry, time: int): State {
      var e' := e.(time := time);
      this.(queue := Reinsert(queue, e'), current := if IsCurrent(e.id) then Some(e') else current)
    }

    function ScheduleAgain(e: Entry): State {
      this.(queue := Reinsert(queue, e))
    }

    /** A period or repeat count is overwritten in place. */
    function Overwrite(e: Entry): State {
      this.(queue := Replace(queue, e), current := if IsCurrent(e.id) then Some(e) else current)
    }
  }

  function Delay(s: State, clock: Clock, t: int): int {
    match clock
    case SimulationClock => t
    case MissionClock => t - s.Mission()
    case EpochClock => t - s.Epoch()
  }

  /** `getAbsoluteTime`; None is the thrown ExInvalidSimulationTime. */
  function AbsoluteTime(cached: int, delay: int): Option<int> {
    if delay == -1 then Some(PARKED)
    else if delay >= DURATION_MAX - cached then None
    else Some(cached + delay)
  }

  predicate InvalidCycle(cycle: int) { cycle < -1 || cycle == 0 }

  /** One call. A call that throws changes nothing. */
  function Apply(s: State, c: Command): State {
    match c
    case AddImmediate(ep) => s.Add(ep, IMMEDIATE, 0, 0)
    case AddAt(ep, clock, t, cycle, repeat) =>
      if clock.SimulationClock? && repeat > 0 && InvalidCycle(cycle) then s
      else
        (match AbsoluteTime(s.cached, Delay(s, clock, t))
         case None => s
         case Some(a) => s.Add(ep, a, cycle, repeat))
    case SetTime(id, clock, t) =>
      (match (AbsoluteTime(s.cached, Delay(s, clock, t)), s.Lookup(id))
       case (Some(a), Some(e)) => s.Retime(e, a).ScheduleAgain(e.(time := a))
       case (_, _) => s)
    case SetCycle(id, cycle) =>
      if InvalidCycle(cycle) || s.Lookup(id).None? then s
      else s.Overwrite(s.Lookup(id).value.(period := cycle))
    case SetRepeat(id, repeat) =>
      if s.Lookup(id).None? then s
      else s.Overwrite(s.Lookup(id).value.(repeat := repeat))
    case SetEpochTime(t) => s.(epochOffset := t - s.now)
    case SetMissionStart(t) => s.(missionStart := t)
    case SetMissionTime(t) => s.(missionStart := s.Epoch() - t)
    case Hold(immediate) =>
      if !s.executing then s
      else if immediate then s.Add(Stop, IMMEDIATE, 0, 0)
      else
        (match AbsoluteTime(s.cached, 1)
         case None => s
         case Some(a) => s.Add(Stop, a, 0, 0))
  }

  function ApplyAll(s: State, cs: seq<Command>): State
    decreases |cs|
  {
    if cs == [] then s else ApplyAll(Apply(s, cs[0]), cs[1..])
  }

  // ---- one scheduler step ------------------------------------------------------

  /** Everything that happens around one step of the scheduler thread. */
  datatype Calls = Calls(
    before: seq<Command>,  // until the time keeper handles Scheduler_PreEventExecute
    pre: seq<Command>,     // handlers of SMP_PreSimTimeChange
    post: seq<Command>,    // handlers of SMP_PostSimTimeChange, until the cached time is refreshed
    body: seq<Command>,    // the entry point this step executes
    after: seq<Command>)   // handlers of Scheduler_PostEventExecute

  /** `TimeKeeper::epUpdateSimulationTime`; None is the thrown ExInvalidSimulationTime. */
  function Advance(s: State, pre: seq<Command>, post: seq<Command>): Option<State> {
    var next := s.NextTime();
    if next > s.now && next != DURATION_MAX then
      Some(ApplyAll(ApplyAll(s, pre).(now := next), post))
    else if next < s.now then None
    else Some(ApplyAll(s, post))
  }

  predicate Exhausted(s: State) {
    s.NextTime() == PARKED || s.NextTime() == DURATION_MAX
  }

  /** The state in which the step picks the entry to run. */
  function Ready(s: State, calls: Calls): Option<State> {
    match Advance(ApplyAll(s, calls.before), calls.pre, calls.post)
    case None => None
    case Some(a) => Some(a.(cached := a.now))
  }

  predicate Pops(r: State) {
    r.running && r.NextTime() <= r.now && r.NextTime() != PARKED
  }

  function Take(r: State): State
    requires r.queue != []
  {
    r.(queue := r.queue[1..], current := Some(r.queue[0]))
  }

  function Following(e: Entry): int {
    if e.period == -1 || e.period >= DURATION_MAX - e.time then PARKED else e.time + e.period
  }

  function CountDown(e: Entry): Entry {
    if e.repeat > 0 then e.(repeat := e.repeat - 1) else e
  }

  /** `Schedule::run` up to the execution: the next activation is set first. */
  function Rearm(k: State): State
    requires k.current.Some?
  {
    var e := k.current.value;
    var k1 := k.(current := Some(CountDown(e)));
    if e.repeat != 0 && e.period > 0 then k1.Retime(CountDown(e), Following(e)) else k1
  }

  /** The entry point itself; the simulator's stop entry point leaves the executing state. */
  function Execute(k: State, body: seq<Command>): State
    requires k.current.Some?
  {
    var e := k.current.value;
    var k1 := ApplyAll(k.(log := k.log + [Firing(e.id, e.ep, k.now, k.Epoch(), k.Mission())]), body);
    if e.ep.Stop? then k1.(running := false, executing := false) else k1
  }

  /** An aperiodic event is parked after its execution. */
  function ParkAperiodic(k: State, completed: bool): State {
    if k.current.Some? && !completed && k.current.value.time != PARKED && k.current.value.period == -1
    then k.Retime(k.current.value, PARKED)
    else k
  }

  function Fire(k: State, body: seq<Command>): State
    requires k.current.Some?
  {
    ParkAperiodic(Execute(Rearm(k), body), k.current.value.repeat == 0)
  }

  /** `Dangling`: a schedule that completed is deleted while the queue still holds it. */
  datatype Outcome = Running(state: State) | TimeThrown | Dangling

  /** The step once time is updated: the head runs if it is due. */
  function AfterDue(r: State, calls: Calls): State {
    if !Pops(r) || r.queue == [] then r.(current := None, cached := r.now)
    else
      var g := ApplyAll(Fire(Take(r), calls.body), calls.after);
      g.(current := None, cached := g.now)
  }

  predicate Dangles(r: State, calls: Calls) {
    && Pops(r) && r.queue != [] && r.queue[0].repeat == 0
    && Find(ApplyAll(Fire(Take(r), calls.body), calls.after).queue, r.queue[0].id).Some?
  }

  function Step(s: State, calls: Calls): Outcome {
    if !s.running then Running(s)
    else if Exhausted(s) then Running(Apply(s, Hold(true)))
    else
      match Ready(s, calls)
      case None => TimeThrown
      case Some(r) => if Dangles(r, calls) then Dangling else Running(AfterDue(r, calls))
  }

  function Run(s: State, ins: seq<Calls>): Outcome
    decreases |ins|
  {
    if ins == [] then Running(s)
    else
      match Step(s, ins[0])
      case Running(s') => Run(s', ins[1..])
      case o => o
  }

  /** `Simulator::Run` in the standby state, up to the start of the scheduler thread. */
  function Launch(s: State): State {
    s.Add(Start, IMMEDIATE, 0, 0).(executing := true, running := true, cached := s.now)
  }
}
