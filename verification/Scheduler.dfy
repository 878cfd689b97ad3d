/** The scheduler, its schedules and the time keeper as objects updated in place. Every method
    is proved to compute the corresponding function of module Kernel. */
module SchedulerObjects {
  import opened Options
  import opened ScheduleQueue
  import opened Kernel
  import opened KernelInvariant
  import opened KernelRuns
  import opened KernelTermination

  class Schedule {
    const ep: EntryPoint
    var time: int
    var period: int
    var repeat: int
    var id: int
    var completed: bool

    constructor (ep: EntryPoint, time: int, period: int, repeat: int)
      ensures this.ep == ep && this.time == time && this.period == period && this.repeat == repeat
      ensures id == -1 && !completed
    {
      this.ep, this.time, this.period, this.repeat := ep, time, period, repeat;
      id, completed := -1, false;
    }

    function Snapshot(): Entry
      requires id >= 0
      reads this
    {
      Entry(id, ep, time, period, repeat)
    }
  }

  class TimeKeeper {
    var simTime: int
    var epochOffset: int
    var missionStart: int

    constructor ()
      ensures simTime == 0 && epochOffset == 0 && missionStart == 0
    {
      simTime, epochOffset, missionStart := 0, 0, 0;
    }

    function GetEpochTime(): int reads this { epochOffset + simTime }

    function GetMissionTime(): int reads this { GetEpochTime() - missionStart }

    method SetEpochTime(t: int)
      modifies this`epochOffset
      ensures GetEpochTime() == t
    {
      epochOffset := t - simTime;
    }

    method SetMissionStart(t: int)
      modifies this`missionStart
      ensures GetMissionTime() == GetEpochTime() - t
    {
      missionStart := t;
    }

    method SetMissionTime(t: int)
      modifies this`missionStart
      ensures GetMissionTime() == t
    {
      missionStart := GetEpochTime() - t;
    }
  }

  lemma {:induction false} InsertAt(q: seq<Entry>, e: Entry, i: nat)
    requires i <= |q| && forall j :: 0 <= j < i ==> !Less(e, q[j])
    requires i == |q| || Less(e, q[i])
    ensures Insert(q, e) == q[..i] + [e] + q[i..]
  {
    if i > 0 {
      InsertAt(q[1..], e, i - 1);
      assert q[..i] == [q[0]] + q[1..][..i - 1];
    }
  }

  lemma {:induction false} EraseAt(q: seq<Entry>, id: nat, i: nat)
    requires i <= |q| && forall j :: 0 <= j < i ==> q[j].id != id
    requires i == |q| || q[i].id == id
    ensures Erase(q, id) == if i == |q| then q else q[..i] + q[i + 1..]
  {
    if q != [] && i > 0 {
      EraseAt(q[1..], id, i - 1);
      if i < |q| {
        assert q[..i] == [q[0]] + q[1..][..i - 1];
        assert q[1..][i..] == q[i + 1..];
      }
    }
  }

  lemma {:induction false} FindAt(q: seq<Entry>, id: nat, i: nat)
    requires i <= |q| && forall j :: 0 <= j < i ==> q[j].id != id
    requires i == |q| || q[i].id == id
    ensures Find(q, id) == if i == |q| then None else Some(q[i])
  {
    if q != [] && i > 0 { FindAt(q[1..], id, i - 1); }
  }

  /** Every schedule has an identifier below `nextId`, no two the same. */
  ghost predicate Identified(q: seq<Schedule>, nextId: nat)
    reads q
  {
    && (forall i :: 0 <= i < |q| ==> 0 <= q[i].id < nextId)
    && (forall i, j :: 0 <= i < j < |q| ==> q[i].id != q[j].id)
  }

  ghost function Entries(q: seq<Schedule>, nextId: nat): (r: seq<Entry>)
    requires Identified(q, nextId)
    reads q
    ensures |r| == |q| && forall i :: 0 <= i < |q| ==> r[i] == q[i].Snapshot()
  {
    seq(|q|, i requires 0 <= i < |q| && Identified(q, nextId) reads q => q[i].Snapshot())
  }

  lemma WithoutIndex(q: seq<Schedule>, nextId: nat, i: nat)
    requires Identified(q, nextId) && i < |q|
    ensures var r := q[..i] + q[i + 1..];
            && Identified(r, nextId)
            && Entries(r, nextId) == Entries(q, nextId)[..i] + Entries(q, nextId)[i + 1..]
            && forall s :: s in r ==> s in q && s.id != q[i].id
  {
  }

  lemma InsertedMembers<T>(q: seq<T>, i: nat, s: T)
    requires i <= |q|
    ensures forall x :: x in q[..i] + [s] + q[i..] <==> x == s || x in q
  {
  }

  lemma WithInserted(q: seq<Schedule>, nextId: nat, i: nat, s: Schedule)
    requires Identified(q, nextId) && i <= |q| && 0 <= s.id < nextId
    requires forall x :: x in q ==> x.id != s.id
    ensures Identified(q[..i] + [s] + q[i..], nextId)
  {
  }

  lemma InsertedEntries(q: seq<Schedule>, nextId: nat, i: nat, s: Schedule)
    requires Identified(q, nextId) && i <= |q| && 0 <= s.id < nextId
    requires Identified(q[..i] + [s] + q[i..], nextId)
    ensures Entries(q[..i] + [s] + q[i..], nextId)
            == Entries(q, nextId)[..i] + [s.Snapshot()] + Entries(q, nextId)[i..]
  {
  }

  lemma InsertedInOrder(q: seq<Schedule>, nextId: nat, i: nat, s: Schedule)
    requires Identified(q, nextId) && i <= |q| && 0 <= s.id < nextId
    requires forall x :: x in q ==> x.id != s.id
    requires forall j :: 0 <= j < i ==> !Less(s.Snapshot(), q[j].Snapshot())
    requires i == |q| || Less(s.Snapshot(), q[i].Snapshot())
    ensures var r := q[..i] + [s] + q[i..];
            && Identified(r, nextId) && Entries(r, nextId) == Insert(Entries(q, nextId), s.Snapshot())
            && forall x :: x in r <==> x == s || x in q
  {
    InsertAt(Entries(q, nextId), s.Snapshot(), i);
    WithInserted(q, nextId, i, s);
    InsertedEntries(q, nextId, i, s);
    InsertedMembers(q, i, s);
  }

  class Scheduler {
    const timeKeeper: TimeKeeper
    var scheduled: seq<Schedule>
    var currentSchedule: Schedule?
    var nextId: nat
    var simulationTime: int
    var running: bool
    var executing: bool  // the simulator is in its executing state
    ghost var objects: set<Schedule>
    ghost var log: seq<Firing>

    ghost predicate Valid()
      reads this, objects
    {
      && (forall s :: s in scheduled ==> s in objects)
      && Identified(scheduled, nextId)
      && (currentSchedule != null ==>
            && currentSchedule in objects && 0 <= currentSchedule.id < nextId
            && forall s :: s in scheduled && s.id == currentSchedule.id ==> s == currentSchedule)
    }

    ghost function Queue(): seq<Entry>
      requires Valid()
      reads this, objects
    {
      Entries(scheduled, nextId)
    }

    ghost function Current(): Option<Entry>
      requires Valid()
      reads this, objects
    {
      if currentSchedule == null then None else Some(currentSchedule.Snapshot())
    }

    ghost function Value(): State
      requires Valid()
      reads this, objects, timeKeeper
    {
      State(Queue(), Current(), nextId, simulationTime, timeKeeper.simTime,
            timeKeeper.epochOffset, timeKeeper.missionStart, running, executing, log)
    }

    constructor (timeKeeper: TimeKeeper)
      ensures Valid() && this.timeKeeper == timeKeeper && fresh(objects)
      ensures Value() == State([], None, 0, 0, timeKeeper.simTime, timeKeeper.epochOffset,
                               timeKeeper.missionStart, false, false, [])
    {
      this.timeKeeper := timeKeeper;
      scheduled, currentSchedule, nextId, simulationTime := [], null, 0, 0;
      running, executing, objects, log := false, false, {}, [];
    }

    method IndexOf(id: nat) returns (i: nat)
      requires Valid()
      ensures i <= |scheduled| && (forall j :: 0 <= j < i ==> scheduled[j].id != id)
      ensures i == |scheduled| || scheduled[i].id == id
    {
      i := 0;
      while i < |scheduled| && scheduled[i].id != id
        invariant 0 <= i <= |scheduled|
        invariant forall j :: 0 <= j < i ==> scheduled[j].id != id
      {
        i := i + 1;
      }
    }

    method PositionOf(s: Schedule) returns (i: nat)
      requires Valid() && s.id >= 0
      ensures i <= |scheduled| && (forall j :: 0 <= j < i ==> !Less(s.Snapshot(), scheduled[j].Snapshot()))
      ensures i == |scheduled| || Less(s.Snapshot(), scheduled[i].Snapshot())
    {
      i := 0;
      while i < |scheduled| && !Less(s.Snapshot(), scheduled[i].Snapshot())
        invariant 0 <= i <= |scheduled|
        invariant forall j :: 0 <= j < i ==> !Less(s.Snapshot(), scheduled[j].Snapshot())
      {
        i := i + 1;
      }
    }

    method EraseObject(id: nat)
      requires Valid()
      modifies this`scheduled
      ensures Valid() && Queue() == Erase(old(Queue()), id)
      ensures forall s :: s in scheduled ==> s in old(scheduled) && s.id != id
    {
      ghost var q := Queue();
      var i := IndexOf(id);
      EraseAt(q, id, i);
      if i < |scheduled| {
        WithoutIndex(scheduled, nextId, i);
        scheduled := scheduled[..i] + scheduled[i + 1..];
      }
    }

    method InsertObject(s: Schedule)
      requires Valid() && s in objects && 0 <= s.id < nextId
      requires forall x :: x in scheduled ==> x.id != s.id
      requires currentSchedule != null && currentSchedule.id == s.id ==> currentSchedule == s
      modifies this`scheduled
      ensures Valid() && Queue() == Insert(old(Queue()), s.Snapshot())
      ensures forall x :: x in scheduled <==> x == s || x in old(scheduled)
    {
      var i := PositionOf(s);
      InsertedInOrder(scheduled, nextId, i, s);
      scheduled := scheduled[..i] + [s] + scheduled[i..];
    }

    /** A schedule of this scheduler; no other one carries its identifier. */
    ghost predicate Known(s: Schedule)
      requires Valid()
      reads this, objects, s
    {
      && s in objects && 0 <= s.id < nextId
      && (forall x :: x in scheduled && x.id == s.id ==> x == s)
      && (currentSchedule != null && currentSchedule.id == s.id ==> currentSchedule == s)
    }

    /** `schedule(Schedule*)`. The schedule may have been re-keyed while queued: its old position
        is found by identifier, not by key. */
    method ScheduleObject(s: Schedule)
      requires Valid() && s in objects && -1 <= s.id && (s.id >= 0 ==> Known(s))
      modifies this`scheduled, this`nextId, s`id
      ensures Valid() && Known(s)
      ensures s.id == if old(s.id) == -1 then old(nextId) else old(s.id)
      ensures nextId == if old(s.id) == -1 then old(nextId) + 1 else old(nextId)
      ensures Queue() == Reinsert(old(Queue()), s.Snapshot())
      ensures Current() == old(Current())
    {
      ghost var q := Queue();
      if s.id == -1 {
        s.id := nextId;
        nextId := nextId + 1;
        assert Valid();
      }
      assert Queue() == q;
      EraseObject(s.id);
      InsertObject(s);
    }

    /** The key of a possibly queued element changes in place. */
    method Rekey(s: Schedule, time: int)
      requires Valid() && Known(s)
      modifies s`time
      ensures Valid() && Known(s) && s.time == time
      ensures Erase(Queue(), s.id) == Erase(old(Queue()), s.id)
    {
      ghost var q := Queue();
      s.time := time;
      EraseIgnoresKey(q, Queue(), s.id);
    }

    /** `Schedule::setTime`: change the key in place, then repair the order. */
    method SetScheduleTime(s: Schedule, time: int)
      requires Valid() && Known(s)
      modifies this`scheduled, this`nextId, s`id, s`time
      ensures Valid() && Known(s) && s.id == old(s.id)
      ensures s.Snapshot() == old(s.Snapshot()).(time := time)
      ensures Value() == old(Value()).Retime(old(s.Snapshot()), time)
    {
      Rekey(s, time);
      ScheduleObject(s);
    }

    method SetPeriod(s: Schedule, period: int)
      requires Valid() && Known(s)
      modifies s`period
      ensures Valid() && Value() == old(Value()).Overwrite(old(s.Snapshot()).(period := period))
    {
      s.period := period;
    }

    method SetRepeatCount(s: Schedule, repeat: int)
      requires Valid() && Known(s)
      modifies s`repeat
      ensures Valid() && Value() == old(Value()).Overwrite(old(s.Snapshot()).(repeat := repeat))
    {
      s.repeat := repeat;
    }

    method FindSchedule(event: nat) returns (s: Schedule?)
      requires Valid()
      ensures s == null <==> Value().Lookup(event).None?
      ensures s != null ==> Known(s) && Value().Lookup(event) == Some(s.Snapshot())
    {
      if currentSchedule != null && currentSchedule.id == event {
        s := currentSchedule;
      } else {
        var i := IndexOf(event);
        FindAt(Queue(), event, i);
        s := if i < |scheduled| then scheduled[i] else null;
      }
    }

    method AddEvent(ep: EntryPoint, absoluteTime: int, cycle: int, repeat: int) returns (id: nat)
      requires Valid()
      modifies this`scheduled, this`nextId, this`objects
      ensures Valid() && fresh(objects - old(objects)) && old(objects) <= objects
      ensures id == old(nextId) && Value() == old(Value()).Add(ep, absoluteTime, cycle, repeat)
    {
      ghost var q := Queue();
      var s := new Schedule(ep, absoluteTime, cycle, repeat);
      objects := objects + {s};
      assert Valid() && Queue() == q;
      ScheduleObject(s);
      id := s.id;
    }

    /** `getAbsoluteTime` for a time of the given clock; None is the exception. */
    method GetAbsoluteTime(clock: Clock, t: int) returns (time: Option<int>)
      requires Valid()
      ensures time == AbsoluteTime(simulationTime, Delay(Value(), clock, t))
    {
      var relative :=
        match clock
        case SimulationClock => t
        case MissionClock => t - timeKeeper.GetMissionTime()
        case EpochClock => t - timeKeeper.GetEpochTime();
      if relative != -1 {
        var maxTime := DURATION_MAX - simulationTime;
        time := if relative >= maxTime then None else Some(simulationTime + relative);
      } else {
        time := Some(PARKED);
      }
    }

    method AddEventAt(ep: EntryPoint, clock: Clock, t: int, cycle: int, repeat: int) returns (id: Option<nat>)
      requires Valid()
      modifies this`scheduled, this`nextId, this`objects
      ensures Valid() && fresh(objects - old(objects)) && old(objects) <= objects
      ensures Value() == Apply(old(Value()), AddAt(ep, clock, t, cycle, repeat))
      ensures id == if nextId == old(nextId) then None else Some(old(nextId))
    {
      if clock.SimulationClock? && repeat > 0 && InvalidCycle(cycle) { return None; }
      var time := GetAbsoluteTime(clock, t);
      if time.None? { return None; }
      var n := AddEvent(ep, time.value, cycle, repeat);
      return Some(n);
    }

    /** `schedule(EventId, Duration)`: an unknown event is ignored. */
    method Reschedule(event: nat, time: int)
      requires Valid()
      modifies this`scheduled, this`nextId, objects`id, objects`time
      ensures Valid()
      ensures Value() == match old(Value()).Lookup(event)
                         case None => old(Value())
                         case Some(e) => old(Value()).Retime(e, time).ScheduleAgain(e.(time := time))
    {
      var s := FindSchedule(event);
      if s != null {
        SetScheduleTime(s, time);
        ScheduleObject(s);
      }
    }

    method SetEventTime(event: nat, clock: Clock, t: int) returns (thrown: bool)
      requires Valid()
      modifies this`scheduled, this`nextId, objects`id, objects`time
      ensures Valid() && Value() == Apply(old(Value()), SetTime(event, clock, t))
      ensures thrown <==> var d := Delay(old(Value()), clock, t); d != -1 && old(simulationTime) + d >= DURATION_MAX
    {
      var time := GetAbsoluteTime(clock, t);
      thrown := time.None?;
      if !thrown { Reschedule(event, time.value); }
    }

    method SetEventCycleTime(event: nat, cycle: int) returns (thrown: bool)
      requires Valid()
      modifies objects`period
      ensures Valid() && Value() == Apply(old(Value()), SetCycle(event, cycle))
      ensures thrown <==> cycle != -1 && cycle <= 0
    {
      thrown := InvalidCycle(cycle);
      if thrown { return; }
      var s := FindSchedule(event);
      if s != null { SetPeriod(s, cycle); }
    }

    method SetEventRepeat(event: nat, repeat: int)
      requires Valid()
      modifies objects`repeat
      ensures Valid() && Value() == Apply(old(Value()), SetRepeat(event, repeat))
    {
      var s := FindSchedule(event);
      if s != null { SetRepeatCount(s, repeat); }
    }

    /** One call from an entry point or a handler. */
    method Execute(c: Command)
      requires Valid()
      modifies this`scheduled, this`nextId, this`objects, timeKeeper
      modifies objects`id, objects`time, objects`period, objects`repeat
      ensures Valid() && fresh(objects - old(objects)) && old(objects) <= objects
      ensures Value() == Apply(old(Value()), c)
    {
      match c
      case AddImmediate(ep) => var _ := AddEvent(ep, IMMEDIATE, 0, 0);
      case AddAt(ep, clock, t, cycle, repeat) => var _ := AddEventAt(ep, clock, t, cycle, repeat);
      case SetTime(id, clock, t) => var _ := SetEventTime(id, clock, t);
      case SetCycle(id, cycle) => var _ := SetEventCycleTime(id, cycle);
      case SetRepeat(id, repeat) => SetEventRepeat(id, repeat);
      case SetEpochTime(t) => timeKeeper.SetEpochTime(t);
      case SetMissionStart(t) => timeKeeper.SetMissionStart(t);
      case SetMissionTime(t) => timeKeeper.SetMissionTime(t);
      case Hold(immediate) => Hold(immediate);
    }

    /** `Simulator::Hold`, up to the wait of a caller on another thread. */
    method Hold(immediate: bool)
      requires Valid()
      modifies this`scheduled, this`nextId, this`objects
      ensures Valid() && fresh(objects - old(objects)) && old(objects) <= objects
      ensures Value() == Apply(old(Value()), Command.Hold(immediate))
    {
      if executing {
        if immediate {
          var _ := AddEvent(Stop, IMMEDIATE, 0, 0);
        } else {
          var time := GetAbsoluteTime(SimulationClock, 1);
          if time.Some? {
            var _ := AddEvent(Stop, time.value, 0, 0);
          }
        }
      }
    }

    method ExecuteAll(cs: seq<Command>)
      requires Valid()
      modifies this`scheduled, this`nextId, this`objects, timeKeeper
      modifies objects`id, objects`time, objects`period, objects`repeat
      ensures Valid() && fresh(objects - old(objects)) && old(objects) <= objects
      ensures Value() == ApplyAll(old(Value()), cs)
    {
      var i := 0;
      ghost var start := Value();
      while i < |cs|
        invariant 0 <= i <= |cs| && Valid() && fresh(objects - old(objects)) && old(objects) <= objects
        invariant ApplyAll(start, cs) == ApplyAll(Value(), cs[i..])
      {
        Execute(cs[i]);
        assert cs[i..][1..] == cs[i + 1..];
        i := i + 1;
      }
    }

    // ---- the scheduler thread --------------------------------------------------------

    /** `getNextScheduledEventTime`. */
    method GetNextScheduledEventTime() returns (t: int)
      requires Valid()
      ensures t == Value().NextTime()
    {
      if scheduled != [] {
        t := if scheduled[0].time != IMMEDIATE then scheduled[0].time else simulationTime;
      } else {
        t := -1;
      }
    }

    /** The change of time between its two events. */
    method MoveTime(next: int, pre: seq<Command>, post: seq<Command>)
      requires Valid()
      modifies this`scheduled, this`nextId, this`objects, timeKeeper
      modifies objects`id, objects`time, objects`period, objects`repeat
      ensures Valid() && fresh(objects - old(objects)) && old(objects) <= objects
      ensures Value() == ApplyAll(ApplyAll(old(Value()), pre).(now := next), post)
    {
      ExecuteAll(pre);
      ghost var moved := Value().(now := next);
      timeKeeper.simTime := next;
      assert Value() == moved;
      ExecuteAll(post);
    }

    /** `TimeKeeper::epUpdateSimulationTime`, with what its two events make their handlers call. */
    method UpdateSimulationTime(pre: seq<Command>, post: seq<Command>) returns (thrown: bool)
      requires Valid()
      modifies this`scheduled, this`nextId, this`objects, timeKeeper
      modifies objects`id, objects`time, objects`period, objects`repeat
      ensures Valid() && fresh(objects - old(objects)) && old(objects) <= objects
      ensures thrown <==> Advance(old(Value()), pre, post).None?
      ensures !thrown ==> Value() == Advance(old(Value()), pre, post).value
      ensures thrown ==> Value() == old(Value())
    {
      var next := GetNextScheduledEventTime();
      thrown := false;
      if next > timeKeeper.simTime && next != DURATION_MAX {
        MoveTime(next, pre, post);
      } else if next < timeKeeper.simTime {
        thrown := true;
      } else {
        ExecuteAll(post);
      }
    }

    /** The next entry leaves the queue and becomes the current one. */
    method TakeNext() returns (toRun: Schedule)
      requires Valid() && scheduled != []
      modifies this`scheduled, this`currentSchedule
      ensures Valid() && currentSchedule == toRun && toRun !in scheduled
      ensures toRun.repeat == old(Value()).queue[0].repeat
      ensures Value() == Take(old(Value()))
    {
      toRun := scheduled[0];
      currentSchedule := toRun;
      scheduled := scheduled[1..];
      assert Valid();
      assert Queue() == old(Queue())[1..];
    }

    method CountDownCurrent(s: Schedule)
      requires Valid() && currentSchedule == s && s !in scheduled
      modifies s`repeat, s`completed
      ensures Valid() && s.completed == (old(s.repeat) == 0)
      ensures Value() == old(Value()).(current := Some(CountDown(old(s.Snapshot()))))
    {
      ghost var q := Queue();
      s.completed := s.repeat == 0;
      if s.repeat > 0 {
        s.repeat := s.repeat - 1;
      }
      assert Valid() && Queue() == q;
    }

    /** The first half of `Schedule::run`: count down, set the next activation first. */
    method RearmCurrent(s: Schedule)
      requires Valid() && currentSchedule == s && s !in scheduled
      modifies this`scheduled, this`nextId, s`id, s`time, s`repeat, s`completed
      ensures Valid() && Value() == Rearm(old(Value())) && s.completed == (old(s.repeat) == 0)
    {
      CountDownCurrent(s);
      if !s.completed && s.period > 0 {
        SetScheduleTime(s, if s.period == -1 || s.period >= DURATION_MAX - s.time then -1 else s.time + s.period);
      }
    }

    method LogExecution(s: Schedule)
      requires Valid() && currentSchedule == s
      modifies this`log
      ensures Valid() && Value() == Started(old(Value()))
    {
      log := log + [Firing(s.id, s.ep, timeKeeper.simTime, timeKeeper.GetEpochTime(), timeKeeper.GetMissionTime())];
    }

    method RunEntryPoint(s: Schedule, body: seq<Command>)
      requires Valid() && currentSchedule == s
      modifies this`scheduled, this`nextId, this`objects, timeKeeper
      modifies objects`id, objects`time, objects`period, objects`repeat, this`log
      ensures Valid() && fresh(objects - old(objects)) && old(objects) <= objects
      ensures Value() == ApplyAll(Started(old(Value())), body)
    {
      LogExecution(s);
      ExecuteAll(body);
    }

    /** The execution of the entry point, and of the simulator's stop entry point. */
    method ExecuteEntryPoint(s: Schedule, body: seq<Command>)
      requires Valid() && currentSchedule == s
      modifies this`scheduled, this`nextId, this`objects, timeKeeper
      modifies objects`id, objects`time, objects`period, objects`repeat
      modifies this`log, this`running, this`executing
      ensures Valid() && fresh(objects - old(objects)) && old(objects) <= objects
      ensures Value() == Kernel.Execute(old(Value()), body)
    {
      RunEntryPoint(s, body);
      if s.ep.Stop? {
        running, executing := false, false;
      }
    }

    /** `Schedule::run`. */
    method RunSchedule(s: Schedule, body: seq<Command>)
      requires Valid() && currentSchedule == s && s !in scheduled
      modifies this`scheduled, this`nextId, this`objects, timeKeeper
      modifies objects`id, objects`time, objects`period, objects`repeat
      modifies this`log, this`running, this`executing, s`completed
      ensures Valid() && fresh(objects - old(objects)) && old(objects) <= objects
      ensures Value() == Fire(old(Value()), body) && s.completed == (old(s.repeat) == 0)
    {
      RearmCurrent(s);
      ExecuteEntryPoint(s, body);
      if !s.completed && s.time != -1 && s.period == -1 {
        SetScheduleTime(s, -1);
      }
    }

    /** Take the head, run it, and let the handlers of Scheduler_PostEventExecute run. */
    method FireNext(calls: Calls) returns (toRun: Schedule)
      requires Valid() && scheduled != []
      modifies this, objects, timeKeeper
      ensures Valid() && fresh(objects - old(objects)) && old(objects) <= objects
      ensures Value() == ApplyAll(Fire(Take(old(Value())), calls.body), calls.after)
      ensures toRun.completed == (old(Value()).queue[0].repeat == 0)
    {
      toRun := TakeNext();
      RunSchedule(toRun, calls.body);
      ghost var known := objects;
      assert fresh(known - old(objects));
      ExecuteAll(calls.after);
      assert objects - old(objects) == (objects - known) + (known - old(objects));
    }

    method Release()
      requires Valid()
      modifies this`currentSchedule, this`simulationTime
      ensures Valid()
      ensures Value() == old(Value()).(current := None, cached := old(Value()).now)
    {
      simulationTime := timeKeeper.simTime;
      currentSchedule := null;
    }

    /** The part of `step` after the time update: execute the head if it is due. */
    method RunDue(calls: Calls) returns (ghost dangling: bool)
      requires Valid() && simulationTime == timeKeeper.simTime
      modifies this, objects, timeKeeper
      ensures Valid() && fresh(objects - old(objects)) && old(objects) <= objects
      ensures dangling == Dangles(old(Value()), calls)
      ensures Value() == AfterDue(old(Value()), calls)
    {
      dangling := Dangles(Value(), calls);
      var next := GetNextScheduledEventTime();
      if running && next <= timeKeeper.simTime && next != -1 {
        var toRun := FireNext(calls);
      }
      Release();
    }

    method MakeReady(calls: Calls) returns (thrown: bool)
      requires Valid()
      modifies this, objects, timeKeeper
      ensures Valid() && fresh(objects - old(objects)) && old(objects) <= objects
      ensures thrown <==> Ready(old(Value()), calls).None?
      ensures !thrown ==> Ready(old(Value()), calls) == Some(Value()) && simulationTime == timeKeeper.simTime
      ensures thrown ==> Value() == ApplyAll(old(Value()), calls.before)
    {
      ExecuteAll(calls.before);
      thrown := UpdateSimulationTime(calls.pre, calls.post);
      if !thrown { RefreshTime(); }
    }

    method RefreshTime()
      requires Valid()
      modifies this`simulationTime
      ensures Valid() && simulationTime == timeKeeper.simTime
      ensures Value() == old(Value()).(cached := old(Value()).now)
    {
      simulationTime := timeKeeper.simTime;
    }

    /** A step that has something to wait for: update the time, execute what is due. */
    method UpdateAndRun(calls: Calls) returns (thrown: bool, ghost dangling: bool)
      requires Valid()
      modifies this, objects, timeKeeper
      ensures Valid() && fresh(objects - old(objects)) && old(objects) <= objects
      ensures match Ready(old(Value()), calls)
              case None => thrown && !dangling && Value() == ApplyAll(old(Value()), calls.before)
              case Some(r) => !thrown && dangling == Dangles(r, calls) && Value() == AfterDue(r, calls)
    {
      dangling := false;
      thrown := MakeReady(calls);
      if !thrown { dangling := RunDue(calls); }
    }

    /** `Scheduler::step`. `thrown`: the time update threw; `dangling`: the schedule deleted at
        the end is still queued. */
    method Step(calls: Calls) returns (thrown: bool, ghost dangling: bool)
      requires Valid()
      modifies this, objects, timeKeeper
      ensures Valid() && fresh(objects - old(objects)) && old(objects) <= objects
      ensures match Kernel.Step(old(Value()), calls)
              case Running(s) => !thrown && !dangling && Value() == s
              case TimeThrown => thrown && Value() == ApplyAll(old(Value()), calls.before)
              case Dangling => dangling && !thrown
    {
      thrown, dangling := false, false;
      if !running { return; }
      var next := GetNextScheduledEventTime();
      if next == -1 || next == DURATION_MAX {
        Hold(true);
      } else {
        thrown, dangling := UpdateAndRun(calls);
      }
    }

    /** `Scheduler::run` for as many steps as `ins` describes. */
    method RunSteps(ins: seq<Calls>) returns (thrown: bool, ghost dangling: bool)
      requires Valid()
      modifies this, objects, timeKeeper
      ensures Valid() && fresh(objects - old(objects)) && old(objects) <= objects
      ensures match Kernel.Run(old(Value()), ins)
              case Running(s) => !thrown && !dangling && Value() == s
              case TimeThrown => thrown && !dangling
              case Dangling => dangling
    {
      ghost var start := Value();
      thrown, dangling := false, false;
      for i := 0 to |ins|
        invariant Valid() && fresh(objects - old(objects)) && old(objects) <= objects
        invariant !thrown && (if dangling then Kernel.Run(start, ins) == Dangling
                              else Kernel.Run(start, ins) == Kernel.Run(Value(), ins[i..]))
      {
        assert ins[i..][1..] == ins[i + 1..];
        ghost var gone;
        thrown, gone := Step(ins[i]);
        if thrown { return; }
        dangling := dangling || gone;
      }
    }

    /** `Simulator::Run` in the standby state: start entry point, executing state, scheduler thread. */
    method Launch()
      requires Valid() && !running && !executing
      modifies this
      ensures Valid() && fresh(objects - old(objects)) && old(objects) <= objects
      ensures Value() == Kernel.Launch(old(Value()))
    {
      var _ := AddEvent(Start, IMMEDIATE, 0, 0);
      StartThread();
    }

    method StartThread()
      requires Valid()
      modifies this`executing, this`running, this`simulationTime
      ensures Valid()
      ensures Value() == old(Value()).(executing := true, running := true, cached := old(Value()).now)
    {
      executing := true;
      running := true;
      simulationTime := timeKeeper.simTime;
    }

    /** `Scheduler::run`, when entry points and handlers call nothing: the loop ends in standby, with
        the stop entry point as the last one executed, and is some number of steps. */
    method RunLoop()
      requires Valid() && Inv(Value()) && running && executing
      modifies this, objects, timeKeeper
      ensures Valid() && Inv(Value()) && !running && !executing
      ensures old(timeKeeper.simTime) <= timeKeeper.simTime && StopLogged(old(log), Value())
      ensures exists n: nat :: Kernel.Run(old(Value()), Repeated(n)) == Running(Value())
    {
      ghost var start := Value();
      ghost var n: nat := 0;
      while running
        invariant Valid() && fresh(objects - old(objects)) && old(objects) <= objects
        invariant Inv(Value()) && running == executing && start.now <= timeKeeper.simTime
        invariant start.log <= log && (!running ==> StopLogged(start.log, Value()))
        invariant Kernel.Run(start, Repeated(n)) == Running(Value())
        decreases running, !StopQueued(Value()), Weight(Value().queue)
      {
        StepOfLoop();
        OneStepMore(start, n);
        n := n + 1;
      }
    }

    method StepOfLoop()
      requires Valid() && Inv(Value()) && running && executing
      modifies this, objects, timeKeeper
      ensures Valid() && fresh(objects - old(objects)) && old(objects) <= objects
      ensures Inv(Value()) && running == executing && Kernel.Step(old(Value()), QUIET) == Running(Value())
      ensures old(timeKeeper.simTime) <= timeKeeper.simTime && old(log) <= log
      ensures !running ==> StopLogged(old(log), Value())
      ensures running ==> var v, v' := old(Value()), Value();
        || (!StopQueued(v) && StopQueued(v'))
        || ((StopQueued(v) ==> StopQueued(v')) && Weight(v'.queue) < Weight(v.queue))
    {
      QuietStepDecreases(Value());
      QuietIsLegal(Value());
      StepKeepsInvariant(Value(), QUIET);
      var thrown, dangling := Step(QUIET);
    }
  }

  /** Erasing by identifier does not depend on the key of the erased element. */
  lemma {:induction false} EraseIgnoresKey(p: seq<Entry>, q: seq<Entry>, id: nat)
    requires |p| == |q| && forall i :: 0 <= i < |p| ==> p[i].id == q[i].id && (p[i].id != id ==> p[i] == q[i])
    requires forall i, j :: 0 <= i < j < |p| ==> p[i].id != p[j].id
    ensures Erase(p, id) == Erase(q, id)
  {
    if p != [] {
      if p[0].id == id {
        assert p[1..] == q[1..];
      } else {
        EraseIgnoresKey(p[1..], q[1..], id);
      }
    }
  }
}
