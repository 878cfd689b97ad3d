/** Consequences for whole runs: exact activation times, order of execution, mission and
    epoch time. */
module KernelTheorems {
  import opened Options
  import opened ScheduleQueue
  import opened Kernel
  import opened KernelInvariant
  import opened KernelRuns
  import opened KernelActivation
  import opened KernelInside

  // ---- activation times ------------------------------------------------------------------

  /** A periodic event after `j` executions. */
  function GridEntry(e: Entry, j: nat): Entry {
    var t := e.time + j * e.period;
    e.(time := if t < DURATION_MAX then t else PARKED,
       repeat := if e.repeat < 0 then e.repeat else e.repeat - j)
  }

  ghost predicate OnGrid(e: Entry, times: seq<int>, q: seq<Entry>) {
    && (forall i :: 0 <= i < |times| ==> times[i] == e.time + i * e.period < DURATION_MAX)
    && (e.repeat >= 0 ==> |times| <= e.repeat + 1)
    && (e.repeat < 0 || |times| <= e.repeat ==> GridEntry(e, |times|) in q)
    && (e.repeat >= 0 && |times| == e.repeat + 1 ==> !Queued(q, e.id))
  }

  lemma GridShift(e: Entry, x: Entry, j: nat)
    requires e.period > 0 && e.repeat != 0 && x == GridEntry(e, 1) && x.time != PARKED
    ensures GridEntry(x, j) == GridEntry(e, j + 1)
    ensures x.time + j * x.period == e.time + (j + 1) * e.period
  {
  }

  lemma FollowsTail(e: Entry, times: seq<int>, q: seq<Entry>)
    requires times != [] && Follows(Some(e), times, q, e.id)
    ensures Follows(Successor(e), times[1..], q, e.id)
  {
    forall i | 0 <= i < |times| - 1
      ensures Fate(Successor(e), i).Some? && Fate(Successor(e), i).value.time == times[1..][i] >= 0
    {
      assert Fate(Some(e), i + 1) == Fate(Successor(e), i);
    }
  }

  lemma FollowsHead(o: Option<Entry>, times: seq<int>, q: seq<Entry>, id: nat)
    requires Follows(o, times, q, id)
    ensures times != [] ==> o.Some? && o.value.time == times[0] >= 0
  {
  }

  lemma {:induction false} FateIsGrid(e: Entry, times: seq<int>, q: seq<Entry>)
    requires e.period > 0 && 0 <= e.time < DURATION_MAX
    requires Follows(Some(e), times, q, e.id)
    ensures OnGrid(e, times, q)
    decreases |times|
  {
    if times == [] {
      assert GridEntry(e, 0) == e;
    } else {
      assert Fate(Some(e), 0) == Some(e);
      FollowsTail(e, times, q);
      FollowsHead(Successor(e), times[1..], q, e.id);
      if e.repeat != 0 {
        var x := Successor(e).value;
        assert x == GridEntry(e, 1);
        if x.time != PARKED {
          FateIsGrid(x, times[1..], q);
          GridShift(e, x, |times| - 1);
          forall i | 0 <= i < |times| ensures times[i] == e.time + i * e.period < DURATION_MAX {
            if i > 0 {
              GridShift(e, x, i - 1);
              assert times[i] == times[1..][i - 1];
            }
          }
        }
      }
    }
  }

  /** A queued periodic event nobody addresses is executed exactly at its grid times, at most
      `repeat + 1` times; what remains is queued at the next grid time, which is not past,
      or is parked with its remaining repeats when that time would reach the maximum. */
  lemma ExactActivations(s: State, ins: seq<Calls>, e: Entry)
    requires Inv(s) && LegalRun(s, ins) && UndisturbedRun(ins, e.id)
    requires e in s.queue && e.period > 0 && e.time >= 0
    ensures Run(s, ins).Running?
    ensures var s' := Run(s, ins).state;
            && s.log <= s'.log && Inv(s')
            && OnGrid(e, NewTimes(s, s', e.id), s'.queue)
            && var j := |NewTimes(s, s', e.id)|;
            (e.repeat < 0 || j <= e.repeat) && e.time + j * e.period < DURATION_MAX ==>
              s'.now <= e.time + j * e.period
  {
    RunKeepsInvariant(s, ins);
    RunFollowsFate(s, ins, e.id, Some(e));
    var s' := Run(s, ins).state;
    var times := NewTimes(s, s', e.id);
    assert Fits(e, s.now);
    FateIsGrid(e, times, s'.queue);
    NextNotPast(s', e, times);
  }

  lemma NextNotPast(s: State, e: Entry, times: seq<int>)
    requires Inv(s) && OnGrid(e, times, s.queue) && e.time >= 0 && e.period > 0
    ensures (e.repeat < 0 || |times| <= e.repeat) && e.time + |times| * e.period < DURATION_MAX ==>
              s.now <= e.time + |times| * e.period
  {
  }

  /** The same for an event added now with an offset, a cycle and a repeat count. */
  lemma AddedEventActivations(s: State, ep: EntryPoint, offset: int, cycle: int, repeat: int, ins: seq<Calls>)
    requires Inv(s) && 0 <= offset < DURATION_MAX - s.now && cycle > 0
    requires LegalRun(Apply(s, AddAt(ep, SimulationClock, offset, cycle, repeat)), ins)
    requires UndisturbedRun(ins, s.nextId)
    ensures var s1 := Apply(s, AddAt(ep, SimulationClock, offset, cycle, repeat));
            && Run(s1, ins).Running?
            && var s' := Run(s1, ins).state;
            && s1.log <= s'.log
            && OnGrid(Entry(s.nextId, ep, s.now + offset, cycle, repeat), NewTimes(s1, s', s.nextId), s'.queue)
            && var j := |NewTimes(s1, s', s.nextId)|;
            (repeat < 0 || j <= repeat) && s.now + offset + j * cycle < DURATION_MAX ==>
              s'.now <= s.now + offset + j * cycle
  {
    var c := AddAt(ep, SimulationClock, offset, cycle, repeat);
    ApplyEffect(s, c);
    CallKeepsGoodIff(s, s.now, c);
    ExactActivations(Apply(s, c), ins, Entry(s.nextId, ep, s.now + offset, cycle, repeat));
  }

  /** The same for an event added by an entry point, or by a handler that runs after it: its offset
      counts from the time the step has reached. */
  lemma AddedInsideActivations(s: State, w: Site, ep: EntryPoint, offset: int, cycle: int, repeat: int,
                               rest: seq<Calls>)
    requires Inv(s) && LegalStep(s, w.calls) && Fired(s, w.calls).Some? && cycle > 0
    requires Calling(w, AddAt(ep, SimulationClock, offset, cycle, repeat))
    requires var k := CallState(s, w);
      && 0 <= offset < DURATION_MAX - k.cached && LeftAlone(w, k.nextId) && UndisturbedRun(rest, k.nextId)
      && (Step(s, w.calls).Running? ==> LegalRun(Step(s, w.calls).state, rest))
    ensures Step(s, w.calls).Running?
    ensures var k, s1 := CallState(s, w), Step(s, w.calls).state;
      && k.now == s1.now && Run(s1, rest).Running?
      && var s2 := Run(s1, rest).state;
      && s1.log <= s2.log
      && OnGrid(Entry(k.nextId, ep, k.now + offset, cycle, repeat), NewTimes(s1, s2, k.nextId), s2.queue)
      && var j := |NewTimes(s1, s2, k.nextId)|;
      (repeat < 0 || j <= repeat) && k.now + offset + j * cycle < DURATION_MAX ==>
        s2.now <= k.now + offset + j * cycle
  {
    var k := CallState(s, w);
    AddedInside(s, w, ep, SimulationClock, offset, cycle, repeat);
    ExactActivations(Step(s, w.calls).state, rest, Entry(k.nextId, ep, k.now + offset, cycle, repeat));
  }

  /** A parked event nobody addresses is never executed and stays parked. */
  lemma ParkedNeverRuns(s: State, ins: seq<Calls>, e: Entry)
    requires Inv(s) && LegalRun(s, ins) && UndisturbedRun(ins, e.id)
    requires e in s.queue && e.time == PARKED
    ensures Run(s, ins).Running?
    ensures var s' := Run(s, ins).state;
            s.log <= s'.log && NewTimes(s, s', e.id) == [] && e in s'.queue
  {
    RunFollowsFate(s, ins, e.id, Some(e));
    FollowsHead(Some(e), NewTimes(s, Run(s, ins).state, e.id), Run(s, ins).state.queue, e.id);
  }

  // ---- the stop ---------------------------------------------------------------------------

  lemma StoppedRun(s: State, ins: seq<Calls>)
    requires !s.running
    ensures Run(s, ins) == Running(s)
    decreases |ins|
  {
  }

  /** Over every legal run the simulation stops exactly when the stop entry point is executed, which
      is then the last execution. */
  lemma {:induction false} RunStopsIff(s: State, ins: seq<Calls>)
    requires Inv(s) && LegalRun(s, ins) && s.running
    ensures Run(s, ins).Running?
    ensures var s' := Run(s, ins).state;
            && s.log <= s'.log && s'.executing == (s'.running && s.executing)
            && (!s'.running <==> exists i :: |s.log| <= i < |s'.log| && s'.log[i].ep == Stop)
            && forall i :: |s.log| <= i < |s'.log| && s'.log[i].ep == Stop ==> i == |s'.log| - 1
    decreases |ins|
  {
    RunKeepsInvariant(s, ins);
    if ins != [] {
      StepKeepsInvariant(s, ins[0]);
      StepStopsIff(s, ins[0]);
      StepLogsFired(s, ins[0]);
      var m := Step(s, ins[0]).state;
      if m.running {
        RunStopsIff(m, ins[1..]);
        RunKeepsInvariant(m, ins[1..]);
        var s' := Run(s, ins).state;
        assert forall i :: |s.log| <= i < |m.log| ==> s'.log[i] == m.log[i] && m.log[i].ep != Stop;
      } else {
        StoppedRun(m, ins[1..]);
      }
    }
  }

  // ---- order -----------------------------------------------------------------------------

  /** The executed entry is the least one of the queue it was taken from, and was due. */
  lemma FiredIsLeast(s: State, calls: Calls, x: Entry)
    requires Inv(s) && LegalStep(s, calls) && Fired(s, calls).Some?
    requires x in Ready(s, calls).value.queue
    ensures var h := Fired(s, calls).value;
            && (x == h || Less(h, x))
            && (h.time == IMMEDIATE || h.time == Ready(s, calls).value.now)
  {
    ReadyGood(s, calls);
    TakeGood(Ready(s, calls).value);
    HeadIsLeast(Ready(s, calls).value.queue, x);
  }

  /** Of two queued events the lesser is executed first over the whole run: an immediate one before
      a timed one, the earlier time before the later, and at one time the earlier registered. */
  lemma {:induction false} LesserRunsFirst(s: State, ins: seq<Calls>, a: Entry, b: Entry)
    requires Inv(s) && LegalRun(s, ins)
    requires UndisturbedRun(ins, a.id) && UndisturbedRun(ins, b.id)
    requires a in s.queue && b in s.queue && Less(a, b) && a.id != b.id
    ensures Run(s, ins).Running?
    ensures var s' := Run(s, ins).state;
            s.log <= s'.log && (NewTimes(s, s', b.id) != [] ==> NewTimes(s, s', a.id) != [])
    decreases |ins|
  {
    RunKeepsInvariant(s, ins);
    if ins == [] {
      assert s.log[|s.log|..] == [];
    } else {
      NewTimesSplit(s, ins, a.id);
      NewTimesSplit(s, ins, b.id);
      assert Undisturbed(ins[0], a.id) && Undisturbed(ins[0], b.id);
      UndisturbedStep(s, ins[0], a);
      UndisturbedStep(s, ins[0], b);
      StepKeepsInvariant(s, ins[0]);
      if Fired(s, ins[0]).Some? {
        ReadyLeaves(s, ins[0], a.id);
        FiredIsLeast(s, ins[0], a);
      }
      if FiredTime(s, ins[0], a.id) == [] {
        assert UndisturbedRun(ins[1..], a.id) && UndisturbedRun(ins[1..], b.id);
        LesserRunsFirst(Step(s, ins[0]).state, ins[1..], a, b);
      }
    }
  }

  // ---- mission and epoch time ------------------------------------------------------------

  predicate KeepsOffset(c: Command) {
    !c.SetEpochTime? && !c.SetMissionStart? && !c.SetMissionTime?
  }

  predicate AllKeepOffset(cs: seq<Command>) {
    forall c :: c in cs ==> KeepsOffset(c)
  }

  predicate KeepsOffsets(calls: Calls) {
    AllKeepOffset(calls.before) && AllKeepOffset(calls.pre) && AllKeepOffset(calls.post)
    && AllKeepOffset(calls.body) && AllKeepOffset(calls.after)
  }

  lemma {:induction false} ApplyAllKeepsOffsets(s: State, cs: seq<Command>)
    requires AllKeepOffset(cs)
    ensures var s' := ApplyAll(s, cs);
            s'.epochOffset == s.epochOffset && s'.missionStart == s.missionStart
    decreases |cs|
  {
    if cs != [] {
      assert KeepsOffset(cs[0]) && AllKeepOffset(cs[1..]);
      ApplyAllKeepsOffsets(Apply(s, cs[0]), cs[1..]);
    }
  }

  /** Every firing recorded the epoch and mission time of one fixed pair of offsets. */
  ghost predicate ReadsOffsets(log: seq<Firing>, from: nat, epochOffset: int, missionStart: int) {
    forall i :: from <= i < |log| ==>
      log[i].epoch == epochOffset + log[i].time && log[i].mission == log[i].epoch - missionStart
  }

  ghost predicate SameOffsets(s: State, s': State) {
    s'.epochOffset == s.epochOffset && s'.missionStart == s.missionStart
  }

  lemma ReadyKeepsOffsets(s: State, calls: Calls)
    requires KeepsOffsets(calls) && Ready(s, calls).Some?
    ensures SameOffsets(s, Ready(s, calls).value)
  {
    ApplyAllKeepsOffsets(s, calls.before);
    var b := ApplyAll(s, calls.before);
    ApplyAllKeepsOffsets(b, calls.pre);
    ApplyAllKeepsOffsets(Moved(b, calls.pre), calls.post);
    ApplyAllKeepsOffsets(b, calls.post);
  }

  lemma FiringKeepsOffsets(r: State, calls: Calls)
    requires KeepsOffsets(calls) && r.queue != []
    ensures SameOffsets(r, ApplyAll(Fire(Take(r), calls.body), calls.after))
  {
    ApplyAllKeepsOffsets(Started(Rearm(Take(r))), calls.body);
    ApplyAllKeepsOffsets(Fire(Take(r), calls.body), calls.after);
  }

  lemma StepKeepsOffsets(s: State, calls: Calls)
    requires Inv(s) && LegalStep(s, calls) && KeepsOffsets(calls)
    ensures Step(s, calls).Running?
    ensures var s' := Step(s, calls).state;
            SameOffsets(s, s') && s.log <= s'.log && ReadsOffsets(s'.log, |s.log|, s.epochOffset, s.missionStart)
  {
    StepKeepsInvariant(s, calls);
    StepLogsFired(s, calls);
    if s.running && !Exhausted(s) {
      ReadyGood(s, calls);
      ReadyKeepsOffsets(s, calls);
      var r := Ready(s, calls).value;
      if Pops(r) && r.queue != [] {
        FiringKeepsOffsets(r, calls);
      }
    }
  }

  lemma {:induction false} RunKeepsOffsets(s: State, ins: seq<Calls>)
    requires Inv(s) && LegalRun(s, ins) && forall i :: 0 <= i < |ins| ==> KeepsOffsets(ins[i])
    ensures Run(s, ins).Running?
    ensures var s' := Run(s, ins).state;
            s.log <= s'.log && ReadsOffsets(s'.log, |s.log|, s.epochOffset, s.missionStart)
    decreases |ins|
  {
    if ins != [] {
      StepKeepsInvariant(s, ins[0]);
      StepKeepsOffsets(s, ins[0]);
      var m := Step(s, ins[0]).state;
      RunKeepsOffsets(m, ins[1..]);
      var s' := Run(s, ins).state;
      assert forall i :: 0 <= i < |m.log| ==> s'.log[i] == m.log[i];
    }
  }

  lemma {:induction false} FirstOfTimes(log: seq<Firing>, id: nat, i: nat)
    requires i < |log| && log[i].id == id && forall j :: 0 <= j < i ==> log[j].id != id
    ensures TimesOf(log, id) != [] && TimesOf(log, id)[0] == log[i].time
    decreases |log|
  {
    if i < |log| - 1 {
      FirstOfTimes(log[..|log| - 1], id, i);
    } else {
      NoTimes(log[..i], id);
    }
  }

  lemma {:induction false} NoTimes(log: seq<Firing>, id: nat)
    requires forall j :: 0 <= j < |log| ==> log[j].id != id
    ensures TimesOf(log, id) == []
    decreases |log|
  {
    if log != [] { NoTimes(log[..|log| - 1], id); }
  }

  /** The clock reading a firing recorded. */
  function Reading(f: Firing, clock: Clock): int {
    match clock
    case SimulationClock => f.time
    case MissionClock => f.mission
    case EpochClock => f.epoch
  }

  /** The index of the first execution of the event after the given point of the log. */
  ghost predicate FirstAt(log: seq<Firing>, from: nat, id: nat, i: nat) {
    from <= i < |log| && log[i].id == id && forall k :: from <= k < i ==> log[k].id != id
  }

  /** A legal run that leaves the event and the offsets of the clocks alone; the event is first
      executed at index `i` of the log. */
  ghost predicate FirstRunsAt(s: State, ins: seq<Calls>, id: nat, i: nat) {
    && LegalRun(s, ins) && UndisturbedRun(ins, id) && (forall k :: 0 <= k < |ins| ==> KeepsOffsets(ins[k]))
    && (Run(s, ins).Running? ==> FirstAt(Run(s, ins).state.log, |s.log|, id, i))
  }

  ghost predicate KeepsEntryPoint(log: seq<Firing>, from: nat, id: nat, o: Option<Entry>) {
    forall i :: from <= i < |log| && log[i].id == id ==> o.Some? && log[i].ep == o.value.ep
  }

  lemma StepKeepsEntryPoint(s: State, calls: Calls, id: nat, o: Option<Entry>) returns (o': Option<Entry>)
    requires Inv(s) && LegalStep(s, calls) && Undisturbed(calls, id) && id < s.nextId && Holds(s.queue, id, o)
    ensures Step(s, calls).Running?
    ensures var m := Step(s, calls).state;
            && s.log <= m.log && KeepsEntryPoint(m.log, |s.log|, id, o) && Holds(m.queue, id, o')
    ensures o'.Some? ==> o.Some? && o'.value.ep == o.value.ep
  {
    StepTimes(s, calls, id);
    o' := o;
    if Fired(s, calls).Some? { StepRecords(s, calls); } else { StepLogsFired(s, calls); }
    if o.Some? {
      UndisturbedStep(s, calls, o.value);
      if Fired(s, calls) == o { o' := Successor(o.value); }
    } else {
      AbsentStep(s, calls, id);
    }
  }

  /** What is executed under the identifier of an event nobody addresses is its entry point. */
  lemma {:induction false} FiringsKeepEntryPoint(s: State, ins: seq<Calls>, id: nat, o: Option<Entry>)
    requires Inv(s) && LegalRun(s, ins) && UndisturbedRun(ins, id) && id < s.nextId && Holds(s.queue, id, o)
    ensures Run(s, ins).Running?
    ensures var log := Run(s, ins).state.log; s.log <= log && KeepsEntryPoint(log, |s.log|, id, o)
    decreases |ins|
  {
    RunKeepsInvariant(s, ins);
    if ins != [] {
      assert Undisturbed(ins[0], id) && UndisturbedRun(ins[1..], id);
      StepKeepsInvariant(s, ins[0]);
      var o' := StepKeepsEntryPoint(s, ins[0], id, o);
      var m := Step(s, ins[0]).state;
      FiringsKeepEntryPoint(m, ins[1..], id, o');
      assert forall i :: 0 <= i < |m.log| ==> Run(s, ins).state.log[i] == m.log[i];
    }
  }

  /** The first execution of a queued event nobody addresses: it is at the time of the entry, and the
      clocks then show that time if their offsets are left alone. */
  lemma FirstFiringOf(s: State, ins: seq<Calls>, e: Entry, i: nat)
    requires Inv(s) && e in s.queue && e.time >= 0 && FirstRunsAt(s, ins, e.id, i)
    ensures Run(s, ins).Running? && i < |Run(s, ins).state.log|
    ensures var f := Run(s, ins).state.log[i];
      && f.ep == e.ep && f.time == e.time && f.epoch == s.epochOffset + e.time
      && f.mission == s.epochOffset + e.time - s.missionStart
  {
    RunFollowsFate(s, ins, e.id, Some(e));
    RunKeepsOffsets(s, ins);
    FiringsKeepEntryPoint(s, ins, e.id, Some(e));
    var log := Run(s, ins).state.log;
    FirstOfTimes(log[|s.log|..], e.id, i - |s.log|);
    assert Fate(Some(e), 0) == Some(e);
  }

  /** An event queued at `now` for time `t` of a clock, when the step that added it ends in `s`. */
  lemma FirstFiringReads(k: State, s: State, ins: seq<Calls>, e: Entry, clock: Clock, t: int, i: nat)
    requires SameOffsets(k, s) && k.now == s.now && e.time == k.now + Delay(k, clock, t)
    requires Inv(s) && e in s.queue && e.time >= 0 && FirstRunsAt(s, ins, e.id, i)
    ensures Run(s, ins).Running? && i < |Run(s, ins).state.log|
    ensures Reading(Run(s, ins).state.log[i], clock) == if clock.SimulationClock? then k.now + t else t
  {
    FirstFiringOf(s, ins, e, i);
  }

  /** An event added for time `t` of any clock with a delay of at least 0 is executed first when
      that clock shows `t`, if the offsets of the clocks are left alone. */
  lemma FirstFiringReadsRequestedTime(s: State, ep: EntryPoint, clock: Clock, t: int, cycle: int,
                                      repeat: int, ins: seq<Calls>, i: nat)
    requires Inv(s) && 0 <= Delay(s, clock, t) < DURATION_MAX - s.now
    requires !(clock.SimulationClock? && repeat > 0 && InvalidCycle(cycle))
    requires FirstRunsAt(Apply(s, AddAt(ep, clock, t, cycle, repeat)), ins, s.nextId, i)
    ensures var s1 := Apply(s, AddAt(ep, clock, t, cycle, repeat));
            && Run(s1, ins).Running?
            && i < |Run(s1, ins).state.log|
            && var f := Run(s1, ins).state.log[i];
               Reading(f, clock) == (if clock.SimulationClock? then s.now + t else t)
  {
    var c := AddAt(ep, clock, t, cycle, repeat);
    var s1 := Apply(s, c);
    ApplyEffect(s, c);
    CallKeepsGoodIff(s, s.now, c);
    assert s1.log == s.log && s1.epochOffset == s.epochOffset && s1.missionStart == s.missionStart;
    FirstFiringReads(s, s1, ins, Entry(s.nextId, ep, s.now + Delay(s, clock, t), cycle, repeat), clock, t, i);
  }

  /** Between the call and the end of the step the offsets of the clocks are left alone. */
  predicate OffsetsLeft(w: Site) {
    AllKeepOffset(w.b) && (w.place.InBody? ==> AllKeepOffset(w.calls.after))
  }

  lemma OffsetsBehind(k: State, a: seq<Command>, c: Command, b: seq<Command>)
    requires KeepsOffset(c) && AllKeepOffset(b)
    ensures SameOffsets(ApplyAll(k, a), ApplyAll(k, a + [c] + b))
  {
    assert a + [c] + b == a + ([c] + b);
    ApplyAllConcat(k, a, [c] + b);
    ApplyAllKeepsOffsets(ApplyAll(k, a), [c] + b);
  }

  lemma OffsetsAfterBody(k: State, calls: Calls)
    requires k.current.Some? && AllKeepOffset(calls.after)
    ensures SameOffsets(ApplyAll(Started(Rearm(k)), calls.body), ApplyAll(Fire(k, calls.body), calls.after))
  {
    ApplyAllKeepsOffsets(Fire(k, calls.body), calls.after);
  }

  lemma OffsetsToTheEnd(s: State, w: Site, c: Command)
    requires Inv(s) && LegalStep(s, w.calls) && Fired(s, w.calls).Some? && Calling(w, c)
    requires KeepsOffset(c) && OffsetsLeft(w)
    ensures Step(s, w.calls).Running? && SameOffsets(CallState(s, w), Step(s, w.calls).state)
  {
    StepEnds(s, w.calls);
    OffsetsBehind(Begins(s, w), w.a, c, w.b);
    if w.place.InBody? { OffsetsAfterBody(Take(Ready(s, w.calls).value), w.calls); }
  }

  lemma AddedInsideAtTime(s: State, w: Site, c: Command)
    requires Inv(s) && LegalStep(s, w.calls) && Fired(s, w.calls).Some? && Calling(w, c) && OffsetsLeft(w)
    requires c.AddAt? && !(c.clock.SimulationClock? && c.repeat > 0 && InvalidCycle(c.cycle))
    requires var k := CallState(s, w);
      0 <= Delay(k, c.clock, c.t) < DURATION_MAX - k.cached && LeftAlone(w, k.nextId)
    ensures Step(s, w.calls).Running?
    ensures var k, s1 := CallState(s, w), Step(s, w.calls).state;
      && SameOffsets(k, s1) && k.now == s1.now && Inv(s1)
      && Entry(k.nextId, c.ep, k.now + Delay(k, c.clock, c.t), c.cycle, c.repeat) in s1.queue
  {
    AddedInside(s, w, c.ep, c.clock, c.t, c.cycle, c.repeat);
    OffsetsToTheEnd(s, w, c);
  }

  /** The same for an event added by an entry point, or by a handler that runs after it; the call
      `c` names the clock and the time. */
  lemma FirstFiringReadsTimeAskedInside(s: State, w: Site, c: Command, rest: seq<Calls>, i: nat)
    requires Inv(s) && LegalStep(s, w.calls) && Fired(s, w.calls).Some? && Calling(w, c) && OffsetsLeft(w)
    requires c.AddAt? && !(c.clock.SimulationClock? && c.repeat > 0 && InvalidCycle(c.cycle))
    requires var k := CallState(s, w);
      && 0 <= Delay(k, c.clock, c.t) < DURATION_MAX - k.cached && LeftAlone(w, k.nextId)
      && (Step(s, w.calls).Running? ==> FirstRunsAt(Step(s, w.calls).state, rest, k.nextId, i))
    ensures Step(s, w.calls).Running?
    ensures var k, s1 := CallState(s, w), Step(s, w.calls).state;
      && Run(s1, rest).Running? && i < |Run(s1, rest).state.log|
      && Reading(Run(s1, rest).state.log[i], c.clock) == if c.clock.SimulationClock? then k.now + c.t else c.t
  {
    AddedInsideAtTime(s, w, c);
    var k := CallState(s, w);
    var e := Entry(k.nextId, c.ep, k.now + Delay(k, c.clock, c.t), c.cycle, c.repeat);
    FirstFiringReads(k, Step(s, w.calls).state, rest, e, c.clock, c.t, i);
  }

  /** Exactly when a requested mission or epoch time becomes the time of the queued event, in any
      state: the scheduler's copy of the time must be current, which it is not in the handlers of a
      time change, and the delay must not be −1, which parks the event instead, nor reach the maximum. */
  lemma ClockTargetIff(s: State, ep: EntryPoint, clock: Clock, t: int, cycle: int, repeat: int)
    requires !clock.SimulationClock?
    ensures var e := Effect(s, AddAt(ep, clock, t, cycle, repeat));
            var wanted := if clock.EpochClock? then t - s.epochOffset
                          else t - s.epochOffset + s.missionStart;
            e.Some? && e.value.time == wanted >= 0 <==>
              && s.cached == s.now
              && -s.now <= Delay(s, clock, t) < DURATION_MAX - s.now && Delay(s, clock, t) != -1
  {
  }
}
