/** What emissions and registrations guarantee, and where they do not. */
module EventTheorems {
  import opened Options
  import opened Events

  // ---- identifiers -------------------------------------------------------------------------

  ghost predicate WellFormed(s: State) {
    && s.nextId >= 1
    && (forall e :: e in s.registry <==> 1 <= e < s.nextId)
    && (forall n :: n in s.index ==> n != "" && 1 <= s.index[n] < s.nextId)
    && (forall n, m :: n in s.index && m in s.index && s.index[n] == s.index[m] ==> n == m)
  }

  /** The registry stays well formed and names keep their identifiers. */
  ghost predicate NamesKept(s: State, s': State) {
    (WellFormed(s) ==> WellFormed(s')) && forall n :: n in s.index ==> n in s'.index && s'.index[n] == s.index[n]
  }

  lemma {:induction false} ChangeAllNames(s: State, qs: seq<Request>)
    ensures ChangeAll(s, qs).Go? ==> NamesKept(s, ChangeAll(s, qs).s)
    decreases |qs|
  {
    if qs != [] && Change(s, qs[0]).Go? { ChangeAllNames(Change(s, qs[0]).s, qs[1..]); }
  }

  lemma {:induction false} DoNames(s: State, a: Action)
    ensures Do(s, a).Go? ==> NamesKept(s, Do(s, a).s)
    decreases a
  {
    match a
    case Query(name) =>
    case Subscribe(e, ep) =>
    case Unsubscribe(e, ep) =>
    case Emit(e, handlers) => if e in s.registry { EmitNames(s, e, handlers); }
  }

  lemma {:induction false} DoAllNames(s: State, actions: seq<Action>)
    ensures DoAll(s, actions).Go? ==> NamesKept(s, DoAll(s, actions).s)
    decreases actions, 0
  {
    if actions != [] {
      DoNames(s, actions[0]);
      if Do(s, actions[0]).Go? { DoAllNames(Do(s, actions[0]).s, actions[1..]); }
    }
  }

  lemma {:induction false} IterateNames(s: State, e: EventId, i: nat, handlers: seq<Handler>, executed: seq<EntryPoint>)
    ensures var r := Iterate(s, e, i, handlers, executed); r.Done? ==> NamesKept(s, r.s)
    decreases handlers, 0
  {
    if i < |Subscribers(s, e)| && handlers != [] {
      DoAllNames(s, handlers[0].actions);
      if DoAll(s, handlers[0].actions).Go? {
        IterateNames(DoAll(s, handlers[0].actions).s, e, i + 1, handlers[1..], executed + [Subscribers(s, e)[i]]);
      }
    }
  }

  lemma {:induction false} EmitNames(s: State, e: EventId, handlers: seq<Handler>)
    requires e in s.registry
    ensures DoEmit(s, e, handlers).Go? ==> NamesKept(s, DoEmit(s, e, handlers).s)
    decreases handlers, 1
  {
    var s1 := s.(emitting := true, active := s.active + [e]);
    IterateNames(s1, e, 0, handlers, []);
    var r := Iterate(s1, e, 0, handlers, []);
    if r.Done? {
      var s2 := r.s.(active := s.active, log := r.s.log + [Emission(e, s.registry[e], r.executed)], emitting := false);
      ChangeAllNames(s2, s2.requests);
    }
  }

  /** One name, one identifier, for ever; and different names never share one. */
  lemma IdentifiersAreStable(s: State, name: string, other: string, actions: seq<Action>)
    requires WellFormed(s) && name != "" && other != ""
    requires DoAll(QueryEventId(s, name), actions).Go?
    ensures var s1 := QueryEventId(s, name);
      var s2 := DoAll(s1, actions).s;
      var s3 := QueryEventId(s2, other);
      && name in s1.index && s1.index[name] in s1.registry
      && QueryEventId(s2, name) == s2 && s2.index[name] == s1.index[name]
      && other in s3.index && name in s3.index && (s3.index[other] == s1.index[name] <==> other == name)
  {
    var s1 := QueryEventId(s, name);
    assert NamesKept(s, s1);
    DoAllNames(s1, actions);
    DoNames(DoAll(s1, actions).s, Query(other));
  }

  // ---- when no iteration is disturbed ------------------------------------------------------

  /** The change is not of an event under emission, or changes nothing: the event is not known, or
      the entry point to remove is not subscribed. */
  predicate Harmless(s: State, q: Request) {
    q.event !in s.active || q.event !in s.registry || (!q.add && q.subscriber !in s.registry[q.event])
  }

  /** What a caller can check where a change takes effect: one that is not put off is refused or
      harmless, and when an emission ends, all changes put off until then are harmless to the
      emissions still under way. */
  predicate Calm(s: State, a: Action)
    decreases a
  {
    match a
    case Query(_) => true
    case Subscribe(e, ep) =>
      s.emitting || ep == NULL || SubscribeError(s, e, ep).Some? || Harmless(s, Request(e, true, ep))
    case Unsubscribe(e, ep) => s.emitting || Harmless(s, Request(e, false, ep))
    case Emit(e, handlers) =>
      e in s.registry ==>
        var s1 := s.(emitting := true, active := s.active + [e]);
        && CalmHandlers(s1, e, 0, handlers)
        && var r := Iterate(s1, e, 0, handlers, []);
        (r.Done? ==> forall q :: q in r.s.requests ==> Harmless(r.s.(active := s.active), q))
  }

  predicate CalmAll(s: State, actions: seq<Action>)
    decreases actions, 0
  {
    actions != [] ==>
      Calm(s, actions[0]) && (Do(s, actions[0]).Go? ==> CalmAll(Do(s, actions[0]).s, actions[1..]))
  }

  predicate CalmHandlers(s: State, e: EventId, i: nat, handlers: seq<Handler>)
    decreases handlers, 0
  {
    i < |Subscribers(s, e)| && handlers != [] ==>
      && CalmAll(s, handlers[0].actions)
      && (DoAll(s, handlers[0].actions).Go? ==>
            CalmHandlers(DoAll(s, handlers[0].actions).s, e, i + 1, handlers[1..]))
  }

  lemma {:induction false} RemoveChangesIff(xs: seq<EntryPoint>, x: EntryPoint)
    ensures Remove(xs, x) == xs <==> x !in xs
    ensures |Remove(xs, x)| == |xs| - (if x in xs then 1 else 0)
  {
    if xs != [] {
      assert xs == [xs[0]] + xs[1..];
      RemoveChangesIff(xs[1..], x);
    }
  }

  lemma ChangeGoIff(s: State, q: Request)
    ensures Change(s, q).Go? <==> Harmless(s, q)
    ensures Change(s, q).Go? ==> forall p :: Harmless(Change(s, q).s, p) <==> Harmless(s, p)
  {
    if q.event in s.registry && !q.add { RemoveChangesIff(s.registry[q.event], q.subscriber); }
  }

  /** A list of changes disturbs no iteration exactly when each of them is harmless at its start. */
  lemma {:induction false} ChangeAllGoIff(s: State, qs: seq<Request>)
    ensures ChangeAll(s, qs).Go? <==> forall q :: q in qs ==> Harmless(s, q)
    decreases |qs|
  {
    if qs != [] {
      ChangeGoIff(s, qs[0]);
      assert forall q :: q in qs <==> q == qs[0] || q in qs[1..];
      if Change(s, qs[0]).Go? { ChangeAllGoIff(Change(s, qs[0]).s, qs[1..]); }
    }
  }

  lemma {:induction false} CallGoIff(s: State, a: Action)
    ensures Do(s, a).Go? <==> Calm(s, a)
    decreases a
  {
    match a
    case Query(name) =>
    case Subscribe(e, ep) => ChangeGoIff(s, Request(e, true, ep));
    case Unsubscribe(e, ep) => ChangeGoIff(s, Request(e, false, ep));
    case Emit(e, handlers) => if e in s.registry { EmissionGoIff(s, e, handlers); }
  }

  lemma {:induction false} CallsGoIff(s: State, actions: seq<Action>)
    ensures DoAll(s, actions).Go? <==> CalmAll(s, actions)
    decreases actions, 0
  {
    if actions != [] {
      CallGoIff(s, actions[0]);
      if Do(s, actions[0]).Go? { CallsGoIff(Do(s, actions[0]).s, actions[1..]); }
    }
  }

  lemma {:induction false} IterationDoneIff(s: State, e: EventId, i: nat, handlers: seq<Handler>,
                                           executed: seq<EntryPoint>)
    ensures Iterate(s, e, i, handlers, executed).Done? <==> CalmHandlers(s, e, i, handlers)
    decreases handlers, 0
  {
    if i < |Subscribers(s, e)| && handlers != [] {
      CallsGoIff(s, handlers[0].actions);
      if DoAll(s, handlers[0].actions).Go? {
        IterationDoneIff(DoAll(s, handlers[0].actions).s, e, i + 1, handlers[1..], executed + [Subscribers(s, e)[i]]);
      }
    }
  }

  lemma {:induction false} EmissionGoIff(s: State, e: EventId, handlers: seq<Handler>)
    requires e in s.registry
    ensures DoEmit(s, e, handlers).Go? <==> Calm(s, Emit(e, handlers))
    decreases handlers, 1
  {
    var s1 := s.(emitting := true, active := s.active + [e]);
    IterationDoneIff(s1, e, 0, handlers, []);
    var r := Iterate(s1, e, 0, handlers, []);
    if r.Done? {
      var s2 := r.s.(active := s.active, log := r.s.log + [Emission(e, s.registry[e], r.executed)], emitting := false);
      ChangeAllGoIff(s2, s2.requests);
      assert forall q :: Harmless(s2, q) <==> Harmless(r.s.(active := s.active), q);
    }
  }

  /** Under any nesting: no change reaches a collection under iteration exactly when all calls are
      calm, and then every emission executes exactly the entry points subscribed when it began,
      in order. */
  lemma CalmIffUndisturbed(s: State, actions: seq<Action>)
    ensures DoAll(s, actions).Go? <==> CalmAll(s, actions)
    ensures CalmAll(s, actions) ==>
      var s' := DoAll(s, actions).s;
      s'.active == s.active && |s.log| <= |s'.log| && s'.log[..|s.log|] == s.log && Faithful(s'.log[|s.log|..])
  {
    CallsGoIff(s, actions);
    if CalmAll(s, actions) { EmissionsAreSnapshots(s, actions); }
  }

  // ---- one emission that is not nested -----------------------------------------------------

  predicate NoEmit(actions: seq<Action>) { forall a :: a in actions ==> !a.Emit? }

  predicate Flat(handlers: seq<Handler>) { forall h :: h in handlers ==> NoEmit(h.actions) }

  /** What the first `n` handlers do, one after the other. */
  function Joined(handlers: seq<Handler>, n: nat): seq<Action> {
    if handlers == [] || n == 0 then [] else handlers[0].actions + Joined(handlers[1..], n - 1)
  }

  /** The events that are known after an action. */
  function Learn(s: State, a: Action): State {
    if a.Query? then QueryEventId(s, a.name) else s
  }

  function Known(s: State, actions: seq<Action>): State
    decreases |actions|
  {
    if actions == [] then s else Known(Learn(s, actions[0]), actions[1..])
  }

  /** The request an action makes during an emission, judged by the subscriptions at its start. */
  function AcceptedOne(s: State, a: Action): seq<Request> {
    match a
    case Subscribe(e, ep) =>
      if ep != NULL && e in s.registry && ep !in s.registry[e] then [Request(e, true, ep)] else []
    case Unsubscribe(e, ep) => if e in s.registry then [Request(e, false, ep)] else []
    case _ => []
  }

  function Accepted(s: State, actions: seq<Action>): seq<Request>
    decreases |actions|
  {
    if actions == [] then []
    else AcceptedOne(s, actions[0]) + Accepted(Learn(s, actions[0]), actions[1..])
  }

  function ApplyOne(registry: map<EventId, seq<EntryPoint>>, q: Request): map<EventId, seq<EntryPoint>> {
    if q.event !in registry then registry
    else registry[q.event := Changed(registry[q.event], q.add, q.subscriber)]
  }

  function Apply(registry: map<EventId, seq<EntryPoint>>, qs: seq<Request>): map<EventId, seq<EntryPoint>>
    decreases |qs|
  {
    if qs == [] then registry else Apply(ApplyOne(registry, qs[0]), qs[1..])
  }

  lemma {:induction false} OnlyRegistryMatters(s: State, t: State, actions: seq<Action>)
    requires t == s.(requests := t.requests, active := t.active, log := t.log, emitting := t.emitting)
    ensures Accepted(t, actions) == Accepted(s, actions)
    ensures Known(t, actions) ==
      Known(s, actions).(requests := t.requests, active := t.active, log := t.log, emitting := t.emitting)
    decreases |actions|
  {
    if actions != [] {
      OnlyRegistryMatters(Learn(s, actions[0]), Learn(t, actions[0]), actions[1..]);
    }
  }

  lemma OnePutOff(s: State, a: Action)
    requires s.emitting && !a.Emit?
    ensures Do(s, a) == Go(Learn(s, a).(requests := s.requests + AcceptedOne(s, a)))
  {
  }

  lemma {:induction false} AllPutOff(s: State, actions: seq<Action>)
    requires s.emitting && NoEmit(actions)
    ensures DoAll(s, actions) == Go(Known(s, actions).(requests := s.requests + Accepted(s, actions)))
    decreases |actions|
  {
    if actions == [] {
      assert s.requests + [] == s.requests;
    } else {
      var a, rest := actions[0], actions[1..];
      assert a in actions;
      OnePutOff(s, a);
      var s0 := Learn(s, a);
      var s1 := s0.(requests := s.requests + AcceptedOne(s, a));
      AllPutOff(s1, rest);
      OnlyRegistryMatters(s0, s1, rest);
      assert s.requests + AcceptedOne(s, a) + Accepted(s0, rest) ==
        s.requests + (AcceptedOne(s, a) + Accepted(s0, rest));
      OnlyRegistryMatters(s0, s0, rest);
    }
  }

  lemma {:induction false} DoAllConcat(s: State, a: seq<Action>, b: seq<Action>)
    requires DoAll(s, a).Go?
    ensures DoAll(s, a + b) == DoAll(DoAll(s, a).s, b)
    decreases |a|
  {
    if a == [] {
      assert a + b == b;
    } else {
      assert (a + b)[1..] == a[1..] + b;
      DoAllConcat(Do(s, a[0]).s, a[1..], b);
    }
  }

  lemma {:induction false} IterateFlat(s: State, e: EventId, i: nat, handlers: seq<Handler>, executed: seq<EntryPoint>)
    requires s.emitting && e in s.registry && e in s.active && Flat(handlers) && i <= |s.registry[e]|
    ensures var n := |s.registry[e]| - i;
      && DoAll(s, Joined(handlers, n)).Go?
      && Iterate(s, e, i, handlers, executed) == Done(DoAll(s, Joined(handlers, n)).s, executed + s.registry[e][i..])
    decreases |handlers|, 1
  {
    var subs := s.registry[e];
    if i == |subs| {
      assert executed + subs[i..] == executed;
    } else if handlers != [] {
      assert handlers[0] in handlers;
      OneHandlerFlat(s, e, handlers[0].actions);
      IterateFlatStep(s, e, i, handlers, executed);
    }
  }

  lemma {:induction false} IterateFlatStep(s: State, e: EventId, i: nat, handlers: seq<Handler>,
                                          executed: seq<EntryPoint>)
    requires s.emitting && e in s.registry && e in s.active && Flat(handlers) && i < |s.registry[e]| && handlers != []
    requires DoAll(s, handlers[0].actions).Go?
    requires var s1 := DoAll(s, handlers[0].actions).s;
      s1.emitting && s1.active == s.active && e in s1.registry && s1.registry[e] == s.registry[e]
    ensures var n := |s.registry[e]| - i;
      && DoAll(s, Joined(handlers, n)).Go?
      && Iterate(s, e, i, handlers, executed) == Done(DoAll(s, Joined(handlers, n)).s, executed + s.registry[e][i..])
    decreases |handlers|, 0
  {
    var subs, acts := s.registry[e], handlers[0].actions;
    IterateFlat(DoAll(s, acts).s, e, i + 1, handlers[1..], executed + [subs[i]]);
    DoAllConcat(s, acts, Joined(handlers[1..], |subs| - i - 1));
    assert executed + [subs[i]] + subs[i + 1..] == executed + subs[i..];
  }

  lemma OneHandlerFlat(s: State, e: EventId, acts: seq<Action>)
    requires s.emitting && e in s.registry && e in s.active && NoEmit(acts)
    ensures DoAll(s, acts).Go?
    ensures var s1 := DoAll(s, acts).s;
      s1.emitting && s1.active == s.active && e in s1.registry && s1.registry[e] == s.registry[e]
  {
    AllPutOff(s, acts);
    DoAllKeeps(s, acts);
    KnownKeepsEmitting(s, acts);
  }

  lemma {:induction false} KnownKeepsEmitting(s: State, actions: seq<Action>)
    ensures Known(s, actions).emitting == s.emitting
    decreases |actions|
  {
    if actions != [] {
      KnownKeepsEmitting(Learn(s, actions[0]), actions[1..]);
    }
  }

  lemma {:induction false} NoEmitJoined(handlers: seq<Handler>, n: nat)
    requires Flat(handlers)
    ensures NoEmit(Joined(handlers, n))
  {
    if handlers != [] && n > 0 {
      assert handlers[0] in handlers;
      NoEmitJoined(handlers[1..], n - 1);
    }
  }

  lemma {:induction false} ChangeAllApplies(s: State, qs: seq<Request>)
    requires s.active == []
    ensures ChangeAll(s, qs) == Go(s.(registry := Apply(s.registry, qs)))
    decreases |qs|
  {
    if qs != [] {
      var q := qs[0];
      if q.event in s.registry {
        assert Changed(s.registry[q.event], q.add, q.subscriber) == s.registry[q.event] ==>
          s.registry[q.event := s.registry[q.event]] == s.registry;
      }
      ChangeAllApplies(Change(s, q).s, qs[1..]);
    }
  }

  /** An emission that is not nested executes exactly its subscribers; the requests made meanwhile
      are then carried out in order on the registry as it was, new events aside. */
  lemma SingleEmission(s: State, e: EventId, handlers: seq<Handler>)
    requires s.active == [] && e in s.registry && Flat(handlers)
    ensures var acts := Joined(handlers, |s.registry[e]|);
      DoEmit(s, e, handlers) == Go(Known(s, acts).(
        registry := Apply(Known(s, acts).registry, s.requests + Accepted(s, acts)),
        emitting := false,
        requests := [],
        log := s.log + [Emission(e, s.registry[e], s.registry[e])]))
  {
    var acts := Joined(handlers, |s.registry[e]|);
    var s1 := s.(emitting := true, active := s.active + [e]);
    EmissionIterates(s, e, handlers);
    var s2 := DoAll(s1, acts).s;
    var s3 := s2.(active := s.active, log := s2.log + [Emission(e, s.registry[e], s.registry[e])], emitting := false);
    assert DoEmit(s, e, handlers) == Leave(s3);
    ChangeAllApplies(s3, s3.requests);
  }

  /** The emission up to its end: all subscribers executed, all requests put off. */
  lemma EmissionIterates(s: State, e: EventId, handlers: seq<Handler>)
    requires s.active == [] && e in s.registry && Flat(handlers)
    ensures var acts := Joined(handlers, |s.registry[e]|);
      var s1 := s.(emitting := true, active := s.active + [e]);
      && DoAll(s1, acts) == Go(Known(s, acts).(requests := s.requests + Accepted(s, acts), emitting := true,
                                               active := s1.active, log := s.log))
      && Iterate(s1, e, 0, handlers, []) == Done(DoAll(s1, acts).s, s.registry[e])
      && Known(s, acts).active == s.active
  {
    var acts := Joined(handlers, |s.registry[e]|);
    var s1 := s.(emitting := true, active := s.active + [e]);
    IterateFlat(s1, e, 0, handlers, []);
    assert [] + s.registry[e][0..] == s.registry[e];
    NoEmitJoined(handlers, |s.registry[e]|);
    AllPutOff(s1, acts);
    OnlyRegistryMatters(s, s1, acts);
    OnlyRegistryMatters(s, s, acts);
  }

  // ---- how often an entry point is subscribed afterwards -----------------------------------

  /** The copies of `x` among the subscribers of `e` after one request. */
  function Count(n: nat, q: Request, e: EventId, x: EntryPoint): nat {
    if q.event != e || q.subscriber != x then n
    else if q.add then n + 1
    else if n == 0 then 0
    else n - 1
  }

  function Replay(n: nat, qs: seq<Request>, e: EventId, x: EntryPoint): nat
    decreases |qs|
  {
    if qs == [] then n else Replay(Count(n, qs[0], e, x), qs[1..], e, x)
  }

  lemma {:induction false} RemoveCounts(xs: seq<EntryPoint>, x: EntryPoint)
    ensures multiset(Remove(xs, x)) == multiset(xs) - multiset{x}
  {
    if xs != [] {
      assert xs == [xs[0]] + xs[1..];
      if xs[0] != x {
        RemoveCounts(xs[1..], x);
        assert multiset(Remove(xs, x)) == multiset{xs[0]} + multiset(Remove(xs[1..], x));
      }
    }
  }

  lemma CountOne(registry: map<EventId, seq<EntryPoint>>, q: Request, e: EventId, x: EntryPoint)
    requires e in registry
    ensures e in ApplyOne(registry, q)
    ensures multiset(ApplyOne(registry, q)[e])[x] == Count(multiset(registry[e])[x], q, e, x)
  {
    if q.event == e {
      RemoveCounts(registry[e], q.subscriber);
      assert multiset(registry[e] + [q.subscriber]) == multiset(registry[e]) + multiset{q.subscriber};
    }
  }

  /** Only the requests about one entry point and one event decide how often it is subscribed. */
  lemma {:induction false} SubscriptionCount(registry: map<EventId, seq<EntryPoint>>, qs: seq<Request>,
                                            e: EventId, x: EntryPoint)
    requires e in registry
    ensures e in Apply(registry, qs)
    ensures multiset(Apply(registry, qs)[e])[x] == Replay(multiset(registry[e])[x], qs, e, x)
    decreases |qs|
  {
    if qs != [] {
      CountOne(registry, qs[0], e, x);
      SubscriptionCount(ApplyOne(registry, qs[0]), qs[1..], e, x);
    }
  }

  /** A new name gets the next identifier and an event nobody is subscribed to; a known or an empty
      one changes nothing, and the empty one is an error. */
  lemma QueriesAnEvent(s: State, name: string)
    requires WellFormed(s)
    ensures QueryEventId(s, name) ==
      if name != "" && name !in s.index
      then s.(index := s.index[name := s.nextId], registry := s.registry[s.nextId := []], nextId := s.nextId + 1)
      else s
    ensures QueryError(name) == if name == "" then Some(InvalidEventName) else None
  {
  }

  // ---- outside an emission -----------------------------------------------------------------

  /** `ys` is `xs` without the first occurrence of `x`, or `xs` itself if there is none. */
  predicate FirstRemoved(xs: seq<EntryPoint>, x: EntryPoint, ys: seq<EntryPoint>) {
    if x in xs then exists i :: 0 <= i < |xs| && xs[i] == x && x !in xs[..i] && ys == xs[..i] + xs[i + 1..]
    else ys == xs
  }

  lemma {:induction false} RemovesAt(xs: seq<EntryPoint>, x: EntryPoint, i: nat)
    requires i < |xs| && xs[i] == x && forall j :: 0 <= j < i ==> xs[j] != x
    ensures Remove(xs, x) == xs[..i] + xs[i + 1..]
    decreases i
  {
    if i > 0 {
      RemovesAt(xs[1..], x, i - 1);
      assert [xs[0]] + (xs[1..][..i - 1] + xs[1..][i..]) == xs[..i] + xs[i + 1..];
    }
  }

  lemma {:induction false} FirstIndex(xs: seq<EntryPoint>, x: EntryPoint) returns (i: nat)
    requires x in xs
    ensures i < |xs| && xs[i] == x && forall j :: 0 <= j < i ==> xs[j] != x
    decreases |xs|
  {
    if xs[0] == x {
      i := 0;
    } else {
      assert xs == [xs[0]] + xs[1..];
      var k := FirstIndex(xs[1..], x);
      i := k + 1;
    }
  }

  lemma RemovesFirst(xs: seq<EntryPoint>, x: EntryPoint)
    ensures FirstRemoved(xs, x, Remove(xs, x))
  {
    if x in xs {
      var i := FirstIndex(xs, x);
      RemovesAt(xs, x, i);
    } else {
      RemoveChangesIff(xs, x);
    }
  }

  /** Outside an emission a subscription to a known event, of an entry point that is not subscribed to
      it, appends it, and does nothing else; any other one changes nothing, and is an error unless
      there is no entry point. */
  lemma SubscribesAtOnce(s: State, e: EventId, x: EntryPoint)
    requires !s.emitting && e !in s.active
    ensures var accepted := x != NULL && e in s.registry && x !in s.registry[e];
      && Do(s, Subscribe(e, x)) == Go(if accepted then s.(registry := s.registry[e := s.registry[e] + [x]]) else s)
      && SubscribeError(s, e, x) == if accepted || x == NULL then None
                                    else if e in s.registry then Some(AlreadySubscribed) else Some(InvalidEventId)
  {
  }

  /** An unsubscription takes out the first occurrence, and does nothing else; one from an unknown
      event is an error. */
  lemma UnsubscribesAtOnce(s: State, e: EventId, x: EntryPoint)
    requires !s.emitting && e !in s.active
    ensures Do(s, Unsubscribe(e, x)).Go?
    ensures var s' := Do(s, Unsubscribe(e, x)).s;
      if e in s.registry
      then e in s'.registry && FirstRemoved(s.registry[e], x, s'.registry[e])
           && s' == s.(registry := s.registry[e := s'.registry[e]]) && UnsubscribeError(s, e) == None
      else s' == s && UnsubscribeError(s, e) == Some(InvalidEventId)
  {
    if e in s.registry {
      RemovesFirst(s.registry[e], x);
      assert s.registry[e := s.registry[e]] == s.registry;
    }
  }

  /** Hence the next emission executes those subscribed before and then the new one, in this order;
      and those left when one was taken out. */
  lemma SubscribedIsExecuted(s: State, e: EventId, x: EntryPoint, handlers: seq<Handler>)
    requires s.active == [] && !s.emitting && Flat(handlers)
    requires x != NULL && e in s.registry && x !in s.registry[e]
    ensures var r := DoAll(s, [Subscribe(e, x), Emit(e, handlers)]);
      r.Go? && r.s.log == s.log + [Emission(e, s.registry[e] + [x], s.registry[e] + [x])]
  {
    SubscribesAtOnce(s, e, x);
    var s1 := Do(s, Subscribe(e, x)).s;
    SingleEmission(s1, e, handlers);
    TwoCalls(s, Subscribe(e, x), Emit(e, handlers));
  }

  lemma UnsubscribedIsNotExecuted(s: State, e: EventId, x: EntryPoint, handlers: seq<Handler>)
      returns (left: seq<EntryPoint>)
    requires s.active == [] && !s.emitting && Flat(handlers) && e in s.registry
    ensures FirstRemoved(s.registry[e], x, left)
    ensures var r := DoAll(s, [Unsubscribe(e, x), Emit(e, handlers)]);
      r.Go? && r.s.log == s.log + [Emission(e, left, left)]
  {
    UnsubscribesAtOnce(s, e, x);
    var s1 := Do(s, Unsubscribe(e, x)).s;
    left := s1.registry[e];
    SingleEmission(s1, e, handlers);
    TwoCalls(s, Unsubscribe(e, x), Emit(e, handlers));
  }

  lemma TwoCalls(s: State, a: Action, b: Action)
    requires Do(s, a).Go?
    ensures DoAll(s, [a, b]) == Do(Do(s, a).s, b)
  {
    assert [a, b][1..] == [b];
    OneCall(Do(s, a).s, b);
  }

  lemma OneCall(s: State, a: Action)
    ensures DoAll(s, [a]) == Do(s, a)
  {
    assert [a][1..] == [];
  }

  // ---- where the guarantees end ------------------------------------------------------------

  /** Two subscriptions during one emission are both accepted: the entry point is then executed
      twice, although a second subscription is an error otherwise. */
  lemma SubscribedTwice(s: State, e: EventId, target: EventId, x: EntryPoint)
    requires s.active == [] && s.requests == [] && x != NULL
    requires e in s.registry && s.registry[e] != [] && target in s.registry && x !in s.registry[target]
    ensures var twice := [Subscribe(target, x), Subscribe(target, x)];
      var r := DoEmit(s, e, [Handler(twice)]);
      && r.Go? && target in r.s.registry && r.s.registry[target] == s.registry[target] + [x, x]
      && SubscribeError(s, target, x) == None
  {
    var twice := [Subscribe(target, x), Subscribe(target, x)];
    var handlers := [Handler(twice)];
    var q := Request(target, true, x);
    SingleEmission(s, e, handlers);
    OneHandler(handlers[0], |s.registry[e]|);
    TwoActions(s, twice[0], twice[1]);
    assert s.requests + ([q] + [q]) == [q, q];
    TwoRequests(s.registry, q, q);
    assert s.registry[target] + [x] + [x] == s.registry[target] + [x, x];
  }

  lemma OneHandler(h: Handler, n: nat)
    requires n > 0
    ensures Joined([h], n) == h.actions
  {
  }

  lemma TwoActions(s: State, a: Action, b: Action)
    ensures Known(s, [a, b]) == Learn(Learn(s, a), b)
    ensures Accepted(s, [a, b]) == AcceptedOne(s, a) + AcceptedOne(Learn(s, a), b)
  {
    var s1 := Learn(s, a);
    assert [a, b][1..] == [b] && [b][1..] == [];
    assert Accepted(s1, [b]) == AcceptedOne(s1, b) + [] == AcceptedOne(s1, b);
    assert Known(s1, [b]) == Learn(s1, b);
  }

  lemma TwoRequests(registry: map<EventId, seq<EntryPoint>>, p: Request, q: Request)
    ensures Apply(registry, [p]) == ApplyOne(registry, p)
    ensures Apply(registry, [p, q]) == ApplyOne(ApplyOne(registry, p), q)
  {
    assert [p, q][1..] == [q] && [q][1..] == [] && [p][1..] == [];
    assert Apply(ApplyOne(registry, p), [q]) == ApplyOne(ApplyOne(registry, p), q);
  }

  /** The end of an inner emission ends the postponement for the outer one: the next subscription
      to the outer event changes the collection being iterated over. */
  lemma NestedEmissionEndsPostponement(s: State, e: EventId, inner: EventId, x: EntryPoint)
    requires s.active == [] && s.requests == [] && x != NULL
    requires e in s.registry && inner in s.registry && s.registry[e] != [] && x !in s.registry[e]
    ensures DoEmit(s, e, [Handler([Emit(inner, []), Subscribe(e, x)])]) == Undefined
  {
    var acts := [Emit(inner, []), Subscribe(e, x)];
    var s1 := s.(emitting := true, active := s.active + [e]);
    var s2 := s1.(active := s1.active + [inner]);
    assert Iterate(s2, inner, 0, [], []) == Done(s2, [] + s.registry[inner][0..]);
    var s3 := DoEmit(s1, inner, []).s;
    assert s3.registry == s.registry && !s3.emitting && s3.active == [e];
    assert acts[1..] == [Subscribe(e, x)] && acts[1..][1..] == [];
    assert s3.registry[e] + [x] != s3.registry[e];
    assert DoSubscribe(s3, e, x) == Undefined;
    assert DoAll(s3, acts[1..]) == Undefined;
    assert DoAll(s1, acts) == Undefined;
  }

  /** After an emission of an unknown event nothing is under way, yet subscriptions are put off,
      until some known event has been emitted. */
  lemma UnknownEventPostpones(s: State, unknown: EventId, e: EventId, x: EntryPoint)
    requires s.active == [] && s.requests == [] && x != NULL
    requires unknown !in s.registry && e in s.registry && x !in s.registry[e]
    ensures var s1 := DoAll(s, [Emit(unknown, []), Subscribe(e, x)]);
      && s1.Go? && s1.s.registry == s.registry
      && var s2 := DoEmit(s1.s, e, []);
        s2.Go? && s2.s.log == s.log + [Emission(e, s.registry[e], s.registry[e])]
        && e in s2.s.registry && s2.s.registry[e] == s.registry[e] + [x]
  {
    var q := Request(e, true, x);
    var s0 := s.(emitting := true);
    var s1 := s0.(requests := [q]);
    assert s0.requests + [q] == [q];
    assert [Emit(unknown, []), Subscribe(e, x)][1..] == [Subscribe(e, x)];
    assert [Subscribe(e, x)][1..] == [];
    assert Do(s, Emit(unknown, [])) == Go(s0);
    assert Do(s0, Subscribe(e, x)) == Go(s1);
    assert DoAll(s0, [Subscribe(e, x)]) == Go(s1);
    SingleEmission(s1, e, []);
    assert s1.requests + [] == [q];
    TwoRequests(s.registry, q, q);
  }
}
