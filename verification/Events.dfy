/** The event manager as functions on its state: registration, subscription, and emission with
    the subscription changes that handlers ask for. */
module Events {
  import opened Options

  type EventId = int
  type EntryPoint = nat

  /** The null pointer. */
  const NULL: EntryPoint := 0

  datatype Error = AlreadySubscribed | InvalidEventId | InvalidEventName

  /** `add` or remove `subscriber`, put off until the end of an emission. */
  datatype Request = Request(event: EventId, add: bool, subscriber: EntryPoint)

  /** One finished emission: who was subscribed when it began, who was executed. */
  datatype Emission = Emission(event: EventId, subscribers: seq<EntryPoint>, executed: seq<EntryPoint>)

  /** `active` are the events whose subscribers are being iterated over, the innermost last. */
  datatype State = State(
    registry: map<EventId, seq<EntryPoint>>,
    index: map<string, EventId>,
    nextId: EventId,
    emitting: bool,
    requests: seq<Request>,
    active: seq<EventId>,
    log: seq<Emission>)

  /** A call to the manager. `handlers` says what the entry points an emission executes do, in the
      order of execution; those beyond the end do nothing. */
  datatype Action =
    | Query(name: string)
    | Subscribe(event: EventId, subscriber: EntryPoint)
    | Unsubscribe(event: EventId, subscriber: EntryPoint)
    | Emit(event: EventId, handlers: seq<Handler>)

  datatype Handler = Handler(actions: seq<Action>)

  /** `Undefined`: a collection changes under an iteration over it. */
  datatype Outcome = Go(s: State) | Undefined

  function Subscribers(s: State, e: EventId): seq<EntryPoint> {
    if e in s.registry then s.registry[e] else []
  }

  function Remove(xs: seq<EntryPoint>, x: EntryPoint): seq<EntryPoint> {
    if xs == [] then [] else if xs[0] == x then xs[1..] else [xs[0]] + Remove(xs[1..], x)
  }

  function Changed(xs: seq<EntryPoint>, add: bool, x: EntryPoint): seq<EntryPoint> {
    if add then xs + [x] else Remove(xs, x)
  }

  function Change(s: State, q: Request): Outcome {
    if q.event !in s.registry then Go(s)
    else
      var after := Changed(s.registry[q.event], q.add, q.subscriber);
      if after == s.registry[q.event] then Go(s)
      else if q.event in s.active then Undefined
      else Go(s.(registry := s.registry[q.event := after]))
  }

  function QueryEventId(s: State, name: string): State {
    if name == "" || name in s.index then s
    else
      s.(index := s.index[name := s.nextId],
         registry := if s.nextId in s.registry then s.registry else s.registry[s.nextId := []],
         nextId := s.nextId + 1)
  }

  function QueryError(name: string): Option<Error> {
    if name == "" then Some(InvalidEventName) else None
  }

  function ChangeOrDefer(s: State, q: Request): Outcome {
    if s.emitting then Go(s.(requests := s.requests + [q])) else Change(s, q)
  }

  /** Whether a subscription is accepted: the requests put off so far are not looked at. */
  function SubscribeError(s: State, e: EventId, ep: EntryPoint): Option<Error> {
    if ep == NULL then None
    else if e !in s.registry then Some(InvalidEventId)
    else if ep in s.registry[e] then Some(AlreadySubscribed)
    else None
  }

  function DoSubscribe(s: State, e: EventId, ep: EntryPoint): Outcome {
    if ep == NULL || SubscribeError(s, e, ep).Some? then Go(s) else ChangeOrDefer(s, Request(e, true, ep))
  }

  /** Nothing is thrown for an entry point that is not subscribed. */
  function UnsubscribeError(s: State, e: EventId): Option<Error> {
    if e !in s.registry then Some(InvalidEventId) else None
  }

  function DoUnsubscribe(s: State, e: EventId, ep: EntryPoint): Outcome {
    if UnsubscribeError(s, e).Some? then Go(s) else ChangeOrDefer(s, Request(e, false, ep))
  }

  function ChangeAll(s: State, qs: seq<Request>): Outcome
    decreases |qs|
  {
    if qs == [] then Go(s)
    else
      match Change(s, qs[0])
      case Undefined => Undefined
      case Go(s') => ChangeAll(s', qs[1..])
  }

  /** The emission is over: the requests are carried out. */
  function Leave(s: State): Outcome {
    match ChangeAll(s.(emitting := false), s.requests)
    case Undefined => Undefined
    case Go(s') => Go(s'.(requests := []))
  }

  datatype Iteration = Done(s: State, executed: seq<EntryPoint>) | Broken

  /** The loop over the live collection, from its element `i` on. */
  function Iterate(s: State, e: EventId, i: nat, handlers: seq<Handler>, executed: seq<EntryPoint>): Iteration
    decreases handlers, 0
  {
    if i >= |Subscribers(s, e)| then Done(s, executed)
    else if handlers == [] then Done(s, executed + Subscribers(s, e)[i..])
    else
      match DoAll(s, handlers[0].actions)
      case Undefined => Broken
      case Go(s') => Iterate(s', e, i + 1, handlers[1..], executed + [Subscribers(s, e)[i]])
  }

  function Finish(s: State, e: EventId, r: Iteration): Outcome {
    match r
    case Broken => Undefined
    case Done(s', executed) =>
      Leave(s'.(active := s.active, log := s'.log + [Emission(e, Subscribers(s, e), executed)]))
  }

  function DoEmit(s: State, e: EventId, handlers: seq<Handler>): Outcome
    decreases handlers, 1
  {
    if e !in s.registry then Go(s.(emitting := true))
    else Finish(s, e, Iterate(s.(emitting := true, active := s.active + [e]), e, 0, handlers, []))
  }

  function Do(s: State, a: Action): Outcome
    decreases a
  {
    match a
    case Query(name) => Go(QueryEventId(s, name))
    case Subscribe(e, ep) => DoSubscribe(s, e, ep)
    case Unsubscribe(e, ep) => DoUnsubscribe(s, e, ep)
    case Emit(e, handlers) => DoEmit(s, e, handlers)
  }

  function DoAll(s: State, actions: seq<Action>): Outcome
    decreases actions, 0
  {
    if actions == [] then Go(s)
    else
      match Do(s, actions[0])
      case Undefined => Undefined
      case Go(s') => DoAll(s', actions[1..])
  }

  // ---- what every call keeps ---------------------------------------------------------------

  predicate Faithful(log: seq<Emission>) {
    forall k :: 0 <= k < |log| ==> log[k].executed == log[k].subscribers
  }

  /** The collections under iteration and the set of iterations stay, and every emission that
      ends meanwhile has executed exactly its subscribers, in order. */
  ghost predicate Keeps(s: State, s': State) {
    && s'.active == s.active
    && s.registry.Keys <= s'.registry.Keys
    && (forall e :: e in s.active && e in s.registry ==> s'.registry[e] == s.registry[e])
    && |s.log| <= |s'.log| && s'.log[..|s.log|] == s.log
    && Faithful(s'.log[|s.log|..])
  }

  lemma KeepsChain(s: State, s1: State, s2: State)
    requires Keeps(s, s1) && Keeps(s1, s2)
    ensures Keeps(s, s2)
  {
  }

  lemma ChangeKeeps(s: State, q: Request)
    ensures Change(s, q).Go? ==> Keeps(s, Change(s, q).s) && Change(s, q).s.log == s.log
  {
  }

  lemma {:induction false} ChangeAllKeeps(s: State, qs: seq<Request>)
    ensures ChangeAll(s, qs).Go? ==> Keeps(s, ChangeAll(s, qs).s)
    decreases |qs|
  {
    if qs != [] {
      ChangeKeeps(s, qs[0]);
      if Change(s, qs[0]).Go? {
        var s1 := Change(s, qs[0]).s;
        ChangeAllKeeps(s1, qs[1..]);
        if ChangeAll(s, qs).Go? { KeepsChain(s, s1, ChangeAll(s, qs).s); }
      }
    }
  }

  lemma {:induction false} DoKeeps(s: State, a: Action)
    ensures Do(s, a).Go? ==> Keeps(s, Do(s, a).s)
    decreases a
  {
    match a
    case Query(name) =>
    case Subscribe(e, ep) => ChangeKeeps(s, Request(e, true, ep));
    case Unsubscribe(e, ep) => ChangeKeeps(s, Request(e, false, ep));
    case Emit(e, handlers) => if e in s.registry { EmitKeeps(s, e, handlers); }
  }

  lemma {:induction false} DoAllKeeps(s: State, actions: seq<Action>)
    ensures DoAll(s, actions).Go? ==> Keeps(s, DoAll(s, actions).s)
    decreases actions, 0
  {
    if actions != [] {
      DoKeeps(s, actions[0]);
      if Do(s, actions[0]).Go? {
        var s1 := Do(s, actions[0]).s;
        DoAllKeeps(s1, actions[1..]);
        if DoAll(s, actions).Go? { KeepsChain(s, s1, DoAll(s, actions).s); }
      }
    }
  }

  lemma {:induction false} IterateKeeps(s: State, e: EventId, i: nat, handlers: seq<Handler>, executed: seq<EntryPoint>)
    requires e in s.registry && e in s.active
    requires i <= |s.registry[e]| && executed == s.registry[e][..i]
    ensures var r := Iterate(s, e, i, handlers, executed);
      r.Done? ==> Keeps(s, r.s) && r.executed == s.registry[e]
    decreases handlers, 0
  {
    var subs := s.registry[e];
    if i == |subs| {
      assert subs[..i] == subs;
    } else if handlers == [] {
      assert subs[..i] + subs[i..] == subs;
    } else {
      DoAllKeeps(s, handlers[0].actions);
      if DoAll(s, handlers[0].actions).Go? {
        var s1 := DoAll(s, handlers[0].actions).s;
        assert subs[..i] + [subs[i]] == subs[..i + 1];
        IterateKeeps(s1, e, i + 1, handlers[1..], executed + [subs[i]]);
        var r := Iterate(s1, e, i + 1, handlers[1..], executed + [subs[i]]);
        if r.Done? { KeepsChain(s, s1, r.s); }
      }
    }
  }

  lemma {:induction false} EmitKeeps(s: State, e: EventId, handlers: seq<Handler>)
    requires e in s.registry
    ensures DoEmit(s, e, handlers).Go? ==> Keeps(s, DoEmit(s, e, handlers).s)
    decreases handlers, 1
  {
    var s1 := s.(emitting := true, active := s.active + [e]);
    IterateKeeps(s1, e, 0, handlers, []);
    var r := Iterate(s1, e, 0, handlers, []);
    if r.Done? {
      var s2 := r.s.(active := s.active, log := r.s.log + [Emission(e, s.registry[e], r.executed)], emitting := false);
      LogGrows(s, r.s, s2, e);
      ChangeAllKeeps(s2, s2.requests);
      if ChangeAll(s2, s2.requests).Go? {
        KeepsChain(s, s2, ChangeAll(s2, s2.requests).s);
      }
    }
  }

  lemma LogGrows(s: State, s1: State, s2: State, e: EventId)
    requires e in s.registry && Keeps(s.(active := s.active + [e]), s1)
    requires s2 == s1.(active := s.active, log := s1.log + [Emission(e, s.registry[e], s.registry[e])],
                       emitting := false)
    ensures Keeps(s, s2)
  {
  }

  /** Whatever the handlers do, including emitting again: as long as no change reaches a
      collection under iteration, every emission executes exactly the entry points subscribed when
      it began, once each and in order. */
  lemma EmissionsAreSnapshots(s: State, actions: seq<Action>)
    requires DoAll(s, actions).Go?
    ensures var s' := DoAll(s, actions).s;
      |s.log| <= |s'.log| && s'.log[..|s.log|] == s.log && Faithful(s'.log[|s.log|..]) && s'.active == s.active
  {
    DoAllKeeps(s, actions);
  }
}
