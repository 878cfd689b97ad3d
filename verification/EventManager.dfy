/** The event manager object: every method changes the fields as the functions of `Events` say. */
module EventManagement {
  import opened Options
  import opened Events
  import opened EventTheorems

  lemma {:induction false} IterateRest(s: State, e: EventId, i: nat, executed: seq<EntryPoint>)
    requires i < |Subscribers(s, e)|
    ensures Iterate(s, e, i, [], executed) == Iterate(s, e, i + 1, [], executed + [Subscribers(s, e)[i]])
  {
  }

  class EventManager {
    var registry: map<EventId, seq<EntryPoint>>
    var index: map<string, EventId>
    var nextId: EventId
    var emitting: bool
    var requests: seq<Request>
    /** The iterations under way, and the emissions that ended. */
    var active: seq<EventId>
    var log: seq<Emission>

    function Value(): State
      reads this
    {
      State(registry, index, nextId, emitting, requests, active, log)
    }

    /** `names` are the predefined events, in the order of their identifiers. */
    constructor (names: seq<string>)
      requires forall i :: 0 <= i < |names| ==> names[i] != ""
      requires forall i, j :: 0 <= i < j < |names| ==> names[i] != names[j]
      ensures WellFormed(Value())
      ensures forall i :: 0 <= i < |names| ==> names[i] in index && index[names[i]] == i + 1 && registry[i + 1] == []
      ensures nextId == |names| + 1 && !emitting && requests == [] && active == [] && log == []
    {
      registry, index, nextId := map[], map[], 1;
      emitting, requests, active, log := false, [], [], [];
      new;
      for evtIdx := 1 to |names| + 1
        invariant nextId == evtIdx && !emitting && requests == [] && active == [] && log == []
        invariant forall e :: e in registry <==> 1 <= e < nextId
        invariant forall e :: e in registry ==> registry[e] == []
        invariant forall n :: n in index ==> n != "" && 1 <= index[n] < nextId && n == names[index[n] - 1]
        invariant forall i :: 0 <= i < evtIdx - 1 ==> names[i] in index && index[names[i]] == i + 1
      {
        assert forall i :: 0 <= i < evtIdx - 1 ==> names[i] != names[evtIdx - 1];
        registry := registry[evtIdx := []];
        index := index[names[evtIdx - 1] := evtIdx];
        nextId := nextId + 1;
      }
    }

    method QueryEventId(eventName: string) returns (r: Option<EventId>)
      modifies this`index, this`registry, this`nextId
      ensures Value() == Events.QueryEventId(old(Value()), eventName)
      ensures r == if eventName == "" then None else if eventName in index then Some(index[eventName]) else None
      ensures r == None <==> QueryError(eventName).Some?
    {
      if eventName == "" { return None; }
      if eventName in index {
        r := Some(index[eventName]);
      } else {
        index := index[eventName := nextId];
        r := Some(nextId);
        if nextId !in registry { registry := registry[nextId := []]; }
        nextId := nextId + 1;
      }
    }

    /** `push_back` or `remove` on a collection; false when it changes under an iteration. */
    method ChangeNow(q: Request) returns (ok: bool)
      modifies this`registry
      ensures match Change(old(Value()), q)
        case Undefined => !ok
        case Go(s) => ok && Value() == s
    {
      if q.event !in registry { return true; }
      var before := registry[q.event];
      var after := Changed(before, q.add, q.subscriber);
      ok := after == before || q.event !in active;
      if after != before { registry := registry[q.event := after]; }
    }

    method Subscribe(event: EventId, entryPoint: EntryPoint) returns (error: Option<Error>, ok: bool)
      modifies this`registry, this`requests
      ensures error == old(SubscribeError(Value(), event, entryPoint))
      ensures match DoSubscribe(old(Value()), event, entryPoint)
        case Undefined => !ok
        case Go(s) => ok && Value() == s
    {
      error, ok := None, true;
      if entryPoint != NULL {
        if event in registry {
          if entryPoint in registry[event] { return Some(AlreadySubscribed), true; }
          if emitting {
            requests := requests + [Request(event, true, entryPoint)];
          } else {
            ok := ChangeNow(Request(event, true, entryPoint));
          }
        } else {
          error := Some(InvalidEventId);
        }
      }
    }

    method Unsubscribe(event: EventId, entryPoint: EntryPoint) returns (error: Option<Error>, ok: bool)
      modifies this`registry, this`requests
      ensures error == old(UnsubscribeError(Value(), event))
      ensures match DoUnsubscribe(old(Value()), event, entryPoint)
        case Undefined => !ok
        case Go(s) => ok && Value() == s
    {
      error, ok := None, true;
      if event in registry {
        if emitting {
          requests := requests + [Request(event, false, entryPoint)];
        } else {
          ok := ChangeNow(Request(event, false, entryPoint));
        }
      } else {
        error := Some(InvalidEventId);
      }
    }

    method LeaveEmission() returns (ok: bool)
      modifies this
      ensures match Leave(old(Value()))
        case Undefined => !ok
        case Go(s) => ok && Value() == s
    {
      emitting := false;
      ghost var s0 := Value();
      var i := 0;
      while i < |requests|
        invariant 0 <= i <= |requests| && requests == s0.requests
        invariant ChangeAll(s0, requests) == ChangeAll(Value(), requests[i..])
      {
        ghost var s := Value();
        assert requests[i..][1..] == requests[i + 1..];
        ok := ChangeNow(requests[i]);
        if !ok { return; }
        i := i + 1;
      }
      requests := [];
      ok := true;
    }

    method Emit(event: EventId, handlers: seq<Handler>) returns (error: Option<Error>, ok: bool)
      modifies this
      ensures error == if event in old(registry) then None else Some(InvalidEventId)
      ensures match DoEmit(old(Value()), event, handlers)
        case Undefined => !ok
        case Go(s) => ok && Value() == s
      decreases handlers, 1
    {
      ghost var s0 := Value();
      emitting := true;
      if event !in registry { return Some(InvalidEventId), true; }
      error := None;
      var subscribers, outer := registry[event], active;
      active := active + [event];
      var executed := [];
      ghost var s1 := Value();
      var i := 0;
      while i < |registry[event]|
        invariant event in registry && registry[event] == subscribers && event in active && i <= |subscribers|
        invariant Iterate(s1, event, 0, handlers, []) ==
          Iterate(Value(), event, i, if i < |handlers| then handlers[i..] else [], executed)
        invariant error == None
        decreases |subscribers| - i
      {
        ghost var s := Value();
        var ep := registry[event][i];
        if i < |handlers| {
          assert handlers[i..][1..] == handlers[i + 1..];
          DoAllKeeps(s, handlers[i].actions);
          ok := Perform(handlers[i].actions);
          if !ok { return; }
        } else {
          IterateRest(s, event, i, executed);
        }
        executed := executed + [ep];
        i := i + 1;
      }
      active, log := outer, log + [Emission(event, subscribers, executed)];
      ok := LeaveEmission();
    }

    method Execute(action: Action) returns (ok: bool)
      modifies this
      ensures match Do(old(Value()), action)
        case Undefined => !ok
        case Go(s) => ok && Value() == s
      decreases action
    {
      ok := true;
      match action
      case Query(name) => var _ := QueryEventId(name);
      case Subscribe(e, ep) => var _, done := Subscribe(e, ep); ok := done;
      case Unsubscribe(e, ep) => var _, done := Unsubscribe(e, ep); ok := done;
      case Emit(e, handlers) => var _, done := Emit(e, handlers); ok := done;
    }

    /** The calls an entry point makes. */
    method Perform(actions: seq<Action>) returns (ok: bool)
      modifies this
      ensures match DoAll(old(Value()), actions)
        case Undefined => !ok
        case Go(s) => ok && Value() == s
      decreases actions, 0
    {
      if actions == [] { return true; }
      ok := Execute(actions[0]);
      if ok { ok := Perform(actions[1..]); }
    }
  }
}
