/** The entry points to execute at initialisation: accepted in some states, executed once. */
module InitEntryPoints {
  import opened SimulatorStates

  type EntryPoint = nat

  /** An entry point handed to the simulator, and the state it was in then. */
  datatype Offer = Offer(ep: EntryPoint, kind: SimulatorState)

  /** `offers` are all entry points ever handed over, `batches` those each iteration executed. */
  datatype State = State(
    kind: SimulatorState,
    pending: seq<EntryPoint>,
    offers: seq<Offer>,
    batches: seq<seq<EntryPoint>>)

  /** A call to the simulator. The arguments are what user code does on the way: the handlers of
      the events of a state change, the Connect callbacks, the entry points executed. */
  datatype Action =
    | Add(ep: EntryPoint)
    | Initialise(script: Script)
    | Connect(callbacks: seq<Action>, standby: Change, script: Script)
    | Run(executing: Change)
    | Stop(standby: Change)
    | Transfer(restoring: bool, away: Change, back: Change)

  /** What the handlers of the leave event and of the enter event do. */
  datatype Change = Change(onLeave: seq<Action>, onEnter: seq<Action>)

  /** `bodies` in the order of execution; entry points beyond the end do nothing. */
  datatype Script = Script(initialising: Change, bodies: seq<Handler>, standby: Change)

  datatype Handler = Handler(actions: seq<Action>)

  const INITIAL := State(SSK_Building, [], [], [])

  function AddEntryPoint(s: State, ep: EntryPoint): State {
    var s' := s.(offers := s.offers + [Offer(ep, s.kind)]);
    if s.kind in {SSK_Building, SSK_Connecting, SSK_Standby} then s'.(pending := s'.pending + [ep]) else s'
  }

  /** Leave handlers run in the old state, enter handlers in the new one. */
  function SetState(s: State, kind: SimulatorState, change: Change): State
    decreases change, 0
  {
    if s.kind == kind then s
    else
      var left := DoAll(s, change.onLeave);
      DoAll(left.(kind := kind), change.onEnter)
  }

  /** The loop over the live collection from its element `i` on; the second result is what it
      executed. */
  function Iterate(s: State, i: nat, bodies: seq<Handler>): (State, seq<EntryPoint>)
    decreases bodies, 0
  {
    if i >= |s.pending| then (s, [])
    else if bodies == [] then (s, s.pending[i..])
    else
      var s' := DoAll(s, bodies[0].actions);
      var (after, rest) := Iterate(s', i + 1, bodies[1..]);
      (after, [s.pending[i]] + rest)
  }

  function DoInitialise(s: State, script: Script): State
    decreases script, 0
  {
    if s.kind != SSK_Standby then s
    else
      var s1 := SetState(s, SSK_Initialising, script.initialising);
      var (s2, executed) := Iterate(s1, 0, script.bodies);
      SetState(s2.(pending := [], batches := s2.batches + [executed]), SSK_Standby, script.standby)
  }

  function Do(s: State, a: Action): State
    decreases a
  {
    match a
    case Add(ep) => AddEntryPoint(s, ep)
    case Initialise(script) => DoInitialise(s, script)
    case Connect(callbacks, standby, script) =>
      if s.kind != SSK_Building then s
      else DoInitialise(SetState(DoAll(s.(kind := SSK_Connecting), callbacks), SSK_Standby, standby), script)
    case Run(executing) => if s.kind != SSK_Standby then s else SetState(s, SSK_Executing, executing)
    case Stop(standby) => if s.kind != SSK_Executing then s else SetState(s, SSK_Standby, standby)
    case Transfer(restoring, away, back) =>
      if s.kind != SSK_Standby then s
      else SetState(SetState(s, if restoring then SSK_Restoring else SSK_Storing, away), SSK_Standby, back)
  }

  function DoAll(s: State, actions: seq<Action>): State
    decreases actions, 0
  {
    if actions == [] then s else DoAll(Do(s, actions[0]), actions[1..])
  }

  // ---- nothing happens while initialising --------------------------------------------------

  /** The entry points offered while the simulator was building, connecting or in standby. */
  function Accepted(offers: seq<Offer>): seq<EntryPoint> {
    if offers == [] then []
    else
      var last := offers[|offers| - 1];
      Accepted(offers[..|offers| - 1])
      + if last.kind.SSK_Building? || last.kind.SSK_Connecting? || last.kind.SSK_Standby? then [last.ep] else []
  }

  lemma AcceptedSnoc(offers: seq<Offer>, o: Offer)
    ensures Accepted(offers + [o]) ==
      Accepted(offers) + if o.kind.SSK_Building? || o.kind.SSK_Connecting? || o.kind.SSK_Standby? then [o.ep] else []
  {
    assert (offers + [o])[..|offers|] == offers;
  }

  /** Nothing but the record of refused offers differs. */
  ghost predicate Untouched(s: State, s': State) {
    s' == s.(offers := s'.offers) && s.offers <= s'.offers && Accepted(s'.offers) == Accepted(s.offers)
  }

  /** While entry points are being executed, every call is refused or ignored. */
  lemma {:induction false} InitialisingIgnoresCalls(s: State, actions: seq<Action>)
    requires s.kind == SSK_Initialising
    ensures Untouched(s, DoAll(s, actions))
    decreases |actions|
  {
    if actions != [] {
      if actions[0].Add? { AcceptedSnoc(s.offers, Offer(actions[0].ep, s.kind)); }
      assert Untouched(s, Do(s, actions[0]));
      InitialisingIgnoresCalls(Do(s, actions[0]), actions[1..]);
    }
  }

  lemma {:induction false} IterateExecutesAll(s: State, i: nat, bodies: seq<Handler>)
    requires s.kind == SSK_Initialising && i <= |s.pending|
    ensures Untouched(s, Iterate(s, i, bodies).0) && Iterate(s, i, bodies).1 == s.pending[i..]
    decreases |bodies|
  {
    if i == |s.pending| {
      assert s.pending[i..] == [];
    } else if bodies != [] {
      InitialisingIgnoresCalls(s, bodies[0].actions);
      IterateExecutesAll(DoAll(s, bodies[0].actions), i + 1, bodies[1..]);
      assert s.pending[i..] == [s.pending[i]] + s.pending[i + 1..];
    }
  }

  // ---- conservation ------------------------------------------------------------------------

  function Flatten(batches: seq<seq<EntryPoint>>): seq<EntryPoint> {
    if batches == [] then [] else batches[0] + Flatten(batches[1..])
  }

  lemma {:induction false} FlattenSnoc(batches: seq<seq<EntryPoint>>, batch: seq<EntryPoint>)
    ensures Flatten(batches + [batch]) == Flatten(batches) + batch
  {
    if batches == [] {
      assert batches + [batch] == [batch] && [batch][1..] == [];
      assert batch + [] == batch;
    } else {
      assert (batches + [batch])[1..] == batches[1..] + [batch];
      FlattenSnoc(batches[1..], batch);
      assert batches[0] + (Flatten(batches[1..]) + batch) == batches[0] + Flatten(batches[1..]) + batch;
    }
  }

  /** What was accepted is what was executed, batch after batch, followed by what is pending. */
  predicate Conserved(s: State) { Accepted(s.offers) == Flatten(s.batches) + s.pending }

  lemma AddConserves(s: State, ep: EntryPoint)
    requires Conserved(s)
    ensures Conserved(AddEntryPoint(s, ep))
  {
    AcceptedSnoc(s.offers, Offer(ep, s.kind));
  }

  lemma {:induction false} SetStateConserves(s: State, kind: SimulatorState, change: Change)
    requires Conserved(s)
    ensures Conserved(SetState(s, kind, change))
    ensures kind == SSK_Initialising ==> SetState(s, kind, change).kind == SSK_Initialising
    decreases change, 0
  {
    if s.kind != kind {
      var left := DoAll(s, change.onLeave).(kind := kind);
      DoAllConserves(s, change.onLeave);
      DoAllConserves(left, change.onEnter);
      if kind == SSK_Initialising { InitialisingIgnoresCalls(left, change.onEnter); }
    }
  }

  lemma {:induction false} InitialiseConserves(s: State, script: Script)
    requires Conserved(s)
    ensures Conserved(DoInitialise(s, script))
    decreases script, 0
  {
    if s.kind == SSK_Standby {
      var s1 := SetState(s, SSK_Initialising, script.initialising);
      SetStateConserves(s, SSK_Initialising, script.initialising);
      IterateExecutesAll(s1, 0, script.bodies);
      FlattenSnoc(s1.batches, s1.pending);
      var s2 := Iterate(s1, 0, script.bodies).0.(pending := [], batches := s1.batches + [s1.pending]);
      assert s1.pending[0..] == s1.pending;
      assert Flatten(s2.batches) + [] == Flatten(s2.batches);
      SetStateConserves(s2, SSK_Standby, script.standby);
    }
  }

  lemma {:induction false} DoConserves(s: State, a: Action)
    requires Conserved(s)
    ensures Conserved(Do(s, a))
    decreases a
  {
    match a
    case Add(ep) => AddConserves(s, ep);
    case Initialise(script) => InitialiseConserves(s, script);
    case Connect(callbacks, standby, script) =>
      if s.kind == SSK_Building {
        var s1 := DoAll(s.(kind := SSK_Connecting), callbacks);
        DoAllConserves(s.(kind := SSK_Connecting), callbacks);
        SetStateConserves(s1, SSK_Standby, standby);
        InitialiseConserves(SetState(s1, SSK_Standby, standby), script);
      }
    case Run(executing) => if s.kind == SSK_Standby { SetStateConserves(s, SSK_Executing, executing); }
    case Stop(standby) => if s.kind == SSK_Executing { SetStateConserves(s, SSK_Standby, standby); }
    case Transfer(restoring, away, back) =>
      if s.kind == SSK_Standby {
        var kind := if restoring then SSK_Restoring else SSK_Storing;
        SetStateConserves(s, kind, away);
        SetStateConserves(SetState(s, kind, away), SSK_Standby, back);
      }
  }

  lemma {:induction false} DoAllConserves(s: State, actions: seq<Action>)
    requires Conserved(s)
    ensures Conserved(DoAll(s, actions))
    decreases actions, 0
  {
    if actions != [] {
      DoConserves(s, actions[0]);
      DoAllConserves(Do(s, actions[0]), actions[1..]);
    }
  }

  /** Over any run, whatever handlers, callbacks and entry points do: each entry point offered while
      building, connecting or in standby is executed by exactly one initialisation or still pending,
      in the order of the offers; no other ever is. */
  lemma EntryPointsAreConserved(actions: seq<Action>)
    ensures var s := DoAll(INITIAL, actions); Accepted(s.offers) == Flatten(s.batches) + s.pending
  {
    assert Conserved(INITIAL);
    DoAllConserves(INITIAL, actions);
  }

  /** An initialisation whose handlers are silent executes all that is pending and leaves nothing. */
  lemma InitialiseEmpties(s: State, bodies: seq<Handler>)
    requires s.kind == SSK_Standby
    ensures var r := DoInitialise(s, Script(SILENT, bodies, SILENT));
      && r == s.(pending := [], batches := s.batches + [s.pending], offers := r.offers)
      && Accepted(r.offers) == Accepted(s.offers)
  {
    var s1 := s.(kind := SSK_Initialising);
    assert SetState(s, SSK_Initialising, SILENT) == s1;
    IterateExecutesAll(s1, 0, bodies);
    assert s1.pending[0..] == s1.pending;
  }

  const SILENT := Change([], [])

  // ---- what Connect executes ---------------------------------------------------------------

  /** Nothing that was recorded is taken back. */
  ghost predicate Later(s: State, s': State) { s.offers <= s'.offers && s.batches <= s'.batches }

  lemma {:induction false} SetStateLater(s: State, kind: SimulatorState, change: Change)
    ensures Later(s, SetState(s, kind, change))
    decreases change, 0
  {
    if s.kind != kind {
      DoAllLater(s, change.onLeave);
      DoAllLater(DoAll(s, change.onLeave).(kind := kind), change.onEnter);
    }
  }

  lemma {:induction false} InitialiseLater(s: State, script: Script)
    ensures Later(s, DoInitialise(s, script))
    decreases script, 0
  {
    if s.kind == SSK_Standby {
      var s1 := SetState(s, SSK_Initialising, script.initialising);
      SetStateLater(s, SSK_Initialising, script.initialising);
      EntersInitialising(s, script.initialising);
      IterateExecutesAll(s1, 0, script.bodies);
      var (s2, executed) := Iterate(s1, 0, script.bodies);
      SetStateLater(s2.(pending := [], batches := s2.batches + [executed]), SSK_Standby, script.standby);
    }
  }

  lemma {:induction false} DoLater(s: State, a: Action)
    ensures Later(s, Do(s, a))
    decreases a
  {
    match a
    case Add(ep) =>
    case Initialise(script) => InitialiseLater(s, script);
    case Connect(callbacks, standby, script) =>
      if s.kind == SSK_Building {
        var s1 := DoAll(s.(kind := SSK_Connecting), callbacks);
        DoAllLater(s.(kind := SSK_Connecting), callbacks);
        SetStateLater(s1, SSK_Standby, standby);
        InitialiseLater(SetState(s1, SSK_Standby, standby), script);
      }
    case Run(executing) => SetStateLater(s, SSK_Executing, executing);
    case Stop(standby) => SetStateLater(s, SSK_Standby, standby);
    case Transfer(restoring, away, back) =>
      var kind := if restoring then SSK_Restoring else SSK_Storing;
      SetStateLater(s, kind, away);
      SetStateLater(SetState(s, kind, away), SSK_Standby, back);
  }

  lemma {:induction false} DoAllLater(s: State, actions: seq<Action>)
    ensures Later(s, DoAll(s, actions))
    decreases actions, 0
  {
    if actions != [] {
      DoLater(s, actions[0]);
      DoAllLater(Do(s, actions[0]), actions[1..]);
    }
  }

  /** While connecting only offers have an effect, and all of them are accepted. */
  function Offered(actions: seq<Action>): seq<EntryPoint>
    decreases |actions|
  {
    if actions == [] then [] else (if actions[0].Add? then [actions[0].ep] else []) + Offered(actions[1..])
  }

  lemma {:induction false} ConnectingAcceptsOffers(s: State, actions: seq<Action>)
    requires s.kind == SSK_Connecting
    ensures var s' := DoAll(s, actions);
      && s' == s.(offers := s'.offers, pending := s.pending + Offered(actions))
      && Accepted(s'.offers) == Accepted(s.offers) + Offered(actions)
    decreases |actions|
  {
    if actions == [] {
      assert s.pending + [] == s.pending && Accepted(s.offers) + [] == Accepted(s.offers);
    } else {
      var rest := Offered(actions[1..]);
      if actions[0].Add? {
        var ep := actions[0].ep;
        AcceptedSnoc(s.offers, Offer(ep, s.kind));
        assert s.pending + ([ep] + rest) == s.pending + [ep] + rest;
        assert Accepted(s.offers) + ([ep] + rest) == Accepted(s.offers) + [ep] + rest;
      } else {
        assert Do(s, actions[0]) == s && [] + rest == rest;
      }
      ConnectingAcceptsOffers(Do(s, actions[0]), actions[1..]);
    }
  }

  /** The initialisation of a Connect executes, in one batch, what was pending before it, what its
      callbacks offered, and what the handlers between the two offered; with silent handlers the
      simulator is then in standby with nothing pending. */
  lemma ConnectExecutesOffers(s: State, callbacks: seq<Action>, bodies: seq<Handler>)
    requires s.kind == SSK_Building
    ensures var r := Do(s, Connect(callbacks, SILENT, Script(SILENT, bodies, SILENT)));
      r == s.(kind := SSK_Standby, pending := [], batches := s.batches + [s.pending + Offered(callbacks)],
              offers := r.offers)
  {
    var s0 := s.(kind := SSK_Connecting);
    ConnectingAcceptsOffers(s0, callbacks);
    var s1 := DoAll(s0, callbacks);
    assert SetState(s1, SSK_Standby, SILENT) == s1.(kind := SSK_Standby);
    InitialiseEmpties(s1.(kind := SSK_Standby), bodies);
  }

  /** Whatever the handlers do: if they leave the simulator in standby when it has connected, all that
      was accepted up to the end of the callbacks has been executed when Connect returns. */
  lemma ConnectExecutesAll(s: State, callbacks: seq<Action>, standby: Change, script: Script)
    requires s.kind == SSK_Building && Conserved(s)
    requires SetState(DoAll(s.(kind := SSK_Connecting), callbacks), SSK_Standby, standby).kind == SSK_Standby
    ensures var r := Do(s, Connect(callbacks, standby, script));
      Accepted(s.offers) + Offered(callbacks) <= Flatten(r.batches)
  {
    var s0 := s.(kind := SSK_Connecting);
    ConnectingAcceptsOffers(s0, callbacks);
    var s1 := DoAll(s0, callbacks);
    DoAllConserves(s0, callbacks);
    var s2 := SetState(s1, SSK_Standby, standby);
    SetStateConserves(s1, SSK_Standby, standby);
    SetStateLater(s1, SSK_Standby, standby);
    AcceptedPrefix(s1.offers, s2.offers);
    InitialiseExecutesAll(s2, script);
  }

  lemma InitialiseExecutesAll(s: State, script: Script)
    requires s.kind == SSK_Standby && Conserved(s)
    ensures Accepted(s.offers) <= Flatten(DoInitialise(s, script).batches)
  {
    var s1 := SetState(s, SSK_Initialising, script.initialising);
    SetStateConserves(s, SSK_Initialising, script.initialising);
    SetStateLater(s, SSK_Initialising, script.initialising);
    AcceptedPrefix(s.offers, s1.offers);
    IterateExecutesAll(s1, 0, script.bodies);
    assert s1.pending[0..] == s1.pending;
    FlattenSnoc(s1.batches, s1.pending);
    var s2 := Iterate(s1, 0, script.bodies).0.(pending := [], batches := s1.batches + [s1.pending]);
    SetStateLater(s2, SSK_Standby, script.standby);
    FlattenPrefix(s2.batches, SetState(s2, SSK_Standby, script.standby).batches);
  }

  lemma {:induction false} AcceptedPrefix(a: seq<Offer>, b: seq<Offer>)
    requires a <= b
    ensures Accepted(a) <= Accepted(b)
    decreases |b|
  {
    if |a| < |b| {
      AcceptedPrefix(a, b[..|b| - 1]);
    } else {
      assert a == b;
    }
  }

  lemma {:induction false} FlattenPrefix(a: seq<seq<EntryPoint>>, b: seq<seq<EntryPoint>>)
    requires a <= b
    ensures Flatten(a) <= Flatten(b)
    decreases |b|
  {
    if |a| < |b| {
      var c := b[..|b| - 1];
      FlattenPrefix(a, c);
      FlattenSnoc(c, b[|b| - 1]);
      assert b == c + [b[|b| - 1]];
    } else {
      assert a == b;
    }
  }

  // ---- where the calls lead ----------------------------------------------------------------

  /** Each call is obeyed in one state only, and leads from there, through no other state that accepts
      entry points, to the state named; elsewhere it changes nothing. */
  lemma CallsLeadOn(s: State)
    ensures Do(s, Run(SILENT)) == if s.kind == SSK_Standby then s.(kind := SSK_Executing) else s
    ensures Do(s, Stop(SILENT)) == if s.kind == SSK_Executing then s.(kind := SSK_Standby) else s
    ensures forall restoring :: Do(s, Transfer(restoring, SILENT, SILENT)) == s
    ensures s.kind != SSK_Standby ==> forall script :: Do(s, Initialise(script)) == s
    ensures s.kind != SSK_Building ==> forall c, x, y :: Do(s, Connect(c, x, y)) == s
  {
    forall restoring ensures Do(s, Transfer(restoring, SILENT, SILENT)) == s {
      if s.kind == SSK_Standby {
        var kind := if restoring then SSK_Restoring else SSK_Storing;
        assert SetState(s, kind, SILENT) == s.(kind := kind);
        assert SetState(s.(kind := kind), SSK_Standby, SILENT) == s.(kind := SSK_Standby);
      }
    }
  }

  /** Leave handlers are run in the old state and enter handlers in the new one: of two entry points
      offered by them only the one of the accepting state is pending. */
  lemma HandlersSeeTheirState(s: State, x: EntryPoint, y: EntryPoint)
    ensures s.kind == SSK_Executing ==> Do(s, Stop(Change([Add(x)], [Add(y)]))).pending == s.pending + [y]
    ensures s.kind == SSK_Standby ==> Do(s, Run(Change([Add(x)], [Add(y)]))).pending == s.pending + [x]
    ensures s.kind == SSK_Standby ==>
      forall restoring ::
        Do(s, Transfer(restoring, Change([], [Add(x)]), Change([Add(x)], [Add(y)]))).pending == s.pending + [y]
  {
    if s.kind == SSK_Executing { OneOffer(s, x); OneOffer(AddEntryPoint(s, x).(kind := SSK_Standby), y); }
    if s.kind == SSK_Standby {
      OneOffer(s, x);
      OneOffer(AddEntryPoint(s, x).(kind := SSK_Executing), y);
      forall restoring
        ensures Do(s, Transfer(restoring, Change([], [Add(x)]), Change([Add(x)], [Add(y)]))).pending == s.pending + [y]
      {
        var kind := if restoring then SSK_Restoring else SSK_Storing;
        var s1 := AddEntryPoint(s.(kind := kind), x);
        OneOffer(s.(kind := kind), x);
        assert SetState(s, kind, Change([], [Add(x)])) == s1;
        OneOffer(s1, x);
        var s2 := AddEntryPoint(s1, x).(kind := SSK_Standby);
        OneOffer(s2, y);
        assert SetState(s1, SSK_Standby, Change([Add(x)], [Add(y)])) == AddEntryPoint(s2, y);
      }
    }
  }

  lemma OneOffer(s: State, ep: EntryPoint)
    ensures DoAll(s, [Add(ep)]) == AddEntryPoint(s, ep)
  {
    assert [Add(ep)][1..] == [];
  }

  /** What is left of the loop, put behind what it has executed. */
  function Rest(s: State, i: nat, bodies: seq<Handler>, executed: seq<EntryPoint>): (State, seq<EntryPoint>) {
    (Iterate(s, i, bodies).0, executed + Iterate(s, i, bodies).1)
  }

  lemma RestGoesOn(s: State, i: nat, bodies: seq<Handler>, executed: seq<EntryPoint>)
    requires i < |s.pending|
    ensures var s' := if bodies == [] then s else DoAll(s, bodies[0].actions);
      (bodies == [] ==> Rest(s, i, [], executed) == Rest(s, i + 1, [], executed + [s.pending[i]]))
      && (bodies != [] ==> Rest(s, i, bodies, executed) == Rest(s', i + 1, bodies[1..], executed + [s.pending[i]]))
  {
    if bodies == [] {
      assert s.pending[i..] == [s.pending[i]] + s.pending[i + 1..];
      assert executed + s.pending[i..] == executed + [s.pending[i]] + s.pending[i + 1..];
    } else {
      var rest := Iterate(DoAll(s, bodies[0].actions), i + 1, bodies[1..]).1;
      assert executed + ([s.pending[i]] + rest) == executed + [s.pending[i]] + rest;
    }
  }

  // ---- the object --------------------------------------------------------------------------

  class Simulator {
    var kind: SimulatorState
    var pending: seq<EntryPoint>
    /** Observed: what was handed over, and what each iteration executed. */
    var offers: seq<Offer>
    var batches: seq<seq<EntryPoint>>

    function Value(): State
      reads this
    {
      State(kind, pending, offers, batches)
    }

    constructor ()
      ensures Value() == INITIAL
    {
      kind, pending, offers, batches := SSK_Building, [], [], [];
    }

    method AddInitEntryPoint(ep: EntryPoint)
      modifies this
      ensures Value() == AddEntryPoint(old(Value()), ep)
    {
      offers := offers + [Offer(ep, kind)];
      if kind == SSK_Building || kind == SSK_Connecting || kind == SSK_Standby {
        pending := pending + [ep];
      }
    }

    method ChangeState(newState: SimulatorState, change: Change)
      modifies this
      ensures Value() == SetState(old(Value()), newState, change)
      decreases change, 0
    {
      if kind != newState {
        Perform(change.onLeave);
        kind := newState;
        Perform(change.onEnter);
      }
    }

    method Initialise(script: Script)
      modifies this
      ensures Value() == DoInitialise(old(Value()), script)
      decreases script, 0
    {
      if kind != SSK_Standby { return; }
      ghost var s0 := Value();
      ChangeState(SSK_Initialising, script.initialising);
      ghost var s1 := Value();
      EntersInitialising(s0, script.initialising);
      var executed := [];
      var i := 0;
      while i < |pending|
        invariant i <= |pending| && kind == SSK_Initialising && Untouched(s1, Value())
        invariant Rest(s1, 0, script.bodies, []) ==
          Rest(Value(), i, if i < |script.bodies| then script.bodies[i..] else [], executed)
        decreases |s1.pending| - i
      {
        var ep := pending[i];
        ghost var s := Value();
        RestGoesOn(s, i, if i < |script.bodies| then script.bodies[i..] else [], executed);
        if i < |script.bodies| {
          assert script.bodies[i..][1..] == script.bodies[i + 1..];
          InitialisingIgnoresCalls(s, script.bodies[i].actions);
          Perform(script.bodies[i].actions);
        }
        executed := executed + [ep];
        i := i + 1;
      }
      assert executed + [] == executed && [] + Iterate(s1, 0, script.bodies).1 == Iterate(s1, 0, script.bodies).1;
      pending, batches := [], batches + [executed];
      ChangeState(SSK_Standby, script.standby);
    }

    method Execute(action: Action)
      modifies this
      ensures Value() == Do(old(Value()), action)
      decreases action
    {
      match action
      case Add(ep) => AddInitEntryPoint(ep);
      case Initialise(script) => Initialise(script);
      case Connect(callbacks, standby, script) =>
        if kind == SSK_Building {
          kind := SSK_Connecting;
          Perform(callbacks);
          ChangeState(SSK_Standby, standby);
          Initialise(script);
        }
      case Run(executing) => if kind == SSK_Standby { ChangeState(SSK_Executing, executing); }
      case Stop(standby) => if kind == SSK_Executing { ChangeState(SSK_Standby, standby); }
      case Transfer(restoring, away, back) =>
        if kind == SSK_Standby {
          ChangeState(if restoring then SSK_Restoring else SSK_Storing, away);
          ChangeState(SSK_Standby, back);
        }
    }

    method Perform(actions: seq<Action>)
      modifies this
      ensures Value() == DoAll(old(Value()), actions)
      decreases actions, 0
    {
      if actions != [] {
        Execute(actions[0]);
        Perform(actions[1..]);
      }
    }
  }

  lemma EntersInitialising(s: State, change: Change)
    requires s.kind == SSK_Standby
    ensures SetState(s, SSK_Initialising, change).kind == SSK_Initialising
  {
    InitialisingIgnoresCalls(DoAll(s, change.onLeave).(kind := SSK_Initialising), change.onEnter);
  }
}
