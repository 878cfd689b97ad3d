/** The simulator while it is being built: the passes over its services and models. */
module Building {
  import opened Options
  import opened LifeCycle
  import opened Passes
  import opened SimulatorStates

  // ---- the loops over children -------------------------------------------------------------

  /** What was visited so far, followed by what remains. */
  function Resume(cs: seq<Component>, services: seq<Component>, models: seq<Component>, rest: AllVisited): AllVisited {
    match rest
    case AllThrown => AllThrown
    case AllOk(ds, s, m) => AllOk(cs + ds, services + s, models + m)
  }

  lemma ResumeStep(cs: seq<Component>, services: seq<Component>, models: seq<Component>, first: Visited,
                   rest: AllVisited)
    ensures first.Thrown? ==> Resume(cs, services, models, Join(first, rest)) == AllThrown
    ensures first.Ok? ==>
      Resume(cs, services, models, Join(first, rest))
      == Resume(cs + [first.component], services + first.services, models + first.models, rest)
  {
  }

  lemma {:induction false} MemberWeight(cs: seq<Component>, i: nat)
    requires i < |cs|
    ensures Weight(cs[i]) <= WeightAll(cs)
    decreases i
  {
    if i > 0 { MemberWeight(cs[1..], i - 1); }
  }

  // ---- the loops of the calls --------------------------------------------------------------

  /** The outcome of a visit, and what it adds at the end of the services and of the models. */
  predicate Agrees(v: Visited, r: Option<Component>, services: seq<Component>, models: seq<Component>,
                   services': seq<Component>, models': seq<Component>) {
    match v
    case Thrown => r == None
    case Ok(c, s, m) => r == Some(c) && services' == services + s && models' == models + m
  }

  predicate AllAgree(v: AllVisited, r: Option<seq<Component>>, services: seq<Component>, models: seq<Component>,
                     services': seq<Component>, models': seq<Component>) {
    match v
    case AllThrown => r == None
    case AllOk(cs, s, m) => r == Some(cs) && services' == services + s && models' == models + m
  }

  lemma Unchanged(services: seq<Component>, models: seq<Component>)
    ensures services + [] == services && models + [] == models
  {
  }

  lemma Appended(a: seq<Component>, b: seq<Component>, c: seq<Component>, d: seq<Component>)
    ensures a + (b + c + d) == a + b + c + d
  {
  }

  /** The visit once the children have been dealt with: the additions of the earlier stages, of
      the callback and of the children come in that order. */
  lemma Assembled(comp: Component, k: Stage, services: seq<Component>, models: seq<Component>)
    requires k >= 1 && Prior(comp, k).Ok? && Prior(comp, k).component.stage == k - 1
    ensures var r := Prior(comp, k);
      var p := PlanOf(r.component, k);
      var c := Call(r.component, k);
      var all := VisitAll(c.children, k);
      && (all.AllThrown? ==> Visit(comp, k) == Thrown)
      && (all.AllOk? ==> Agrees(Visit(comp, k), Some(c.(children := all.components)), services, models,
                                services + r.services + p.services + all.services,
                                models + r.models + p.models + all.models))
  {
    var r := Prior(comp, k);
    var p := PlanOf(r.component, k);
    var all := VisitAll(Call(r.component, k).children, k);
    if all.AllOk? {
      Appended(services, r.services, p.services, all.services);
      Appended(models, r.models, p.models, all.models);
    }
  }

  predicate Progress(cs: seq<Component>, i: nat, k: Stage, done: seq<Component>, s: seq<Component>, m: seq<Component>)
    requires i <= |cs| && k >= 1
  {
    VisitAll(cs, k) == Resume(done, s, m, VisitAll(cs[i..], k))
  }

  lemma FirstChild(cs: seq<Component>, k: Stage)
    requires k >= 1
    ensures Progress(cs, 0, k, [], [], [])
  {
  }

  lemma NextChild(cs: seq<Component>, i: nat, k: Stage, done: seq<Component>, s: seq<Component>, m: seq<Component>)
    requires i < |cs| && k >= 1 && Progress(cs, i, k, done, s, m)
    ensures Weight(cs[i]) <= WeightAll(cs)
    ensures var v := Visit(cs[i], k);
      && (v.Thrown? ==> VisitAll(cs, k) == AllThrown)
      && (v.Ok? ==> Progress(cs, i + 1, k, done + [v.component], s + v.services, m + v.models))
  {
    MemberWeight(cs, i);
    assert cs[i..][1..] == cs[i + 1..];
    ResumeStep(done, s, m, Visit(cs[i], k), VisitAll(cs[i + 1..], k));
  }

  lemma LastChild(cs: seq<Component>, k: Stage, done: seq<Component>, s: seq<Component>, m: seq<Component>)
    requires k >= 1 && Progress(cs, |cs|, k, done, s, m)
    ensures VisitAll(cs, k) == AllOk(done, s, m)
  {
  }

  lemma ListStart(before: seq<Component>)
    ensures [] + before[0..] + [] == before
  {
  }

  /** One element of a list is replaced while others were added behind. */
  lemma ListStep(done: seq<Component>, before: seq<Component>, i: nat, s: seq<Component>,
                 added: seq<Component>, c: Component)
    requires |done| == i < |before|
    ensures i < |done + before[i..] + s| && (done + before[i..] + s)[i] == before[i]
    ensures i < |done + before[i..] + s + added|
    ensures (done + before[i..] + s + added)[i := c] == done + [c] + before[i + 1..] + (s + added)
  {
  }

  lemma ListEnd(done: seq<Component>, before: seq<Component>, s: seq<Component>)
    ensures done + before[|before|..] + s == done + s
  {
  }

  predicate RoundProgress(cs: seq<Component>, i: nat, done: seq<Component>, s: seq<Component>, m: seq<Component>)
    requires i <= |cs|
  {
    Round(cs) == Resume(done, s, m, Round(cs[i..]))
  }

  lemma NextInRound(cs: seq<Component>, i: nat, done: seq<Component>, s: seq<Component>, m: seq<Component>)
    requires i < |cs| && RoundProgress(cs, i, done, s, m)
    ensures var v := PublishIfCreated(cs[i]);
      && (v.Thrown? ==> Round(cs) == AllThrown)
      && (v.Ok? ==> RoundProgress(cs, i + 1, done + [v.component], s + v.services, m + v.models))
  {
    assert cs[i..][1..] == cs[i + 1..];
    ResumeStep(done, s, m, PublishIfCreated(cs[i]), Round(cs[i + 1..]));
  }

  lemma LastInRound(cs: seq<Component>, done: seq<Component>, s: seq<Component>, m: seq<Component>)
    requires RoundProgress(cs, |cs|, done, s, m)
    ensures Round(cs) == AllOk(done, s, m)
  {
  }

  /** The lists after `i` services of a round that began with `before` and `models0`. */
  predicate RoundAt(before: Lists, i: nat, done: seq<Component>, s: seq<Component>, m: seq<Component>, now: Lists) {
    && |done| == i <= |before.services|
    && now.services == done + before.services[i..] + s && now.models == before.models + m
    && RoundProgress(before.services, i, done, s, m)
  }

  lemma RoundElement(before: Lists, i: nat, done: seq<Component>, s: seq<Component>, m: seq<Component>, now: Lists)
    requires RoundAt(before, i, done, s, m, now) && i < |before.services|
    ensures i < |now.services| && now.services[i] == before.services[i]
    ensures PublishIfCreated(now.services[i]).Thrown? ==> Round(before.services) == AllThrown
  {
    NextInRound(before.services, i, done, s, m);
    ListStep(done, before.services, i, s, [], before.services[i]);
  }

  lemma RoundGoesOn(before: Lists, i: nat, done: seq<Component>, s: seq<Component>, m: seq<Component>,
                    now: Lists, v: Visited, next: Lists)
    requires RoundAt(before, i, done, s, m, now) && i < |before.services|
    requires v == PublishIfCreated(before.services[i]) && v.Ok? && i < |now.services + v.services|
    requires next == Lists((now.services + v.services)[i := v.component], now.models + v.models)
    ensures RoundAt(before, i + 1, done + [v.component], s + v.services, m + v.models, next)
  {
    NextInRound(before.services, i, done, s, m);
    ListStep(done, before.services, i, s, v.services, v.component);
  }

  lemma RoundEnds(before: Lists, done: seq<Component>, s: seq<Component>, m: seq<Component>, now: Lists)
    requires RoundAt(before, |before.services|, done, s, m, now)
    ensures Round(before.services) == AllOk(done, s, m)
    ensures now.services == done + s && now.models == before.models + m
  {
    LastInRound(before.services, done, s, m);
    ListEnd(done, before.services, s);
  }

  lemma {:induction false} RoundLength(cs: seq<Component>)
    ensures Round(cs).AllOk? ==> |Round(cs).components| == |cs|
  {
    if cs != [] { RoundLength(cs[1..]); }
  }

  lemma RoundsStep(w: Lists)
    ensures match Round(w.services)
      case AllThrown => Rounds(w) == None
      case AllOk(cs, s, m) =>
        var w' := Lists(cs + s, w.models + m);
        && |cs| == |w.services|
        && Rounds(w) == if s == [] then Some(w') else Rounds(w')
  {
    RoundLength(w.services);
    var r := Round(w.services);
    if r.AllOk? { assert r.components + [] == r.components; }
  }

  /** The outcome of a call: an exception, or these lists. */
  predicate Follows(r: Option<Lists>, thrown: bool, now: Lists) {
    match r
    case None => thrown
    case Some(w) => !thrown && now == w
  }

  class Simulator {
    var state: SimulatorState
    var services: seq<Component>
    var models: seq<Component>

    constructor (services: seq<Component>, models: seq<Component>)
      ensures state == SSK_Building && this.services == services && this.models == models
    {
      state, this.services, this.models := SSK_Building, services, models;
    }

    function Value(): Lists
      reads this
    {
      Lists(services, models)
    }

    /** `Publish`, `Configure` or `Connect` of a component. */
    method Callback(comp: Component, k: Stage) returns (c: Component)
      requires comp.stage + 1 == k
      modifies this`services, this`models
      ensures c == Call(comp, k)
      ensures services == old(services) + PlanOf(comp, k).services
      ensures models == old(models) + PlanOf(comp, k).models
    {
      services := services + PlanOf(comp, k).services;
      models := models + PlanOf(comp, k).models;
      c := Call(comp, k);
    }

    method DoPublish(comp: Component) returns (r: Option<Component>)
      modifies this`services, this`models
      ensures Agrees(Visit(comp, PUBLISHING), r, old(services), old(models), services, models)
      decreases Weight(comp), 1, 1, 0
    {
      if comp.stage != CREATED { return None; }
      Assembled(comp, PUBLISHING, services, models);
      Unchanged(services, models);
      CallWeight(comp, PUBLISHING);
      var c := Callback(comp, PUBLISHING);
      var children := PublishChildren(c.children);
      if children == None { return None; }
      r := Some(c.(children := children.value));
    }

    method PublishChildren(cs: seq<Component>) returns (r: Option<seq<Component>>)
      modifies this`services, this`models
      ensures AllAgree(VisitAll(cs, PUBLISHING), r, old(services), old(models), services, models)
      decreases WeightAll(cs), 1, 2, 0
    {
      ghost var services0, models0, s, m := services, models, [], [];
      var children := [];
      FirstChild(cs, PUBLISHING);
      Unchanged(services, models);
      for i := 0 to |cs|
        invariant services == services0 + s && models == models0 + m
        invariant Progress(cs, i, PUBLISHING, children, s, m)
      {
        ghost var v := Visit(cs[i], PUBLISHING);
        NextChild(cs, i, PUBLISHING, children, s, m);
        var d := DoPublish(cs[i]);
        if d == None { return None; }
        children := children + [d.value];
        s, m := s + v.services, m + v.models;
      }
      LastChild(cs, PUBLISHING, children, s, m);
      r := Some(children);
    }

    method DoConfigure(comp: Component) returns (r: Option<Component>)
      modifies this`services, this`models
      ensures Agrees(Visit(comp, CONFIGURED), r, old(services), old(models), services, models)
      decreases Weight(comp), 2, 1, 0
    {
      ghost var services0, models0 := services, models;
      var c0 := comp;
      if comp.stage == CREATED {
        var d := DoPublish(comp);
        if d == None { return None; }
        c0 := d.value;
      } else {
        Unchanged(services, models);
      }
      if c0.stage != PUBLISHING { return None; }
      Assembled(comp, CONFIGURED, services0, models0);
      PriorWeight(comp, CONFIGURED);
      CallWeight(c0, CONFIGURED);
      var c := Callback(c0, CONFIGURED);
      var children := ConfigureChildren(c.children);
      if children == None { return None; }
      r := Some(c.(children := children.value));
    }

    method ConfigureChildren(cs: seq<Component>) returns (r: Option<seq<Component>>)
      modifies this`services, this`models
      ensures AllAgree(VisitAll(cs, CONFIGURED), r, old(services), old(models), services, models)
      decreases WeightAll(cs), 2, 2, 0
    {
      ghost var services0, models0, s, m := services, models, [], [];
      var children := [];
      FirstChild(cs, CONFIGURED);
      Unchanged(services, models);
      for i := 0 to |cs|
        invariant services == services0 + s && models == models0 + m
        invariant Progress(cs, i, CONFIGURED, children, s, m)
      {
        ghost var v := Visit(cs[i], CONFIGURED);
        NextChild(cs, i, CONFIGURED, children, s, m);
        var d := DoConfigure(cs[i]);
        if d == None { return None; }
        children := children + [d.value];
        s, m := s + v.services, m + v.models;
      }
      LastChild(cs, CONFIGURED, children, s, m);
      r := Some(children);
    }

    method DoConnect(comp: Component) returns (r: Option<Component>)
      modifies this`services, this`models
      ensures Agrees(Visit(comp, CONNECTED), r, old(services), old(models), services, models)
      decreases Weight(comp), 3, 1, 0
    {
      ghost var services0, models0 := services, models;
      var c0 := comp;
      if comp.stage == CREATED || comp.stage == PUBLISHING {
        var d := DoConfigure(comp);
        if d == None { return None; }
        c0 := d.value;
      } else {
        Unchanged(services, models);
      }
      if c0.stage != CONFIGURED { return None; }
      Assembled(comp, CONNECTED, services0, models0);
      PriorWeight(comp, CONNECTED);
      CallWeight(c0, CONNECTED);
      var c := Callback(c0, CONNECTED);
      var children := ConnectChildren(c.children);
      if children == None { return None; }
      r := Some(c.(children := children.value));
    }

    method ConnectChildren(cs: seq<Component>) returns (r: Option<seq<Component>>)
      modifies this`services, this`models
      ensures AllAgree(VisitAll(cs, CONNECTED), r, old(services), old(models), services, models)
      decreases WeightAll(cs), 3, 2, 0
    {
      ghost var services0, models0, s, m := services, models, [], [];
      var children := [];
      FirstChild(cs, CONNECTED);
      Unchanged(services, models);
      for i := 0 to |cs|
        invariant services == services0 + s && models == models0 + m
        invariant Progress(cs, i, CONNECTED, children, s, m)
      {
        ghost var v := Visit(cs[i], CONNECTED);
        NextChild(cs, i, CONNECTED, children, s, m);
        var d := DoConnect(cs[i]);
        if d == None { return None; }
        children := children + [d.value];
        s, m := s + v.services, m + v.models;
      }
      LastChild(cs, CONNECTED, children, s, m);
      r := Some(children);
    }

    /** One pass of `DoConfigure` over the services there are when it begins. */
    method ConfigureServices() returns (thrown: bool)
      modifies this`services, this`models
      ensures Follows(ServicesPass(old(Value()), CONFIGURED), thrown, Value())
    {
      ghost var before, models0, done, s, m := services, models, [], [], [];
      FirstChild(before, CONFIGURED);
      ListStart(before);
      Unchanged(services, models);
      for i := 0 to |services|
        invariant |done| == i && services == done + before[i..] + s && models == models0 + m
        invariant Progress(before, i, CONFIGURED, done, s, m)
      {
        ghost var v := Visit(before[i], CONFIGURED);
        NextChild(before, i, CONFIGURED, done, s, m);
        ListStep(done, before, i, s, if v.Ok? then v.services else [], if v.Ok? then v.component else before[i]);
        var r := DoConfigure(services[i]);
        if r == None { return true; }
        services := services[i := r.value];
        done, s, m := done + [v.component], s + v.services, m + v.models;
      }
      LastChild(before, CONFIGURED, done, s, m);
      ListEnd(done, before, s);
      thrown := false;
    }

    /** One pass of `DoConfigure` over the models there are when it begins. */
    method ConfigureModels() returns (thrown: bool)
      modifies this`services, this`models
      ensures Follows(ModelsPass(old(Value()), CONFIGURED), thrown, Value())
    {
      ghost var before, services0, done, s, m := models, services, [], [], [];
      FirstChild(before, CONFIGURED);
      ListStart(before);
      Unchanged(services, models);
      for i := 0 to |models|
        invariant |done| == i && models == done + before[i..] + m && services == services0 + s
        invariant Progress(before, i, CONFIGURED, done, s, m)
      {
        ghost var v := Visit(before[i], CONFIGURED);
        NextChild(before, i, CONFIGURED, done, s, m);
        ListStep(done, before, i, m, if v.Ok? then v.models else [], if v.Ok? then v.component else before[i]);
        var r := DoConfigure(models[i]);
        if r == None { return true; }
        models := models[i := r.value];
        done, s, m := done + [v.component], s + v.services, m + v.models;
      }
      LastChild(before, CONFIGURED, done, s, m);
      ListEnd(done, before, m);
      thrown := false;
    }

    /** One pass of `DoConnect` over the services there are when it begins. */
    method ConnectServices() returns (thrown: bool)
      modifies this`services, this`models
      ensures Follows(ServicesPass(old(Value()), CONNECTED), thrown, Value())
    {
      ghost var before, models0, done, s, m := services, models, [], [], [];
      FirstChild(before, CONNECTED);
      ListStart(before);
      Unchanged(services, models);
      for i := 0 to |services|
        invariant |done| == i && services == done + before[i..] + s && models == models0 + m
        invariant Progress(before, i, CONNECTED, done, s, m)
      {
        ghost var v := Visit(before[i], CONNECTED);
        NextChild(before, i, CONNECTED, done, s, m);
        ListStep(done, before, i, s, if v.Ok? then v.services else [], if v.Ok? then v.component else before[i]);
        var r := DoConnect(services[i]);
        if r == None { return true; }
        services := services[i := r.value];
        done, s, m := done + [v.component], s + v.services, m + v.models;
      }
      LastChild(before, CONNECTED, done, s, m);
      ListEnd(done, before, s);
      thrown := false;
    }

    /** One pass of `DoConnect` over the models there are when it begins. */
    method ConnectModels() returns (thrown: bool)
      modifies this`services, this`models
      ensures Follows(ModelsPass(old(Value()), CONNECTED), thrown, Value())
    {
      ghost var before, services0, done, s, m := models, services, [], [], [];
      FirstChild(before, CONNECTED);
      ListStart(before);
      Unchanged(services, models);
      for i := 0 to |models|
        invariant |done| == i && models == done + before[i..] + m && services == services0 + s
        invariant Progress(before, i, CONNECTED, done, s, m)
      {
        ghost var v := Visit(before[i], CONNECTED);
        NextChild(before, i, CONNECTED, done, s, m);
        ListStep(done, before, i, m, if v.Ok? then v.models else [], if v.Ok? then v.component else before[i]);
        var r := DoConnect(models[i]);
        if r == None { return true; }
        models := models[i := r.value];
        done, s, m := done + [v.component], s + v.services, m + v.models;
      }
      LastChild(before, CONNECTED, done, s, m);
      ListEnd(done, before, m);
      thrown := false;
    }

    /** One pass of `DoPublish` over the models there are when it begins. */
    method PublishModels() returns (thrown: bool)
      modifies this`services, this`models
      ensures Follows(ModelsPass(old(Value()), PUBLISHING), thrown, Value())
    {
      ghost var before, services0, done, s, m := models, services, [], [], [];
      FirstChild(before, PUBLISHING);
      ListStart(before);
      Unchanged(services, models);
      for i := 0 to |models|
        invariant |done| == i && models == done + before[i..] + m && services == services0 + s
        invariant Progress(before, i, PUBLISHING, done, s, m)
      {
        ghost var v := Visit(before[i], PUBLISHING);
        NextChild(before, i, PUBLISHING, done, s, m);
        ListStep(done, before, i, m, if v.Ok? then v.models else [], if v.Ok? then v.component else before[i]);
        var r := DoPublish(models[i]);
        if r == None { return true; }
        models := models[i := r.value];
        done, s, m := done + [v.component], s + v.services, m + v.models;
      }
      LastChild(before, PUBLISHING, done, s, m);
      ListEnd(done, before, m);
      thrown := false;
    }

    method PublishServiceIfCreated(i: nat) returns (thrown: bool)
      requires i < |services|
      modifies this`services, this`models
      ensures match PublishIfCreated(old(services)[i])
        case Thrown => thrown
        case Ok(c, s, m) =>
          !thrown && services == (old(services) + s)[i := c] && models == old(models) + m
    {
      Unchanged(services, models);
      if services[i].stage == CREATED {
        var r := DoPublish(services[i]);
        if r == None { return true; }
        services := services[i := r.value];
      }
      thrown := false;
    }

    /** One round: the created ones among the services there are when it begins. */
    method PublishRound() returns (thrown: bool)
      modifies this`services, this`models
      ensures match Round(old(services))
        case AllThrown => thrown
        case AllOk(cs, s, m) => !thrown && services == cs + s && models == old(models) + m
    {
      ghost var before, done, s, m := Value(), [], [], [];
      ListStart(before.services);
      Unchanged(services, models);
      for i := 0 to |services|
        invariant RoundAt(before, i, done, s, m, Value())
      {
        ghost var now, v := Value(), PublishIfCreated(before.services[i]);
        RoundElement(before, i, done, s, m, now);
        thrown := PublishServiceIfCreated(i);
        if thrown { return; }
        RoundGoesOn(before, i, done, s, m, now, v, Value());
        done, s, m := done + [v.component], s + v.services, m + v.models;
      }
      RoundEnds(before, done, s, m, Value());
      thrown := false;
    }

    /** Services are published until a round adds none. */
    method PublishServices() returns (thrown: bool)
      modifies this`services, this`models
      ensures Follows(Rounds(old(Value())), thrown, Value())
    {
      ghost var start := Value();
      var completed := false;
      while !completed
        invariant Rounds(start) == if completed then Some(Value()) else Rounds(Value())
        decreases WeightAll(services) + WeightAll(models), if completed then 0 else 1
      {
        var refsize := |services|;
        RoundWeight(Value());
        RoundsStep(Value());
        thrown := PublishRound();
        if thrown { return; }
        completed := refsize == |services|;
      }
      thrown := false;
    }

    method Publish() returns (thrown: bool)
      modifies this`services, this`models
      ensures old(state != SSK_Building) ==> !thrown && Value() == old(Value())
      ensures old(state == SSK_Building) ==> Follows(PublishAll(old(Value())), thrown, Value())
    {
      if state != SSK_Building { return false; }
      thrown := PublishServices();
      if thrown { return; }
      thrown := PublishModels();
    }

    method Configure() returns (thrown: bool)
      modifies this`services, this`models
      ensures old(state != SSK_Building) ==> !thrown && Value() == old(Value())
      ensures old(state == SSK_Building) ==> Follows(BothPasses(old(Value()), CONFIGURED), thrown, Value())
    {
      if state != SSK_Building { return false; }
      thrown := ConfigureServices();
      if thrown { return; }
      thrown := ConfigureModels();
    }

    /** The init entry points that `Initialise` then executes are in another module. */
    method Connect() returns (thrown: bool)
      modifies this
      ensures old(state != SSK_Building) ==> !thrown && Value() == old(Value()) && state == old(state)
      ensures old(state == SSK_Building) ==>
        Follows(BothPasses(old(Value()), CONNECTED), thrown, Value())
        && state == if thrown then SSK_Connecting else SSK_Standby
    {
      if state != SSK_Building { return false; }
      state := SSK_Connecting;
      thrown := ConnectServices();
      if thrown { return; }
      thrown := ConnectModels();
      if thrown { return; }
      state := SSK_Standby;
    }

    /** Publish, Configure and Connect in turn. `configured` and `connected` are the lists with which
        Configure and Connect begin. */
    method Build() returns (thrown: bool, ghost configured: Lists, ghost connected: Lists)
      requires state == SSK_Building
      modifies this
      ensures Follows(BuildAll(old(Value())), thrown, Value())
      ensures !thrown ==> state == SSK_Standby && Builds(old(Value()), configured, connected, Value())
      ensures old(AllRecorded(services) && AllRecorded(models)) ==>
        (!thrown <==> old(Behind(services, CONFIGURED) && Behind(models, PUBLISHING)))
        && (!thrown ==>
              ServicesPass(connected, CONNECTED).Some?
              && AllConnected(services, connected.services)
              && AllConnected(models, ServicesPass(connected, CONNECTED).value.models)
              && ConnectedBack(services, old(services)) && ConnectedBack(models, old(models)))
    {
      ghost var start := Value();
      if AllRecorded(services) && AllRecorded(models) { BuildSucceedsIff(start); }
      configured, connected := start, start;
      thrown := Publish();
      if thrown { return; }
      configured := Value();
      thrown := Configure();
      if thrown { return; }
      connected := Value();
      thrown := Connect();
      if AllRecorded(start.services) && AllRecorded(start.models) && !thrown {
        BuildConnects(start, configured, connected, Value());
        BuildConnectsInitial(start, configured, connected, Value());
      }
    }
  }
}
