/** Publishing, configuring and connecting component trees whose callbacks add components. */
module LifeCycle {
  /** 0 Created, 1 Publishing, 2 Configured, 3 Connected. */
  type Stage = n: nat | n <= 3

  const CREATED: Stage := 0
  const PUBLISHING: Stage := 1
  const CONFIGURED: Stage := 2
  const CONNECTED: Stage := 3

  /** A component put at a place among the children. */
  datatype Addition = Addition(at: nat, component: Component)

  /** What one callback adds: to its own containers, to the services, to the models. */
  datatype Plan = Plan(children: seq<Addition>, services: seq<Component>, models: seq<Component>)

  const NOTHING := Plan([], [], [])

  /** `history` records the callbacks received, each by the stage it leads to. `children` are the
      components of all containers, one container after the other. */
  datatype Component = Component(
    id: nat,
    stage: Stage,
    history: seq<Stage>,
    children: seq<Component>,
    onPublish: Plan,
    onConfigure: Plan,
    onConnect: Plan)

  function PlanOf(c: Component, k: Stage): Plan {
    if k == PUBLISHING then c.onPublish else if k == CONFIGURED then c.onConfigure else c.onConnect
  }

  function WithoutPlan(c: Component, k: Stage): Component {
    if k == PUBLISHING then c.(onPublish := NOTHING)
    else if k == CONFIGURED then c.(onConfigure := NOTHING)
    else c.(onConnect := NOTHING)
  }

  function Insert(cs: seq<Component>, a: Addition): seq<Component> {
    if a.at < |cs| then cs[..a.at] + [a.component] + cs[a.at..] else cs + [a.component]
  }

  function Graft(cs: seq<Component>, adds: seq<Addition>): seq<Component>
    decreases |adds|
  {
    if adds == [] then cs else Graft(Insert(cs, adds[0]), adds[1..])
  }

  /** The callback that leads to stage `k`. */
  function Call(c: Component, k: Stage): Component {
    WithoutPlan(c, k).(stage := k, history := c.history + [k], children := Graft(c.children, PlanOf(c, k).children))
  }

  // ---- callbacks still to come -------------------------------------------------------------

  function Weight(c: Component): nat
    decreases c, 1
  {
    3 - c.stage + WeightAll(c.children) + PlanWeight(c.onPublish) + PlanWeight(c.onConfigure) + PlanWeight(c.onConnect)
  }

  function WeightAll(cs: seq<Component>): nat
    decreases cs, 0
  {
    if cs == [] then 0 else Weight(cs[0]) + WeightAll(cs[1..])
  }

  function AddedWeight(adds: seq<Addition>): nat
    decreases adds, 0
  {
    if adds == [] then 0 else AdditionWeight(adds[0]) + AddedWeight(adds[1..])
  }

  function AdditionWeight(a: Addition): nat
    decreases a, 2
  {
    Weight(a.component)
  }

  function PlanWeight(p: Plan): nat
    decreases p, 0
  {
    AddedWeight(p.children) + WeightAll(p.services) + WeightAll(p.models)
  }

  lemma {:induction false} WeightConcat(a: seq<Component>, b: seq<Component>)
    ensures WeightAll(a + b) == WeightAll(a) + WeightAll(b)
    decreases |a|
  {
    if a == [] {
      assert a + b == b;
    } else {
      assert (a + b)[1..] == a[1..] + b;
      WeightConcat(a[1..], b);
    }
  }

  lemma InsertWeight(cs: seq<Component>, a: Addition)
    ensures WeightAll(Insert(cs, a)) == WeightAll(cs) + Weight(a.component)
  {
    var k := if a.at < |cs| then a.at else |cs|;
    assert Insert(cs, a) == cs[..k] + ([a.component] + cs[k..]);
    assert ([a.component] + cs[k..])[1..] == cs[k..];
    WeightConcat(cs[..k], [a.component] + cs[k..]);
    WeightConcat(cs[..k], cs[k..]);
    assert cs[..k] + cs[k..] == cs;
  }

  lemma {:induction false} GraftWeight(cs: seq<Component>, adds: seq<Addition>)
    ensures WeightAll(Graft(cs, adds)) == WeightAll(cs) + AddedWeight(adds)
    decreases |adds|
  {
    if adds != [] {
      GraftWeight(Insert(cs, adds[0]), adds[1..]);
      InsertWeight(cs, adds[0]);
    }
  }

  lemma WithoutPlanWeight(c: Component, k: Stage)
    requires k >= 1
    ensures Weight(WithoutPlan(c, k)) + PlanWeight(PlanOf(c, k)) == Weight(c)
  {
  }

  lemma CallWeight(c: Component, k: Stage)
    requires c.stage + 1 == k
    ensures Weight(Call(c, k)) + WeightAll(PlanOf(c, k).services) + WeightAll(PlanOf(c, k).models) + 1 == Weight(c)
  {
    GraftWeight(c.children, PlanOf(c, k).children);
    WithoutPlanWeight(c, k);
    SameButChildren(WithoutPlan(c, k), Call(c, k));
  }

  lemma SameButChildren(c: Component, d: Component)
    requires d.onPublish == c.onPublish && d.onConfigure == c.onConfigure && d.onConnect == c.onConnect
    ensures Weight(d) + d.stage + WeightAll(c.children) == Weight(c) + c.stage + WeightAll(d.children)
  {
  }

  // ---- doPublish, doConfigure and doConnect ------------------------------------------------

  /** `services` and `models` are the ones added meanwhile. */
  datatype Visited =
    | Ok(component: Component, services: seq<Component>, models: seq<Component>)
    | Thrown

  datatype AllVisited =
    | AllOk(components: seq<Component>, services: seq<Component>, models: seq<Component>)
    | AllThrown

  function Total(r: Visited): nat {
    if r.Ok? then Weight(r.component) + WeightAll(r.services) + WeightAll(r.models) else 0
  }

  function TotalAll(r: AllVisited): nat {
    if r.AllOk? then WeightAll(r.components) + WeightAll(r.services) + WeightAll(r.models) else 0
  }

  /** Brings a component and its children to stage `k`: the stages before it come first, and a
      component that is not one stage behind is an error. */
  function Visit(c: Component, k: Stage): Visited
    requires k >= 1
    decreases Weight(c), k, 1, 0
  {
    PriorWeight(c, k);
    var r := Prior(c, k);
    if r.Thrown? || r.component.stage != k - 1 then Thrown
    else
      CallWeight(r.component, k);
      var c1 := Call(r.component, k);
      Extend(r, PlanOf(r.component, k), c1, VisitAll(c1.children, k))
  }

  /** The stages before `k`. */
  function Prior(c: Component, k: Stage): Visited
    requires k >= 1
    decreases Weight(c), k, 0, 0
  {
    if c.stage < k - 1 then Visit(c, k - 1) else Ok(c, [], [])
  }

  /** The children have been visited; everything added is put together. */
  function Extend(r: Visited, p: Plan, c: Component, all: AllVisited): Visited
    requires r.Ok?
  {
    if all.AllThrown? then Thrown
    else
      Ok(c.(children := all.components), r.services + p.services + all.services, r.models + p.models + all.models)
  }

  function VisitAll(cs: seq<Component>, k: Stage): AllVisited
    requires k >= 1
    decreases WeightAll(cs), k, 2, |cs|
  {
    if cs == [] then AllOk([], [], []) else Join(Visit(cs[0], k), VisitAll(cs[1..], k))
  }

  function Join(first: Visited, rest: AllVisited): AllVisited {
    if first.Thrown? || rest.AllThrown? then AllThrown
    else
      AllOk([first.component] + rest.components, first.services + rest.services, first.models + rest.models)
  }

  // ---- every callback uses up weight -------------------------------------------------------

  lemma ExtendWeight(r: Visited, p: Plan, c: Component, all: AllVisited)
    requires r.Ok?
    ensures all.AllOk? ==>
      Total(Extend(r, p, c, all)) + Weight(r.component) + WeightAll(c.children)
      == Total(r) + Weight(c) + WeightAll(p.services) + WeightAll(p.models) + TotalAll(all)
  {
    if all.AllOk? {
      WeightConcat(r.services + p.services, all.services);
      WeightConcat(r.services, p.services);
      WeightConcat(r.models + p.models, all.models);
      WeightConcat(r.models, p.models);
      SameButChildren(c, c.(children := all.components));
    }
  }

  lemma JoinWeight(first: Visited, rest: AllVisited)
    ensures first.Ok? && rest.AllOk? ==> TotalAll(Join(first, rest)) == Total(first) + TotalAll(rest)
  {
    if first.Ok? && rest.AllOk? {
      WeightConcat(first.services, rest.services);
      WeightConcat(first.models, rest.models);
      assert ([first.component] + rest.components)[1..] == rest.components;
    }
  }

  lemma {:induction false} PriorWeight(c: Component, k: Stage)
    requires k >= 1
    ensures Prior(c, k).Ok? ==> Total(Prior(c, k)) <= Weight(c)
    decreases Weight(c), k, 0, 1
  {
    if c.stage < k - 1 {
      VisitWeight(c, k - 1);
    } else {
      NothingAdded(c);
    }
  }

  lemma NothingAdded(c: Component)
    ensures Total(Ok(c, [], [])) == Weight(c)
  {
  }

  lemma {:induction false} VisitWeight(c: Component, k: Stage)
    requires k >= 1
    ensures Visit(c, k).Ok? ==> Total(Visit(c, k)) < Weight(c)
    decreases Weight(c), k, 1, 1
  {
    PriorWeight(c, k);
    var r := Prior(c, k);
    if r.Ok? && r.component.stage == k - 1 {
      var p, c1 := PlanOf(r.component, k), Call(r.component, k);
      CallWeight(r.component, k);
      VisitAllWeight(c1.children, k);
      ExtendWeight(r, p, c1, VisitAll(c1.children, k));
    }
  }

  lemma {:induction false} VisitAllWeight(cs: seq<Component>, k: Stage)
    requires k >= 1
    ensures VisitAll(cs, k).AllOk? ==> TotalAll(VisitAll(cs, k)) <= WeightAll(cs)
    decreases WeightAll(cs), k, 3, |cs|
  {
    if cs != [] {
      VisitWeight(cs[0], k);
      VisitAllWeight(cs[1..], k);
      JoinWeight(Visit(cs[0], k), VisitAll(cs[1..], k));
    }
  }

  // ---- when no exception is thrown ---------------------------------------------------------

  /** No child is ahead of its parent. */
  predicate NotAhead(c: Component) {
    forall d :: d in c.children ==> d.stage <= c.stage && NotAhead(d)
  }

  function Stages(k: Stage): seq<Stage> {
    if k == 0 then [] else if k == 1 then [1] else if k == 2 then [1, 2] else [1, 2, 3]
  }

  /** Every component has received its callbacks once each and in order, and what callbacks will
      add is newly created. */
  predicate Recorded(c: Component)
    decreases c, 2
  {
    && c.history == Stages(c.stage)
    && (forall d :: d in c.children ==> Recorded(d))
    && PlanFresh(c.onPublish) && PlanFresh(c.onConfigure) && PlanFresh(c.onConnect)
  }

  predicate Fresh(c: Component)
    decreases c, 3
  {
    c.stage == CREATED && NotAhead(c) && Recorded(c)
  }

  predicate PlanFresh(p: Plan)
    decreases p, 1
  {
    && (forall a :: a in p.children ==> Fresh(a.component))
    && (forall c :: c in p.services ==> Fresh(c))
    && (forall c :: c in p.models ==> Fresh(c))
  }

  predicate AllFresh(cs: seq<Component>) { forall c :: c in cs ==> Fresh(c) }

  predicate AllRecorded(cs: seq<Component>) { forall c :: c in cs ==> Recorded(c) }

  /** A component and everything below it are at stage `k`. */
  predicate AtStage(c: Component, k: Stage) {
    c.stage == k && forall d :: d in c.children ==> AtStage(d, k)
  }

  predicate AllAtStage(cs: seq<Component>, k: Stage) { forall c :: c in cs ==> AtStage(c, k) }

  predicate Behind(cs: seq<Component>, k: Stage) { forall c :: c in cs ==> c.stage < k && NotAhead(c) }

  lemma {:induction false} GraftMembers(cs: seq<Component>, adds: seq<Addition>, c: Component)
    ensures c in Graft(cs, adds) <==> c in cs || exists a :: a in adds && a.component == c
    decreases |adds|
  {
    if adds != [] {
      GraftMembers(Insert(cs, adds[0]), adds[1..], c);
      InsertMembers(cs, adds[0], c);
      assert adds == [adds[0]] + adds[1..];
      if adds[0].component == c { assert adds[0] in adds; }
    }
  }

  lemma InsertMembers(cs: seq<Component>, a: Addition, c: Component)
    ensures c in Insert(cs, a) <==> c in cs || c == a.component
  {
  }

  lemma {:induction false} AtStageIsNotAhead(c: Component, k: Stage)
    requires AtStage(c, k)
    ensures NotAhead(c)
  {
    forall d | d in c.children ensures NotAhead(d) { AtStageIsNotAhead(d, k); }
  }

  /** The children a callback leaves are behind exactly when the old ones were. */
  lemma CallChildren(c: Component, k: Stage)
    requires c.stage + 1 == k && Recorded(c)
    ensures AllRecorded(Call(c, k).children)
    ensures Behind(Call(c, k).children, k) <==> NotAhead(c)
  {
    forall d ensures d in Call(c, k).children <==>
      d in c.children || exists a :: a in PlanOf(c, k).children && a.component == d
    {
      GraftMembers(c.children, PlanOf(c, k).children, d);
    }
    assert PlanFresh(PlanOf(c, k));
  }

  predicate Settled(r: Visited, k: Stage) {
    r.Ok? ==> AtStage(r.component, k) && Recorded(r.component) && AllFresh(r.services) && AllFresh(r.models)
  }

  /** A visit succeeds exactly when the component is behind the stage and no component below it
      is ahead of its parent; then all of them reach the stage, with every callback received once
      and in order, components added on the way included. */
  lemma {:induction false} VisitSucceedsIff(c: Component, k: Stage)
    requires k >= 1 && Recorded(c)
    ensures Visit(c, k).Ok? <==> c.stage < k && NotAhead(c)
    ensures Settled(Visit(c, k), k)
    decreases Weight(c), k, 2, 0
  {
    if c.stage < k - 1 {
      LaterStageSucceeds(c, k);
    } else if c.stage == k - 1 {
      CalledSucceeds(Ok(c, [], []), Weight(c), k);
    }
  }

  lemma SettledSuffices(r: Visited, k: Stage)
    requires Settled(r, k)
    ensures r.Ok? ==> r.component.stage == k && Recorded(r.component) && AllFresh(r.services) && AllFresh(r.models)
    ensures r.Ok? ==> NotAhead(r.component)
  {
    if r.Ok? { AtStageIsNotAhead(r.component, k); }
  }

  lemma {:induction false} LaterStageSucceeds(c: Component, k: Stage)
    requires k >= 1 && Recorded(c) && c.stage < k - 1
    ensures Visit(c, k).Ok? <==> NotAhead(c)
    ensures Settled(Visit(c, k), k)
    decreases Weight(c), k, 1, 0
  {
    var r := Visit(c, k - 1);
    VisitSucceedsIff(c, k - 1);
    SettledSuffices(r, k - 1);
    LastStage(c, k, r);
    if r.Ok? { CalledSucceeds(r, Weight(c), k); }
  }

  lemma LastStage(c: Component, k: Stage, r: Visited)
    requires k >= 1 && r == Prior(c, k)
    ensures r.Ok? ==> Weight(r.component) <= Weight(c)
    ensures r.Ok? && r.component.stage == k - 1 ==>
      var c1 := Call(r.component, k);
      Visit(c, k) == Extend(r, PlanOf(r.component, k), c1, VisitAll(c1.children, k))
    ensures r.Thrown? ==> Visit(c, k) == Thrown
  {
    PriorWeight(c, k);
  }

  /** The last stage of a visit, from a component one stage behind. */
  lemma {:induction false} CalledSucceeds(r: Visited, w: nat, k: Stage)
    requires r.Ok? && Recorded(r.component) && AllFresh(r.services) && AllFresh(r.models)
    requires k >= 1 && r.component.stage == k - 1 && Weight(r.component) <= w
    ensures var c1 := Call(r.component, k);
      var r1 := Extend(r, PlanOf(r.component, k), c1, VisitAll(c1.children, k));
      (r1.Ok? <==> NotAhead(r.component)) && Settled(r1, k)
    decreases w, k, 0, 0
  {
    var c1 := Call(r.component, k);
    CallWeight(r.component, k);
    CallChildren(r.component, k);
    VisitAllSucceedsIff(c1.children, k);
    ExtendSettles(r, k, VisitAll(c1.children, k));
  }

  lemma ExtendSettles(r: Visited, k: Stage, all: AllVisited)
    requires r.Ok? && Recorded(r.component) && AllFresh(r.services) && AllFresh(r.models)
    requires k >= 1 && r.component.stage == k - 1
    requires all.AllOk? ==>
      AllAtStage(all.components, k) && AllRecorded(all.components) && AllFresh(all.services) && AllFresh(all.models)
    ensures Settled(Extend(r, PlanOf(r.component, k), Call(r.component, k), all), k)
  {
  }

  lemma {:induction false} VisitAllSucceedsIff(cs: seq<Component>, k: Stage)
    requires k >= 1 && AllRecorded(cs)
    ensures var r := VisitAll(cs, k);
      && (r.AllOk? <==> Behind(cs, k))
      && (r.AllOk? ==> AllAtStage(r.components, k) && AllRecorded(r.components))
      && (r.AllOk? ==> AllFresh(r.services) && AllFresh(r.models))
    decreases WeightAll(cs), k, 3, |cs|
  {
    if cs != [] {
      assert cs[0] in cs;
      VisitSucceedsIff(cs[0], k);
      VisitAllSucceedsIff(cs[1..], k);
      assert cs == [cs[0]] + cs[1..];
    }
  }

  // ---- no component is lost ----------------------------------------------------------------

  function Ids(c: Component): multiset<nat>
    decreases c, 1
  {
    multiset{c.id} + IdsAll(c.children)
  }

  function IdsAll(cs: seq<Component>): multiset<nat>
    decreases cs, 0
  {
    if cs == [] then multiset{} else Ids(cs[0]) + IdsAll(cs[1..])
  }

  /** The components below `c`, with those that callbacks up to stage `k` will still add there. */
  function Reach(c: Component, k: Stage): multiset<nat>
    decreases c, 1
  {
    multiset{c.id} + ReachAll(c.children, k)
    + (if c.stage < 1 <= k then Planned(c.onPublish.children, k) else multiset{})
    + (if c.stage < 2 <= k then Planned(c.onConfigure.children, k) else multiset{})
    + (if c.stage < 3 <= k then Planned(c.onConnect.children, k) else multiset{})
  }

  function ReachAll(cs: seq<Component>, k: Stage): multiset<nat>
    decreases cs, 0
  {
    if cs == [] then multiset{} else Reach(cs[0], k) + ReachAll(cs[1..], k)
  }

  function Planned(adds: seq<Addition>, k: Stage): multiset<nat>
    decreases adds, 0
  {
    if adds == [] then multiset{} else PlannedOne(adds[0], k) + Planned(adds[1..], k)
  }

  function PlannedOne(a: Addition, k: Stage): multiset<nat>
    decreases a, 2
  {
    Reach(a.component, k)
  }

  lemma {:induction false} ReachConcat(a: seq<Component>, b: seq<Component>, k: Stage)
    ensures ReachAll(a + b, k) == ReachAll(a, k) + ReachAll(b, k)
    decreases |a|
  {
    if a == [] {
      assert a + b == b;
    } else {
      assert (a + b)[1..] == a[1..] + b;
      ReachConcat(a[1..], b, k);
    }
  }

  lemma {:induction false} GraftReach(cs: seq<Component>, adds: seq<Addition>, k: Stage)
    ensures ReachAll(Graft(cs, adds), k) == ReachAll(cs, k) + Planned(adds, k)
    decreases |adds|
  {
    if adds != [] {
      GraftReach(Insert(cs, adds[0]), adds[1..], k);
      InsertReach(cs, adds[0], k);
    }
  }

  lemma ReachSplit(cs: seq<Component>, front: seq<Component>, back: seq<Component>, k: Stage)
    requires cs == front + back
    ensures ReachAll(cs, k) == ReachAll(front, k) + ReachAll(back, k)
  {
    ReachConcat(front, back, k);
  }

  lemma ReachFirst(c: Component, cs: seq<Component>, k: Stage)
    ensures ReachAll([c] + cs, k) == Reach(c, k) + ReachAll(cs, k)
  {
  }

  lemma Moved(a: multiset<nat>, b: multiset<nat>, c: multiset<nat>)
    ensures a + (b + c) == a + c + b
  {
  }

  lemma InsertReach(cs: seq<Component>, a: Addition, k: Stage)
    ensures ReachAll(Insert(cs, a), k) == ReachAll(cs, k) + Reach(a.component, k)
  {
    var i := if a.at < |cs| then a.at else |cs|;
    var front, back := cs[..i], cs[i..];
    InsertSplits(cs, a, i);
    ReachSplit(Insert(cs, a), front, [a.component] + back, k);
    ReachFirst(a.component, back, k);
    ReachSplit(cs, front, back, k);
    Moved(ReachAll(front, k), Reach(a.component, k), ReachAll(back, k));
  }

  lemma InsertSplits(cs: seq<Component>, a: Addition, i: nat)
    requires i == if a.at < |cs| then a.at else |cs|
    ensures cs == cs[..i] + cs[i..] && Insert(cs, a) == cs[..i] + ([a.component] + cs[i..])
  {
  }

  lemma CallReach(c: Component, j: Stage, k: Stage)
    requires c.stage + 1 == j <= k
    ensures Reach(Call(c, j), k) == Reach(c, k)
  {
    GraftReach(c.children, PlanOf(c, j).children, k);
  }

  lemma SameReach(c: Component, cs: seq<Component>, k: Stage)
    requires ReachAll(cs, k) == ReachAll(c.children, k)
    ensures Reach(c.(children := cs), k) == Reach(c, k)
  {
  }

  lemma {:induction false} VisitReach(c: Component, j: Stage, k: Stage)
    requires 1 <= j <= k
    ensures Visit(c, j).Ok? ==> Reach(Visit(c, j).component, k) == Reach(c, k)
    decreases Weight(c), j, 1, 0
  {
    if Visit(c, j).Ok? {
      var r := Prior(c, j);
      if c.stage < j - 1 { VisitReach(c, j - 1, k); }
      PriorWeight(c, j);
      CalledReach(r, Weight(c), j, k);
      var c1 := Call(r.component, j);
      assert Visit(c, j) == Extend(r, PlanOf(r.component, j), c1, VisitAll(c1.children, j));
    }
  }

  /** The last stage of a visit. */
  lemma {:induction false} CalledReach(r: Visited, w: nat, j: Stage, k: Stage)
    requires 1 <= j <= k && r.Ok? && r.component.stage == j - 1 && Weight(r.component) <= w
    ensures var c1 := Call(r.component, j);
      var r1 := Extend(r, PlanOf(r.component, j), c1, VisitAll(c1.children, j));
      r1.Ok? ==> Reach(r1.component, k) == Reach(r.component, k)
    decreases w, j, 0, 0
  {
    var c1 := Call(r.component, j);
    CallReach(r.component, j, k);
    CallWeight(r.component, j);
    VisitAllReach(c1.children, j, k);
    var all := VisitAll(c1.children, j);
    if all.AllOk? { SameReach(c1, all.components, k); }
  }

  lemma {:induction false} VisitAllReach(cs: seq<Component>, j: Stage, k: Stage)
    requires 1 <= j <= k
    ensures VisitAll(cs, j).AllOk? ==> ReachAll(VisitAll(cs, j).components, k) == ReachAll(cs, k)
    decreases WeightAll(cs), j, 2, |cs|
  {
    if cs != [] && VisitAll(cs, j).AllOk? {
      VisitReach(cs[0], j, k);
      VisitAllReach(cs[1..], j, k);
      assert VisitAll(cs, j).components[1..] == VisitAll(cs[1..], j).components;
    }
  }

  lemma {:induction false} NothingPlanned(c: Component, k: Stage)
    requires AtStage(c, k)
    ensures Ids(c) == Reach(c, k)
    decreases c, 1
  {
    NothingPlannedAll(c.children, k);
  }

  lemma {:induction false} NothingPlannedAll(cs: seq<Component>, k: Stage)
    requires forall c :: c in cs ==> AtStage(c, k)
    ensures IdsAll(cs) == ReachAll(cs, k)
    decreases cs, 0
  {
    if cs != [] {
      assert cs[0] in cs;
      NothingPlanned(cs[0], k);
      NothingPlannedAll(cs[1..], k);
    }
  }

  /** After a visit the tree holds exactly the components it held and those added on the way, all
      at the stage visited for. */
  lemma VisitReachesAll(c: Component, k: Stage)
    requires k >= 1 && Recorded(c) && c.stage < k && NotAhead(c)
    ensures Visit(c, k).Ok? && AtStage(Visit(c, k).component, k)
    ensures Ids(Visit(c, k).component) == Reach(c, k)
  {
    VisitSucceedsIff(c, k);
    VisitReach(c, k, k);
    NothingPlanned(Visit(c, k).component, k);
  }
}
