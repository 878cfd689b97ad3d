/** The simulator's passes over its services and models, as functions on the two lists. */
module Passes {
  import opened Options
  import opened LifeCycle

  datatype Lists = Lists(services: seq<Component>, models: seq<Component>)

  /** `doPublish`, `doConfigure` or `doConnect` on the services there are; what callbacks add to
      the services and models comes behind. */
  function ServicesPass(w: Lists, k: Stage): Option<Lists>
    requires k >= 1
  {
    match VisitAll(w.services, k)
    case AllThrown => None
    case AllOk(cs, s, m) => Some(Lists(cs + s, w.models + m))
  }

  function ModelsPass(w: Lists, k: Stage): Option<Lists>
    requires k >= 1
  {
    match VisitAll(w.models, k)
    case AllThrown => None
    case AllOk(cs, s, m) => Some(Lists(w.services + s, cs + m))
  }

  /** `Configure` and `Connect`: first the services, then the models there are by then. */
  function BothPasses(w: Lists, k: Stage): Option<Lists>
    requires k >= 1
  {
    match ServicesPass(w, k)
    case None => None
    case Some(w') => ModelsPass(w', k)
  }

  function PublishIfCreated(c: Component): Visited {
    if c.stage == CREATED then Visit(c, PUBLISHING) else Ok(c, [], [])
  }

  /** One round of publishing services: those that are created. */
  function Round(cs: seq<Component>): AllVisited
    decreases |cs|
  {
    if cs == [] then AllOk([], [], []) else Join(PublishIfCreated(cs[0]), Round(cs[1..]))
  }

  lemma {:induction false} RoundTotal(cs: seq<Component>)
    ensures var r := Round(cs);
      && (r.AllOk? ==> TotalAll(r) <= WeightAll(cs))
      && (r.AllOk? && r.services != [] ==> TotalAll(r) < WeightAll(cs))
    decreases |cs|
  {
    if cs != [] {
      RoundTotal(cs[1..]);
      VisitWeight(cs[0], PUBLISHING);
      JoinWeight(PublishIfCreated(cs[0]), Round(cs[1..]));
    }
  }

  lemma RoundWeight(w: Lists)
    ensures var r := Round(w.services);
      r.AllOk? ==>
        var after := WeightAll(r.components + r.services) + WeightAll(w.models + r.models);
        && after <= WeightAll(w.services) + WeightAll(w.models)
        && (r.services != [] ==> after < WeightAll(w.services) + WeightAll(w.models))
  {
    var r := Round(w.services);
    RoundTotal(w.services);
    if r.AllOk? {
      WeightConcat(r.components, r.services);
      WeightConcat(w.models, r.models);
    }
  }

  /** Rounds until one adds no service. */
  function Rounds(w: Lists): Option<Lists>
    decreases WeightAll(w.services) + WeightAll(w.models)
  {
    RoundWeight(w);
    match Round(w.services)
    case AllThrown => None
    case AllOk(cs, s, m) =>
      if s == [] then Some(Lists(cs, w.models + m)) else Rounds(Lists(cs + s, w.models + m))
  }

  function PublishAll(w: Lists): Option<Lists> {
    match Rounds(w)
    case None => None
    case Some(w') => ModelsPass(w', PUBLISHING)
  }

  /** Publish, Configure and Connect in turn. */
  function BuildAll(w: Lists): Option<Lists> {
    match PublishAll(w)
    case None => None
    case Some(w1) =>
      match BothPasses(w1, CONFIGURED)
      case None => None
      case Some(w2) => BothPasses(w2, CONNECTED)
  }

  // ---- one pass ----------------------------------------------------------------------------

  /** `d` is what a visit made of `c`: at the stage with everything below it, its callbacks received
      once and in order, and no component below it lost or gained, those still to be added
      included. */
  predicate Became(d: Component, c: Component, k: Stage) {
    AtStage(d, k) && Recorded(d) && Reach(d, CONNECTED) == Reach(c, CONNECTED)
  }

  /** The components that were there have been visited; behind them are newly created ones. */
  predicate Reached(now: seq<Component>, before: seq<Component>, k: Stage) {
    && |before| <= |now|
    && (forall j :: 0 <= j < |before| ==> Became(now[j], before[j], k))
    && (forall j :: |before| <= j < |now| ==> Fresh(now[j]))
  }

  /** Newly created components were added at the end. */
  predicate Grown(now: seq<Component>, before: seq<Component>) {
    && |before| <= |now|
    && (forall j :: 0 <= j < |before| ==> now[j] == before[j])
    && (forall j :: |before| <= j < |now| ==> Fresh(now[j]))
  }

  lemma JoinAt(first: Visited, rest: AllVisited, j: nat)
    requires first.Ok? && rest.AllOk?
    ensures |Join(first, rest).components| == |rest.components| + 1
    ensures Join(first, rest).components[0] == first.component
    ensures 0 < j <= |rest.components| ==> Join(first, rest).components[j] == rest.components[j - 1]
  {
  }

  lemma VisitAllFirst(cs: seq<Component>, k: Stage)
    requires k >= 1 && VisitAll(cs, k).AllOk? && cs != []
    ensures Visit(cs[0], k).Ok? && VisitAll(cs[1..], k).AllOk?
    ensures VisitAll(cs, k) == Join(Visit(cs[0], k), VisitAll(cs[1..], k))
  {
  }

  lemma {:induction false} VisitAllLength(cs: seq<Component>, k: Stage)
    requires k >= 1 && VisitAll(cs, k).AllOk?
    ensures |VisitAll(cs, k).components| == |cs|
    decreases |cs|
  {
    if cs != [] {
      VisitAllFirst(cs, k);
      VisitAllLength(cs[1..], k);
      JoinAt(Visit(cs[0], k), VisitAll(cs[1..], k), 0);
    }
  }

  lemma {:induction false} VisitAllAt(cs: seq<Component>, k: Stage, j: nat)
    requires k >= 1 && VisitAll(cs, k).AllOk? && j < |cs|
    ensures |VisitAll(cs, k).components| == |cs| && Visit(cs[j], k).Ok?
    ensures VisitAll(cs, k).components[j] == Visit(cs[j], k).component
    decreases |cs|
  {
    VisitAllLength(cs, k);
    VisitAllFirst(cs, k);
    JoinAt(Visit(cs[0], k), VisitAll(cs[1..], k), j);
    if j > 0 { VisitAllAt(cs[1..], k, j - 1); }
  }

  lemma VisitBecame(c: Component, k: Stage)
    requires k >= 1 && Recorded(c) && Visit(c, k).Ok?
    ensures Became(Visit(c, k).component, c, k)
  {
    VisitSucceedsIff(c, k);
    VisitReach(c, k, CONNECTED);
  }

  /** A list is visited without exception exactly when all of it is behind the stage and in order. */
  lemma ListReachedIff(cs: seq<Component>, k: Stage)
    requires k >= 1 && AllRecorded(cs)
    ensures var r := VisitAll(cs, k);
      && (r.AllOk? <==> Behind(cs, k))
      && (r.AllOk? ==> AllFresh(r.services) && AllFresh(r.models) && |r.components| == |cs|)
      && (r.AllOk? ==> forall j :: 0 <= j < |cs| ==> Became(r.components[j], cs[j], k))
  {
    VisitAllSucceedsIff(cs, k);
    var r := VisitAll(cs, k);
    if r.AllOk? {
      forall j | 0 <= j < |cs| ensures |r.components| == |cs| && Became(r.components[j], cs[j], k) {
        VisitAllAt(cs, k, j);
        VisitBecame(cs[j], k);
      }
      if cs == [] { assert r.components == []; }
    }
  }

  lemma ServicesPassIff(w: Lists, k: Stage)
    requires k >= 1 && AllRecorded(w.services)
    ensures ServicesPass(w, k).Some? <==> Behind(w.services, k)
    ensures ServicesPass(w, k).Some? ==>
      var w' := ServicesPass(w, k).value;
      Reached(w'.services, w.services, k) && Grown(w'.models, w.models)
  {
    ListReachedIff(w.services, k);
  }

  lemma ModelsPassIff(w: Lists, k: Stage)
    requires k >= 1 && AllRecorded(w.models)
    ensures ModelsPass(w, k).Some? <==> Behind(w.models, k)
    ensures ModelsPass(w, k).Some? ==>
      var w' := ModelsPass(w, k).value;
      Reached(w'.models, w.models, k) && Grown(w'.services, w.services)
  {
    ListReachedIff(w.models, k);
  }

  lemma GrownKeeps(now: seq<Component>, before: seq<Component>, k: Stage)
    requires k >= 1 && Grown(now, before)
    ensures AllRecorded(now) <==> AllRecorded(before)
    ensures Behind(now, k) <==> Behind(before, k)
  {
    assert forall c :: c in before ==> exists j :: 0 <= j < |before| && now[j] == c;
    assert forall c :: c in now ==> c in before || Fresh(c);
  }

  lemma ReachedThenGrown(now: seq<Component>, middle: seq<Component>, before: seq<Component>, k: Stage)
    requires Reached(middle, before, k) && Grown(now, middle)
    ensures Reached(now, before, k)
  {
  }

  /** What `Configure` or `Connect` does to the lists: the services there are when it begins reach
      the stage, and so do the models there are once the services have been visited. */
  lemma BothPassesIff(w: Lists, k: Stage)
    requires k >= 1 && AllRecorded(w.services) && AllRecorded(w.models)
    ensures BothPasses(w, k).Some? <==> Behind(w.services, k) && Behind(w.models, k)
    ensures BothPasses(w, k).Some? ==>
      ServicesPass(w, k).Some?
      && var w1, w2 := ServicesPass(w, k).value, BothPasses(w, k).value;
      Reached(w2.services, w.services, k) && Grown(w1.models, w.models) && Reached(w2.models, w1.models, k)
  {
    ServicesPassIff(w, k);
    if ServicesPass(w, k).Some? {
      var w1 := ServicesPass(w, k).value;
      GrownKeeps(w1.models, w.models, k);
      ModelsPassIff(w1, k);
      if ModelsPass(w1, k).Some? {
        ReachedThenGrown(ModelsPass(w1, k).value.services, w1.services, w.services, k);
      }
    }
  }

  // ---- publishing --------------------------------------------------------------------------

  /** Created components have been published, the others are as they were. */
  predicate Published(d: Component, c: Component) {
    if c.stage == CREATED then Became(d, c, PUBLISHING) else d == c
  }

  /** Services after some rounds: those there were, and published ones that were added. */
  predicate AllPublished(now: seq<Component>, before: seq<Component>) {
    && |before| <= |now|
    && (forall j :: 0 <= j < |before| ==> Published(now[j], before[j]))
    && (forall j :: |before| <= j < |now| ==> AtStage(now[j], PUBLISHING) && Recorded(now[j]))
  }

  predicate CreatedInOrder(cs: seq<Component>) {
    forall c :: c in cs && c.stage == CREATED ==> NotAhead(c)
  }

  lemma PublishIfCreatedIff(c: Component)
    requires Recorded(c)
    ensures var v := PublishIfCreated(c);
      && (v.Ok? <==> (c.stage == CREATED ==> NotAhead(c)))
      && (v.Ok? ==> AllFresh(v.services) && AllFresh(v.models) && Published(v.component, c))
  {
    VisitSucceedsIff(c, PUBLISHING);
    if Visit(c, PUBLISHING).Ok? { VisitBecame(c, PUBLISHING); }
  }

  lemma {:induction false} RoundIff(cs: seq<Component>)
    requires AllRecorded(cs)
    ensures var r := Round(cs);
      && (r.AllOk? <==> CreatedInOrder(cs))
      && (r.AllOk? ==> AllFresh(r.services) && AllFresh(r.models) && |r.components| == |cs|)
      && (r.AllOk? ==> forall j :: 0 <= j < |cs| ==> Published(r.components[j], cs[j]))
    decreases |cs|
  {
    if cs != [] {
      assert cs == [cs[0]] + cs[1..];
      RoundIff(cs[1..]);
      PublishIfCreatedIff(cs[0]);
    }
  }

  lemma PublishedKeeps(now: seq<Component>, before: seq<Component>)
    requires AllRecorded(before) && |now| == |before|
    requires forall j :: 0 <= j < |before| ==> Published(now[j], before[j])
    ensures AllRecorded(now) && forall c :: c in now ==> c.stage != CREATED
  {
    assert forall j :: 0 <= j < |before| ==> before[j] in before;
  }

  lemma FreshInOrder(cs: seq<Component>, added: seq<Component>)
    requires AllRecorded(cs) && AllFresh(added) && forall c :: c in cs ==> c.stage != CREATED
    ensures AllRecorded(cs + added) && CreatedInOrder(cs + added)
  {
  }

  lemma GrownAgain(now: seq<Component>, middle: seq<Component>, before: seq<Component>)
    requires Grown(now, middle) && Grown(middle, before)
    ensures Grown(now, before)
  {
  }

  lemma PublishedAgain(now: seq<Component>, cs: seq<Component>, added: seq<Component>, before: seq<Component>)
    requires |cs| == |before| && AllPublished(now, cs + added) && AllFresh(added)
    requires (forall c :: c in cs ==> c.stage != CREATED)
    requires forall j :: 0 <= j < |before| ==> Published(cs[j], before[j])
    ensures AllPublished(now, before)
  {
    var middle := cs + added;
    forall j | 0 <= j < |before| ensures Published(now[j], before[j]) {
      assert middle[j] == cs[j] && cs[j] in cs;
    }
    forall j | |before| <= j < |now| ensures AtStage(now[j], PUBLISHING) && Recorded(now[j]) {
      if j < |middle| { assert middle[j] == added[j - |cs|] && added[j - |cs|] in added; }
    }
  }

  /** Publishing the services throws exactly when a created one has a component ahead of its
      parent; otherwise it ends with all of them published, those added in between included. */
  lemma {:induction false} RoundsIff(w: Lists)
    requires AllRecorded(w.services)
    ensures Rounds(w).Some? <==> CreatedInOrder(w.services)
    ensures Rounds(w).Some? ==>
      AllPublished(Rounds(w).value.services, w.services) && Grown(Rounds(w).value.models, w.models)
    decreases WeightAll(w.services) + WeightAll(w.models)
  {
    RoundIff(w.services);
    RoundWeight(w);
    match Round(w.services)
    case AllThrown =>
    case AllOk(cs, s, m) =>
      PublishedKeeps(cs, w.services);
      if s != [] {
        var w1 := Lists(cs + s, w.models + m);
        FreshInOrder(cs, s);
        RoundsIff(w1);
        PublishedAgain(Rounds(w1).value.services, cs, s, w.services);
        assert Grown(w1.models, w.models);
        GrownAgain(Rounds(w1).value.models, w1.models, w.models);
      }
  }

  /** `Publish`: services in rounds, then the models there are by then. */
  lemma PublishAllIff(w: Lists)
    requires AllRecorded(w.services) && AllRecorded(w.models)
    ensures PublishAll(w).Some? <==> CreatedInOrder(w.services) && Behind(w.models, PUBLISHING)
    ensures PublishAll(w).Some? ==>
      Rounds(w).Some?
      && var w1, w2 := Rounds(w).value, PublishAll(w).value;
      && AllPublished(w1.services, w.services) && Grown(w2.services, w1.services)
      && Grown(w1.models, w.models) && Reached(w2.models, w1.models, PUBLISHING)
  {
    RoundsIff(w);
    if Rounds(w).Some? {
      GrownKeeps(Rounds(w).value.models, w.models, PUBLISHING);
      ModelsPassIff(Rounds(w).value, PUBLISHING);
    }
  }

  // ---- the three calls in turn -------------------------------------------------------------

  /** Every component of `before`, with all that callbacks add below it, is connected and has
      received its three callbacks once and in order; nothing else is below it. */
  predicate Connected(d: Component, c: Component) {
    AtStage(d, CONNECTED) && Recorded(d) && Ids(d) == Reach(c, CONNECTED)
  }

  predicate AllConnected(now: seq<Component>, before: seq<Component>) {
    && |before| <= |now|
    && (forall j :: 0 <= j < |before| ==> Connected(now[j], before[j]))
    && (forall j :: |before| <= j < |now| ==> Fresh(now[j]))
  }

  /** The same for the first components of a list. */
  predicate ConnectedBack(now: seq<Component>, before: seq<Component>) {
    && |before| <= |now|
    && forall j :: 0 <= j < |before| ==> Connected(now[j], before[j])
  }

  lemma ReachedIsConnected(now: seq<Component>, before: seq<Component>)
    requires Reached(now, before, CONNECTED)
    ensures AllConnected(now, before)
  {
    forall j | 0 <= j < |before| ensures Connected(now[j], before[j]) {
      NothingPlanned(now[j], CONNECTED);
    }
  }

  lemma ReachedInOrder(cs: seq<Component>, before: seq<Component>, k: Stage)
    requires 1 <= k < 3 && Reached(cs, before, k)
    ensures AllRecorded(cs) && Behind(cs, k + 1)
  {
    forall c | c in cs ensures Recorded(c) && NotAhead(c) && c.stage <= k {
      var j :| 0 <= j < |cs| && cs[j] == c;
      if j < |before| {
        AtStageIsNotAhead(c, k);
      } else {
        assert Fresh(c);
      }
    }
  }

  /** What Configure needs of the services is what it needed before they were published. */
  lemma PublishedInOrderIff(now: seq<Component>, before: seq<Component>)
    requires AllRecorded(before) && AllPublished(now, before) && CreatedInOrder(before)
    ensures AllRecorded(now)
    ensures Behind(now, CONFIGURED) <==> Behind(before, CONFIGURED)
  {
    forall c | c in now ensures Recorded(c) {
      var j :| 0 <= j < |now| && now[j] == c;
      assert j < |before| ==> before[j] in before;
    }
    if Behind(before, CONFIGURED) {
      forall c | c in now ensures c.stage < CONFIGURED && NotAhead(c) {
        var j :| 0 <= j < |now| && now[j] == c;
        if j < |before| { assert before[j] in before; }
        if c.stage == PUBLISHING && AtStage(c, PUBLISHING) { AtStageIsNotAhead(c, PUBLISHING); }
      }
    }
    if Behind(now, CONFIGURED) {
      forall c | c in before ensures c.stage < CONFIGURED && NotAhead(c) {
        var j :| 0 <= j < |before| && before[j] == c;
        assert now[j] in now;
      }
    }
  }

  /** The lists with which Configure begins, and those with which Connect begins. */
  predicate Builds(w: Lists, w1: Lists, w2: Lists, w3: Lists) {
    PublishAll(w) == Some(w1) && BothPasses(w1, CONFIGURED) == Some(w2) && BothPasses(w2, CONNECTED) == Some(w3)
  }

  /** The three calls in turn throw nothing exactly when the models are created, no service is
      beyond publishing, and no component is ahead of its parent. */
  lemma BuildSucceedsIff(w: Lists)
    requires AllRecorded(w.services) && AllRecorded(w.models)
    ensures BuildAll(w).Some? <==> Behind(w.services, CONFIGURED) && Behind(w.models, PUBLISHING)
  {
    PublishAllIff(w);
    if PublishAll(w).Some? {
      var w0, w1 := Rounds(w).value, PublishAll(w).value;
      PublishedInOrderIff(w0.services, w.services);
      GrownKeeps(w1.services, w0.services, CONFIGURED);
      ReachedInOrder(w1.models, w0.models, PUBLISHING);
      BothPassesIff(w1, CONFIGURED);
      if BothPasses(w1, CONFIGURED).Some? {
        var w2 := BothPasses(w1, CONFIGURED).value;
        ReachedInOrder(w2.services, w1.services, CONFIGURED);
        ReachedInOrder(w2.models, ServicesPass(w1, CONFIGURED).value.models, CONFIGURED);
        BothPassesIff(w2, CONNECTED);
      }
    }
  }

  /** And then: every service and model there was when Connect began, and every model added while
      the services were connected, is connected with all its tree; only what is added to a list
      while Connect runs over that list, or after it has, stays newly created. */
  lemma BuildConnects(w: Lists, w1: Lists, w2: Lists, w3: Lists)
    requires AllRecorded(w.services) && AllRecorded(w.models) && Builds(w, w1, w2, w3)
    ensures ServicesPass(w2, CONNECTED).Some?
    ensures AllConnected(w3.services, w2.services)
    ensures AllConnected(w3.models, ServicesPass(w2, CONNECTED).value.models)
    ensures Grown(ServicesPass(w2, CONNECTED).value.models, w2.models)
    ensures Reached(w2.services, w1.services, CONFIGURED)
    ensures ServicesPass(w1, CONFIGURED).Some? && Grown(ServicesPass(w1, CONFIGURED).value.models, w1.models)
    ensures Reached(w2.models, ServicesPass(w1, CONFIGURED).value.models, CONFIGURED)
  {
    PublishAllIff(w);
    var w0 := Rounds(w).value;
    PublishedInOrderIff(w0.services, w.services);
    GrownKeeps(w1.services, w0.services, CONFIGURED);
    ReachedInOrder(w1.models, w0.models, PUBLISHING);
    BothPassesIff(w1, CONFIGURED);
    ReachedInOrder(w2.services, w1.services, CONFIGURED);
    ReachedInOrder(w2.models, ServicesPass(w1, CONFIGURED).value.models, CONFIGURED);
    BothPassesIff(w2, CONNECTED);
    ReachedIsConnected(w3.services, w2.services);
    ReachedIsConnected(w3.models, ServicesPass(w2, CONNECTED).value.models);
  }

  /** The first components stand for the same trees as before. */
  predicate Same(now: seq<Component>, before: seq<Component>) {
    && |before| <= |now|
    && forall j :: 0 <= j < |before| ==> Reach(now[j], CONNECTED) == Reach(before[j], CONNECTED)
  }

  lemma SameWhenPublished(now: seq<Component>, middle: seq<Component>, before: seq<Component>)
    requires AllPublished(middle, before) && Grown(now, middle)
    ensures Same(now, before)
  {
  }

  lemma SameWhenReached(now: seq<Component>, middle: seq<Component>, before: seq<Component>, k: Stage)
    requires Grown(middle, before) && Reached(now, middle, k)
    ensures Same(now, before)
  {
  }

  lemma ConnectedSince(now: seq<Component>, c: seq<Component>, b: seq<Component>, a: seq<Component>)
    requires AllConnected(now, c) && Same(c, b) && Same(b, a)
    ensures ConnectedBack(now, a)
  {
  }

  /** In particular the trees the three calls started from, by position. */
  lemma BuildConnectsInitial(w: Lists, w1: Lists, w2: Lists, w3: Lists)
    requires AllRecorded(w.services) && AllRecorded(w.models) && Builds(w, w1, w2, w3)
    ensures ConnectedBack(w3.services, w.services) && ConnectedBack(w3.models, w.models)
  {
    BuildConnects(w, w1, w2, w3);
    PublishAllIff(w);
    var w0 := Rounds(w).value;
    ServicesOfBuild(w, w0, w1, w2, w3);
    ModelsOfBuild(w, w0, w1, w2, w3);
  }

  lemma ServicesOfBuild(w: Lists, w0: Lists, w1: Lists, w2: Lists, w3: Lists)
    requires AllPublished(w0.services, w.services) && Grown(w1.services, w0.services)
    requires Reached(w2.services, w1.services, CONFIGURED) && AllConnected(w3.services, w2.services)
    ensures ConnectedBack(w3.services, w.services)
  {
    SameWhenPublished(w1.services, w0.services, w.services);
    SameWhenReached(w2.services, w1.services, w1.services, CONFIGURED);
    ConnectedSince(w3.services, w2.services, w1.services, w.services);
  }

  lemma ModelsOfBuild(w: Lists, w0: Lists, w1: Lists, w2: Lists, w3: Lists)
    requires Grown(w0.models, w.models) && Reached(w1.models, w0.models, PUBLISHING)
    requires ServicesPass(w1, CONFIGURED).Some? && ServicesPass(w2, CONNECTED).Some?
    requires Grown(ServicesPass(w1, CONFIGURED).value.models, w1.models)
    requires Reached(w2.models, ServicesPass(w1, CONFIGURED).value.models, CONFIGURED)
    requires Grown(ServicesPass(w2, CONNECTED).value.models, w2.models)
    requires AllConnected(w3.models, ServicesPass(w2, CONNECTED).value.models)
    ensures ConnectedBack(w3.models, w.models)
  {
    var m1, m2 := ServicesPass(w1, CONFIGURED).value.models, ServicesPass(w2, CONNECTED).value.models;
    SameWhenReached(w1.models, w0.models, w.models, PUBLISHING);
    SameWhenReached(w2.models, m1, w1.models, CONFIGURED);
    assert Same(m2, w1.models);
    ConnectedSince(w3.models, m2, w1.models, w.models);
  }
}
