/** Every component there is or is announced by a callback, and where it belongs: building a
    simulation loses none, duplicates none and misplaces none. */
module Census {
  import opened Options
  import opened LifeCycle
  import opened Passes

  datatype Place = Below | AmongServices | AmongModels

  type Tally = multiset<(nat, Place)>

  /** The component, all below it, and all that callbacks still to come will add anywhere. */
  function Count(c: Component, place: Place): Tally
    decreases c, 1
  {
    multiset{(c.id, place)} + CountAll(c.children, Below) + Announced(c)
  }

  /** The announcements still to come. */
  function Announced(c: Component): Tally
    decreases c, 0
  {
    CountIf(c.stage < PUBLISHING, c.onPublish) + CountIf(c.stage < CONFIGURED, c.onConfigure)
    + CountIf(c.stage < CONNECTED, c.onConnect)
  }

  function CountIf(counts: bool, p: Plan): Tally
    decreases p, 1
  {
    if counts then CountPlan(p) else multiset{}
  }

  function CountAll(cs: seq<Component>, place: Place): Tally
    decreases cs, 0
  {
    if cs == [] then multiset{} else Count(cs[0], place) + CountAll(cs[1..], place)
  }

  function CountPlan(p: Plan): Tally
    decreases p, 0
  {
    CountAdditions(p.children) + CountAll(p.services, AmongServices) + CountAll(p.models, AmongModels)
  }

  function CountAdditions(adds: seq<Addition>): Tally
    decreases adds, 0
  {
    if adds == [] then multiset{} else CountAddition(adds[0]) + CountAdditions(adds[1..])
  }

  function CountAddition(a: Addition): Tally
    decreases a, 2
  {
    Count(a.component, Below)
  }

  lemma {:induction false} CountConcat(a: seq<Component>, b: seq<Component>, place: Place)
    ensures CountAll(a + b, place) == CountAll(a, place) + CountAll(b, place)
    decreases |a|
  {
    if a == [] {
      assert a + b == b;
    } else {
      assert (a + b)[1..] == a[1..] + b;
      CountConcat(a[1..], b, place);
    }
  }

  lemma CountFirst(c: Component, cs: seq<Component>, place: Place)
    ensures CountAll([c] + cs, place) == Count(c, place) + CountAll(cs, place)
  {
  }

  // ---- one callback ------------------------------------------------------------------------

  /** An addition takes its place among the children, which keep theirs. */
  lemma InsertPlaces(cs: seq<Component>, a: Addition) returns (i: nat)
    ensures i <= |cs| && (a.at <= |cs| ==> i == a.at) && (a.at > |cs| ==> i == |cs|)
    ensures Insert(cs, a) == cs[..i] + ([a.component] + cs[i..]) && cs == cs[..i] + cs[i..]
  {
    i := if a.at < |cs| then a.at else |cs|;
  }

  lemma InsertCount(cs: seq<Component>, a: Addition)
    ensures CountAll(Insert(cs, a), Below) == CountAll(cs, Below) + CountAddition(a)
  {
    var i := InsertPlaces(cs, a);
    CountConcat(cs[..i], [a.component] + cs[i..], Below);
    CountFirst(a.component, cs[i..], Below);
    CountConcat(cs[..i], cs[i..], Below);
  }

  lemma {:induction false} GraftCount(cs: seq<Component>, adds: seq<Addition>)
    ensures CountAll(Graft(cs, adds), Below) == CountAll(cs, Below) + CountAdditions(adds)
    decreases |adds|
  {
    if adds != [] {
      GraftCount(Insert(cs, adds[0]), adds[1..]);
      InsertCount(cs, adds[0]);
    }
  }

  lemma PlanTaken(c: Component, k: Stage)
    requires c.stage + 1 == k
    ensures Announced(WithoutPlan(c, k).(stage := k)) + CountPlan(PlanOf(c, k)) == Announced(c)
  {
    if k == PUBLISHING {
      Last(CountPlan(c.onPublish), CountPlan(c.onConfigure), CountPlan(c.onConnect));
    }
  }

  lemma Last(a: Tally, b: Tally, c: Tally)
    ensures multiset{} + b + c + a == a + b + c
  {
  }

  /** A callback turns announcements into additions. */
  lemma CallCount(c: Component, k: Stage, place: Place)
    requires c.stage + 1 == k
    ensures var p := PlanOf(c, k);
      Count(Call(c, k), place) + CountAll(p.services, AmongServices) + CountAll(p.models, AmongModels) ==
        Count(c, place)
  {
    var p, d := PlanOf(c, k), WithoutPlan(c, k).(stage := k);
    PlanTaken(c, k);
    GraftCount(c.children, p.children);
    Regraft(multiset{(c.id, place)}, CountAll(c.children, Below), Announced(d), CountAdditions(p.children),
            CountAll(p.services, AmongServices), CountAll(p.models, AmongModels));
    assert Count(Call(c, k), place) == multiset{(c.id, place)} + CountAll(Call(c, k).children, Below) + Announced(d);
  }

  lemma SameButChildren(c: Component, d: Component, place: Place)
    requires d == c.(children := d.children, history := d.history)
    ensures Count(d, place) + CountAll(c.children, Below) == Count(c, place) + CountAll(d.children, Below)
  {
  }

  lemma Regraft(id: Tally, children: Tally, rest: Tally, added: Tally, s: Tally, m: Tally)
    ensures id + (children + added) + rest + s + m == id + children + (rest + (added + s + m))
  {
  }

  lemma Cancel(a: Tally, b: Tally, c: Tally)
    requires a + c == b + c
    ensures a == b
  {
    assert a == a + c - c && b == b + c - c;
  }

  // ---- one visit ---------------------------------------------------------------------------

  function CountVisited(r: Visited, place: Place): Tally
    requires r.Ok?
  {
    Count(r.component, place) + CountAll(r.services, AmongServices) + CountAll(r.models, AmongModels)
  }

  function CountAllVisited(r: AllVisited, place: Place): Tally
    requires r.AllOk?
  {
    CountAll(r.components, place) + CountAll(r.services, AmongServices) + CountAll(r.models, AmongModels)
  }

  lemma CountThree(a: seq<Component>, b: seq<Component>, c: seq<Component>, place: Place)
    ensures CountAll(a + b + c, place) == CountAll(a, place) + CountAll(b, place) + CountAll(c, place)
  {
    CountConcat(a + b, c, place);
    CountConcat(a, b, place);
  }

  /** The children `before`, with what they announced, have become `after`, `s` and `m`. */
  lemma Regroup(with: Tally, without: Tally, before: Tally, after: Tally, s: Tally, m: Tally)
    requires with + before == without + after && after + s + m == before
    ensures with + s + m == without
  {
    assert with + s + m + after == with + (after + s + m);
    Cancel(with + s + m, without, after);
  }

  lemma Collect(c: Tally, s1: Tally, s2: Tally, s3: Tally, m1: Tally, m2: Tally, m3: Tally)
    ensures c + (s1 + s2 + s3) + (m1 + m2 + m3) == s1 + m1 + (c + s3 + m3 + s2 + m2)
  {
  }

  /** What a callback announced is added, next to what was added before and what the children add. */
  lemma ExtendCount(r: Visited, p: Plan, c: Component, all: AllVisited, place: Place)
    requires r.Ok? && all.AllOk? && CountAllVisited(all, Below) == CountAll(c.children, Below)
    ensures CountVisited(Extend(r, p, c, all), place) ==
      CountAll(r.services, AmongServices) + CountAll(r.models, AmongModels)
      + (Count(c, place) + CountAll(p.services, AmongServices) + CountAll(p.models, AmongModels))
  {
    var with := c.(children := all.components);
    var s3, m3 := CountAll(all.services, AmongServices), CountAll(all.models, AmongModels);
    SameButChildren(c, with, place);
    Regroup(Count(with, place), Count(c, place), CountAll(c.children, Below), CountAll(all.components, Below), s3, m3);
    CountThree(r.services, p.services, all.services, AmongServices);
    CountThree(r.models, p.models, all.models, AmongModels);
    Collect(Count(with, place), CountAll(r.services, AmongServices), CountAll(p.services, AmongServices), s3,
            CountAll(r.models, AmongModels), CountAll(p.models, AmongModels), m3);
  }

  lemma JoinCount(first: Visited, rest: AllVisited, place: Place)
    requires first.Ok? && rest.AllOk?
    ensures CountAllVisited(Join(first, rest), place) == CountVisited(first, place) + CountAllVisited(rest, place)
  {
    CountConcat(first.services, rest.services, AmongServices);
    CountConcat(first.models, rest.models, AmongModels);
    CountFirst(first.component, rest.components, place);
  }

  /** A visit keeps the tally: what it adds had been announced, and what was announced is added or
      still announced. */
  lemma {:induction false} VisitCount(c: Component, k: Stage, place: Place)
    requires k >= 1 && Visit(c, k).Ok?
    ensures CountVisited(Visit(c, k), place) == Count(c, place)
    decreases Weight(c), k, 1, 0
  {
    var r := Prior(c, k);
    LastStage(c, k, r);
    if c.stage < k - 1 { VisitCount(c, k - 1, place); }
    CalledCount(r, Weight(c), k, place);
  }

  /** The last stage of a visit. */
  lemma {:induction false} CalledCount(r: Visited, w: nat, k: Stage, place: Place)
    requires r.Ok? && k >= 1 && r.component.stage == k - 1 && Weight(r.component) <= w
    requires VisitAll(Call(r.component, k).children, k).AllOk?
    ensures var c1 := Call(r.component, k);
      CountVisited(Extend(r, PlanOf(r.component, k), c1, VisitAll(c1.children, k)), place) == CountVisited(r, place)
    decreases w, k, 0, 0
  {
    var c1 := Call(r.component, k);
    CallWeight(r.component, k);
    VisitAllCount(c1.children, k, Below);
    CallCount(r.component, k, place);
    var p := PlanOf(r.component, k);
    ExtendCount(r, p, c1, VisitAll(c1.children, k), place);
  }

  lemma {:induction false} VisitAllCount(cs: seq<Component>, k: Stage, place: Place)
    requires k >= 1 && VisitAll(cs, k).AllOk?
    ensures CountAllVisited(VisitAll(cs, k), place) == CountAll(cs, place)
    decreases WeightAll(cs), k, 2, |cs|
  {
    if cs != [] {
      VisitAllFirst(cs, k);
      VisitCount(cs[0], k, place);
      VisitAllCount(cs[1..], k, place);
      JoinCount(Visit(cs[0], k), VisitAll(cs[1..], k), place);
    }
  }

  // ---- the passes --------------------------------------------------------------------------

  function Everything(w: Lists): Tally {
    CountAll(w.services, AmongServices) + CountAll(w.models, AmongModels)
  }

  lemma ServicesPassCount(w: Lists, k: Stage)
    requires k >= 1 && ServicesPass(w, k).Some?
    ensures Everything(ServicesPass(w, k).value) == Everything(w)
  {
    VisitAllCount(w.services, k, AmongServices);
    var r := VisitAll(w.services, k);
    CountConcat(r.components, r.services, AmongServices);
    CountConcat(w.models, r.models, AmongModels);
  }

  lemma ModelsPassCount(w: Lists, k: Stage)
    requires k >= 1 && ModelsPass(w, k).Some?
    ensures Everything(ModelsPass(w, k).value) == Everything(w)
  {
    VisitAllCount(w.models, k, AmongModels);
    var r := VisitAll(w.models, k);
    CountConcat(r.components, r.models, AmongModels);
    CountConcat(w.services, r.services, AmongServices);
  }

  lemma {:induction false} RoundCount(cs: seq<Component>)
    requires Round(cs).AllOk?
    ensures CountAllVisited(Round(cs), AmongServices) == CountAll(cs, AmongServices)
    decreases |cs|
  {
    if cs != [] {
      RoundCount(cs[1..]);
      if cs[0].stage == CREATED { VisitCount(cs[0], PUBLISHING, AmongServices); }
      JoinCount(PublishIfCreated(cs[0]), Round(cs[1..]), AmongServices);
    }
  }

  lemma {:induction false} RoundsCount(w: Lists)
    requires Rounds(w).Some?
    ensures Everything(Rounds(w).value) == Everything(w)
    decreases WeightAll(w.services) + WeightAll(w.models)
  {
    RoundWeight(w);
    RoundCount(w.services);
    var r := Round(w.services);
    CountConcat(r.components, r.services, AmongServices);
    CountConcat(w.models, r.models, AmongModels);
    if r.services != [] {
      RoundsCount(Lists(r.components + r.services, w.models + r.models));
    }
  }

  /** Each of the three calls keeps the tally, and so do the three in turn: every component there was
      or was announced is there, or still announced by a component that is yet to be visited, exactly
      as often as before, in the list or below the component where it was put. */
  lemma PassesKeepEverything(w: Lists, k: Stage)
    requires k >= 1
    ensures PublishAll(w).Some? ==> Everything(PublishAll(w).value) == Everything(w)
    ensures BothPasses(w, k).Some? ==> Everything(BothPasses(w, k).value) == Everything(w)
  {
    if PublishAll(w).Some? {
      RoundsCount(w);
      ModelsPassCount(Rounds(w).value, PUBLISHING);
    }
    if BothPasses(w, k).Some? {
      ServicesPassCount(w, k);
      ModelsPassCount(ServicesPass(w, k).value, k);
    }
  }

  lemma BuildKeepsEverything(w: Lists)
    requires BuildAll(w).Some?
    ensures Everything(BuildAll(w).value) == Everything(w)
  {
    PassesKeepEverything(w, CONNECTED);
    var w1 := PublishAll(w).value;
    PassesKeepEverything(w1, CONFIGURED);
    PassesKeepEverything(BothPasses(w1, CONFIGURED).value, CONNECTED);
  }
}
