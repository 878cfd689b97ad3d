/** The data exchange of two simulators in lockstep: publish a snapshot, meet at the barrier,
    read the snapshot of the other side. */
module Lockstep {
  import B = BarrierRuns
  import C = BarrierCounters

  /** Where a side is in its `sync`. */
  datatype Phase = Computing | Published | Waiting | MustRead

  /** `slot` is `_data`; `published` and `loaded` record, since the last reset, the snapshots a
      side stored and those it loaded from its peer. */
  datatype State<D> = State(barrier: B.System, phase: seq<Phase>, slot: seq<D>,
                            published: seq<seq<D>>, loaded: seq<seq<D>>)

  datatype Event<D> =
    | Publish(i: nat, data: D)  // retrieveData, then store under the data lock
    | Meet(e: B.Event)          // a lock region of the barrier
    | Read(i: nat)              // sendData of the peer under its data lock, then loadData

  ghost predicate Shaped<D>(s: State<D>) {
    B.Shaped(s.barrier) && |s.barrier.threads| == |s.phase| == |s.slot| == |s.published| == |s.loaded| == 2
  }

  ghost predicate Enabled<D>(s: State<D>, e: Event<D>)
    requires Shaped(s)
  {
    match e
    case Publish(i, _) => i < 2 && s.phase[i].Computing?
    case Meet(b) =>
      && B.Enabled(s.barrier, b)
      && (b.Enter? ==> s.phase[b.t].Published?)
      && (b.Reset? ==> s.phase[0].Computing? && s.phase[1].Computing?)
    case Read(i) => i < 2 && s.phase[i].MustRead?
  }

  /** What the return of the barrier means for the side: true leads to the read, false to the
      exit branch. */
  function PhaseAfter(before: B.System, after: B.System, t: nat): Phase
    requires t < |after.threads| && t < |before.passed| && t < |after.passed|
  {
    if !after.threads[t].Idle? then Waiting
    else if after.passed[t] > before.passed[t] then MustRead
    else Computing
  }

  function Step<D>(s: State<D>, e: Event<D>): State<D>
    requires |s.barrier.threads| == |s.barrier.arrived| == |s.barrier.passed| == 2
    requires |s.phase| == |s.slot| == |s.published| == |s.loaded| == 2
    requires match e
             case Publish(i, _) => i < 2
             case Read(i) => i < 2
             case Meet(b) => && (b.Enter? || b.Check? || b.Wake? ==> b.t < 2)
                             && (b.Check? ==> s.barrier.threads[b.t].Awake?)
                             && (b.Wake? ==> s.barrier.threads[b.t].Asleep?)
  {
    match e
    case Publish(i, data) =>
      s.(slot := s.slot[i := data], published := s.published[i := s.published[i] + [data]],
         phase := s.phase[i := Published])
    case Meet(b) =>
      var barrier := B.Step(s.barrier, b);
      (match b
       case Enter(t) => s.(barrier := barrier, phase := s.phase[t := PhaseAfter(s.barrier, barrier, t)])
       case Check(t) => s.(barrier := barrier, phase := s.phase[t := PhaseAfter(s.barrier, barrier, t)])
       case Reset => s.(barrier := barrier, published := [[], []], loaded := [[], []])
       case _ => s.(barrier := barrier))
    case Read(i) =>
      s.(loaded := s.loaded[i := s.loaded[i] + [s.slot[1 - i]]], phase := s.phase[i := Computing])
  }

  function Bit(b: bool): nat { if b then 1 else 0 }

  /** Calls of `wait` of a side that returned false since the reset. */
  function Failed(b: B.System, i: nat): int
    requires i < |b.threads| == |b.arrived| == |b.passed|
  {
    b.arrived[i] - b.passed[i] - Bit(!b.threads[i].Idle?)
  }

  /** The counts of one side in terms of its phase. */
  predicate Accounts(phase: Phase, idle: bool, arrived: nat, passed: nat, peerPassed: nat,
                     published: nat, loaded: nat)
  {
    && (phase.Waiting? <==> !idle)
    && published == arrived + Bit(phase.Published?)
    && loaded + Bit(phase.MustRead?) == passed
    && arrived >= passed + Bit(!idle)
    && (phase.MustRead? ==> peerPassed <= passed)
  }

  ghost predicate SideInv<D>(s: State<D>, i: nat)
    requires Shaped(s) && i < 2
  {
    var b := s.barrier;
    && Accounts(s.phase[i], b.threads[i].Idle?, b.arrived[i], b.passed[i], b.passed[1 - i],
                |s.published[i]|, |s.loaded[i]|)
    && (s.published[i] != [] ==> s.slot[i] == s.published[i][|s.published[i]| - 1])
  }

  /** The k-th loaded snapshot is the m-th published one, and those indices are close. */
  predicate Matches<D(==)>(read: seq<D>, k: nat, published: seq<D>, m: nat, slack: int) {
    k <= m <= k + 1 + slack && m < |published| && k < |read| && read[k] == published[m]
  }

  ghost predicate Found<D>(read: seq<D>, k: nat, published: seq<D>, slack: int) {
    exists m: nat :: Matches(read, k, published, m, slack)
  }

  ghost predicate InWindow<D>(read: seq<D>, published: seq<D>, slack: int) {
    forall k: nat :: k < |read| ==> Found(read, k, published, slack)
  }

  ghost predicate Inv<D>(s: State<D>) {
    && Shaped(s) && B.Safe(s.barrier)
    && SideInv(s, 0) && SideInv(s, 1)
    && InWindow(s.loaded[0], s.published[1], Failed(s.barrier, 1))
    && InWindow(s.loaded[1], s.published[0], Failed(s.barrier, 0))
  }

  lemma WindowGrows<D>(read: seq<D>, published: seq<D>, slack: int, published': seq<D>, slack': int)
    requires InWindow(read, published, slack) && published <= published' && slack <= slack'
    ensures InWindow(read, published', slack')
  {
    forall k: nat | k < |read| ensures Found(read, k, published', slack') {
      assert Found(read, k, published, slack);
      var m: nat :| Matches(read, k, published, m, slack);
      assert Matches(read, k, published', m, slack');
    }
  }

  lemma ReadIsInWindow<D>(s: State<D>, i: nat)
    requires Inv(s) && i < 2 && s.phase[i].MustRead?
    ensures InWindow(s.loaded[i] + [s.slot[1 - i]], s.published[1 - i], Failed(s.barrier, 1 - i))
  {
    var k := |s.loaded[i]|;
    var p := s.published[1 - i];
    var read := s.loaded[i] + [s.slot[1 - i]];
    PassedIsArrived(s.barrier, i, 1 - i);
    var slack := Failed(s.barrier, 1 - i);
    forall j: nat | j < |read| ensures Found(read, j, p, slack) {
      if j == k {
        assert Matches(read, j, p, |p| - 1, slack);
      } else {
        assert Found(s.loaded[i], j, p, slack);
        var m: nat :| Matches(s.loaded[i], j, p, m, slack);
        assert Matches(read, j, p, m, slack);
      }
    }
  }

  /** A pass of one side needs an arrival of the other. */
  lemma PassedIsArrived(b: B.System, t: nat, u: nat)
    requires B.Safe(b) && t < |b.threads| && u < |b.threads| && b.threads[t].Idle?
    ensures b.passed[t] <= b.arrived[u]
    ensures B.Active(b) ==> b.passed[u] <= b.passed[t]
  {
  }

  lemma MeetKeepsInv<D>(s: State<D>, e: B.Event)
    requires Inv(s) && Enabled(s, Meet(e)) && !e.Reset?
    ensures Inv(Step(s, Meet(e)))
  {
    var s' := Step(s, Meet(e));
    B.StepKeepsSafe(s.barrier, e);
    MeetSide(s, e, 0);
    MeetSide(s, e, 1);
    WindowGrows(s.loaded[0], s.published[1], Failed(s.barrier, 1), s'.published[1], Failed(s'.barrier, 1));
    WindowGrows(s.loaded[1], s.published[0], Failed(s.barrier, 0), s'.published[0], Failed(s'.barrier, 0));
  }

  ghost predicate Owns(e: B.Event, u: nat) { (e.Enter? || e.Check?) && e.t == u }

  /** One lock region seen from one thread: only its own call changes its counts, and a call
      that ends while the barrier is not canceled counts as passed. */
  ghost predicate ThreadMoves(b: B.System, e: B.Event, u: nat, b': B.System)
    requires u < |b.threads| == |b.arrived| == |b.passed|
    requires u < |b'.threads| == |b'.arrived| == |b'.passed|
  {
    && (!Owns(e, u) ==> b'.arrived[u] == b.arrived[u] && b'.passed[u] == b.passed[u]
                        && (b'.threads[u].Idle? <==> b.threads[u].Idle?))
    && (Owns(e, u) ==> b'.arrived[u] == b.arrived[u] + Bit(e.Enter?)
                       && b'.passed[u] == b.passed[u] + Bit(b'.threads[u].Idle? && !b.b.canceled))
  }

  lemma ThreadAfter(b: B.System, e: B.Event, u: nat)
    requires B.Safe(b) && B.Enabled(b, e) && !e.Reset? && u < |b.threads|
    ensures ThreadMoves(b, e, u, B.Step(b, e))
  {
  }

  /** The phase after a lock region of the barrier. */
  ghost predicate PhaseMoves<D>(s: State<D>, e: B.Event, i: nat, s': State<D>)
    requires Shaped(s) && Shaped(s') && i < 2
  {
    && s'.published == s.published && s'.slot == s.slot && s'.loaded == s.loaded
    && s'.phase[i] == if Owns(e, i) then PhaseAfter(s.barrier, s'.barrier, i) else s.phase[i]
  }

  lemma MeetPhase<D>(s: State<D>, e: B.Event, i: nat)
    requires Shaped(s) && Enabled(s, Meet(e)) && !e.Reset? && i < 2
    requires B.Shaped(B.Step(s.barrier, e)) && |B.Step(s.barrier, e).threads| == 2
    ensures var s' := Step(s, Meet(e));
            Shaped(s') && s'.barrier == B.Step(s.barrier, e) && PhaseMoves(s, e, i, s')
  {
  }

  /** A thread outside `wait` has passed as often as any other, if it had where passes are frozen. */
  lemma PassedAtMost(b: B.System, e: B.Event, i: nat, u: nat)
    requires B.Safe(b) && B.Enabled(b, e) && !e.Reset? && i < |b.threads| && u < |b.threads|
    requires b.b.canceled || e.Cancel? ==> b.passed[u] <= b.passed[i]
    ensures B.Safe(B.Step(b, e)) && |B.Step(b, e).threads| == |b.threads|
    ensures var b' := B.Step(b, e); b'.threads[i].Idle? ==> b'.passed[u] <= b'.passed[i]
  {
    B.StepKeepsSafe(b, e);
    var b' := B.Step(b, e);
    if b.b.canceled {
      B.StepKeepsCanceled(b, e);
    } else if !e.Cancel? && b'.threads[i].Idle? {
      PassedIsArrived(b', i, u);
    }
  }

  lemma MustReadReason<D>(s: State<D>, e: B.Event, i: nat, s': State<D>)
    requires Shaped(s) && Shaped(s') && i < 2 && SideInv(s, i) && s'.phase[i].MustRead?
    requires PhaseMoves(s, e, i, s') && ThreadMoves(s.barrier, e, i, s'.barrier)
    ensures s'.barrier.threads[i].Idle?
    ensures s.barrier.b.canceled || e.Cancel? ==> s.barrier.passed[1 - i] <= s.barrier.passed[i]
  {
    if !Owns(e, i) { assert s.phase[i].MustRead?; }
  }

  lemma MeetMustRead<D>(s: State<D>, e: B.Event, i: nat, s': State<D>)
    requires Shaped(s) && Shaped(s') && i < 2 && B.Safe(s.barrier) && SideInv(s, i)
    requires B.Enabled(s.barrier, e) && !e.Reset? && s'.barrier == B.Step(s.barrier, e)
    requires PhaseMoves(s, e, i, s') && ThreadMoves(s.barrier, e, i, s'.barrier)
    ensures s'.phase[i].MustRead? ==> s'.barrier.passed[1 - i] <= s'.barrier.passed[i]
  {
    if s'.phase[i].MustRead? {
      MustReadReason(s, e, i, s');
      PassedAtMost(s.barrier, e, i, 1 - i);
    }
  }

  lemma AccountsKept<D>(s: State<D>, e: B.Event, i: nat, s': State<D>)
    requires Shaped(s) && Shaped(s') && i < 2 && SideInv(s, i)
    requires PhaseMoves(s, e, i, s') && ThreadMoves(s.barrier, e, i, s'.barrier)
    requires Owns(e, i) ==> (e.Enter? ==> s.phase[i].Published?) && (e.Check? ==> s.phase[i].Waiting?)
    requires s'.phase[i].MustRead? ==> s'.barrier.passed[1 - i] <= s'.barrier.passed[i]
    ensures SideInv(s', i) && Failed(s.barrier, i) <= Failed(s'.barrier, i)
  {
  }

  lemma OwnerPhase<D>(s: State<D>, e: B.Event, i: nat)
    requires Shaped(s) && i < 2 && SideInv(s, i) && Enabled(s, Meet(e))
    ensures Owns(e, i) ==> (e.Enter? ==> s.phase[i].Published?) && (e.Check? ==> s.phase[i].Waiting?)
  {
  }

  lemma MeetSide<D>(s: State<D>, e: B.Event, i: nat)
    requires Shaped(s) && i < 2 && B.Safe(s.barrier) && SideInv(s, i)
    requires Enabled(s, Meet(e)) && !e.Reset?
    ensures Shaped(Step(s, Meet(e))) && SideInv(Step(s, Meet(e)), i)
    ensures Failed(s.barrier, i) <= Failed(B.Step(s.barrier, e), i)
  {
    B.StepKeepsSafe(s.barrier, e);
    MeetPhase(s, e, i);
    ThreadAfter(s.barrier, e, i);
    var s' := Step(s, Meet(e));
    MeetMustRead(s, e, i, s');
    OwnerPhase(s, e, i);
    AccountsKept(s, e, i, s');
  }

  lemma PublishSides<D>(s: State<D>, i: nat, data: D)
    requires Shaped(s) && i < 2 && SideInv(s, 0) && SideInv(s, 1) && s.phase[i].Computing?
    ensures var s' := Step(s, Publish(i, data));
            && Shaped(s') && s'.barrier == s.barrier && s'.loaded == s.loaded
            && SideInv(s', i) && SideInv(s', 1 - i)
            && s.published[i] <= s'.published[i] && s.published[1 - i] == s'.published[1 - i]
  {
  }

  lemma PublishKeepsInv<D>(s: State<D>, i: nat, data: D)
    requires Inv(s) && Enabled(s, Publish(i, data))
    ensures Inv(Step(s, Publish(i, data)))
  {
    PublishSides(s, i, data);
    var s' := Step(s, Publish(i, data));
    var slack := Failed(s.barrier, i);
    WindowGrows(s.loaded[1 - i], s.published[i], slack, s'.published[i], slack);
  }

  lemma ReadKeepsInv<D>(s: State<D>, i: nat)
    requires Inv(s) && Enabled(s, Event<D>.Read(i))
    ensures Inv(Step(s, Read(i)))
  {
    ReadIsInWindow(s, i);
  }

  lemma ResetKeepsInv<D>(s: State<D>)
    requires Inv(s) && Enabled(s, Event<D>.Meet(B.Reset))
    ensures Inv(Step(s, Meet(B.Reset)))
  {
    B.StepKeepsSafe(s.barrier, B.Reset);
  }

  lemma StepKeepsInv<D>(s: State<D>, e: Event<D>)
    requires Inv(s) && Enabled(s, e)
    ensures Inv(Step(s, e))
  {
    match e
    case Publish(i, data) => PublishKeepsInv(s, i, data);
    case Read(i) => ReadKeepsInv(s, i);
    case Meet(b) => if b.Reset? { ResetKeepsInv(s); } else { MeetKeepsInv(s, b); }
  }

  ghost predicate EnabledRun<D>(s: State<D>, es: seq<Event<D>>)
    decreases |es|
  {
    Shaped(s) && (es != [] ==> Enabled(s, es[0]) && EnabledRun(Step(s, es[0]), es[1..]))
  }

  function Run<D>(s: State<D>, es: seq<Event<D>>): State<D>
    requires EnabledRun(s, es)
    decreases |es|
  {
    if es == [] then s else Run(Step(s, es[0]), es[1..])
  }

  function Start<D>(slot: seq<D>): State<D> {
    State(B.Start(2), [Computing, Computing], slot, [[], []], [[], []])
  }

  /** In every interleaving, the k-th snapshot a side loads is its peer's k-th or (k+1)-th,
      plus at most one more for every wait of the peer that a cancellation ended with false. */
  lemma {:induction false} BoundedSkew<D>(s: State<D>, es: seq<Event<D>>)
    requires Inv(s) && EnabledRun(s, es)
    ensures Inv(Run(s, es))
    decreases |es|
  {
    if es != [] {
      StepKeepsInv(s, es[0]);
      BoundedSkew(Step(s, es[0]), es[1..]);
    }
  }

  lemma StartKeepsInv<D>(slot: seq<D>)
    requires |slot| == 2
    ensures Inv(Start(slot))
  {
    B.StartIsActive(2);
  }

  lemma NoneFailed(b: B.System, i: nat)
    requires B.Active(b) && i < |b.threads|
    ensures Failed(b, i) == 0
  {
  }

  lemma ActiveSkew<D>(s: State<D>)
    requires Inv(s) && !s.barrier.b.canceled
    ensures Failed(s.barrier, 0) == Failed(s.barrier, 1) == 0
    ensures InWindow(s.loaded[0], s.published[1], 0) && InWindow(s.loaded[1], s.published[0], 0)
  {
    assert B.Active(s.barrier);
    NoneFailed(s.barrier, 0);
    NoneFailed(s.barrier, 1);
  }

  /** Every run from the start, resets included: whenever the barrier is not canceled no wait since
      the last reset has failed, so the snapshot is exactly the k-th or the (k+1)-th. */
  lemma SkewWithoutCancel<D>(slot: seq<D>, es: seq<Event<D>>)
    requires |slot| == 2 && EnabledRun(Start(slot), es) && !Run(Start(slot), es).barrier.b.canceled
    ensures var s := Run(Start(slot), es);
            && Shaped(s) && Failed(s.barrier, 0) == Failed(s.barrier, 1) == 0
            && InWindow(s.loaded[0], s.published[1], 0) && InWindow(s.loaded[1], s.published[0], 0)
  {
    StartKeepsInv(slot);
    BoundedSkew(Start(slot), es);
    ActiveSkew(Run(Start(slot), es));
  }

  // ---- both ends of the window occur ---------------------------------------------------------

  lemma {:induction false} RunConcat<D>(s: State<D>, a: seq<Event<D>>, b: seq<Event<D>>)
    requires EnabledRun(s, a) && EnabledRun(Run(s, a), b)
    ensures EnabledRun(s, a + b) && Run(s, a + b) == Run(Run(s, a), b)
    decreases |a|
  {
    if a == [] {
      assert a + b == b;
    } else {
      assert (a + b)[1..] == a[1..] + b;
      RunConcat(Step(s, a[0]), a[1..], b);
    }
  }

  /** Both sides have published, nobody has arrived yet. */
  function BothPublished(): State<int> {
    State(B.Start(2), [Published, Published], [10, 20], [[10], [20]], [[], []])
  }

  /** Both sides have published and met; side 1 left the barrier first, side 0 right after. */
  function Met(): State<int> {
    State(B.System(C.Counters(2, 1, 0, 0, false, false), [B.Idle, B.Idle], [1, 1], [1, 1]),
          [MustRead, MustRead], [10, 20], [[10], [20]], [[], []])
  }

  const PUBLISHING: seq<Event<int>> := [Publish(0, 10), Publish(1, 20)]
  const MEETING: seq<Event<int>> := [Meet(B.Enter(0)), Meet(B.Enter(1)), Meet(B.Check(0))]

  lemma PublishBoth()
    ensures EnabledRun(Start([0, 0]), PUBLISHING) && Run(Start([0, 0]), PUBLISHING) == BothPublished()
  {
    var s1 := Step(Start([0, 0]), Publish(0, 10));
    assert s1.published == [[10], []] by { assert s1.published[0] == [10]; }
    var s2 := Step(s1, Publish(1, 20));
    assert s2.published == [[10], [20]] by { assert s2.published[1] == [20]; }
    assert PUBLISHING[1..] == [Publish(1, 20)] && PUBLISHING[1..][1..] == [];
  }

  lemma MeetBoth()
    ensures EnabledRun(BothPublished(), MEETING) && Run(BothPublished(), MEETING) == Met()
  {
  }

  lemma ReachMet()
    ensures var es := PUBLISHING + MEETING;
            EnabledRun(Start([0, 0]), es) && Run(Start([0, 0]), es) == Met()
  {
    PublishBoth();
    MeetBoth();
    RunConcat(Start([0, 0]), PUBLISHING, MEETING);
  }

  /** The run loads snapshot `m` of side 0 as the first snapshot of side 1. */
  ghost predicate FirstLoaded(es: seq<Event<int>>, m: nat) {
    && EnabledRun(Start([0, 0]), es)
    && var s := Run(Start([0, 0]), es);
    Shaped(s) && m < |s.published[0]| && s.loaded[1] == [s.published[0][m]]
    && forall i, j :: 0 <= i < j < |s.published[0]| ==> s.published[0][i] != s.published[0][j]
  }

  lemma ReadEarly()
    ensures FirstLoaded(PUBLISHING + MEETING + [Read(1)], 0)
  {
    ReachMet();
    var es: seq<Event<int>> := [Read(1)];
    assert es[1..] == [];
    RunConcat(Start([0, 0]), PUBLISHING + MEETING, es);
  }

  /** Side 0 has read and published again, side 1 has not read yet. */
  function PublishedAgain(): State<int> {
    Met().(phase := [Published, MustRead], slot := [11, 20], published := [[10, 11], [20]], loaded := [[20], []])
  }

  lemma PublishAgain()
    ensures var es := [Read(0), Publish(0, 11)];
            EnabledRun(Met(), es) && Run(Met(), es) == PublishedAgain()
  {
    var es: seq<Event<int>> := [Read(0), Publish(0, 11)];
    assert es[1..] == [Publish(0, 11)] && es[1..][1..] == [];
    var s2 := Step(Step(Met(), Read(0)), Publish(0, 11));
    assert s2.published == [[10, 11], [20]] by { assert s2.published[0] == [10, 11]; }
    assert s2.loaded == [[20], []] by { assert s2.loaded[0] == [20]; }
  }

  lemma ReadAgain()
    ensures EnabledRun(PublishedAgain(), [Read(1)])
    ensures var s := Run(PublishedAgain(), [Read(1)]);
            s.published == PublishedAgain().published && s.loaded == [[20], [11]]
  {
    var es: seq<Event<int>> := [Read(1)];
    assert es[1..] == [];
    assert Step(PublishedAgain(), Read(1)).loaded[1] == [11];
  }

  lemma ReadLate()
    ensures FirstLoaded(PUBLISHING + MEETING + [Read(0), Publish(0, 11)] + [Read(1)], 1)
  {
    ReachMet();
    PublishAgain();
    ReadAgain();
    var start, met: seq<Event<int>> := Start([0, 0]), PUBLISHING + MEETING;
    RunConcat(start, met, [Read(0), Publish(0, 11)]);
    RunConcat(start, met + [Read(0), Publish(0, 11)], [Read(1)]);
  }

  /** Both ends of the window occur in runs from the start: side 1 loads side 0's snapshot 0 when it
      reads at once, and its snapshot 1 when side 0 reads and publishes again first. */
  lemma WindowIsTight()
    ensures exists es :: FirstLoaded(es, 0)
    ensures exists es :: FirstLoaded(es, 1)
  {
    ReadEarly();
    ReadLate();
  }
}
