module Options {
  datatype Option<+T> = None | Some(value: T)
}

/** The ordered event queue of the scheduler: `Schedule::operator<`, the erase by
    identifier scan, and the ordered insertion. */
module ScheduleQueue {
  import opened Options

  const PARKED: int := -1
  const IMMEDIATE: int := -2

  /** Entry points are opaque to the kernel, except the two the simulator schedules itself. */
  datatype EntryPoint = Start | Stop | User(name: nat)

  datatype Entry = Entry(id: nat, ep: EntryPoint, time: int, period: int, repeat: int)

  predicate Less(a: Entry, b: Entry) {
    if a.time != b.time then
      (a.time != PARKED && a.time < b.time) || b.time == PARKED
    else
      a.id < b.id
  }

  ghost predicate Sorted(q: seq<Entry>) {
    forall i, j :: 0 <= i < j < |q| ==> Less(q[i], q[j])
  }

  ghost predicate DistinctIds(q: seq<Entry>) {
    forall x, y :: x in q && y in q && x.id == y.id ==> x == y
  }

  ghost predicate Queued(q: seq<Entry>, id: nat) {
    exists x :: x in q && x.id == id
  }

  function Find(q: seq<Entry>, id: nat): (r: Option<Entry>)
    ensures r.Some? ==> r.value in q && r.value.id == id
    ensures r.None? ==> !Queued(q, id)
  {
    if q == [] then None
    else if q[0].id == id then Some(q[0])
    else Find(q[1..], id)
  }

  /** Erases the first element carrying the identifier. */
  function Erase(q: seq<Entry>, id: nat): seq<Entry> {
    if q == [] then []
    else if q[0].id == id then q[1..]
    else [q[0]] + Erase(q[1..], id)
  }

  /** Insertion of an ordered multiset. */
  function Insert(q: seq<Entry>, e: Entry): seq<Entry> {
    if q == [] || Less(e, q[0]) then [e] + q
    else [q[0]] + Insert(q[1..], e)
  }

  /** `Scheduler::schedule(Schedule*)`: drop the old position, insert at the new one. */
  function Reinsert(q: seq<Entry>, e: Entry): seq<Entry> {
    Insert(Erase(q, e.id), e)
  }

  /** An attribute other than the key changes without moving the element. */
  function Replace(q: seq<Entry>, e: Entry): (r: seq<Entry>)
    ensures |r| == |q|
    ensures forall i :: 0 <= i < |q| ==> r[i] == if q[i].id == e.id then e else q[i]
  {
    seq(|q|, i requires 0 <= i < |q| => if q[i].id == e.id then e else q[i])
  }

  // ---- the order ---------------------------------------------------------

  /** The documented order: immediate first, then by time, parked last, then by identifier. */
  function Rank(e: Entry): (int, int) {
    (if e.time == PARKED then 1 else 0, e.time)
  }

  lemma LessIsDocumentedOrder(a: Entry, b: Entry)
    ensures Less(a, b) <==>
              || Rank(a).0 < Rank(b).0
              || (Rank(a).0 == Rank(b).0 && Rank(a).1 < Rank(b).1)
              || (Rank(a) == Rank(b) && a.id < b.id)
  {
  }

  lemma LessTransitive(a: Entry, b: Entry, c: Entry)
    requires Less(a, b) && Less(b, c)
    ensures Less(a, c)
  {
  }

  lemma LessTotal(a: Entry, b: Entry)
    ensures !Less(a, a)
    ensures !(Less(a, b) && Less(b, a))
    ensures a.id != b.id ==> Less(a, b) || Less(b, a)
  {
  }

  // ---- erase and insert ----------------------------------------------------

  lemma SortedTail(q: seq<Entry>)
    requires Sorted(q) && DistinctIds(q) && q != []
    ensures Sorted(q[1..]) && DistinctIds(q[1..])
    ensures forall x :: x in q[1..] ==> Less(q[0], x) && x.id != q[0].id
    ensures forall x :: x in q <==> x == q[0] || x in q[1..]
  {
    assert q == [q[0]] + q[1..];
    forall x | x in q[1..] ensures Less(q[0], x) && x.id != q[0].id {
      var i :| 0 <= i < |q[1..]| && q[1..][i] == x;
      assert Less(q[0], q[i + 1]);
      LessTotal(x, x);
    }
  }

  lemma SortedCons(e: Entry, q: seq<Entry>)
    requires Sorted(q) && DistinctIds(q)
    requires forall x :: x in q ==> Less(e, x) && x.id != e.id
    ensures Sorted([e] + q) && DistinctIds([e] + q)
    ensures forall x :: x in [e] + q <==> x == e || x in q
  {
  }

  lemma {:induction false} EraseMembers(q: seq<Entry>, id: nat)
    requires Sorted(q) && DistinctIds(q)
    ensures Sorted(Erase(q, id)) && DistinctIds(Erase(q, id))
    ensures forall x :: x in Erase(q, id) <==> x in q && x.id != id
    ensures |Erase(q, id)| == |q| - (if Queued(q, id) then 1 else 0)
  {
    if q == [] {
    } else {
      SortedTail(q);
      if q[0].id == id {
        assert q[0] in q;
      } else {
        EraseMembers(q[1..], id);
        SortedCons(q[0], Erase(q[1..], id));
        assert Queued(q, id) <==> Queued(q[1..], id);
      }
    }
  }

  lemma {:induction false} InsertMembers(q: seq<Entry>, e: Entry)
    requires Sorted(q) && DistinctIds(q) && !Queued(q, e.id)
    ensures Sorted(Insert(q, e)) && DistinctIds(Insert(q, e))
    ensures forall x :: x in Insert(q, e) <==> x == e || x in q
    ensures |Insert(q, e)| == |q| + 1
  {
    if q == [] {
    } else {
      SortedTail(q);
      assert q[0].id != e.id && !Queued(q[1..], e.id);
      if Less(e, q[0]) {
        forall x | x in q ensures Less(e, x) {
          if x != q[0] { LessTransitive(e, q[0], x); }
        }
        SortedCons(e, q);
      } else {
        InsertMembers(q[1..], e);
        LessTotal(e, q[0]);
        SortedCons(q[0], Insert(q[1..], e));
      }
    }
  }

  /** Re-keying: the queue stays sorted, keeps each identifier at most once, and as a
      set of entries is the old one with the entry of that identifier overwritten. */
  lemma ReinsertMembers(q: seq<Entry>, e: Entry)
    requires Sorted(q) && DistinctIds(q)
    ensures Sorted(Reinsert(q, e)) && DistinctIds(Reinsert(q, e))
    ensures forall x :: x in Reinsert(q, e) <==> x == e || (x in q && x.id != e.id)
    ensures |Reinsert(q, e)| == |q| + (if Queued(q, e.id) then 0 else 1)
  {
    EraseMembers(q, e.id);
    InsertMembers(Erase(q, e.id), e);
  }

  lemma NonEmpty(q: seq<Entry>)
    ensures q != [] ==> exists x :: x in q
  {
    if q != [] {
      assert q[0] in q;
    }
  }

  /** Two sorted queues with the same elements are the same queue. */
  lemma {:induction false} SortedUnique(p: seq<Entry>, q: seq<Entry>)
    requires Sorted(p) && Sorted(q)
    requires forall x :: x in p <==> x in q
    ensures p == q
  {
    if p == [] || q == [] {
      NonEmpty(p);
      NonEmpty(q);
    } else {
      assert p[0] in p && q[0] in q;
      var i :| 0 <= i < |q| && q[i] == p[0];
      var j :| 0 <= j < |p| && p[j] == q[0];
      assert i > 0 ==> Less(q[0], p[0]);
      assert j > 0 ==> Less(p[0], q[0]);
      LessTotal(p[0], q[0]);
      assert p[0] == q[0];
      assert p == [p[0]] + p[1..] && q == [q[0]] + q[1..];
      forall x ensures x in p[1..] <==> x in q[1..] {
        if x in p[1..] {
          var m :| 0 <= m < |p[1..]| && p[1..][m] == x;
          assert Less(p[0], p[m + 1]);
          assert x in p && x in q;
          LessTotal(x, x);
        }
        if x in q[1..] {
          var m :| 0 <= m < |q[1..]| && q[1..][m] == x;
          assert Less(q[0], q[m + 1]);
          assert x in q && x in p;
          LessTotal(x, x);
        }
      }
      SortedUnique(p[1..], q[1..]);
    }
  }

  /** The second `schedule` call of `schedule(event, time)` changes nothing. */
  lemma ReinsertTwice(q: seq<Entry>, e: Entry)
    requires Sorted(q) && DistinctIds(q)
    ensures Reinsert(Reinsert(q, e), e) == Reinsert(q, e)
  {
    ReinsertMembers(q, e);
    ReinsertMembers(Reinsert(q, e), e);
    SortedUnique(Reinsert(Reinsert(q, e), e), Reinsert(q, e));
  }

  /** As a map from identifier to entry: find after re-keying. */
  lemma FindAfterReinsert(q: seq<Entry>, e: Entry, id: nat)
    requires Sorted(q) && DistinctIds(q)
    ensures Find(Reinsert(q, e), id) == if id == e.id then Some(e) else Find(q, id)
  {
    ReinsertMembers(q, e);
    var r := Reinsert(q, e);
    assert e in r;
    match Find(q, id)
    case None =>
    case Some(x) => if id != e.id { assert x in r; }
  }

  /** The head is the least queued entry: the queue's min query. */
  lemma HeadIsLeast(q: seq<Entry>, x: Entry)
    requires Sorted(q) && x in q
    ensures x == q[0] || Less(q[0], x)
  {
  }

  lemma ReplaceMembers(q: seq<Entry>, e: Entry)
    requires Sorted(q) && DistinctIds(q)
    requires forall x :: x in q && x.id == e.id ==> x.time == e.time
    ensures Sorted(Replace(q, e)) && DistinctIds(Replace(q, e))
    ensures forall x :: x in Replace(q, e) <==>
              (x == e && Queued(q, e.id)) || (x in q && x.id != e.id)
  {
  }
}
