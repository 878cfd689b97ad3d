/** The order of the FMI value references: fields compared by their place in the object tree. */
module FieldOrder {
  import opened Options

  /** An object with its ancestors; `id` tells apart objects that look alike. */
  datatype Object = Object(id: nat, name: string, parent: Option<Object>)

  /** From the root down to the object itself. */
  function Chain(o: Object): (r: seq<Object>)
    ensures r != [] && r[|r| - 1] == o
    decreases o
  {
    if o.parent.None? then [o] else Chain(o.parent.value) + [o]
  }

  /** Byte-wise order of names. */
  predicate NameLess(s: string, t: string) {
    if t == "" then false
    else if s == "" then true
    else if s[0] == t[0] then NameLess(s[1..], t[1..])
    else s[0] < t[0]
  }

  /** The answer for two chains: equal objects are skipped while both chains go on. */
  predicate ChainLess(a: seq<Object>, b: seq<Object>)
    requires a != [] && b != []
    decreases |a|
  {
    if |a| > 1 && |b| > 1 && a[0] == b[0] then ChainLess(a[1..], b[1..])
    else if |a| == 1 && |b| > 1 then true
    else if |a| > 1 && |b| == 1 then false
    else NameLess(a[0].name, b[0].name)
  }

  predicate Less(a: Object, b: Object) { ChainLess(Chain(a), Chain(b)) }

  // ---- the comparison as it is written -----------------------------------------------------

  /** A hierarchy as the loop collects it, the object first and the root last. */
  function Hierarchy(o: Object): (r: seq<Object>)
    ensures r != []
    decreases o
  {
    if o.parent.None? then [o] else [o] + Hierarchy(o.parent.value)
  }

  lemma {:induction false} HierarchyIsReversed(o: Object)
    ensures |Hierarchy(o)| == |Chain(o)|
    ensures forall i :: 0 <= i < |Chain(o)| ==> Hierarchy(o)[i] == Chain(o)[|Chain(o)| - 1 - i]
    decreases o
  {
    if o.parent.Some? { HierarchyIsReversed(o.parent.value); }
  }

  method Climb(o: Object) returns (r: seq<Object>)
    ensures r == Hierarchy(o)
  {
    r := [];
    var p := Some(o);
    while p.Some?
      invariant p.Some? ==> Hierarchy(o) == r + Hierarchy(p.value)
      invariant p.None? ==> Hierarchy(o) == r
      decreases p
    {
      var q := p.value;
      assert q.parent.Some? ==> r + ([q] + Hierarchy(q.parent.value)) == r + [q] + Hierarchy(q.parent.value);
      r := r + [q];
      p := q.parent;
    }
  }

  /** The comparison from two positions in the hierarchies downwards. */
  predicate Below(a: seq<Object>, ia: nat, b: seq<Object>, ib: nat)
    requires ia < |a| && ib < |b|
    decreases ia
  {
    if ia != 0 && ib != 0 && a[ia] == b[ib] then Below(a, ia - 1, b, ib - 1)
    else if ia == 0 && ib != 0 then true
    else if ia != 0 && ib == 0 then false
    else NameLess(a[ia].name, b[ib].name)
  }

  predicate Reversed(h: seq<Object>, c: seq<Object>) {
    |h| == |c| && forall i :: 0 <= i < |c| ==> h[i] == c[|c| - 1 - i]
  }

  /** A position in a hierarchy is the start of a tail of the chain. */
  lemma {:induction false} BelowIsChainLess(a: seq<Object>, ia: nat, c: seq<Object>,
                                           b: seq<Object>, ib: nat, d: seq<Object>)
    requires Reversed(a, c) && Reversed(b, d) && ia < |a| && ib < |b|
    ensures Below(a, ia, b, ib) == ChainLess(c[|c| - 1 - ia..], d[|d| - 1 - ib..])
    decreases ia
  {
    var x, y := c[|c| - 1 - ia..], d[|d| - 1 - ib..];
    assert x[0] == a[ia] && y[0] == b[ib];
    if ia != 0 && ib != 0 {
      assert x[1..] == c[|c| - ia..] && y[1..] == d[|d| - ib..];
      BelowIsChainLess(a, ia - 1, c, b, ib - 1, d);
    }
  }

  lemma LessIsBelow(a: Object, b: Object)
    ensures Less(a, b) == Below(Hierarchy(a), |Hierarchy(a)| - 1, Hierarchy(b), |Hierarchy(b)| - 1)
  {
    HierarchyIsReversed(a);
    HierarchyIsReversed(b);
    BelowIsChainLess(Hierarchy(a), |Chain(a)| - 1, Chain(a), Hierarchy(b), |Chain(b)| - 1, Chain(b));
    assert Chain(a)[0..] == Chain(a) && Chain(b)[0..] == Chain(b);
  }

  method CompareFields(a: Object, b: Object) returns (less: bool)
    ensures less == Less(a, b)
  {
    var aHiera := Climb(a);
    var bHiera := Climb(b);
    var ia, ib := |aHiera| - 1, |bHiera| - 1;
    LessIsBelow(a, b);
    while ia != 0 && ib != 0 && aHiera[ia] == bHiera[ib]
      invariant 0 <= ia < |aHiera| && 0 <= ib < |bHiera|
      invariant Less(a, b) == Below(aHiera, ia, bHiera, ib)
      decreases ia
    {
      ia, ib := ia - 1, ib - 1;
    }
    if ia == 0 && ib != 0 { return true; }
    if ia != 0 && ib == 0 { return false; }
    less := NameLess(aHiera[ia].name, bHiera[ib].name);
  }

  // ---- names are totally ordered -----------------------------------------------------------

  lemma {:induction false} NameTotal(s: string, t: string)
    ensures NameLess(s, t) || NameLess(t, s) || s == t
    ensures !(NameLess(s, t) && NameLess(t, s)) && !NameLess(s, s)
    decreases |s|
  {
    if s != "" {
      NameTotal(s[1..], s[1..]);
      if t != "" {
        NameTotal(s[1..], t[1..]);
        assert s == [s[0]] + s[1..] && t == [t[0]] + t[1..];
      }
    }
  }

  lemma {:induction false} NameTransitive(s: string, t: string, u: string)
    requires NameLess(s, t) && NameLess(t, u)
    ensures NameLess(s, u)
    decreases |s|
  {
    if s != "" && s[0] == t[0] == u[0] { NameTransitive(s[1..], t[1..], u[1..]); }
  }

  predicate FirstDifference(s: string, t: string, i: int) {
    0 <= i < |s| && i < |t| && s[..i] == t[..i] && s[i] != t[i]
  }

  /** A name comes before those it begins, and otherwise the first difference decides. */
  lemma {:induction false} NameLessIff(s: string, t: string)
    ensures NameLess(s, t) <==> s < t || exists i :: FirstDifference(s, t, i) && s[i] < t[i]
    decreases |s|
  {
    if s != "" && t != "" {
      if s[0] == t[0] {
        NameLessIff(s[1..], t[1..]);
        ShiftedNames(s, t);
      } else {
        DifferAtOnce(s, t);
      }
    }
  }

  lemma DifferAtOnce(s: string, t: string)
    requires s != "" && t != "" && s[0] != t[0]
    ensures !(s < t) && FirstDifference(s, t, 0)
    ensures forall i :: FirstDifference(s, t, i) ==> i == 0
  {
    forall i | 0 < i <= |s| && i <= |t| ensures s[..i] != t[..i] {
      assert s[..i][0] == s[0] && t[..i][0] == t[0];
    }
  }

  lemma ShiftedNames(s: string, t: string)
    requires s != "" && t != "" && s[0] == t[0]
    ensures s < t <==> s[1..] < t[1..]
    ensures forall i :: FirstDifference(s[1..], t[1..], i) ==> FirstDifference(s, t, i + 1)
    ensures forall i :: FirstDifference(s, t, i) ==> i > 0 && FirstDifference(s[1..], t[1..], i - 1)
  {
    assert s == [s[0]] + s[1..] && t == [t[0]] + t[1..];
    forall i | FirstDifference(s[1..], t[1..], i) ensures FirstDifference(s, t, i + 1) {
      assert s[..i + 1] == [s[0]] + s[1..][..i] && t[..i + 1] == [t[0]] + t[1..][..i];
    }
    forall i | FirstDifference(s, t, i) ensures i > 0 && FirstDifference(s[1..], t[1..], i - 1) {
      assert s[1..][..i - 1] == s[..i][1..] && t[1..][..i - 1] == t[..i][1..];
    }
  }

  // ---- lexicographic order on paths --------------------------------------------------------

  /** One step of a path: whether it goes on below, and its name. */
  datatype Key = Key(inner: bool, name: string)

  predicate KeyLess(p: Key, q: Key) {
    (!p.inner && q.inner) || (p.inner == q.inner && NameLess(p.name, q.name))
  }

  function Path(chain: seq<Object>): (r: seq<Key>)
    ensures |r| == |chain|
  {
    if chain == [] then [] else [Key(|chain| > 1, chain[0].name)] + Path(chain[1..])
  }

  predicate LexLess(p: seq<Key>, q: seq<Key>) {
    if q == [] then false
    else if p == [] then true
    else if p[0] == q[0] then LexLess(p[1..], q[1..])
    else KeyLess(p[0], q[0])
  }

  lemma {:induction false} LexTransitive(p: seq<Key>, q: seq<Key>, r: seq<Key>)
    requires LexLess(p, q) && LexLess(q, r)
    ensures LexLess(p, r)
    decreases |p|
  {
    if p != [] {
      if p[0] == q[0] == r[0] {
        LexTransitive(p[1..], q[1..], r[1..]);
      } else if p[0] != q[0] && q[0] != r[0] {
        KeyTransitive(p[0], q[0], r[0]);
      }
    }
  }

  lemma KeyTransitive(p: Key, q: Key, r: Key)
    requires KeyLess(p, q) && KeyLess(q, r)
    ensures KeyLess(p, r) && p != r
  {
    if p.inner == q.inner == r.inner {
      NameTransitive(p.name, q.name, r.name);
      NameTotal(p.name, r.name);
    }
  }

  lemma {:induction false} LexTotal(p: seq<Key>, q: seq<Key>)
    ensures LexLess(p, q) || LexLess(q, p) || p == q
    ensures !(LexLess(p, q) && LexLess(q, p)) && !LexLess(p, p)
    decreases |p|
  {
    if p != [] {
      LexTotal(p[1..], p[1..]);
      if q != [] {
        NameTotal(p[0].name, q[0].name);
        LexTotal(p[1..], q[1..]);
        assert p == [p[0]] + p[1..] && q == [q[0]] + q[1..];
      }
    }
  }

  // ---- exactly when two fields are told apart ----------------------------------------------

  /** Where the chains part, two different objects of one name, both last or both followed by more. */
  predicate Clash(a: seq<Object>, b: seq<Object>)
    requires a != [] && b != []
    decreases |a|
  {
    if |a| > 1 && |b| > 1 && a[0] == b[0] then Clash(a[1..], b[1..])
    else (|a| == 1) == (|b| == 1) && a[0].name == b[0].name && a[0] != b[0]
  }

  lemma {:induction false} ToldApartIff(a: seq<Object>, b: seq<Object>)
    requires a != [] && b != []
    ensures ChainLess(a, b) || ChainLess(b, a) || a == b <==> !Clash(a, b)
    ensures !(ChainLess(a, b) && ChainLess(b, a))
    decreases |a|
  {
    if |a| > 1 && |b| > 1 && a[0] == b[0] {
      ToldApartIff(a[1..], b[1..]);
      assert a == [a[0]] + a[1..] && b == [b[0]] + b[1..];
    } else {
      NameTotal(a[0].name, b[0].name);
      if |a| == 1 && |b| == 1 { assert a == [a[0]] && b == [b[0]]; }
    }
  }

  lemma {:induction false} NoClashIsLexicographic(a: seq<Object>, b: seq<Object>)
    requires a != [] && b != [] && !Clash(a, b)
    ensures ChainLess(a, b) == LexLess(Path(a), Path(b))
    ensures Path(a) == Path(b) ==> a == b
    decreases |a|
  {
    if |a| > 1 && |b| > 1 && a[0] == b[0] {
      NoClashIsLexicographic(a[1..], b[1..]);
      assert Path(a)[1..] == Path(a[1..]) && Path(b)[1..] == Path(b[1..]);
      assert a == [a[0]] + a[1..] && b == [b[0]] + b[1..];
    } else {
      assert Path(a)[0] == Key(|a| > 1, a[0].name) && Path(b)[0] == Key(|b| > 1, b[0].name);
      NameTotal(a[0].name, b[0].name);
      if |a| == 1 && |b| == 1 {
        assert a == [a[0]] && b == [b[0]];
        assert Path(a)[1..] == Path(b)[1..] == [];
      }
    }
  }

  // ---- trees with distinct sibling names ---------------------------------------------------

  /** With every object its parent, and no two siblings of one name. */
  predicate Tree(objects: set<Object>) {
    && (forall o :: o in objects && o.parent.Some? ==> o.parent.value in objects)
    && (forall x, y :: x in objects && y in objects && x.parent == y.parent && x.name == y.name ==> x == y)
  }

  /** A line of descent: from a root, each the child of the one before. */
  ghost predicate Line(c: seq<Object>, objects: set<Object>) {
    && c != [] && (forall x :: x in c ==> x in objects) && c[0].parent.None?
    && forall i :: 0 < i < |c| ==> c[i].parent == Some(c[i - 1])
  }

  lemma {:induction false} ChainInTree(o: Object, objects: set<Object>)
    requires o in objects && Tree(objects)
    ensures Line(Chain(o), objects)
    decreases o
  {
    if o.parent.Some? { ChainInTree(o.parent.value, objects); }
  }

  lemma {:induction false} NoClashInTree(a: seq<Object>, b: seq<Object>, objects: set<Object>, k: nat)
    requires Tree(objects) && Line(a, objects) && Line(b, objects)
    requires k < |a| && k < |b| && (k > 0 ==> a[k - 1] == b[k - 1])
    ensures !Clash(a[k..], b[k..])
    decreases |a| - k
  {
    assert a[k] in a && b[k] in b;
    assert a[k].parent == b[k].parent;
    if a[k] == b[k] && k + 1 < |a| && k + 1 < |b| {
      NoClashInTree(a, b, objects, k + 1);
      assert a[k..][1..] == a[k + 1..] && b[k..][1..] == b[k + 1..];
    }
  }

  /** In such a tree the comparison is the lexicographic order of the paths from the root, where
      at each step a field comes before what goes on below, and names decide next. */
  lemma LessIsLexicographic(a: Object, b: Object, objects: set<Object>)
    requires a in objects && b in objects && Tree(objects)
    ensures Less(a, b) == LexLess(Path(Chain(a)), Path(Chain(b)))
    ensures Path(Chain(a)) == Path(Chain(b)) ==> a == b
  {
    ChainInTree(a, objects);
    ChainInTree(b, objects);
    NoClashInTree(Chain(a), Chain(b), objects, 0);
    assert Chain(a)[0..] == Chain(a) && Chain(b)[0..] == Chain(b);
    NoClashIsLexicographic(Chain(a), Chain(b));
  }

  /** Hence a strict total order. */
  lemma LessIsStrictTotal(a: Object, b: Object, c: Object, objects: set<Object>)
    requires a in objects && b in objects && c in objects && Tree(objects)
    ensures !Less(a, a) && !(Less(a, b) && Less(b, a))
    ensures Less(a, b) || Less(b, a) || a == b
    ensures Less(a, b) && Less(b, c) ==> Less(a, c)
  {
    LessIsLexicographic(a, a, objects);
    LessIsLexicographic(a, b, objects);
    LessIsLexicographic(b, a, objects);
    LessIsLexicographic(b, c, objects);
    LessIsLexicographic(a, c, objects);
    LexTotal(Path(Chain(a)), Path(Chain(b)));
    if Less(a, b) && Less(b, c) { LexTransitive(Path(Chain(a)), Path(Chain(b)), Path(Chain(c))); }
  }

  // ---- what comes first --------------------------------------------------------------------

  lemma {:induction false} CommonAncestors(p: seq<Object>, a: seq<Object>, b: seq<Object>)
    requires a != [] && b != []
    ensures ChainLess(p + a, p + b) == ChainLess(a, b)
    decreases |p|
  {
    if p == [] {
      assert p + a == a && p + b == b;
    } else {
      assert (p + a)[1..] == p[1..] + a && (p + b)[1..] == p[1..] + b;
      CommonAncestors(p[1..], a, b);
    }
  }

  /** The ancestors of an object, the root first. */
  function Ancestors(o: Object): seq<Object> {
    if o.parent.None? then [] else Chain(o.parent.value)
  }

  /** `below` are the objects from a child of `x` down to `o`. */
  predicate LeadsTo(x: Object, below: seq<Object>, o: Object) { Chain(o) == Ancestors(x) + [x] + below }

  /** Of two siblings, or of what is below them: a field comes before all that is below another, and
      otherwise the names of the siblings decide. */
  lemma SiblingsDecide(x: Object, a: Object, below: seq<Object>, y: Object, b: Object, beneath: seq<Object>)
    requires x.parent == y.parent && x != y && LeadsTo(x, below, a) && LeadsTo(y, beneath, b)
    ensures Less(a, b) == if below == [] && beneath != [] then true
                          else if below != [] && beneath == [] then false
                          else NameLess(x.name, y.name)
  {
    var p := Ancestors(x);
    assert Chain(a) == p + ([x] + below) && Chain(b) == p + ([y] + beneath);
    CommonAncestors(p, [x] + below, [y] + beneath);
  }

  // ---- the reference table -----------------------------------------------------------------

  /** What sorting with the comparison guarantees. */
  predicate Sorted(fields: seq<Object>) {
    forall i, j :: 0 <= i < j < |fields| ==> !Less(fields[j], fields[i])
  }

  lemma FirstIsLeast(s: seq<Object>, o: Object, objects: set<Object>)
    requires Tree(objects) && s != [] && Sorted(s) && o in s && s[0] in objects && o in objects
    ensures o == s[0] || Less(s[0], o)
  {
    var j :| 0 <= j < |s| && s[j] == o;
    LessIsStrictTotal(s[0], o, s[0], objects);
  }

  lemma RestSorted(s: seq<Object>)
    requires s != [] && Sorted(s)
    ensures Sorted(s[1..]) && multiset(s[1..]) == multiset(s) - multiset{s[0]}
  {
    assert s == [s[0]] + s[1..];
    forall a, b | 0 <= a < b < |s[1..]| ensures !Less(s[1..][b], s[1..][a]) { assert !Less(s[b + 1], s[a + 1]); }
  }

  lemma SameFirst(s: seq<Object>, t: seq<Object>, objects: set<Object>)
    requires Tree(objects) && s != [] && t != [] && s[0] in objects && t[0] in objects
    requires Sorted(s) && Sorted(t) && t[0] in s && s[0] in t
    ensures s[0] == t[0]
  {
    FirstIsLeast(s, t[0], objects);
    FirstIsLeast(t, s[0], objects);
    LessIsStrictTotal(s[0], t[0], s[0], objects);
  }

  /** The table does not depend on the order in which the fields were collected. */
  lemma {:induction false} TableIsCanonical(s: seq<Object>, t: seq<Object>, objects: set<Object>)
    requires Tree(objects) && (forall o :: o in s ==> o in objects)
    requires Sorted(s) && Sorted(t) && multiset(s) == multiset(t)
    ensures s == t
    decreases |s|
  {
    assert |multiset(t)| == |multiset(s)|;
    if s != [] {
      assert s[0] in multiset(t) && t[0] in multiset(s);
      SameFirst(s, t, objects);
      RestSorted(s);
      RestSorted(t);
      TableIsCanonical(s[1..], t[1..], objects);
      assert s == [s[0]] + s[1..] && t == [t[0]] + t[1..];
    }
  }

  /** With two siblings of one name the comparison is not even an order for sorting: each of two
      ordered fields is on a par with a third. */
  lemma EqualSiblingNames(root: Object, x: Object, y: Object, a: Object, b: Object, c: Object)
    requires root.parent.None? && x.parent == y.parent == Some(root) && x != y && x.name == y.name
    requires a.parent == b.parent == Some(x) && c.parent == Some(y) && NameLess(a.name, b.name)
    ensures Less(a, b)
    ensures !Less(a, c) && !Less(c, a) && !Less(b, c) && !Less(c, b)
  {
    ThreeDeep(root, x, a);
    ThreeDeep(root, x, b);
    ThreeDeep(root, y, c);
    NameTotal(x.name, x.name);
    Skip(root, x, a, x, b);
    Skip(root, x, a, y, c);
    Skip(root, y, c, x, a);
    Skip(root, x, b, y, c);
    Skip(root, y, c, x, b);
    assert [x, a][1..] == [a] && [x, b][1..] == [b];
  }

  lemma Skip(root: Object, x: Object, a: Object, y: Object, b: Object)
    ensures ChainLess([root, x, a], [root, y, b]) == ChainLess([x, a], [y, b])
  {
  }

  lemma ThreeDeep(root: Object, x: Object, a: Object)
    requires root.parent.None? && x.parent == Some(root) && a.parent == Some(x)
    ensures Chain(a) == [root, x, a]
  {
    assert Chain(x) == [root] + [x];
    assert Chain(a) == Chain(x) + [a];
  }
}
