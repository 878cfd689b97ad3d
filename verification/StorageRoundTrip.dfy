/** What the parser returns on printed text: exactly, for every tree, and therefore exactly when
    it returns the tree that was printed. */
module StorageRoundTrip {
  import opened Options
  import opened StorageText
  import opened StorageParser
  import opened StorageTokens

  // ---- what is read back -------------------------------------------------------------------

  function ReadComponent(c: Component): Option<Component>
    decreases c, 1
  {
    match ReadNested(c.containers)
    case None => None
    case Some(cs) => Some(c.(containers := cs))
  }

  function ReadComponents(cs: seq<Component>): Option<seq<Component>>
    decreases cs, 0
  {
    if cs == [] then Some([])
    else
      match (ReadComponent(cs[0]), ReadComponents(cs[1..]))
      case (Some(c), Some(rest)) => Some([c] + rest)
      case (_, _) => None
  }

  function ReadContainer(c: Container): Option<Container>
    decreases c, 1
  {
    match ReadComponents(c.components)
    case None => None
    case Some(cs) => Some(c.(components := cs))
  }

  function ReadContainers(cs: seq<Container>): Option<seq<Container>>
    decreases cs, 0
  {
    if cs == [] then Some([])
    else
      match (ReadContainer(cs[0]), ReadContainers(cs[1..]))
      case (Some(c), Some(rest)) => Some([c] + rest)
      case (_, _) => None
  }

  /** The containers of a component. The name of the first one is read where the word Fields is
      expected: a leading 'F' is lost, or the container is taken for a field block. */
  function ReadNested(cs: seq<Container>): Option<seq<Container>>
    decreases cs, 0
  {
    if cs == [] then Some([])
    else if ExtendsFields(cs[0].name) then None
    else if TakenForFields(cs[0].name) then
      if cs[0].components == [] then ReadNested(cs[1..]) else None
    else
      match (ReadContainer(cs[0]), ReadContainers(cs[1..]))
      case (Some(c), Some(rest)) =>
        Some([c.(name := NameRead(c.name))] + rest)
      case (_, _) => None
  }

  // ---- the automaton reads exactly that ----------------------------------------------------

  function AddContainers(m: Machine, cs: seq<Container>): Machine
    requires HasTop(m)
  {
    WithTop(m, Top(m).(containers := Top(m).containers + cs))
  }

  /** Components join the last container. */
  function AddComponents(m: Machine, cs: seq<Component>): Machine
    requires HasTop(m) && Top(m).containers != []
  {
    var cts := Top(m).containers;
    var last := |cts| - 1;
    WithTop(m, Top(m).(containers := cts[..last] + [cts[last].(components := cts[last].components + cs)]))
  }

  predicate InContainer(m: Machine) {
    m.state in {CONT_CONTENT, NEXT_IS_COMP} && m.s == "" && HasTop(m) && Top(m).containers != []
  }

  predicate ReadsComponents(r: Result, m: Machine, read: Option<seq<Component>>)
    requires InContainer(m)
  {
    match read
    case None => r.Thrown?
    case Some(cs) => r.Go? && InContainer(r.m) && r.m == AddComponents(m, cs).(state := r.m.state)
  }

  predicate ReadsNested(r: Result, m: Machine, read: Option<seq<Container>>)
    requires HasTop(m)
  {
    match read
    case None => r.Thrown?
    case Some(cs) =>
      r.Go? && r.m.state in {FIELDS_F, NEXT_IS_CONT} && r.m == AddContainers(m, cs).(state := r.m.state)
  }

  function Single<T>(o: Option<T>): Option<seq<T>> {
    match o
    case None => None
    case Some(x) => Some([x])
  }

  /** A container from the end of its name on. */
  lemma {:induction false} RunContainerTail(m: Machine, c: Container, n: nat)
    requires m.state == CONT_NAME && HasTop(m) && ComponentsNamed(c.components)
    ensures Run(m, OPEN + PrintComponents(c.components, n + 1) + Footer(n)) ==
      match ReadComponents(c.components)
      case None => Thrown
      case Some(cs) => Go(AddContainers(m.(s := "", state := NEXT_IS_CONT), [Container(m.s, cs)]))
    decreases c, 0
  {
    RunConcat3(m, OPEN, PrintComponents(c.components, n + 1), Footer(n));
    RunContOpen(m);
    var m1 := PushContainer(m).m.(state := CONT_CONTENT);
    RunComponents(m1, c.components, n + 1);
    if ReadComponents(c.components).Some? {
      var m2 := Run(m1, PrintComponents(c.components, n + 1)).m;
      ContainerCloses(m, m1, m2, ReadComponents(c.components).value);
      RunFooter(m2, n);
    }
  }

  lemma ContainerCloses(m: Machine, m1: Machine, m2: Machine, cs: seq<Component>)
    requires m.state == CONT_NAME && HasTop(m) && m1 == PushContainer(m).m.(state := CONT_CONTENT)
    requires InContainer(m1) && InContainer(m2) && m2 == AddComponents(m1, cs).(state := m2.state)
    ensures SkipsBlanks(m2.state) && SkipsBlanks(NEXT_IS_CONT)
    ensures Feed(m2, '}') == Go(AddContainers(m.(s := "", state := NEXT_IS_CONT), [Container(m.s, cs)]))
  {
    assert [] + cs == cs;
    assert Top(m1).containers[..|Top(m1).containers| - 1] == Top(m).containers;
    assert Top(m1).containers[|Top(m1).containers| - 1] == Container(m.s, []);
  }

  lemma {:induction false} RunContainer(m: Machine, c: Container, n: nat)
    requires m.state == NEXT_IS_CONT && m.s == "" && HasTop(m) && ContainerNamed(c)
    ensures Run(m, PrintContainer(c, n)) ==
      match ReadContainer(c)
      case None => Thrown
      case Some(r) => Go(AddContainers(m, [r]))
    decreases c, 1
  {
    var m1 := m.(s := c.name, state := CONT_NAME);
    RunName(m, c.name, CONT_NAME);
    RunHeader(m, m1, c, n);
    RunContainerTail(m1, c, n);
  }

  /** The header and the rest of a container, once its name is known to be read. */
  lemma RunHeader(m: Machine, m1: Machine, c: Container, n: nat)
    requires SkipsBlanks(m.state) && Run(m, c.name) == Go(m1)
    ensures Run(m, PrintContainer(c, n)) == Run(m1, OPEN + PrintComponents(c.components, n + 1) + Footer(n))
  {
    var body := PrintComponents(c.components, n + 1);
    Assoc(Indent(n) + c.name, OPEN, body, Footer(n));
    SkipIndent(m, n);
    RunConcat3(m, Indent(n), c.name, OPEN + body + Footer(n));
  }

  lemma {:induction false} RunContainers(m: Machine, cs: seq<Container>, n: nat)
    requires m.state == NEXT_IS_CONT && m.s == "" && HasTop(m) && ContainersNamed(cs)
    ensures Run(m, PrintContainers(cs, n)) ==
      match ReadContainers(cs)
      case None => Thrown
      case Some(rs) => Go(AddContainers(m, rs))
    decreases cs, 0
  {
    if cs == [] {
      assert AddContainers(m, []) == m by { assert Top(m).containers + [] == Top(m).containers; }
    } else {
      RunContainer(m, cs[0], n);
      RunConcat(m, PrintContainer(cs[0], n), PrintContainers(cs[1..], n));
      if ReadContainer(cs[0]).Some? {
        var m1 := AddContainers(m, [ReadContainer(cs[0]).value]);
        RunContainers(m1, cs[1..], n);
        AddContainersTwice(m, ReadContainer(cs[0]).value, ReadContainers(cs[1..]));
      }
    }
  }

  lemma AddContainersTwice(m: Machine, r: Container, rest: Option<seq<Container>>)
    requires HasTop(m)
    ensures rest.Some? ==> AddContainers(AddContainers(m, [r]), rest.value) == AddContainers(m, [r] + rest.value)
  {
    if rest.Some? {
      assert Top(m).containers + [r] + rest.value == Top(m).containers + ([r] + rest.value);
    }
  }

  lemma {:induction false} RunComponents(m: Machine, cs: seq<Component>, n: nat)
    requires InContainer(m) && ComponentsNamed(cs)
    ensures ReadsComponents(Run(m, PrintComponents(cs, n)), m, ReadComponents(cs))
    decreases cs, 0
  {
    if cs == [] {
      var cts := Top(m).containers;
      var last := |cts| - 1;
      assert cts[last].components + [] == cts[last].components;
      assert cts[..last] + [cts[last]] == cts;
      assert m.stack[..|m.stack| - 1] + [Top(m)] == m.stack;
    } else {
      RunComponent(m, cs[0], n);
      RunConcat(m, PrintComponent(cs[0], n), PrintComponents(cs[1..], n));
      if ReadComponent(cs[0]).Some? {
        var m1 := Run(m, PrintComponent(cs[0], n)).m;
        RunComponents(m1, cs[1..], n);
        AddComponentsTwice(m, m1, ReadComponent(cs[0]).value, ReadComponents(cs[1..]));
      }
    }
  }

  lemma AddComponentsTwice(m: Machine, m1: Machine, r: Component, rest: Option<seq<Component>>)
    requires InContainer(m) && InContainer(m1) && m1 == AddComponents(m, [r]).(state := m1.state)
    ensures rest.Some? ==>
      AddComponents(m1, rest.value) == AddComponents(m, [r] + rest.value).(state := m1.state)
  {
    if rest.Some? {
      var cts := Top(m).containers;
      var last := |cts| - 1;
      assert cts[last].components + [r] + rest.value == cts[last].components + ([r] + rest.value);
      assert Top(m1).containers[..last] == cts[..last];
    }
  }

  lemma {:induction false} RunComponent(m: Machine, c: Component, n: nat)
    requires InContainer(m) && ComponentNamed(c)
    ensures ReadsComponents(Run(m, PrintComponent(c, n)), m, Single(ReadComponent(c)))
    decreases c, 1
  {
    var m1 := m.(stack := m.stack + [Component(c.name, [], [])], s := "", state := FIELDS_F);
    RunComponentHeader(m, c, n);
    RunFieldBlock(m1, c.fields, n + 1);
    var m2 := AddFields(m1, c.fields);
    RunNested(m2, c.containers, n + 1);
    RunConcat4(m, Header(c.name, n), FieldBlock(c.fields, n + 1), PrintContainers(c.containers, n + 1), Footer(n));
    if ReadNested(c.containers).Some? {
      var m3 := Run(m2, PrintContainers(c.containers, n + 1)).m;
      ComponentStack(m, m3, c, ReadNested(c.containers).value);
      ComponentPops(m, m3, ReadComponent(c).value);
      RunFooter(m3, n);
    }
  }

  lemma RunComponentHeader(m: Machine, c: Component, n: nat)
    requires InContainer(m) && ComponentNamed(c)
    ensures Run(m, Header(c.name, n)) ==
      Go(m.(stack := m.stack + [Component(c.name, [], [])], s := "", state := FIELDS_F))
  {
    SkipIndent(m, n);
    RunName(m, c.name, COMP_NAME);
    RunCompOpen(m.(s := c.name, state := COMP_NAME));
    RunConcat3(m, Indent(n), c.name, OPEN);
  }

  lemma ComponentStack(m: Machine, m3: Machine, c: Component, rs: seq<Container>)
    requires HasTop(m) && m.s == ""
    requires var m1 := m.(stack := m.stack + [Component(c.name, [], [])], state := FIELDS_F);
      m3 == AddContainers(AddFields(m1, c.fields), rs).(state := m3.state)
    ensures m3.stack == m.stack + [c.(containers := rs)] && m3.s == "" && m3.rootOpen
  {
    assert [] + c.fields == c.fields && [] + rs == rs;
  }

  lemma ComponentPops(m: Machine, m3: Machine, r: Component)
    requires InContainer(m) && m3.state in {FIELDS_F, NEXT_IS_CONT} && m3.s == "" && m3.rootOpen
    requires m3.stack == m.stack + [r]
    ensures Feed(m3, '}').Go? && SkipsBlanks(Feed(m3, '}').m.state)
    ensures ReadsComponents(Feed(m3, '}'), m, Some([r]))
  {
  }

  lemma ReadsAsField(m: Machine, c: Container, n: nat)
    requires m.state == FIELDS_F && HasTop(m) && m.s == "" && ContainerNamed(c) && ExtendsFields(c.name)
    ensures Run(m, PrintContainer(c, n)) == Thrown
  {
    var tail := PrintComponents(c.components, n + 1) + Footer(n);
    assert PrintContainer(c, n) == Header(c.name, n) + tail;
    LongNameThrows(m, c.name, tail, n);
  }

  /** An empty container whose name passes for the word Fields disappears; otherwise its first
      component is read as a field. */
  lemma ReadsAsFieldBlock(m: Machine, c: Container, n: nat)
    requires m.state == FIELDS_F && HasTop(m) && m.s == "" && ContainerNamed(c) && TakenForFields(c.name)
    ensures Run(m, PrintContainer(c, n)) == if c.components == [] then Go(m) else Thrown
  {
    RunFieldsHeader(m, c.name, n);
    var m1 := m.(state := FIELDS_CONTENT);
    if c.components == [] {
      RunConcat3(m, Header(c.name, n), "", Footer(n));
      RunFooter(m1, n);
    } else {
      FirstComponentText(c, n);
      assert ComponentNamed(c.components[0]);
      var rest := ComponentRest(c.components[0], n + 1) + PrintComponents(c.components[1..], n + 1) + Footer(n);
      RunConcat(m, Header(c.name, n), Header(c.components[0].name, n + 1) + rest);
      ComponentInFieldsThrows(m1, c.components[0].name, rest, n + 1);
    }
  }

  function ComponentRest(c: Component, n: nat): string {
    FieldBlock(c.fields, n + 1) + PrintContainers(c.containers, n + 1) + Footer(n)
  }

  lemma FirstComponentText(c: Container, n: nat)
    requires c.components != []
    ensures PrintContainer(c, n) ==
      Header(c.name, n) + (Header(c.components[0].name, n + 1)
        + (ComponentRest(c.components[0], n + 1) + PrintComponents(c.components[1..], n + 1) + Footer(n)))
  {
    var d := c.components[0];
    Assoc(Header(d.name, n + 1), FieldBlock(d.fields, n + 2), PrintContainers(d.containers, n + 2), Footer(n + 1));
    assert PrintComponent(d, n + 1) == Header(d.name, n + 1) + ComponentRest(d, n + 1);
    assert PrintComponents(c.components, n + 1)
      == Header(d.name, n + 1) + ComponentRest(d, n + 1) + PrintComponents(c.components[1..], n + 1);
    Regroup(Header(c.name, n), Header(d.name, n + 1), ComponentRest(d, n + 1),
            PrintComponents(c.components[1..], n + 1), Footer(n));
  }

  lemma Regroup(a: string, b: string, c: string, d: string, e: string)
    ensures a + (b + c + d) + e == a + (b + (c + d + e))
  {
  }

  lemma {:induction false} RunNested(m: Machine, cs: seq<Container>, n: nat)
    requires m.state == FIELDS_F && m.s == "" && HasTop(m) && ContainersNamed(cs)
    ensures ReadsNested(Run(m, PrintContainers(cs, n)), m, ReadNested(cs))
    decreases cs, 1
  {
    if cs == [] {
      assert AddContainers(m, []) == m by { assert Top(m).containers + [] == Top(m).containers; }
    } else {
      RunConcat(m, PrintContainer(cs[0], n), PrintContainers(cs[1..], n));
      if ExtendsFields(cs[0].name) {
        ReadsAsField(m, cs[0], n);
      } else if TakenForFields(cs[0].name) {
        ReadsAsFieldBlock(m, cs[0], n);
        if cs[0].components == [] { RunNested(m, cs[1..], n); }
      } else {
        RunFirstNested(m, cs, n);
      }
    }
  }

  lemma {:induction false} RunFirstNested(m: Machine, cs: seq<Container>, n: nat)
    requires m.state == FIELDS_F && m.s == "" && HasTop(m) && ContainersNamed(cs) && cs != []
    requires !TakenForFields(cs[0].name) && !ExtendsFields(cs[0].name)
    ensures ReadsNested(Run(m, PrintContainers(cs, n)), m, ReadNested(cs))
    decreases cs, 0
  {
    RunFirstContainer(m, cs[0], n);
    RunConcat(m, PrintContainer(cs[0], n), PrintContainers(cs[1..], n));
    if ReadContainer(cs[0]).Some? {
      var r := ReadContainer(cs[0]).value.(name := NameRead(cs[0].name));
      RunContainers(AddContainers(m.(state := NEXT_IS_CONT), [r]), cs[1..], n);
      AddContainersTwice(m, r, ReadContainers(cs[1..]));
    }
  }

  lemma {:induction false} RunFirstContainer(m: Machine, c: Container, n: nat)
    requires m.state == FIELDS_F && m.s == "" && HasTop(m) && ContainerNamed(c)
    requires !TakenForFields(c.name) && !ExtendsFields(c.name)
    ensures Run(m, PrintContainer(c, n)) ==
      match ReadContainer(c)
      case None => Thrown
      case Some(r) => Go(AddContainers(m.(state := NEXT_IS_CONT), [r.(name := NameRead(c.name))]))
    decreases c, 1
  {
    var m1 := m.(s := NameRead(c.name), state := CONT_NAME);
    FirstNameRead(m, c.name);
    RunHeader(m, m1, c, n);
    RunContainerTail(m1, c, n);
  }

  /** The outcome of parsing any printed tree, with the parent stack back at the root. */
  lemma ParsePrinted(cs: seq<Container>)
    requires ContainersNamed(cs)
    ensures Run(INITIAL, Print(cs)) ==
      match ReadContainers(cs)
      case None => Thrown
      case Some(rs) => Go(INITIAL.(stack := [ROOT.(containers := rs)]))
    ensures Parse(Print(cs)) ==
      match ReadContainers(cs)
      case None => Exception
      case Some(rs) => Parsed(rs)
  {
    RunContainers(INITIAL, cs, 0);
    match ReadContainers(cs)
    case None =>
    case Some(rs) => assert [] + rs == rs;
  }

  // ---- when the tree comes back ------------------------------------------------------------

  /** No component has a first nested container whose name starts with 'F'. */
  predicate ComponentKept(c: Component)
    decreases c, 1
  {
    !(c.containers != [] && c.containers[0].name != "" && c.containers[0].name[0] == 'F')
    && ContainersKept(c.containers)
  }

  predicate ComponentsKept(cs: seq<Component>)
    decreases cs, 0
  {
    cs != [] ==> ComponentKept(cs[0]) && ComponentsKept(cs[1..])
  }

  predicate ContainersKept(cs: seq<Container>)
    decreases cs, 0
  {
    cs != [] ==> ComponentsKept(cs[0].components) && ContainersKept(cs[1..])
  }

  lemma {:induction false} ReadContainersKeeps(cs: seq<Container>)
    ensures ReadContainers(cs) == Some(cs) <==> ContainersKept(cs)
    decreases cs, 0
  {
    if cs != [] {
      ReadComponentsKeeps(cs[0].components);
      ReadContainersKeeps(cs[1..]);
      assert cs == [cs[0]] + cs[1..];
      SplitFirst(cs, ReadContainer(cs[0]), ReadContainers(cs[1..]));
    }
  }

  lemma SplitFirst<T>(xs: seq<T>, first: Option<T>, rest: Option<seq<T>>)
    requires xs != []
    ensures first.Some? && rest.Some? ==>
      ([first.value] + rest.value == xs <==> first.value == xs[0] && rest.value == xs[1..])
  {
  }

  lemma {:induction false} ReadComponentsKeeps(cs: seq<Component>)
    ensures ReadComponents(cs) == Some(cs) <==> ComponentsKept(cs)
    decreases cs, 0
  {
    if cs != [] {
      ReadNestedKeeps(cs[0]);
      ReadComponentsKeeps(cs[1..]);
      assert cs == [cs[0]] + cs[1..];
      SplitFirst(cs, ReadComponent(cs[0]), ReadComponents(cs[1..]));
    }
  }

  lemma {:induction false} ReadContainersLength(cs: seq<Container>)
    ensures ReadContainers(cs).Some? ==> |ReadContainers(cs).value| == |cs|
  {
    if cs != [] { ReadContainersLength(cs[1..]); }
  }

  lemma {:induction false} ReadNestedShrinks(cs: seq<Container>)
    ensures ReadNested(cs).Some? ==> |ReadNested(cs).value| <= |cs|
  {
    if cs != [] {
      ReadNestedShrinks(cs[1..]);
      ReadContainersLength(cs[1..]);
    }
  }

  lemma {:induction false} ReadNestedKeeps(c: Component)
    ensures ReadNested(c.containers) == Some(c.containers) <==> ComponentKept(c)
    decreases c, 1
  {
    var cs := c.containers;
    if cs != [] {
      ReadContainersKeeps(cs);
      ReadContainersKeeps(cs[1..]);
      ReadNestedShrinks(cs[1..]);
      var first := ReadContainer(cs[0]);
      var named := if first.Some? then Some(first.value.(name := NameRead(cs[0].name))) else None;
      SplitFirst(cs, named, ReadContainers(cs[1..]));
      ReadComponentsKeeps(cs[0].components);
    }
  }

  /** Parsing gives back the printed tree exactly when no name falls where the word Fields is
      expected and starts with its letter. */
  lemma RoundTripIff(cs: seq<Container>)
    requires ContainersNamed(cs)
    ensures Parse(Print(cs)) == Parsed(cs) <==> ContainersKept(cs)
  {
    ParsePrinted(cs);
    ReadContainersKeeps(cs);
  }

  /** A component `A` in a container `Models`, with one nested container. */
  function Nested(rs: seq<Container>): seq<Container> {
    [Container("Models", [Component("A", [], rs)])]
  }

  lemma NestedIsNamed(c: Container)
    requires ContainerNamed(c)
    ensures ContainersNamed(Nested([c]))
  {
    var d := Component("A", [], [c]);
    assert ContainersNamed([c]) by { assert [c][1..] == []; }
    assert ComponentNamed(d);
    assert ComponentsNamed([d]) by { assert [d][1..] == []; }
  }

  lemma ReadOneComponent(d: Component)
    ensures ReadComponents([d]) == Single(ReadComponent(d))
  {
    assert [d][1..] == [];
    if ReadComponent(d).Some? { assert [ReadComponent(d).value] + [] == [ReadComponent(d).value]; }
  }

  lemma ReadOneContainer(c: Container)
    ensures ReadContainers([c]) == Single(ReadContainer(c))
  {
    assert [c][1..] == [];
    if ReadContainer(c).Some? { assert [ReadContainer(c).value] + [] == [ReadContainer(c).value]; }
  }

  lemma ReadOneNested(c: Container)
    ensures ReadContainers(Nested([c])) ==
      if ReadNested([c]).None? then None else Some(Nested(ReadNested([c]).value))
  {
    var d := Component("A", [], [c]);
    ReadOneComponent(d);
    ReadOneContainer(Container("Models", [d]));
  }

  /** A tree whose container loses the first letter of its name. */
  lemma LeadingFIsLost()
    ensures Parse(Print(Nested([Container("Far", [])]))) == Parsed(Nested([Container("ar", [])]))
  {
    var c := Container("Far", []);
    ReadOneNested(c);
    NestedIsNamed(c);
    ParsePrinted(Nested([c]));
    assert c.name[1..] == "ar" && "ar"[0] == 'a' && WORD[0] == 'i';
    assert !TakenForFields(c.name) && !ExtendsFields(c.name);
    assert ReadContainer(c) == Some(c);
    assert [c][1..] == [] && ReadContainers([]) == Some([]);
    assert NameRead(c.name) == "ar";
    assert [Container("ar", [])] + [] == [Container("ar", [])];
  }

  /** A tree that loses a container. */
  lemma ShortNameIsDropped()
    ensures Parse(Print(Nested([Container("Fi", [])]))) == Parsed(Nested([]))
  {
    var c := Container("Fi", []);
    ReadOneNested(c);
    NestedIsNamed(c);
    ParsePrinted(Nested([c]));
    assert "Fi"[1..] == "i" && "i" <= WORD && [c][1..] == [];
    assert ReadNested([c]) == Some([]);
  }

  /** A tree whose text is refused. */
  lemma LongNameIsRefused()
    ensures Parse(Print(Nested([Container("FieldsX", [])]))) == Exception
  {
    var c := Container("FieldsX", []);
    ReadOneNested(c);
    NestedIsNamed(c);
    ParsePrinted(Nested([c]));
    assert "FieldsX"[1..] == WORD + "X";
  }

  // ---- characters the parser never accepts -------------------------------------------------

  predicate Foreign(c: char) {
    !IsNameChar(c) && !IsSkipChar(c) && c !in {'=', '{', '}'}
  }

  lemma {:induction false} WordRefuses(m: Machine, c: char, k: nat)
    requires k <= 5 && Foreign(c)
    ensures FieldsWord(m, c, k) == Thrown
    decreases 5 - k
  {
  }

  /** Any other character, an underscore for one, is refused in every state, so no text that
      holds one is ever parsed. */
  lemma {:induction false} ForeignIsRefused(m: Machine, text: string, i: nat)
    requires i < |text| && Foreign(text[i])
    ensures !Run(m, text).Go?
    decreases i
  {
    if i == 0 {
      WordRefuses(m, text[0], 0);
      forall k: nat | k <= 5 ensures FieldsWord(m, text[0], k) == Thrown { WordRefuses(m, text[0], k); }
    } else if Feed(m, text[0]).Go? {
      ForeignIsRefused(Feed(m, text[0]).m, text[1..], i - 1);
    }
  }

  /** Hence a named field, component or container with an underscore breaks the round trip. */
  lemma ForeignTextIsNotParsed(text: string, i: nat)
    requires i < |text| && Foreign(text[i])
    ensures !Parse(text).Parsed?
  {
    ForeignIsRefused(INITIAL, text, i);
  }
}
