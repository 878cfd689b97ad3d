/** What the parser makes of text the writer did not produce: other white space, marks left out,
    and text that ends early. */
module StorageLayout {
  import opened StorageText
  import opened StorageParser
  import opened StorageTokens
  import opened StorageRoundTrip

  predicate Blank(text: string) { forall i :: 0 <= i < |text| ==> IsSkipChar(text[i]) }

  /** The next character is a token. */
  predicate Token(text: string) { text != "" && !IsSkipChar(text[0]) }

  // ---- marks that may be left out ----------------------------------------------------------

  lemma SameFirst(m: Machine, m': Machine, text: string)
    requires text != "" && Feed(m, text[0]) == Feed(m', text[0])
    ensures Run(m, text) == Run(m', text)
  {
  }

  lemma MarkAndGap(m: Machine, mark: char, m': Machine, gap: string, text: string)
    requires Feed(m, mark) == Go(m') && SkipsBlanks(m'.state) && Blank(gap)
    ensures Run(m, [mark] + (gap + text)) == Run(m', text)
  {
    RunStep(m, mark, m', gap + text);
    RunConcat(m', gap, text);
    SkipBlanks(m', gap);
  }

  /** Where the mark is left out the next token is looked at as if it had been there. */
  function Skipped(state: State): State {
    match state
    case CONT_EQUAL => CONT_LBRACE
    case COMP_EQUAL => COMP_LBRACE
    case FIELD_EQUAL => FIELD_CONTENT
    case CONT_LBRACE => CONT_CONTENT
    case COMP_LBRACE => FIELDS_F
    case _ => FIELDS_CONTENT
  }

  lemma ContainerFalls(m: Machine, c: char)
    requires m.state in {CONT_EQUAL, CONT_LBRACE} && !IsSkipChar(c) && c != if m.state.CONT_EQUAL? then '=' else '{'
    ensures Feed(m, c) == Feed(m.(state := Skipped(m.state)), c)
  {
  }

  lemma ComponentFalls(m: Machine, c: char)
    requires m.state in {COMP_EQUAL, COMP_LBRACE} && !IsSkipChar(c) && c != if m.state.COMP_EQUAL? then '=' else '{'
    ensures Feed(m, c) == Feed(m.(state := Skipped(m.state)), c)
  {
    var m' := m.(state := Skipped(m.state));
    if m.state.COMP_EQUAL? {
      assert Feed(m, c) == CompLBrace(m, c) && Feed(m', c) == CompLBrace(m', c);
      LBraceIgnoresState(m, m', c);
    } else {
      assert Feed(m, c) == FieldsF(m, c) && Feed(m', c) == FieldsF(m', c);
      FieldsIgnoresState(m, m', c);
    }
  }

  lemma LBraceIgnoresState(m: Machine, m': Machine, c: char)
    requires m' == m.(state := m'.state) && !IsSkipChar(c)
    ensures CompLBrace(m, c) == CompLBrace(m', c)
  {
    if c != '{' { FieldsIgnoresState(m, m', c); }
  }

  lemma FieldsIgnoresState(m: Machine, m': Machine, c: char)
    requires m' == m.(state := m'.state) && !IsSkipChar(c)
    ensures FieldsF(m, c) == FieldsF(m', c)
  {
    if c != '}' && c != 'F' && !IsNameChar(c) { WordIgnoresState(m, m', c, 0); }
  }

  lemma {:induction false} WordIgnoresState(m: Machine, m': Machine, c: char, k: nat)
    requires k <= 5 && m' == m.(state := m'.state) && !IsSkipChar(c) && !IsNameChar(c)
    ensures FieldsWord(m, c, k) == FieldsWord(m', c, k)
    decreases 5 - k
  {
    if k < 5 { WordIgnoresState(m.(s := m.s + [c]), m'.(s := m.s + [c]), c, k + 1); }
  }

  lemma FieldFalls(m: Machine, c: char)
    requires m.state in {FIELD_EQUAL, FIELDS_LBRACE} && !IsSkipChar(c) && c != if m.state.FIELD_EQUAL? then '=' else '{'
    requires m.state.FIELD_EQUAL? ==> IsValueChar(c)
    ensures Feed(m, c) == Feed(m.(state := Skipped(m.state)), c)
  {
  }

  lemma MarkIsOptional(m: Machine, mark: char, gap: string, text: string)
    requires Feed(m, mark) == Go(m.(state := Skipped(m.state))) && SkipsBlanks(Skipped(m.state))
    requires Blank(gap) && Token(text)
    requires Feed(m, text[0]) == Feed(m.(state := Skipped(m.state)), text[0])
    ensures Run(m, [mark] + (gap + text)) == Run(m, text)
  {
    var m' := m.(state := Skipped(m.state));
    MarkAndGap(m, mark, m', gap, text);
    SameFirst(m', m, text);
  }

  /** The equal sign behind a name may be left out. */
  lemma EqualIsOptional(m: Machine, gap: string, text: string)
    requires m.state in {CONT_EQUAL, COMP_EQUAL, FIELD_EQUAL} && Blank(gap) && Token(text) && text[0] != '='
    requires m.state.FIELD_EQUAL? ==> IsValueChar(text[0])
    ensures Run(m, ['='] + (gap + text)) == Run(m, text)
  {
    if m.state.CONT_EQUAL? { ContainerFalls(m, text[0]); }
    if m.state.COMP_EQUAL? { ComponentFalls(m, text[0]); }
    if m.state.FIELD_EQUAL? { FieldFalls(m, text[0]); }
    MarkIsOptional(m, '=', gap, text);
  }

  /** So may an opening brace. */
  lemma BraceIsOptional(m: Machine, gap: string, text: string)
    requires m.state in {CONT_LBRACE, COMP_LBRACE, FIELDS_LBRACE} && Blank(gap) && Token(text) && text[0] != '{'
    ensures Run(m, ['{'] + (gap + text)) == Run(m, text)
  {
    if m.state.CONT_LBRACE? { ContainerFalls(m, text[0]); }
    if m.state.COMP_LBRACE? { ComponentFalls(m, text[0]); }
    if m.state.FIELDS_LBRACE? { FieldFalls(m, text[0]); }
    MarkIsOptional(m, '{', gap, text);
  }

  lemma BraceAtOnce(m: Machine)
    requires m.state == FIELDS_EQUAL
    ensures Feed(m, '{') == Go(m.(state := FIELDS_CONTENT))
  {
  }

  lemma NameStored(m: Machine)
    requires m.state == FIELD_NAME && HasTop(m)
    ensures Feed(m, ' ') == Go(AddFields(m, [Field(m.s, "")]).(s := "", state := FIELD_EQUAL))
  {
  }

  /** Not so the equal sign behind the word Fields: without it the word sticks to the first name. */
  lemma FieldsNeedsItsEqual(m: Machine, name: string)
    requires m.state == FIELDS_EQUAL && m.s == WORD && HasTop(m) && IsName(name)
    ensures Run(m, ['{'] + (name + " ")) == Go(AddFields(m, [Field(WORD + name, "")]).(s := "", state := FIELD_EQUAL))
  {
    var m1 := m.(state := FIELDS_CONTENT);
    BraceAtOnce(m);
    RunStep(m, '{', m1, name + " ");
    RunConcat(m1, name, " ");
    NameSticks(m1, name);
    var m2 := m1.(s := WORD + name, state := FIELD_NAME);
    NameStored(m2);
    FeedString(m2, " ");
  }

  lemma NameSticks(m: Machine, name: string)
    requires m.state == FIELDS_CONTENT && IsName(name)
    ensures Run(m, name) == Go(m.(s := m.s + name, state := FIELD_NAME))
  {
    assert name == [name[0]] + name[1..];
    var m1 := m.(s := m.s + [name[0]], state := FIELD_NAME);
    RunStep(m, name[0], m1, name[1..]);
    CollectName(m1, name[1..]);
    assert m.s + [name[0]] + name[1..] == m.s + name;
  }

  lemma WordMissing(m: Machine)
    requires m.state == FIELDS_F && m.s == ""
    ensures Feed(m, '=') == Go(m.(state := FIELDS_LBRACE))
  {
    WordBlank(m.(state := FIELDS_i), 0);
    WordIgnoresState(m, m.(state := FIELDS_i), '=', 0);
  }

  lemma WordThere(m: Machine)
    requires m.state == FIELDS_F && m.s == ""
    ensures Run(m, "Fields") == Go(m.(s := WORD, state := FIELDS_EQUAL))
  {
    assert "Fields"[1..] == WORD;
    RunShortName(m, "Fields");
  }

  /** The word Fields itself may be left out. */
  lemma WordIsOptional(m: Machine, text: string)
    requires m.state == FIELDS_F && m.s == ""
    ensures Run(m, "Fields" + (['='] + text)) == Run(m, ['='] + text)
  {
    var m1, block := m.(s := WORD, state := FIELDS_EQUAL), m.(state := FIELDS_LBRACE);
    RunConcat(m, "Fields", ['='] + text);
    WordThere(m);
    WordBlank(m1, 5);
    RunStep(m1, '=', block, text);
    WordMissing(m);
    RunStep(m, '=', block, text);
  }

  /** A letter F alone is taken for an empty block, and the braces in its place are forgotten. */
  lemma LoneLetterIsABlock(m: Machine)
    requires m.state == FIELDS_F && m.s == ""
    ensures Run(m, "F}}") == Run(m, "}")
  {
    var m1, m2 := m.(state := FIELDS_i), m.(s := "}}}}}");
    assert "F}}" == ['F'] + "}}" && "}}" == ['}'] + "}";
    RunStep(m, 'F', m1, "}}");
    BraceInWord(m1, 0);
    RunStep(m1, '}', m2, "}");
    FeedString(m2, "}");
    FeedString(m, "}");
    assert m2.(s := "") == m;
  }

  /** As many braces as letters of the word are missing. */
  function Braces(n: nat): string { if n == 0 then "" else "}" + Braces(n - 1) }

  lemma {:induction false} BraceInWord(m: Machine, k: nat)
    requires k <= 5
    ensures FieldsWord(m, '}', k) == Go(m.(s := m.s + Braces(5 - k), state := FIELDS_F))
    decreases 5 - k
  {
    if k == 5 {
      assert m.s + "" == m.s;
    } else {
      BraceInWord(m.(s := m.s + "}"), k + 1);
      assert m.s + "}" + Braces(4 - k) == m.s + ("}" + Braces(4 - k));
    }
  }

  /** Nor the blank behind a name: without it the name is forgotten with its container. */
  lemma NameNeedsItsBlank(m: Machine, name: string)
    requires m.state == NEXT_IS_CONT && m.s == "" && forall i :: 0 <= i < |name| ==> IsNameChar(name[i])
    ensures Run(m, name + "={}") == Go(m)
  {
    var m1 := m.(s := name, state := CONT_NAME);
    RunConcat(m, name, "={}");
    if name == "" {
      assert "" + "={}" == "={}";
      SameFirst(m, m1, "={}");
    } else {
      RunName(m, name, CONT_NAME);
    }
    DroppedContainer(m1);
  }

  lemma DroppedContainer(m: Machine)
    requires m.state == CONT_NAME
    ensures Run(m, "={}") == Go(m.(s := "", state := NEXT_IS_CONT))
  {
    assert "={}" == ['='] + "{}" && "{}" == ['{'] + "}";
    RunStep(m, '=', m.(state := CONT_LBRACE), "{}");
    RunStep(m.(state := CONT_LBRACE), '{', m.(state := CONT_CONTENT), "}");
    FeedString(m.(state := CONT_CONTENT), "}");
  }

  lemma EqualAtOnce(m: Machine)
    requires m.state in {FIELDS_CONTENT, FIELD_NAME}
    ensures Feed(m, '=') == Go(m.(state := FIELD_CONTENT))
  {
  }

  lemma FieldNameRead(m: Machine, name: string, text: string)
    requires m.state == FIELDS_CONTENT && m.s == "" && forall i :: 0 <= i < |name| ==> IsNameChar(name[i])
    ensures Run(m, name + (['='] + text)) == Run(m.(s := name, state := FIELD_CONTENT), text)
  {
    var m1, m2 := m.(s := name, state := FIELD_NAME), m.(s := name, state := FIELD_CONTENT);
    EqualAtOnce(m);
    EqualAtOnce(m1);
    if name == "" {
      assert "" + (['='] + text) == ['='] + text;
      RunStep(m, '=', m2, text);
    } else {
      RunConcat(m, name, ['='] + text);
      RunName(m, name, FIELD_NAME);
      RunStep(m1, '=', m2, text);
    }
  }

  /** The last field gets another value. */
  function Overwritten(m: Machine, value: string): Machine
    requires HasTop(m) && Top(m).fields != []
  {
    var fields := Top(m).fields;
    var last := |fields| - 1;
    WithTop(m, Top(m).(fields := fields[..last] + [fields[last].(value := value)]))
  }

  lemma ValueStored(m: Machine, value: string)
    requires m.state == FIELDS_CONTENT && m.s == "" && HasTop(m) && Top(m).fields != []
    ensures Run(m.(s := value, state := FIELD_VALUE), " ") == Go(Overwritten(m, value))
  {
    FeedString(m.(s := value, state := FIELD_VALUE), " ");
  }

  lemma ValueRead(m: Machine, value: string)
    requires m.state == FIELD_CONTENT && IsValue(value)
    ensures Run(m, value) == Go(m.(s := m.s + value, state := FIELD_VALUE))
  {
    ValueIsName(value);
    RunAnyValue(m, value);
  }

  lemma ValueIsName(value: string)
    requires IsValue(value)
    ensures IsName(value) && exists i :: 0 <= i < |value| && IsValueChar(value[i])
  {
    assert IsValueChar(value[0]);
  }

  /** And the name of a field becomes part of a value, which overwrites the one before. */
  lemma FieldNeedsItsBlank(m: Machine, name: string, value: string)
    requires m.state == FIELDS_CONTENT && m.s == "" && HasTop(m) && Top(m).fields != [] && IsValue(value)
    requires forall i :: 0 <= i < |name| ==> IsNameChar(name[i])
    ensures Run(m, name + (['='] + (value + " "))) == Go(Overwritten(m, name + value))
  {
    FieldNameRead(m, name, value + " ");
    var m2 := m.(s := name, state := FIELD_CONTENT);
    RunConcat(m2, value, " ");
    ValueRead(m2, value);
    ValueStored(m, name + value);
  }

  // ---- equivalent places -------------------------------------------------------------------

  /** Between the components of a container it does not matter whether the last thing read was the
      container's opening or a component's end. */
  lemma PlacesAgree(m: Machine, text: string)
    requires m.s == "" && Token(text)
    ensures Run(m.(state := NEXT_IS_COMP), text) == Run(m.(state := CONT_CONTENT), text)
  {
    SameFirst(m.(state := NEXT_IS_COMP), m.(state := CONT_CONTENT), text);
  }

  /** A value need not be hexadecimal: one hexadecimal digit in it is enough. */
  lemma {:induction false} RunAnyValue(m: Machine, value: string)
    requires m.state == FIELD_CONTENT && forall i :: 0 <= i < |value| ==> IsNameChar(value[i])
    ensures Run(m, value) ==
      Go(m.(s := m.s + value,
            state := if exists i :: 0 <= i < |value| && IsValueChar(value[i]) then FIELD_VALUE else FIELD_CONTENT))
    decreases |value|
  {
    if value == "" {
      assert m.s + value == m.s;
    } else {
      assert value == [value[0]] + value[1..];
      assert m.s + [value[0]] + value[1..] == m.s + value;
      if IsValueChar(value[0]) {
        var m1 := m.(s := m.s + [value[0]], state := FIELD_VALUE);
        RunStep(m, value[0], m1, value[1..]);
        CollectName(m1, value[1..]);
      } else {
        var m1 := m.(s := m.s + [value[0]]);
        RunStep(m, value[0], m1, value[1..]);
        RunAnyValue(m1, value[1..]);
        assert forall i :: 0 < i < |value| ==> value[i] == value[1..][i - 1];
        assert forall i :: 0 <= i < |value| - 1 ==> value[1..][i] == value[i + 1];
      }
    }
  }

  // ---- text that ends early, and braces too many -------------------------------------------

  lemma RunMarks(m: Machine, m1: Machine, m2: Machine, m3: Machine)
    requires Feed(m, ' ') == Go(m1) && Feed(m1, '=') == Go(m2) && Feed(m2, '{') == Go(m3)
    ensures Run(m, " ={") == Go(m3)
  {
    assert " ={" == [' '] + "={" && "={" == ['='] + "{";
    RunStep(m, ' ', m1, "={");
    RunStep(m1, '=', m2, "{");
    FeedString(m2, "{");
  }

  /** A container opens. */
  lemma OpensContainer(m: Machine, name: string)
    requires m.state in {NEXT_IS_CONT, FIELDS_F} && m.s == "" && HasTop(m) && IsName(name) && name[0] != 'F'
    ensures Run(m, name + " ={") == Go(AddContainers(m, [Container(name, [])]).(state := CONT_CONTENT))
  {
    var m1 := m.(s := name, state := CONT_NAME);
    RunConcat(m, name, " ={");
    RunName(m, name, CONT_NAME);
    var m2 := PushContainer(m1).m;
    RunMarks(m1, m2, m2.(state := CONT_LBRACE), m2.(state := CONT_CONTENT));
  }

  /** A component opens. */
  lemma OpensComponent(m: Machine, name: string)
    requires m.state == CONT_CONTENT && m.s == "" && HasTop(m) && Top(m).containers != [] && IsName(name)
    ensures Run(m, name + " ={") == Go(m.(stack := m.stack + [Component(name, [], [])], state := FIELDS_F))
  {
    RunConcat(m, name, " ={");
    RunName(m, name, COMP_NAME);
    ComponentMarks(m.(s := name, state := COMP_NAME));
  }

  lemma ComponentMarks(m: Machine)
    requires m.state == COMP_NAME && HasTop(m) && Top(m).containers != []
    ensures Run(m, " ={") == Go(m.(stack := m.stack + [Component(m.s, [], [])], s := "", state := FIELDS_F))
  {
    var m1 := m.(stack := m.stack + [Component(m.s, [], [])], s := "", state := COMP_EQUAL);
    RunMarks(m, m1, m1.(state := COMP_LBRACE), m1.(state := FIELDS_F));
  }

  lemma InitialOpens(name: string)
    requires IsName(name) && name[0] != 'F'
    ensures Run(INITIAL, name + " ={") ==
      Go(Machine(CONT_CONTENT, "", [Component("", [], [Container(name, [])])], true))
  {
    OpensContainer(INITIAL, name);
    assert [] + [Container(name, [])] == [Container(name, [])];
    var root := Component("", [], [Container(name, [])]);
    assert INITIAL.stack[..0] + [root] == [root];
  }

  /** The end of the text is noticed only between containers; anywhere else the parser waits for ever. */
  lemma EndOfText(name: string)
    requires IsName(name) && name[0] != 'F'
    ensures Parse("") == Parsed([]) && Parse(name + " ={") == NoResult && Parse("}") == NoResult
  {
    InitialOpens(name);
    FeedString(INITIAL, "}");
  }

  /** Text that ends behind a nested container is accepted, however many braces are missing. */
  lemma EndOfTextIsMissed(a: string, b: string, c: string)
    requires IsName(a) && IsName(b) && IsName(c) && a[0] != 'F' && c[0] != 'F'
    ensures Parse(a + " ={" + (b + " ={" + (c + " ={" + "}"))) ==
      Parsed([Container(a, [Component(b, [], [Container(c, [])])])])
  {
    var root, inner := Component("", [], [Container(a, [])]), Component(b, [], [Container(c, [])]);
    var m1 := Machine(CONT_CONTENT, "", [root], true);
    var m2 := Machine(FIELDS_F, "", [root, Component(b, [], [])], true);
    var m3 := Machine(CONT_CONTENT, "", [root, inner], true);
    InitialOpens(a);
    RunConcat(INITIAL, a + " ={", b + " ={" + (c + " ={" + "}"));
    OpensComponent(m1, b);
    assert m1.stack + [Component(b, [], [])] == m2.stack;
    RunConcat(m1, b + " ={", c + " ={" + "}");
    OpensContainer(m2, c);
    assert [] + [Container(c, [])] == [Container(c, [])];
    assert m2.stack[..1] + [inner] == m3.stack;
    RunConcat(m2, c + " ={", "}");
    FeedString(m3, "}");
    Collapses(root, inner, a);
  }

  lemma Collapses(root: Component, inner: Component, a: string)
    requires root == Component("", [], [Container(a, [])])
    ensures Collapse([root, inner]).containers == [Container(a, [inner])]
  {
    assert [root, inner][..0] + [Adopt(root, inner)] == [Adopt(root, inner)];
    assert [] + [inner] == [inner];
  }

  /** A brace too many closes the root: the text is still accepted, but a container behind it is
      added to a parent that does not exist. */
  lemma RootIsClosed(a: string, b: string)
    requires IsName(a) && IsName(b) && a[0] != 'F'
    ensures Parse(a + " ={" + "={}}") == Parsed([Container(a, [])])
    ensures Run(INITIAL, a + " ={" + ("={}}" + (b + " "))) == Undefined
  {
    var m1 := Machine(CONT_CONTENT, "", [Component("", [], [Container(a, [])])], true);
    var m2 := m1.(rootOpen := false, state := NEXT_IS_CONT);
    InitialOpens(a);
    BraceTooMany(m1);
    RunConcat(INITIAL, a + " ={", "={}}");
    RunConcat(INITIAL, a + " ={", "={}}" + (b + " "));
    RunConcat(m1, "={}}", b + " ");
    RunConcat(m2, b, " ");
    RunName(m2, b, CONT_NAME);
    FeedString(m2.(s := b, state := CONT_NAME), " ");
  }

  lemma BraceTooMany(m: Machine)
    requires m.state == CONT_CONTENT && m.s == "" && HasTop(m) && |m.stack| == 1
    ensures Run(m, "={}}") == Go(m.(rootOpen := false, state := NEXT_IS_CONT))
  {
    assert "={}}" == ['='] + "{}}" && "{}}" == ['{'] + "}}" && "}}" == ['}'] + "}";
    RunStep(m, '=', m.(state := COMP_LBRACE), "{}}");
    RunStep(m.(state := COMP_LBRACE), '{', m.(state := FIELDS_F), "}}");
    var m1 := m.(rootOpen := false, state := CONT_CONTENT);
    RunStep(m.(state := FIELDS_F), '}', m1, "}");
    FeedString(m1, "}");
  }
}
