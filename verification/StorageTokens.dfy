/** How the parser moves over the lines the writer produces: headers, field lines, closing braces. */
module StorageTokens {
  import opened StorageText
  import opened StorageParser

  // ---- the word Fields at the start of a name ----------------------------------------------

  /** The name shares its beginning with the word Fields and is not longer than it. */
  predicate TakenForFields(name: string) {
    name != "" && name[0] == 'F' && name[1..] <= WORD
  }

  /** The name starts with the whole word Fields and goes on. */
  predicate ExtendsFields(name: string) {
    name != "" && name[0] == 'F' && WORD < name[1..]
  }

  // ---- tokens ------------------------------------------------------------------------------

  lemma RunCons(m: Machine, c: char, text: string)
    ensures Run(m, [c] + text) == Then(Feed(m, c), text)
  {
  }

  lemma RunStep(m: Machine, c: char, m1: Machine, text: string)
    requires Feed(m, c) == Go(m1)
    ensures Run(m, [c] + text) == Run(m1, text)
  {
    RunCons(m, c, text);
  }

  /** A name ends and a block opens. */
  lemma RunOpen(m: Machine, m1: Machine, m2: Machine, m3: Machine)
    requires Feed(m, ' ') == Go(m1) && Feed(m1, '=') == Go(m2) && Feed(m2, '{') == Go(m3)
    requires SkipsBlanks(m2.state) && SkipsBlanks(m3.state)
    ensures Run(m, OPEN) == Go(m3)
  {
    assert OPEN == [' '] + "= {\n";
    RunCons(m, ' ', "= {\n");
    RunAfterName(m1, m2, "{\n");
    assert "= {\n" == "= " + "{\n";
    assert "{\n" == ['{'] + "\n";
    RunCons(m2, '{', "\n");
    SkipBlanks(m3, "\n");
  }

  /** The equal sign and the blank behind it. */
  lemma RunAfterName(m1: Machine, m2: Machine, text: string)
    requires Feed(m1, '=') == Go(m2) && SkipsBlanks(m2.state)
    ensures Run(m1, "= " + text) == Run(m2, text)
  {
  }

  lemma FeedString(m: Machine, text: string)
    requires |text| == 1
    ensures Run(m, text) == Feed(m, text[0])
  {
  }

  /** A closing brace line. */
  lemma RunFooter(m: Machine, n: nat)
    requires SkipsBlanks(m.state)
    requires Feed(m, '}').Go? && SkipsBlanks(Feed(m, '}').m.state)
    ensures Run(m, Footer(n)) == Feed(m, '}')
  {
    SkipIndent(m, n);
    assert Footer(n) == Indent(n) + "}" + "\n";
    RunConcat3(m, Indent(n), "}", "\n");
    FeedString(m, "}");
    SkipBlanks(Feed(m, '}').m, "\n");
  }

  /** After the name of a container: its header line ends. */
  lemma RunContOpen(m: Machine)
    requires m.state == CONT_NAME && HasTop(m)
    ensures PushContainer(m).Go?
    ensures Run(m, OPEN) == Go(PushContainer(m).m.(state := CONT_CONTENT))
  {
  }

  lemma RunCompOpen(m: Machine)
    requires m.state == COMP_NAME && HasTop(m) && Top(m).containers != []
    ensures PushComponent(m).Go?
    ensures Run(m, OPEN) == Go(PushComponent(m).m.(state := FIELDS_F))
  {
  }

  /** A name that starts in a state where it is the next token. */
  lemma RunName(m: Machine, name: string, state: State)
    requires IsName(name) && m.s == ""
    requires state in {CONT_NAME, COMP_NAME, FIELD_NAME}
    requires Feed(m, name[0]) == Collect(m, name[0], state)
    ensures Run(m, name) == Go(m.(s := name, state := state))
  {
    assert m.s + [name[0]] == [name[0]];
    CollectName(m.(s := [name[0]], state := state), name[1..]);
    assert [name[0]] + name[1..] == name;
  }

  // ---- fields ------------------------------------------------------------------------------

  function AddFields(m: Machine, fs: seq<Field>): Machine
    requires HasTop(m)
  {
    WithTop(m, Top(m).(fields := Top(m).fields + fs))
  }

  lemma RunField(m: Machine, f: Field, n: nat)
    requires m.state == FIELDS_CONTENT && m.s == "" && HasTop(m) && IsName(f.name) && IsValue(f.value)
    ensures Run(m, PrintField(f, n)) == Go(AddFields(m, [f]))
  {
    SkipIndent(m, n);
    RunName(m, f.name, FIELD_NAME);
    var m1 := m.(s := f.name, state := FIELD_NAME);
    RunEquals(m1);
    RunConcat3(m, Indent(n), f.name, " = ");
    RunValueLine(m, PushField(m1).m.(state := FIELD_CONTENT), f);
    RunConcat3(m, Indent(n) + f.name + " = ", f.value, "\n");
  }

  /** The value and the end of its line, from the state in which the name was stored. */
  lemma RunValueLine(m: Machine, m2: Machine, f: Field)
    requires m.state == FIELDS_CONTENT && m.s == "" && HasTop(m) && IsValue(f.value)
    requires m2 == PushField(m.(s := f.name, state := FIELD_NAME)).m.(state := FIELD_CONTENT)
    ensures Then(Run(m2, f.value), "\n") == Go(AddFields(m, [f]))
  {
    RunValue(m2, f.value);
    var m3 := m2.(s := f.value, state := FIELD_VALUE);
    FeedString(m3, "\n");
    var top := Top(m2);
    assert top.fields[..|top.fields| - 1] == Top(m).fields;
    assert SetValue(m3).m == AddFields(m, [f]);
  }

  lemma RunEquals(m: Machine)
    requires m.state == FIELD_NAME && HasTop(m)
    ensures PushField(m).Go?
    ensures Run(m, " = ") == Go(PushField(m).m.(state := FIELD_CONTENT))
  {
  }

  lemma RunValue(m: Machine, value: string)
    requires m.state == FIELD_CONTENT && m.s == "" && IsValue(value)
    ensures Run(m, value) == Go(m.(s := value, state := FIELD_VALUE))
  {
    assert m.s + [value[0]] == [value[0]];
    CollectName(m.(s := [value[0]], state := FIELD_VALUE), value[1..]);
    assert [value[0]] + value[1..] == value;
  }

  lemma {:induction false} RunFields(m: Machine, fs: seq<Field>, n: nat)
    requires m.state == FIELDS_CONTENT && m.s == "" && HasTop(m) && FieldsNamed(fs)
    ensures Run(m, PrintFields(fs, n)) == Go(AddFields(m, fs))
    decreases |fs|
  {
    if fs == [] {
      assert Top(m).fields + fs == Top(m).fields;
    } else {
      assert fs[0] in fs;
      RunField(m, fs[0], n);
      RunConcat(m, PrintField(fs[0], n), PrintFields(fs[1..], n));
      RunFields(AddFields(m, [fs[0]]), fs[1..], n);
      assert Top(m).fields + [fs[0]] + fs[1..] == Top(m).fields + fs;
    }
  }

  // ---- the word Fields ---------------------------------------------------------------------

  lemma SliceCons(text: string, k: nat, j: nat)
    requires k < j <= |text|
    ensures text[k..j] == [text[k]] + text[k + 1..j]
  {
  }

  lemma {:induction false} RunWord(m: Machine, k: nat, j: nat)
    requires k <= j <= 5 && m.state == WordState(k)
    ensures Run(m, WORD[k..j]) == Go(m.(s := m.s + WORD[k..j], state := WordState(j)))
    decreases j - k
  {
    if k == j {
      assert WORD[k..j] == "" && m.s + WORD[k..j] == m.s;
    } else {
      var m1 := m.(s := m.s + [WORD[k]], state := WordState(k + 1));
      FeedLetter(m, k);
      var rest := WORD[k + 1..j];
      SliceCons(WORD, k, j);
      RunCons(m, WORD[k], rest);
      RunWord(m1, k + 1, j);
      assert m.s + [WORD[k]] + rest == m.s + ([WORD[k]] + rest);
    }
  }

  lemma FeedLetter(m: Machine, k: nat)
    requires k < 5 && m.state == WordState(k)
    ensures Feed(m, WORD[k]) == Go(m.(s := m.s + [WORD[k]], state := WordState(k + 1)))
  {
  }

  /** From inside the word, a blank leaves the state and `=` falls through to the block. */
  lemma WordBlank(m: Machine, k: nat)
    requires k <= 5 && m.state == WordState(k)
    ensures Feed(m, ' ').Go? && Feed(m, ' ').m == m.(s := Feed(m, ' ').m.s)
    ensures Feed(m, '=') == Go(m.(s := "", state := FIELDS_LBRACE))
  {
  }

  lemma BlockOpens(m: Machine)
    requires m.state == FIELDS_LBRACE
    ensures Feed(m, '{') == Go(m.(state := FIELDS_CONTENT))
  {
  }

  lemma RunWordOpen(m: Machine, k: nat)
    requires k <= 5 && m.state == WordState(k)
    ensures Run(m, OPEN) == Go(m.(s := "", state := FIELDS_CONTENT))
  {
    WordBlank(m, k);
    var s := Feed(m, ' ').m.s;
    WordBlank(m.(s := s), k);
    BlockOpens(m.(s := "", state := FIELDS_LBRACE));
    RunOpen(m, m.(s := s), m.(s := "", state := FIELDS_LBRACE), m.(s := "", state := FIELDS_CONTENT));
  }

  /** A header whose name is F followed by a beginning of `ields` opens a field block. */
  lemma RunFieldsHeader(m: Machine, name: string, n: nat)
    requires m.state == FIELDS_F && m.s == "" && TakenForFields(name)
    ensures Run(m, Header(name, n)) == Go(m.(state := FIELDS_CONTENT))
  {
    SkipIndent(m, n);
    RunShortName(m, name);
    var k := |name| - 1;
    RunWordOpen(m.(s := name[1..], state := WordState(k)), k);
    RunConcat3(m, Indent(n), name, OPEN);
  }

  lemma RunShortName(m: Machine, name: string)
    requires m.state == FIELDS_F && m.s == "" && TakenForFields(name)
    ensures Run(m, name) == Go(m.(s := name[1..], state := WordState(|name| - 1)))
  {
    var rest := name[1..];
    assert rest == WORD[0..|rest|];
    assert name == ['F'] + rest;
    RunCons(m, 'F', rest);
    RunWord(m.(state := FIELDS_i), 0, |rest|);
    assert m.s + rest == rest;
  }

  lemma RunFieldBlock(m: Machine, fs: seq<Field>, n: nat)
    requires m.state == FIELDS_F && m.s == "" && HasTop(m) && FieldsNamed(fs)
    ensures Run(m, FieldBlock(fs, n)) == Go(AddFields(m, fs))
  {
    RunFieldsHeader(m, "Fields", n);
    var m1 := m.(state := FIELDS_CONTENT);
    RunFields(m1, fs, n + 1);
    var m2 := AddFields(m1, fs);
    BlockCloses(m2, n);
    assert m2.(state := FIELDS_F) == AddFields(m, fs);
    RunConcat3(m, Header("Fields", n), PrintFields(fs, n + 1), Footer(n));
  }

  lemma BlockCloses(m: Machine, n: nat)
    requires m.state == FIELDS_CONTENT
    ensures Run(m, Footer(n)) == Go(m.(state := FIELDS_F))
  {
    RunFooter(m, n);
  }

  // ---- names read where the word Fields is expected ----------------------------------------

  /** The name a container gets where the word Fields is expected. */
  function NameRead(name: string): string {
    if name != "" && name[0] == 'F' then name[1..] else name
  }

  /** A name that leaves the word Fields is a container name without its leading 'F'. */
  lemma FirstNameRead(m: Machine, name: string)
    requires m.state == FIELDS_F && m.s == "" && IsName(name)
    requires !TakenForFields(name) && !ExtendsFields(name)
    ensures Run(m, name) == Go(m.(s := NameRead(name), state := CONT_NAME))
  {
    if name[0] == 'F' {
      assert name == ['F'] + name[1..];
      RunCons(m, 'F', name[1..]);
      LeavesWord(m.(state := FIELDS_i), name[1..], 0);
      assert m.s + name[1..] == name[1..];
    } else {
      RunName(m, name, CONT_NAME);
    }
  }

  lemma {:induction false} LeavesWord(m: Machine, text: string, k: nat)
    requires k <= 5 && m.state == WordState(k)
    requires forall i :: 0 <= i < |text| ==> IsNameChar(text[i])
    requires !(text <= WORD[k..]) && !(WORD[k..] <= text)
    ensures Run(m, text) == Go(m.(s := m.s + text, state := CONT_NAME))
    decreases 5 - k
  {
    if k < 5 {
      var c, rest := text[0], text[1..];
      assert text == [c] + rest;
      if c == WORD[k] {
        var m1 := m.(s := m.s + [c], state := WordState(k + 1));
        FeedLetter(m, k);
        RunStep(m, c, m1, rest);
        WordGoesOn(text, k);
        LeavesWord(m1, rest, k + 1);
      } else {
        var m1 := m.(s := m.s + [c], state := CONT_NAME);
        FeedOther(m, c, k);
        RunStep(m, c, m1, rest);
        CollectName(m1, rest);
      }
      AppendCons(m.s, c, rest);
    }
  }

  lemma AppendCons(s: string, c: char, rest: string)
    ensures s + [c] + rest == s + ([c] + rest)
  {
  }

  /** Behind a letter of the word the rest still leaves it. */
  lemma WordGoesOn(text: string, k: nat)
    requires k < 5 && text != "" && text[0] == WORD[k]
    requires !(text <= WORD[k..]) && !(WORD[k..] <= text)
    ensures !(text[1..] <= WORD[k + 1..]) && !(WORD[k + 1..] <= text[1..])
  {
    assert text == [text[0]] + text[1..] && WORD[k..] == [text[0]] + WORD[k + 1..];
    PrefixTail(text[0], WORD[k + 1..], text[1..]);
  }

  lemma PrefixTail(c: char, a: string, b: string)
    ensures [c] + a <= [c] + b <==> a <= b
    ensures [c] + b <= [c] + a <==> b <= a
  {
    assert ([c] + a)[1..] == a && ([c] + b)[1..] == b;
    if a <= b { assert [c] + b == [c] + a + b[|a|..]; }
    if b <= a { assert [c] + a == [c] + b + a[|b|..]; }
  }

  lemma FeedOther(m: Machine, c: char, k: nat)
    requires k < 5 && m.state == WordState(k) && c != WORD[k] && IsNameChar(c)
    ensures Feed(m, c) == Go(m.(s := m.s + [c], state := CONT_NAME))
  {
  }

  /** A longer name is read as the name of a field. */
  lemma RunLongName(m: Machine, name: string)
    requires m.state == FIELDS_F && m.s == "" && IsName(name) && ExtendsFields(name)
    ensures Run(m, name) == Go(m.(s := name[1..], state := FIELD_NAME))
  {
    var rest := name[6..];
    assert name == ['F'] + (WORD + rest) && name[1..] == WORD + rest;
    var m1 := m.(state := FIELDS_i);
    FeedF(m);
    RunStep(m, 'F', m1, WORD + rest);
    RunConcat(m1, WORD, rest);
    RunWholeWord(m1);
    LeavesFieldsEqual(m.(s := WORD, state := FIELDS_EQUAL), rest);
  }

  lemma FeedF(m: Machine)
    requires m.state == FIELDS_F
    ensures Feed(m, 'F') == Go(m.(state := FIELDS_i))
  {
  }

  lemma RunWholeWord(m: Machine)
    requires m.state == FIELDS_i && m.s == ""
    ensures Run(m, WORD) == Go(m.(s := WORD, state := FIELDS_EQUAL))
  {
    RunWord(m, 0, 5);
    assert WORD[0..5] == WORD && m.s + WORD == WORD;
  }

  lemma LeavesFieldsEqual(m: Machine, rest: string)
    requires m.state == FIELDS_EQUAL && IsName(rest)
    ensures Run(m, rest) == Go(m.(s := m.s + rest, state := FIELD_NAME))
  {
    CollectName(m.(s := m.s + [rest[0]], state := FIELD_NAME), rest[1..]);
    assert m.s + [rest[0]] + rest[1..] == m.s + rest;
  }

  /** Its value cannot start with a brace. */
  lemma LongNameThrows(m: Machine, name: string, tail: string, n: nat)
    requires m.state == FIELDS_F && m.s == "" && HasTop(m) && IsName(name) && ExtendsFields(name)
    ensures Run(m, Header(name, n) + tail) == Thrown
  {
    SkipIndent(m, n);
    RunLongName(m, name);
    NoBlockAsValue(m.(s := name[1..], state := FIELD_NAME));
    RunConcat3(m, Indent(n), name, OPEN);
    RunConcat(m, Header(name, n), tail);
  }

  /** No component can be read inside a field block. */
  lemma ComponentInFieldsThrows(m: Machine, name: string, tail: string, n: nat)
    requires m.state == FIELDS_CONTENT && m.s == "" && HasTop(m) && IsName(name)
    ensures Run(m, Header(name, n) + tail) == Thrown
  {
    SkipIndent(m, n);
    RunName(m, name, FIELD_NAME);
    NoBlockAsValue(m.(s := name, state := FIELD_NAME));
    RunConcat3(m, Indent(n), name, OPEN);
    RunConcat(m, Header(name, n), tail);
  }

  /** `= {` after the name of a field. */
  lemma NoBlockAsValue(m: Machine)
    requires m.state == FIELD_NAME && HasTop(m)
    ensures Run(m, OPEN) == Thrown
  {
    RunEquals(m);
    assert OPEN == " = " + "{\n";
    RunConcat(m, " = ", "{\n");
    BraceIsNoValue(PushField(m).m.(state := FIELD_CONTENT));
  }

  lemma BraceIsNoValue(m: Machine)
    requires m.state == FIELD_CONTENT
    ensures Run(m, "{\n") == Thrown
  {
    assert "{\n" == ['{'] + "\n";
    RunCons(m, '{', "\n");
  }
}
