/** The character automaton that reads a state vector, one function per `case`; a case
    that ends without `break` continues with the next function. */
module StorageParser {
  import opened StorageText

  datatype State =
    | NEXT_IS_CONT | CONT_NAME | CONT_EQUAL | CONT_LBRACE | CONT_CONTENT
    | NEXT_IS_COMP | COMP_NAME | COMP_EQUAL | COMP_LBRACE
    | FIELDS_F | FIELDS_i | FIELDS_e | FIELDS_l | FIELDS_d | FIELDS_s
    | FIELDS_EQUAL | FIELDS_LBRACE | FIELDS_CONTENT
    | FIELD_NAME | FIELD_EQUAL | FIELD_CONTENT | FIELD_VALUE

  /** `stack` holds the components the parent pointers denote, the root first; a component joins
      its parent when its pointer is popped. `rootOpen` is false once the root was popped too. */
  datatype Machine = Machine(state: State, s: string, stack: seq<Component>, rootOpen: bool)

  /** `Undefined`: the source dereferences the back of an empty vector. */
  datatype Result = Go(m: Machine) | Thrown | Undefined

  predicate HasTop(m: Machine) { m.rootOpen && m.stack != [] }

  function Top(m: Machine): Component
    requires HasTop(m)
  {
    m.stack[|m.stack| - 1]
  }

  function WithTop(m: Machine, c: Component): Machine
    requires HasTop(m)
  {
    m.(stack := m.stack[..|m.stack| - 1] + [c])
  }

  function PushContainer(m: Machine): Result {
    if !HasTop(m) then Undefined
    else
      var top := Top(m);
      Go(WithTop(m, top.(containers := top.containers + [Container(m.s, [])])).(s := "", state := CONT_EQUAL))
  }

  function PushComponent(m: Machine): Result {
    if !HasTop(m) || Top(m).containers == [] then Undefined
    else Go(m.(stack := m.stack + [Component(m.s, [], [])], s := "", state := COMP_EQUAL))
  }

  function PushField(m: Machine): Result {
    if !HasTop(m) then Undefined
    else
      var top := Top(m);
      Go(WithTop(m, top.(fields := top.fields + [Field(m.s, "")])).(s := "", state := FIELD_EQUAL))
  }

  function SetValue(m: Machine): Result {
    if !HasTop(m) || Top(m).fields == [] then Undefined
    else
      var top := Top(m);
      var last := |top.fields| - 1;
      Go(WithTop(m, top.(fields := top.fields[..last] + [top.fields[last].(value := m.s)]))
         .(s := "", state := FIELDS_CONTENT))
  }

  /** The component becomes the last one of its parent's last container. */
  function Adopt(parent: Component, child: Component): Component {
    if parent.containers == [] then parent
    else
      var last := |parent.containers| - 1;
      var cont := parent.containers[last];
      parent.(containers := parent.containers[..last] + [cont.(components := cont.components + [child])])
  }

  function Pop(m: Machine, state: State): Result {
    if !HasTop(m) then Undefined
    else if |m.stack| == 1 then Go(m.(rootOpen := false, state := state))
    else
      var n := |m.stack|;
      Go(m.(stack := m.stack[..n - 2] + [Adopt(m.stack[n - 2], m.stack[n - 1])], state := state))
  }

  function Collect(m: Machine, c: char, state: State): Result {
    Go(m.(s := m.s + [c], state := state))
  }

  function To(m: Machine, state: State): Result { Go(m.(state := state)) }

  function NextIsCont(m: Machine, c: char): Result {
    if IsNameChar(c) then Collect(m, c, CONT_NAME)
    else if c == '}' then Pop(m, NEXT_IS_COMP)
    else if IsSkipChar(c) then Go(m)
    else ContName(m, c)
  }

  function ContName(m: Machine, c: char): Result {
    if IsNameChar(c) then Collect(m, c, m.state)
    else if IsSkipChar(c) then PushContainer(m)
    else ContEqual(m, c)
  }

  function ContEqual(m: Machine, c: char): Result {
    if c == '=' then To(m, CONT_LBRACE) else if IsSkipChar(c) then Go(m) else ContLBrace(m, c)
  }

  function ContLBrace(m: Machine, c: char): Result {
    if c == '{' then To(m, CONT_CONTENT) else if IsSkipChar(c) then Go(m) else ContContent(m, c)
  }

  function ContContent(m: Machine, c: char): Result {
    if c == '}' then To(m.(s := ""), NEXT_IS_CONT)
    else if IsNameChar(c) then Collect(m, c, COMP_NAME)
    else if IsSkipChar(c) then Go(m)
    else NextIsComp(m, c)
  }

  function NextIsComp(m: Machine, c: char): Result {
    if IsNameChar(c) then Collect(m, c, COMP_NAME)
    else if c == '}' then To(m, NEXT_IS_CONT)
    else if IsSkipChar(c) then Go(m)
    else CompName(m, c)
  }

  function CompName(m: Machine, c: char): Result {
    if IsNameChar(c) then Collect(m, c, m.state)
    else if IsSkipChar(c) then PushComponent(m)
    else CompEqual(m, c)
  }

  function CompEqual(m: Machine, c: char): Result {
    if c == '=' then To(m, COMP_LBRACE) else if IsSkipChar(c) then Go(m) else CompLBrace(m, c)
  }

  function CompLBrace(m: Machine, c: char): Result {
    if c == '{' then To(m, FIELDS_F) else if IsSkipChar(c) then Go(m) else FieldsF(m, c)
  }

  /** The 'F' that may start the word Fields is not collected. */
  function FieldsF(m: Machine, c: char): Result {
    if c == '}' then Pop(m.(s := ""), CONT_CONTENT)
    else if c == 'F' then To(m, FIELDS_i)
    else if IsNameChar(c) then Collect(m, c, CONT_NAME)
    else if IsSkipChar(c) then Go(m)
    else FieldsWord(m, c, 0)
  }

  const WORD := "ields"

  /** The cases FIELDS_i to FIELDS_s, `k` letters into the word: each collects the character
      before looking at it. */
  function FieldsWord(m: Machine, c: char, k: nat): Result
    requires k <= 5
    decreases 5 - k
  {
    if k == 5 then FieldsEqual(m, c)
    else
      var m' := m.(s := m.s + [c]);
      if c == WORD[k] then To(m', WordState(k + 1))
      else if IsNameChar(c) then To(m', CONT_NAME)
      else FieldsWord(m', c, k + 1)
  }

  function WordState(k: nat): State
    requires k <= 5
  {
    [FIELDS_i, FIELDS_e, FIELDS_l, FIELDS_d, FIELDS_s, FIELDS_EQUAL][k]
  }

  function FieldsEqual(m: Machine, c: char): Result {
    if c == '=' then To(m.(s := ""), FIELDS_LBRACE)
    else if IsSkipChar(c) then Go(m)
    else FieldsLBrace(m, c)
  }

  function FieldsLBrace(m: Machine, c: char): Result {
    if c == '{' then To(m, FIELDS_CONTENT) else if IsSkipChar(c) then Go(m) else FieldsContent(m, c)
  }

  function FieldsContent(m: Machine, c: char): Result {
    if c == '}' then To(m, FIELDS_F)
    else if IsNameChar(c) then Collect(m, c, FIELD_NAME)
    else if IsSkipChar(c) then Go(m)
    else FieldName(m, c)
  }

  function FieldName(m: Machine, c: char): Result {
    if IsNameChar(c) then Collect(m, c, m.state)
    else if IsSkipChar(c) then PushField(m)
    else FieldEqual(m, c)
  }

  function FieldEqual(m: Machine, c: char): Result {
    if c == '=' then To(m, FIELD_CONTENT) else if IsSkipChar(c) then Go(m) else FieldContent(m, c)
  }

  function FieldContent(m: Machine, c: char): Result {
    if IsValueChar(c) then Collect(m, c, FIELD_VALUE) else if IsSkipChar(c) then Go(m) else FieldValue(m, c)
  }

  function FieldValue(m: Machine, c: char): Result {
    if IsNameChar(c) then Collect(m, c, m.state)
    else if IsSkipChar(c) then SetValue(m)
    else Thrown
  }

  function Feed(m: Machine, c: char): Result {
    match m.state
    case NEXT_IS_CONT => NextIsCont(m, c)
    case CONT_NAME => ContName(m, c)
    case CONT_EQUAL => ContEqual(m, c)
    case CONT_LBRACE => ContLBrace(m, c)
    case CONT_CONTENT => ContContent(m, c)
    case NEXT_IS_COMP => NextIsComp(m, c)
    case COMP_NAME => CompName(m, c)
    case COMP_EQUAL => CompEqual(m, c)
    case COMP_LBRACE => CompLBrace(m, c)
    case FIELDS_F => FieldsF(m, c)
    case FIELDS_i => FieldsWord(m, c, 0)
    case FIELDS_e => FieldsWord(m, c, 1)
    case FIELDS_l => FieldsWord(m, c, 2)
    case FIELDS_d => FieldsWord(m, c, 3)
    case FIELDS_s => FieldsWord(m, c, 4)
    case FIELDS_EQUAL => FieldsEqual(m, c)
    case FIELDS_LBRACE => FieldsLBrace(m, c)
    case FIELDS_CONTENT => FieldsContent(m, c)
    case FIELD_NAME => FieldName(m, c)
    case FIELD_EQUAL => FieldEqual(m, c)
    case FIELD_CONTENT => FieldContent(m, c)
    case FIELD_VALUE => FieldValue(m, c)
  }

  function Run(m: Machine, text: string): Result
    decreases |text|
  {
    if text == "" then Go(m)
    else
      match Feed(m, text[0])
      case Go(m') => Run(m', text[1..])
      case r => r
  }

  const ROOT := Component("", [], [])
  const INITIAL := Machine(NEXT_IS_CONT, "", [ROOT], true)

  /** What `_parse` returns; the end of the text is noticed only between containers. */
  datatype Outcome = Parsed(containers: seq<Container>) | Exception | NoResult

  function Collapse(stack: seq<Component>): Component
    requires stack != []
    decreases |stack|
  {
    if |stack| == 1 then stack[0]
    else
      var n := |stack|;
      Collapse(stack[..n - 2] + [Adopt(stack[n - 2], stack[n - 1])])
  }

  function AtEnd(r: Result): Outcome {
    match r
    case Go(m) => if m.state.NEXT_IS_CONT? && m.stack != [] then Parsed(Collapse(m.stack).containers) else NoResult
    case Thrown => Exception
    case Undefined => NoResult
  }

  function Parse(text: string): Outcome { AtEnd(Run(INITIAL, text)) }

  /** `_parse` as the loop it is. */
  method ParseText(text: string) returns (outcome: Outcome)
    ensures outcome == Parse(text)
  {
    var m := INITIAL;
    var i := 0;
    while i < |text|
      invariant 0 <= i <= |text|
      invariant Run(INITIAL, text) == Run(m, text[i..])
    {
      var c := text[i];
      assert text[i..][1..] == text[i + 1..];
      match Feed(m, c) {
        case Go(m') => m := m';
        case Thrown => return Exception;
        case Undefined => return NoResult;
      }
      i := i + 1;
    }
    outcome := if m.state.NEXT_IS_CONT? && m.stack != [] then Parsed(Collapse(m.stack).containers) else NoResult;
  }

  // ---- running over concatenated text ------------------------------------------------------

  function Then(r: Result, text: string): Result {
    match r
    case Go(m) => Run(m, text)
    case _ => r
  }

  lemma {:induction false} RunConcat(m: Machine, a: string, b: string)
    ensures Run(m, a + b) == Then(Run(m, a), b)
    decreases |a|
  {
    if a == "" {
      assert a + b == b;
    } else {
      assert (a + b)[1..] == a[1..] + b;
      match Feed(m, a[0])
      case Go(m') => RunConcat(m', a[1..], b);
      case _ =>
    }
  }

  lemma RunConcat3(m: Machine, a: string, b: string, c: string)
    ensures Run(m, a + b + c) == Then(Then(Run(m, a), b), c)
  {
    RunConcat(m, a + b, c);
    RunConcat(m, a, b);
  }

  lemma RunConcat4(m: Machine, a: string, b: string, c: string, d: string)
    ensures Run(m, a + b + c + d) == Then(Then(Then(Run(m, a), b), c), d)
  {
    RunConcat(m, a + b + c, d);
    RunConcat3(m, a, b, c);
  }

  /** Blanks between tokens change nothing. */
  predicate SkipsBlanks(state: State) {
    state in {NEXT_IS_CONT, CONT_EQUAL, CONT_LBRACE, CONT_CONTENT, NEXT_IS_COMP, COMP_EQUAL, COMP_LBRACE,
              FIELDS_F, FIELDS_EQUAL, FIELDS_LBRACE, FIELDS_CONTENT, FIELD_EQUAL, FIELD_CONTENT}
  }

  lemma {:induction false} SkipBlanks(m: Machine, text: string)
    requires SkipsBlanks(m.state) && forall i :: 0 <= i < |text| ==> IsSkipChar(text[i])
    ensures Run(m, text) == Go(m)
    decreases |text|
  {
    if text != "" { SkipBlanks(m, text[1..]); }
  }

  lemma {:induction false} IndentIsBlank(n: nat)
    ensures |Indent(n)| == 4 * n && forall i :: 0 <= i < |Indent(n)| ==> Indent(n)[i] == ' '
  {
    if n > 0 { IndentIsBlank(n - 1); }
  }

  lemma SkipIndent(m: Machine, n: nat)
    requires SkipsBlanks(m.state)
    ensures Run(m, Indent(n)) == Go(m)
  {
    IndentIsBlank(n);
    SkipBlanks(m, Indent(n));
  }

  lemma {:induction false} CollectName(m: Machine, text: string)
    requires m.state in {CONT_NAME, COMP_NAME, FIELD_NAME, FIELD_VALUE}
    requires forall i :: 0 <= i < |text| ==> IsNameChar(text[i])
    ensures Run(m, text) == Go(m.(s := m.s + text))
    decreases |text|
  {
    if text == "" {
      assert m.s + text == m.s;
    } else {
      CollectName(m.(s := m.s + [text[0]]), text[1..]);
      assert m.s + [text[0]] + text[1..] == m.s + text;
    }
  }
}
