/** The state vector as a tree, the text the writer produces for it, and the writer itself. */
module StorageText {
  datatype Field = Field(name: string, value: string)
  datatype Component = Component(name: string, fields: seq<Field>, containers: seq<Container>)
  datatype Container = Container(name: string, components: seq<Component>)

  predicate IsSkipChar(c: char) { c == ' ' || c == '\n' || c == '\t' || c == '\r' }

  predicate IsNameChar(c: char) { '0' <= c <= '9' || 'a' <= c <= 'z' || 'A' <= c <= 'Z' }

  predicate IsValueChar(c: char) { '0' <= c <= '9' || 'a' <= c <= 'f' }

  predicate IsName(s: string) { s != [] && forall i :: 0 <= i < |s| ==> IsNameChar(s[i]) }

  predicate IsValue(s: string) { s != [] && forall i :: 0 <= i < |s| ==> IsValueChar(s[i]) }

  predicate FieldsNamed(fs: seq<Field>) {
    forall f :: f in fs ==> IsName(f.name) && IsValue(f.value)
  }

  /** Alphanumeric names and hexadecimal values, none of them empty. */
  predicate ComponentNamed(c: Component)
    decreases c, 1
  {
    IsName(c.name) && FieldsNamed(c.fields) && ContainersNamed(c.containers)
  }

  predicate ComponentsNamed(cs: seq<Component>)
    decreases cs, 0
  {
    cs != [] ==> ComponentNamed(cs[0]) && ComponentsNamed(cs[1..])
  }

  predicate ContainerNamed(c: Container)
    decreases c, 1
  {
    IsName(c.name) && ComponentsNamed(c.components)
  }

  predicate ContainersNamed(cs: seq<Container>)
    decreases cs, 0
  {
    cs != [] ==> ContainerNamed(cs[0]) && ContainersNamed(cs[1..])
  }

  // ---- printed text ------------------------------------------------------------------------

  function Indent(n: nat): string {
    if n == 0 then "" else "    " + Indent(n - 1)
  }

  const OPEN := " = {\n"
  const CLOSE := "}\n"

  function PrintField(f: Field, n: nat): string {
    Indent(n) + f.name + " = " + f.value + "\n"
  }

  function PrintFields(fs: seq<Field>, n: nat): string {
    if fs == [] then "" else PrintField(fs[0], n) + PrintFields(fs[1..], n)
  }

  function Header(name: string, n: nat): string { Indent(n) + name + OPEN }

  function Footer(n: nat): string { Indent(n) + CLOSE }

  function FieldBlock(fs: seq<Field>, n: nat): string {
    Header("Fields", n) + PrintFields(fs, n + 1) + Footer(n)
  }

  function PrintComponent(c: Component, n: nat): string
    decreases c, 1
  {
    Header(c.name, n) + FieldBlock(c.fields, n + 1) + PrintContainers(c.containers, n + 1) + Footer(n)
  }

  function PrintComponents(cs: seq<Component>, n: nat): string
    decreases cs, 0
  {
    if cs == [] then "" else PrintComponent(cs[0], n) + PrintComponents(cs[1..], n)
  }

  function PrintContainer(c: Container, n: nat): string
    decreases c, 1
  {
    Header(c.name, n) + PrintComponents(c.components, n + 1) + Footer(n)
  }

  function PrintContainers(cs: seq<Container>, n: nat): string
    decreases cs, 0
  {
    if cs == [] then "" else PrintContainer(cs[0], n) + PrintContainers(cs[1..], n)
  }

  function Print(containers: seq<Container>): string {
    PrintContainers(containers, 0)
  }

  const DECIMALS := "0123456789"
  const LOWER_CASE := "abcdefghijklmnopqrstuvwxyz"
  const UPPER_CASE := "ABCDEFGHIJKLMNOPQRSTUVWXYZ"

  lemma InRange(c: char, alphabet: string, first: char)
    requires forall i :: 0 <= i < |alphabet| ==> alphabet[i] as int == first as int + i
    ensures c in alphabet <==> first as int <= c as int < first as int + |alphabet|
  {
    var i := c as int - first as int;
    if 0 <= i < |alphabet| { assert alphabet[i] == c; }
  }

  /** Names are made of the 62 letters and digits, values of the 16 hexadecimal digits. */
  lemma Alphabets(c: char)
    ensures IsNameChar(c) <==> c in DECIMALS || c in LOWER_CASE || c in UPPER_CASE
    ensures IsValueChar(c) <==> c in DECIMALS || c in "abcdef"
    ensures IsSkipChar(c) <==> c in " \t\r\n"
  {
    InRange(c, DECIMALS, '0');
    InRange(c, LOWER_CASE, 'a');
    InRange(c, UPPER_CASE, 'A');
    InRange(c, "abcdef", 'a');
  }

  lemma Blanks()
    ensures Indent(0) == "" && Indent(1) == "    " && Indent(2) == "        " && Indent(3) == "            "
  {
  }

  lemma OneField(name: string, value: string)
    ensures PrintFields([Field(name, value)], 3) == "            " + name + " = " + value + "\n"
  {
    Blanks();
    assert [Field(name, value)][1..] == [];
    assert PrintFields([Field(name, value)], 3) == PrintField(Field(name, value), 3) + "";
  }

  lemma OneBlock(name: string, value: string)
    ensures FieldBlock([Field(name, value)], 2) ==
      "        Fields = {\n" + ("            " + name + " = " + value + "\n") + "        }\n"
  {
    OneField(name, value);
    Blanks();
  }

  lemma OneComponent(name: string, field: string, value: string)
    ensures PrintComponent(Component(name, [Field(field, value)], []), 1) ==
      "    " + name + " = {\n"
      + ("        Fields = {\n" + ("            " + field + " = " + value + "\n") + "        }\n")
      + "    }\n"
  {
    OneBlock(field, value);
    Blanks();
  }

  /** How it looks. */
  lemma PrintedText(container: string, component: string, field: string, value: string)
    ensures Print([Container(container, [Component(component, [Field(field, value)], [])])]) ==
      container + " = {\n"
      + ("    " + component + " = {\n"
         + ("        Fields = {\n" + ("            " + field + " = " + value + "\n") + "        }\n")
         + "    }\n")
      + "}\n"
  {
    OneComponent(component, field, value);
    var c := Component(component, [Field(field, value)], []);
    assert [c][1..] == [] && PrintComponents([c], 1) == PrintComponent(c, 1) + "";
    var d := Container(container, [c]);
    assert [d][1..] == [] && PrintContainers([d], 0) == PrintContainer(d, 0) + "";
    Blanks();
    assert Indent(0) + container == container;
  }

  // ---- the writer --------------------------------------------------------------------------

  lemma {:induction false} IndentSnoc(n: nat)
    ensures Indent(n + 1) == Indent(n) + "    "
  {
    if n > 0 {
      IndentSnoc(n - 1);
      assert Indent(n + 1) == "    " + (Indent(n - 1) + "    ");
    }
  }

  lemma {:induction false} PrintFieldsSnoc(fs: seq<Field>, f: Field, n: nat)
    ensures PrintFields(fs + [f], n) == PrintFields(fs, n) + PrintField(f, n)
  {
    if fs == [] {
      assert fs + [f] == [f];
      assert PrintFields([f], n) == PrintField(f, n) + PrintFields([], n);
    } else {
      assert (fs + [f])[1..] == fs[1..] + [f];
      PrintFieldsSnoc(fs[1..], f, n);
    }
  }

  lemma {:induction false} PrintComponentsSnoc(cs: seq<Component>, c: Component, n: nat)
    ensures PrintComponents(cs + [c], n) == PrintComponents(cs, n) + PrintComponent(c, n)
  {
    if cs == [] {
      assert cs + [c] == [c];
      assert PrintComponents([c], n) == PrintComponent(c, n) + PrintComponents([], n);
    } else {
      assert (cs + [c])[1..] == cs[1..] + [c];
      PrintComponentsSnoc(cs[1..], c, n);
    }
  }

  lemma {:induction false} PrintContainersSnoc(cs: seq<Container>, c: Container, n: nat)
    ensures PrintContainers(cs + [c], n) == PrintContainers(cs, n) + PrintContainer(c, n)
  {
    if cs == [] {
      assert cs + [c] == [c];
      assert PrintContainers([c], n) == PrintContainer(c, n) + PrintContainers([], n);
    } else {
      assert (cs + [c])[1..] == cs[1..] + [c];
      PrintContainersSnoc(cs[1..], c, n);
    }
  }

  lemma JoinFour(out: string, a: string, b: string, c: string, d: string)
    ensures out + a + b + c + d == out + (a + b + c + d)
  {
  }

  lemma Assoc(o: string, a: string, b: string, c: string)
    ensures o + a + b == o + (a + b)
    ensures o + a + b + c == o + (a + b + c)
  {
  }

  class StorageWriter {
    var out: string
    var indent: nat

    constructor ()
      ensures out == "" && indent == 0
    {
      out, indent := "", 0;
    }

    method WriteIndent()
      modifies this`out
      ensures out == old(out) + Indent(indent)
    {
      var i := 0;
      while i < indent
        invariant 0 <= i <= indent && out == old(out) + Indent(i)
      {
        IndentSnoc(i);
        out := out + "    ";
        i := i + 1;
      }
    }

    /** `name = {` and one level deeper. */
    method WriteHeader(name: string)
      modifies this
      ensures out == old(out) + Header(name, old(indent)) && indent == old(indent) + 1
    {
      WriteIndent();
      out := out + name;
      out := out + OPEN;
      indent := indent + 1;
    }

    /** Back one level and `}`. */
    method WriteFooter()
      requires indent > 0
      modifies this
      ensures indent == old(indent) - 1 && out == old(out) + Footer(indent)
    {
      indent := indent - 1;
      WriteIndent();
      out := out + CLOSE;
    }

    method StoreField(field: Field)
      modifies this`out
      ensures out == old(out) + PrintField(field, indent)
    {
      WriteIndent();
      out := out + field.name + " = ";
      out := out + field.value;
      out := out + "\n";
    }

    method StoreFields(fields: seq<Field>)
      modifies this`out
      ensures out == old(out) + PrintFields(fields, indent)
    {
      var i := 0;
      while i < |fields|
        invariant 0 <= i <= |fields| && out == old(out) + PrintFields(fields[..i], indent)
      {
        PrintFieldsSnoc(fields[..i], fields[i], indent);
        assert fields[..i + 1] == fields[..i] + [fields[i]];
        StoreField(fields[i]);
        i := i + 1;
      }
      assert fields[..i] == fields;
    }

    method StoreFieldBlock(fields: seq<Field>)
      modifies this
      ensures out == old(out) + FieldBlock(fields, indent) && indent == old(indent)
    {
      WriteHeader("Fields");
      StoreFields(fields);
      WriteFooter();
    }

    method StoreComponent(component: Component)
      modifies this
      ensures out == old(out) + PrintComponent(component, indent) && indent == old(indent)
      decreases component, 1
    {
      JoinFour(out, Header(component.name, indent), FieldBlock(component.fields, indent + 1),
               PrintContainers(component.containers, indent + 1), Footer(indent));
      WriteHeader(component.name);
      StoreFieldBlock(component.fields);
      StoreContainers(component.containers);
      WriteFooter();
    }

    method StoreContainer(container: Container)
      modifies this
      ensures out == old(out) + PrintContainer(container, indent) && indent == old(indent)
      decreases container, 1
    {
      Assoc(out, Header(container.name, indent), PrintComponents(container.components, indent + 1), Footer(indent));
      WriteHeader(container.name);
      StoreComponents(container.components);
      WriteFooter();
    }

    method StoreComponents(components: seq<Component>)
      modifies this
      ensures out == old(out) + PrintComponents(components, indent) && indent == old(indent)
      decreases components, 0
    {
      var i := 0;
      while i < |components|
        invariant 0 <= i <= |components| && indent == old(indent)
        invariant out == old(out) + PrintComponents(components[..i], indent)
      {
        PrintComponentsSnoc(components[..i], components[i], indent);
        Assoc(old(out), PrintComponents(components[..i], indent), PrintComponent(components[i], indent), "");
        assert components[..i + 1] == components[..i] + [components[i]];
        StoreComponent(components[i]);
        i := i + 1;
      }
      assert components[..i] == components;
    }

    method StoreContainers(containers: seq<Container>)
      modifies this
      ensures out == old(out) + PrintContainers(containers, indent) && indent == old(indent)
      decreases containers, 0
    {
      var i := 0;
      while i < |containers|
        invariant 0 <= i <= |containers| && indent == old(indent)
        invariant out == old(out) + PrintContainers(containers[..i], indent)
      {
        PrintContainersSnoc(containers[..i], containers[i], indent);
        Assoc(old(out), PrintContainers(containers[..i], indent), PrintContainer(containers[i], indent), "");
        assert containers[..i + 1] == containers[..i] + [containers[i]];
        StoreContainer(containers[i]);
        i := i + 1;
      }
      assert containers[..i] == containers;
    }
  }
}
