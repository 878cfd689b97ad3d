/** The byte buffer through which connected fields are sent and loaded. */
module DataShare {
  type Byte = bv8

  function Concat(values: seq<seq<Byte>>): seq<Byte> {
    if values == [] then [] else values[0] + Concat(values[1..])
  }

  /** The values cut out of a buffer, one after the other. */
  function Split(data: seq<Byte>, sizes: seq<nat>): (r: seq<seq<Byte>>)
    requires Total(sizes) <= |data|
    ensures |r| == |sizes|
    decreases |sizes|
  {
    if sizes == [] then [] else [data[..sizes[0]]] + Split(data[sizes[0]..], sizes[1..])
  }

  function Total(sizes: seq<nat>): nat {
    if sizes == [] then 0 else sizes[0] + Total(sizes[1..])
  }

  function Sizes(values: seq<seq<Byte>>): (r: seq<nat>)
    ensures |r| == |values| && forall i :: 0 <= i < |r| ==> r[i] == |values[i]|
  {
    seq(|values|, i requires 0 <= i < |values| => |values[i]|)
  }

  lemma {:induction false} SplitConcat(values: seq<seq<Byte>>)
    ensures Total(Sizes(values)) == |Concat(values)|
    ensures Split(Concat(values), Sizes(values)) == values
    decreases |values|
  {
    if values != [] {
      assert Sizes(values)[1..] == Sizes(values[1..]);
      SplitConcat(values[1..]);
      assert Concat(values)[..|values[0]|] == values[0];
      assert Concat(values)[|values[0]|..] == Concat(values[1..]);
    }
  }

  lemma {:induction false} ConcatSnoc(values: seq<seq<Byte>>, v: seq<Byte>)
    ensures Concat(values + [v]) == Concat(values) + v
    decreases |values|
  {
    if values == [] {
      assert ([v] + [])[1..] == [];
      assert values + [v] == [v];
      assert Concat([v]) == v + Concat([]);
    } else {
      assert (values + [v])[1..] == values[1..] + [v];
      ConcatSnoc(values[1..], v);
    }
  }

  class Field {
    var value: seq<Byte>

    constructor (value: seq<Byte>)
      ensures this.value == value
    {
      this.value := value;
    }
  }

  ghost function Values(fields: seq<Field>): (r: seq<seq<Byte>>)
    reads fields
    ensures |r| == |fields| && forall i :: 0 <= i < |r| ==> r[i] == fields[i].value
  {
    seq(|fields|, i requires 0 <= i < |fields| reads fields => fields[i].value)
  }

  class Share {
    var buf: seq<Byte>

    constructor ()
      ensures buf == []
    {
      buf := [];
    }

    method Store(bytes: seq<Byte>)
      modifies this
      ensures buf == old(buf) + bytes
    {
      buf := buf + bytes;
    }

    method Restore(size: nat) returns (bytes: seq<Byte>)
      requires size <= |buf|
      modifies this
      ensures bytes == old(buf)[..size] && buf == old(buf)[size..]
    {
      bytes := buf[..size];
      buf := buf[size..];
    }

    /** `retrieveData`. */
    method RetrieveData(outputs: seq<Field>) returns (data: seq<Byte>)
      modifies this
      ensures data == Concat(Values(outputs))
    {
      buf := [];
      var i := 0;
      while i < |outputs|
        invariant 0 <= i <= |outputs|
        invariant buf == Concat(Values(outputs)[..i])
      {
        Store(outputs[i].value);
        ConcatSnoc(Values(outputs)[..i], outputs[i].value);
        assert Values(outputs)[..i + 1] == Values(outputs)[..i] + [outputs[i].value];
        i := i + 1;
      }
      assert Values(outputs)[..i] == Values(outputs);
      data := buf;
    }

    method LoadField(input: Field, ghost sizes: seq<nat>)
      requires sizes != [] && |input.value| == sizes[0] && Total(sizes) <= |buf|
      modifies this, input
      ensures Total(sizes[1..]) <= |buf|
      ensures Split(old(buf), sizes) == [input.value] + Split(buf, sizes[1..])
      ensures |input.value| == old(|input.value|)
    {
      input.value := Restore(|input.value|);
    }

    /** `loadData`: every input takes as many bytes as it is long. */
    method LoadData(inputs: seq<Field>, data: seq<Byte>)
      requires forall i, j :: 0 <= i < j < |inputs| ==> inputs[i] != inputs[j]
      requires Total(Sizes(Values(inputs))) <= |data|
      modifies this, inputs
      ensures Values(inputs) == Split(data, Sizes(old(Values(inputs))))
    {
      buf := data;
      ghost var sizes := Sizes(Values(inputs));
      ghost var parts := Split(data, sizes);
      var i := 0;
      while i < |inputs|
        invariant 0 <= i <= |inputs| && |sizes| == |parts| == |inputs|
        invariant forall k :: i <= k < |inputs| ==> |inputs[k].value| == sizes[k]
        invariant Total(sizes[i..]) <= |buf|
        invariant forall k :: 0 <= k < i ==> inputs[k].value == parts[k]
        invariant Split(buf, sizes[i..]) == parts[i..]
      {
        assert sizes[i..][1..] == sizes[i + 1..];
        ghost var rest := Split(buf, sizes[i..]);
        LoadField(inputs[i], sizes[i..]);
        assert inputs[i].value == rest[0] == parts[i];
        assert rest[1..] == parts[i + 1..];
        i := i + 1;
      }
    }
  }

  /** Loading what a peer with fields of the same sizes sent gives each field the peer's value. */
  method Transfer(from: Share, to: Share, outputs: seq<Field>, inputs: seq<Field>)
    requires |outputs| == |inputs|
    requires forall i :: 0 <= i < |inputs| ==> |inputs[i].value| == |outputs[i].value|
    requires forall i, j :: 0 <= i < j < |inputs| ==> inputs[i] != inputs[j]
    modifies from, to, inputs
    ensures forall i :: 0 <= i < |inputs| ==> inputs[i].value == old(outputs[i].value)
  {
    ghost var sent := Values(outputs);
    var data := from.RetrieveData(outputs);
    assert Values(outputs) == sent;
    SplitConcat(sent);
    assert Sizes(Values(inputs)) == Sizes(sent);
    to.LoadData(inputs, data);
    assert Values(inputs) == sent;
  }
}
