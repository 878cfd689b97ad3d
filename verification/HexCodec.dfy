/** Bytes stored as pairs of hexadecimal digits, and read back with formatted extraction, which
    skips white space. */
module HexCodec {
  import opened Options
  import opened StorageText

  const DIGITS := "0123456789abcdef"

  function Digit(n: bv8): char
    requires n < 16
  {
    DIGITS[n as int]
  }

  /** `_getHexPos`, for every character, kept to eight bits. */
  function HexPos(c: char): bv8 {
    if c <= '9' then ((c as int - '0' as int) % 256) as bv8 else ((c as int - 'a' as int + 10) % 256) as bv8
  }

  function EncodeByte(b: bv8): string {
    [Digit((b & 0xF0) >> 4), Digit(b & 0x0F)]
  }

  function Encode(bytes: seq<bv8>): string {
    if bytes == [] then "" else EncodeByte(bytes[0]) + Encode(bytes[1..])
  }

  function DecodeByte(high: char, low: char): bv8 {
    (HexPos(high) << 4) | HexPos(low)
  }

  predicate IsSpace(c: char) { c in " \n\t\r\U{000B}\U{000C}" }

  /** The six characters the C locale calls white space. */
  lemma WhiteSpace(c: char)
    ensures IsSpace(c) <==> c == ' ' || 9 <= c as int <= 13
  {
  }

  /** `>>` on a character: the next one that is not white space, and what follows it. */
  function Extract(text: string): Option<(char, string)> {
    if text == "" then None
    else if IsSpace(text[0]) then Extract(text[1..])
    else Some((text[0], text[1..]))
  }

  function ReadByte(text: string): Option<(bv8, string)> {
    match Extract(text)
    case None => None
    case Some((high, text')) =>
      match Extract(text')
      case None => None
      case Some((low, rest)) => Some((DecodeByte(high, low), rest))
  }

  /** The bytes read and the text left; nothing when the text ends too early, where the source
      goes on with unset characters. */
  function Decode(text: string, size: nat): Option<(seq<bv8>, string)>
    decreases size
  {
    if size == 0 then Some(([], text))
    else
      match ReadByte(text)
      case None => None
      case Some((b, text')) => Prepend(b, Decode(text', size - 1))
  }

  function Prepend(b: bv8, read: Option<(seq<bv8>, string)>): Option<(seq<bv8>, string)> {
    match read
    case None => None
    case Some((bytes, rest)) => Some(([b] + bytes, rest))
  }

  function Stripped(text: string): string {
    if text == "" then ""
    else if IsSpace(text[0]) then Stripped(text[1..])
    else [text[0]] + Stripped(text[1..])
  }

  // ---- one byte ----------------------------------------------------------------------------

  lemma DigitAt(i: int)
    requires 0 <= i < 16
    ensures IsValueChar(DIGITS[i]) && !IsSpace(DIGITS[i])
    ensures DIGITS[i] as int == if i < 10 then '0' as int + i else 'a' as int + i - 10
  {
  }

  lemma HexPosAt(c: char, i: int)
    requires 0 <= i < 16 && c as int == if i < 10 then '0' as int + i else 'a' as int + i - 10
    ensures HexPos(c) == i as bv8
  {
    assert i % 256 == i;
  }

  lemma DigitIsValue(n: bv8)
    requires n < 16
    ensures IsValueChar(Digit(n)) && !IsSpace(Digit(n)) && HexPos(Digit(n)) == n
  {
    var i := n as int;
    DigitAt(i);
    HexPosAt(DIGITS[i], i);
  }

  lemma NibblesMeet(b: bv8)
    ensures (b & 0xF0) >> 4 < 16 && b & 0x0F < 16
    ensures (((b & 0xF0) >> 4) << 4) | (b & 0x0F) == b
  {
  }

  lemma NibblesAre(b: bv8)
    ensures (b & 0xF0) >> 4 == b / 16 && b & 0x0F == b % 16
  {
  }

  /** The high digit comes first. */
  lemma DigitsOfByte(b: bv8)
    ensures HexPos(EncodeByte(b)[0]) == b / 16 && HexPos(EncodeByte(b)[1]) == b % 16
  {
    NibblesAre(b);
    NibblesMeet(b);
    DigitIsValue((b & 0xF0) >> 4);
    DigitIsValue(b & 0x0F);
  }

  lemma ByteRoundTrip(b: bv8)
    ensures DecodeByte(EncodeByte(b)[0], EncodeByte(b)[1]) == b
    ensures forall i :: 0 <= i < 2 ==> IsValueChar(EncodeByte(b)[i]) && !IsSpace(EncodeByte(b)[i])
  {
    NibblesMeet(b);
    DigitIsValue((b & 0xF0) >> 4);
    DigitIsValue(b & 0x0F);
  }

  lemma ValueIsDigit(c: char)
    requires IsValueChar(c)
    ensures HexPos(c) < 16 && Digit(HexPos(c)) == c
  {
    var i := if c <= '9' then c as int - '0' as int else c as int - 'a' as int + 10;
    DigitAt(i);
    HexPosAt(c, i);
    assert DIGITS[i] == c;
  }

  lemma NibblesSplit(high: bv8, low: bv8)
    requires high < 16 && low < 16
    ensures (((high << 4) | low) & 0xF0) >> 4 == high && ((high << 4) | low) & 0x0F == low
  {
  }

  // ---- whole buffers -----------------------------------------------------------------------

  lemma {:induction false} ExtractStrips(text: string)
    ensures Extract(text).None? <==> Stripped(text) == ""
    ensures Extract(text).Some? ==> Stripped(text) == [Extract(text).value.0] + Stripped(Extract(text).value.1)
  {
    if text != "" { ExtractStrips(text[1..]); }
  }

  lemma ReadByteStrips(b: bv8, text: string)
    requires EncodeByte(b) <= Stripped(text)
    ensures ReadByte(text).Some? && ReadByte(text).value.0 == b
    ensures Stripped(text) == EncodeByte(b) + Stripped(ReadByte(text).value.1)
  {
    ByteRoundTrip(b);
    ExtractStrips(text);
    var text' := Extract(text).value.1;
    assert Stripped(text') == Stripped(text)[1..];
    ExtractStrips(text');
  }

  /** What is stored is what is restored, whatever white space lies between the digits. */
  lemma {:induction false} RestoreUndoesStore(bytes: seq<bv8>, text: string)
    requires Encode(bytes) <= Stripped(text)
    ensures Decode(text, |bytes|).Some?
    ensures Decode(text, |bytes|).value.0 == bytes
    ensures Stripped(text) == Encode(bytes) + Stripped(Decode(text, |bytes|).value.1)
    decreases |bytes|
  {
    if bytes == [] {
      NothingRestored(text);
    } else {
      FirstByteRestored(bytes, text);
      var text' := ReadByte(text).value.1;
      RestoreUndoesStore(bytes[1..], text');
      RestBehindFirst(bytes, text, text');
    }
  }

  lemma NothingRestored(text: string)
    ensures Decode(text, 0) == Some(([], text)) && Stripped(text) == Encode([]) + Stripped(text)
  {
    assert "" + Stripped(text) == Stripped(text);
  }

  lemma RestBehindFirst(bytes: seq<bv8>, text: string, text': string)
    requires bytes != [] && ReadByte(text) == Some((bytes[0], text')) && Decode(text', |bytes[1..]|).Some?
    requires Decode(text', |bytes[1..]|).value.0 == bytes[1..]
    requires Stripped(text) == EncodeByte(bytes[0]) + Stripped(text')
    requires Stripped(text') == Encode(bytes[1..]) + Stripped(Decode(text', |bytes[1..]|).value.1)
    ensures Decode(text, |bytes|).Some? && Decode(text, |bytes|).value.0 == bytes
    ensures Stripped(text) == Encode(bytes) + Stripped(Decode(text, |bytes|).value.1)
  {
    assert bytes == [bytes[0]] + bytes[1..];
    Joined(EncodeByte(bytes[0]), Encode(bytes[1..]), Stripped(Decode(text', |bytes[1..]|).value.1));
  }

  lemma FirstByteRestored(bytes: seq<bv8>, text: string)
    requires bytes != [] && Encode(bytes) <= Stripped(text)
    ensures ReadByte(text).Some? && ReadByte(text).value.0 == bytes[0]
    ensures Stripped(text) == EncodeByte(bytes[0]) + Stripped(ReadByte(text).value.1)
    ensures Encode(bytes[1..]) <= Stripped(ReadByte(text).value.1)
  {
    var b, more := EncodeByte(bytes[0]), Encode(bytes[1..]);
    PrefixParts(b, more, Stripped(text));
    ReadByteStrips(bytes[0], text);
    PrefixRest(b, more, Stripped(ReadByte(text).value.1));
  }

  lemma Joined(a: string, b: string, c: string)
    ensures a + (b + c) == a + b + c
  {
  }

  lemma PrefixParts(a: string, b: string, text: string)
    requires a + b <= text
    ensures a <= text
  {
  }

  lemma PrefixRest(a: string, b: string, rest: string)
    ensures a + b <= a + rest ==> b <= rest
  {
    if a + b <= a + rest {
      assert (a + rest)[|a|..] == rest;
      assert (a + rest)[..|a + b|] == a + b;
      assert rest[..|b|] == (a + rest)[|a|..|a + b|] == b;
    }
  }

  lemma {:induction false} EncodeLength(bytes: seq<bv8>)
    ensures |Encode(bytes)| == 2 * |bytes|
    ensures forall i :: 0 <= i < |Encode(bytes)| ==> IsValueChar(Encode(bytes)[i]) && !IsSpace(Encode(bytes)[i])
  {
    if bytes != [] {
      EncodeLength(bytes[1..]);
      ByteRoundTrip(bytes[0]);
      forall i | 0 <= i < |Encode(bytes)|
        ensures IsValueChar(Encode(bytes)[i]) && !IsSpace(Encode(bytes)[i])
      {
        if i >= 2 { assert Encode(bytes)[i] == Encode(bytes[1..])[i - 2]; }
      }
    }
  }

  lemma {:induction false} StrippedAlone(text: string)
    requires forall i :: 0 <= i < |text| ==> !IsSpace(text[i])
    ensures Stripped(text) == text
  {
    if text != "" { StrippedAlone(text[1..]); }
  }

  /** A stored field that is not empty is a value the parser reads. */
  lemma StoredIsValue(bytes: seq<bv8>)
    requires bytes != []
    ensures IsValue(Encode(bytes)) && Stripped(Encode(bytes)) == Encode(bytes)
  {
    EncodeLength(bytes);
    StrippedAlone(Encode(bytes));
  }

  /** The byte of the first two digits. */
  lemma FirstByteRead(text: string) returns (b: bv8, rest: string)
    requires |text| >= 2 && IsValueChar(text[0]) && IsValueChar(text[1])
    ensures rest == text[2..] && text == EncodeByte(b) + rest && ReadByte(text) == Some((b, rest))
  {
    ValueIsDigit(text[0]);
    ValueIsDigit(text[1]);
    NibblesSplit(HexPos(text[0]), HexPos(text[1]));
    assert text[1..][1..] == text[2..];
    assert Extract(text) == Some((text[0], text[1..]));
    assert Extract(text[1..]) == Some((text[1], text[2..]));
    b, rest := DecodeByte(text[0], text[1]), text[2..];
  }

  lemma OneByteMore(text: string, size: nat, b: bv8, rest: string, bytes: seq<bv8>)
    requires size > 0 && ReadByte(text) == Some((b, rest)) && Decode(rest, size - 1) == Some((bytes, ""))
    requires Encode(bytes) == rest && text == EncodeByte(b) + rest
    ensures Decode(text, size) == Some(([b] + bytes, "")) && Encode([b] + bytes) == text
  {
    assert ([b] + bytes)[1..] == bytes;
  }

  lemma {:induction false} BytesOfDigits(text: string, size: nat) returns (bytes: seq<bv8>)
    requires |text| == 2 * size && forall i :: 0 <= i < |text| ==> IsValueChar(text[i])
    ensures Decode(text, size) == Some((bytes, "")) && Encode(bytes) == text
    decreases size
  {
    if size == 0 {
      bytes := [];
    } else {
      var b, rest := FirstByteRead(text);
      var more := BytesOfDigits(rest, size - 1);
      OneByteMore(text, size, b, rest, more);
      bytes := [b] + more;
    }
  }

  /** Storing gives back the digits that were restored, so no two texts of digits stand for the
      same bytes. */
  lemma StoreUndoesRestore(text: string, size: nat)
    requires |text| == 2 * size && forall i :: 0 <= i < |text| ==> IsValueChar(text[i])
    ensures Decode(text, size).Some?
    ensures Encode(Decode(text, size).value.0) == text && Decode(text, size).value.1 == ""
  {
    var bytes := BytesOfDigits(text, size);
  }

  // ---- the storage streams -----------------------------------------------------------------

  lemma {:induction false} EncodeSnoc(bytes: seq<bv8>, b: bv8)
    ensures Encode(bytes + [b]) == Encode(bytes) + EncodeByte(b)
  {
    if bytes == [] {
      assert bytes + [b] == [b] && [b][1..] == [];
    } else {
      assert (bytes + [b])[1..] == bytes[1..] + [b];
      EncodeSnoc(bytes[1..], b);
    }
  }

  class ByteWriter {
    var out: string

    constructor ()
      ensures out == ""
    {
      out := "";
    }

    method Store(buf: array<bv8>)
      modifies this
      ensures out == old(out) + Encode(buf[..])
    {
      var i := 0;
      while i < buf.Length
        invariant 0 <= i <= buf.Length && out == old(out) + Encode(buf[..i])
      {
        EncodeSnoc(buf[..i], buf[i]);
        assert buf[..i + 1] == buf[..i] + [buf[i]];
        out := out + EncodeByte(buf[i]);
        i := i + 1;
      }
      assert buf[..i] == buf[..];
    }
  }

  class ByteReader {
    var input: string

    constructor (text: string)
      ensures input == text
    {
      input := text;
    }

    method ReadChar() returns (c: Option<char>)
      modifies this
      ensures match old(Extract(input))
        case None => c == None && input == ""
        case Some((ch, rest)) => c == Some(ch) && input == rest
    {
      while input != "" && IsSpace(input[0])
        invariant Extract(input) == old(Extract(input))
        decreases |input|
      {
        input := input[1..];
      }
      if input == "" { return None; }
      c := Some(input[0]);
      input := input[1..];
    }

    method Restore(buf: array<bv8>) returns (ok: bool)
      modifies this, buf
      ensures match Decode(old(input), buf.Length)
        case None => !ok
        case Some((bytes, rest)) => ok && buf[..] == bytes && input == rest
    {
      ghost var text, n := input, buf.Length;
      var i := 0;
      assert buf[..0] == [];
      AppendNothing(Decode(text, n));
      while i < buf.Length
        invariant 0 <= i <= n
        invariant Decode(text, n) == After(buf[..i], Decode(input, n - i))
      {
        ghost var read, done := buf[..i], input;
        var high := ReadChar();
        if high == None { return false; }
        var low := ReadChar();
        if low == None { return false; }
        buf[i] := DecodeByte(high.value, low.value);
        assert buf[..i + 1] == read + [buf[i]];
        assert Decode(done, n - i) == Prepend(buf[i], Decode(input, n - i - 1));
        AfterPrepend(read, buf[i], Decode(input, n - i - 1));
        i := i + 1;
      }
      assert buf[..i] + [] == buf[..];
      ok := true;
    }
  }

  /** The bytes already read, followed by those still to be read. */
  function After(bytes: seq<bv8>, read: Option<(seq<bv8>, string)>): Option<(seq<bv8>, string)> {
    match read
    case None => None
    case Some((more, rest)) => Some((bytes + more, rest))
  }

  lemma AppendNothing(read: Option<(seq<bv8>, string)>)
    ensures After([], read) == read
  {
    if read.Some? { assert [] + read.value.0 == read.value.0; }
  }

  lemma AfterPrepend(bytes: seq<bv8>, b: bv8, read: Option<(seq<bv8>, string)>)
    ensures After(bytes, Prepend(b, read)) == After(bytes + [b], read)
  {
    if read.Some? { assert bytes + ([b] + read.value.0) == bytes + [b] + read.value.0; }
  }

  /** A buffer stored on a stream and restored from it is unchanged. */
  method Copy(source: array<bv8>, target: array<bv8>) returns (ok: bool)
    requires source.Length == target.Length && source != target
    modifies target
    ensures ok && target[..] == source[..]
  {
    var writer := new ByteWriter();
    writer.Store(source);
    var reader := new ByteReader(writer.out);
    EncodeLength(source[..]);
    StrippedAlone(Encode(source[..]));
    assert writer.out == Encode(source[..]);
    RestoreUndoesStore(source[..], writer.out);
    ok := reader.Restore(target);
  }
}
