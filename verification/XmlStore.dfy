/**
 `XmlStoreDB`: loads an XML element tree into a flat buffer, writes a buffer back
 into the tree, and loads layers of files into database rows.

 Both recursions pass a base position and a running size side by side: a leaf is
 read or written at the base, a struct's children at the base plus the size.
 Numbers lie in memory in little-endian order.
 */
module XmlStore {

  type Byte = b: nat | b < 256

  datatype Kind = Int | Int8 | Char | Int16 | Int32 | Int64 | UInt8 | UInt16 | UInt32 | UInt64 | Double | Float | Bool

  /** A number's `value` is what the XML parser returns for its text as an integer of at least that width,
      which it clamps to that integer's range; a bool is 0 or 1, a float or double the word that represents
      it.  A text is its characters up to the NUL. */
  datatype Element =
    | Number(kind: Kind, value: int)
    | Text(size: nat, chars: seq<Byte>)
    | Struct(children: seq<Element>)
    | Unknown

  const MaxNestingDepth: nat := 10
  const LocalBuffer: nat := 2048
  const TextBuffer: nat := 256

  function Width(kind: Kind): (w: nat)
    ensures 1 <= w <= 8
  {
    match kind
    case Int8 | Char | UInt8 | Bool => 1
    case Int16 | UInt16 => 2
    case Int | Int32 | UInt32 | Float => 4
    case Int64 | UInt64 | Double => 8
  }

  predicate Signed(kind: Kind) {
    kind.Int? || kind.Int8? || kind.Char? || kind.Int16? || kind.Int32? || kind.Int64?
  }

  function Pow256(n: nat): (p: nat)
    ensures p >= 1
  {
    if n == 0 then 1 else 256 * Pow256(n - 1)
  }

  // ---------------------------------------------------------------------------
  // Leaves
  // ---------------------------------------------------------------------------

  function Bytes(v: nat, n: nat): (r: seq<Byte>)
    ensures |r| == n
  {
    if n == 0 then [] else [v % 256] + Bytes(v / 256, n - 1)
  }

  function Word(bytes: seq<Byte>): nat {
    if bytes == [] then 0 else bytes[0] + 256 * Word(bytes[1..])
  }

  lemma {:induction false} WordOfBytes(v: nat, n: nat)
    requires v < Pow256(n)
    ensures Word(Bytes(v, n)) == v
  {
    if n > 0 {
      WordOfBytes(v / 256, n - 1);
      assert Bytes(v, n)[1..] == Bytes(v / 256, n - 1);
    }
  }

  /** How many values a kind's bytes can tell apart. */
  function Modulus(kind: Kind): (m: int)
    ensures m == Pow256(Width(kind))
  {
    match Width(kind)
    case 1 => 0x100
    case 2 => assert Pow256(2) == 256 * Pow256(1); 0x1_0000
    case 4 => assert Pow256(4) == 256 * (256 * (256 * Pow256(1))); 0x1_0000_0000
    case _ =>
      assert Pow256(4) == 256 * (256 * (256 * Pow256(1)));
      assert Pow256(8) == 256 * (256 * (256 * (256 * Pow256(4))));
      0x1_0000_0000_0000_0000
  }

  /** The parser's value as the conversion to the type of this kind makes it. */
  function Converted(kind: Kind, value: int): int {
    var m := Modulus(kind);
    if kind.Bool? then (if value != 0 then 1 else 0)
    else if Signed(kind) && 2 * (value % m) >= m then value % m - m
    else value % m
  }

  predicate InRange(kind: Kind, value: int) {
    var m := Modulus(kind);
    if kind.Bool? then value == 0 || value == 1
    else if Signed(kind) then -m <= 2 * value < m
    else 0 <= value < m
  }

  lemma Remainder(kind: Kind, v: int)
    requires -Modulus(kind) <= v < Modulus(kind)
    ensures v % Modulus(kind) == if v < 0 then v + Modulus(kind) else v
  {
    match Width(kind)
    case 1 =>
    case 2 =>
    case 4 =>
    case _ =>
  }

  lemma ConvertedIffInRange(kind: Kind, value: int)
    ensures InRange(kind, Converted(kind, value))
    ensures Converted(kind, value) == value <==> InRange(kind, value)
  {
    if InRange(kind, value) && !kind.Bool? {
      Remainder(kind, value);
    }
  }

  /** The bytes of a number, and the number that bytes are read as. */
  function NumberBytes(kind: Kind, value: int): (r: seq<Byte>)
    ensures |r| == Width(kind)
  {
    Bytes(Converted(kind, value) % Modulus(kind), Width(kind))
  }

  function ReadNumber(kind: Kind, bytes: seq<Byte>): int {
    Converted(kind, Word(bytes))
  }

  lemma ConvertedAgain(kind: Kind, value: int)
    ensures var u := Converted(kind, value) % Modulus(kind);
      0 <= u < Modulus(kind) && Converted(kind, u) == Converted(kind, value)
  {
    Remainder(kind, Converted(kind, value));
    Remainder(kind, Converted(kind, value) % Modulus(kind));
  }

  lemma NumberRoundTrip(kind: Kind, value: int)
    ensures ReadNumber(kind, NumberBytes(kind, value)) == Converted(kind, value)
  {
    ConvertedAgain(kind, value);
    WordOfBytes(Converted(kind, value) % Modulus(kind), Width(kind));
  }

  /** What a text attribute of `size` bytes is filled with: the characters, their NUL, and then
      whatever lies behind it in memory. */
  function TextBytes(size: nat, chars: seq<Byte>, behind: nat -> Byte): (r: seq<Byte>)
    ensures |r| == size
  {
    seq(size, i requires 0 <= i => if i < |chars| then chars[i] else if i == |chars| then 0 else behind(i))
  }

  function ReadText(bytes: seq<Byte>): (r: seq<Byte>)
    ensures |r| <= |bytes| && r == bytes[..|r|]
    ensures |r| < |bytes| ==> bytes[|r|] == 0
    ensures 0 !in r
  {
    if bytes == [] || bytes[0] == 0 then [] else [bytes[0]] + ReadText(bytes[1..])
  }

  function Shortened(size: nat, chars: seq<Byte>): seq<Byte> {
    if |chars| <= size then chars else chars[..size]
  }

  lemma {:induction false} ReadTextIs(bytes: seq<Byte>, r: seq<Byte>)
    requires r <= bytes && 0 !in r && (|r| < |bytes| ==> bytes[|r|] == 0)
    ensures ReadText(bytes) == r
  {
    if r != [] {
      ReadTextIs(bytes[1..], r[1..]);
    }
  }

  lemma TextRoundTrip(size: nat, chars: seq<Byte>, behind: nat -> Byte)
    requires 0 !in chars
    ensures ReadText(TextBytes(size, chars, behind)) == Shortened(size, chars)
  {
    ReadTextIs(TextBytes(size, chars, behind), Shortened(size, chars));
  }

  // ---------------------------------------------------------------------------
  // Trees
  // ---------------------------------------------------------------------------

  /** What lies in memory behind the NUL of a string. */
  type Memory = seq<Byte> -> nat -> Byte

  /** The leaves' bytes, in document order. */
  function Encode(e: Element, mem: Memory): (r: seq<Byte>)
    ensures |r| == Span(e)
  {
    match e
    case Number(kind, value) => NumberBytes(kind, value)
    case Text(size, chars) => TextBytes(size, chars, mem(chars))
    case Struct(children) => EncodeAll(children, mem)
    case Unknown => []
  }

  function EncodeAll(es: seq<Element>, mem: Memory): (r: seq<Byte>)
    ensures |r| == SpanAll(es)
  {
    if es == [] then [] else EncodeAll(es[..|es| - 1], mem) + Encode(es[|es| - 1], mem)
  }

  function Span(e: Element): nat {
    match e
    case Number(kind, _) => Width(kind)
    case Text(size, _) => size
    case Struct(children) => SpanAll(children)
    case Unknown => 0
  }

  function SpanAll(es: seq<Element>): nat {
    if es == [] then 0 else SpanAll(es[..|es| - 1]) + Span(es[|es| - 1])
  }

  /** Loading gives up: on an unknown type, or on a struct the depth counter does not admit. */
  predicate Fails(e: Element, depth: nat)
    decreases e, 0
  {
    match e
    case Struct(children) => FailsIn(children, depth)
    case Unknown => true
    case _ => false
  }

  /** The counter starts at `depth` for the first child and at 0 for every later one. */
  predicate FailsIn(es: seq<Element>, depth: nat)
    decreases es, 2
  {
    es != [] &&
    (|| FailsIn(es[..|es| - 1], depth)
     || ChildFails(es[|es| - 1], if |es| == 1 then depth else 0))
  }

  predicate ChildFails(e: Element, depth: nat)
    decreases e, 1
  {
    if e.Struct? then depth + 1 >= MaxNestingDepth || Fails(e, depth + 1) else Fails(e, 0)
  }

  /** Texts are C strings that the loader's local buffer holds, and so are nested structs. */
  predicate Loadable(e: Element) {
    match e
    case Text(_, chars) => 0 !in chars && |chars| < LocalBuffer
    case Struct(children) => forall c <- children :: Loadable(c) && (c.Struct? ==> Span(c) <= LocalBuffer)
    case _ => true
  }

  /** Text attributes that the writer's local buffer holds together with a NUL. */
  predicate Writable(e: Element) {
    match e
    case Text(size, _) => size < TextBuffer
    case Struct(children) => forall c <- children :: Writable(c)
    case _ => true
  }

  predicate HasUnknown(e: Element) {
    match e
    case Struct(children) => exists c <- children :: HasUnknown(c)
    case Unknown => true
    case _ => false
  }

  /** The tree with its leaves read from the bytes at `at`. */
  function ReadBack(e: Element, bytes: seq<Byte>, at: nat): Element
    requires at + Span(e) <= |bytes|
    decreases e
  {
    match e
    case Number(kind, _) => Number(kind, ReadNumber(kind, bytes[at..at + Width(kind)]))
    case Text(size, _) => Text(size, ReadText(bytes[at..at + size]))
    case Struct(children) => Struct(ReadAll(children, bytes, at))
    case Unknown => Unknown
  }

  function ReadAll(es: seq<Element>, bytes: seq<Byte>, at: nat): (r: seq<Element>)
    requires at + SpanAll(es) <= |bytes|
    ensures |r| == |es|
    decreases es
  {
    if es == [] then []
    else
      var init := es[..|es| - 1];
      ReadAll(init, bytes, at) + [ReadBack(es[|es| - 1], bytes, at + SpanAll(init))]
  }

  /** The tree with each value as its type can hold it. */
  function Normal(e: Element): Element {
    match e
    case Number(kind, value) => Number(kind, Converted(kind, value))
    case Text(size, chars) => Text(size, Shortened(size, chars))
    case Struct(children) => Struct(NormalAll(children))
    case Unknown => Unknown
  }

  function NormalAll(es: seq<Element>): (r: seq<Element>)
    ensures |r| == |es|
  {
    if es == [] then [] else NormalAll(es[..|es| - 1]) + [Normal(es[|es| - 1])]
  }

  /** Numbers in range and texts no longer than their attribute. */
  predicate Exact(e: Element) {
    match e
    case Number(kind, value) => InRange(kind, value)
    case Text(size, chars) => |chars| <= size
    case Struct(children) => forall c <- children :: Exact(c)
    case Unknown => true
  }

  // ---- round trip ------------------------------------------------------------

  lemma {:induction false} ReadBackOfEncoded(e: Element, mem: Memory, bytes: seq<Byte>, at: nat)
    requires Loadable(e) && at + Span(e) <= |bytes| && bytes[at..at + Span(e)] == Encode(e, mem)
    ensures ReadBack(e, bytes, at) == Normal(e)
    decreases e
  {
    match e
    case Number(kind, value) => NumberOfEncoded(e, mem, bytes, at);
    case Text(size, chars) => TextOfEncoded(e, mem, bytes, at);
    case Struct(children) => ReadAllOfEncoded(children, mem, bytes, at);
    case Unknown =>
  }

  lemma NumberOfEncoded(e: Element, mem: Memory, bytes: seq<Byte>, at: nat)
    requires e.Number? && at + Span(e) <= |bytes| && bytes[at..at + Span(e)] == Encode(e, mem)
    ensures ReadBack(e, bytes, at) == Normal(e)
  {
    NumberRoundTrip(e.kind, e.value);
  }

  lemma TextOfEncoded(e: Element, mem: Memory, bytes: seq<Byte>, at: nat)
    requires e.Text? && Loadable(e) && at + Span(e) <= |bytes| && bytes[at..at + Span(e)] == Encode(e, mem)
    ensures ReadBack(e, bytes, at) == Normal(e)
  {
    TextRoundTrip(e.size, e.chars, mem(e.chars));
  }

  lemma SplitSlice(bytes: seq<Byte>, at: nat, a: seq<Byte>, b: seq<Byte>)
    requires at + |a| + |b| <= |bytes| && bytes[at..at + |a| + |b|] == a + b
    ensures bytes[at..at + |a|] == a && bytes[at + |a|..at + |a| + |b|] == b
  {
    assert bytes[at..at + |a| + |b|][..|a|] == a;
    assert bytes[at..at + |a| + |b|][|a|..] == b;
  }

  lemma EncodedSplit(es: seq<Element>, mem: Memory, bytes: seq<Byte>, at: nat)
    requires es != []
    requires at + SpanAll(es) <= |bytes| && bytes[at..at + SpanAll(es)] == EncodeAll(es, mem)
    ensures var init, last := es[..|es| - 1], es[|es| - 1];
      var mid := at + SpanAll(init);
      && mid + Span(last) == at + SpanAll(es)
      && bytes[at..mid] == EncodeAll(init, mem) && bytes[mid..mid + Span(last)] == Encode(last, mem)
  {
    SplitSlice(bytes, at, EncodeAll(es[..|es| - 1], mem), Encode(es[|es| - 1], mem));
  }

  lemma {:induction false} ReadAllOfEncoded(es: seq<Element>, mem: Memory, bytes: seq<Byte>, at: nat)
    requires forall c <- es :: Loadable(c)
    requires at + SpanAll(es) <= |bytes| && bytes[at..at + SpanAll(es)] == EncodeAll(es, mem)
    ensures ReadAll(es, bytes, at) == NormalAll(es)
    decreases es
  {
    if es != [] {
      var init, last := es[..|es| - 1], es[|es| - 1];
      var mid := at + SpanAll(init);
      EncodedSplit(es, mem, bytes, at);
      ReadAllOfEncoded(init, mem, bytes, at);
      ReadBackOfEncoded(last, mem, bytes, mid);
    }
  }

  lemma {:induction false} NormalIffExact(e: Element)
    ensures Normal(e) == e <==> Exact(e)
    decreases e
  {
    match e
    case Number(kind, value) => ConvertedIffInRange(kind, value);
    case Text(size, chars) =>
    case Struct(children) => NormalAllIffExact(children);
    case Unknown =>
  }

  lemma {:induction false} NormalAllIffExact(es: seq<Element>)
    ensures NormalAll(es) == es <==> forall c <- es :: Exact(c)
    decreases es
  {
    if es != [] {
      var init, last := es[..|es| - 1], es[|es| - 1];
      assert es == init + [last];
      NormalAllIffExact(init);
      NormalIffExact(last);
      assert NormalAll(es)[..|es| - 1] == NormalAll(init);
    }
  }

  /** Writing a loaded tree back restores it exactly if its values are in range and its texts fit;
      any other comes back with the offending values converted or cut. */
  lemma WriteInvertsLoad(e: Element, mem: Memory, bytes: seq<Byte>, at: nat)
    requires Loadable(e) && at + Span(e) <= |bytes| && bytes[at..at + Span(e)] == Encode(e, mem)
    ensures ReadBack(e, bytes, at) == Normal(e)
    ensures ReadBack(e, bytes, at) == e <==> Exact(e)
  {
    ReadBackOfEncoded(e, mem, bytes, at);
    NormalIffExact(e);
  }

  // ---------------------------------------------------------------------------
  // Loading and writing
  // ---------------------------------------------------------------------------

  function Overwritten(s: seq<Byte>, at: nat, b: seq<Byte>): seq<Byte>
    requires at + |b| <= |s|
  {
    s[..at] + b + s[at + |b|..]
  }

  lemma OverwrittenTwice(s: seq<Byte>, at: nat, a: seq<Byte>, b: seq<Byte>)
    requires at + |a| + |b| <= |s|
    ensures Overwritten(Overwritten(s, at, a), at + |a|, b) == Overwritten(s, at, a + b)
  {
  }

  method CopyTo(buffer: array<Byte>, at: nat, bytes: seq<Byte>)
    requires at + |bytes| <= buffer.Length
    modifies buffer
    ensures buffer[..] == Overwritten(old(buffer[..]), at, bytes)
  {
    forall i | 0 <= i < |bytes| {
      buffer[at + i] := bytes[i];
    }
    assert forall i :: at <= i < at + |bytes| ==> buffer[i] == bytes[i - at];
    assert forall i :: 0 <= i < buffer.Length ==> buffer[..][i] == Overwritten(old(buffer[..]), at, bytes)[i];
  }

  /** Where an element's bytes go. */
  function Place(e: Element, base: nat, size: nat): nat {
    if e.Struct? then base + size else base
  }

  /** `thrown` stands for the exception; the buffer's contents are then of no interest. */
  method LoadElement(e: Element, buffer: array<Byte>, base: nat, size: nat, mem: Memory, depth: nat)
    returns (size': nat, thrown: bool)
    requires Loadable(e) && Place(e, base, size) + Span(e) <= buffer.Length
    modifies buffer
    ensures thrown <==> Fails(e, depth)
    ensures !thrown ==> size' == size + Span(e)
    ensures !thrown ==> buffer[..] == Overwritten(old(buffer[..]), Place(e, base, size), Encode(e, mem))
    decreases e, 1
  {
    size', thrown := size, false;
    match e
    case Struct(children) =>
      size', thrown := LoadChildren(children, buffer, base, size, mem, depth);
    case Number(kind, value) =>
      CopyTo(buffer, base, NumberBytes(kind, value));
      size' := size' + Width(kind);
    case Text(textSize, chars) =>
      CopyTo(buffer, base, TextBytes(textSize, chars, mem(chars)));
      size' := size' + textSize;
    case Unknown =>
      thrown := true;
  }

  /** One child: a nested struct is loaded into a buffer of its own, which is then copied. */
  method LoadChild(child: Element, buffer: array<Byte>, base: nat, size: nat, mem: Memory, nesting: nat)
    returns (size': nat, thrown: bool)
    requires Loadable(child) && (child.Struct? ==> Span(child) <= LocalBuffer)
    requires base + size + Span(child) <= buffer.Length
    modifies buffer
    ensures thrown <==> ChildFails(child, nesting)
    ensures !thrown ==> size' == size + Span(child)
    ensures !thrown ==> buffer[..] == Overwritten(old(buffer[..]), base + size, Encode(child, mem))
    decreases child, 2
  {
    if child.Struct? {
      if nesting + 1 >= MaxNestingDepth {
        return size, true;
      }
      var local := new Byte[LocalBuffer](_ => 0);
      var span;
      span, thrown := LoadElement(child, local, 0, 0, mem, nesting + 1);
      if thrown {
        return size, true;
      }
      assert local[..span] == Encode(child, mem);
      CopyTo(buffer, base + size, local[..span]);
      size' := size + span;
    } else {
      size', thrown := LoadElement(child, buffer, base + size, size, mem, 0);
    }
  }

  method LoadChildren(children: seq<Element>, buffer: array<Byte>, base: nat, size: nat, mem: Memory, depth: nat)
    returns (size': nat, thrown: bool)
    requires forall c <- children :: Loadable(c) && (c.Struct? ==> Span(c) <= LocalBuffer)
    requires base + size + SpanAll(children) <= buffer.Length
    modifies buffer
    ensures thrown <==> FailsIn(children, depth)
    ensures !thrown ==> size' == size + SpanAll(children)
    ensures !thrown ==> buffer[..] == Overwritten(old(buffer[..]), base + size, EncodeAll(children, mem))
    decreases children, 0
  {
    size', thrown := size, false;
    var nesting := depth;
    ghost var loaded, was := [], buffer[..];
    for i := 0 to |children|
      invariant loaded == EncodeAll(children[..i], mem) && size' == size + |loaded|
      invariant nesting == if i == 0 then depth else 0
      invariant !FailsIn(children[..i], depth)
      invariant base + size' <= buffer.Length
      invariant buffer[..] == Overwritten(was, base + size, loaded)
    {
      PrefixSteps(children, i, mem, depth);
      assert base + size' + Span(children[i]) <= buffer.Length;
      size', thrown := LoadChild(children[i], buffer, base, size', mem, nesting);
      if thrown {
        return;
      }
      LoadedNext(children, i, mem, was, base + size, buffer[..]);
      loaded := EncodeAll(children[..i + 1], mem);
      nesting := 0;
    }
    assert children[..|children|] == children;
  }

  lemma LoadedNext(es: seq<Element>, i: nat, mem: Memory, was: seq<Byte>, at: nat, now: seq<Byte>)
    requires i < |es| && at + SpanAll(es[..i]) + Span(es[i]) <= |was|
    requires now == Overwritten(Overwritten(was, at, EncodeAll(es[..i], mem)), at + SpanAll(es[..i]), Encode(es[i], mem))
    ensures SpanAll(es[..i + 1]) == SpanAll(es[..i]) + Span(es[i])
    ensures now == Overwritten(was, at, EncodeAll(es[..i + 1], mem))
  {
    PrefixSteps(es, i, mem, 0);
    OverwrittenTwice(was, at, EncodeAll(es[..i], mem), Encode(es[i], mem));
  }

  lemma PrefixSteps(es: seq<Element>, i: nat, mem: Memory, depth: nat)
    requires i < |es|
    ensures SpanAll(es[..i + 1]) == SpanAll(es[..i]) + Span(es[i]) <= SpanAll(es)
    ensures EncodeAll(es[..i + 1], mem) == EncodeAll(es[..i], mem) + Encode(es[i], mem)
    ensures FailsIn(es[..i + 1], depth) <==> FailsIn(es[..i], depth) || ChildFails(es[i], if i == 0 then depth else 0)
    ensures FailsIn(es[..i + 1], depth) ==> FailsIn(es, depth)
  {
    assert es[..i + 1][..i] == es[..i];
    PrefixSpan(es, i + 1, depth);
  }

  lemma {:induction false} PrefixSpan(es: seq<Element>, i: nat, depth: nat)
    requires i <= |es|
    ensures SpanAll(es[..i]) <= SpanAll(es)
    ensures FailsIn(es[..i], depth) ==> FailsIn(es, depth)
    decreases |es|
  {
    if i < |es| {
      PrefixSpan(es[..|es| - 1], i, depth);
      assert es[..|es| - 1][..i] == es[..i];
    } else {
      assert es[..i] == es;
    }
  }

  /** The DOM element is changed in place; here the changed element is returned. */
  method WriteElement(e: Element, bytes: seq<Byte>, base: nat, size: nat) returns (e': Element, size': nat, thrown: bool)
    requires Writable(e) && Place(e, base, size) + Span(e) <= |bytes|
    ensures thrown <==> HasUnknown(e)
    ensures !thrown ==> size' == size + Span(e) && e' == ReadBack(e, bytes, Place(e, base, size))
    decreases e, 1
  {
    e', size', thrown := e, size, false;
    match e
    case Struct(children) =>
      var cs;
      cs, size', thrown := WriteChildren(children, bytes, base, size);
      e' := Struct(cs);
    case Number(kind, _) =>
      size' := size' + Width(kind);
      e' := Number(kind, ReadNumber(kind, bytes[base..base + Width(kind)]));
    case Text(textSize, _) =>
      size' := size' + textSize;
      e' := Text(textSize, ReadText(bytes[base..base + textSize]));
    case Unknown =>
      thrown := true;
  }

  method WriteChild(child: Element, bytes: seq<Byte>, base: nat, size: nat) returns (changed: Element, size': nat, thrown: bool)
    requires Writable(child) && base + size + Span(child) <= |bytes|
    ensures thrown <==> HasUnknown(child)
    ensures !thrown ==> size' == size + Span(child) && changed == ReadBack(child, bytes, base + size)
    decreases child, 2
  {
    if child.Struct? {
      var span;
      changed, span, thrown := WriteElement(child, bytes, base + size, 0);
      size' := size + span;
    } else {
      changed, size', thrown := WriteElement(child, bytes, base + size, size);
    }
  }

  method WriteChildren(children: seq<Element>, bytes: seq<Byte>, base: nat, size: nat)
    returns (written: seq<Element>, size': nat, thrown: bool)
    requires (forall c <- children :: Writable(c)) && base + size + SpanAll(children) <= |bytes|
    ensures thrown <==> exists c <- children :: HasUnknown(c)
    ensures !thrown ==> size' == size + SpanAll(children) && written == ReadAll(children, bytes, base + size)
    decreases children, 0
  {
    written, size', thrown := [], size, false;
    for i := 0 to |children|
      invariant KnownTo(children, i)
      invariant size' == size + SpanAll(children[..i]) <= size + SpanAll(children)
      invariant written == ReadAll(children[..i], bytes, base + size)
    {
      ReadNext(children, i, bytes, base + size, base + size');
      var changed;
      changed, size', thrown := WriteChild(children[i], bytes, base, size');
      if thrown {
        return;
      }
      written := written + [changed];
    }
    KnownToMeans(children, |children|);
    assert children[..|children|] == children;
  }

  ghost predicate KnownTo(es: seq<Element>, i: nat)
    requires i <= |es|
  {
    i == 0 || (KnownTo(es, i - 1) && !HasUnknown(es[i - 1]))
  }

  lemma {:induction false} KnownToMeans(es: seq<Element>, i: nat)
    requires i <= |es|
    ensures KnownTo(es, i) <==> forall j :: 0 <= j < i ==> !HasUnknown(es[j])
    decreases i
  {
    if i > 0 {
      KnownToMeans(es, i - 1);
    }
  }

  lemma ReadNext(es: seq<Element>, i: nat, bytes: seq<Byte>, at: nat, next: nat)
    requires i < |es| && at + SpanAll(es) <= |bytes| && next == at + SpanAll(es[..i])
    ensures SpanAll(es[..i + 1]) == SpanAll(es[..i]) + Span(es[i]) <= SpanAll(es)
    ensures es[i] in es && next + Span(es[i]) <= |bytes|
    ensures ReadAll(es[..i + 1], bytes, at) == ReadAll(es[..i], bytes, at) + [ReadBack(es[i], bytes, next)]
  {
    SpanSteps(es, i);
  }

  lemma SpanSteps(es: seq<Element>, i: nat)
    requires i < |es|
    ensures es[..i + 1][..i] == es[..i]
    ensures SpanAll(es[..i + 1]) == SpanAll(es[..i]) + Span(es[i]) <= SpanAll(es)
  {
    PrefixSteps(es, i, _ => _ => 0, 0);
  }

  /** A tree that loads has nothing the writer would stumble over. */
  lemma {:induction false} LoadedHasNoUnknown(e: Element, depth: nat)
    requires !Fails(e, depth)
    ensures !HasUnknown(e)
    decreases e
  {
    if e.Struct? {
      forall c | c in e.children ensures !HasUnknown(c) {
        var i :| 0 <= i < |e.children| && e.children[i] == c;
        PrefixSteps(e.children, i, _ => _ => 0, depth);
        var nesting := if i == 0 then depth else 0;
        assert !ChildFails(c, nesting);
        LoadedHasNoUnknown(c, if c.Struct? then nesting + 1 else 0);
      }
    }
  }
}
