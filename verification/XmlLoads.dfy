/**
 Which values the number types of an XML store hold, and exactly which files load.
 */
module XmlLoads {
  import opened XmlStore
  import opened XmlLayers

  // ---------------------------------------------------------------------------
  // Number types
  // ---------------------------------------------------------------------------

  /** The values a type holds are those of the machine type of that name; a double or float is the word that
      represents it, of 64 or 32 bits. */
  lemma BytesInRange(v: int)
    ensures InRange(Int8, v) <==> -128 <= v <= 127
    ensures InRange(Char, v) <==> -128 <= v <= 127
    ensures InRange(UInt8, v) <==> 0 <= v <= 255
    ensures InRange(Bool, v) <==> v == 0 || v == 1
  {
  }

  lemma HalfWordsInRange(v: int)
    ensures InRange(Int16, v) <==> -32768 <= v <= 32767
    ensures InRange(UInt16, v) <==> 0 <= v <= 65535
  {
  }

  lemma WordsInRange(v: int)
    ensures InRange(Int, v) <==> -2147483648 <= v <= 2147483647
    ensures InRange(Int32, v) <==> -2147483648 <= v <= 2147483647
    ensures InRange(UInt32, v) <==> 0 <= v <= 4294967295
    ensures InRange(Float, v) <==> 0 <= v <= 4294967295
  {
  }

  lemma LongWordsInRange(v: int)
    ensures InRange(Int64, v) <==> -9223372036854775808 <= v <= 9223372036854775807
    ensures InRange(UInt64, v) <==> 0 <= v <= 18446744073709551615
    ensures InRange(Double, v) <==> 0 <= v <= 18446744073709551615
  {
  }

  /** A value takes as many bytes as a variable of its type does. */
  lemma BytesAsNamed(v: int)
    ensures |NumberBytes(Int8, v)| == |NumberBytes(Char, v)| == |NumberBytes(UInt8, v)| == |NumberBytes(Bool, v)| == 1
    ensures |NumberBytes(Int16, v)| == |NumberBytes(UInt16, v)| == 2
    ensures |NumberBytes(Int, v)| == |NumberBytes(Int32, v)| == |NumberBytes(UInt32, v)| == |NumberBytes(Float, v)| == 4
    ensures |NumberBytes(Int64, v)| == |NumberBytes(UInt64, v)| == |NumberBytes(Double, v)| == 8
  {
  }

  /** No two values in range are stored alike. */
  lemma StoredApart(kind: Kind, v: int, w: int)
    requires InRange(kind, v) && InRange(kind, w) && NumberBytes(kind, v) == NumberBytes(kind, w)
    ensures v == w
  {
    NumberRoundTrip(kind, v);
    NumberRoundTrip(kind, w);
    ConvertedIffInRange(kind, v);
    ConvertedIffInRange(kind, w);
  }

  lemma DivideTwice(v: nat, p: nat)
    requires p > 0
    ensures v / 256 / p == v / (256 * p)
  {
    var q := v / 256;
    var a, b, c := q / p, q % p, v % 256;
    assert v == 256 * (a * p + b) + c;
    assert 256 * (a * p) == a * (256 * p);
    assert v == a * (256 * p) + (256 * b + c) && 256 * b + c < 256 * p;
    Quotient(v, 256 * p, a, 256 * b + c);
  }

  lemma Quotient(v: nat, d: nat, q: nat, r: nat)
    requires d > 0 && v == q * d + r && r < d
    ensures v / d == q
  {
    var w := v / d;
    assert w * d <= v < w * d + d;
    Scaled(w, q, d);
    Scaled(q, w, d);
  }

  lemma Scaled(a: nat, b: nat, d: nat)
    ensures a < b ==> a * d + d <= b * d
  {
    if a < b {
      assert (a + 1) * d <= b * d;
    }
  }

  /** A number's bytes lie in memory with the lowest first. */
  lemma {:induction false} LowestFirst(v: nat, n: nat, k: nat)
    requires k < n
    ensures Bytes(v, n)[k] == v / Pow256(k) % 256
  {
    if k > 0 {
      LowestFirst(v / 256, n - 1, k - 1);
      DivideTwice(v, Pow256(k - 1));
    }
  }

  lemma SliceOfFront(a: seq<Byte>, b: seq<Byte>, at: nat, size: nat)
    requires at + size <= |a|
    ensures (a + b)[at..][..size] == a[at..][..size]
  {
  }

  /** The children's bytes lie in document order, each child's behind those of the children before it. */
  lemma {:induction false} ChildInItsPlace(es: seq<Element>, i: nat, mem: Memory)
    requires i < |es|
    ensures SpanAll(es[..i]) + Span(es[i]) <= |EncodeAll(es, mem)|
    ensures EncodeAll(es, mem)[SpanAll(es[..i])..][..Span(es[i])] == Encode(es[i], mem)
    decreases |es|
  {
    var n := |es| - 1;
    if i < n {
      ChildInItsPlace(es[..n], i, mem);
      assert es[..n][..i] == es[..i];
      SliceOfFront(EncodeAll(es[..n], mem), Encode(es[n], mem), SpanAll(es[..i]), Span(es[i]));
    }
  }

  // ---------------------------------------------------------------------------
  // Files that load
  // ---------------------------------------------------------------------------

  /** Line `j` is the first that defines row `i`. */
  ghost predicate FirstFor(lines: seq<Line>, j: nat, i: int) {
    && j < |lines| && Defines(lines[j], i)
    && forall k :: 0 <= k < j ==> !Defines(lines[k], i)
  }

  /** A factory line defines the next row; a later one may define any row there is, or the next. */
  ghost predicate InPlace(before: seq<Line>, level: Level, index: int) {
    && index >= 0
    && (forall i :: 0 <= i < index ==> Defined(before, i))
    && (level.Factory? ==> !Defined(before, index))
  }

  /** The value is no larger than the row: as large as it was to begin with, or as the first value given to it. */
  ghost predicate HasRoom(rows: map<int, Row>, before: seq<Line>, index: int, size: nat, mem: Memory) {
    if index in rows then size <= rows[index].capacity
    else forall j: nat :: FirstFor(before, j, index) ==> before[j].entry.Entry? && size <= |Encode(before[j].entry.content, mem)|
  }

  ghost predicate LineFits(rows: map<int, Row>, before: seq<Line>, line: Line, mem: Memory) {
    line.entry.Entry? ==>
      && !Fails(line.entry.content, 0)
      && Encode(line.entry.content, mem) != []
      && InPlace(before, line.level, line.entry.index)
      && HasRoom(rows, before, line.entry.index, |Encode(line.entry.content, mem)|, mem)
  }

  ghost predicate AllFit(rows: map<int, Row>, lines: seq<Line>, mem: Memory) {
    forall j :: 0 <= j < |lines| ==> LineFits(rows, lines[..j], lines[j], mem)
  }

  lemma AllFitSteps(rows: map<int, Row>, lines: seq<Line>, mem: Memory)
    requires lines != []
    ensures var n := |lines| - 1; AllFit(rows, lines, mem) <==> AllFit(rows, lines[..n], mem) && LineFits(rows, lines[..n], lines[n], mem)
  {
    var n := |lines| - 1;
    assert forall j :: 0 <= j < n ==> lines[..n][..j] == lines[..j] && lines[..n][j] == lines[j];
    if AllFit(rows, lines[..n], mem) && LineFits(rows, lines[..n], lines[n], mem) {
      forall j | 0 <= j < |lines| ensures LineFits(rows, lines[..j], lines[j], mem) {
        if j < n {
          assert LineFits(rows, lines[..n][..j], lines[..n][j], mem);
        }
      }
    }
    if AllFit(rows, lines, mem) {
      forall j | 0 <= j < n ensures LineFits(rows, lines[..n][..j], lines[..n][j], mem) {
        assert LineFits(rows, lines[..j], lines[j], mem);
      }
    }
  }

  lemma FirstForSteps(lines: seq<Line>, j: nat, i: int)
    requires lines != []
    ensures var n := |lines| - 1;
      FirstFor(lines, j, i) <==> FirstFor(lines[..n], j, i) || (j == n && Defines(lines[n], i) && !Defined(lines[..n], i))
  {
    var n := |lines| - 1;
    assert forall k :: 0 <= k < n ==> lines[..n][k] == lines[k];
    if Defined(lines[..n], i) {
      var k :| 0 <= k < n && Defines(lines[..n][k], i);
      assert Defines(lines[k], i);
    }
    if j == n && Defines(lines[n], i) && !Defined(lines[..n], i) {
      forall k | 0 <= k < j ensures !Defines(lines[k], i) {
        assert !Defines(lines[..n][k], i);
      }
    }
  }

  /** Rows are as large as they were, or as the first value given to them. */
  lemma {:induction false} SizesAfter(rows: map<int, Row>, lines: seq<Line>, mem: Memory, i: int)
    requires LoadLines(Store(0, rows), lines, mem).Loaded?
    ensures var t := LoadLines(Store(0, rows), lines, mem).store;
      && (i in t.rows <==> i in rows || Defined(lines, i))
      && (i in rows ==> t.rows[i].capacity == rows[i].capacity)
      && forall j: nat :: FirstFor(lines, j, i) && i !in rows ==> i in t.rows && lines[j].entry.Entry? && t.rows[i].capacity == |Encode(lines[j].entry.content, mem)|
  {
    if lines != [] {
      var n := |lines| - 1;
      SizesAfter(rows, lines[..n], mem, i);
      DefinedSteps(lines, i);
      var t := LoadLines(Store(0, rows), lines, mem).store;
      forall j: nat | FirstFor(lines, j, i) && i !in rows
        ensures i in t.rows && lines[j].entry.Entry? && t.rows[i].capacity == |Encode(lines[j].entry.content, mem)|
      {
        FirstForSteps(lines, j, i);
        if j < n {
          assert lines[..n][j] == lines[j] && Defined(lines[..n], i);
        }
      }
    }
  }

  lemma {:induction false} SomeFirst(lines: seq<Line>, i: int) returns (j: nat)
    requires Defined(lines, i)
    ensures FirstFor(lines, j, i)
  {
    var n := |lines| - 1;
    DefinedSteps(lines, i);
    if Defined(lines[..n], i) {
      j := SomeFirst(lines[..n], i);
      FirstForSteps(lines, j, i);
    } else {
      j := n;
      FirstForSteps(lines, j, i);
    }
  }

  lemma IndexFitsIffInPlace(count: nat, before: seq<Line>, level: Level, index: int)
    requires forall i :: Defined(before, i) <==> 0 <= i < count
    ensures IndexFits(count, level, index) <==> InPlace(before, level, index)
  {
    assert !Defined(before, count);
  }

  lemma LineLoadsIffFits(rows: map<int, Row>, before: seq<Line>, line: Line, mem: Memory)
    requires LoadLines(Store(0, rows), before, mem).Loaded?
    ensures LoadLine(LoadLines(Store(0, rows), before, mem).store, line, mem).Loaded? <==> LineFits(rows, before, line, mem)
  {
    var s := LoadLines(Store(0, rows), before, mem).store;
    if line.entry.Entry? {
      var index := line.entry.index;
      forall i ensures Defined(before, i) <==> 0 <= i < s.count {
        CountedExactly(Store(0, rows), before, mem, i);
      }
      IndexFitsIffInPlace(s.count, before, line.level, index);
      SizesAfter(rows, before, mem, index);
      if index !in rows && Defined(before, index) {
        var j := SomeFirst(before, index);
      }
      RoomIsCapacity(rows, before, index, s, |Encode(line.entry.content, mem)|, mem);
    }
  }

  lemma RoomIsCapacity(rows: map<int, Row>, before: seq<Line>, index: int, s: Store, size: nat, mem: Memory)
    requires index in s.rows <==> index in rows || Defined(before, index)
    requires index in rows ==> s.rows[index].capacity == rows[index].capacity
    requires forall j: nat :: FirstFor(before, j, index) && index !in rows ==>
      index in s.rows && before[j].entry.Entry? && s.rows[index].capacity == |Encode(before[j].entry.content, mem)|
    ensures HasRoom(rows, before, index, size, mem) <==> (index in s.rows ==> size <= s.rows[index].capacity)
  {
    if index !in rows && index in s.rows {
      var j := SomeFirst(before, index);
    }
  }

  /** Files load exactly if each of their lines fits: its tree can be read and is not empty, it defines a row in
      its place, and the value is no larger than the row. */
  lemma {:induction false} LoadsIffAllFit(rows: map<int, Row>, lines: seq<Line>, mem: Memory)
    ensures LoadLines(Store(0, rows), lines, mem).Loaded? <==> AllFit(rows, lines, mem)
    decreases |lines|
  {
    if lines != [] {
      var n := |lines| - 1;
      LoadsIffAllFit(rows, lines[..n], mem);
      AllFitSteps(rows, lines, mem);
      if LoadLines(Store(0, rows), lines[..n], mem).Loaded? {
        LineLoadsIffFits(rows, lines[..n], lines[n], mem);
      }
    }
  }
}
