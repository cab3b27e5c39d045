/**
 `XmlStoreDB::Load`: fills the rows of a table from a factory, a developer and a
 user file, each of which may define rows anew or replace earlier values.
 */
module XmlLayers {
  import opened XmlStore

  datatype Level = Factory | Developer | User

  datatype Entry = Comment | Entry(index: int, content: Element)

  datatype Line = Line(level: Level, entry: Entry)

  datatype Row = Row(capacity: nat, data: seq<Byte>)

  /** The number of rows counted so far, and the table. */
  datatype Store = Store(count: nat, rows: map<int, Row>)

  datatype Outcome = Loaded(store: Store) | Failed(store: Store)

  function Rank(level: Level): nat {
    match level
    case Factory => 0
    case Developer => 1
    case User => 2
  }

  /** Factory rows must come in order; later files may go back, but not leave a gap. */
  predicate IndexFits(count: nat, level: Level, index: int) {
    if level.Factory? then index == count else 0 <= index <= count
  }

  function Counted(count: nat, index: int): nat {
    if index == count then count + 1 else count
  }

  /** A new row is as large as its first value; a row that is there must be large enough.  A value
      without any bytes is refused in either case. */
  function Put(s: Store, index: int, bytes: seq<Byte>): Outcome {
    if bytes == [] || (index in s.rows && s.rows[index].capacity < |bytes|) then Failed(s)
    else
      var capacity := if index in s.rows then s.rows[index].capacity else |bytes|;
      Loaded(s.(rows := s.rows[index := Row(capacity, bytes)]))
  }

  function LoadLine(s: Store, line: Line, mem: Memory): Outcome {
    if line.entry.Comment? then Loaded(s)
    else
      var index := line.entry.index;
      if Fails(line.entry.content, 0) || !IndexFits(s.count, line.level, index) then Failed(s)
      else Put(s.(count := Counted(s.count, index)), index, Encode(line.entry.content, mem))
  }

  function LoadLines(s: Store, lines: seq<Line>, mem: Memory): Outcome {
    if lines == [] then Loaded(s)
    else
      var before := LoadLines(s, lines[..|lines| - 1], mem);
      if before.Failed? then before else LoadLine(before.store, lines[|lines| - 1], mem)
  }

  // ---------------------------------------------------------------------------
  // What a successful load leaves behind
  // ---------------------------------------------------------------------------

  predicate Defines(line: Line, i: int) {
    line.entry.Entry? && line.entry.index == i
  }

  ghost predicate Defined(lines: seq<Line>, i: int) {
    exists j :: 0 <= j < |lines| && Defines(lines[j], i)
  }

  /** Line `j` is the last that defines row `i`. */
  ghost predicate LastFor(lines: seq<Line>, j: nat, i: int) {
    && j < |lines| && Defines(lines[j], i)
    && forall k :: j < k < |lines| ==> !Defines(lines[k], i)
  }

  /** Row `i` is there and holds this line's value. */
  predicate Holds(s: Store, i: int, line: Line, mem: Memory) {
    line.entry.Entry? && i in s.rows && s.rows[i].data == Encode(line.entry.content, mem)
  }

  lemma DefinedSteps(lines: seq<Line>, i: int)
    requires lines != []
    ensures Defined(lines, i) <==> Defined(lines[..|lines| - 1], i) || Defines(lines[|lines| - 1], i)
  {
    var n := |lines| - 1;
    var init := lines[..n];
    if j :| 0 <= j < n && Defines(init[j], i) {
      assert Defines(lines[j], i);
    }
    if j :| 0 <= j < n && Defines(lines[j], i) {
      assert Defines(init[j], i);
    }
  }

  lemma {:induction false} CountedExactly(s: Store, lines: seq<Line>, mem: Memory, i: int)
    requires s.count == 0 && LoadLines(s, lines, mem).Loaded?
    ensures Defined(lines, i) <==> 0 <= i < LoadLines(s, lines, mem).store.count
  {
    if lines != [] {
      var n := |lines| - 1;
      var t := LoadLines(s, lines[..n], mem).store;
      CountedExactly(s, lines[..n], mem, i);
      DefinedSteps(lines, i);
    }
  }

  lemma {:induction false} LastLineWins(s: Store, lines: seq<Line>, mem: Memory, i: int, j: nat)
    requires LoadLines(s, lines, mem).Loaded? && LastFor(lines, j, i)
    ensures Holds(LoadLines(s, lines, mem).store, i, lines[j], mem)
  {
    var n := |lines| - 1;
    if j < n {
      assert LastFor(lines[..n], j, i) by {
        forall k | j < k < n ensures !Defines(lines[..n][k], i) { assert !Defines(lines[k], i); }
      }
      LastLineWins(s, lines[..n], mem, i, j);
    }
  }

  lemma {:induction false} OthersUntouched(s: Store, lines: seq<Line>, mem: Memory, i: int)
    requires LoadLines(s, lines, mem).Loaded? && !Defined(lines, i)
    ensures var t := LoadLines(s, lines, mem).store; (i in t.rows <==> i in s.rows) && (i in s.rows ==> t.rows[i] == s.rows[i])
  {
    if lines != [] {
      var n := |lines| - 1;
      DefinedSteps(lines, i);
      OthersUntouched(s, lines[..n], mem, i);
    }
  }

  // ---- files -----------------------------------------------------------------

  type Files = map<Level, seq<Entry>>

  function Tagged(level: Level, entries: seq<Entry>): (r: seq<Line>)
    ensures |r| == |entries| && forall k :: 0 <= k < |r| ==> r[k] == Line(level, entries[k])
  {
    seq(|entries|, k requires 0 <= k < |entries| => Line(level, entries[k]))
  }

  function FileLines(files: Files, level: Level): seq<Line> {
    if level in files then Tagged(level, files[level]) else []
  }

  function LevelAt(l: nat): Level {
    if l == 0 then Factory else if l == 1 then Developer else User
  }

  function LinesUpto(files: Files, l: nat): seq<Line> {
    if l == 0 then [] else LinesUpto(files, l - 1) + FileLines(files, LevelAt(l - 1))
  }

  /** All lines, file after file in the order of the levels. */
  function Lines(files: Files): seq<Line> {
    LinesUpto(files, 3)
  }

  lemma {:induction false} LinesAreLayered(files: Files, l: nat, j: nat, k: nat)
    requires l <= 3 && j <= k < |LinesUpto(files, l)|
    ensures Rank(LinesUpto(files, l)[j].level) <= Rank(LinesUpto(files, l)[k].level) < l
  {
    var before := LinesUpto(files, l - 1);
    if k < |before| {
      LinesAreLayered(files, l - 1, j, k);
    } else if j < |before| {
      LinesAreLayered(files, l - 1, j, j);
    }
  }

  /** After a successful load the rows counted are exactly those some file defines, each row holds
      the value of the last line of the highest file that defines it, and no other row has changed. */
  lemma LayeredLoad(files: Files, rows: map<int, Row>, mem: Memory)
    requires LoadLines(Store(0, rows), Lines(files), mem).Loaded?
    ensures var lines, s := Lines(files), LoadLines(Store(0, rows), Lines(files), mem).store;
      && (forall i :: Defined(lines, i) <==> 0 <= i < s.count)
      && (forall i, j: nat :: LastFor(lines, j, i) ==>
            Holds(s, i, lines[j], mem) && forall k :: 0 <= k < |lines| && Defines(lines[k], i) ==> Rank(lines[k].level) <= Rank(lines[j].level))
      && (forall i :: !(0 <= i < s.count) ==> (i in s.rows <==> i in rows) && (i in rows ==> s.rows[i] == rows[i]))
  {
    var lines, s := Lines(files), LoadLines(Store(0, rows), Lines(files), mem).store;
    forall i ensures Defined(lines, i) <==> 0 <= i < s.count {
      CountedExactly(Store(0, rows), lines, mem, i);
    }
    forall i, j: nat | LastFor(lines, j, i)
      ensures Holds(s, i, lines[j], mem)
      ensures forall k :: 0 <= k < |lines| && Defines(lines[k], i) ==> Rank(lines[k].level) <= Rank(lines[j].level)
    {
      LastLineWins(Store(0, rows), lines, mem, i, j);
      forall k | 0 <= k < |lines| && Defines(lines[k], i) ensures Rank(lines[k].level) <= Rank(lines[j].level) {
        if k < j {
          LinesAreLayered(files, 3, k, j);
        }
      }
    }
    forall i | !(0 <= i < s.count) ensures (i in s.rows <==> i in rows) && (i in rows ==> s.rows[i] == rows[i]) {
      OthersUntouched(Store(0, rows), lines, mem, i);
    }
  }

  // ---------------------------------------------------------------------------
  // The object
  // ---------------------------------------------------------------------------

  predicate EntryFits(e: Entry) {
    e.Entry? ==> Loadable(e.content) && Span(e.content) <= LocalBuffer
  }

  class XmlStoreDB {
    const files: Files
    var numberOfRows: nat
    var rows: map<int, Row>

    ghost function View(): Store
      reads this
    {
      Store(numberOfRows, rows)
    }

    constructor (files: Files, rows: map<int, Row>)
      ensures this.files == files && View() == Store(0, rows)
    {
      this.files, this.rows, numberOfRows := files, rows, 0;
    }

    /** One element of a file: loaded into a local buffer, its index checked, its row written. */
    method LoadRow(level: Level, elem: Entry, mem: Memory) returns (thrown: bool)
      requires EntryFits(elem)
      modifies this`numberOfRows, this`rows
      ensures LoadLine(old(View()), Line(level, elem), mem) == if thrown then Failed(View()) else Loaded(View())
    {
      if elem.Comment? {
        return false;
      }
      var buffer := new Byte[LocalBuffer](_ => 0);
      var bufSize;
      bufSize, thrown := LoadElement(elem.content, buffer, 0, 0, mem, 0);
      if thrown {
        return;
      }
      var index := elem.index;
      if level.Factory? {
        if index != numberOfRows {
          return true;
        }
        numberOfRows := numberOfRows + 1;
      } else {
        if index > numberOfRows || index < 0 {
          return true;
        } else if index == numberOfRows {
          numberOfRows := numberOfRows + 1;
        }
      }
      assert buffer[..bufSize] == Encode(elem.content, mem);
      var capacity := bufSize;
      if index in rows {
        capacity := rows[index].capacity;
        if capacity < bufSize {
          return true;
        }
      }
      if bufSize == 0 {
        return true;
      }
      rows := rows[index := Row(capacity, buffer[..bufSize])];
      thrown := false;
    }

    method LoadFile(level: Level, entries: seq<Entry>, mem: Memory) returns (thrown: bool)
      requires forall e <- entries :: EntryFits(e)
      modifies this`numberOfRows, this`rows
      ensures LoadLines(old(View()), Tagged(level, entries), mem) == if thrown then Failed(View()) else Loaded(View())
    {
      ghost var lines := Tagged(level, entries);
      for i := 0 to |entries|
        invariant LoadLines(old(View()), lines[..i], mem) == Loaded(View())
      {
        assert lines[..i + 1][..i] == lines[..i];
        thrown := LoadRow(level, entries[i], mem);
        if thrown {
          LoadAppend(old(View()), lines[..i + 1], lines[i + 1..], mem);
          assert lines[..i + 1] + lines[i + 1..] == lines;
          return;
        }
      }
      assert lines[..|entries|] == lines;
      thrown := false;
    }

    /** The files in the order of their levels.  Nothing but a successful return promises anything
        about the rows. */
    method Load(mem: Memory) returns (thrown: bool)
      requires forall level <- files :: forall e <- files[level] :: EntryFits(e)
      requires numberOfRows == 0
      modifies this`numberOfRows, this`rows
      ensures LoadLines(old(View()), Lines(files), mem) == if thrown then Failed(View()) else Loaded(View())
    {
      ghost var start := View();
      var levels := [Factory, Developer, User];
      thrown := false;
      for l := 0 to 3
        invariant LoadLines(start, LinesUpto(files, l), mem) == Loaded(View())
      {
        assert levels[l] == LevelAt(l);
        LoadAppend(start, LinesUpto(files, l), FileLines(files, levels[l]), mem);
        if levels[l] in files {
          thrown := LoadFile(levels[l], files[levels[l]], mem);
          if thrown {
            FailedStays(start, files, l + 1, 3, mem);
            return;
          }
        }
      }
    }
  }

  lemma {:induction false} LoadAppend(s: Store, a: seq<Line>, b: seq<Line>, mem: Memory)
    ensures var t := LoadLines(s, a, mem);
      LoadLines(s, a + b, mem) == if t.Failed? then t else LoadLines(t.store, b, mem)
  {
    if b == [] {
      assert a + b == a;
    } else {
      LoadAppend(s, a, b[..|b| - 1], mem);
      assert (a + b)[..|a + b| - 1] == a + b[..|b| - 1];
    }
  }

  lemma {:induction false} FailedStays(s: Store, files: Files, l: nat, m: nat, mem: Memory)
    requires l <= m && LoadLines(s, LinesUpto(files, l), mem).Failed?
    ensures LoadLines(s, LinesUpto(files, m), mem) == LoadLines(s, LinesUpto(files, l), mem)
  {
    if l < m {
      FailedStays(s, files, l, m - 1, mem);
      LoadAppend(s, LinesUpto(files, m - 1), FileLines(files, LevelAt(m - 1)), mem);
    }
  }
}
