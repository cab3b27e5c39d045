/**
 Two registers that pass values to each other: each takes a value that differs from
 its own and sends it back, and drops one that does not.

 Whether this ends, and how many values are passed until it does, is decided by what
 is under way now.
 */
module EchoFlow {

  /** What one side sees of a row: the values under way to the other side and to this one, oldest first, and
      the two values held. */
  datatype Flow<T(==)> = Flow(outbound: seq<T>, inbound: seq<T>, mine: T, theirs: T)

  function Flip<T>(w: Flow<T>): Flow<T> {
    Flow(w.inbound, w.outbound, w.theirs, w.mine)
  }

  /** This side receives the oldest value on its way. */
  function Received<T(==)>(w: Flow<T>): Flow<T>
    requires w.inbound != []
  {
    var x := w.inbound[0];
    if x == w.mine then w.(inbound := w.inbound[1..])
    else Flow(w.outbound + [x], w.inbound[1..], x, w.theirs)
  }

  /** Whether it passes the value back. */
  function Echo<T(==)>(w: Flow<T>): nat
    requires w.inbound != []
  {
    if w.inbound[0] == w.mine then 0 else 1
  }

  /** The values a side that holds `x` passes back of those that arrive. */
  function Echoes<T(==)>(x: T, arriving: seq<T>): seq<T> {
    if arriving == [] then []
    else if arriving[0] == x then Echoes(x, arriving[1..])
    else [arriving[0]] + Echoes(arriving[0], arriving[1..])
  }

  /** What it holds afterwards. */
  function Held<T>(x: T, arriving: seq<T>): T {
    if arriving == [] then x else arriving[|arriving| - 1]
  }

  /** What will come back of the values under way, and of the values on the way here. */
  function Out<T(==)>(w: Flow<T>): seq<T> {
    Echoes(w.theirs, w.outbound)
  }

  function In<T(==)>(w: Flow<T>): seq<T> {
    Echoes(w.mine, w.inbound)
  }

  /** After everything now under way has arrived once, two different values are left going round. */
  predicate Loops<T(==)>(w: Flow<T>) {
    var o, i := Out(w), In(w);
    if i == [] then |Echoes(w.mine, o)| >= 2
    else if o == [] then |Echoes(w.theirs, i)| >= 2
    else !(|o| == 1 && o == i)
  }

  /** How many values will still be passed back, where that is a number. */
  function Rest<T(==)>(w: Flow<T>): nat {
    var o, i := Out(w), In(w);
    |o| + |i| + (if i == [] then |Echoes(w.mine, o)| else 0) + (if o == [] then |Echoes(w.theirs, i)| else 0)
  }

  /** What the two sides will hold in the end. */
  function FinalMine<T(==)>(w: Flow<T>): T {
    Held(Held(w.mine, In(w)), Out(w))
  }

  function FinalTheirs<T(==)>(w: Flow<T>): T {
    Held(Held(w.theirs, In(w)), Out(w))
  }

  /** Nothing under way will change anything, and the two differ. */
  predicate Apart<T(==)>(w: Flow<T>) {
    Out(w) == [] && In(w) == [] && w.mine != w.theirs
  }

  // ---- echoes ----------------------------------------------------------------

  ghost predicate NoRepeats<T>(s: seq<T>) {
    forall i, j :: 0 <= i && j == i + 1 && j < |s| ==> s[i] != s[j]
  }

  lemma {:induction false} EchoesDiffer<T>(x: T, s: seq<T>)
    ensures NoRepeats(Echoes(x, s)) && (Echoes(x, s) != [] ==> Echoes(x, s)[0] != x) && |Echoes(x, s)| <= |s|
  {
    if s != [] {
      if s[0] == x {
        EchoesDiffer(x, s[1..]);
      } else {
        EchoesDiffer(s[0], s[1..]);
        var rest := Echoes(s[0], s[1..]);
        assert Echoes(x, s) == [s[0]] + rest;
      }
    }
  }

  lemma {:induction false} EchoesEnd<T>(x: T, s: seq<T>)
    ensures Held(x, Echoes(x, s)) == Held(x, s)
  {
    if s != [] {
      var y := if s[0] == x then x else s[0];
      EchoesEnd(y, s[1..]);
      assert Held(y, s[1..]) == Held(x, s);
    }
  }

  lemma EchoesAlternate<T>(x: T, s: seq<T>)
    ensures NoRepeats(Echoes(x, s)) && (Echoes(x, s) != [] ==> Echoes(x, s)[0] != x)
    ensures |Echoes(x, s)| <= |s|
    ensures Echoes(x, s) != [] ==> Held(x, Echoes(x, s)) == Held(x, s)
    ensures Echoes(x, s) == [] ==> Held(x, s) == x
  {
    EchoesDiffer(x, s);
    EchoesEnd(x, s);
  }

  /** Of values that do not repeat only the first can be dropped. */
  lemma {:induction false} EchoesOfEchoes<T>(x: T, s: seq<T>)
    requires NoRepeats(s)
    ensures Echoes(x, s) == if s != [] && s[0] == x then s[1..] else s
  {
    if s != [] {
      var rest := s[1..];
      assert NoRepeats(rest);
      if s[0] == x {
        EchoesOfEchoes(x, rest);
      } else {
        EchoesOfEchoes(s[0], rest);
      }
    }
  }

  lemma {:induction false} EchoesAppend<T>(x: T, a: seq<T>, b: seq<T>)
    ensures Echoes(x, a + b) == Echoes(x, a) + Echoes(Held(x, a), b)
  {
    if a == [] {
      assert a + b == b;
    } else {
      var y := if a[0] == x then x else a[0];
      EchoesAppend(y, a[1..], b);
      assert (a + b)[1..] == a[1..] + b && (a + b)[0] == a[0];
      assert Held(y, a[1..]) == Held(x, a);
    }
  }

  lemma EchoesOne<T>(x: T, y: T)
    ensures Echoes(x, [y]) == if x == y then [] else [y]
  {
    assert [y][1..] == [];
  }

  /** Nothing comes back exactly of values that are held already. */
  lemma {:induction false} NoEchoes<T>(x: T, s: seq<T>)
    ensures Echoes(x, s) == [] <==> forall j :: 0 <= j < |s| ==> s[j] == x
  {
    if s != [] {
      var rest := s[1..];
      NoEchoes(x, rest);
      assert (forall j :: 0 <= j < |rest| ==> rest[j] == x) <==> (forall j :: 1 <= j < |s| ==> s[j] == x) by {
        assert forall j :: 1 <= j < |s| ==> s[j] == rest[j - 1];
      }
    }
  }

  // ---- looks the same from either side ---------------------------------------

  lemma FlipLoops<T>(w: Flow<T>)
    ensures Loops(Flip(w)) <==> Loops(w)
    ensures Rest(Flip(w)) == Rest(w) && (Apart(Flip(w)) <==> Apart(w))
  {
  }

  lemma FlipFinal<T>(w: Flow<T>)
    requires !Loops(w)
    ensures FinalMine(Flip(w)) == FinalTheirs(w) && FinalTheirs(Flip(w)) == FinalMine(w)
  {
    EchoesAlternate(w.theirs, w.outbound);
    EchoesAlternate(w.mine, w.inbound);
  }

  // ---- receiving -------------------------------------------------------------

  lemma ReceivedDropped<T>(w: Flow<T>)
    requires w.inbound != [] && w.inbound[0] == w.mine
    ensures Out(Received(w)) == Out(w) && In(Received(w)) == In(w)
  {
  }

  lemma ReceivedTaken<T>(w: Flow<T>)
    requires w.inbound != [] && w.inbound[0] != w.mine
    ensures var x := w.inbound[0];
      && In(w) == [x] + In(Received(w))
      && Out(Received(w)) == Out(w) + (if Held(w.theirs, w.outbound) == x then [] else [x])
  {
    var x := w.inbound[0];
    EchoesAppend(w.theirs, w.outbound, [x]);
    EchoesOne(Held(w.theirs, w.outbound), x);
  }

  /** A value taken while nothing of what is under way to the other side will come back. */
  lemma TakenAlone<T>(w: Flow<T>)
    requires w.inbound != [] && w.inbound[0] != w.mine && Out(w) == []
    ensures Loops(Received(w)) <==> Loops(w)
    ensures !Loops(w) ==> Rest(Received(w)) + 1 == Rest(w)
  {
    var x, t := w.inbound[0], Received(w);
    var i, i' := In(w), In(t);
    ReceivedTaken(w);
    EchoesAlternate(w.theirs, w.outbound);
    EchoesAlternate(w.mine, w.inbound);
    EchoesAlternate(x, t.inbound);
    EchoesOfEchoes(w.theirs, i);
    EchoesOfEchoes(w.theirs, i');
    EchoesOne(x, x);
    assert i[1..] == i' && i[0] == x;
    assert Out(t) == if w.theirs == x then [] else [x];
  }

  /** And while some of it will. */
  lemma TakenAmong<T>(w: Flow<T>)
    requires w.inbound != [] && w.inbound[0] != w.mine && Out(w) != []
    ensures Loops(Received(w)) <==> Loops(w)
    ensures !Loops(w) ==> Rest(Received(w)) + 1 == Rest(w)
  {
    var x, t := w.inbound[0], Received(w);
    var o, i, o', i' := Out(w), In(w), Out(t), In(t);
    ReceivedTaken(w);
    EchoesAlternate(w.theirs, w.outbound);
    EchoesAlternate(w.theirs, t.outbound);
    EchoesAlternate(x, t.inbound);
    EchoesOfEchoes(x, o');
    assert i == [x] + i';
    assert Held(w.theirs, w.outbound) == o[|o| - 1];
  }

  /** Receiving never decides anything: whether values go round for ever, and what else is left to come. */
  lemma ReceivedKeepsLoops<T>(w: Flow<T>)
    requires w.inbound != []
    ensures Loops(Received(w)) <==> Loops(w)
    ensures !Loops(w) ==> Rest(Received(w)) + Echo(w) == Rest(w)
  {
    if w.inbound[0] == w.mine {
      ReceivedDropped(w);
    } else if Out(w) == [] {
      TakenAlone(w);
    } else {
      TakenAmong(w);
    }
  }

  lemma ReceivedKeepsFinal<T>(w: Flow<T>)
    requires w.inbound != [] && !Loops(w)
    ensures FinalMine(Received(w)) == FinalMine(w) && FinalTheirs(Received(w)) == FinalTheirs(w)
    ensures Apart(Received(w)) <==> Apart(w)
  {
    if w.inbound[0] == w.mine {
      ReceivedDropped(w);
    } else {
      ReceivedTaken(w);
      EchoesAlternate(w.theirs, w.outbound);
      EchoesAlternate(w.mine, w.inbound);
      EchoesAlternate(w.inbound[0], w.inbound[1..]);
      EchoesOfEchoes(w.theirs, In(w));
      assert In(w)[1..] == In(Received(w));
    }
  }

  /** With nothing under way nothing goes round, and the final values are there. */
  lemma QuietIsFinal<T>(w: Flow<T>)
    requires w.outbound == [] && w.inbound == []
    ensures !Loops(w) && Rest(w) == 0 && FinalMine(w) == w.mine && FinalTheirs(w) == w.theirs && (Apart(w) <==> w.mine != w.theirs)
  {
  }

  /** Where values do not go round for ever, at most three more are passed. */
  lemma RestIsSmall<T>(w: Flow<T>)
    requires !Loops(w)
    ensures Rest(w) <= 3
  {
    EchoesAlternate(w.theirs, w.outbound);
    EchoesAlternate(w.mine, w.inbound);
    EchoesOfEchoes(w.mine, Out(w));
    EchoesOfEchoes(w.theirs, In(w));
  }

  // ---- one more value --------------------------------------------------------

  /** A value written with nothing under way. */
  lemma WrittenSettles<T>(mine: T, theirs: T, v: T)
    ensures var w := Flow([v], [], v, theirs);
      && !Loops(w) && Rest(w) == (if theirs == v then 0 else 1)
      && FinalMine(w) == FinalTheirs(w) == v && !Apart(w)
  {
    EchoesOne(theirs, v);
    EchoesOne(v, v);
  }

  // ---- a value that comes between --------------------------------------------

  /** A value put among those under way to the other side, after `a` and before `b`. */
  function Inserted<T>(w: Flow<T>, a: seq<T>, p: T, b: seq<T>): Flow<T> {
    w.(outbound := a + [p] + b)
  }

  lemma InsertedOut<T>(w: Flow<T>, a: seq<T>, p: T, b: seq<T>)
    requires w.outbound == a + b
    ensures var r := Held(w.theirs, a);
      && Out(w) == Echoes(w.theirs, a) + Echoes(r, b)
      && Out(Inserted(w, a, p, b)) == Echoes(w.theirs, a) + (if r == p then [] else [p]) + Echoes(p, b)
      && Held(w.theirs, a + [p] + b) == Held(p, b)
  {
    var r := Held(w.theirs, a);
    EchoesAppend(w.theirs, a, b);
    EchoesAppend(w.theirs, a + [p], b);
    EchoesAppend(w.theirs, a, [p]);
    EchoesOne(r, p);
  }

  lemma {:induction false} EchoesWithin<T>(x: T, s: seq<T>, j: nat)
    requires j < |Echoes(x, s)|
    ensures Echoes(x, s)[j] in s
  {
    if s[0] == x {
      EchoesWithin(x, s[1..], j);
    } else if j > 0 {
      assert Echoes(x, s) == [s[0]] + Echoes(s[0], s[1..]);
      EchoesWithin(s[0], s[1..], j - 1);
    }
  }

  function One(b: bool): nat {
    if b then 1 else 0
  }

  /** Values that end with what is held before them either change nothing or come back twice at least. */
  lemma EndsAsHeld<T>(x: T, b: seq<T>)
    requires b != [] && b[|b| - 1] == x
    ensures Echoes(x, b) == [] || |Echoes(x, b)| >= 2
    ensures Echoes(x, b) == [] ==> forall r: T {:trigger Echoes(r, b)} :: Echoes(r, b) == if r == x then [] else [x]
  {
    EchoesAlternate(x, b);
    NoEchoes(x, b);
    if Echoes(x, b) == [] {
      forall r: T ensures Echoes(r, b) == if r == x then [] else [x] {
        assert b == [b[0]] + b[1..];
        NoEchoes(x, b[1..]);
        EchoesAppend(r, [b[0]], b[1..]);
        EchoesOne(r, b[0]);
      }
    }
  }

  lemma SameAppended<T>(w: Flow<T>)
    requires var w' := Inserted(w, w.outbound, w.mine, []); !Loops(w')
    requires w.outbound != [] ==> w.outbound[|w.outbound| - 1] == w.mine
    ensures var w' := Inserted(w, w.outbound, w.mine, []); Rest(w') + One(Apart(w')) <= Rest(w) + One(Apart(w))
  {
    var m := w.mine;
    var w' := Inserted(w, w.outbound, m, []);
    assert w.outbound + [] == w.outbound;
    InsertedOut(w, w.outbound, m, []);
    EchoesAlternate(m, w.inbound);
    if w.outbound == [] {
      EchoesOne(m, m);
      EchoesOne(w.theirs, m);
    }
  }

  lemma SameBetween<T>(w: Flow<T>, a: seq<T>, b: seq<T>)
    requires w.outbound == a + b && b != [] && b[|b| - 1] == w.mine && !Loops(Inserted(w, a, w.mine, b))
    ensures Out(Inserted(w, a, w.mine, b)) == Out(w)
  {
    var m, r := w.mine, Held(w.theirs, a);
    var w' := Inserted(w, a, m, b);
    InsertedOut(w, a, m, b);
    EndsAsHeld(m, b);
    if Echoes(m, b) == [] {
      assert Echoes(r, b) == if r == m then [] else [m];
    } else if r != m {
      EchoesAlternate(w.theirs, w'.outbound);
      EchoesOfEchoes(m, Out(w'));
    }
  }

  /** Inserting again the value this side holds, when the last under way from it is that value too: nothing
      more is passed, unless it is the first news of it to the other side. */
  lemma SameAgain<T>(w: Flow<T>, a: seq<T>, b: seq<T>)
    requires w.outbound == a + b && !Loops(Inserted(w, a, w.mine, b))
    requires w.outbound != [] ==> w.outbound[|w.outbound| - 1] == w.mine
    ensures var w' := Inserted(w, a, w.mine, b); Rest(w') + One(Apart(w')) <= Rest(w) + One(Apart(w))
  {
    if b == [] {
      assert a == w.outbound;
      SameAppended(w);
    } else {
      assert b[|b| - 1] == w.outbound[|w.outbound| - 1];
      SameBetween(w, a, b);
    }
  }

  /** Inserting any other value makes for two more at most. */
  lemma OtherAgain<T>(w: Flow<T>, a: seq<T>, p: T, b: seq<T>)
    requires w.outbound == a + b && p != w.mine && !Loops(w) && !Loops(Inserted(w, a, p, b))
    ensures var w' := Inserted(w, a, p, b); Rest(w') + One(Apart(w')) <= Rest(w) + One(Apart(w)) + 2
  {
    var w' := Inserted(w, a, p, b);
    EchoesAlternate(w.theirs, w'.outbound);
    EchoesAlternate(w.mine, w.inbound);
    EchoesOfEchoes(w.mine, Out(w'));
    EchoesOfEchoes(w.theirs, In(w));
    OutOfLess(w, a, p, b);
    if In(w) == [] && |Out(w')| == 2 {
      EchoesWithin(w.theirs, w'.outbound, 0);
      assert w.mine in w.outbound;
      NoEchoes(w.theirs, w.outbound);
    }
  }

  /** If nothing comes back with the value inserted, nothing did without. */
  lemma OutOfLess<T>(w: Flow<T>, a: seq<T>, p: T, b: seq<T>)
    requires w.outbound == a + b
    ensures Out(Inserted(w, a, p, b)) == [] ==> Out(w) == [] && p == w.theirs
  {
    NoEchoes(w.theirs, a + [p] + b);
    NoEchoes(w.theirs, a + b);
    var s := a + [p] + b;
    if Out(Inserted(w, a, p, b)) == [] {
      assert s[|a|] == p;
      forall j | 0 <= j < |a + b| ensures (a + b)[j] == w.theirs {
        assert (a + b)[j] == s[if j < |a| then j else j + 1];
      }
    }
  }

  /** What the sides will hold in the end, with a value inserted. */
  lemma InsertedFinal<T>(w: Flow<T>, a: seq<T>, p: T, b: seq<T>)
    requires w.outbound == a + b && !Loops(w) && !Loops(Inserted(w, a, p, b))
    ensures var w' := Inserted(w, a, p, b);
      if Out(w') != [] && In(w) == [] then
        FinalMine(w') == FinalTheirs(w') == Held(p, b)
      else
        FinalMine(w') == FinalMine(w) && FinalTheirs(w') == FinalTheirs(w)
    ensures Out(Inserted(w, a, p, b)) == [] ==> Out(w) == [] && p == w.theirs
  {
    var w' := Inserted(w, a, p, b);
    InsertedOut(w, a, p, b);
    OutOfLess(w, a, p, b);
    EchoesAlternate(w.theirs, w'.outbound);
    EchoesAlternate(w.mine, w.inbound);
  }

  /** With nothing that will change this side: it ends with what it has sent last, or both stay as they are. */
  lemma OutboundFinal<T>(w: Flow<T>)
    requires !Loops(w) && In(w) == []
    ensures if Out(w) == [] then FinalMine(w) == w.mine && FinalTheirs(w) == w.theirs
            else w.outbound != [] && FinalMine(w) == FinalTheirs(w) == w.outbound[|w.outbound| - 1]
  {
    EchoesAlternate(w.theirs, w.outbound);
  }
}
