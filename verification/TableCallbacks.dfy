/**
 `table_base`: the data callbacks a table keeps on each of its rows, and the tie
 between a row and its table.

 Row objects are numbered in the order in which they are made, and stay there after
 they are removed from the table.  `born`, `clock` and `unsubscribed` are
 bookkeeping: when a row was made, and when a callback was last unsubscribed.
 */
module TableCallbacks {
  import opened CallbackHandlers
  import opened Options

  type Key = string
  type Callback = nat

  datatype RowObject = RowObject(key: Key, callbacks: seq<Callback>, linked: bool, born: nat)

  /** Who listens to the table: its rows, each for its own removal, and others. */
  datatype Listener = OfRow(id: nat) | OfClient(client: nat)

  datatype Table = Table(
    rows: map<Key, nat>,
    objects: seq<RowObject>,
    dataCallbacks: seq<Callback>,
    listeners: seq<Listener>,
    clock: nat,
    unsubscribed: map<Callback, nat>)

  datatype Op =
    | AddRow(key: Key)
    | RemoveRow(key: Key)
    | SubscribeData(callback: Callback)
    | UnsubscribeData(callback: Callback)

  function AddedAll(s: seq<Callback>, xs: seq<Callback>): seq<Callback> {
    if xs == [] then s else Added(AddedAll(s, xs[..|xs| - 1]), xs[|xs| - 1])
  }

  function ErasedAll(s: seq<Callback>, xs: seq<Callback>): seq<Callback> {
    if xs == [] then s else Erased(ErasedAll(s, xs[..|xs| - 1]), xs[|xs| - 1])
  }

  lemma {:induction false} AddedAllHas(s: seq<Callback>, xs: seq<Callback>)
    requires Distinct(s)
    ensures Distinct(AddedAll(s, xs)) && forall y :: y in AddedAll(s, xs) <==> y in s || y in xs
  {
    if xs != [] {
      var init := xs[..|xs| - 1];
      AddedAllHas(s, init);
      AddedDistinct(AddedAll(s, init), xs[|xs| - 1]);
      assert xs == init + [xs[|xs| - 1]];
    }
  }

  lemma {:induction false} ErasedAllHas(s: seq<Callback>, xs: seq<Callback>)
    requires Distinct(s)
    ensures Distinct(ErasedAll(s, xs)) && forall y :: y in ErasedAll(s, xs) <==> y in s && y !in xs
  {
    if xs != [] {
      var init := xs[..|xs| - 1];
      ErasedAllHas(s, init);
      ErasedIsGone(ErasedAll(s, init), xs[|xs| - 1]);
      assert xs == init + [xs[|xs| - 1]];
    }
  }

  // ---- operations ------------------------------------------------------------

  /** Object `id` is one of the table's rows. */
  predicate Present(t: Table, id: nat) {
    id < |t.objects| && t.objects[id].key in t.rows && t.rows[t.objects[id].key] == id
  }

  /** The new row ties itself to the table when it is made, and is then given the data callbacks. */
  function DoAdd(t: Table, key: Key): Table {
    if key in t.rows then t
    else
      var id := |t.objects|;
      t.(rows := t.rows[key := id], objects := t.objects + [RowObject(key, AddedAll([], t.dataCallbacks), true, t.clock)],
         listeners := Added(t.listeners, OfRow(id)))
  }

  /** The row loses the data callbacks; being told of its removal, it stops listening and lets go of
      the table. */
  function DoRemove(t: Table, key: Key): Table {
    if key !in t.rows || t.rows[key] >= |t.objects| then t
    else
      var id := t.rows[key];
      var row := t.objects[id];
      var told := OfRow(id) in t.listeners;
      t.(rows := t.rows - {key},
         objects := t.objects[id := row.(callbacks := ErasedAll(row.callbacks, t.dataCallbacks), linked := row.linked && !told)],
         listeners := if told && row.linked then Erased(t.listeners, OfRow(id)) else t.listeners)
  }

  function SubscribedRows(t: Table, c: Callback): (r: seq<RowObject>)
    ensures |r| == |t.objects|
  {
    seq(|t.objects|, i requires 0 <= i < |t.objects| =>
      if Present(t, i) then t.objects[i].(callbacks := Added(t.objects[i].callbacks, c)) else t.objects[i])
  }

  function UnsubscribedRows(t: Table, c: Callback): (r: seq<RowObject>)
    ensures |r| == |t.objects|
  {
    seq(|t.objects|, i requires 0 <= i < |t.objects| =>
      if Present(t, i) then t.objects[i].(callbacks := Erased(t.objects[i].callbacks, c)) else t.objects[i])
  }

  /** A callback that is listed is taken to be subscribed. */
  function DoSubscribe(t: Table, c: Callback): Table {
    if c in t.dataCallbacks then t
    else t.(objects := SubscribedRows(t, c), dataCallbacks := t.dataCallbacks + [c])
  }

  /** The rows lose the callback; the list keeps it. */
  function DoUnsubscribe(t: Table, c: Callback): Table {
    if c !in t.dataCallbacks then t
    else t.(objects := UnsubscribedRows(t, c), unsubscribed := t.unsubscribed[c := t.clock])
  }

  function Do(t: Table, op: Op): Table {
    match op
    case AddRow(key) => DoAdd(t, key)
    case RemoveRow(key) => DoRemove(t, key)
    case SubscribeData(c) => DoSubscribe(t, c)
    case UnsubscribeData(c) => DoUnsubscribe(t, c)
  }

  function Next(t: Table, op: Op): Table {
    Do(t, op).(clock := t.clock + 1)
  }

  function After(t: Table, ops: seq<Op>): Table {
    if ops == [] then t else Next(After(t, ops[..|ops| - 1]), ops[|ops| - 1])
  }

  function Empty(): Table {
    Table(map[], [], [], [], 0, map[])
  }

  // ---------------------------------------------------------------------------
  // Which rows carry which callbacks
  // ---------------------------------------------------------------------------

  /** Listed, and not unsubscribed since the row was made. */
  predicate ShouldCarry(t: Table, row: RowObject, c: Callback) {
    c in t.dataCallbacks && (c in t.unsubscribed ==> t.unsubscribed[c] < row.born)
  }

  ghost predicate RowInv(t: Table, id: nat)
    requires id < |t.objects|
  {
    var row := t.objects[id];
    && row.born < t.clock
    && Distinct(row.callbacks)
    && (Present(t, id) ==> row.linked && OfRow(id) in t.listeners && forall c :: c in row.callbacks <==> ShouldCarry(t, row, c))
    && (!Present(t, id) ==> !row.linked && OfRow(id) !in t.listeners && row.callbacks == [])
  }

  ghost predicate Inv(t: Table) {
    && (forall key <- t.rows :: t.rows[key] < |t.objects| && t.objects[t.rows[key]].key == key)
    && Distinct(t.dataCallbacks) && Distinct(t.listeners)
    && (forall l <- t.listeners :: l.OfRow? ==> l.id < |t.objects|)
    && (forall c <- t.unsubscribed :: c in t.dataCallbacks && t.unsubscribed[c] < t.clock)
    && forall id: nat :: id < |t.objects| ==> RowInv(t, id)
  }

  lemma AddKeepsInv(t: Table, key: Key)
    requires Inv(t)
    ensures Inv(Next(t, AddRow(key)))
  {
    var t' := Next(t, AddRow(key));
    AddedAllHas([], t.dataCallbacks);
    AddedDistinct(t.listeners, OfRow(|t.objects|));
    forall id: nat | id < |t'.objects| ensures RowInv(t', id) {
      if id < |t.objects| {
        assert RowInv(t, id);
        assert Present(t', id) <==> Present(t, id);
      }
    }
  }

  lemma RemoveKeepsInv(t: Table, key: Key)
    requires Inv(t)
    ensures Inv(Next(t, RemoveRow(key)))
  {
    var t' := Next(t, RemoveRow(key));
    if key in t.rows {
      var gone := t.rows[key];
      assert RowInv(t, gone) && Present(t, gone);
      ErasedIsGone(t.listeners, OfRow(gone));
      ErasedAllHas(t.objects[gone].callbacks, t.dataCallbacks);
      Nothing(ErasedAll(t.objects[gone].callbacks, t.dataCallbacks));
    }
    forall id: nat | id < |t'.objects| ensures RowInv(t', id) {
      assert RowInv(t, id);
    }
  }

  lemma Nothing(s: seq<Callback>)
    ensures s != [] ==> exists c :: c in s
  {
    if s != [] {
      assert s[0] in s;
    }
  }

  lemma SubscribeKeepsInv(t: Table, c: Callback)
    requires Inv(t)
    ensures Inv(Next(t, SubscribeData(c)))
  {
    var t' := Next(t, SubscribeData(c));
    forall id: nat | id < |t'.objects| ensures RowInv(t', id) {
      assert RowInv(t, id);
      assert Present(t', id) <==> Present(t, id);
      AddedDistinct(t.objects[id].callbacks, c);
    }
  }

  lemma UnsubscribeKeepsInv(t: Table, c: Callback)
    requires Inv(t)
    ensures Inv(Next(t, UnsubscribeData(c)))
  {
    var t' := Next(t, UnsubscribeData(c));
    forall id: nat | id < |t'.objects| ensures RowInv(t', id) {
      assert RowInv(t, id);
      assert Present(t', id) <==> Present(t, id);
      ErasedIsGone(t.objects[id].callbacks, c);
    }
  }

  lemma {:induction false} AfterKeepsInv(ops: seq<Op>)
    ensures Inv(After(Empty(), ops))
    decreases |ops|
  {
    if ops != [] {
      var t, op := After(Empty(), ops[..|ops| - 1]), ops[|ops| - 1];
      AfterKeepsInv(ops[..|ops| - 1]);
      match op
      case AddRow(key) => AddKeepsInv(t, key);
      case RemoveRow(key) => RemoveKeepsInv(t, key);
      case SubscribeData(c) => SubscribeKeepsInv(t, c);
      case UnsubscribeData(c) => UnsubscribeKeepsInv(t, c);
    }
  }

  // ---- statements about whole histories --------------------------------------

  /** After any operations: a row of the table carries exactly the callbacks that have ever been subscribed
      and have not been unsubscribed since the row was made; it listens to its table.  A removed row
      carries none, does not listen, and has let go of the table. */
  lemma CarriesExactly(ops: seq<Op>, id: nat, c: Callback)
    requires id < |After(Empty(), ops).objects|
    ensures var t := After(Empty(), ops);
      && Distinct(t.objects[id].callbacks)
      && (c in t.objects[id].callbacks <==> Present(t, id) && ShouldCarry(t, t.objects[id], c))
      && (t.objects[id].linked <==> Present(t, id)) && (OfRow(id) in t.listeners <==> Present(t, id))
  {
    AfterKeepsInv(ops);
    assert RowInv(After(Empty(), ops), id);
  }

  lemma StepLists(t: Table, op: Op, c: Callback)
    ensures c in Next(t, op).dataCallbacks <==> c in t.dataCallbacks || op == SubscribeData(c)
    ensures op != UnsubscribeData(c) ==> (c in Next(t, op).unsubscribed <==> c in t.unsubscribed)
  {
  }

  lemma {:induction false} ListedIffSubscribed(ops: seq<Op>, c: Callback)
    ensures var t := After(Empty(), ops);
      && (c in t.dataCallbacks <==> SubscribeData(c) in ops)
      && (UnsubscribeData(c) !in ops ==> c !in t.unsubscribed)
    decreases |ops|
  {
    if ops != [] {
      var init, op := ops[..|ops| - 1], ops[|ops| - 1];
      assert ops == init + [op];
      ListedIffSubscribed(init, c);
      StepLists(After(Empty(), init), op, c);
    }
  }

  /** A callback subscribed at some time and never unsubscribed is on every row of the table, made before
      the subscription or after it; one never subscribed is on none. */
  lemma NeverUnsubscribedIsEverywhere(ops: seq<Op>, id: nat, c: Callback)
    requires Present(After(Empty(), ops), id) && UnsubscribeData(c) !in ops
    ensures c in After(Empty(), ops).objects[id].callbacks <==> SubscribeData(c) in ops
  {
    ListedIffSubscribed(ops, c);
    CarriesExactly(ops, id, c);
  }

  /** Whether the callback's last mention subscribed it. */
  predicate Wanted(ops: seq<Op>, c: Callback) {
    ops != [] &&
    var op := ops[|ops| - 1];
    op == SubscribeData(c) || (op != UnsubscribeData(c) && Wanted(ops[..|ops| - 1], c))
  }

  /** The position of the last operation that unsubscribed the callback: one before any subscription of it
      does nothing. */
  function LastUnsubscription(ops: seq<Op>, c: Callback): Option<nat> {
    if ops == [] then None
    else
      var n := |ops| - 1;
      if ops[n] == UnsubscribeData(c) && SubscribeData(c) in ops[..n] then Some(n) else LastUnsubscription(ops[..n], c)
  }

  /** Operation `b` has made row object `id`. */
  ghost predicate MadeAt(ops: seq<Op>, id: nat, b: nat) {
    && b < |ops| && ops[b].AddRow?
    && id == |After(Empty(), ops[..b]).objects| && ops[b].key !in After(Empty(), ops[..b]).rows
  }

  /** The table's clock counts operations, so its records of times are positions. */
  lemma {:induction false} TimesArePositions(ops: seq<Op>, c: Callback)
    ensures var t := After(Empty(), ops);
      && t.clock == |ops|
      && (c in t.unsubscribed <==> LastUnsubscription(ops, c).Some?)
      && (c in t.unsubscribed ==> t.unsubscribed[c] == LastUnsubscription(ops, c).value < |ops|)
    decreases |ops|
  {
    if ops != [] {
      TimesArePositions(ops[..|ops| - 1], c);
      ListedIffSubscribed(ops[..|ops| - 1], c);
    }
  }

  lemma AddedNow(t: Table, key: Key)
    requires key !in t.rows
    ensures var t' := Next(t, AddRow(key)); |t'.objects| == |t.objects| + 1 && t'.objects[|t.objects|].born == t.clock
  {
  }

  lemma {:induction false} BornWhenMade(ops: seq<Op>, id: nat, b: nat)
    requires MadeAt(ops, id, b)
    ensures id < |After(Empty(), ops).objects| && After(Empty(), ops).objects[id].born == b
    decreases |ops|
  {
    var init, op := ops[..|ops| - 1], ops[|ops| - 1];
    var t := After(Empty(), init);
    if b < |init| {
      assert init[..b] == ops[..b] && init[b] == ops[b];
      BornWhenMade(init, id, b);
      ObjectsKeepBirth(t, op, id);
    } else {
      TimesArePositions(init, 0);
      AddedNow(t, op.key);
    }
  }

  lemma ObjectsKeepBirth(t: Table, op: Op, id: nat)
    requires id < |t.objects|
    ensures id < |Next(t, op).objects| && Next(t, op).objects[id].born == t.objects[id].born
  {
  }

  /** A row of the table, made by operation `b`, carries a callback exactly if the callback has been subscribed
      at some time, and has not been unsubscribed since the row was made. */
  lemma CarriesByHistory(ops: seq<Op>, id: nat, b: nat, c: Callback)
    requires MadeAt(ops, id, b) && Present(After(Empty(), ops), id)
    ensures c in After(Empty(), ops).objects[id].callbacks <==>
      SubscribeData(c) in ops && (LastUnsubscription(ops, c).Some? ==> LastUnsubscription(ops, c).value < b)
  {
    BornWhenMade(ops, id, b);
    TimesArePositions(ops, c);
    ListedIffSubscribed(ops, c);
    CarriesExactly(ops, id, c);
  }

  lemma {:induction false} WantedUnlessUnsubscribed(ops: seq<Op>, c: Callback)
    requires LastUnsubscription(ops, c).None?
    ensures Wanted(ops, c) <==> SubscribeData(c) in ops
    decreases |ops|
  {
    if ops != [] {
      var init, op := ops[..|ops| - 1], ops[|ops| - 1];
      assert ops == init + [op];
      assert LastUnsubscription(init, c).None? && (op == UnsubscribeData(c) ==> SubscribeData(c) !in init);
      WantedUnlessUnsubscribed(init, c);
    }
  }

  /** A row has a callback right (it carries it if and only if it is wanted) exactly if the callback has never
      been unsubscribed, or is wanted again and the row is younger than the last unsubscription, or is not
      wanted and the row is older. */
  lemma RightIffBornOnTheRightSide(ops: seq<Op>, id: nat, b: nat, c: Callback)
    requires MadeAt(ops, id, b) && Present(After(Empty(), ops), id)
    ensures (c in After(Empty(), ops).objects[id].callbacks <==> Wanted(ops, c)) <==>
      match LastUnsubscription(ops, c)
      case None => true
      case Some(u) => Wanted(ops, c) <==> u < b
  {
    CarriesByHistory(ops, id, b, c);
    if LastUnsubscription(ops, c).None? {
      WantedUnlessUnsubscribed(ops, c);
    } else {
      UnsubscribedWasSubscribed(ops, c);
    }
  }

  lemma {:induction false} UnsubscribedWasSubscribed(ops: seq<Op>, c: Callback)
    requires LastUnsubscription(ops, c).Some?
    ensures SubscribeData(c) in ops
    decreases |ops|
  {
    var n := |ops| - 1;
    assert ops == ops[..n] + [ops[n]];
    if SubscribeData(c) !in ops[..n] {
      UnsubscribedWasSubscribed(ops[..n], c);
    }
  }

  /** Subscribing again after unsubscribing does nothing for the rows there are. */
  lemma ResubscribingIsLost(key: Key, c: Callback)
    ensures var ops := [AddRow(key), SubscribeData(c), UnsubscribeData(c), SubscribeData(c)];
      var t := After(Empty(), ops);
      Present(t, 0) && Wanted(ops, c) && c !in t.objects[0].callbacks
  {
    var a: seq<Op> := [AddRow(key)];
    var b := a + [SubscribeData(c)];
    var d := b + [UnsubscribeData(c)];
    var e := d + [SubscribeData(c)];
    assert e == [AddRow(key), SubscribeData(c), UnsubscribeData(c), SubscribeData(c)];
    assert a[..0] == [] && b[..1] == a && d[..2] == b && e[..3] == d;
    var t0 := After(Empty(), a);
    assert After(Empty(), a[..0]) == Empty();
    assert t0 == Next(Empty(), AddRow(key));
    var t1 := After(Empty(), b);
    assert t1 == Next(t0, SubscribeData(c));
    var t2 := After(Empty(), d);
    assert t2 == Next(t1, UnsubscribeData(c));
    assert c in t2.dataCallbacks && t2.unsubscribed[c] == 2;
    var t3 := After(Empty(), e);
    assert t3 == Next(t2, SubscribeData(c));
    CarriesExactly(e, 0, c);
  }

  // ---------------------------------------------------------------------------
  // The object
  // ---------------------------------------------------------------------------

  class TableBase {
    var rows: map<Key, nat>
    var objects: seq<RowObject>
    var dataCallbacks: seq<Callback>
    var listeners: seq<Listener>
    var clock: nat              // bookkeeping, as are the times rows were born
    ghost var unsubscribed: map<Callback, nat>

    ghost function View(): Table
      reads this
    {
      Table(rows, objects, dataCallbacks, listeners, clock, unsubscribed)
    }

    constructor ()
      ensures View() == Empty() && Inv(View())
    {
      rows, objects, dataCallbacks, listeners, clock, unsubscribed := map[], [], [], [], 0, map[];
    }

    /** `data_size` 0 is refused unless the row is of the empty type. */
    method AddRow(key: Key, dataSize: nat, emptyType: bool) returns (added: bool)
      requires Inv(View())
      modifies this
      ensures Inv(View())
      ensures added <==> key !in old(rows) && (dataSize > 0 || emptyType)
      ensures View() == if added then Next(old(View()), Op.AddRow(key)) else old(View())
    {
      if dataSize == 0 && !emptyType {
        return false;
      }
      if key in rows {
        return false;
      }
      AddKeepsInv(View(), key);
      ghost var before := View();
      var callbacks: seq<Callback> := [];
      for i := 0 to |dataCallbacks|
        invariant callbacks == AddedAll([], dataCallbacks[..i])
      {
        assert dataCallbacks[..i + 1][..i] == dataCallbacks[..i];
        callbacks := Added(callbacks, dataCallbacks[i]);
      }
      assert dataCallbacks[..|dataCallbacks|] == dataCallbacks;
      rows := rows[key := |objects|];
      listeners := Added(listeners, OfRow(|objects|));
      objects := objects + [RowObject(key, callbacks, true, clock)];
      clock := clock + 1;
      added := true;
    }

    /** Listeners are told from a snapshot; the row is the only one that reacts. */
    method RemoveRow(key: Key) returns (removed: bool)
      requires Inv(View())
      modifies this
      ensures Inv(View())
      ensures removed <==> key in old(rows)
      ensures rows == old(rows) - {key} && dataCallbacks == old(dataCallbacks)
      ensures removed ==>
        var id := old(rows)[key];
        id < |objects| && objects[id].callbacks == [] && !objects[id].linked && OfRow(id) !in listeners
      ensures View() == if removed then Next(old(View()), Op.RemoveRow(key)) else old(View())
    {
      if key !in rows {
        return false;
      }
      RemoveKeepsInv(View(), key);
      var id := rows[key];
      var row := objects[id];
      for i := 0 to |dataCallbacks|
        invariant row == objects[id].(callbacks := ErasedAll(objects[id].callbacks, dataCallbacks[..i]))
      {
        assert dataCallbacks[..i + 1][..i] == dataCallbacks[..i];
        row := row.(callbacks := Erased(row.callbacks, dataCallbacks[i]));
      }
      assert dataCallbacks[..|dataCallbacks|] == dataCallbacks;
      assert RowInv(View(), id);
      var linked, remaining := row.linked, listeners;
      for i := 0 to |listeners|
        invariant linked == (OfRow(id) !in listeners[..i])
        invariant remaining == if linked then listeners else Erased(listeners, OfRow(id))
      {
        if listeners[i] == OfRow(id) {
          if linked {
            remaining := Erased(remaining, OfRow(id));
          }
          linked := false;
        }
      }
      assert listeners[..|listeners|] == listeners;
      ghost var gone := Next(View(), Op.RemoveRow(key));
      assert RowInv(gone, id) && !Present(gone, id);
      objects := objects[id := row.(linked := linked)];
      listeners := remaining;
      rows := rows - {key};
      clock := clock + 1;
      removed := true;
    }

    method SubscribeDataCallback(callback: Callback) returns (ok: bool)
      requires Inv(View())
      modifies this
      ensures Inv(View()) && ok && View() == Next(old(View()), SubscribeData(callback))
    {
      SubscribeKeepsInv(View(), callback);
      ok := true;
      if callback in dataCallbacks {
        clock := clock + 1;
        return;
      }
      ghost var before := View();
      var changed, rest := objects, rows.Keys;
      while rest != {}
        invariant rest <= rows.Keys && |changed| == |objects|
        invariant forall i :: 0 <= i < |objects| ==>
          changed[i] == if Present(before, i) && objects[i].key !in rest then SubscribedRows(before, callback)[i] else objects[i]
      {
        var key :| key in rest;
        var id := rows[key];
        changed := changed[id := changed[id].(callbacks := Added(changed[id].callbacks, callback))];
        rest := rest - {key};
      }
      assert changed == SubscribedRows(before, callback);
      objects := changed;
      dataCallbacks := dataCallbacks + [callback];
      clock := clock + 1;
    }

    method UnsubscribeDataCallback(callback: Callback) returns (ok: bool)
      requires Inv(View())
      modifies this
      ensures Inv(View()) && (ok <==> callback in old(dataCallbacks)) && View() == Next(old(View()), UnsubscribeData(callback))
    {
      UnsubscribeKeepsInv(View(), callback);
      if callback !in dataCallbacks {
        clock := clock + 1;
        return false;
      }
      ghost var before := View();
      var changed, rest := objects, rows.Keys;
      while rest != {}
        invariant rest <= rows.Keys && |changed| == |objects|
        invariant forall i :: 0 <= i < |objects| ==>
          changed[i] == if Present(before, i) && objects[i].key !in rest then UnsubscribedRows(before, callback)[i] else objects[i]
      {
        var key :| key in rest;
        var id := rows[key];
        changed := changed[id := changed[id].(callbacks := Erased(changed[id].callbacks, callback))];
        rest := rest - {key};
      }
      assert changed == UnsubscribedRows(before, callback);
      objects := changed;
      unsubscribed := unsubscribed[callback := clock];
      clock := clock + 1;
      ok := true;
    }
  }
}
