/**
 What adding and removing rows does to a table, and which rows it has after any
 operations.
 */
module TableMembers {
  import opened CallbackHandlers
  import opened TableCallbacks

  /** A row object nobody reaches through the table any more, and that reaches it no more either. */
  predicate LetGo(t: Table, id: nat) {
    id < |t.objects| && !Present(t, id) && !t.objects[id].linked && t.objects[id].callbacks == [] && OfRow(id) !in t.listeners
  }

  /** Every row object but `id` is as it was. */
  predicate SameObjectsBut(t: Table, t': Table, id: nat) {
    && |t'.objects| >= |t.objects|
    && forall i: nat :: i < |t.objects| && i != id ==> t'.objects[i] == t.objects[i] && (Present(t', i) <==> Present(t, i))
  }

  /** Who listens is unchanged but for row object `id`. */
  ghost predicate SameListenersBut(t: Table, t': Table, id: nat) {
    forall l :: l != OfRow(id) ==> (l in t'.listeners <==> l in t.listeners)
  }

  /** A key that is there is refused; otherwise the table has one row more, a new object that is tied to it and
      carries the callbacks listed. */
  lemma AddingARow(t: Table, key: Key)
    requires Inv(t)
    ensures var t' := Next(t, AddRow(key));
      if key in t.rows then t' == t.(clock := t.clock + 1)
      else
        var id := |t.objects|;
        && t'.rows.Keys == t.rows.Keys + {key} && t'.rows[key] == id && (forall q <- t.rows :: t'.rows[q] == t.rows[q])
        && |t'.objects| == |t.objects| + 1 && t'.objects[id].key == key && t'.objects[id].linked && OfRow(id) in t'.listeners
        && (forall c :: c in t'.objects[id].callbacks <==> c in t.dataCallbacks)
        && SameObjectsBut(t, t', id) && SameListenersBut(t, t', id) && t'.dataCallbacks == t.dataCallbacks
  {
    AddedAllHas([], t.dataCallbacks);
  }

  /** Removing a row takes its key out of the table and lets its object go; nothing else changes. */
  lemma RemovingARow(t: Table, key: Key)
    requires Inv(t)
    ensures var t' := Next(t, RemoveRow(key));
      if key !in t.rows then t' == t.(clock := t.clock + 1)
      else
        var id := t.rows[key];
        && t'.rows.Keys == t.rows.Keys - {key} && (forall q <- t'.rows :: t'.rows[q] == t.rows[q])
        && LetGo(t', id) && |t'.objects| == |t.objects| && t'.objects[id].key == key
        && SameObjectsBut(t, t', id) && SameListenersBut(t, t', id) && t'.dataCallbacks == t.dataCallbacks
  {
    if key in t.rows {
      var id := t.rows[key];
      assert RowInv(t, id) && Present(t, id);
      RemoveKeepsInv(t, key);
      assert RowInv(Next(t, RemoveRow(key)), id);
      ErasedIsGone(t.listeners, OfRow(id));
    }
  }

  /** The last operation that added or removed the key added it. */
  predicate LastAdded(ops: seq<Op>, key: Key) {
    ops != [] &&
    var op := ops[|ops| - 1];
    op == AddRow(key) || (op != RemoveRow(key) && LastAdded(ops[..|ops| - 1], key))
  }

  lemma StepMembers(t: Table, op: Op, key: Key)
    requires Inv(t)
    ensures key in Next(t, op).rows <==> op == AddRow(key) || (op != RemoveRow(key) && key in t.rows)
  {
    match op
    case AddRow(q) => AddingARow(t, q);
    case RemoveRow(q) => RemovingARow(t, q);
    case _ =>
  }

  /** After any operations a table has a row of a key exactly if the last operation that added or removed the
      key added it. */
  lemma {:induction false} MembersByHistory(ops: seq<Op>, key: Key)
    ensures key in After(Empty(), ops).rows <==> LastAdded(ops, key)
    decreases |ops|
  {
    if ops != [] {
      var init := ops[..|ops| - 1];
      MembersByHistory(init, key);
      AfterKeepsInv(init);
      StepMembers(After(Empty(), init), ops[|ops| - 1], key);
    }
  }

  /** And it has one row object of that key then, which is tied to it and listens to it; every other object
      ever made for the key has been let go. */
  lemma OneObjectPerKey(ops: seq<Op>, key: Key, id: nat)
    requires var t := After(Empty(), ops); id < |t.objects| && t.objects[id].key == key
    ensures var t := After(Empty(), ops);
      && (key in t.rows <==> LastAdded(ops, key))
      && if key in t.rows && t.rows[key] == id then Present(t, id) && t.objects[id].linked && OfRow(id) in t.listeners
         else LetGo(t, id)
  {
    AfterKeepsInv(ops);
    MembersByHistory(ops, key);
    assert RowInv(After(Empty(), ops), id);
  }
}
