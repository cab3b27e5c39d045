/**
 Whom the operations of a subscriptions object touch: one row at a time, and of the
 callbacks registered with that row only this object's own.
 */
module RowLifetimes {
  import opened CallbackHandlers
  import opened Subscriptions

  function RowOf(op: Op): Row {
    match op
    case Create(row, _) => row
    case Subscribe(row) => row
    case Unsubscribe(row, _) => row
    case BeginDispose(row) => row
    case EndDispose(row) => row
  }

  /** Row `q` is as it was, with its entry, its callbacks and the tokens handed out for it. */
  ghost predicate SameRow(s: State, t: State, q: Row) {
    && (q in t.rows <==> q in s.rows) && (q in s.rows ==> t.rows[q] == s.rows[q])
    && (q in t.entries <==> q in s.entries) && (q in s.entries ==> t.entries[q] == s.entries[q])
    && forall token :: Live(q, token) in t.live <==> Live(q, token) in s.live
  }

  lemma SubscribeUntouched(s: State, row: Row, q: Row)
    requires row in s.rows && q != row
    ensures SameRow(s, DoSubscribe(s, row).state, q)
  {
  }

  lemma UnsubscribeUntouched(s: State, row: Row, token: nat, q: Row)
    requires q != row
    ensures SameRow(s, DoUnsubscribe(s, row, token).state, q)
  {
  }

  /** An operation on one row leaves every other as it was. */
  lemma OtherRowsUntouched(s: State, op: Op, q: Row)
    requires Inv(s) && Allowed(s, op) && q != RowOf(op)
    ensures SameRow(s, Do(s, op).state, q)
  {
    match op
    case Create(_, _) =>
    case Subscribe(row) => SubscribeUntouched(s, row, q);
    case Unsubscribe(row, token) => UnsubscribeUntouched(s, row, token, q);
    case BeginDispose(_) =>
    case EndDispose(_) =>
  }

  /** The callbacks of others. */
  predicate Foreign(c: Callback) {
    c.Others?
  }

  lemma ErasedKeepsForeign(lists: seq<Callback>, n: nat)
    requires Distinct(lists)
    ensures forall c :: Foreign(c) ==> (c in Erased(lists, Ours(n)) <==> c in lists)
  {
    ErasedIsGone(lists, Ours(n));
  }

  /** Subscribing and unsubscribing leave the callbacks of others registered; so does the row's own destructor, but
      for its data callbacks, all of which it clears. */
  lemma ForeignCallbacksKept(s: State, op: Op, row: Row)
    requires Inv(s) && Allowed(s, op) && RowOf(op) == row && row in s.rows && !op.EndDispose?
    ensures var t := Do(s, op).state;
      && row in t.rows
      && (forall c :: Foreign(c) ==> (c in t.rows[row].disposable <==> c in s.rows[row].disposable))
      && (!op.BeginDispose? ==> t.rows[row].dying == s.rows[row].dying)
      && (!op.BeginDispose? ==> forall c :: Foreign(c) ==> (c in t.rows[row].data <==> c in s.rows[row].data))
  {
    assert RowInv(s, row);
    if op.Unsubscribe? && row in s.entries {
      ErasedKeepsForeign(s.rows[row].disposable, s.entries[row].disposable);
      ErasedKeepsForeign(s.rows[row].data, s.entries[row].data);
    }
  }

  /** A row whose own destructor has run is dying: it has no data callbacks, and everything else is as it was. */
  lemma DestructionBegins(s: State, row: Row)
    requires Inv(s) && Allowed(s, BeginDispose(row))
    ensures var t := Do(s, BeginDispose(row)).state;
      && row in t.rows && t.rows[row].dying && t.rows[row].data == [] && t.rows[row].disposable == s.rows[row].disposable
      && t.entries == s.entries && t.live == s.live && !Alive(t, row)
  {
  }

  /** A row that is gone has no entry and no live token, so its address can be used again. */
  lemma DestructionEnds(s: State, row: Row)
    requires Inv(s) && Allowed(s, EndDispose(row))
    ensures var t := Do(s, EndDispose(row)).state;
      && row !in t.rows && row !in t.entries && (forall token :: Live(row, token) !in t.live)
      && forall lists :: Allowed(t, Create(row, lists))
  {
    assert RowInv(s, row);
  }

  /** A new row comes with the callbacks it was given by others, and with nothing of this object's. */
  lemma CreationBegins(s: State, row: Row, lists: RowLists)
    requires Inv(s) && Allowed(s, Create(row, lists))
    ensures var t := Do(s, Create(row, lists)).state;
      row in t.rows && t.rows[row] == lists && row !in t.entries && forall token :: Live(row, token) !in t.live
  {
    assert row in s.entries ==> EntryInv(s, row);
  }

  /** Where the row stands after the operation: not there, alive, or dying. */
  datatype Standing = Absent | Living | Dying

  function StandingOf(s: State, row: Row): Standing {
    if row !in s.rows then Absent else if s.rows[row].dying then Dying else Living
  }

  /** What the operations on a row have made of it. */
  function StandingAfter(start: Standing, ops: seq<Op>, row: Row): Standing {
    if ops == [] then start
    else
      var before := StandingAfter(start, ops[..|ops| - 1], row);
      match ops[|ops| - 1]
      case Create(q, _) => if q == row then Living else before
      case BeginDispose(q) => if q == row then Dying else before
      case EndDispose(q) => if q == row then Absent else before
      case _ => before
  }

  lemma StandingStep(s: State, op: Op, row: Row)
    requires Inv(s) && Allowed(s, op) && (op.Create? ==> Clean(op.lists))
    ensures StandingOf(Do(s, op).state, row) == StandingAfter(StandingOf(s, row), [op], row)
  {
    assert [op][..0] == [];
    if RowOf(op) != row {
      OtherRowsUntouched(s, op, row);
    } else if row in s.rows && !op.EndDispose? {
      ForeignCallbacksKept(s, op, row);
    }
  }

  lemma {:induction false} StandingSplits(start: Standing, op: Op, rest: seq<Op>, row: Row)
    ensures StandingAfter(start, [op] + rest, row) == StandingAfter(StandingAfter(start, [op], row), rest, row)
    decreases |rest|
  {
    var all := [op] + rest;
    if rest == [] {
      assert all == [op];
    } else {
      assert all[..|all| - 1] == [op] + rest[..|rest| - 1];
      StandingSplits(start, op, rest[..|rest| - 1], row);
    }
  }

  lemma StepKeepsInv(s: State, op: Op)
    requires Inv(s) && Allowed(s, op) && (op.Create? ==> Clean(op.lists))
    ensures Inv(Do(s, op).state)
  {
    match op
    case Create(row, lists) => CreateKeepsInv(s, row, lists);
    case Subscribe(row) => SubscribeKeepsInv(s, row);
    case Unsubscribe(row, token) => UnsubscribeKeepsInv(s, row, token);
    case BeginDispose(row) => BeginDisposeKeepsInv(s, row);
    case EndDispose(row) => EndDisposeKeepsInv(s, row);
  }

  /** In every run a row is there from its creation to the end of its destruction, and dying from the moment its own
      destructor has run, whatever clients subscribe and unsubscribe. */
  lemma {:induction false} StandingByHistory(s: State, ops: seq<Op>, s': State, row: Row)
    requires Inv(s) && Run(s, ops, s')
    ensures StandingOf(s', row) == StandingAfter(StandingOf(s, row), ops, row)
    decreases |ops|
  {
    if ops != [] {
      StepKeepsInv(s, ops[0]);
      StandingStep(s, ops[0], row);
      StandingByHistory(Do(s, ops[0]).state, ops[1..], s', row);
      StandingSplits(StandingOf(s, row), ops[0], ops[1..], row);
      assert [ops[0]] + ops[1..] == ops;
    }
  }
}
