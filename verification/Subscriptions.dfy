/**
 `subscriptions`: one row callback and one disposal callback per row, shared by all
 the clients that have subscribed to the row through this object.

 Rows are known by address; an address may be used again after its row is gone.  A
 row goes in two steps: its own destructor clears its data callbacks, and only then
 its base's destructor calls the disposal callbacks.  Between the two the row is
 dying: nobody refers to it any more, but its address may still be used to
 unsubscribe.
 Clients are known to a row's signal by tokens.  `live` is bookkeeping: the tokens
 handed out and not yet given back, for rows that are still there.
 */
module Subscriptions {
  import opened CallbackHandlers

  type Row = nat

  /** Callbacks this object has made, and those of others. */
  datatype Callback = Ours(n: nat) | Others(n: nat)

  datatype Entry = Entry(disposable: nat, data: nat, tokens: set<nat>)

  /** A row's two callback lists. */
  datatype RowLists = RowLists(disposable: seq<Callback>, data: seq<Callback>, dying: bool)

  datatype Live = Live(row: Row, token: nat)

  datatype State = State(entries: map<Row, Entry>, rows: map<Row, RowLists>, made: nat, live: set<Live>)

  datatype Op =
    | Create(row: Row, lists: RowLists)
    | Subscribe(row: Row)
    | Unsubscribe(row: Row, token: nat)
    | BeginDispose(row: Row)
    | EndDispose(row: Row)

  /** What the caller gets; `thrown` stands for the exceptions that report an unexpected registration. */
  datatype Result = Nothing | Token(token: nat) | Told(ok: bool) | Thrown

  datatype Outcome = Outcome(state: State, result: Result)

  /** The smallest token from `i` on that is not taken. */
  function LeastFree(tokens: set<nat>, i: nat): (t: nat)
    requires forall j: nat :: j < i ==> j in tokens
    ensures t !in tokens && t >= i && forall j: nat :: j < t ==> j in tokens
    decreases |tokens| - i
  {
    if i !in tokens then i
    else
      Below(tokens, i + 1);
      LeastFree(tokens, i + 1)
  }

  lemma {:induction false} Below(tokens: set<nat>, i: nat)
    requires forall j: nat :: j < i ==> j in tokens
    ensures i <= |tokens|
    decreases i
  {
    if i > 0 {
      Below(tokens - {i - 1}, i - 1);
    }
  }

  predicate Alive(s: State, row: Row) {
    row in s.rows && !s.rows[row].dying
  }

  /** Callers refer only to rows that are there; to unsubscribe, an address is enough. */
  predicate Allowed(s: State, op: Op) {
    match op
    case Create(row, _) => row !in s.rows
    case Subscribe(row) => Alive(s, row)
    case Unsubscribe(_, _) => true
    case BeginDispose(row) => Alive(s, row)
    case EndDispose(row) => row in s.rows && s.rows[row].dying
  }

  /** The first client of a row makes the entry and registers both callbacks. */
  function DoSubscribe(s: State, row: Row): Outcome
    requires row in s.rows
  {
    var e := if row in s.entries then s.entries[row] else Entry(s.made, s.made + 1, {});
    var token := LeastFree(e.tokens, 0);
    var e' := e.(tokens := e.tokens + {token});
    var made := if row in s.entries then s.made else s.made + 2;
    var live := s.live + {Live(row, token)};
    if |e'.tokens| == 1 then
      var entries := if row in s.entries then s.entries else s.entries[row := e'];
      var r := s.rows[row];
      if Ours(e.disposable) in r.disposable || Ours(e.data) in r.data then Outcome(s.(entries := entries, made := made, live := live), Thrown)
      else
        Outcome(State(entries, s.rows[row := r.(disposable := Added(r.disposable, Ours(e.disposable)), data := Added(r.data, Ours(e.data)))], made, live),
                Token(token))
    else
      Outcome(s.(entries := if row in s.entries then s.entries[row := e'] else s.entries, made := made, live := live), Token(token))
  }

  /** The last client of a row takes the entry and both callbacks away. */
  function DoUnsubscribe(s: State, row: Row, token: nat): Outcome {
    if row !in s.entries then Outcome(s, Told(false))
    else
      var e := s.entries[row];
      var ok := token in e.tokens;
      var tokens := e.tokens - {token};
      var live := s.live - {Live(row, token)};
      if tokens == {} then
        var rest := s.(entries := s.entries - {row}, live := live);
        if row !in s.rows || Ours(e.disposable) !in s.rows[row].disposable then Outcome(rest, Thrown)
        else
          var r := s.rows[row].(disposable := Erased(s.rows[row].disposable, Ours(e.disposable)));
          if Ours(e.data) !in r.data then Outcome(rest.(rows := s.rows[row := r]), Thrown)
          else Outcome(rest.(rows := s.rows[row := r.(data := Erased(r.data, Ours(e.data)))]), Told(ok))
      else
        Outcome(s.(entries := s.entries[row := e.(tokens := tokens)], live := live), Told(ok))
  }

  /** The row's own destructor clears its data callbacks. */
  function DoBeginDispose(s: State, row: Row): Outcome
    requires row in s.rows
  {
    Outcome(s.(rows := s.rows[row := s.rows[row].(data := [], dying := true)]), Nothing)
  }

  /** Then its base calls the disposal callbacks; the one this object registered erases the entry. */
  function DoEndDispose(s: State, row: Row): Outcome
    requires row in s.rows
  {
    var told := row in s.entries && Ours(s.entries[row].disposable) in s.rows[row].disposable;
    Outcome(s.(entries := if told then s.entries - {row} else s.entries, rows := s.rows - {row}, live := WithoutRow(s.live, row)), Nothing)
  }

  function WithoutRow(live: set<Live>, row: Row): set<Live> {
    set l <- live | l.row != row
  }

  function Do(s: State, op: Op): Outcome
    requires Allowed(s, op)
  {
    match op
    case Create(row, lists) => Outcome(s.(rows := s.rows[row := lists]), Nothing)
    case Subscribe(row) => DoSubscribe(s, row)
    case Unsubscribe(row, token) => DoUnsubscribe(s, row, token)
    case BeginDispose(row) => DoBeginDispose(s, row)
    case EndDispose(row) => DoEndDispose(s, row)
  }

  /** A new row has none of this object's callbacks. */
  ghost predicate Clean(lists: RowLists) {
    && !lists.dying
    && Distinct(lists.disposable) && Distinct(lists.data)
    && (forall c <- lists.disposable :: c.Others?) && (forall c <- lists.data :: c.Others?)
  }

  ghost predicate Run(s: State, ops: seq<Op>, s': State)
    decreases |ops|
  {
    if ops == [] then s == s'
    else
      && Allowed(s, ops[0]) && (ops[0].Create? ==> Clean(ops[0].lists))
      && Run(Do(s, ops[0]).state, ops[1..], s')
  }

  // ---------------------------------------------------------------------------
  // The invariant
  // ---------------------------------------------------------------------------

  /** The row's entry, callbacks and tokens fit together. */
  ghost predicate RowInv(s: State, row: Row)
    requires row in s.rows
  {
    var r := s.rows[row];
    && Distinct(r.disposable) && Distinct(r.data)
    && (forall n :: Ours(n) in r.disposable <==> row in s.entries && s.entries[row].disposable == n)
    && (forall n :: Ours(n) in r.data <==> !r.dying && row in s.entries && s.entries[row].data == n)
  }

  ghost predicate EntryInv(s: State, row: Row)
    requires row in s.entries
  {
    var e := s.entries[row];
    && row in s.rows && e.tokens != {} && e.disposable < s.made && e.data < s.made
    && forall t :: t in e.tokens <==> Live(row, t) in s.live
  }

  ghost predicate Inv(s: State) {
    && (forall row <- s.rows :: RowInv(s, row))
    && (forall row <- s.entries :: EntryInv(s, row))
    && (forall l <- s.live :: l.row in s.entries)
  }

  lemma OneToken(tokens: set<nat>, t: nat)
    requires t !in tokens
    ensures |tokens + {t}| == 1 <==> tokens == {}
  {
    if tokens != {} {
      var u :| u in tokens;
      assert tokens + {t} == (tokens - {u}) + {t} + {u};
    } else {
      assert tokens + {t} == {t};
    }
  }

  lemma FirstClientKeepsInv(s: State, row: Row)
    requires Inv(s) && Alive(s, row) && row !in s.entries
    ensures var o := DoSubscribe(s, row);
      && Inv(o.state) && o.result.Token?
      && Live(row, o.result.token) !in s.live && o.state.live == s.live + {Live(row, o.result.token)}
  {
    assert RowInv(s, row);
    var t := DoSubscribe(s, row).state;
    forall q | q in t.rows ensures RowInv(t, q) {
      assert RowInv(s, q);
      AddedDistinct(s.rows[q].disposable, Ours(s.made));
      AddedDistinct(s.rows[q].data, Ours(s.made + 1));
    }
    forall q | q in t.entries ensures EntryInv(t, q) {
      if q in s.entries { assert EntryInv(s, q); }
    }
  }

  lemma NextClientKeepsInv(s: State, row: Row)
    requires Inv(s) && Alive(s, row) && row in s.entries
    ensures var o := DoSubscribe(s, row);
      && Inv(o.state) && o.result.Token?
      && Live(row, o.result.token) !in s.live && o.state.live == s.live + {Live(row, o.result.token)}
  {
    assert EntryInv(s, row);
    OneToken(s.entries[row].tokens, LeastFree(s.entries[row].tokens, 0));
    var t := DoSubscribe(s, row).state;
    forall q | q in t.rows ensures RowInv(t, q) {
      assert RowInv(s, q);
    }
    forall q | q in t.entries ensures EntryInv(t, q) {
      assert EntryInv(s, q);
    }
  }

  lemma SubscribeKeepsInv(s: State, row: Row)
    requires Inv(s) && Alive(s, row)
    ensures var o := DoSubscribe(s, row);
      && Inv(o.state) && o.result.Token?
      && Live(row, o.result.token) !in s.live && o.state.live == s.live + {Live(row, o.result.token)}
  {
    if row in s.entries {
      NextClientKeepsInv(s, row);
    } else {
      FirstClientKeepsInv(s, row);
    }
  }

  /** The token is the only one left for a row that is being destroyed. */
  ghost predicate LastOfDying(s: State, row: Row, token: nat) {
    row in s.rows && s.rows[row].dying && forall t :: Live(row, t) in s.live <==> t == token
  }

  lemma UnsubscribeOutcome(s: State, row: Row, token: nat)
    requires Inv(s)
    ensures var o := DoUnsubscribe(s, row, token);
      && o.result == (if LastOfDying(s, row, token) then Thrown else Told(Live(row, token) in s.live))
      && o.state.live == s.live - {Live(row, token)}
  {
    if row in s.entries {
      assert EntryInv(s, row) && RowInv(s, row);
      var e := s.entries[row];
      if e.tokens - {token} == {} {
        assert e.tokens == {token};
      } else {
        var u :| u in e.tokens - {token};
        assert Live(row, u) in s.live;
      }
    } else {
      assert Live(row, token) !in s.live;
    }
  }

  lemma UnsubscribeKeepsInv(s: State, row: Row, token: nat)
    requires Inv(s)
    ensures Inv(DoUnsubscribe(s, row, token).state)
  {
    UnsubscribeOutcome(s, row, token);
    if row in s.entries {
      assert EntryInv(s, row) && RowInv(s, row);
      ErasedIsGone(s.rows[row].disposable, Ours(s.entries[row].disposable));
      ErasedIsGone(s.rows[row].data, Ours(s.entries[row].data));
    }
    var t := DoUnsubscribe(s, row, token).state;
    forall q | q in t.rows ensures RowInv(t, q) {
      assert RowInv(s, q);
    }
    UnsubscribeKeepsEntries(s, row, token);
    UnsubscribeKeepsLive(s, row, token);
  }

  lemma UnsubscribeKeepsEntries(s: State, row: Row, token: nat)
    requires Inv(s)
    ensures var t := DoUnsubscribe(s, row, token).state; forall q <- t.entries :: EntryInv(t, q)
  {
    UnsubscribeOutcome(s, row, token);
    var t := DoUnsubscribe(s, row, token).state;
    forall q | q in t.entries ensures EntryInv(t, q) {
      assert EntryInv(s, q);
    }
  }

  lemma UnsubscribeKeepsLive(s: State, row: Row, token: nat)
    requires Inv(s)
    ensures var t := DoUnsubscribe(s, row, token).state; forall l <- t.live :: l.row in t.entries
  {
    var t := DoUnsubscribe(s, row, token).state;
    forall l | l in t.live ensures l.row in t.entries {
      if l.row == row && row in s.entries {
        assert EntryInv(s, row);
        assert l.token in s.entries[row].tokens - {token};
      }
    }
  }

  lemma BeginDisposeKeepsInv(s: State, row: Row)
    requires Inv(s) && row in s.rows
    ensures Inv(DoBeginDispose(s, row).state)
  {
    var t := DoBeginDispose(s, row).state;
    forall q | q in t.rows ensures RowInv(t, q) {
      assert RowInv(s, q);
    }
    forall q | q in t.entries ensures EntryInv(t, q) {
      assert EntryInv(s, q);
    }
  }

  lemma EndDisposeKeepsInv(s: State, row: Row)
    requires Inv(s) && row in s.rows
    ensures Inv(DoEndDispose(s, row).state)
  {
    assert RowInv(s, row);
    var t := DoEndDispose(s, row).state;
    forall q | q in t.rows ensures RowInv(t, q) {
      assert RowInv(s, q);
    }
    forall q | q in t.entries ensures EntryInv(t, q) {
      assert EntryInv(s, q);
    }
  }

  lemma CreateKeepsInv(s: State, row: Row, lists: RowLists)
    requires Inv(s) && row !in s.rows && Clean(lists)
    ensures Inv(Do(s, Create(row, lists)).state)
  {
    var t := Do(s, Create(row, lists)).state;
    assert row !in s.entries;
    forall q | q in t.rows ensures RowInv(t, q) {
      assert q != row ==> RowInv(s, q);
    }
    forall q | q in t.entries ensures EntryInv(t, q) {
      assert EntryInv(s, q);
    }
  }

  lemma {:induction false} RunKeepsInv(s: State, ops: seq<Op>, s': State)
    requires Inv(s) && Run(s, ops, s')
    ensures Inv(s')
    decreases |ops|
  {
    if ops != [] {
      match ops[0] {
        case Create(row, lists) => CreateKeepsInv(s, row, lists);
        case Subscribe(row) => SubscribeKeepsInv(s, row);
        case Unsubscribe(row, token) => UnsubscribeKeepsInv(s, row, token);
        case BeginDispose(row) => BeginDisposeKeepsInv(s, row);
        case EndDispose(row) => EndDisposeKeepsInv(s, row);
      }
      RunKeepsInv(Do(s, ops[0]).state, ops[1..], s');
    }
  }

  ghost predicate Reachable(s: State) {
    exists ops :: Run(State(map[], map[], 0, {}), ops, s)
  }

  lemma ReachableInv(s: State)
    requires Reachable(s)
    ensures Inv(s)
  {
    var ops :| Run(State(map[], map[], 0, {}), ops, s);
    RunKeepsInv(State(map[], map[], 0, {}), ops, s);
  }

  // ---- what holds in every run -----------------------------------------------

  function Occurrences(s: seq<Callback>, c: Callback): nat {
    if s == [] then 0 else (if s[0] == c then 1 else 0) + Occurrences(s[1..], c)
  }

  lemma {:induction false} OnceIfDistinct(s: seq<Callback>, c: Callback)
    requires Distinct(s)
    ensures Occurrences(s, c) == if c in s then 1 else 0
  {
    if s != [] {
      assert s == [s[0]] + s[1..];
      OnceIfDistinct(s[1..], c);
    }
  }

  /** A row has an entry exactly when some client's token for it is live; exactly then its disposal callback
      and its data callback are registered with the row, once each, and no other callback of this object is,
      except that a row being destroyed has no data callbacks any more. */
  lemma EntryIffLiveToken(s: State, row: Row)
    requires Reachable(s)
    ensures row in s.entries <==> exists t :: Live(row, t) in s.live
    ensures row in s.entries ==> row in s.rows
    ensures row in s.rows ==> forall n ::
      && Occurrences(s.rows[row].disposable, Ours(n)) == (if row in s.entries && s.entries[row].disposable == n then 1 else 0)
      && Occurrences(s.rows[row].data, Ours(n)) == (if Alive(s, row) && row in s.entries && s.entries[row].data == n then 1 else 0)
  {
    ReachableInv(s);
    if row in s.entries {
      assert EntryInv(s, row);
      var t :| t in s.entries[row].tokens;
    }
    if row in s.rows {
      assert RowInv(s, row);
      forall n ensures
        && Occurrences(s.rows[row].disposable, Ours(n)) == (if row in s.entries && s.entries[row].disposable == n then 1 else 0)
        && Occurrences(s.rows[row].data, Ours(n)) == (if Alive(s, row) && row in s.entries && s.entries[row].data == n then 1 else 0)
      {
        OnceIfDistinct(s.rows[row].disposable, Ours(n));
        OnceIfDistinct(s.rows[row].data, Ours(n));
      }
    }
  }

  /** Subscribing always hands out a token that is not in use, and meets no unexpected registration.
      Unsubscribing succeeds exactly for a live token, and throws exactly when the token is the last one of
      a row that is being destroyed and whose entry is still there. */
  lemma TokensAreExact(s: State, row: Row, token: nat)
    requires Reachable(s)
    ensures Alive(s, row) ==>
      var o := DoSubscribe(s, row);
      o.result.Token? && Live(row, o.result.token) !in s.live && o.state.live == s.live + {Live(row, o.result.token)}
    ensures var o := DoUnsubscribe(s, row, token);
      && o.result == (if LastOfDying(s, row, token) then Thrown else Told(Live(row, token) in s.live))
      && o.state.live == s.live - {Live(row, token)}
  {
    ReachableInv(s);
    if Alive(s, row) {
      SubscribeKeepsInv(s, row);
    }
    UnsubscribeOutcome(s, row, token);
  }

  /** The shortest run to such a throw: the only client of a row unsubscribes while the row goes. */
  lemma LateUnsubscribeThrows(row: Row) returns (s: State)
    ensures Reachable(s) && LastOfDying(s, row, 0) && DoUnsubscribe(s, row, 0).result.Thrown?
  {
    var start := State(map[], map[], 0, {});
    var ops := [Create(row, RowLists([], [], false)), Subscribe(row), BeginDispose(row)];
    var s1 := Do(start, ops[0]).state;
    var s2 := Do(s1, ops[1]).state;
    assert s2.live == {Live(row, 0)};
    s := Do(s2, ops[2]).state;
    assert ops[1..] == [ops[1], ops[2]] && ops[1..][1..] == [ops[2]] && ops[1..][1..][1..] == [];
    assert Run(s2, ops[1..][1..], s);
    assert Run(s1, ops[1..], s);
    assert Run(start, ops, s);
    TokensAreExact(s, row, 0);
  }

  // ---------------------------------------------------------------------------
  // The object
  // ---------------------------------------------------------------------------

  class SubscriptionsObject {
    var entries: map<Row, Entry>
    var rows: map<Row, RowLists>      // the callback lists of the rows there are
    var made: nat
    ghost var live: set<Live>

    ghost function View(): State
      reads this
    {
      State(entries, rows, made, live)
    }

    constructor ()
      ensures View() == State(map[], map[], 0, {}) && Inv(View())
    {
      entries, rows, made, live := map[], map[], 0, {};
    }

    method FreeToken(tokens: set<nat>) returns (token: nat)
      ensures token == LeastFree(tokens, 0)
    {
      token := 0;
      while token in tokens
        invariant forall j: nat :: j < token ==> j in tokens
        invariant LeastFree(tokens, token) == LeastFree(tokens, 0)
        invariant token <= |tokens|
        decreases |tokens| - token
      {
        Below(tokens, token + 1);
        token := token + 1;
      }
    }

    method Subscribe(row: Row) returns (token: nat)
      requires Inv(View()) && Alive(View(), row)
      modifies this
      ensures Inv(View()) && Outcome(View(), Token(token)) == DoSubscribe(old(View()), row)
      ensures Live(row, token) !in old(live) && live == old(live) + {Live(row, token)}
    {
      SubscribeKeepsInv(View(), row);
      var known := row in entries;
      var entry := if known then entries[row] else Entry(made, made + 1, {});
      if !known {
        made := made + 2;
      }
      token := FreeToken(entry.tokens);
      entry := entry.(tokens := entry.tokens + {token});
      live := live + {Live(row, token)};
      var clientCount := |entry.tokens|;
      if clientCount == 1 {
        var r := rows[row];
        if !known {
          entries := entries[row := entry];
        }
        rows := rows[row := r.(disposable := Added(r.disposable, Ours(entry.disposable)), data := Added(r.data, Ours(entry.data)))];
      } else if known {
        entries := entries[row := entry];
      }
    }

    /** `thrown` stands for the exception about a data callback that is gone already. */
    method Unsubscribe(row: Row, token: nat) returns (ok: bool, thrown: bool)
      requires Inv(View())
      modifies this
      ensures Inv(View()) && Outcome(View(), if thrown then Thrown else Told(ok)) == DoUnsubscribe(old(View()), row, token)
      ensures thrown <==> LastOfDying(old(View()), row, token)
      ensures !thrown ==> (ok <==> Live(row, token) in old(live))
      ensures live == old(live) - {Live(row, token)}
    {
      UnsubscribeKeepsInv(View(), row, token);
      UnsubscribeOutcome(View(), row, token);
      thrown := false;
      if row !in entries {
        return false, false;
      }
      assert EntryInv(View(), row) && RowInv(View(), row);
      var entry := entries[row];
      ok := token in entry.tokens;
      var tokens := entry.tokens - {token};
      live := live - {Live(row, token)};
      if tokens == {} {
        entries := entries - {row};
        var r := rows[row];
        r := r.(disposable := Erased(r.disposable, Ours(entry.disposable)));
        thrown := Ours(entry.data) !in r.data;
        if !thrown {
          r := r.(data := Erased(r.data, Ours(entry.data)));
        }
        rows := rows[row := r];
      } else {
        entries := entries[row := entry.(tokens := tokens)];
      }
    }

    /** The row's own destructor. */
    method OnDestruction(row: Row)
      requires Inv(View()) && Alive(View(), row)
      modifies this
      ensures Inv(View()) && View() == DoBeginDispose(old(View()), row).state
    {
      BeginDisposeKeepsInv(View(), row);
      rows := rows[row := rows[row].(data := [], dying := true)];
    }

    /** The disposal callback, called by the destructor of the row's base. */
    method OnDisposed(row: Row)
      requires Inv(View()) && row in rows
      modifies this
      ensures Inv(View()) && View() == DoEndDispose(old(View()), row).state
    {
      EndDisposeKeepsInv(View(), row);
      assert RowInv(View(), row);
      entries := entries - {row};
      rows := rows - {row};
      live := WithoutRow(live, row);
    }
  }
}
