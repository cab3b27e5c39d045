/**
 The interval timers of `simple_context`: which timers a round picks, how a
 round restamps them, and how clients join and leave.

 Times and intervals are whole nanoseconds.
 */
module Timers {
  import opened Options

  /** One element of the context's timer vector: the reference time and the timer. */
  datatype Slot = Slot(stamp: int, timer: nat)

  /** A timer object: `fires` records every reference time it has been given. */
  datatype Timer = Timer(interval: nat, clients: seq<nat>, fires: seq<int>)

  /** A registered client: `left` is what the wrapper counts down, `calls` the history. */
  datatype Info = Info(owner: nat, limit: nat, left: nat, calls: nat)

  ghost predicate NoDup<T>(s: seq<T>) {
    forall i, j :: 0 <= i < j < |s| ==> s[i] != s[j]
  }

  predicate ValidSlots(slots: seq<Slot>, timers: seq<Timer>) {
    forall i :: 0 <= i < |slots| ==> slots[i].timer < |timers|
  }

  predicate HasSlot(slots: seq<Slot>, k: nat) {
    exists i :: 0 <= i < |slots| && slots[i].timer == k
  }

  ghost predicate DistinctSlots(slots: seq<Slot>) {
    forall i, j :: 0 <= i < j < |slots| ==> slots[i].timer != slots[j].timer
  }

  // ---------------------------------------------------------------------------
  // Choosing a round
  // ---------------------------------------------------------------------------

  /** Time left until the slot is due; 0 for an overdue one. */
  function Remaining(slot: Slot, interval: nat, now: int): (r: nat)
    ensures now + r >= slot.stamp + interval
    ensures r > 0 ==> now + r == slot.stamp + interval
  {
    if now - slot.stamp >= interval then 0 else interval - (now - slot.stamp)
  }

  function Left(x: Slot, timers: seq<Timer>, now: int): nat
    requires x.timer < |timers|
  {
    Remaining(x, timers[x.timer].interval, now)
  }

  /** The slots whose timers still have clients. */
  function Compact(slots: seq<Slot>, timers: seq<Timer>): (r: seq<Slot>)
    requires ValidSlots(slots, timers)
    ensures forall x :: x in r <==> x in slots && x.timer < |timers| && timers[x.timer].clients != []
    ensures ValidSlots(r, timers)
  {
    if slots == [] then []
    else
      var rest := Compact(slots[1..], timers);
      if timers[slots[0].timer].clients != [] then [slots[0]] + rest else rest
  }

  /** The timers of those slots that are due after exactly `wait`, in slot order. */
  function Due(slots: seq<Slot>, timers: seq<Timer>, now: int, wait: nat): (r: seq<nat>)
    requires ValidSlots(slots, timers)
  {
    if slots == [] then []
    else
      var n := |slots| - 1;
      var front := Due(slots[..n], timers, now, wait);
      if Left(slots[n], timers, now) == wait then front + [slots[n].timer] else front
  }

  lemma {:induction false} DueExactly(slots: seq<Slot>, timers: seq<Timer>, now: int, wait: nat, k: nat)
    requires ValidSlots(slots, timers)
    ensures k in Due(slots, timers, now, wait) <==>
            exists i :: 0 <= i < |slots| && slots[i].timer == k && Left(slots[i], timers, now) == wait
  {
    if slots != [] {
      var n := |slots| - 1;
      DueExactly(slots[..n], timers, now, wait, k);
      if k in Due(slots[..n], timers, now, wait) {
        var i :| 0 <= i < n && slots[..n][i].timer == k && Left(slots[..n][i], timers, now) == wait;
        assert slots[i].timer == k;
      }
      if i :| 0 <= i < |slots| && slots[i].timer == k && Left(slots[i], timers, now) == wait {
        if i < n {
          assert slots[..n][i].timer == k;
        }
      }
    }
  }

  ghost predicate IsLeast(slots: seq<Slot>, timers: seq<Timer>, now: int, wait: nat)
    requires ValidSlots(slots, timers)
  {
    && (exists i :: 0 <= i < |slots| && Left(slots[i], timers, now) == wait)
    && (forall i :: 0 <= i < |slots| ==> wait <= Left(slots[i], timers, now))
  }

  /** Drops the slots without clients, then collects in one pass every timer that
      is due first: a smaller remaining time starts the collection anew. */
  method GetNextTimers(slots: seq<Slot>, timers: seq<Timer>, now: int)
    returns (kept: seq<Slot>, round: seq<nat>, wait: nat)
    requires ValidSlots(slots, timers)
    ensures kept == Compact(slots, timers)
    ensures kept == [] ==> round == []
    ensures kept != [] ==> Chosen(kept, timers, now, wait, round)
  {
    kept := Compact(slots, timers);
    round, wait := [], 0;
    for i := 0 to |kept|
      invariant i == 0 ==> round == []
      invariant i > 0 ==> Chosen(kept[..i], timers, now, wait, round)
    {
      var left := Left(kept[i], timers, now);
      ChosenGrows(kept[..i], kept[i], timers, now, wait, round);
      assert kept[..i + 1] == kept[..i] + [kept[i]];
      if round == [] || left < wait {
        wait, round := left, [kept[i].timer];
      } else if left == wait {
        round := round + [kept[i].timer];
      }
    }
    assert kept[..|kept|] == kept;
  }

  /** `round` holds exactly the timers of `slots` that are due first, after `wait`. */
  ghost predicate Chosen(slots: seq<Slot>, timers: seq<Timer>, now: int, wait: nat, round: seq<nat>)
    requires ValidSlots(slots, timers)
  {
    IsLeast(slots, timers, now, wait) && round == Due(slots, timers, now, wait) && round != []
  }

  /** The slot's timer should have been run by now. */
  predicate Overdue(x: Slot, timers: seq<Timer>, now: int)
    requires x.timer < |timers|
  {
    x.stamp + timers[x.timer].interval <= now
  }

  /** If anything is overdue, a round takes all that is and nothing else; otherwise it takes what is due
      first, and the wait ends exactly then. */
  lemma OverdueGoFirst(slots: seq<Slot>, timers: seq<Timer>, now: int, wait: nat, round: seq<nat>, i: nat)
    requires ValidSlots(slots, timers) && DistinctSlots(slots) && Chosen(slots, timers, now, wait, round) && i < |slots|
    ensures wait == 0 <==> exists j :: 0 <= j < |slots| && Overdue(slots[j], timers, now)
    ensures wait == 0 ==> (slots[i].timer in round <==> Overdue(slots[i], timers, now))
    ensures wait > 0 ==>
      && now + wait <= slots[i].stamp + timers[slots[i].timer].interval
      && (slots[i].timer in round <==> now + wait == slots[i].stamp + timers[slots[i].timer].interval)
  {
    DueExactly(slots, timers, now, wait, slots[i].timer);
  }

  lemma LeastGrows(slots: seq<Slot>, x: Slot, timers: seq<Timer>, now: int, wait: nat)
    requires ValidSlots(slots, timers) && x.timer < |timers|
    requires slots != [] ==> IsLeast(slots, timers, now, wait)
    ensures ValidSlots(slots + [x], timers)
    ensures var left := Left(x, timers, now);
            IsLeast(slots + [x], timers, now, if slots == [] || left < wait then left else wait)
  {
    var all := slots + [x];
    assert all[|slots|] == x;
    assert forall i :: 0 <= i < |slots| ==> all[i] == slots[i];
    if slots != [] {
      var j :| 0 <= j < |slots| && Left(slots[j], timers, now) == wait;
      assert all[j] == slots[j];
    }
  }

  /** One more slot: it starts the collection anew, joins it or leaves it alone. */
  lemma ChosenGrows(slots: seq<Slot>, x: Slot, timers: seq<Timer>, now: int, wait: nat, round: seq<nat>)
    requires ValidSlots(slots, timers) && x.timer < |timers|
    requires slots != [] ==> Chosen(slots, timers, now, wait, round)
    requires slots == [] ==> round == []
    ensures ValidSlots(slots + [x], timers)
    ensures var left := Left(x, timers, now);
            if round == [] || left < wait then Chosen(slots + [x], timers, now, left, [x.timer])
            else if left == wait then Chosen(slots + [x], timers, now, wait, round + [x.timer])
            else Chosen(slots + [x], timers, now, wait, round)
  {
    LeastGrows(slots, x, timers, now, wait);
    var left := Left(x, timers, now);
    if round == [] || left < wait {
      NoneDue(slots, timers, now, left);
      DueGrows(slots, x, timers, now, left);
    } else {
      DueGrows(slots, x, timers, now, wait);
    }
  }

  lemma DueGrows(slots: seq<Slot>, x: Slot, timers: seq<Timer>, now: int, wait: nat)
    requires ValidSlots(slots, timers) && ValidSlots(slots + [x], timers) && x.timer < |timers|
    ensures Due(slots + [x], timers, now, wait) ==
            Due(slots, timers, now, wait) + if Left(x, timers, now) == wait then [x.timer] else []
  {
    var all := slots + [x];
    assert all[..|all| - 1] == slots && all[|all| - 1] == x;
  }

  lemma {:induction false} NoneDue(slots: seq<Slot>, timers: seq<Timer>, now: int, wait: nat)
    requires ValidSlots(slots, timers)
    requires forall i :: 0 <= i < |slots| ==> wait < Left(slots[i], timers, now)
    ensures Due(slots, timers, now, wait) == []
  {
    if slots != [] {
      NoneDue(slots[..|slots| - 1], timers, now, wait);
    }
  }

  // ---------------------------------------------------------------------------
  // Checking a round
  // ---------------------------------------------------------------------------

  /** Every slot whose timer is in the round gets the deadline as its new reference time. */
  function Restamp(slots: seq<Slot>, round: seq<nat>, deadline: int): (r: seq<Slot>)
    ensures |r| == |slots|
    ensures forall i :: 0 <= i < |slots| ==>
      r[i] == if slots[i].timer in round then Slot(deadline, slots[i].timer) else slots[i]
  {
    seq(|slots|, i requires 0 <= i < |slots| =>
      if slots[i].timer in round then Slot(deadline, slots[i].timer) else slots[i])
  }

  /** The positions in the round whose timers have no slot any more, ascending. */
  function Removed(slots: seq<Slot>, round: seq<nat>): (r: seq<nat>)
    ensures forall i :: 0 <= i < |r| ==> r[i] < |round| && !HasSlot(slots, round[r[i]])
    ensures forall i, j :: 0 <= i < j < |r| ==> r[i] < r[j]
    ensures forall p :: 0 <= p < |round| && !HasSlot(slots, round[p]) ==> p in r
  {
    if round == [] then []
    else
      var n := |round| - 1;
      var front := Removed(slots, round[..n]);
      assert forall p :: 0 <= p < n ==> round[..n][p] == round[p];
      if HasSlot(slots, round[n]) then front else front + [n]
  }

  /** Erasing at recorded positions, each position used as it was recorded even
      though earlier erasures have shifted the vector; None where the position has
      run off the end. */
  function EraseRecorded(round: seq<nat>, at: seq<nat>): (r: Option<seq<nat>>)
    ensures r.Some? ==> forall k :: k in r.value ==> k in round
    decreases |at|
  {
    if at == [] then Some(round)
    else if at[0] < |round| then EraseRecorded(round[..at[0]] + round[at[0] + 1..], at[1..])
    else None
  }

  /** The timers of the round that still have a slot: what the erasures are for. */
  function Survivors(slots: seq<Slot>, round: seq<nat>): (r: seq<nat>)
    ensures forall k :: k in r <==> k in round && HasSlot(slots, k)
  {
    if round == [] then []
    else
      var n := |round| - 1;
      var front := Survivors(slots, round[..n]);
      assert round == round[..n] + [round[n]];
      if HasSlot(slots, round[n]) then front + [round[n]] else front
  }

  lemma {:induction false} SurvivorsAll(slots: seq<Slot>, round: seq<nat>)
    requires forall p :: 0 <= p < |round| ==> HasSlot(slots, round[p])
    ensures Survivors(slots, round) == round
  {
    if round != [] {
      SurvivorsAll(slots, round[..|round| - 1]);
      assert round == round[..|round| - 1] + [round[|round| - 1]];
    }
  }

  lemma {:induction false} SurvivorsConcat(slots: seq<Slot>, a: seq<nat>, b: seq<nat>)
    ensures Survivors(slots, a + b) == Survivors(slots, a) + Survivors(slots, b)
    decreases |b|
  {
    if b == [] {
      assert a + b == a;
    } else {
      var n := |b| - 1;
      assert (a + b)[..|a + b| - 1] == a + b[..n];
      SurvivorsConcat(slots, a, b[..n]);
    }
  }

  /** Later erasures behind position `p` leave the element at `p` where it is. */
  lemma {:induction false} EraseKeepsEarlier(round: seq<nat>, at: seq<nat>, p: nat)
    requires p < |round| && forall i :: 0 <= i < |at| ==> at[i] > p
    requires EraseRecorded(round, at).Some?
    ensures var r := EraseRecorded(round, at).value; p < |r| && r[p] == round[p]
    decreases |at|
  {
    if at != [] {
      EraseKeepsEarlier(round[..at[0]] + round[at[0] + 1..], at[1..], p);
    }
  }

  /** The erasures do what they are for exactly when at most one timer of the round has been removed. */
  lemma EraseRightIffAtMostOne(slots: seq<Slot>, round: seq<nat>)
    requires NoDup(round)
    ensures EraseRecorded(round, Removed(slots, round)) == Some(Survivors(slots, round))
            <==> |Removed(slots, round)| <= 1
  {
    var at := Removed(slots, round);
    if |at| == 0 {
      SurvivorsAll(slots, round);
    } else if |at| == 1 {
      assert at == [at[0]];
      EraseOne(slots, round, at[0]);
    } else {
      if EraseRecorded(round, at).Some? {
        SecondIsKept(round, at);
        assert round[at[1]] !in Survivors(slots, round);
      }
    }
  }

  /** The second recorded position is off by one, so its element survives. */
  lemma SecondIsKept(round: seq<nat>, at: seq<nat>)
    requires |at| >= 2 && forall i, j :: 0 <= i < j < |at| ==> at[i] < at[j]
    requires at[1] < |round| && EraseRecorded(round, at).Some?
    ensures round[at[1]] in EraseRecorded(round, at).value
  {
    var once := round[..at[0]] + round[at[0] + 1..];
    assert EraseRecorded(round, at) == EraseRecorded(once, at[1..]);
    EraseKeepsEarlier(once, at[1..], at[1] - 1);
    assert once[at[1] - 1] == round[at[1]];
  }

  // ---- what a wrong erasure costs --------------------------------------------

  function ToSet(s: seq<nat>): (r: set<nat>)
    ensures forall x :: x in r <==> x in s
    ensures NoDup(s) ==> |r| == |s|
  {
    if s == [] then {}
    else
      var n := |s| - 1;
      assert s == s[..n] + [s[n]];
      assert NoDup(s) ==> NoDup(s[..n]) && s[n] !in s[..n];
      ToSet(s[..n]) + {s[n]}
  }

  lemma {:induction false} EraseCounts(round: seq<nat>, at: seq<nat>)
    requires NoDup(round) && EraseRecorded(round, at).Some?
    ensures var left := EraseRecorded(round, at).value; NoDup(left) && |left| + |at| == |round|
    decreases |at|
  {
    if at != [] {
      EraseCounts(round[..at[0]] + round[at[0] + 1..], at[1..]);
    }
  }

  lemma {:induction false} SurvivorsCount(slots: seq<Slot>, round: seq<nat>)
    requires NoDup(round)
    ensures NoDup(Survivors(slots, round)) && |Survivors(slots, round)| + |Removed(slots, round)| == |round|
  {
    if round != [] {
      var n := |round| - 1;
      SurvivorsCount(slots, round[..n]);
      assert round[n] !in round[..n];
    }
  }

  lemma {:induction false} ProperlyWithin(a: set<nat>, b: set<nat>, x: nat)
    requires a <= b && x in b && x !in a
    ensures |a| < |b|
    decreases a
  {
    if y :| y in a {
      ProperlyWithin(a - {y}, b - {y}, x);
    } else {
      assert b != {};
    }
  }

  /** A surviving timer that the erasures take out of the round. */
  ghost predicate Skipped(slots: seq<Slot>, round: seq<nat>, k: nat) {
    && k in round && HasSlot(slots, k)
    && EraseRecorded(round, Removed(slots, round)).Some? && k !in EraseRecorded(round, Removed(slots, round)).value
  }

  /** As long as the erasures stay inside the vector, a timer that is still there is taken out of the round
      exactly if at least two others have been removed. */
  lemma SkippedIffTwoRemoved(slots: seq<Slot>, round: seq<nat>)
    requires NoDup(round) && EraseRecorded(round, Removed(slots, round)).Some?
    ensures (exists k :: Skipped(slots, round, k)) <==> |Removed(slots, round)| >= 2
  {
    var at := Removed(slots, round);
    var left, survivors := EraseRecorded(round, at).value, Survivors(slots, round);
    EraseRightIffAtMostOne(slots, round);
    if |at| >= 2 {
      EraseCounts(round, at);
      SurvivorsCount(slots, round);
      SecondIsKept(round, at);
      if ToSet(survivors) <= ToSet(left) {
        ProperlyWithin(ToSet(survivors), ToSet(left), round[at[1]]);
      }
      var k :| k in ToSet(survivors) && k !in ToSet(left);
      assert Skipped(slots, round, k);
    }
  }

  lemma EraseOne(slots: seq<Slot>, round: seq<nat>, r: nat)
    requires r < |round| && !HasSlot(slots, round[r])
    requires forall p :: 0 <= p < |round| && p != r ==> HasSlot(slots, round[p])
    ensures EraseRecorded(round, [r]) == Some(Survivors(slots, round))
  {
    var a, b := round[..r], round[r + 1..];
    assert Survivors(slots, round) == a + b by {
      SurvivorsAround(slots, a, round[r], b);
      assert round == a + [round[r]] + b;
    }
    assert EraseRecorded(a + b, [r][1..]) == Some(a + b);
  }

  lemma SurvivorsAround(slots: seq<Slot>, a: seq<nat>, k: nat, b: seq<nat>)
    requires !HasSlot(slots, k)
    requires forall p :: 0 <= p < |a| ==> HasSlot(slots, a[p])
    requires forall p :: 0 <= p < |b| ==> HasSlot(slots, b[p])
    ensures Survivors(slots, a + [k] + b) == a + b
  {
    SurvivorsAll(slots, a);
    SurvivorsAll(slots, b);
    SurvivorsOfRemoved(slots, k);
    SurvivorsConcat(slots, a + [k], b);
    SurvivorsConcat(slots, a, [k]);
    assert a + [] == a;
  }

  lemma SurvivorsOfRemoved(slots: seq<Slot>, k: nat)
    requires !HasSlot(slots, k)
    ensures Survivors(slots, [k]) == []
  {
    assert [k][..0] == [];
  }

  /** The inner search: restamps the slot of timer `k`, if there is one. */
  method RestampOne(slots: seq<Slot>, k: nat, deadline: int) returns (stamped: seq<Slot>, found: bool)
    requires DistinctSlots(slots)
    ensures found == HasSlot(slots, k)
    ensures stamped == Restamp(slots, [k], deadline)
  {
    stamped, found := slots, false;
    var y := 0;
    while y < |slots|
      invariant 0 <= y <= |slots|
      invariant stamped == slots
      invariant forall i :: 0 <= i < y ==> slots[i].timer != k
    {
      if slots[y].timer == k {
        stamped := slots[y := Slot(deadline, slots[y].timer)];
        found := true;
        return;
      }
      y := y + 1;
    }
  }

  lemma RestampAppend(slots: seq<Slot>, round: seq<nat>, k: nat, deadline: int)
    ensures Restamp(Restamp(slots, round, deadline), [k], deadline) == Restamp(slots, round + [k], deadline)
  {
  }

  lemma RestampKeepsTimers(slots: seq<Slot>, round: seq<nat>, deadline: int, k: nat)
    ensures HasSlot(Restamp(slots, round, deadline), k) == HasSlot(slots, k)
    ensures DistinctSlots(slots) ==> DistinctSlots(Restamp(slots, round, deadline))
  {
    var r := Restamp(slots, round, deadline);
    assert forall i :: 0 <= i < |slots| ==> r[i].timer == slots[i].timer;
  }

  /** Erases at the recorded positions, one after the other. */
  method EraseAll(round: seq<nat>, removed: seq<nat>) returns (left: Option<seq<nat>>)
    ensures left == EraseRecorded(round, removed)
  {
    left := Some(round);
    for m := 0 to |removed|
      invariant left.None? ==> EraseRecorded(round, removed) == None
      invariant left.Some? ==> EraseRecorded(round, removed) == EraseRecorded(left.value, removed[m..])
    {
      if left.Some? {
        var at := removed[m];
        assert removed[m..][1..] == removed[m + 1..];
        left := if at < |left.value| then Some(left.value[..at] + left.value[at + 1..]) else None;
      }
    }
  }

  /** Restamps the slots of the round, records the positions of the timers that
      have left in the meantime, then erases at those positions. */
  method CheckTimers(slots: seq<Slot>, round: seq<nat>, deadline: int)
    returns (stamped: seq<Slot>, left: Option<seq<nat>>)
    requires DistinctSlots(slots)
    ensures stamped == Restamp(slots, round, deadline)
    ensures left == EraseRecorded(round, Removed(slots, round))
  {
    stamped := slots;
    var removed: seq<nat> := [];
    for x := 0 to |round|
      invariant stamped == Restamp(slots, round[..x], deadline)
      invariant removed == Removed(slots, round[..x])
    {
      assert round[..x + 1][..x] == round[..x];
      assert round[..x + 1] == round[..x] + [round[x]];
      RestampKeepsTimers(slots, round[..x], deadline, round[x]);
      RestampAppend(slots, round[..x], round[x], deadline);
      var found;
      stamped, found := RestampOne(stamped, round[x], deadline);
      if !found {
        removed := removed + [x];
      }
    }
    assert round[..|round|] == round;
    left := EraseAll(round, removed);
  }

  // ---------------------------------------------------------------------------
  // Clients
  // ---------------------------------------------------------------------------

  /** Removes the first occurrence of `c`, as find-and-erase does. */
  function Without(s: seq<nat>, c: nat): (r: seq<nat>)
    ensures forall x :: x in r ==> x in s
    ensures forall x :: x in s && x != c ==> x in r
    ensures NoDup(s) ==> NoDup(r) && c !in r
    ensures c !in s ==> r == s
  {
    if s == [] then []
    else if s[0] == c then s[1..]
    else
      assert NoDup(s) ==> NoDup(s[1..]);
      assert NoDup(s) ==> s[0] !in s[1..];
      [s[0]] + Without(s[1..], c)
  }

  /** The context's timers, and the worker's place in the round it is running. */
  datatype Table = Table(
    slots: seq<Slot>,
    timers: seq<Timer>,      // every timer object ever made
    infos: seq<Info>,        // every client ever registered; its index is its token
    round: seq<nat>,
    wait: nat,
    deadline: int,
    executing: seq<nat>,     // the rest of the snapshot of the timer being invoked
    adding: bool)

  /** The first slot with the given interval, or the number of slots. */
  function FindInterval(slots: seq<Slot>, timers: seq<Timer>, interval: nat): (i: nat)
    requires ValidSlots(slots, timers)
    ensures i <= |slots|
    ensures i < |slots| ==> timers[slots[i].timer].interval == interval
    ensures forall j :: 0 <= j < i ==> timers[slots[j].timer].interval != interval
  {
    if slots == [] || timers[slots[0].timer].interval == interval then 0
    else 1 + FindInterval(slots[1..], timers, interval)
  }

  /** A client without a count shares a live timer of the same interval; every other
      client gets a timer of its own.  An empty timer found on the way is dropped. */
  function Register(t: Table, interval: nat, count: nat, now: int): Table
    requires ValidSlots(t.slots, t.timers)
  {
    var token := |t.infos|;
    var i := if count == 0 then FindInterval(t.slots, t.timers, interval) else |t.slots|;
    if i < |t.slots| && t.timers[t.slots[i].timer].clients != [] then
      var k := t.slots[i].timer;
      t.(timers := t.timers[k := t.timers[k].(clients := t.timers[k].clients + [token])],
         infos := t.infos + [Info(k, count, count, 0)],
         adding := true)
    else
      var k := |t.timers|;
      var slots := if i < |t.slots| then t.slots[..i] + t.slots[i + 1..] else t.slots;
      t.(slots := slots + [Slot(now, k)],
         timers := t.timers + [Timer(interval, [token], [now])],
         infos := t.infos + [Info(k, count, count, 0)],
         adding := true)
  }

  function TakeOut(timers: seq<Timer>, c: nat): (r: seq<Timer>)
    ensures |r| == |timers|
    ensures forall k :: 0 <= k < |r| ==> r[k] == timers[k].(clients := Without(timers[k].clients, c))
  {
    seq(|timers|, k requires 0 <= k < |timers| => timers[k].(clients := Without(timers[k].clients, c)))
  }

  /** The slots that stay when client `c` leaves: all but one that `c` leaves empty. */
  function StaysWithout(slots: seq<Slot>, timers: seq<Timer>, c: nat): (r: seq<Slot>)
    requires ValidSlots(slots, timers)
    ensures forall x :: x in r <==>
      x in slots && x.timer < |timers| && !(c in timers[x.timer].clients && Without(timers[x.timer].clients, c) == [])
    ensures ValidSlots(r, timers)
  {
    if slots == [] then []
    else
      var n := |slots| - 1;
      var front := StaysWithout(slots[..n], timers, c);
      var clients := timers[slots[n].timer].clients;
      assert slots == slots[..n] + [slots[n]];
      if c in clients && Without(clients, c) == [] then front else front + [slots[n]]
  }

  function Unregister(t: Table, c: nat): Table
    requires ValidSlots(t.slots, t.timers)
  {
    t.(slots := StaysWithout(t.slots, t.timers, c), timers := TakeOut(t.timers, c))
  }

  /** The wrapper's countdown, done before the client's own code runs. */
  function CountDown(info: Info): Info {
    info.(left := if info.left > 0 then info.left - 1 else 0, calls := info.calls + 1)
  }

  predicate Expired(info: Info) {
    info.limit > 0 && info.left == 0
  }

  /** What the restamping adds to the history of each timer of the round that still has a slot. */
  function Fire(slots: seq<Slot>, timers: seq<Timer>, round: seq<nat>, deadline: int): (r: seq<Timer>)
    ensures |r| == |timers|
    ensures forall k :: 0 <= k < |r| ==>
      r[k] == if k in round && HasSlot(slots, k) then timers[k].(fires := timers[k].fires + [deadline]) else timers[k]
  {
    seq(|timers|, k requires 0 <= k < |timers| =>
      if k in round && HasSlot(slots, k) then timers[k].(fires := timers[k].fires + [deadline]) else timers[k])
  }
}
