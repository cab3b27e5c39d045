/**
 `simple_context` as an object: the fields its mutex guards, and the critical
 sections that change them.  Each is proved against the step of the dispatcher
 machine that it stands for.
 */
module SimpleContextObject {
  import opened Options
  import opened Timers
  import D = Dispatcher

  /** The table after the swap. */
  function Swapped(t: Table, suspended: bool, timerIteration: bool): Table
    requires timerIteration && !suspended ==> EraseRecorded(t.round, Removed(t.slots, t.round)).Some?
  {
    if suspended then t.(round := []) else if timerIteration then D.BeginRound(t) else t.(round := [], adding := false)
  }

  /** It is the table after the machine's step. */
  lemma SwappedIsTheStep(s: D.State, timerIteration: bool)
    requires D.CanSwap(s, timerIteration)
    ensures D.Swap(s, timerIteration).t == if s.q.suspended then Swapped(s.t, true, false) else Swapped(s.t, false, timerIteration)
  {
  }

  class SimpleContext {
    const suspendable: bool
    var running: bool
    var suspended: bool
    var actions: seq<nat>
    var pendingActions: seq<nat>    // the worker's batch
    var addingTimer: bool
    var slots: seq<Slot>
    var timers: seq<Timer>
    var clients: seq<Info>
    var pendingTimers: seq<nat>     // the worker's round
    var waitInterval: nat
    var deadline: int
    var executingClients: seq<nat>

    ghost predicate Valid()
      reads this
    {
      D.SlotsInv(slots, timers)
    }

    /** The timer table of the dispatcher machine. */
    ghost function View(): Table
      reads this
    {
      Table(slots, timers, clients, pendingTimers, waitInterval, deadline, executingClients, addingTimer)
    }

    constructor (suspendable: bool, startSuspended: bool)
      ensures Valid() && View() == D.Initial(suspendable, startSuspended).t
      ensures running && suspended == (suspendable && startSuspended) && actions == [] == pendingActions
    {
      this.suspendable := suspendable;
      running, suspended := true, suspendable && startSuspended;
      actions, pendingActions := [], [];
      addingTimer, slots, timers, clients := false, [], [], [];
      pendingTimers, waitInterval, deadline, executingClients := [], 0, 0, [];
    }

    /** Queues an action, unless the context has been disposed. */
    method AddAction(action: nat) returns (ok: bool)
      modifies this`actions
      ensures ok == running
      ensures actions == if ok then old(actions) + [action] else old(actions)
    {
      ok := running;
      if ok {
        actions := actions + [action];
      }
    }

    /** Registers a timer client and returns its token. */
    method AddTimer(interval: nat, count: nat, now: int) returns (token: nat)
      requires Valid()
      modifies this`slots, this`timers, this`clients, this`addingTimer
      ensures Valid() && View() == Register(old(View()), interval, count, now)
      ensures token == |old(clients)| < |clients|
      ensures forall k: nat :: D.Holds(timers, k, token) <==> D.Holds(old(timers), k, token) || k == clients[token].owner
    {
      D.RegisterKeepsSlots(View(), interval, count, now);
      D.RegisterHolds(View(), interval, count, now);
      token := |clients|;
      var i := |slots|;
      if count == 0 {
        i := FindTimer(slots, timers, interval);
      }
      if i < |slots| && timers[slots[i].timer].clients == [] {
        slots := slots[..i] + slots[i + 1..];
        i := |slots|;
      }
      var k;
      if i < |slots| {
        k := slots[i].timer;
        timers := timers[k := timers[k].(clients := timers[k].clients + [token])];
      } else {
        k := |timers|;
        timers := timers + [Timer(interval, [token], [now])];
        slots := slots + [Slot(now, k)];
      }
      clients := clients + [Info(k, count, count, 0)];
      addingTimer := true;
    }

    /** The critical section of unregistering: takes the client out of whichever timer
        has it and erases a slot that this leaves empty. */
    method RemoveTimer(token: nat) returns (found: bool)
      requires Valid()
      modifies this`slots, this`timers
      ensures Valid() && View() == Unregister(old(View()), token)
      ensures found <==> exists k: nat :: D.Holds(old(timers), k, token)
    {
      D.UnregisterKeepsSlots(slots, timers, token);
      slots, timers, found := DropClient(slots, timers, token);
    }

    /** Top of the worker's loop, not suspended: drop empty timers, pick the next round. */
    method ChooseTimers(now: int) returns (any: bool)
      requires Valid()
      modifies this`slots, this`pendingTimers, this`waitInterval, this`deadline
      ensures Valid() && View() == D.ChooseRound(old(View()), now)
      ensures any <==> slots != []
    {
      slots, pendingTimers, waitInterval, deadline :=
        NextRound(View(), slots, timers, waitInterval, deadline, now);
      any := slots != [];
    }

    /** The critical section after the wait.  A suspended worker takes nothing; otherwise it swaps in the
        queued actions, and checks the round if its time has come.  `defined` is false where an
        erasure runs off the end of the round, which the source leaves undefined. */
    method SwapBatch(timerIteration: bool) returns (defined: bool, stopThread: bool)
      requires Valid()
      modifies this`actions, this`pendingActions, this`slots, this`timers, this`pendingTimers, this`addingTimer
      ensures defined <==> (timerIteration && !suspended ==> EraseRecorded(old(pendingTimers), Removed(old(slots), old(pendingTimers))).Some?)
      ensures defined ==> Valid() && View() == Swapped(old(View()), suspended, timerIteration)
      ensures actions == (if suspended then old(actions) else old(pendingActions))
      ensures pendingActions == (if suspended then old(pendingActions) else old(actions))
      ensures stopThread == !running
    {
      defined := true;
      if suspended {
        pendingTimers := [];
      } else {
        addingTimer := false;
        actions, pendingActions := pendingActions, actions;
        if timerIteration {
          defined := CheckRound();
        } else {
          pendingTimers := [];
        }
      }
      stopThread := !running;
    }

    /** Restamps the round's slots and takes removed timers out of the round. */
    method CheckRound() returns (defined: bool)
      requires Valid()
      modifies this`slots, this`timers, this`pendingTimers
      ensures defined <==> EraseRecorded(old(pendingTimers), Removed(old(slots), old(pendingTimers))).Some?
      ensures defined ==> Valid() && View() == D.BeginRound(old(View())).(adding := addingTimer)
    {
      var stamped, left := CheckTimers(slots, pendingTimers, deadline);
      var fired := Fire(slots, timers, pendingTimers, deadline);
      D.FireKeepsSlots(slots, timers, pendingTimers, deadline);
      defined := left.Some?;
      if defined {
        BeginRoundIs(View(), stamped, fired, left.value);
        slots, timers, pendingTimers := stamped, fired, left.value;
      }
    }

    /** The disposing thread, once the worker has left its loop: everything still queued is cancelled. */
    method CancelQueue() returns (cancelled: seq<nat>)
      modifies this`actions
      ensures cancelled == old(actions) && actions == []
    {
      cancelled := [];
      for i := 0 to |actions|
        modifies {}
        invariant cancelled == actions[..i]
      {
        cancelled := cancelled + [actions[i]];
      }
      actions := [];
    }
  }

  method FindTimer(slots: seq<Slot>, timers: seq<Timer>, interval: nat) returns (i: nat)
    requires ValidSlots(slots, timers)
    ensures i == FindInterval(slots, timers, interval)
  {
    i := 0;
    while i < |slots| && timers[slots[i].timer].interval != interval
      invariant 0 <= i <= |slots|
      invariant forall j :: 0 <= j < i ==> timers[slots[j].timer].interval != interval
    {
      i := i + 1;
    }
  }

  /** Chooses the round; without any timer the last wait and deadline stay as they are. */
  method NextRound(ghost t: Table, slots: seq<Slot>, timers: seq<Timer>, wait: nat, deadline: int, now: int)
    returns (kept: seq<Slot>, round: seq<nat>, wait': nat, deadline': int)
    requires t.slots == slots && t.timers == timers && t.wait == wait && t.deadline == deadline
    requires D.SlotsInv(slots, timers)
    ensures D.SlotsInv(kept, timers)
    ensures D.ChooseRound(t, now) == t.(slots := kept, round := round, wait := wait', deadline := deadline')
  {
    wait', deadline' := wait, deadline;
    var least;
    kept, round, least := GetNextTimers(slots, timers, now);
    ChooseRoundIs(t, now, kept, round, least);
    if kept != [] {
      wait', deadline' := least, now + least;
    }
  }

  lemma ChooseRoundIs(t: Table, now: int, kept: seq<Slot>, round: seq<nat>, wait: nat)
    requires D.SlotsInv(t.slots, t.timers) && kept == Compact(t.slots, t.timers)
    requires kept == [] ==> round == []
    requires kept != [] ==> Chosen(kept, t.timers, now, wait, round)
    ensures D.SlotsInv(kept, t.timers)
    ensures D.ChooseRound(t, now) ==
            if kept == [] then t.(slots := kept, round := round)
            else t.(slots := kept, round := round, wait := wait, deadline := now + wait)
  {
    D.CompactKeeps(t.slots, t.timers);
    if kept != [] {
      LeastUnique(kept, t.timers, now, wait);
    }
  }

  lemma BeginRoundIs(t: Table, stamped: seq<Slot>, fired: seq<Timer>, left: seq<nat>)
    requires EraseRecorded(t.round, Removed(t.slots, t.round)) == Some(left)
    requires stamped == Restamp(t.slots, t.round, t.deadline) && fired == Fire(t.slots, t.timers, t.round, t.deadline)
    ensures D.BeginRound(t) == t.(slots := stamped, timers := fired, round := left, adding := false)
  {
  }

  lemma LeastUnique(slots: seq<Slot>, timers: seq<Timer>, now: int, wait: nat)
    requires ValidSlots(slots, timers) && slots != [] && IsLeast(slots, timers, now, wait)
    ensures wait == D.Least(slots, timers, now)
  {
  }

  /** Some slot's timer has the client. */
  ghost predicate SlotHolds(slots: seq<Slot>, timers: seq<Timer>, c: nat) {
    exists j :: 0 <= j < |slots| && slots[j].timer < |timers| && c in timers[slots[j].timer].clients
  }

  /** The client has been taken out of the timers of the given slots. */
  ghost predicate Dropped(slots: seq<Slot>, timers: seq<Timer>, c: nat, timers': seq<Timer>) {
    && |timers'| == |timers|
    && forall k :: 0 <= k < |timers| ==>
      timers'[k] == if HasSlot(slots, k) then timers[k].(clients := Without(timers[k].clients, c)) else timers[k]
  }

  /** Walks the slots once: takes the client out of the timer that has it, and leaves
      out the slot if that timer is empty then. */
  method DropClient(slots: seq<Slot>, timers: seq<Timer>, c: nat)
    returns (kept: seq<Slot>, timers': seq<Timer>, found: bool)
    requires D.SlotsInv(slots, timers)
    ensures kept == StaysWithout(slots, timers, c) && timers' == TakeOut(timers, c)
    ensures found <==> exists k: nat :: D.Holds(timers, k, c)
  {
    kept, timers', found := [], timers, false;
    for i := 0 to |slots|
      invariant Dropped(slots[..i], timers, c, timers')
      invariant kept == StaysWithout(slots[..i], timers, c)
      invariant found == SlotHolds(slots[..i], timers, c)
    {
      var k := slots[i].timer;
      DropStep(slots, i, timers, c, timers');
      var had := c in timers'[k].clients;
      timers' := timers'[k := timers'[k].(clients := Without(timers'[k].clients, c))];
      found := found || had;
      if !(had && timers'[k].clients == []) {
        kept := kept + [slots[i]];
      }
    }
    assert slots[..|slots|] == slots;
    HolderHasSlot(slots, timers, c);
    AllDropped(slots, timers, c, timers');
  }

  lemma DropStep(slots: seq<Slot>, i: nat, timers: seq<Timer>, c: nat, timers': seq<Timer>)
    requires ValidSlots(slots, timers) && DistinctSlots(slots) && i < |slots| && Dropped(slots[..i], timers, c, timers')
    ensures ValidSlots(slots[..i], timers) && ValidSlots(slots[..i + 1], timers)
    ensures var clients := timers[slots[i].timer].clients;
      && timers'[slots[i].timer].clients == clients
      && Dropped(slots[..i + 1], timers, c, timers'[slots[i].timer := timers[slots[i].timer].(clients := Without(clients, c))])
      && (SlotHolds(slots[..i + 1], timers, c) <==> SlotHolds(slots[..i], timers, c) || c in clients)
      && StaysWithout(slots[..i + 1], timers, c) ==
           if c in clients && Without(clients, c) == [] then StaysWithout(slots[..i], timers, c)
           else StaysWithout(slots[..i], timers, c) + [slots[i]]
    ensures timers'[slots[i].timer] == timers[slots[i].timer]
  {
    assert slots[..i + 1] == slots[..i] + [slots[i]];
    assert !HasSlot(slots[..i], slots[i].timer);
    DropOne(slots[..i], slots[i], timers, c, timers');
    StaysGrows(slots[..i], slots[i], timers, c);
  }

  lemma StaysGrows(slots: seq<Slot>, x: Slot, timers: seq<Timer>, c: nat)
    requires ValidSlots(slots, timers) && x.timer < |timers|
    ensures ValidSlots(slots + [x], timers)
    ensures var clients := timers[x.timer].clients;
            StaysWithout(slots + [x], timers, c) ==
            if c in clients && Without(clients, c) == [] then StaysWithout(slots, timers, c)
            else StaysWithout(slots, timers, c) + [x]
  {
    var all := slots + [x];
    assert all[..|all| - 1] == slots && all[|all| - 1] == x;
  }

  lemma DropOne(slots: seq<Slot>, x: Slot, timers: seq<Timer>, c: nat, timers': seq<Timer>)
    requires Dropped(slots, timers, c, timers') && x.timer < |timers| && !HasSlot(slots, x.timer)
    ensures timers'[x.timer] == timers[x.timer]
    ensures Dropped(slots + [x], timers, c, timers'[x.timer := timers[x.timer].(clients := Without(timers[x.timer].clients, c))])
    ensures SlotHolds(slots + [x], timers, c) <==> SlotHolds(slots, timers, c) || c in timers[x.timer].clients
  {
    SlotAdded(slots, x);
    var all := slots + [x];
    assert all[|slots|] == x;
    if SlotHolds(slots, timers, c) {
      var j :| 0 <= j < |slots| && slots[j].timer < |timers| && c in timers[slots[j].timer].clients;
      assert all[j] == slots[j];
    }
  }

  lemma SlotAdded(slots: seq<Slot>, x: Slot)
    ensures forall k :: HasSlot(slots + [x], k) <==> HasSlot(slots, k) || k == x.timer
  {
    var all := slots + [x];
    assert all[|slots|] == x;
    forall k | HasSlot(slots, k) ensures HasSlot(all, k) {
      var j :| 0 <= j < |slots| && slots[j].timer == k;
      assert all[j] == slots[j];
    }
  }

  lemma AllDropped(slots: seq<Slot>, timers: seq<Timer>, c: nat, timers': seq<Timer>)
    requires D.SlotsInv(slots, timers) && Dropped(slots, timers, c, timers')
    ensures timers' == TakeOut(timers, c)
  {
  }

  lemma HolderHasSlot(slots: seq<Slot>, timers: seq<Timer>, c: nat)
    requires D.SlotsInv(slots, timers)
    ensures (exists k: nat :: D.Holds(timers, k, c)) <==> SlotHolds(slots, timers, c)
  {
    if k: nat :| D.Holds(timers, k, c) {
      assert HasSlot(slots, k);
      var j :| 0 <= j < |slots| && slots[j].timer == k;
    }
    if SlotHolds(slots, timers, c) {
      var j :| 0 <= j < |slots| && slots[j].timer < |timers| && c in timers[slots[j].timer].clients;
      assert D.Holds(timers, slots[j].timer, c);
    }
  }
}
