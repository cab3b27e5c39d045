/** What holds in every run of a dispatcher: barriers, call counts and deadlines. */
module DispatcherRuns {
  import opened Options
  import Q = ActionQueue
  import opened Timers
  import opened Dispatcher

  lemma {:induction false} RunKeepsInv(s: State, steps: seq<Step>, s': State)
    requires Inv(s) && Run(s, steps, s')
    ensures Inv(s')
    decreases |steps|
  {
    if steps != [] {
      StepKeepsInv(s, steps[0]);
      RunKeepsInv(Next(s, steps[0]), steps[1..], s');
    }
  }

  lemma ReachableInv(s: State)
    requires Reachable(s)
    ensures Inv(s)
  {
    var suspendable: bool, suspended: bool, steps: seq<Step> :| Run(Initial(suspendable, suspended), steps, s);
    RunKeepsInv(Initial(suspendable, suspended), steps, s);
  }

  // ---------------------------------------------------------------------------
  // The queue inside a dispatcher is an action queue
  // ---------------------------------------------------------------------------

  /** A dispatcher step seen by the queue: one queue step, or none. */
  function Seen(s: State, step: Step): seq<Q.Step>
    requires Enabled(s, step)
  {
    match step
    case Queue(st) => [st]
    case ChooseTimers(_) => [Q.Choose]
    case SwapBatch(timerRound) => [Q.Swap(timerRound)]
    case BeginClient => [Q.ClientBegin(s.t.executing[0])]
    case EndClient => [Q.ClientEnd]
    case FinishTimers => [Q.TimersDone]
    case StartTimer => []
    case RegisterTimer(_, _, _) => []
    case UnregisterTimer(_) => []
  }

  lemma StepProjects(s: State, step: Step)
    requires Enabled(s, step)
    ensures var seen := Seen(s, step);
            if seen == [] then Next(s, step).q == s.q
            else Q.Enabled(s.q, seen[0]) && Next(s, step).q == Q.Next(s.q, seen[0])
  {
  }

  lemma {:induction false} RunProjects(s: State, steps: seq<Step>, s': State) returns (seen: seq<Q.Step>)
    requires Run(s, steps, s')
    ensures Q.Run(s.q, seen, s'.q)
    decreases |steps|
  {
    if steps == [] {
      seen := [];
    } else {
      var rest := RunProjects(Next(s, steps[0]), steps[1..], s');
      StepProjects(s, steps[0]);
      seen := Seen(s, steps[0]) + rest;
      if Seen(s, steps[0]) == [] {
        assert seen == rest;
      } else {
        assert seen[1..] == rest;
      }
    }
  }

  /** So everything proved about the queue alone holds of the queue of any reachable dispatcher. */
  lemma QueueReachable(s: State)
    requires Reachable(s)
    ensures Q.Reachable(s.q)
  {
    var suspendable: bool, suspended: bool, steps: seq<Step> :| Run(Initial(suspendable, suspended), steps, s);
    var seen := RunProjects(Initial(suspendable, suspended), steps, s);
    assert Q.Run(Q.Initial(suspendable, suspended), seen, s.q);
  }

  // ---------------------------------------------------------------------------
  // Deadlines
  // ---------------------------------------------------------------------------

  /** In every run two successive reference times of a timer are at least its interval apart. */
  lemma DeadlinesSpaced(s: State, k: nat, i: nat)
    requires Reachable(s) && k < |s.t.timers| && i + 1 < |s.t.timers[k].fires|
    ensures s.t.timers[k].fires[i] + s.t.timers[k].interval <= s.t.timers[k].fires[i + 1]
  {
    ReachableInv(s);
    assert Spaced(s.t.timers[k]);
  }

  /** A round the worker waited for moves each of its timers on by exactly the interval. */
  lemma PunctualRound(s: State, k: nat)
    requires Reachable(s) && CanSwap(s, true) && !s.q.suspended && s.t.wait > 0
    requires k in s.t.round && HasSlot(s.t.slots, k)
    ensures var timers' := Swap(s, true).t.timers;
            && k < |s.t.timers| == |timers'| && s.t.timers[k].fires != []
            && timers'[k].fires == s.t.timers[k].fires + [Last(s.t.timers[k].fires) + s.t.timers[k].interval]
  {
    ChosenDue(s);
    PunctualSwap(s, k);
  }

  lemma PunctualSwap(s: State, k: nat)
    requires ValidSlots(s.t.slots, s.t.timers) && AllSpaced(s.t.timers) && StampsInv(s.t.slots, s.t.timers)
    requires DueInv(s.t.slots, s.t.timers, s.t.round, s.t.wait, s.t.deadline)
    requires CanSwap(s, true) && !s.q.suspended && s.t.wait > 0
    requires k in s.t.round && HasSlot(s.t.slots, k)
    ensures var timers' := Swap(s, true).t.timers;
            && k < |s.t.timers| == |timers'| && s.t.timers[k].fires != []
            && timers'[k].fires == s.t.timers[k].fires + [Last(s.t.timers[k].fires) + s.t.timers[k].interval]
  {
    FirePunctual(s.t.slots, s.t.timers, s.t.round, s.t.wait, s.t.deadline, k);
    SwapFires(s);
  }

  lemma ChosenDue(s: State)
    requires Reachable(s) && s.q.pc == Q.Chosen
    ensures ValidSlots(s.t.slots, s.t.timers) && AllSpaced(s.t.timers) && StampsInv(s.t.slots, s.t.timers)
    ensures DueInv(s.t.slots, s.t.timers, s.t.round, s.t.wait, s.t.deadline)
  {
    ReachableInv(s);
  }

  lemma SwapFires(s: State)
    requires CanSwap(s, true) && !s.q.suspended
    ensures Swap(s, true).t.timers == Fire(s.t.slots, s.t.timers, s.t.round, s.t.deadline)
  {
  }

  lemma FirePunctual(slots: seq<Slot>, timers: seq<Timer>, round: seq<nat>, wait: nat, deadline: int, k: nat)
    requires ValidSlots(slots, timers) && AllSpaced(timers) && StampsInv(slots, timers)
    requires DueInv(slots, timers, round, wait, deadline) && wait > 0
    requires k in round && HasSlot(slots, k)
    ensures k < |timers| && timers[k].fires != []
    ensures Fire(slots, timers, round, deadline)[k].fires == timers[k].fires + [Last(timers[k].fires) + timers[k].interval]
  {
    var i :| 0 <= i < |slots| && slots[i].timer == k;
    assert Spaced(timers[k]);
  }

  /** If at most one chosen timer left while the worker waited, the round runs exactly the ones that stayed. */
  lemma RoundRunsSurvivors(s: State)
    requires Reachable(s) && CanSwap(s, true) && !s.q.suspended
    requires |Removed(s.t.slots, s.t.round)| <= 1
    ensures Swap(s, true).t.round == Survivors(s.t.slots, s.t.round)
  {
    ReachableInv(s);
    EraseRightIffAtMostOne(s.t.slots, s.t.round);
  }

  /** When the erasures stay inside the vector: a timer of the round that is still registered is given a
      new reference time and yet not run, exactly if at least two others were removed during the wait. */
  lemma LiveTimerSkippedIffTwoRemoved(s: State, k: nat)
    requires Reachable(s) && CanSwap(s, true) && !s.q.suspended
    ensures (exists j :: Skipped(s.t.slots, s.t.round, j)) <==> |Removed(s.t.slots, s.t.round)| >= 2
    ensures Skipped(s.t.slots, s.t.round, k) ==>
      var t := Swap(s, true).t;
      k !in t.round && k < |s.t.timers| == |t.timers| && t.timers[k].fires == s.t.timers[k].fires + [s.t.deadline]
  {
    ReachableInv(s);
    SkippedIffTwoRemoved(s.t.slots, s.t.round);
  }

  function ThreeClients(interval: nat): Table {
    Table([Slot(0, 0), Slot(0, 1), Slot(0, 2)], [Timer(interval, [0], [0]), Timer(interval, [1], [0]), Timer(interval, [2], [0])],
          [Info(0, 1, 1, 0), Info(1, 1, 1, 0), Info(2, 1, 1, 0)], [], 0, 0, [], true)
  }

  lemma ThreeRegistered(interval: nat)
    ensures var t := Initial(false, false).t;
      && ValidSlots(t.slots, t.timers)
      && var t1 := Register(t, interval, 1, 0);
      && ValidSlots(t1.slots, t1.timers)
      && var t2 := Register(t1, interval, 1, 0);
      && ValidSlots(t2.slots, t2.timers)
      && Register(t2, interval, 1, 0) == ThreeClients(interval)
  {
  }

  lemma {:induction false} CompactAll(slots: seq<Slot>, timers: seq<Timer>)
    requires ValidSlots(slots, timers) && forall x <- slots :: x.timer < |timers| && timers[x.timer].clients != []
    ensures Compact(slots, timers) == slots
  {
    if slots != [] {
      CompactAll(slots[1..], timers);
      assert slots[0] in slots;
    }
  }

  lemma {:induction false} AllDue(slots: seq<Slot>, timers: seq<Timer>, now: int, wait: nat)
    requires ValidSlots(slots, timers) && forall i :: 0 <= i < |slots| ==> slots[i].timer == i && Left(slots[i], timers, now) == wait
    ensures Due(slots, timers, now, wait) == seq(|slots|, i => i)
  {
    if slots != [] {
      AllDue(slots[..|slots| - 1], timers, now, wait);
    }
  }

  lemma ThreeChosen(interval: nat, t: Table)
    requires interval > 0 && t.slots == ThreeClients(interval).slots && t.timers == ThreeClients(interval).timers
    ensures ValidSlots(t.slots, t.timers)
    ensures ChooseRound(t, 0) == t.(round := [0, 1, 2], wait := interval, deadline := interval)
  {
    CompactAll(t.slots, t.timers);
    AllDue(t.slots, t.timers, 0, interval);
    assert seq(3, i => i) == [0, 1, 2];
    assert Left(t.slots[0], t.timers, 0) == interval;
    assert Least(t.slots, t.timers, 0) == interval;
  }

  lemma {:induction false} NoneLeaves(slots: seq<Slot>, timers: seq<Timer>, c: nat)
    requires ValidSlots(slots, timers) && forall i :: 0 <= i < |slots| ==> c !in timers[slots[i].timer].clients
    ensures StaysWithout(slots, timers, c) == slots
  {
    if slots != [] {
      NoneLeaves(slots[..|slots| - 1], timers, c);
    }
  }

  lemma {:induction false} StaysSplit(a: seq<Slot>, b: seq<Slot>, timers: seq<Timer>, c: nat)
    requires ValidSlots(a + b, timers) && ValidSlots(a, timers) && ValidSlots(b, timers)
    ensures StaysWithout(a + b, timers, c) == StaysWithout(a, timers, c) + StaysWithout(b, timers, c)
    decreases |b|
  {
    if b == [] {
      assert a + b == a;
    } else {
      var n := |b| - 1;
      assert (a + b)[..|a + b| - 1] == a + b[..n];
      StaysSplit(a, b[..n], timers, c);
    }
  }

  lemma OnlyOneLeaves(x: Slot, timers: seq<Timer>, c: nat)
    requires x.timer < |timers| && timers[x.timer].clients == [c]
    ensures ValidSlots([x], timers) && StaysWithout([x], timers, c) == []
  {
    assert Without([c], c) == [];
    assert [x][..0] == [];
  }

  lemma FirstLeaves(slots: seq<Slot>, timers: seq<Timer>, c: nat)
    requires ValidSlots(slots, timers) && slots != [] && timers[slots[0].timer].clients == [c]
    requires forall i :: 0 < i < |slots| ==> c !in timers[slots[i].timer].clients
    ensures StaysWithout(slots, timers, c) == slots[1..]
  {
    var first, rest := [slots[0]], slots[1..];
    assert slots == first + rest;
    StaysSplit(first, rest, timers, c);
    OnlyOneLeaves(slots[0], timers, c);
    NoneLeaves(rest, timers, c);
  }

  /** The removed timers are those of the first `m` positions. */
  lemma {:induction false} FirstRemoved(slots: seq<Slot>, round: seq<nat>, m: nat)
    requires m <= |round|
    requires forall p :: 0 <= p < |round| ==> (HasSlot(slots, round[p]) <==> p >= m)
    ensures Removed(slots, round) == seq(m, i => i)
  {
    if round != [] {
      var n := |round| - 1;
      FirstRemoved(slots, round[..n], if m <= n then m else n);
    }
  }

  lemma ThirdErased(slots: seq<Slot>, round: seq<nat>)
    requires |slots| == 1 && slots[0].timer == 2 && round == [0, 1, 2]
    ensures EraseRecorded(round, Removed(slots, round)) == Some([1]) && HasSlot(slots, 2)
  {
    assert slots[0].timer == 2;
    FirstRemoved(slots, round, 2);
    assert seq(2, i => i) == [0, 1];
    ErasesTwo();
  }

  lemma ErasesTwo()
    ensures EraseRecorded([0, 1, 2], [0, 1]) == Some([1])
  {
    var round: seq<nat>, at: seq<nat> := [0, 1, 2], [0, 1];
    assert round[..at[0]] + round[at[0] + 1..] == [1, 2] && at[1..] == [1];
    var next: seq<nat>, last: seq<nat> := [1, 2], [1];
    assert next[..last[0]] + next[last[0] + 1..] == [1] && last[1..] == [];
    assert EraseRecorded(next, last) == EraseRecorded([1], []);
  }

  /** The worker has chosen all three, and will wait for them; no timer is being added. */
  function ThreeAwaited(interval: nat): Table {
    ThreeClients(interval).(round := [0, 1, 2], wait := interval, deadline := interval, adding := false)
  }

  /** Two of three due timers have lost their clients during the wait. */
  ghost predicate TwoLeft(t: Table, interval: nat) {
    && t.slots == [Slot(0, 2)] && t.round == [0, 1, 2] && t.wait == interval && |t.timers| == 3 && !t.adding
    && t.timers[1].clients == [] && t.timers[2].clients == [2]
  }

  /** The client that is the only one of the first slot's timer, and of no other, leaves. */
  lemma FirstOut(t: Table, c: nat)
    requires ValidSlots(t.slots, t.timers) && t.slots != [] && t.timers[t.slots[0].timer].clients == [c]
    requires forall i :: 0 < i < |t.slots| ==> c !in t.timers[t.slots[i].timer].clients
    ensures var t' := Unregister(t, c);
      && t' == t.(slots := t.slots[1..], timers := t'.timers) && |t'.timers| == |t.timers| && ValidSlots(t'.slots, t'.timers)
      && forall k :: 0 <= k < |t.timers| ==> t'.timers[k].clients == Without(t.timers[k].clients, c)
  {
    FirstLeaves(t.slots, t.timers, c);
  }

  lemma BothOut(t: Table, interval: nat)
    requires t == ThreeAwaited(interval)
    ensures ValidSlots(t.slots, t.timers) && ValidSlots(Unregister(t, 0).slots, Unregister(t, 0).timers)
    ensures TwoLeft(Unregister(Unregister(t, 0), 1), interval)
  {
    FirstOut(t, 0);
    var u := Unregister(t, 0);
    assert Without([1], 0) == [1] && Without([2], 0) == [2] && Without([2], 1) == [2] && Without([1], 1) == [];
    assert u.timers[1].clients == [1] && u.timers[2].clients == [2];
    assert u.slots == [Slot(0, 1), Slot(0, 2)];
    FirstOut(u, 1);
  }

  lemma TwoLeave(d: State, interval: nat) returns (steps: seq<Step>, s: State)
    requires d.q.lock == Q.Free && d.t == ThreeAwaited(interval)
    ensures Run(d, steps, s) && s.q == d.q && TwoLeft(s.t, interval)
  {
    BothOut(d.t, interval);
    s := d.(t := Unregister(Unregister(d.t, 0), 1));
    steps := TwoUnregister(d, 0, 1);
  }

  lemma TwoUnregister(d: State, a: nat, b: nat) returns (steps: seq<Step>)
    requires CanChangeTimers(d) && CanChangeTimers(d.(t := Unregister(d.t, a)))
    ensures Run(d, steps, d.(t := Unregister(Unregister(d.t, a), b)))
  {
    var e := d.(t := Unregister(d.t, a));
    var s := e.(t := Unregister(e.t, b));
    steps := RunCons(e, UnregisterTimer(b), [], s);
    steps := RunCons(d, UnregisterTimer(a), steps, s);
  }

  lemma SwapRound(s: State, left: seq<nat>)
    requires Q.Enabled(s.q, Q.Swap(true)) && !s.q.suspended && s.t.round != [] && s.q.queue == [] && !s.t.adding
    requires EraseRecorded(s.t.round, Removed(s.t.slots, s.t.round)) == Some(left)
    ensures CanSwap(s, true) && Swap(s, true).t.round == left
  {
  }

  /** Woken by the registrations the worker takes no round, and then waits for all three. */
  lemma WaitsForThree(interval: nat) returns (steps: seq<Step>, s: State)
    requires interval > 0
    ensures Run(Initial(false, false).(t := ThreeClients(interval)), steps, s)
    ensures s.q == Initial(false, false).q.(pc := Q.Chosen) && s.t == ThreeAwaited(interval)
  {
    var a := Initial(false, false).(t := ThreeClients(interval));
    ThreeChosen(interval, a.t);
    var b := Choose(a, 0);
    var c := Swap(b, false);
    var d := Next(c, Queue(Q.EndIteration));
    ThreeChosen(interval, d.t);
    s := Choose(d, 0);
    steps := RunCons(d, ChooseTimers(0), [], s);
    steps := RunCons(c, Queue(Q.EndIteration), steps, s);
    steps := RunCons(b, SwapBatch(false), steps, s);
    steps := RunCons(a, ChooseTimers(0), steps, s);
  }

  lemma TwoLeaveReachably(interval: nat) returns (s: State)
    requires interval > 0
    ensures Reachable(s) && s.q == Initial(false, false).q.(pc := Q.Chosen) && TwoLeft(s.t, interval)
  {
    var steps, d := WaitsForThree(interval);
    var more;
    more, s := TwoLeave(d, interval);
    steps := RunAppend(Initial(false, false).(t := ThreeClients(interval)), steps, d, more, s);
    steps := ThreeRegistrations(interval, steps, s);
  }

  lemma {:induction false} RunAppend(s: State, a: seq<Step>, t: State, b: seq<Step>, u: State) returns (steps: seq<Step>)
    requires Run(s, a, t) && Run(t, b, u)
    ensures Run(s, steps, u)
    decreases |a|
  {
    if a == [] {
      steps := b;
    } else {
      steps := RunAppend(Next(s, a[0]), a[1..], t, b, u);
      steps := RunCons(s, a[0], steps, u);
    }
  }

  /** Three clients due at the same time, two of which leave while the worker waits with nothing to wake it:
      the round then runs the timer of the second, which has no clients, and not that of the third. */
  lemma ThirdTimerSkipped(interval: nat) returns (s: State)
    requires interval > 0
    ensures Reachable(s) && CanSwap(s, true) && !s.q.suspended && !Woken(s) && TwoLeft(s.t, interval)
    ensures Swap(s, true).t.round == [1] && Skipped(s.t.slots, s.t.round, 2)
  {
    s := TwoLeaveReachably(interval);
    ThirdErased(s.t.slots, s.t.round);
    SwapRound(s, [1]);
  }

  lemma ThreeRegistrations(interval: nat, rest: seq<Step>, s: State) returns (steps: seq<Step>)
    requires Run(Initial(false, false).(t := ThreeClients(interval)), rest, s)
    ensures Run(Initial(false, false), steps, s)
  {
    ThreeRegistered(interval);
    var a := Initial(false, false);
    var a1 := a.(t := Register(a.t, interval, 1, 0));
    var a2 := a.(t := Register(a1.t, interval, 1, 0));
    steps := RunCons(a2, RegisterTimer(interval, 1, 0), rest, s);
    steps := RunCons(a1, RegisterTimer(interval, 1, 0), steps, s);
    steps := RunCons(a, RegisterTimer(interval, 1, 0), steps, s);
  }

  // ---------------------------------------------------------------------------
  // Counted clients
  // ---------------------------------------------------------------------------

  /** No timer has `c` among its clients. */
  ghost predicate Unheld(timers: seq<Timer>, c: nat) {
    forall k: nat :: !Holds(timers, k, c)
  }

  ghost predicate CallsGrow(s: State, s': State, c: nat) {
    && c < |s.t.infos| <= |s'.t.infos|
    && s.t.infos[c].limit == s'.t.infos[c].limit
    && s.t.infos[c].calls <= s'.t.infos[c].calls
  }

  lemma {:induction false} RunCallsGrow(s: State, steps: seq<Step>, s': State, c: nat)
    requires c < |s.t.infos| && Run(s, steps, s')
    ensures CallsGrow(s, s', c)
    decreases |steps|
  {
    if steps != [] {
      StepCalls(s, steps[0], c);
      RunCallsGrow(Next(s, steps[0]), steps[1..], s', c);
    }
  }

  /** A client registered for `n` calls is called at most `n` times in the whole run;
      once the last call is over it is in no timer and in no snapshot, ever again. */
  lemma CountedClientStops(s: State, steps: seq<Step>, s': State, c: nat)
    requires Reachable(s) && Run(s, steps, s')
    requires c < |s.t.infos| && s.t.infos[c].limit > 0
    ensures c < |s'.t.infos| && s'.t.infos[c].limit == s.t.infos[c].limit
    ensures s'.t.infos[c].calls <= s'.t.infos[c].limit
    ensures s.t.infos[c].calls == s.t.infos[c].limit && s'.q.current != Q.Client(c) ==>
              c !in s'.t.executing && Unheld(s'.t.timers, c)
  {
    ReachableInv(s);
    RunKeepsInv(s, steps, s');
    RunCallsGrow(s, steps, s', c);
  }

  /** Joining a timer leaves every other client as it was, shared timer or not. */
  lemma JoiningTouchesNoOther(t: Table, interval: nat, count: nat, now: int, k: nat, d: nat)
    requires TableInv(t) && d < |t.infos|
    ensures var t' := Register(t, interval, count, now);
            t.infos <= t'.infos && (Holds(t'.timers, k, d) <==> Holds(t.timers, k, d))
  {
    RegisterHolds(t, interval, count, now);
    if Holds(t.timers, k, d) {
      assert t.infos[d].owner == k;
    }
  }

  /** Leaving a timer takes the client out of all of them and leaves every other client as it was. */
  lemma LeavingTouchesNoOther(t: Table, c: nat, k: nat, d: nat)
    requires TableInv(t)
    ensures var t' := Unregister(t, c);
            t'.infos == t.infos && (Holds(t'.timers, k, d) <==> Holds(t.timers, k, d) && d != c)
  {
    TakeOutHolds(t.timers, t.infos, c);
  }

  // ---------------------------------------------------------------------------
  // Unregistering is a barrier
  // ---------------------------------------------------------------------------

  /** The worker is in client `c` or about to be. */
  ghost predicate Running(s: State, c: nat) {
    c in s.t.executing || s.q.current == Q.Client(c)
  }

  /** Client `c` is in no timer, and if it is still in the running snapshot then no
      ticket from `n` on has left the queue. */
  ghost predicate Barred(s: State, c: nat, n: nat) {
    && c < |s.t.infos|
    && Unheld(s.t.timers, c)
    && (Running(s, c) ==> |s.q.invoked| + |s.q.cancelledBatch| + |s.q.batch| <= n)
  }

  /** Client `c` is gone for good. */
  ghost predicate Gone(s: State, c: nat) {
    && c < |s.t.infos|
    && Unheld(s.t.timers, c)
    && !Running(s, c)
  }

  lemma SwapKeepsUnheld(s: State, timerRound: bool, c: nat)
    requires Inv(s) && CanSwap(s, timerRound) && Unheld(s.t.timers, c)
    ensures Unheld(Swap(s, timerRound).t.timers, c)
  {
    if timerRound && !s.q.suspended {
      BeginRoundKeeps(s.t);
    }
  }

  lemma EndKeepsUnheld(s: State, c: nat)
    requires Inv(s) && CanEnd(s) && Unheld(s.t.timers, c)
    ensures Unheld(End(s).t.timers, c)
  {
    if Expired(s.t.infos[s.q.current.token]) {
      ExpireHolds(s.t, s.q.current.token);
    }
  }

  /** No step brings back a client that no timer holds. */
  lemma StepKeepsUnheld(s: State, step: Step, c: nat)
    requires Inv(s) && Enabled(s, step) && c < |s.t.infos| && Unheld(s.t.timers, c)
    ensures Unheld(Next(s, step).t.timers, c)
  {
    match step
    case RegisterTimer(interval, count, now) => RegisterHolds(s.t, interval, count, now);
    case UnregisterTimer(d) => TakeOutHolds(s.t.timers, s.t.infos, d);
    case BeginClient =>
    case EndClient => EndKeepsUnheld(s, c);
    case SwapBatch(timerRound) => SwapKeepsUnheld(s, timerRound, c);
    case Queue(_) =>
    case ChooseTimers(_) =>
    case StartTimer =>
    case FinishTimers =>
  }

  ghost predicate SameOut(q: Q.Core, q': Q.Core) {
    q'.invoked == q.invoked && q'.cancelledBatch == q.cancelledBatch && q'.batch == q.batch
  }

  lemma QueueStepUnseen(s: State, st: Q.Step, c: nat)
    requires Enabled(s, Queue(st)) && (s.q.pc != Q.InTimers ==> s.t.executing == [])
    ensures Running(Next(s, Queue(st)), c) ==> Running(s, c) && SameOut(s.q, Next(s, Queue(st)).q)
  {
  }

  lemma RoundStepUnseen(s: State, step: Step, c: nat)
    requires Enabled(s, step) && (step.ChooseTimers? || step.SwapBatch?)
    requires s.t.executing == [] && s.q.current == Q.Nobody
    ensures !Running(Next(s, step), c)
  {
  }

  lemma ClientStepUnseen(s: State, step: Step, c: nat)
    requires Enabled(s, step) && (step.BeginClient? || step.EndClient? || step.FinishTimers?)
    ensures Running(Next(s, step), c) ==> Running(s, c) && SameOut(s.q, Next(s, step).q)
  {
  }

  lemma RegistrationUnseen(s: State, step: Step, c: nat)
    requires Enabled(s, step) && (step.RegisterTimer? || step.UnregisterTimer?)
    ensures Running(Next(s, step), c) ==> Running(s, c) && SameOut(s.q, Next(s, step).q)
  {
  }

  lemma StartUnseen(s: State, c: nat)
    requires CanStart(s) && Unheld(s.t.timers, c)
    ensures !Running(Start(s), c)
  {
    assert !Holds(s.t.timers, s.t.round[0], c);
  }

  /** A snapshot taken now cannot contain a client that no timer holds. */
  lemma StepKeepsUnseen(s: State, step: Step, c: nat)
    requires Inv(s) && Enabled(s, step) && Unheld(s.t.timers, c)
    ensures Running(Next(s, step), c) ==> Running(s, c) && SameOut(s.q, Next(s, step).q)
  {
    match step
    case Queue(st) => QueueStepUnseen(s, st, c);
    case ChooseTimers(_) => RoundStepUnseen(s, step, c);
    case SwapBatch(_) => RoundStepUnseen(s, step, c);
    case StartTimer => StartUnseen(s, c);
    case BeginClient => ClientStepUnseen(s, step, c);
    case EndClient => ClientStepUnseen(s, step, c);
    case FinishTimers => ClientStepUnseen(s, step, c);
    case RegisterTimer(_, _, _) => RegistrationUnseen(s, step, c);
    case UnregisterTimer(_) => RegistrationUnseen(s, step, c);
  }

  lemma StepCalls(s: State, step: Step, c: nat)
    requires Enabled(s, step) && c < |s.t.infos|
    ensures CallsGrow(s, Next(s, step), c)
    ensures c !in s.t.executing ==> Next(s, step).t.infos[c].calls == s.t.infos[c].calls
  {
  }

  lemma StepKeepsBarred(s: State, step: Step, c: nat, n: nat)
    requires Inv(s) && Enabled(s, step) && Barred(s, c, n)
    ensures Barred(Next(s, step), c, n)
  {
    StepKeepsUnheld(s, step, c);
    StepKeepsUnseen(s, step, c);
    StepCalls(s, step, c);
  }

  lemma {:induction false} RunKeepsBarred(s: State, steps: seq<Step>, s': State, c: nat, n: nat)
    requires Inv(s) && Run(s, steps, s') && Barred(s, c, n)
    ensures Barred(s', c, n)
    decreases |steps|
  {
    if steps != [] {
      StepKeepsInv(s, steps[0]);
      StepKeepsBarred(s, steps[0], c, n);
      RunKeepsBarred(Next(s, steps[0]), steps[1..], s', c, n);
    }
  }

  lemma {:induction false} RunKeepsGone(s: State, steps: seq<Step>, s': State, c: nat)
    requires Inv(s) && Run(s, steps, s') && Gone(s, c)
    ensures Gone(s', c) && s'.t.infos[c].calls == s.t.infos[c].calls
    decreases |steps|
  {
    if steps != [] {
      StepKeepsInv(s, steps[0]);
      StepKeepsUnheld(s, steps[0], c);
      StepKeepsUnseen(s, steps[0], c);
      StepCalls(s, steps[0], c);
      RunKeepsGone(Next(s, steps[0]), steps[1..], s', c);
    }
  }

  lemma UnregisterBars(s: State, c: nat)
    requires Inv(s) && Enabled(s, UnregisterTimer(c)) && c < |s.t.infos|
    ensures Barred(Next(s, UnregisterTimer(c)), c, |s.q.accepted|)
  {
    TakeOutHolds(s.t.timers, s.t.infos, c);
    assert Q.Ledger(s.q);
  }

  /** The action with this ticket has been invoked or cancelled: a thread that waits for it goes on. */
  predicate Returned(q: Q.Core, t: nat) {
    t in q.invoked || t in q.cancelledBatch || t in q.cancelledQueue
  }

  /** `s` is the state in which the client was taken out; `t` is the ticket of the empty
      action that `sync` queues afterwards.  When that action has been invoked or cancelled, and the
      context has not been disposed from inside, the client is not running, and in no continuation of
      the run is it ever called again. */
  lemma UnregisterIsBarrier(s: State, c: nat, before: seq<Step>, s1: State, t: nat, after: seq<Step>, s2: State)
    requires Reachable(s) && Enabled(s, UnregisterTimer(c)) && c < |s.t.infos|
    requires Run(Next(s, UnregisterTimer(c)), before, s1)
    requires t >= |s.q.accepted| && Returned(s1.q, t) && !s1.q.stopper
    requires Run(s1, after, s2)
    ensures Gone(s1, c) && Gone(s2, c) && s2.t.infos[c].calls == s1.t.infos[c].calls
  {
    ReachableInv(s);
    var s0 := Next(s, UnregisterTimer(c));
    StepKeepsInv(s, UnregisterTimer(c));
    UnregisterBars(s, c);
    RunKeepsInv(s0, before, s1);
    RunKeepsBarred(s0, before, s1, c, |s.q.accepted|);
    InvokedOrStopped(s1.q, t);
    if t in s1.q.invoked {
      var i :| 0 <= i < |s1.q.invoked| && s1.q.invoked[i] == t;
    }
    assert Gone(s1, c);
    RunKeepsGone(s1, after, s2, c);
  }

  /** Without a dispose from inside nothing is cancelled before the worker has left its loop. */
  lemma InvokedOrStopped(q: Q.Core, t: nat)
    requires Q.Inv(q) && Returned(q, t) && !q.stopper
    ensures t in q.invoked || q.pc == Q.Stopped
  {
  }

  /** Nobody disposes the context from inside.  A context is disposed by its destructor, or as it is moved into
      another; so while some counted reference keeps it from being destroyed, and nobody moves it, no step is
      a dispose. */
  ghost predicate KeptAlive(steps: seq<Step>) {
    forall step <- steps :: step != Queue(Q.DisposeInside)
  }

  lemma {:induction false} KeptAliveStopper(s: State, steps: seq<Step>, s': State)
    requires Run(s, steps, s') && KeptAlive(steps) && !s.q.stopper
    ensures !s'.q.stopper
    decreases |steps|
  {
    if steps != [] {
      assert steps[0] in steps && forall step <- steps[1..] :: step in steps;
      StepProjects(s, steps[0]);
      KeptAliveStopper(Next(s, steps[0]), steps[1..], s');
    }
  }

  /** For a caller that holds a counted reference to the context for as long as the removal takes it is always a
      barrier, whether or not the client is running. */
  lemma BarrierWhileHeld(s: State, c: nat, before: seq<Step>, s1: State, t: nat, after: seq<Step>, s2: State)
    requires Reachable(s) && Enabled(s, UnregisterTimer(c)) && c < |s.t.infos|
    requires Run(Next(s, UnregisterTimer(c)), before, s1) && KeptAlive(before)
    requires t >= |s.q.accepted| && Returned(s1.q, t)
    requires Run(s1, after, s2)
    ensures Gone(s1, c) && Gone(s2, c) && s2.t.infos[c].calls == s1.t.infos[c].calls
  {
    ReachableInv(s);
    if s.q.stopper {
      NoneReturns(Next(s, UnregisterTimer(c)), before, s1, t);
    } else {
      KeptAliveStopper(Next(s, UnregisterTimer(c)), before, s1);
      UnregisterIsBarrier(s, c, before, s1, t, after, s2);
    }
  }

  /** Whenever the sync has returned, the client is gone. */
  ghost predicate Barrier(s: State, c: nat)
    requires Enabled(s, UnregisterTimer(c))
  {
    forall before, s1, t: nat ::
      Run(Next(s, UnregisterTimer(c)), before, s1) && t >= |s.q.accepted| && Returned(s1.q, t) ==> Gone(s1, c)
  }

  lemma NotRunningIsBarrier(s: State, c: nat)
    requires Inv(s) && Enabled(s, UnregisterTimer(c)) && c < |s.t.infos| && !Running(s, c)
    ensures Barrier(s, c)
  {
    var s0 := Next(s, UnregisterTimer(c));
    StepKeepsInv(s, UnregisterTimer(c));
    TakeOutHolds(s.t.timers, s.t.infos, c);
    forall before, s1, t: nat | Run(s0, before, s1) && t >= |s.q.accepted| && Returned(s1.q, t) ensures Gone(s1, c) {
      RunKeepsGone(s0, before, s1, c);
    }
  }

  /** A disposed context takes no sync at all. */
  lemma DisposedIsBarrier(s: State, c: nat)
    requires Inv(s) && Enabled(s, UnregisterTimer(c)) && !s.q.running
    ensures Barrier(s, c)
  {
    var s0 := Next(s, UnregisterTimer(c));
    forall before, s1, t: nat | Run(s0, before, s1) && t >= |s.q.accepted| ensures !Returned(s1.q, t) {
      NoneReturns(s0, before, s1, t);
    }
  }

  lemma NoneReturns(s: State, steps: seq<Step>, s': State, t: nat)
    requires Q.Inv(s.q) && Run(s, steps, s') && !s.q.running && s.q.lock == Q.Free && t >= |s.q.accepted|
    ensures !Returned(s'.q, t)
  {
    var seen := RunProjects(s, steps, s');
    Q.RunKeepsInv(s.q, seen, s'.q);
    RunAcceptsNothing(s.q, seen, s'.q);
    if Returned(s'.q, t) {
      ReturnedWasAccepted(s'.q, t);
    }
  }

  lemma RunningBreaksBarrier(s: State, c: nat)
    requires Inv(s) && Enabled(s, UnregisterTimer(c)) && Running(s, c) && s.q.running
    ensures !Barrier(s, c)
  {
    var s0 := Next(s, UnregisterTimer(c));
    StepKeepsInv(s, UnregisterTimer(c));
    var steps, s1 := SyncCancelledWhileRunning(s0, c);
    assert Returned(s1.q, |s.q.accepted|) && !Gone(s1, c);
  }

  /** The barrier holds in every continuation exactly if, when the client is taken out, it is not running
      or the context has been disposed already. */
  lemma BarrierIffNotRunning(s: State, c: nat)
    requires Reachable(s) && Enabled(s, UnregisterTimer(c)) && c < |s.t.infos|
    ensures Barrier(s, c) <==> !(Running(s, c) && s.q.running)
  {
    ReachableInv(s);
    if !Running(s, c) {
      NotRunningIsBarrier(s, c);
    } else if s.q.running {
      RunningBreaksBarrier(s, c);
    } else {
      DisposedIsBarrier(s, c);
    }
  }

  lemma ReturnedWasAccepted(q: Q.Core, t: nat)
    requires Q.Inv(q) && Returned(q, t)
    ensures t < |q.accepted|
  {
  }

  /** A disposed context takes no more actions, once nobody is in the middle of adding one. */
  lemma {:induction false} RunAcceptsNothing(q: Q.Core, steps: seq<Q.Step>, q': Q.Core)
    requires Q.Run(q, steps, q') && !q.running && q.lock == Q.Free
    ensures q'.accepted == q.accepted
    decreases |steps|
  {
    if steps != [] {
      RunAcceptsNothing(Q.Next(q, steps[0]), steps[1..], q');
    }
  }

  /** Whoever's turn it is in the running snapshot disposes the context from inside, which cancels the sync. */
  lemma SyncCancelledWhileRunning(s: State, c: nat) returns (steps: seq<Step>, s1: State)
    requires Inv(s) && Running(s, c) && s.q.running && s.q.lock == Q.Free
    ensures Run(s, steps, s1) && |s.q.accepted| in s1.q.cancelledQueue && Running(s1, c)
  {
    var a := if s.q.current.Client? then s else Next(s, BeginClient);
    var queueSteps, q' := CancelBehindRunningClient(a.q, 0);
    steps := QueueRunLifts(a, queueSteps, q');
    s1 := a.(q := q');
    if !s.q.current.Client? {
      steps := RunCons(s, BeginClient, steps, s1);
    }
  }

  lemma RunCons(s: State, step: Step, rest: seq<Step>, s': State) returns (steps: seq<Step>)
    requires Enabled(s, step) && Run(Next(s, step), rest, s')
    ensures Run(s, steps, s')
  {
    steps := [step] + rest;
    assert steps[1..] == rest;
  }

  lemma QueueRunLifts(s: State, steps: seq<Q.Step>, q': Q.Core) returns (lifted: seq<Step>)
    requires Q.Run(s.q, steps, q') && forall i :: 0 <= i < |steps| ==> QueueOnly(steps[i])
    ensures Run(s, lifted, s.(q := q'))
    decreases |steps|
  {
    if steps == [] {
      lifted := [];
    } else {
      var rest := QueueRunLifts(s.(q := Q.Next(s.q, steps[0])), steps[1..], q');
      lifted := RunCons(s, Queue(steps[0]), rest, s.(q := q'));
    }
  }

  lemma CancelBehindRunningClient(q: Q.Core, sync: nat) returns (steps: seq<Q.Step>, q': Q.Core)
    requires q.current.Client? && q.running && q.lock == Q.Free
    ensures Q.Run(q, steps, q') && forall i :: 0 <= i < |steps| ==> QueueOnly(steps[i])
    ensures |q.accepted| in q'.cancelledQueue && q'.current == q.current
  {
    var b := Q.Next(q, Q.AddBegin(sync));
    var d := Q.Next(b, Q.AddCommit);
    var e := Q.Next(d, Q.DisposeInside);
    q' := Q.Next(e, Q.CancelInside);
    assert q'.cancelledQueue[|q.cancelledQueue| + |q.queue|] == |q.accepted|;
    steps := [Q.AddBegin(sync), Q.AddCommit, Q.DisposeInside, Q.CancelInside];
    assert steps[1..][1..][1..][1..] == [];
    assert Q.Run(e, steps[1..][1..][1..], q');
    assert Q.Run(d, steps[1..][1..], q');
    assert Q.Run(b, steps[1..], q');
  }

  /** A client that is running while it is taken out may dispose the context itself, by letting go of the last
      counted reference to it, where the thread that waits holds none: then the empty
      action queued behind the removal is cancelled, and the waiting thread goes on, while the
      removed client is still running. */
  lemma InsideDisposeBreaksBarrier(s: State, c: nat, sync: nat) returns (steps: seq<Step>, s1: State)
    requires Reachable(s) && s.q.current == Q.Client(c) && s.q.running && s.q.lock == Q.Free
    ensures Enabled(s, UnregisterTimer(c)) && Run(Next(s, UnregisterTimer(c)), steps, s1)
    ensures |s.q.accepted| in s1.q.cancelledQueue && s1.q.current == Q.Client(c)
  {
    assert ValidSlots(s.t.slots, s.t.timers) by {
      ReachableInv(s);
    }
    var a := s.(t := Unregister(s.t, c));
    var queueSteps, q' := CancelBehindRunningClient(a.q, sync);
    steps := QueueRunLifts(a, queueSteps, q');
    s1 := a.(q := q');
  }

  // ---- a client does get to run ----------------------------------------------

  function OneClient(interval: nat): Table {
    Table([Slot(0, 0)], [Timer(interval, [0], [0])], [Info(0, 0, 0, 0)], [], 0, 0, [], true)
  }

  lemma FirstRegistration(interval: nat)
    ensures Register(Initial(false, false).t, interval, 0, 0) == OneClient(interval)
  {
  }

  lemma FirstChoice(interval: nat)
    ensures ChooseRound(OneClient(interval), interval) == OneClient(interval).(round := [0], wait := 0, deadline := interval)
  {
    var t := OneClient(interval);
    assert t.slots[1..] == [];
    assert Compact(t.slots, t.timers) == t.slots;
    DueGrows([], Slot(0, 0), t.timers, interval, 0);
    assert [] + [Slot(0, 0)] == t.slots;
  }

  lemma FirstRound(t: Table)
    requires t.slots == [Slot(0, 0)] && t.round == [0]
    ensures EraseRecorded(t.round, Removed(t.slots, t.round)) == Some([0])
  {
    assert t.slots[0].timer == 0 && HasSlot(t.slots, 0);
    assert t.round[..0] == [];
    assert Removed(t.slots, t.round) == [];
  }

  lemma RoundServesClient(s: State) returns (steps: seq<Step>, s': State)
    requires s.q.pc == Q.Chosen && s.q.lock == Q.Free && s.q.current == Q.Nobody && !s.q.suspended && !s.q.stopper && s.q.running
    requires s.t.executing == [] && s.t.wait == 0 && s.t.slots == [Slot(0, 0)] && s.t.round == [0] && |s.t.timers| == 1 == |s.t.infos| && s.t.timers[0].clients == [0]
    ensures Run(s, steps, s') && s'.q.current == Q.Client(0) && s'.q.running && s'.q.lock == Q.Free
  {
    FirstRound(s.t);
    var e := Swap(s, true);
    assert e.t.timers[0].clients == [0] && e.t.round == [0];
    steps, s' := RoundRunsClient(e);
    steps := RunCons(s, SwapBatch(true), steps, s');
  }

  lemma RoundRunsClient(s: State) returns (steps: seq<Step>, s': State)
    requires s.q.pc == Q.InTimers && s.q.current == Q.Nobody && !s.q.stopper && s.t.executing == []
    requires s.t.round == [0] && |s.t.timers| == 1 == |s.t.infos| && s.t.timers[0].clients == [0]
    ensures Run(s, steps, s') && s'.q == s.q.(current := Q.Client(0))
  {
    var f := Start(s);
    s' := Begin(f);
    steps := RunCons(f, BeginClient, [], s');
    steps := RunCons(s, StartTimer, steps, s');
  }

  lemma Registers(interval: nat) returns (b: State)
    ensures var a := Initial(false, false);
      Enabled(a, RegisterTimer(interval, 0, 0)) && b == Next(a, RegisterTimer(interval, 0, 0)) == a.(t := OneClient(interval))
  {
    FirstRegistration(interval);
    b := Initial(false, false).(t := OneClient(interval));
  }

  lemma Chooses(b: State, interval: nat) returns (d: State)
    requires b == Initial(false, false).(t := OneClient(interval))
    ensures Enabled(b, ChooseTimers(interval)) && d == Next(b, ChooseTimers(interval))
    ensures d.q == Initial(false, false).q.(pc := Q.Chosen)
    ensures d.t == OneClient(interval).(round := [0], wait := 0, deadline := interval)
  {
    FirstChoice(interval);
    assert ValidSlots(b.t.slots, b.t.timers);
    d := Choose(b, interval);
  }

  /** The shortest run that registers a client and serves it when due. */
  lemma SomeClientRuns(interval: nat) returns (s: State)
    ensures Reachable(s) && s.q.current == Q.Client(0) && s.q.running && s.q.lock == Q.Free
  {
    var a := Initial(false, false);
    var b := Registers(interval);
    var d := Chooses(b, interval);
    var steps;
    steps, s := RoundServesClient(d);
    steps := RunCons(b, ChooseTimers(interval), steps, s);
    steps := RunCons(a, RegisterTimer(interval, 0, 0), steps, s);
  }
}
