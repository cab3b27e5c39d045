/**
 The whole of `simple_context`: the action queue and the timers, driven by one
 worker.  A step of this machine is a step of the action queue, a step of the
 timer table, or both.

 Between choosing a round and swapping the batch the worker may wait, which
 releases the mutex; the machine lets other threads in there even when the source
 would not have waited, so it has every run of the source and some more.
 */
module Dispatcher {
  import opened Options
  import Q = ActionQueue
  import opened Timers

  datatype State = State(q: Q.Core, t: Table)

  datatype Step =
    | Queue(step: Q.Step)
    | ChooseTimers(now: int)
    | SwapBatch(timerRound: bool)
    | StartTimer
    | BeginClient
    | EndClient
    | FinishTimers
    | RegisterTimer(interval: nat, count: nat, now: int)
    | UnregisterTimer(token: nat)

  function Initial(suspendable: bool, suspended: bool): State {
    State(Q.Initial(suspendable, suspended), Table([], [], [], [], 0, 0, [], false))
  }

  /** The queue steps that the timers have no part in. */
  predicate QueueOnly(step: Q.Step) {
    !step.Choose? && !step.Swap? && !step.ClientBegin? && !step.ClientEnd? && !step.TimersDone?
  }

  /** What the worker's wait looks for. */
  predicate Woken(s: State) {
    s.q.queue != [] || s.t.adding || !s.q.running
  }

  predicate CanChoose(s: State) {
    Q.Enabled(s.q, Q.Choose) && ValidSlots(s.t.slots, s.t.timers)
  }

  /** A suspended worker looks at no timer; otherwise it drops empty timers and picks the next round. */
  function Choose(s: State, now: int): State
    requires CanChoose(s)
  {
    State(Q.Next(s.q, Q.Choose), if s.q.suspended then s.t.(round := []) else ChooseRound(s.t, now))
  }

  /** A round that is due at once is taken; otherwise the worker is woken, or its wait times out.  A wait times
      out only if the worker, holding the mutex again, finds nothing to wake it.  Actions and new timers need
      the mutex to come in after that; `running` and `suspended` may change without it, and a suspended worker
      is not woken by either. */
  predicate CanSwap(s: State, timerRound: bool) {
    && Q.Enabled(s.q, Q.Swap(timerRound))
    && (timerRound ==> s.t.round != [])
    && (timerRound && s.t.wait > 0 && !s.q.suspendable ==> s.q.queue == [] && !s.t.adding)
    && (!timerRound ==> Woken(s) && (s.t.round != [] ==> s.t.wait > 0))
    && (timerRound && !s.q.suspended ==> EraseRecorded(s.t.round, Removed(s.t.slots, s.t.round)).Some?)
  }

  function Swap(s: State, timerRound: bool): State
    requires CanSwap(s, timerRound)
  {
    State(Q.Next(s.q, Q.Swap(timerRound)),
          if s.q.suspended then s.t.(round := [])
          else if timerRound then BeginRound(s.t)
          else s.t.(round := [], adding := false))
  }

  predicate CanStart(s: State) {
    && s.q.pc == Q.InTimers && s.q.current == Q.Nobody && !s.q.stopper
    && s.t.executing == [] && s.t.round != [] && s.t.round[0] < |s.t.timers|
  }

  /** The next timer of the round takes a snapshot of its clients. */
  function Start(s: State): State
    requires CanStart(s)
  {
    s.(t := s.t.(executing := s.t.timers[s.t.round[0]].clients, round := s.t.round[1..]))
  }

  predicate CanBegin(s: State) {
    s.t.executing != [] && s.t.executing[0] < |s.t.infos| && Q.Enabled(s.q, Q.ClientBegin(s.t.executing[0]))
  }

  function Begin(s: State): State
    requires CanBegin(s)
  {
    var c := s.t.executing[0];
    State(Q.Next(s.q, Q.ClientBegin(c)),
          s.t.(executing := s.t.executing[1..], infos := s.t.infos[c := CountDown(s.t.infos[c])]))
  }

  predicate CanEnd(s: State) {
    && Q.Enabled(s.q, Q.ClientEnd)
    && s.q.current.token < |s.t.infos| && s.t.infos[s.q.current.token].owner < |s.t.timers|
  }

  function End(s: State): State
    requires CanEnd(s)
  {
    State(Q.Next(s.q, Q.ClientEnd), if Expired(s.t.infos[s.q.current.token]) then Expire(s.t, s.q.current.token) else s.t)
  }

  predicate CanFinish(s: State) {
    Q.Enabled(s.q, Q.TimersDone) && s.t.executing == [] && (s.t.round == [] || s.q.stopper)
  }

  function Finish(s: State): State
    requires CanFinish(s)
  {
    State(Q.Next(s.q, Q.TimersDone), s.t.(round := []))
  }

  /** Registering and unregistering take the mutex and touch the timers only. */
  predicate CanChangeTimers(s: State) {
    s.q.lock == Q.Free && ValidSlots(s.t.slots, s.t.timers)
  }

  predicate Enabled(s: State, step: Step) {
    match step
    case Queue(st) => QueueOnly(st) && Q.Enabled(s.q, st)
    case ChooseTimers(_) => CanChoose(s)
    case SwapBatch(timerRound) => CanSwap(s, timerRound)
    case StartTimer => CanStart(s)
    case BeginClient => CanBegin(s)
    case EndClient => CanEnd(s)
    case FinishTimers => CanFinish(s)
    case RegisterTimer(_, _, _) => CanChangeTimers(s)
    case UnregisterTimer(_) => CanChangeTimers(s)
  }

  function Next(s: State, step: Step): State
    requires Enabled(s, step)
  {
    match step
    case Queue(st) => s.(q := Q.Next(s.q, st))
    case ChooseTimers(now) => Choose(s, now)
    case SwapBatch(timerRound) => Swap(s, timerRound)
    case StartTimer => Start(s)
    case BeginClient => Begin(s)
    case EndClient => End(s)
    case FinishTimers => Finish(s)
    case RegisterTimer(interval, count, now) => s.(t := Register(s.t, interval, count, now))
    case UnregisterTimer(c) => s.(t := Unregister(s.t, c))
  }

  /** The least remaining time of a non-empty vector of slots. */
  function Least(slots: seq<Slot>, timers: seq<Timer>, now: int): (r: nat)
    requires ValidSlots(slots, timers) && slots != []
    ensures IsLeast(slots, timers, now, r)
  {
    var n := |slots| - 1;
    var last := Left(slots[n], timers, now);
    if n == 0 then last
    else
      var front := Least(slots[..n], timers, now);
      assert forall i :: 0 <= i < n ==> slots[..n][i] == slots[i];
      if last < front then last else front
  }

  function ChooseRound(t: Table, now: int): Table
    requires ValidSlots(t.slots, t.timers)
  {
    var slots := Compact(t.slots, t.timers);
    if slots == [] then t.(slots := slots, round := [])
    else
      var wait := Least(slots, t.timers, now);
      t.(slots := slots, round := Due(slots, t.timers, now, wait), wait := wait, deadline := now + wait)
  }

  function BeginRound(t: Table): Table
    requires EraseRecorded(t.round, Removed(t.slots, t.round)).Some?
  {
    t.(slots := Restamp(t.slots, t.round, t.deadline),
       timers := Fire(t.slots, t.timers, t.round, t.deadline),
       round := EraseRecorded(t.round, Removed(t.slots, t.round)).value,
       adding := false)
  }

  /** An expired client leaves the timer it was run for; the emptied slot stays until the next choice. */
  function Expire(t: Table, c: nat): Table
    requires c < |t.infos| && t.infos[c].owner < |t.timers|
  {
    var k := t.infos[c].owner;
    t.(timers := t.timers[k := t.timers[k].(clients := Without(t.timers[k].clients, c))])
  }

  ghost predicate Run(s: State, steps: seq<Step>, s': State)
    decreases |steps|
  {
    if steps == [] then s == s'
    else Enabled(s, steps[0]) && Run(Next(s, steps[0]), steps[1..], s')
  }

  ghost predicate Reachable(s: State) {
    exists suspendable: bool, suspended: bool, steps: seq<Step> :: Run(Initial(suspendable, suspended), steps, s)
  }

  // ---------------------------------------------------------------------------
  // The invariant of the timer side
  // ---------------------------------------------------------------------------

  /** The vector of slots names each timer at most once, and every timer with clients is named. */
  ghost predicate SlotsInv(slots: seq<Slot>, timers: seq<Timer>) {
    && ValidSlots(slots, timers)
    && DistinctSlots(slots)
    && (forall k :: 0 <= k < |timers| && timers[k].clients != [] ==> HasSlot(slots, k))
  }

  /** Client `c` is in the client vector of timer `k`. */
  ghost predicate Holds(timers: seq<Timer>, k: nat, c: nat) {
    k < |timers| && c in timers[k].clients
  }

  /** A client is a client of its own timer only, and once. */
  ghost predicate OwnersInv(timers: seq<Timer>, infos: seq<Info>) {
    && (forall c :: 0 <= c < |infos| ==> infos[c].owner < |timers|)
    && (forall k :: 0 <= k < |timers| ==> NoDup(timers[k].clients))
    && (forall k: nat, c: nat :: Holds(timers, k, c) ==> c < |infos| && infos[c].owner == k)
  }

  ghost predicate Below(s: seq<nat>, n: nat) {
    NoDup(s) && forall i :: 0 <= i < |s| ==> s[i] < n
  }

  /** Calls made plus calls left is the registered count. */
  ghost predicate CountsInv(infos: seq<Info>) {
    forall c :: 0 <= c < |infos| && infos[c].limit > 0 ==> infos[c].calls + infos[c].left == infos[c].limit
  }

  /** A counted client with no calls left is nowhere to be found once its last call is over. */
  ghost predicate GoneInv(timers: seq<Timer>, infos: seq<Info>, executing: seq<nat>, current: Q.Current) {
    && (forall c :: 0 <= c < |infos| && Expired(infos[c]) ==> c !in executing)
    && (forall k: nat, c: nat :: Holds(timers, k, c) && c < |infos| && Expired(infos[c]) ==> current == Q.Client(c))
    && (current.Client? ==> current.token < |infos| && current.token !in executing)
  }

  /** Successive reference times of a timer are at least its interval apart. */
  ghost predicate Spaced(timer: Timer) {
    && timer.fires != []
    && forall i, j :: 0 <= i && j == i + 1 && j < |timer.fires| ==> timer.fires[i] + timer.interval <= timer.fires[j]
  }

  ghost predicate AllSpaced(timers: seq<Timer>) {
    forall k :: 0 <= k < |timers| ==> Spaced(timers[k])
  }

  /** A slot carries the last reference time of its timer. */
  ghost predicate StampsInv(slots: seq<Slot>, timers: seq<Timer>) {
    forall i :: 0 <= i < |slots| && slots[i].timer < |timers| && timers[slots[i].timer].fires != [] ==>
      slots[i].stamp == Last(timers[slots[i].timer].fires)
  }

  function Last(s: seq<int>): int
    requires s != []
  {
    s[|s| - 1]
  }

  /** The chosen deadline is not before any chosen timer is due, and exactly when it is due if the worker has to wait. */
  ghost predicate DueInv(slots: seq<Slot>, timers: seq<Timer>, round: seq<nat>, wait: nat, deadline: int) {
    forall i :: 0 <= i < |slots| && slots[i].timer < |timers| && slots[i].timer in round ==>
      && slots[i].stamp + timers[slots[i].timer].interval <= deadline
      && (wait > 0 ==> slots[i].stamp + timers[slots[i].timer].interval == deadline)
  }

  ghost predicate TableInv(t: Table) {
    && SlotsInv(t.slots, t.timers)
    && OwnersInv(t.timers, t.infos)
    && Below(t.executing, |t.infos|)
    && Below(t.round, |t.timers|)
    && CountsInv(t.infos)
    && AllSpaced(t.timers)
    && StampsInv(t.slots, t.timers)
  }

  ghost predicate Inv(s: State) {
    && Q.Inv(s.q)
    && TableInv(s.t)
    && GoneInv(s.t.timers, s.t.infos, s.t.executing, s.q.current)
    && (s.q.pc == Q.Chosen ==> DueInv(s.t.slots, s.t.timers, s.t.round, s.t.wait, s.t.deadline))
    && (s.q.pc != Q.InTimers ==> s.t.executing == [])
    && (s.q.pc !in {Q.Chosen, Q.InTimers} ==> s.t.round == [])
  }

  // ---- choosing a round ------------------------------------------------------

  lemma {:induction false} CompactKeeps(slots: seq<Slot>, timers: seq<Timer>)
    requires ValidSlots(slots, timers)
    ensures DistinctSlots(slots) ==> DistinctSlots(Compact(slots, timers))
    ensures forall k :: 0 <= k < |timers| && timers[k].clients != [] && HasSlot(slots, k) ==> HasSlot(Compact(slots, timers), k)
  {
    var r := Compact(slots, timers);
    if slots != [] {
      CompactKeeps(slots[1..], timers);
      var rest := Compact(slots[1..], timers);
      if DistinctSlots(slots) {
        assert forall i :: 0 <= i < |rest| ==> rest[i] in slots[1..] && rest[i].timer != slots[0].timer;
      }
    }
    forall k | 0 <= k < |timers| && timers[k].clients != [] && HasSlot(slots, k) ensures HasSlot(r, k) {
      var i :| 0 <= i < |slots| && slots[i].timer == k;
      assert slots[i] in r;
    }
  }

  lemma CompactKeepsStamps(slots: seq<Slot>, timers: seq<Timer>)
    requires ValidSlots(slots, timers) && StampsInv(slots, timers)
    ensures StampsInv(Compact(slots, timers), timers)
  {
    var r := Compact(slots, timers);
    forall i | 0 <= i < |r| && r[i].timer < |timers| && timers[r[i].timer].fires != []
      ensures r[i].stamp == Last(timers[r[i].timer].fires)
    {
      assert r[i] in slots;
    }
  }

  lemma {:induction false} DueBelow(slots: seq<Slot>, timers: seq<Timer>, now: int, wait: nat)
    requires ValidSlots(slots, timers) && DistinctSlots(slots)
    ensures Below(Due(slots, timers, now, wait), |timers|)
  {
    if slots != [] {
      var n := |slots| - 1;
      DueBelow(slots[..n], timers, now, wait);
      DueExactly(slots[..n], timers, now, wait, slots[n].timer);
    }
  }

  lemma DueOnTime(slots: seq<Slot>, timers: seq<Timer>, now: int, wait: nat)
    requires ValidSlots(slots, timers) && DistinctSlots(slots)
    ensures DueInv(slots, timers, Due(slots, timers, now, wait), wait, now + wait)
  {
    var round := Due(slots, timers, now, wait);
    forall i | 0 <= i < |slots| && slots[i].timer in round
      ensures Left(slots[i], timers, now) == wait
    {
      DueExactly(slots, timers, now, wait, slots[i].timer);
    }
  }

  lemma ChooseKeeps(t: Table, now: int)
    requires TableInv(t)
    ensures var t' := ChooseRound(t, now);
            TableInv(t') && DueInv(t'.slots, t'.timers, t'.round, t'.wait, t'.deadline)
  {
    CompactKeeps(t.slots, t.timers);
    CompactKeepsStamps(t.slots, t.timers);
    var t' := ChooseRound(t, now);
    if t'.slots != [] {
      DueBelow(t'.slots, t.timers, now, t'.wait);
      DueOnTime(t'.slots, t.timers, now, t'.wait);
    }
  }

  // ---- beginning a round -----------------------------------------------------

  lemma {:induction false} EraseKeepsBelow(round: seq<nat>, at: seq<nat>, n: nat)
    requires Below(round, n) && EraseRecorded(round, at).Some?
    ensures Below(EraseRecorded(round, at).value, n)
    decreases |at|
  {
    if at != [] {
      EraseKeepsBelow(round[..at[0]] + round[at[0] + 1..], at[1..], n);
    }
  }

  lemma FireKeepsSlots(slots: seq<Slot>, timers: seq<Timer>, round: seq<nat>, deadline: int)
    requires SlotsInv(slots, timers)
    ensures SlotsInv(Restamp(slots, round, deadline), Fire(slots, timers, round, deadline))
  {
    var slots', timers' := Restamp(slots, round, deadline), Fire(slots, timers, round, deadline);
    assert forall i :: 0 <= i < |slots| ==> slots'[i].timer == slots[i].timer;
    forall k | 0 <= k < |timers'| && timers'[k].clients != [] ensures HasSlot(slots', k) {
      assert timers[k].clients != [];
      RestampKeepsTimers(slots, round, deadline, k);
    }
  }

  lemma FireKeepsOwners(slots: seq<Slot>, timers: seq<Timer>, infos: seq<Info>, round: seq<nat>, deadline: int)
    requires OwnersInv(timers, infos)
    ensures OwnersInv(Fire(slots, timers, round, deadline), infos)
  {
    var timers' := Fire(slots, timers, round, deadline);
    forall k, c | Holds(timers', k, c) ensures Holds(timers, k, c) {
    }
  }

  /** The heart of the deadline claim: a restamped timer moves on by at least its interval. */
  lemma FireKeepsSpaced(slots: seq<Slot>, timers: seq<Timer>, round: seq<nat>, wait: nat, deadline: int)
    requires ValidSlots(slots, timers) && AllSpaced(timers) && StampsInv(slots, timers)
    requires DueInv(slots, timers, round, wait, deadline)
    ensures AllSpaced(Fire(slots, timers, round, deadline))
  {
    var timers' := Fire(slots, timers, round, deadline);
    forall k | 0 <= k < |timers'| ensures Spaced(timers'[k]) {
      assert Spaced(timers[k]);
      if k in round && HasSlot(slots, k) {
        var i :| 0 <= i < |slots| && slots[i].timer == k;
        assert Last(timers[k].fires) + timers[k].interval <= deadline;
      }
    }
  }

  lemma FireKeepsStamps(slots: seq<Slot>, timers: seq<Timer>, round: seq<nat>, deadline: int)
    requires StampsInv(slots, timers) && AllSpaced(timers)
    ensures StampsInv(Restamp(slots, round, deadline), Fire(slots, timers, round, deadline))
  {
    var slots', timers' := Restamp(slots, round, deadline), Fire(slots, timers, round, deadline);
    forall i | 0 <= i < |slots'| && slots'[i].timer < |timers'|
      ensures slots'[i].stamp == Last(timers'[slots'[i].timer].fires)
    {
      assert slots'[i].timer == slots[i].timer;
      assert HasSlot(slots, slots[i].timer);
      assert Spaced(timers[slots[i].timer]);
    }
  }

  lemma BeginRoundKeeps(t: Table)
    requires TableInv(t) && DueInv(t.slots, t.timers, t.round, t.wait, t.deadline)
    requires EraseRecorded(t.round, Removed(t.slots, t.round)).Some?
    ensures TableInv(BeginRound(t))
    ensures forall k: nat, c: nat :: Holds(BeginRound(t).timers, k, c) ==> Holds(t.timers, k, c)
  {
    EraseKeepsBelow(t.round, Removed(t.slots, t.round), |t.timers|);
    FireKeepsSlots(t.slots, t.timers, t.round, t.deadline);
    FireKeepsOwners(t.slots, t.timers, t.infos, t.round, t.deadline);
    FireKeepsSpaced(t.slots, t.timers, t.round, t.wait, t.deadline);
    FireKeepsStamps(t.slots, t.timers, t.round, t.deadline);
  }

  // ---- registering -----------------------------------------------------------

  lemma RegisterKeepsSlots(t: Table, interval: nat, count: nat, now: int)
    requires SlotsInv(t.slots, t.timers)
    ensures var t' := Register(t, interval, count, now); SlotsInv(t'.slots, t'.timers)
  {
    var t' := Register(t, interval, count, now);
    forall k | 0 <= k < |t'.timers| && t'.timers[k].clients != [] ensures HasSlot(t'.slots, k) {
      if k < |t.timers| && t.timers[k].clients != [] {
        var i :| 0 <= i < |t.slots| && t.slots[i].timer == k;
        assert t.slots[i] in t'.slots;
      } else {
        assert t'.slots[|t'.slots| - 1].timer == k;
      }
    }
  }

  lemma RegisterHolds(t: Table, interval: nat, count: nat, now: int)
    requires ValidSlots(t.slots, t.timers)
    ensures var t' := Register(t, interval, count, now);
            && |t'.infos| == |t.infos| + 1
            && forall k: nat, c: nat :: Holds(t'.timers, k, c) <==> Holds(t.timers, k, c) || (c == |t.infos| && t'.infos[c].owner == k)
  {
    var t' := Register(t, interval, count, now);
    var k := t'.infos[|t.infos|].owner;
    var clients := t'.timers[k].clients;
    assert clients[|clients| - 1] == |t.infos|;
  }

  lemma RegisterKeepsOwners(t: Table, interval: nat, count: nat, now: int)
    requires ValidSlots(t.slots, t.timers) && OwnersInv(t.timers, t.infos)
    ensures var t' := Register(t, interval, count, now); OwnersInv(t'.timers, t'.infos)
  {
    RegisterHolds(t, interval, count, now);
    var t' := Register(t, interval, count, now);
    forall k | 0 <= k < |t'.timers| ensures NoDup(t'.timers[k].clients) {
      if k < |t.timers| {
        assert forall i :: 0 <= i < |t.timers[k].clients| ==> Holds(t.timers, k, t.timers[k].clients[i]);
      }
    }
  }

  lemma RegisterKeepsStamps(t: Table, interval: nat, count: nat, now: int)
    requires ValidSlots(t.slots, t.timers) && AllSpaced(t.timers) && StampsInv(t.slots, t.timers)
    ensures var t' := Register(t, interval, count, now); AllSpaced(t'.timers) && StampsInv(t'.slots, t'.timers)
  {
    var t' := Register(t, interval, count, now);
    forall k | 0 <= k < |t'.timers| ensures Spaced(t'.timers[k]) {
      if k < |t.timers| {
        assert Spaced(t.timers[k]);
      }
    }
    RegisteredSlots(t, interval, count, now);
  }

  lemma RegisteredSlots(t: Table, interval: nat, count: nat, now: int)
    requires ValidSlots(t.slots, t.timers)
    ensures var t' := Register(t, interval, count, now);
            forall i :: 0 <= i < |t'.slots| ==> t'.slots[i] in t.slots || t'.slots[i] == Slot(now, |t.timers|)
  {
  }

  lemma RegisterKeepsDue(t: Table, interval: nat, count: nat, now: int)
    requires ValidSlots(t.slots, t.timers) && Below(t.round, |t.timers|)
    requires DueInv(t.slots, t.timers, t.round, t.wait, t.deadline)
    ensures var t' := Register(t, interval, count, now); DueInv(t'.slots, t'.timers, t.round, t.wait, t.deadline)
  {
    RegisteredSlots(t, interval, count, now);
  }

  lemma RegisterKeeps(t: Table, interval: nat, count: nat, now: int, current: Q.Current)
    requires TableInv(t) && GoneInv(t.timers, t.infos, t.executing, current)
    ensures var t' := Register(t, interval, count, now);
            TableInv(t') && GoneInv(t'.timers, t'.infos, t'.executing, current)
  {
    RegisterKeepsSlots(t, interval, count, now);
    RegisterKeepsOwners(t, interval, count, now);
    RegisterKeepsStamps(t, interval, count, now);
    RegisterHolds(t, interval, count, now);
  }

  // ---- unregistering ---------------------------------------------------------

  lemma {:induction false} StaysKeeps(slots: seq<Slot>, timers: seq<Timer>, c: nat)
    requires ValidSlots(slots, timers) && DistinctSlots(slots)
    ensures DistinctSlots(StaysWithout(slots, timers, c))
  {
    if slots != [] {
      var n := |slots| - 1;
      StaysKeeps(slots[..n], timers, c);
      var front := StaysWithout(slots[..n], timers, c);
      assert forall i :: 0 <= i < |front| ==> front[i] in slots[..n] && front[i].timer != slots[n].timer;
    }
  }

  lemma UnregisterKeepsSlots(slots: seq<Slot>, timers: seq<Timer>, c: nat)
    requires SlotsInv(slots, timers)
    ensures SlotsInv(StaysWithout(slots, timers, c), TakeOut(timers, c))
  {
    var slots', timers' := StaysWithout(slots, timers, c), TakeOut(timers, c);
    StaysKeeps(slots, timers, c);
    forall k | 0 <= k < |timers'| && timers'[k].clients != [] ensures HasSlot(slots', k) {
      assert timers'[k].clients == Without(timers[k].clients, c);
      var i :| 0 <= i < |slots| && slots[i].timer == k;
      assert slots[i] in slots';
    }
  }

  lemma TakeOutHolds(timers: seq<Timer>, infos: seq<Info>, c: nat)
    requires OwnersInv(timers, infos)
    ensures forall k: nat, d: nat :: Holds(TakeOut(timers, c), k, d) <==> Holds(timers, k, d) && d != c
  {
  }

  lemma UnregisterKeepsStamps(slots: seq<Slot>, timers: seq<Timer>, c: nat)
    requires ValidSlots(slots, timers) && AllSpaced(timers) && StampsInv(slots, timers)
    ensures AllSpaced(TakeOut(timers, c)) && StampsInv(StaysWithout(slots, timers, c), TakeOut(timers, c))
  {
    var slots', timers' := StaysWithout(slots, timers, c), TakeOut(timers, c);
    forall k | 0 <= k < |timers'| ensures Spaced(timers'[k]) {
      assert Spaced(timers[k]);
    }
    forall i | 0 <= i < |slots'| && slots'[i].timer < |timers'| && timers'[slots'[i].timer].fires != []
      ensures slots'[i].stamp == Last(timers'[slots'[i].timer].fires)
    {
      assert slots'[i] in slots;
    }
  }

  lemma UnregisterKeepsDue(slots: seq<Slot>, timers: seq<Timer>, c: nat, round: seq<nat>, wait: nat, deadline: int)
    requires ValidSlots(slots, timers) && DueInv(slots, timers, round, wait, deadline)
    ensures DueInv(StaysWithout(slots, timers, c), TakeOut(timers, c), round, wait, deadline)
  {
    var slots' := StaysWithout(slots, timers, c);
    assert forall i :: 0 <= i < |slots'| ==> slots'[i] in slots;
  }

  lemma UnregisterKeeps(t: Table, c: nat, current: Q.Current)
    requires TableInv(t) && GoneInv(t.timers, t.infos, t.executing, current)
    ensures var t' := Unregister(t, c);
            TableInv(t') && GoneInv(t'.timers, t'.infos, t'.executing, current)
  {
    UnregisterKeepsSlots(t.slots, t.timers, c);
    UnregisterKeepsStamps(t.slots, t.timers, c);
    TakeOutHolds(t.timers, t.infos, c);
    assert OwnersInv(TakeOut(t.timers, c), t.infos);
  }

  // ---- running clients -------------------------------------------------------

  lemma StartTimerKeeps(s: State)
    requires Inv(s) && CanStart(s)
    ensures Inv(Start(s))
  {
    var k := s.t.round[0];
    var clients := s.t.timers[k].clients;
    assert forall i :: 0 <= i < |clients| ==> Holds(s.t.timers, k, clients[i]);
  }

  lemma BeginClientKeeps(s: State)
    requires Inv(s) && CanBegin(s)
    ensures Inv(Begin(s))
  {
    var c := s.t.executing[0];
    Q.StepKeepsInv(s.q, Q.ClientBegin(c));
    var s' := Begin(s);
    assert c !in s'.t.executing;
    assert forall d :: 0 <= d < |s'.t.infos| ==> s'.t.infos[d].owner == s.t.infos[d].owner;
  }

  lemma ExpireHolds(t: Table, c: nat)
    requires c < |t.infos| && OwnersInv(t.timers, t.infos)
    ensures forall k: nat, d: nat :: Holds(Expire(t, c).timers, k, d) <==> Holds(t.timers, k, d) && d != c
  {
    var k := t.infos[c].owner;
    var timers' := Expire(t, c).timers;
    assert timers'[k].clients == Without(t.timers[k].clients, c);
    assert NoDup(t.timers[k].clients);
    assert forall j: nat :: Holds(t.timers, j, c) ==> j == k;
  }

  lemma ExpireKeeps(t: Table, c: nat)
    requires c < |t.infos| && TableInv(t)
    ensures TableInv(Expire(t, c))
  {
    ExpireHolds(t, c);
    var k := t.infos[c].owner;
    var t' := Expire(t, c);
    assert forall j :: 0 <= j < |t.timers| && t'.timers[j].clients != [] ==> t.timers[j].clients != [];
    forall j | 0 <= j < |t'.timers| ensures Spaced(t'.timers[j]) {
      assert Spaced(t.timers[j]);
    }
  }

  lemma EndClientKeeps(s: State)
    requires Inv(s) && CanEnd(s)
    ensures Inv(End(s))
  {
    Q.StepKeepsInv(s.q, Q.ClientEnd);
    var c := s.q.current.token;
    if Expired(s.t.infos[c]) {
      ExpireKeeps(s.t, c);
      ExpireHolds(s.t, c);
    }
  }

  lemma SwapKeeps(s: State, timerRound: bool)
    requires Inv(s) && CanSwap(s, timerRound)
    ensures Inv(Swap(s, timerRound))
  {
    Q.StepKeepsInv(s.q, Q.Swap(timerRound));
    if timerRound && !s.q.suspended {
      BeginRoundKeeps(s.t);
    }
  }

  lemma QueueKeeps(s: State, st: Q.Step)
    requires Inv(s) && QueueOnly(st) && Q.Enabled(s.q, st)
    ensures Inv(s.(q := Q.Next(s.q, st)))
  {
    Q.StepKeepsInv(s.q, st);
  }

  lemma ChooseTimersKeeps(s: State, now: int)
    requires Inv(s) && CanChoose(s)
    ensures Inv(Choose(s, now))
  {
    Q.StepKeepsInv(s.q, Q.Choose);
    ChooseKeeps(s.t, now);
  }

  lemma RegistrationKeeps(s: State, step: Step)
    requires Inv(s) && Enabled(s, step) && (step.RegisterTimer? || step.UnregisterTimer?)
    ensures Inv(Next(s, step))
  {
    if step.RegisterTimer? {
      RegisterKeeps(s.t, step.interval, step.count, step.now, s.q.current);
      if s.q.pc == Q.Chosen {
        RegisterKeepsDue(s.t, step.interval, step.count, step.now);
      }
    } else {
      UnregisterKeeps(s.t, step.token, s.q.current);
      if s.q.pc == Q.Chosen {
        UnregisterKeepsDue(s.t.slots, s.t.timers, step.token, s.t.round, s.t.wait, s.t.deadline);
      }
    }
  }

  lemma FinishTimersKeeps(s: State)
    requires Inv(s) && CanFinish(s)
    ensures Inv(Finish(s))
  {
    Q.StepKeepsInv(s.q, Q.TimersDone);
  }

  lemma StepKeepsInv(s: State, step: Step)
    requires Inv(s) && Enabled(s, step)
    ensures Inv(Next(s, step))
  {
    match step
    case Queue(st) => QueueKeeps(s, st);
    case ChooseTimers(now) => ChooseTimersKeeps(s, now);
    case SwapBatch(timerRound) => SwapKeeps(s, timerRound);
    case StartTimer => StartTimerKeeps(s);
    case BeginClient => BeginClientKeeps(s);
    case EndClient => EndClientKeeps(s);
    case FinishTimers => FinishTimersKeeps(s);
    case RegisterTimer(_, _, _) => RegistrationKeeps(s, step);
    case UnregisterTimer(_) => RegistrationKeeps(s, step);
  }
}
