/**
 What timers do for their clients: a registered client belongs to a timer of its
 interval, the timers chosen are those due first, and every client of a timer that
 is run is called.
 */
module TimerService {
  import opened Options
  import Q = ActionQueue
  import opened Timers
  import opened Dispatcher
  import DispatcherRuns

  // ---------------------------------------------------------------------------
  // Joining
  // ---------------------------------------------------------------------------

  /** Timer `k` has clients and a slot that carries its last reference time. */
  ghost predicate Served(t: Table, k: nat) {
    && k < |t.timers| && t.timers[k].clients != []
    && exists i :: 0 <= i < |t.slots| && t.slots[i].timer == k && t.timers[k].fires != [] && t.slots[i].stamp == Last(t.timers[k].fires)
  }

  lemma OwnerIsServed(t: Table, interval: nat, count: nat, now: int)
    requires TableInv(t)
    ensures var t', c := Register(t, interval, count, now), |t.infos|;
      |t'.infos| == c + 1 && Served(t', t'.infos[c].owner)
  {
    var t', c := Register(t, interval, count, now), |t.infos|;
    var k := t'.infos[c].owner;
    RegisterKeepsSlots(t, interval, count, now);
    RegisterKeepsStamps(t, interval, count, now);
    assert HasSlot(t'.slots, k);
    assert Spaced(t'.timers[k]);
  }

  /** A new client is a client of one timer, which has the interval asked for and is served; it has all its calls
      to come.  A counted client has that timer to itself, and a timer made for it is due an interval from now;
      a timer that was there before has been running, and no timer with clients loses its slot. */
  lemma JoiningIsEffective(t: Table, interval: nat, count: nat, now: int)
    requires TableInv(t)
    ensures var t', c := Register(t, interval, count, now), |t.infos|;
      && t'.adding && |t'.infos| == c + 1 && t'.infos[c].limit == t'.infos[c].left == count && t'.infos[c].calls == 0
      && var k := t'.infos[c].owner;
      && Served(t', k) && t'.timers[k].interval == interval && (forall j: nat :: Holds(t'.timers, j, c) <==> j == k)
      && (if k < |t.timers| then count == 0 && Served(t, k) && t'.timers[k].fires == t.timers[k].fires
          else t'.timers[k].clients == [c] && t'.timers[k].fires == [now])
  {
    var t', c := Register(t, interval, count, now), |t.infos|;
    RegisterHolds(t, interval, count, now);
    OwnerIsServed(t, interval, count, now);
    var k := t'.infos[c].owner;
    assert forall j: nat :: Holds(t.timers, j, c) ==> c < |t.infos|;
    if k < |t.timers| {
      SharedWasServed(t, k);
    }
  }

  lemma SharedWasServed(t: Table, k: nat)
    requires TableInv(t) && k < |t.timers| && t.timers[k].clients != []
    ensures Served(t, k)
  {
    assert HasSlot(t.slots, k) && Spaced(t.timers[k]);
  }

  // ---------------------------------------------------------------------------
  // Choosing
  // ---------------------------------------------------------------------------

  /** How long until the timer is due. */
  function DueIn(t: Table, k: nat, now: int): nat
    requires k < |t.timers| && t.timers[k].fires != []
  {
    Remaining(Slot(Last(t.timers[k].fires), k), t.timers[k].interval, now)
  }

  /** Timer `k` has clients, and none that has is due before it. */
  ghost predicate DueFirst(t: Table, k: nat, now: int)
    requires TableInv(t)
  {
    && k < |t.timers| && t.timers[k].clients != [] && Spaced(t.timers[k])
    && forall j: nat :: j < |t.timers| && t.timers[j].clients != [] && Spaced(t.timers[j]) ==> DueIn(t, k, now) <= DueIn(t, j, now)
  }

  lemma SlotIsDue(t: Table, i: nat, now: int)
    requires TableInv(t) && i < |t.slots|
    ensures var k := t.slots[i].timer; k < |t.timers| && Spaced(t.timers[k]) && Left(t.slots[i], t.timers, now) == DueIn(t, k, now)
  {
    assert Spaced(t.timers[t.slots[i].timer]);
  }

  lemma LeastIsDue(t: Table, slots: seq<Slot>, now: int, k: nat)
    requires TableInv(t) && slots == Compact(t.slots, t.timers) && slots != []
    requires k < |t.timers| && t.timers[k].clients != []
    ensures Spaced(t.timers[k]) && Least(slots, t.timers, now) <= DueIn(t, k, now)
    ensures Least(slots, t.timers, now) == DueIn(t, k, now) <==> k in Due(slots, t.timers, now, Least(slots, t.timers, now))
  {
    var wait := Least(slots, t.timers, now);
    assert HasSlot(t.slots, k);
    var i :| 0 <= i < |t.slots| && t.slots[i].timer == k;
    SlotIsDue(t, i, now);
    assert t.slots[i] in slots;
    var j :| 0 <= j < |slots| && slots[j] == t.slots[i];
    DueExactly(slots, t.timers, now, wait, k);
    if k in Due(slots, t.timers, now, wait) {
      var h :| 0 <= h < |slots| && slots[h].timer == k && Left(slots[h], t.timers, now) == wait;
      assert slots[h] in t.slots;
      var g :| 0 <= g < |t.slots| && t.slots[g] == slots[h];
      SlotIsDue(t, g, now);
    }
  }

  lemma LeastOfSome(t: Table, slots: seq<Slot>, now: int) returns (k: nat)
    requires TableInv(t) && slots == Compact(t.slots, t.timers) && slots != []
    ensures k < |t.timers| && t.timers[k].clients != [] && Spaced(t.timers[k]) && DueIn(t, k, now) == Least(slots, t.timers, now)
  {
    var i :| 0 <= i < |slots| && Left(slots[i], t.timers, now) == Least(slots, t.timers, now);
    k := slots[i].timer;
    assert slots[i] in t.slots;
    var g :| 0 <= g < |t.slots| && t.slots[g] == slots[i];
    SlotIsDue(t, g, now);
  }

  lemma NoneLive(t: Table)
    requires TableInv(t) && Compact(t.slots, t.timers) == []
    ensures forall j :: 0 <= j < |t.timers| ==> t.timers[j].clients == []
  {
    forall i | 0 <= i < |t.slots| ensures t.timers[t.slots[i].timer].clients == [] {
      assert t.slots[i] !in Compact(t.slots, t.timers);
    }
    forall j | 0 <= j < |t.timers| ensures t.timers[j].clients == [] {
      assert t.timers[j].clients != [] ==> HasSlot(t.slots, j);
    }
  }

  /** The round is exactly the timers that are due first; it is empty only when no timer has clients; and the
      worker will wait until they are due. */
  lemma ChoosesDueFirst(t: Table, now: int, k: nat)
    requires TableInv(t)
    ensures var t' := ChooseRound(t, now);
      && (k in t'.round <==> DueFirst(t, k, now))
      && (k in t'.round ==> t'.wait == DueIn(t, k, now) && t'.deadline == now + t'.wait)
      && (t'.round == [] <==> forall j :: 0 <= j < |t.timers| ==> t.timers[j].clients == [])
      && t'.timers == t.timers && t'.infos == t.infos && t'.adding == t.adding && t'.executing == t.executing
  {
    var slots, t' := Compact(t.slots, t.timers), ChooseRound(t, now);
    if slots == [] {
      NoneLive(t);
    } else {
      var first := LeastOfSome(t, slots, now);
      LeastIsDue(t, slots, now, first);
      forall j: nat | j < |t.timers| && t.timers[j].clients != [] && Spaced(t.timers[j])
        ensures Least(slots, t.timers, now) <= DueIn(t, j, now)
      {
        LeastIsDue(t, slots, now, j);
      }
      if k < |t.timers| && t.timers[k].clients != [] {
        LeastIsDue(t, slots, now, k);
      } else {
        DueHasClients(t, slots, now, t'.wait, k);
      }
    }
  }

  /** So chooses the worker, unless it is suspended: then it chooses none. */
  lemma WorkerChooses(s: State, now: int, k: nat)
    requires Inv(s) && Enabled(s, ChooseTimers(now))
    ensures var t' := Next(s, ChooseTimers(now)).t;
      && t'.timers == s.t.timers && t'.infos == s.t.infos && t'.adding == s.t.adding
      && if s.q.suspended then t'.round == []
         else (k in t'.round <==> DueFirst(s.t, k, now)) && (k in t'.round ==> t'.wait == DueIn(s.t, k, now) && t'.deadline == now + t'.wait)
  {
    ChoosesDueFirst(s.t, now, k);
  }

  lemma DueHasClients(t: Table, slots: seq<Slot>, now: int, wait: nat, k: nat)
    requires ValidSlots(t.slots, t.timers) && slots == Compact(t.slots, t.timers)
    ensures k in Due(slots, t.timers, now, wait) ==> k < |t.timers| && t.timers[k].clients != []
  {
    DueExactly(slots, t.timers, now, wait, k);
    if k in Due(slots, t.timers, now, wait) {
      var i :| 0 <= i < |slots| && slots[i].timer == k && Left(slots[i], t.timers, now) == wait;
      assert slots[i] in slots;
    }
  }

  // ---------------------------------------------------------------------------
  // Calling
  // ---------------------------------------------------------------------------

  /** The step starts the timer that client `c` belongs to. */
  ghost predicate StartsFor(s: State, step: Step, c: nat)
    requires Enabled(s, step)
  {
    step.StartTimer? && Holds(s.t.timers, s.t.round[0], c)
  }

  function One(b: bool): nat {
    if b then 1 else 0
  }

  function CallsOf(t: Table, c: nat): nat {
    if c < |t.infos| then t.infos[c].calls else 0
  }

  /** Calls made to the client, and one more if the one it is waiting for has still to come. */
  function Promised(t: Table, c: nat): nat {
    CallsOf(t, c) + One(c in t.executing)
  }

  lemma StartPromises(s: State, c: nat)
    requires Inv(s) && CanStart(s)
    ensures Promised(Start(s).t, c) == Promised(s.t, c) + One(Holds(s.t.timers, s.t.round[0], c))
  {
  }

  lemma BeginKeepsPromise(s: State, c: nat)
    requires Inv(s) && CanBegin(s)
    ensures Promised(Begin(s).t, c) == Promised(s.t, c)
  {
    var first, rest := s.t.executing[0], s.t.executing[1..];
    assert s.t.executing == [first] + rest;
    assert first !in rest;
  }

  lemma RegisterKeepsPromise(s: State, interval: nat, count: nat, now: int, c: nat)
    requires Inv(s) && CanChangeTimers(s)
    ensures Promised(Register(s.t, interval, count, now), c) == Promised(s.t, c)
  {
    RegisterHolds(s.t, interval, count, now);
  }

  lemma StepPromises(s: State, step: Step, c: nat)
    requires Inv(s) && Enabled(s, step)
    ensures Promised(Next(s, step).t, c) == Promised(s.t, c) + One(StartsFor(s, step, c))
  {
    match step
    case StartTimer => StartPromises(s, c);
    case BeginClient => BeginKeepsPromise(s, c);
    case RegisterTimer(interval, count, now) => RegisterKeepsPromise(s, interval, count, now, c);
    case _ =>
  }

  /** How often a timer has been started while the client belonged to it. */
  ghost function StartsOver(s: State, steps: seq<Step>, c: nat): nat
    decreases |steps|
  {
    if steps == [] || !Enabled(s, steps[0]) then 0 else One(StartsFor(s, steps[0], c)) + StartsOver(Next(s, steps[0]), steps[1..], c)
  }

  lemma {:induction false} PromisesKept(s: State, steps: seq<Step>, s': State, c: nat)
    requires Inv(s) && Run(s, steps, s')
    ensures Promised(s'.t, c) == Promised(s.t, c) + StartsOver(s, steps, c)
    decreases |steps|
  {
    if steps != [] {
      StepKeepsInv(s, steps[0]);
      StepPromises(s, steps[0], c);
      PromisesKept(Next(s, steps[0]), steps[1..], s', c);
    }
  }

  /** In every run a client has been called as often as its timer was started while the client belonged to it,
      but for the call it may still be waiting for in the snapshot being worked through. */
  lemma CallsAreStarts(suspendable: bool, suspended: bool, steps: seq<Step>, s: State, c: nat)
    requires Run(Initial(suspendable, suspended), steps, s)
    ensures CallsOf(s.t, c) + One(c in s.t.executing) == StartsOver(Initial(suspendable, suspended), steps, c)
    ensures s.q.pc != Q.InTimers ==> CallsOf(s.t, c) == StartsOver(Initial(suspendable, suspended), steps, c)
  {
    Q.InitialInv(suspendable, suspended);
    DispatcherRuns.RunKeepsInv(Initial(suspendable, suspended), steps, s);
    PromisesKept(Initial(suspendable, suspended), steps, s, c);
  }

  // ---------------------------------------------------------------------------
  // A whole round
  // ---------------------------------------------------------------------------

  /** The worker is between two timers of a round, and nobody has disposed the context from inside. */
  ghost predicate BetweenTimers(s: State) {
    Inv(s) && s.q.pc == Q.InTimers && s.q.current == Q.Nobody && !s.q.stopper
  }

  predicate OfWorker(step: Step) {
    step.StartTimer? || step.BeginClient? || step.EndClient?
  }

  ghost predicate WorkerOnly(steps: seq<Step>) {
    forall step <- steps :: OfWorker(step)
  }

  lemma RunCons(s: State, step: Step, rest: seq<Step>, s': State) returns (steps: seq<Step>)
    requires Enabled(s, step) && OfWorker(step) && Run(Next(s, step), rest, s') && WorkerOnly(rest)
    ensures Run(s, steps, s') && WorkerOnly(steps)
  {
    steps := [step] + rest;
    assert steps[1..] == rest;
    assert forall x <- steps :: x == step || x in rest;
  }

  lemma BeginHolds(s: State)
    requires BetweenTimers(s) && s.t.executing != []
    ensures Enabled(s, BeginClient) && Inv(Begin(s)) && CanEnd(Begin(s))
    ensures Begin(s).t.executing == s.t.executing[1..] && Begin(s).t.round == s.t.round && Begin(s).t.timers == s.t.timers
    ensures Begin(s).q == s.q.(current := Q.Client(s.t.executing[0]))
  {
    StepKeepsInv(s, BeginClient);
  }

  lemma EndHolds(s: State)
    requires Inv(s) && CanEnd(s) && !s.q.stopper
    ensures BetweenTimers(End(s))
    ensures End(s).t.executing == s.t.executing && End(s).t.round == s.t.round && End(s).t.infos == s.t.infos
    ensures forall k: nat, d: nat :: d != s.q.current.token ==> (Holds(End(s).t.timers, k, d) <==> Holds(s.t.timers, k, d))
    ensures forall k: nat, d: nat :: Holds(End(s).t.timers, k, d) ==> Holds(s.t.timers, k, d)
  {
    StepKeepsInv(s, EndClient);
    if Expired(s.t.infos[s.q.current.token]) {
      ExpireHolds(s.t, s.q.current.token);
    }
  }

  lemma ServeClient(s: State) returns (t: State)
    requires BetweenTimers(s) && s.t.executing != []
    ensures Enabled(s, BeginClient) && Enabled(Begin(s), EndClient) && t == End(Begin(s)) && BetweenTimers(t)
    ensures t.t.executing == s.t.executing[1..] && t.t.round == s.t.round
    ensures forall k: nat, d: nat :: d != s.t.executing[0] ==> (Holds(t.t.timers, k, d) <==> Holds(s.t.timers, k, d))
    ensures forall k: nat, d: nat :: Holds(t.t.timers, k, d) ==> Holds(s.t.timers, k, d)
    ensures forall d :: Promised(t.t, d) == Promised(s.t, d)
  {
    BeginHolds(s);
    EndHolds(Begin(s));
    t := End(Begin(s));
    forall d ensures Promised(t.t, d) == Promised(s.t, d) {
      BeginKeepsPromise(s, d);
    }
  }

  lemma {:induction false} ServeSnapshot(s: State) returns (steps: seq<Step>, t: State)
    requires BetweenTimers(s)
    ensures Run(s, steps, t) && WorkerOnly(steps) && BetweenTimers(t) && t.t.executing == [] && t.t.round == s.t.round
    ensures forall k: nat, d: nat :: d !in s.t.executing ==> (Holds(t.t.timers, k, d) <==> Holds(s.t.timers, k, d))
    ensures forall k: nat, d: nat :: Holds(t.t.timers, k, d) ==> Holds(s.t.timers, k, d)
    ensures forall d :: Promised(t.t, d) == Promised(s.t, d)
    decreases |s.t.executing|
  {
    if s.t.executing == [] {
      steps, t := [], s;
    } else {
      var u := ServeClient(s);
      assert s.t.executing == [s.t.executing[0]] + u.t.executing;
      steps, t := ServeSnapshot(u);
      steps := RunCons(Begin(s), EndClient, steps, t);
      steps := RunCons(s, BeginClient, steps, t);
    }
  }

  /** Client `c` belongs to a timer of the round. */
  ghost predicate InRound(t: Table, round: seq<nat>, c: nat) {
    exists i :: 0 <= i < |round| && Holds(t.timers, round[i], c)
  }

  lemma StartHolds(s: State)
    requires BetweenTimers(s) && s.t.executing == [] && s.t.round != []
    ensures Enabled(s, StartTimer) && BetweenTimers(Start(s))
    ensures Start(s).t.round == s.t.round[1..] && Start(s).t.timers == s.t.timers
    ensures forall c :: c in Start(s).t.executing <==> Holds(s.t.timers, s.t.round[0], c)
  {
    StepKeepsInv(s, StartTimer);
  }

  /** What `c` is still owed is one call less, if it belongs to the first timer of the round. */
  lemma OwedAfterFirst(t: Table, u: Table, c: nat)
    requires t.round != [] && OwnersInv(t.timers, t.infos) && NoDup(t.round) && u.round == t.round[1..]
    requires forall k: nat :: Holds(u.timers, k, c) ==> Holds(t.timers, k, c)
    requires !Holds(t.timers, t.round[0], c) ==> forall k: nat :: Holds(u.timers, k, c) <==> Holds(t.timers, k, c)
    ensures One(InRound(t, t.round, c)) == One(Holds(t.timers, t.round[0], c)) + One(InRound(u, u.round, c))
  {
    if i :| 0 <= i < |u.round| && Holds(u.timers, u.round[i], c) {
      assert t.round[i + 1] == u.round[i] && Holds(t.timers, t.round[i + 1], c);
    }
    if i :| 0 <= i < |t.round| && Holds(t.timers, t.round[i], c) {
      if i > 0 {
        assert u.round[i - 1] == t.round[i];
      }
    }
  }

  /** The first timer of the round is run: its clients are called. */
  lemma ServeFirst(s: State) returns (steps: seq<Step>, t: State)
    requires BetweenTimers(s) && s.t.executing == [] && s.t.round != []
    ensures Run(s, steps, t) && WorkerOnly(steps) && BetweenTimers(t) && t.t.executing == [] && t.t.round == s.t.round[1..]
    ensures forall c :: CallsOf(t.t, c) + One(InRound(t.t, t.t.round, c)) == CallsOf(s.t, c) + One(InRound(s.t, s.t.round, c))
  {
    StartHolds(s);
    var a := Start(s);
    steps, t := ServeSnapshot(a);
    forall c ensures CallsOf(t.t, c) + One(InRound(t.t, t.t.round, c)) == CallsOf(s.t, c) + One(InRound(s.t, s.t.round, c)) {
      StartPromises(s, c);
      assert Promised(t.t, c) == Promised(a.t, c);
      OwedAfterFirst(s.t, t.t, c);
    }
    steps := RunCons(s, StartTimer, steps, t);
  }

  /** The worker alone can go through the rest of the round; each client of a timer in it is called once
      meanwhile, and no other client is. */
  lemma {:induction false} ServeRound(s: State) returns (steps: seq<Step>, t: State)
    requires BetweenTimers(s) && s.t.executing == []
    ensures Run(s, steps, t) && WorkerOnly(steps) && BetweenTimers(t) && t.t.executing == [] && t.t.round == []
    ensures forall c :: CallsOf(t.t, c) == CallsOf(s.t, c) + One(InRound(s.t, s.t.round, c))
    decreases |s.t.round|
  {
    if s.t.round == [] {
      steps, t := [], s;
    } else {
      var first, u := ServeFirst(s);
      var rest;
      rest, t := ServeRound(u);
      steps := WorkerAppend(s, first, u, rest, t);
    }
  }

  /** From every state of every run in which the worker is about to begin a round of timers none of which has been
      removed since they were chosen: it can go through the round, calling every client of its timers once and
      no other, and each of the timers is given the deadline as its new reference time. */
  lemma RoundIsServed(s: State) returns (steps: seq<Step>, t: State)
    requires Reachable(s) && CanSwap(s, true) && !s.q.suspended && Removed(s.t.slots, s.t.round) == []
    ensures Run(Next(s, SwapBatch(true)), steps, t) && WorkerOnly(steps) && t.t.round == [] && t.t.executing == []
    ensures forall c :: CallsOf(t.t, c) == CallsOf(s.t, c) + One(InRound(s.t, s.t.round, c))
    ensures forall k :: 0 <= k < |s.t.timers| ==>
      Next(s, SwapBatch(true)).t.timers[k].fires == s.t.timers[k].fires + if k in s.t.round then [s.t.deadline] else []
  {
    DispatcherRuns.ReachableInv(s);
    StepKeepsInv(s, SwapBatch(true));
    var u := Next(s, SwapBatch(true));
    WholeRoundBegins(s);
    steps, t := ServeRound(u);
    forall c ensures CallsOf(t.t, c) == CallsOf(s.t, c) + One(InRound(s.t, s.t.round, c)) {
      assert InRound(u.t, u.t.round, c) <==> InRound(s.t, s.t.round, c);
    }
  }

  lemma WholeRoundBegins(s: State)
    requires Inv(s) && CanSwap(s, true) && !s.q.suspended && Removed(s.t.slots, s.t.round) == []
    ensures var u := Next(s, SwapBatch(true));
      && u.t.round == s.t.round && u.t.executing == [] && u.t.infos == s.t.infos && |u.t.timers| == |s.t.timers|
      && u.q.pc == Q.InTimers && u.q.current == Q.Nobody && !u.q.stopper
      && (forall k: nat, c: nat :: Holds(u.t.timers, k, c) <==> Holds(s.t.timers, k, c))
      && forall k :: 0 <= k < |s.t.timers| ==> u.t.timers[k].fires == s.t.timers[k].fires + if k in s.t.round then [s.t.deadline] else []
  {
    forall k | k in s.t.round ensures HasSlot(s.t.slots, k) {
      var p :| 0 <= p < |s.t.round| && s.t.round[p] == k;
      assert HasSlot(s.t.slots, s.t.round[p]) || p in Removed(s.t.slots, s.t.round);
    }
  }

  lemma {:induction false} WorkerAppend(s: State, a: seq<Step>, t: State, b: seq<Step>, u: State) returns (steps: seq<Step>)
    requires Run(s, a, t) && WorkerOnly(a) && Run(t, b, u) && WorkerOnly(b)
    ensures Run(s, steps, u) && WorkerOnly(steps)
    decreases |a|
  {
    if a == [] {
      steps := b;
    } else {
      assert a[0] in a && forall x <- a[1..] :: x in a;
      steps := WorkerAppend(Next(s, a[0]), a[1..], t, b, u);
      steps := RunCons(s, a[0], steps, u);
    }
  }
}
