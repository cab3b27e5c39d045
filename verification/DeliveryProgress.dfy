/**
 The delivery path gets on: every update can be carried through and delivered, and
 when there is nothing left to do every payload and every pooled action is spare.
 */
module DeliveryProgress {
  import opened Options
  import ObjectPool
  import opened Delivery
  import opened DeliverySteps
  import opened DeliveryEffects
  import DeliveryRuns

  // ---------------------------------------------------------------------------
  // Where actions are
  // ---------------------------------------------------------------------------

  predicate Holding(phase: Phase, a: nat) {
    (phase.Equipped? || phase.Armed? || phase.Admitted?) && phase.act == a
  }

  /** An action is where its place says. */
  ghost predicate Placed(s: State) {
    forall a: nat :: a < |s.acts| ==>
      && (s.acts[a].place == InHand ==> Holding(s.phase, a))
      && (s.acts[a].place == InLine ==> a in s.line)
      && (s.acts[a].place == Performing ==> s.performing == Some(a))
  }

  predicate Busy(place: Place) {
    place == InHand || place == InLine || place == Performing
  }

  /** Only an action that has its payload yet to deliver carries one. */
  ghost predicate Tidy(s: State) {
    forall a: nat :: a < |s.acts| && s.acts[a].data.Some? ==> Busy(s.acts[a].place)
  }

  lemma ProducerKeepsPlaces(s: State, step: Step)
    requires Inv(s) && Placed(s) && Enabled(s, step) && (step.Raise? || step.Write? || step.TakeAction? || step.SetData? || step.Admit?)
    ensures Placed(Next(s, step))
  {
  }

  lemma EnqueueKeepsPlaces(s: State)
    requires Inv(s) && Placed(s) && Enabled(s, Enqueue)
    ensures Placed(Next(s, Enqueue))
  {
    var t := Next(s, Enqueue);
    forall a: nat | a < |t.acts| && t.acts[a].place == InLine ensures a in t.line {
      if a == s.phase.act {
        assert t.line[|s.line|] == a;
      }
    }
  }

  lemma BeginKeepsPlaces(s: State)
    requires Inv(s) && Placed(s) && Enabled(s, Begin)
    ensures Placed(Next(s, Begin))
  {
    var t := Next(s, Begin);
    forall a: nat | a < |t.acts| && t.acts[a].place == InLine ensures a in t.line {
      var i :| 0 <= i < |s.line| && s.line[i] == a;
      assert i > 0 && t.line[i - 1] == a;
    }
  }

  lemma WorkerKeepsPlaces(s: State, step: Step)
    requires Inv(s) && Placed(s) && Enabled(s, step) && (step.End? || step.Swap? || step.Dispose? || step.Stop?)
    ensures Placed(Next(s, step))
  {
  }

  lemma DropKeepsPlaces(s: State, a: nat)
    requires Inv(s) && Placed(s) && Enabled(s, DropRef(a))
    ensures Placed(Next(s, DropRef(a)))
  {
    DropLetsGo(s, a);
    assert SameActionsBut(s, Next(s, DropRef(a)), a);
  }

  lemma DropKeepsTidy(s: State, a: nat)
    requires Inv(s) && Tidy(s) && Enabled(s, DropRef(a))
    ensures Tidy(Next(s, DropRef(a)))
  {
    DropLetsGo(s, a);
    assert SameActionsBut(s, Next(s, DropRef(a)), a);
  }

  lemma CancelKeepsPlaces(s: State, at: nat)
    requires Inv(s) && Placed(s) && Enabled(s, Cancel(at))
    ensures Placed(Next(s, Cancel(at)))
  {
    CancelKeepsPayload(s, at);
  }

  lemma RejectKeepsPlaces(s: State)
    requires Inv(s) && Placed(s) && Enabled(s, Reject)
    ensures Placed(Next(s, Reject))
  {
    RejectLetsGo(s);
  }

  lemma StepKeepsPlaces(s: State, step: Step)
    requires Inv(s) && Placed(s) && Enabled(s, step)
    ensures Placed(Next(s, step))
  {
    match step
    case Enqueue => EnqueueKeepsPlaces(s);
    case Begin => BeginKeepsPlaces(s);
    case Cancel(at) => CancelKeepsPlaces(s, at);
    case Reject => RejectKeepsPlaces(s);
    case End => WorkerKeepsPlaces(s, step);
    case Swap => WorkerKeepsPlaces(s, step);
    case DropRef(a) => DropKeepsPlaces(s, a);
    case Dispose => WorkerKeepsPlaces(s, step);
    case Stop => WorkerKeepsPlaces(s, step);
    case _ => ProducerKeepsPlaces(s, step);
  }

  lemma ProducerKeepsTidy(s: State, step: Step)
    requires Inv(s) && Placed(s) && Tidy(s) && Enabled(s, step)
    requires step.Raise? || step.Write? || step.TakeAction? || step.SetData? || step.Admit? || step.Enqueue?
    ensures Tidy(Next(s, step))
  {
  }

  lemma WorkerKeepsTidy(s: State, step: Step)
    requires Inv(s) && Tidy(s) && Enabled(s, step)
    requires step.Begin? || step.End? || step.Swap? || step.Dispose? || step.Stop?
    ensures Tidy(Next(s, step))
  {
  }

  lemma StepKeepsTidy(s: State, step: Step)
    requires Inv(s) && Placed(s) && Tidy(s) && Enabled(s, step) && !step.Cancel? && !step.Reject?
    ensures Tidy(Next(s, step))
  {
    match step
    case DropRef(a) => DropKeepsTidy(s, a);
    case Begin => WorkerKeepsTidy(s, step);
    case End => WorkerKeepsTidy(s, step);
    case Swap => WorkerKeepsTidy(s, step);
    case Dispose => WorkerKeepsTidy(s, step);
    case Stop => WorkerKeepsTidy(s, step);
    case _ => ProducerKeepsTidy(s, step);
  }

  /** Nothing has been cancelled, and no update refused. */
  ghost predicate NothingLost(steps: seq<Step>) {
    forall step <- steps :: !step.Cancel? && !step.Reject?
  }

  lemma {:induction false} RunKeepsPlaces(s: State, steps: seq<Step>, s': State)
    requires Inv(s) && Placed(s) && Run(s, steps, s')
    ensures Inv(s') && Placed(s') && (Tidy(s) && NothingLost(steps) ==> Tidy(s'))
    decreases |steps|
  {
    if steps != [] {
      StepKeepsInv(s, steps[0]);
      StepKeepsPlaces(s, steps[0]);
      if Tidy(s) && NothingLost(steps) {
        assert steps[0] in steps && forall step <- steps[1..] :: step in steps;
        StepKeepsTidy(s, steps[0]);
      }
      RunKeepsPlaces(Next(s, steps[0]), steps[1..], s');
    }
  }

  // ---------------------------------------------------------------------------
  // Nothing is kept
  // ---------------------------------------------------------------------------

  /** Some action that is on its way carries payload `k`. */
  ghost predicate OnItsWay(s: State, k: nat) {
    exists a: nat :: a < |s.acts| && s.acts[a].data == Some(k) && (Holding(s.phase, a) || a in s.line || s.performing == Some(a))
  }

  predicate InProducersHand(s: State, k: nat) {
    !s.phase.Idle? && s.phase.slot == k
  }

  lemma SpareIffUncarried(s: State, k: nat)
    requires Inv(s) && Placed(s) && Tidy(s) && k < |s.dataPool.items|
    ensures ObjectPool.Available(s.dataPool, k) <==> !InProducersHand(s, k) && !OnItsWay(s, k)
  {
    assert CountIs(s.dataPool.items[k], s.uses[k]);
    if s.uses[k].holder.Some? {
      var a := s.uses[k].holder.value;
      assert s.acts[a].data == Some(k) && Busy(s.acts[a].place);
    }
    if OnItsWay(s, k) {
      var a: nat :| a < |s.acts| && s.acts[a].data == Some(k) && (Holding(s.phase, a) || a in s.line || s.performing == Some(a));
      assert s.uses[k].holder == Some(a);
    }
  }

  /** In every run in which nothing was cancelled and no update refused, a payload can be handed out again exactly
      when neither the producer has it in hand nor an action that is queued or being performed carries it; and a
      pooled action exactly when it is in nobody's hand, in no line, and let go of after it was performed. */
  lemma SpareUnlessInUse(slots: nat, actions: nat, capacity: nat, steps: seq<Step>, s: State, k: nat)
    requires slots > 0 && Run(Initial(slots, actions, capacity), steps, s)
    ensures NothingLost(steps) && k < |s.dataPool.items| ==>
      (ObjectPool.Available(s.dataPool, k) <==> !InProducersHand(s, k) && !OnItsWay(s, k))
    ensures k < |s.actPool.items| ==> k < |s.acts|
    ensures k < |s.actPool.items| ==>
      (ObjectPool.Available(s.actPool, k) <==> !Holding(s.phase, k) && k !in s.line && s.performing != Some(k) && s.acts[k].place != Shed)
  {
    DeliveryRuns.InitialInv(slots, actions, capacity);
    RunKeepsPlaces(Initial(slots, actions, capacity), steps, s);
    if NothingLost(steps) && k < |s.dataPool.items| {
      SpareIffUncarried(s, k);
    }
    if k < |s.actPool.items| {
      assert k in s.line ==> s.acts[k].place == InLine;
    }
  }

  // ---------------------------------------------------------------------------
  // Carrying an update through
  // ---------------------------------------------------------------------------

  lemma RunCons(s: State, step: Step, rest: seq<Step>, s': State) returns (steps: seq<Step>)
    requires Enabled(s, step) && Run(Next(s, step), rest, s')
    ensures Run(s, steps, s') && steps == [step] + rest
  {
    steps := [step] + rest;
    assert steps[1..] == rest;
  }

  lemma {:induction false} RunAppend(s: State, a: seq<Step>, t: State, b: seq<Step>, u: State)
    requires Run(s, a, t) && Run(t, b, u)
    ensures Run(s, a + b, u)
    decreases |a|
  {
    if a == [] {
      assert a + b == b;
    } else {
      RunAppend(Next(s, a[0]), a[1..], t, b, u);
      var all, rest := a + b, a[1..] + b;
      assert all != [] && all[0] == a[0] && all[1..] == rest;
    }
  }

  /** The update has been queued behind all others. */
  ghost predicate Queued(s: State, bytes: Bytes, t: State) {
    && t.phase.Idle? && t.running && t.stopped == s.stopped && t.raised == s.raised + [bytes] && t.delivered == s.delivered
    && |t.line| == |s.line| + 1 && t.line[..|s.line|] == s.line && t.cut == s.cut && t.performing == s.performing
  }

  lemma EquipAndQueue(s: State, pooled: Option<nat>) returns (steps: seq<Step>, t: State)
    requires Inv(s) && s.phase.Written? && s.running && Enabled(s, TakeAction(pooled))
    ensures Run(s, steps, t) && Inv(t) && t.phase.Idle? && t.running && t.stopped == s.stopped && t.raised == s.raised
    ensures t.delivered == s.delivered && t.cut == s.cut && t.performing == s.performing
    ensures t.line == s.line + [if pooled.Some? then pooled.value else |s.acts|]
  {
    StepKeepsInv(s, TakeAction(pooled));
    var a := Next(s, TakeAction(pooled));
    SetDataStorage(a);
    StepKeepsInv(a, SetData);
    var b := Next(a, SetData);
    StepKeepsInv(b, Admit);
    var c := Next(b, Admit);
    LetGoStorage(c);
    StepKeepsInv(c, Enqueue);
    t := Next(c, Enqueue);
    steps := RunCons(c, Enqueue, [], t);
    steps := RunCons(b, Admit, steps, t);
    steps := RunCons(a, SetData, steps, t);
    steps := RunCons(s, TakeAction(pooled), steps, t);
  }

  /** Whatever spare payload the search has found or made, and whatever spare action, or none: an update raised
      while the context runs gets queued, behind all that is. */
  lemma UpdateGoesThrough(s: State, bytes: Bytes, grow: bool, k: nat, pooled: Option<nat>) returns (steps: seq<Step>, t: State)
    requires DeliveryRuns.Reachable(s) && s.running && Enabled(s, Raise(bytes, grow, k))
    requires pooled.Some? ==> pooled.value < |s.acts| && CanGive(s.actPool, false, pooled.value)
    ensures Run(s, steps, t) && Inv(t) && Queued(s, bytes, t)
    ensures pooled.Some? ==> t.line[|s.line|] == pooled.value
  {
    DeliveryRuns.ReachableInv(s);
    StepKeepsInv(s, Raise(bytes, grow, k));
    var a := Next(s, Raise(bytes, grow, k));
    StepKeepsInv(a, Write);
    var b := Next(a, Write);
    steps, t := EquipAndQueue(b, pooled);
    steps := RunCons(a, Write, steps, t);
    steps := RunCons(s, Raise(bytes, grow, k), steps, t);
  }

  // ---------------------------------------------------------------------------
  // Delivering
  // ---------------------------------------------------------------------------

  predicate OfWorker(step: Step) {
    step.Swap? || step.Begin? || step.End?
  }

  ghost predicate WorkerOnly(steps: seq<Step>) {
    forall step <- steps :: OfWorker(step)
  }

  lemma BeginHolds(s: State)
    requires Inv(s) && s.performing.None? && !s.stopped && 0 < s.cut
    ensures Enabled(s, Begin) && s.line != []
    ensures var t := Next(s, Begin);
      && Inv(t) && t.performing.Some? && t.line == s.line[1..] && |t.delivered| == |s.delivered| + 1
      && t.raised == s.raised && t.phase == s.phase && t.running == s.running && t.stopped == s.stopped
  {
    BeginKeepsInv(s);
  }

  lemma EndHolds(s: State)
    requires Inv(s) && s.performing.Some?
    ensures Enabled(s, End)
    ensures var t := Next(s, End);
      && Inv(t) && t.performing.None? && t.line == s.line && t.delivered == s.delivered
      && t.raised == s.raised && t.phase == s.phase && t.running == s.running && t.stopped == s.stopped
  {
    EndKeepsInv(s);
  }

  lemma ServeBatchHead(s: State) returns (steps: seq<Step>, t: State)
    requires Inv(s) && s.performing.None? && !s.stopped && 0 < s.cut
    ensures Run(s, steps, t) && WorkerOnly(steps) && Inv(t) && t.performing.None? && !t.stopped
    ensures s.line != [] && t.line == s.line[1..] && t.raised == s.raised && t.phase == s.phase && t.running == s.running
    ensures |t.delivered| == |s.delivered| + 1
  {
    BeginHolds(s);
    var b := Next(s, Begin);
    EndHolds(b);
    t := Next(b, End);
    steps := RunCons(b, End, [], t);
    steps := RunCons(s, Begin, steps, t);
  }

  lemma SwapHolds(s: State)
    requires Inv(s) && s.performing.None? && !s.stopped && s.cut == 0
    ensures Enabled(s, Swap) && Inv(Next(s, Swap)) && Next(s, Swap) == s.(cut := |s.line|)
  {
    DisposalKeepsInv(s, Swap);
  }

  lemma ServeHead(s: State) returns (steps: seq<Step>, t: State)
    requires Inv(s) && s.performing.None? && !s.stopped && s.line != []
    ensures Run(s, steps, t) && WorkerOnly(steps) && Inv(t) && t.performing.None? && !t.stopped
    ensures t.line == s.line[1..] && t.raised == s.raised && t.phase == s.phase && t.running == s.running
    ensures |t.delivered| == |s.delivered| + 1
  {
    if s.cut == 0 {
      SwapHolds(s);
      steps, t := ServeBatchHead(s.(cut := |s.line|));
      steps := RunCons(s, Swap, steps, t);
    } else {
      steps, t := ServeBatchHead(s);
    }
  }

  lemma {:induction false} ServeLine(s: State) returns (steps: seq<Step>, t: State)
    requires Inv(s) && s.performing.None? && !s.stopped
    ensures Run(s, steps, t) && WorkerOnly(steps) && Inv(t) && t.performing.None? && !t.stopped
    ensures t.line == [] && t.raised == s.raised && t.phase == s.phase && t.running == s.running
    ensures |t.delivered| == |s.delivered| + |s.line|
    decreases |s.line|
  {
    if s.line == [] {
      steps, t := [], s;
    } else {
      var a, u := ServeHead(s);
      var b;
      b, t := ServeLine(u);
      RunAppend(s, a, u, b, t);
      steps := a + b;
    }
  }

  lemma EndCurrent(s: State) returns (steps: seq<Step>, t: State)
    requires Inv(s)
    ensures Run(s, steps, t) && WorkerOnly(steps) && Inv(t) && t.performing.None?
    ensures t.line == s.line && t.raised == s.raised && t.phase == s.phase && t.running == s.running && t.stopped == s.stopped
    ensures t.delivered == s.delivered
  {
    if s.performing.Some? {
      EndHolds(s);
      t := Next(s, End);
      steps := RunCons(s, End, [], t);
    } else {
      steps, t := [], s;
    }
  }

  lemma DeliverAll(s: State) returns (steps: seq<Step>, t: State)
    requires Inv(s) && s.running
    ensures Run(s, steps, t) && WorkerOnly(steps) && Inv(t) && t.line == [] && t.performing.None? && t.running
    ensures t.raised == s.raised && t.phase == s.phase
  {
    var first, a := EndCurrent(s);
    var rest;
    StoppedOrRunning(s);
    rest, t := ServeLine(a);
    RunAppend(s, first, a, rest, t);
    steps := first + rest;
  }

  /** From every state of every run in which the context has not been disposed, the worker alone can deliver all
      that has been queued: with no update half raised, everything raised is delivered then. */
  lemma AllIsDelivered(s: State) returns (steps: seq<Step>, t: State)
    requires DeliveryRuns.Reachable(s) && s.running
    ensures Run(s, steps, t) && WorkerOnly(steps) && Inv(t) && t.line == [] && t.performing.None? && t.running
    ensures t.raised == s.raised && t.phase == s.phase && (s.phase.Idle? ==> t.delivered == s.raised)
    ensures !s.phase.Idle? ==> s.raised != [] && t.delivered == s.raised[..|s.raised| - 1]
  {
    DeliveryRuns.ReachableInv(s);
    steps, t := DeliverAll(s);
    CaughtUp(t);
  }

  lemma StoppedOrRunning(s: State)
    requires Inv(s) && s.running
    ensures !s.stopped
  {
  }

  /** With nothing in line what was raised was delivered, but for an update in the producer's hands. */
  lemma CaughtUp(s: State)
    requires Inv(s) && s.running && s.line == []
    ensures s.phase.Idle? ==> s.delivered == s.raised
    ensures !s.phase.Idle? ==> s.raised != [] && s.delivered == s.raised[..|s.raised| - 1]
  {
  }

  // ---------------------------------------------------------------------------
  // Coming to rest
  // ---------------------------------------------------------------------------

  function Sheds(acts: seq<Act>): set<nat> {
    set a: nat | a < |acts| && acts[a].place == Shed
  }

  lemma DropOne(s: State, a: nat)
    requires Inv(s) && Placed(s) && a in Sheds(s.acts)
    ensures Enabled(s, DropRef(a))
    ensures var t := Next(s, DropRef(a));
      && Inv(t) && Placed(t) && Sheds(t.acts) == Sheds(s.acts) - {a}
      && t.line == s.line && t.performing == s.performing && t.phase == s.phase && t.delivered == s.delivered && t.raised == s.raised
  {
    DropKeepsInv(s, a);
    DropKeepsPlaces(s, a);
    DropLetsGo(s, a);
    var t := Next(s, DropRef(a));
    assert SameActionsBut(s, t, a);
    ShedsShrink(s.acts, t.acts, a);
    DropKeepsFlow(s, a);
  }

  lemma ShedsShrink(acts: seq<Act>, acts': seq<Act>, a: nat)
    requires a < |acts| == |acts'| && acts[a].place == Shed && acts'[a].place != Shed
    requires forall b :: 0 <= b < |acts| && b != a ==> acts'[b] == acts[b]
    ensures Sheds(acts') == Sheds(acts) - {a}
  {
  }

  lemma DropKeepsFlow(s: State, a: nat)
    requires Enabled(s, DropRef(a))
    ensures var t := Next(s, DropRef(a));
      t.line == s.line && t.performing == s.performing && t.phase == s.phase && t.delivered == s.delivered && t.raised == s.raised
  {
  }

  lemma {:induction false} DropAll(s: State) returns (steps: seq<Step>, t: State)
    requires Inv(s) && Placed(s)
    ensures Run(s, steps, t) && (forall step <- steps :: step.DropRef?) && Inv(t) && Placed(t) && Sheds(t.acts) == {}
    ensures t.line == s.line && t.performing == s.performing && t.phase == s.phase && t.delivered == s.delivered && t.raised == s.raised
    decreases |Sheds(s.acts)|
  {
    if Sheds(s.acts) == {} {
      steps, t := [], s;
    } else {
      var a :| a in Sheds(s.acts);
      DropOne(s, a);
      var rest;
      rest, t := DropAll(Next(s, DropRef(a)));
      steps := RunCons(s, DropRef(a), rest, t);
    }
  }

  /** Every pooled action is spare, and every payload. */
  ghost predicate AllSpare(s: State) {
    && (forall a :: 0 <= a < |s.actPool.items| ==> ObjectPool.Available(s.actPool, a))
    && (forall k :: 0 <= k < |s.dataPool.items| ==> ObjectPool.Available(s.dataPool, k))
  }

  /** In every run in which nothing was cancelled and no update refused, whenever no update is half raised: the
      worker can deliver everything and let go of what it has performed, and then every payload and every
      pooled action is spare again. */
  lemma ComesToRest(slots: nat, actions: nat, capacity: nat, before: seq<Step>, s: State) returns (steps: seq<Step>, t: State)
    requires slots > 0 && Run(Initial(slots, actions, capacity), before, s) && NothingLost(before) && s.running && s.phase.Idle?
    ensures Run(s, steps, t) && (forall step <- steps :: OfWorker(step) || step.DropRef?)
    ensures t.delivered == s.raised && AllSpare(t)
  {
    DeliveryRuns.InitialInv(slots, actions, capacity);
    RunKeepsPlaces(Initial(slots, actions, capacity), before, s);
    var a, u := DeliverAll(s);
    CaughtUp(u);
    LosesNothing(a);
    RunKeepsPlaces(s, a, u);
    var b;
    b, t := DropAll(u);
    LosesNothing(b);
    RunKeepsPlaces(u, b, t);
    RunAppend(s, a, u, b, t);
    steps := a + b;
    RestIsSpare(t);
  }

  lemma LosesNothing(steps: seq<Step>)
    requires forall step <- steps :: OfWorker(step) || step.DropRef?
    ensures NothingLost(steps)
  {
  }

  lemma RestIsSpare(s: State)
    requires Inv(s) && Placed(s) && Tidy(s) && s.line == [] && s.performing.None? && s.phase.Idle? && Sheds(s.acts) == {}
    ensures AllSpare(s)
  {
    forall k | 0 <= k < |s.dataPool.items| ensures ObjectPool.Available(s.dataPool, k) {
      SpareIffUncarried(s, k);
    }
    forall a | 0 <= a < |s.actPool.items| ensures ObjectPool.Available(s.actPool, a) {
      assert a !in Sheds(s.acts);
    }
  }
}
