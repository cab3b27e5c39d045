/**
 The delivery path on a dispatcher's action queue.

 The delivery machine has a line of its own; here every step of the action queue is
 matched by steps of that machine, so what holds of the line's deliveries holds of
 deliveries through the real queue, with its batches, suspension and both ways to
 dispose.

 The queue is shared: other subscriptions, other threads and `sync` have their actions
 accepted, performed and cancelled among those of the one subscription looked at here.
 */
module DeliveryOnQueue {
  import Q = ActionQueue
  import opened Options
  import D = Delivery
  import DeliverySteps
  import DeliveryRuns

  /** `own` says of every ticket whether the subscription's producer has had it accepted. */
  datatype State = State(q: Q.Core, own: seq<bool>, d: D.State)

  /** A step of the producer; a step of the queue; somebody else asks the context to take an action. */
  datatype Move = Produce(production: D.Step) | Dispatch(step: Q.Step) | Foreign(action: nat)

  function Initial(suspendable: bool, suspended: bool, slots: nat, actions: nat, capacity: nat): State {
    State(Q.Initial(suspendable, suspended), [], D.Initial(slots, actions, capacity))
  }

  predicate Owns(own: seq<bool>, ticket: nat) {
    ticket < |own| && own[ticket]
  }

  /** The subscription's own actions among those behind the given tickets, in their order. */
  function Mine(own: seq<bool>, accepted: seq<nat>, tickets: seq<nat>): seq<nat> {
    if tickets == [] then []
    else
      (if Owns(own, tickets[0]) && tickets[0] < |accepted| then [accepted[tickets[0]]] else [])
      + Mine(own, accepted, tickets[1..])
  }

  /** Cancels `n` actions, always the first one behind the batch. */
  function Cancels(n: nat, at: nat): (r: seq<D.Step>)
    ensures |r| == n
  {
    if n == 0 then [] else [D.Cancel(at)] + Cancels(n - 1, at)
  }

  /** How many of the subscription's own actions wait in the queue. */
  function Waiting(s: State): nat {
    |Mine(s.own, s.q.accepted, s.q.queue)|
  }

  /** The next action of the batch is one of the subscription's own. */
  predicate NextIsOwn(s: State) {
    s.q.batch != [] && Owns(s.own, s.q.batch[0])
  }

  predicate CurrentIsOwn(s: State) {
    s.q.current.Action? && Owns(s.own, s.q.current.ticket)
  }

  /** What a step of the queue means for deliveries. */
  function Follow(s: State, step: Q.Step): seq<D.Step> {
    match step
    case AddBegin(_) => [D.Admit]
    case AddCommit => if s.d.phase.Admitted? then [D.Enqueue] else []
    case DisposeOutside => [D.Dispose]
    case DisposeInside => [D.Dispose, D.Stop]
    case JoinAndCancel => [D.Stop] + Cancels(Waiting(s), s.d.cut)
    case CancelInside => Cancels(Waiting(s), s.d.cut)
    case Swap(_) => if s.q.suspended then [] else [D.Swap]
    case ActionBegin => if NextIsOwn(s) then [D.Begin] else []
    case ActionEnd => if CurrentIsOwn(s) then [D.End] else []
    case ActionCancel => if NextIsOwn(s) then [D.Cancel(0)] else []
    case _ => []
  }

  function Applied(d: D.State, steps: seq<D.Step>): D.State
    decreases |steps|
  {
    if steps == [] || !D.Enabled(d, steps[0]) then d else Applied(D.Next(d, steps[0]), steps[1..])
  }

  /** The steps of the producer, and dropping references to actions that are through. */
  predicate Producing(step: D.Step) {
    step.Raise? || step.Write? || step.TakeAction? || step.SetData? || step.Reject? || step.DropRef?
  }

  /** The producer asks the context to take the action it has ready, and no other. */
  predicate Allowed(s: State, move: Move) {
    match move
    case Produce(step) => Producing(step) && D.Enabled(s.d, step)
    case Dispatch(step) => Q.Enabled(s.q, step) && (step.AddBegin? ==> s.d.phase.Armed? && s.d.phase.act == step.action)
    case Foreign(action) => Q.Enabled(s.q, Q.AddBegin(action))
  }

  function Dispatched(s: State, step: Q.Step): State
    requires Q.Enabled(s.q, step)
  {
    State(Q.Next(s.q, step), if step.AddCommit? then s.own + [s.d.phase.Admitted?] else s.own, Applied(s.d, Follow(s, step)))
  }

  function Next(s: State, move: Move): State
    requires Allowed(s, move)
  {
    match move
    case Produce(step) => s.(d := D.Next(s.d, step))
    case Dispatch(step) => Dispatched(s, step)
    case Foreign(action) => s.(q := Q.Next(s.q, Q.AddBegin(action)))
  }

  ghost predicate Run(s: State, moves: seq<Move>, s': State)
    decreases |moves|
  {
    if moves == [] then s == s' else Allowed(s, moves[0]) && Run(Next(s, moves[0]), moves[1..], s')
  }

  // ---- the subscription's own actions -----------------------------------------

  /** Every ticket in a list has been handed out. */
  predicate Known(q: Q.Core, tickets: seq<nat>) {
    forall i :: 0 <= i < |tickets| ==> tickets[i] < |q.accepted|
  }

  lemma TicketsKnown(q: Q.Core)
    requires Q.Inv(q)
    ensures Known(q, q.batch) && Known(q, q.queue) && Known(q, q.invoked)
    ensures q.current.Action? ==> q.current.ticket < |q.accepted|
  {
  }

  lemma {:induction false} MineAppend(own: seq<bool>, accepted: seq<nat>, a: seq<nat>, b: seq<nat>)
    ensures Mine(own, accepted, a + b) == Mine(own, accepted, a) + Mine(own, accepted, b)
  {
    if a == [] {
      assert a + b == b;
    } else {
      var all, rest := a + b, a[1..] + b;
      var first := if Owns(own, a[0]) && a[0] < |accepted| then [accepted[a[0]]] else [];
      MineAppend(own, accepted, a[1..], b);
      assert all[1..] == rest && all[0] == a[0];
      assert Mine(own, accepted, all) == first + Mine(own, accepted, rest);
    }
  }

  lemma MineOne(own: seq<bool>, accepted: seq<nat>, ticket: nat)
    ensures Mine(own, accepted, [ticket]) == if Owns(own, ticket) && ticket < |accepted| then [accepted[ticket]] else []
  {
    assert [ticket][1..] == [];
  }

  /** A list shows what it showed when one more ticket is handed out. */
  lemma {:induction false} MineKept(q: Q.Core, own: seq<bool>, tickets: seq<nat>, action: nat, mine: bool)
    requires Known(q, tickets) && |own| == |q.accepted|
    ensures Mine(own + [mine], q.accepted + [action], tickets) == Mine(own, q.accepted, tickets)
  {
    if tickets != [] {
      MineKept(q, own, tickets[1..], action, mine);
    }
  }

  lemma MineAccepted(q: Q.Core, own: seq<bool>, tickets: seq<nat>, action: nat, mine: bool)
    requires Known(q, tickets) && |own| == |q.accepted|
    ensures Mine(own + [mine], q.accepted + [action], tickets + [|q.accepted|]) ==
              Mine(own, q.accepted, tickets) + if mine then [action] else []
  {
    MineAppend(own + [mine], q.accepted + [action], tickets, [|q.accepted|]);
    MineKept(q, own, tickets, action, mine);
    MineOne(own + [mine], q.accepted + [action], |q.accepted|);
  }

  // ---- line and queue --------------------------------------------------------

  /** The line is the subscription's part of the batch followed by its part of the queue, action for action. */
  ghost predicate LineAgrees(q: Q.Core, own: seq<bool>, d: D.State) {
    && d.cut == |Mine(own, q.accepted, q.batch)|
    && d.line == Mine(own, q.accepted, q.batch) + Mine(own, q.accepted, q.queue)
    && |d.delivered| == |Mine(own, q.accepted, q.invoked)|
  }

  ghost predicate FlagsAgree(q: Q.Core, own: seq<bool>, d: D.State) {
    && |own| == |q.accepted|
    && q.running == d.running
    && (d.phase.Admitted? ==> q.lock == Q.Adding(d.phase.act))
    && (d.stopped <==> q.stopper || q.disposer == Q.Disposed)
  }

  ghost predicate WorkerAgrees(q: Q.Core, own: seq<bool>, d: D.State) {
    d.performing ==
      if q.current.Action? && Owns(own, q.current.ticket) && q.current.ticket < |q.accepted| then Some(q.accepted[q.current.ticket]) else None
  }

  ghost predicate Agrees(s: State) {
    LineAgrees(s.q, s.own, s.d) && FlagsAgree(s.q, s.own, s.d) && WorkerAgrees(s.q, s.own, s.d)
  }

  // ---- matching --------------------------------------------------------------

  lemma ApplyNone(d: D.State)
    ensures Applied(d, []) == d
  {
  }

  lemma ApplyOne(d: D.State, step: D.Step)
    requires D.Enabled(d, step)
    ensures Applied(d, [step]) == D.Next(d, step)
  {
    assert [step][1..] == [];
  }

  lemma ApplyTwo(d: D.State, a: D.Step, b: D.Step)
    requires D.Enabled(d, a) && D.Enabled(D.Next(d, a), b)
    ensures Applied(d, [a, b]) == D.Next(D.Next(d, a), b)
  {
    assert [a, b][1..] == [b];
    ApplyOne(D.Next(d, a), b);
  }

  lemma {:induction false} AppliedKeepsInv(d: D.State, steps: seq<D.Step>)
    requires D.Inv(d)
    ensures D.Inv(Applied(d, steps))
    decreases |steps|
  {
    if steps != [] && D.Enabled(d, steps[0]) {
      DeliverySteps.StepKeepsInv(d, steps[0]);
      AppliedKeepsInv(D.Next(d, steps[0]), steps[1..]);
    }
  }

  lemma CancelOne(d: D.State)
    requires D.Inv(d) && d.stopped && d.cut < |d.line|
    ensures D.Enabled(d, D.Cancel(d.cut)) && D.Inv(D.Next(d, D.Cancel(d.cut)))
    ensures var t := D.Next(d, D.Cancel(d.cut));
      && |t.line| == |d.line| - 1 && t.line[..d.cut] == d.line[..d.cut] && t.cut == d.cut && t.running == d.running && t.phase == d.phase
      && t.performing == d.performing && t.delivered == d.delivered && t.raised == d.raised && t.stopped
  {
    assert d.line[d.cut] < |d.acts|;
    DeliverySteps.CancelKeepsInv(d, d.cut);
  }

  /** Nothing but the line gets shorter: the batch is what is left of it. */
  lemma {:induction false} CancelsRun(d: D.State, n: nat)
    requires D.Inv(d) && d.stopped && |d.line| == d.cut + n
    ensures var t := Applied(d, Cancels(n, d.cut));
      && t.line == d.line[..d.cut] && t.cut == d.cut && t.running == d.running && t.phase == d.phase && t.performing == d.performing
      && t.delivered == d.delivered && t.raised == d.raised && t.stopped
    decreases n
  {
    if n > 0 {
      var at := d.cut;
      var steps := Cancels(n, at);
      assert steps[0] == D.Cancel(at) && steps[1..] == Cancels(n - 1, at);
      CancelOne(d);
      CancelsRun(D.Next(d, D.Cancel(at)), n - 1);
    }
  }

  lemma AddCommitLine(q: Q.Core, own: seq<bool>, d: D.State, d': D.State, mine: bool)
    requires LineAgrees(q, own, d) && |own| == |q.accepted| && q.lock.Adding?
    requires Known(q, q.batch) && Known(q, q.queue) && Known(q, q.invoked)
    requires d'.cut == d.cut && d'.delivered == d.delivered && d'.line == d.line + if mine then [q.lock.action] else []
    ensures LineAgrees(Q.Next(q, Q.AddCommit), own + [mine], d')
  {
    var a := q.lock.action;
    MineKept(q, own, q.batch, a, mine);
    MineKept(q, own, q.invoked, a, mine);
    MineAccepted(q, own, q.queue, a, mine);
  }

  lemma AddCommitFollows(s: State)
    requires Q.Inv(s.q) && D.Inv(s.d) && Agrees(s) && s.q.lock.Adding?
    ensures Agrees(Dispatched(s, Q.AddCommit))
  {
    TicketsKnown(s.q);
    var t := Dispatched(s, Q.AddCommit);
    if s.d.phase.Admitted? {
      DeliverySteps.LetGoStorage(s.d);
      ApplyOne(s.d, D.Enqueue);
    } else {
      ApplyNone(s.d);
    }
    AddCommitLine(s.q, s.own, s.d, t.d, s.d.phase.Admitted?);
  }

  lemma DisposingFollows(s: State, step: Q.Step)
    requires Q.Inv(s.q) && Agrees(s) && Q.Enabled(s.q, step) && (step.DisposeOutside? || step.DisposeInside?)
    ensures Agrees(Dispatched(s, step))
  {
    if step.DisposeOutside? {
      ApplyOne(s.d, D.Dispose);
    } else {
      ApplyTwo(s.d, D.Dispose, D.Stop);
    }
  }

  /** Cancelling the queue leaves the batch. */
  lemma QueueCancelled(q: Q.Core, own: seq<bool>, d: D.State)
    requires D.Inv(d) && d.stopped && LineAgrees(q, own, d)
    ensures var t := Applied(d, Cancels(|Mine(own, q.accepted, q.queue)|, d.cut));
      && LineAgrees(q.(queue := []), own, t)
      && t.running == d.running && t.phase == d.phase && t.performing == d.performing && t.stopped
  {
    CancelsRun(d, |Mine(own, q.accepted, q.queue)|);
    assert d.line[..d.cut] == Mine(own, q.accepted, q.batch) + [];
  }

  lemma CancelInsideFollows(s: State)
    requires Q.Inv(s.q) && D.Inv(s.d) && Agrees(s) && Q.Enabled(s.q, Q.CancelInside)
    ensures Agrees(Dispatched(s, Q.CancelInside))
  {
    QueueCancelled(s.q, s.own, s.d);
  }

  lemma JoinApplies(s: State)
    requires D.Enabled(s.d, D.Stop) && Q.Enabled(s.q, Q.JoinAndCancel)
    ensures Dispatched(s, Q.JoinAndCancel).d == Applied(D.Next(s.d, D.Stop), Cancels(Waiting(s), s.d.cut))
  {
    var steps := Follow(s, Q.JoinAndCancel);
    assert steps[0] == D.Stop && steps[1..] == Cancels(Waiting(s), s.d.cut);
  }

  lemma StopHolds(s: State)
    requires Q.Inv(s.q) && D.Inv(s.d) && Agrees(s) && Q.Enabled(s.q, Q.JoinAndCancel)
    ensures D.Enabled(s.d, D.Stop) && D.Inv(D.Next(s.d, D.Stop)) && LineAgrees(s.q, s.own, D.Next(s.d, D.Stop))
  {
    DeliverySteps.StepKeepsInv(s.d, D.Stop);
  }

  lemma JoinFollows(s: State)
    requires Q.Inv(s.q) && D.Inv(s.d) && Agrees(s) && Q.Enabled(s.q, Q.JoinAndCancel)
    ensures Agrees(Dispatched(s, Q.JoinAndCancel))
  {
    StopHolds(s);
    JoinApplies(s);
    QueueCancelled(s.q, s.own, D.Next(s.d, D.Stop));
  }

  lemma SwapFollows(s: State, timerRound: bool)
    requires Q.Inv(s.q) && D.Inv(s.d) && Agrees(s) && Q.Enabled(s.q, Q.Swap(timerRound))
    ensures Agrees(Dispatched(s, Q.Swap(timerRound)))
  {
    if s.q.suspended {
      ApplyNone(s.d);
    } else {
      ApplyOne(s.d, D.Swap);
      var waiting := Mine(s.own, s.q.accepted, s.q.queue);
      assert [] + waiting == waiting + [];
    }
  }

  /** The head of the batch goes, and if it is the subscription's own so does the head of the line. */
  lemma HeadGone(q: Q.Core, own: seq<bool>)
    requires q.batch != [] && Known(q, q.batch)
    ensures var line := Mine(own, q.accepted, q.batch) + Mine(own, q.accepted, q.queue);
      var rest := Mine(own, q.accepted, q.batch[1..]) + Mine(own, q.accepted, q.queue);
      if Owns(own, q.batch[0]) then
        line != [] && line[0] == q.accepted[q.batch[0]] && line[1..] == rest && line[..0] + line[1..] == rest
        && |Mine(own, q.accepted, q.batch)| == |Mine(own, q.accepted, q.batch[1..])| + 1
      else line == rest && Mine(own, q.accepted, q.batch) == Mine(own, q.accepted, q.batch[1..])
  {
    if Owns(own, q.batch[0]) {
      assert Mine(own, q.accepted, q.batch)[1..] == Mine(own, q.accepted, q.batch[1..]);
    }
  }

  lemma ActionCancelFollows(s: State)
    requires Q.Inv(s.q) && D.Inv(s.d) && Agrees(s) && Q.Enabled(s.q, Q.ActionCancel)
    ensures Agrees(Dispatched(s, Q.ActionCancel))
  {
    TicketsKnown(s.q);
    HeadGone(s.q, s.own);
    if NextIsOwn(s) {
      assert s.d.line[0] < |s.d.acts|;
      ApplyOne(s.d, D.Cancel(0));
    } else {
      ApplyNone(s.d);
    }
  }

  lemma BeginLine(q: Q.Core, own: seq<bool>, d: D.State, d': D.State)
    requires LineAgrees(q, own, d) && Known(q, q.batch) && q.batch != [] && Q.Enabled(q, Q.ActionBegin)
    requires if Owns(own, q.batch[0]) then d.line != [] && d'.line == d.line[1..] && d'.cut == d.cut - 1 && |d'.delivered| == |d.delivered| + 1
             else d' == d
    ensures LineAgrees(Q.Next(q, Q.ActionBegin), own, d')
  {
    HeadGone(q, own);
    MineAppend(own, q.accepted, q.invoked, [q.batch[0]]);
    MineOne(own, q.accepted, q.batch[0]);
  }

  lemma ActionBeginFollows(s: State)
    requires Q.Inv(s.q) && D.Inv(s.d) && Agrees(s) && Q.Enabled(s.q, Q.ActionBegin)
    ensures Agrees(Dispatched(s, Q.ActionBegin))
  {
    TicketsKnown(s.q);
    HeadGone(s.q, s.own);
    if NextIsOwn(s) {
      DeliverySteps.BeginLine(s.d);
      ApplyOne(s.d, D.Begin);
    } else {
      ApplyNone(s.d);
    }
    BeginLine(s.q, s.own, s.d, Dispatched(s, Q.ActionBegin).d);
  }

  lemma ActionEndFollows(s: State)
    requires Q.Inv(s.q) && D.Inv(s.d) && Agrees(s) && Q.Enabled(s.q, Q.ActionEnd)
    ensures Agrees(Dispatched(s, Q.ActionEnd))
  {
    TicketsKnown(s.q);
    if CurrentIsOwn(s) {
      DeliverySteps.EndStorage(s.d);
      ApplyOne(s.d, D.End);
    } else {
      ApplyNone(s.d);
    }
  }

  lemma AddBeginFollows(s: State, action: nat)
    requires Agrees(s) && Allowed(s, Dispatch(Q.AddBegin(action)))
    ensures Agrees(Dispatched(s, Q.AddBegin(action)))
  {
    ApplyOne(s.d, D.Admit);
  }

  /** Each step of the queue is matched: afterwards line and queue agree again. */
  lemma StepFollows(s: State, step: Q.Step)
    requires Q.Inv(s.q) && D.Inv(s.d) && Agrees(s) && Allowed(s, Dispatch(step))
    ensures Agrees(Dispatched(s, step))
  {
    match step
    case AddBegin(a) => AddBeginFollows(s, a);
    case AddCommit => AddCommitFollows(s);
    case DisposeOutside => DisposingFollows(s, step);
    case DisposeInside => DisposingFollows(s, step);
    case JoinAndCancel => JoinFollows(s);
    case CancelInside => CancelInsideFollows(s);
    case Swap(timerRound) => SwapFollows(s, timerRound);
    case ActionBegin => ActionBeginFollows(s);
    case ActionEnd => ActionEndFollows(s);
    case ActionCancel => ActionCancelFollows(s);
    case _ => ApplyNone(s.d);
  }

  lemma ProducingAgrees(s: State, step: D.Step)
    requires Agrees(s) && Producing(step) && D.Enabled(s.d, step)
    ensures Agrees(s.(d := D.Next(s.d, step)))
  {
  }

  /** What holds of queue and deliveries together. */
  ghost predicate Together(s: State) {
    Q.Inv(s.q) && D.Inv(s.d) && Agrees(s)
  }

  lemma MoveKeepsTogether(s: State, move: Move)
    requires Together(s) && Allowed(s, move)
    ensures Together(Next(s, move))
  {
    match move
    case Produce(step) =>
      DeliverySteps.StepKeepsInv(s.d, step);
      ProducingAgrees(s, step);
    case Dispatch(step) =>
      Q.StepKeepsInv(s.q, step);
      AppliedKeepsInv(s.d, Follow(s, step));
      StepFollows(s, step);
    case Foreign(action) =>
      Q.StepKeepsInv(s.q, Q.AddBegin(action));
  }

  lemma QueueKeepsSuspendable(q: Q.Core, step: Q.Step)
    requires Q.Enabled(q, step)
    ensures Q.Next(q, step).suspendable == q.suspendable
  {
  }

  lemma MoveKeepsSuspendable(s: State, move: Move)
    requires Allowed(s, move)
    ensures Next(s, move).q.suspendable == s.q.suspendable
  {
    if move.Dispatch? {
      QueueKeepsSuspendable(s.q, move.step);
    }
  }

  lemma {:induction false} RunKeepsTogether(s: State, moves: seq<Move>, s': State)
    requires Together(s) && Run(s, moves, s')
    ensures Together(s') && s'.q.suspendable == s.q.suspendable
    decreases |moves|
  {
    if moves != [] {
      MoveKeepsTogether(s, moves[0]);
      MoveKeepsSuspendable(s, moves[0]);
      RunKeepsTogether(Next(s, moves[0]), moves[1..], s');
    }
  }

  lemma InitialTogether(suspendable: bool, suspended: bool, slots: nat, actions: nat, capacity: nat)
    requires slots > 0
    ensures Together(Initial(suspendable, suspended, slots, actions, capacity))
  {
    Q.InitialInv(suspendable, suspended);
    DeliveryRuns.InitialInv(slots, actions, capacity);
  }

  /** In every run of updates, queue, worker and pools together, whatever else the context is given to do: one
      delivery for each of the subscription's actions the worker has invoked, and the deliveries are a prefix
      of the updates raised, each with its bytes; the actions yet to deliver are the subscription's in the
      batch and then in the queue, in that order. */
  lemma DeliveredThroughQueue(suspendable: bool, suspended: bool, slots: nat, actions: nat, capacity: nat, moves: seq<Move>, s: State)
    requires slots > 0 && Run(Initial(suspendable, suspended, slots, actions, capacity), moves, s)
    ensures |s.own| == |s.q.accepted|
    ensures |s.d.delivered| == |Mine(s.own, s.q.accepted, s.q.invoked)| && s.d.delivered <= s.d.raised
    ensures s.d.line == Mine(s.own, s.q.accepted, s.q.batch) + Mine(s.own, s.q.accepted, s.q.queue)
  {
    InitialTogether(suspendable, suspended, slots, actions, capacity);
    RunKeepsTogether(Initial(suspendable, suspended, slots, actions, capacity), moves, s);
  }

  /** Disposing a context that cannot be suspended from another thread loses nothing it has accepted: when
      the worker has gone, every accepted action of the subscription has delivered its update. */
  lemma DisposeOutsideDeliversAll(suspended: bool, slots: nat, actions: nat, capacity: nat, moves: seq<Move>, s: State)
    requires slots > 0 && Run(Initial(false, suspended, slots, actions, capacity), moves, s)
    requires s.q.pc == Q.Stopped && !s.q.stopper
    ensures var n := |Mine(s.own, s.q.accepted, Q.Tickets(|s.q.accepted|))|;
      n <= |s.d.raised| && s.d.delivered == s.d.raised[..n]
  {
    InitialTogether(false, suspended, slots, actions, capacity);
    RunKeepsTogether(Initial(false, suspended, slots, actions, capacity), moves, s);
    assert s.q.cancelledQueue == [] && s.q.queue == [] && s.q.batch == [] && s.q.cancelledBatch == [];
    Q.LedgerIsWhole(s.q);
    assert s.q.invoked == Q.Tickets(|s.q.accepted|);
  }
}
