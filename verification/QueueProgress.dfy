/**
 What suspending, resuming and disposing a context do to the actions it has accepted:
 which stay in the queue, which can be run, and that a disposed context can finish.
 */
module QueueProgress {
  import opened ActionQueue

  // ---------------------------------------------------------------------------
  // Suspended
  // ---------------------------------------------------------------------------

  /** The tickets the worker has taken out of the queue. */
  function TakenOut(s: Core): nat {
    |s.invoked| + |s.cancelledBatch| + |s.batch|
  }

  lemma SuspendedStep(s: Core, step: Step)
    requires Inv(s) && Enabled(s, step) && s.suspended && !step.Resume?
    ensures Next(s, step).suspended && TakenOut(Next(s, step)) == TakenOut(s)
  {
  }

  lemma {:induction false} SuspendedRun(s: Core, steps: seq<Step>, s': Core)
    requires Inv(s) && Run(s, steps, s') && s.suspended && Resume !in steps
    ensures s'.suspended && TakenOut(s') == TakenOut(s)
    decreases |steps|
  {
    if steps != [] {
      StepKeepsInv(s, steps[0]);
      assert steps[0] in steps && forall step <- steps[1..] :: step in steps;
      SuspendedStep(s, steps[0]);
      SuspendedRun(Next(s, steps[0]), steps[1..], s');
    }
  }

  /** From the moment a context is suspended until it is resumed, the worker invokes none of the actions that are
      queued then or accepted later: those it may still invoke it has taken out of the queue already. */
  lemma SuspensionHoldsBack(s: Core, steps: seq<Step>, s': Core, t: nat)
    requires Reachable(s) && Enabled(s, Suspend) && Run(Next(s, Suspend), steps, s') && Resume !in steps
    requires t in s.queue || t >= |s.accepted|
    ensures s'.suspended && t !in s'.invoked
  {
    ReachableInv(s);
    StepKeepsInv(s, Suspend);
    SuspendedRun(Next(s, Suspend), steps, s');
    RunKeepsInv(Next(s, Suspend), steps, s');
    NotInvoked(s, s', t);
  }

  lemma NotInvoked(s: Core, s': Core, t: nat)
    requires Inv(s) && Inv(s') && TakenOut(s') == TakenOut(s) && (t in s.queue || t >= |s.accepted|)
    ensures t !in s'.invoked
  {
    if t in s.queue {
      var i :| 0 <= i < |s.queue| && s.queue[i] == t;
    }
    assert forall i :: 0 <= i < |s'.invoked| ==> s'.invoked[i] < TakenOut(s');
  }

  // ---------------------------------------------------------------------------
  // Accepting
  // ---------------------------------------------------------------------------

  /** The actions somebody has begun to add, in order. */
  function Added(steps: seq<Step>): seq<nat> {
    if steps == [] then [] else (if steps[0].AddBegin? then [steps[0].action] else []) + Added(steps[1..])
  }

  /** The accepted actions, and the one being added. */
  function AcceptedAndComing(s: Core): seq<nat> {
    s.accepted + if s.lock.Adding? then [s.lock.action] else []
  }

  lemma AcceptsOne(s: Core, step: Step)
    requires Enabled(s, step)
    ensures AcceptedAndComing(Next(s, step)) == AcceptedAndComing(s) + if step.AddBegin? then [step.action] else []
  {
  }

  lemma {:induction false} AcceptsWhatIsAdded(s: Core, steps: seq<Step>, s': Core)
    requires Run(s, steps, s')
    ensures AcceptedAndComing(s') == AcceptedAndComing(s) + Added(steps)
    decreases |steps|
  {
    if steps != [] {
      AcceptsOne(s, steps[0]);
      AcceptsWhatIsAdded(Next(s, steps[0]), steps[1..], s');
    }
  }

  /** In every run the accepted actions are those that were added, in the order of their adding. */
  lemma AcceptedByHistory(suspendable: bool, suspended: bool, steps: seq<Step>, s: Core)
    requires Run(Initial(suspendable, suspended), steps, s) && s.lock == Free
    ensures s.accepted == Added(steps)
  {
    AcceptsWhatIsAdded(Initial(suspendable, suspended), steps, s);
    assert AcceptedAndComing(s) == s.accepted + [] && AcceptedAndComing(Initial(suspendable, suspended)) == [] + [];
    assert [] + Added(steps) == Added(steps);
  }

  // ---------------------------------------------------------------------------
  // Running what was accepted
  // ---------------------------------------------------------------------------

  predicate OfWorker(step: Step) {
    step.Choose? || step.Swap? || step.ClientEnd? || step.TimersDone? || step.ActionBegin? || step.ActionEnd? || step.ActionCancel? || step.EndIteration?
  }

  ghost predicate WorkerOnly(steps: seq<Step>) {
    forall step <- steps :: OfWorker(step)
  }

  lemma Prepend(s: Core, step: Step, rest: seq<Step>, s': Core) returns (steps: seq<Step>)
    requires Enabled(s, step) && Run(Next(s, step), rest, s')
    ensures Run(s, steps, s') && (OfWorker(step) && WorkerOnly(rest) ==> WorkerOnly(steps))
  {
    steps := [step] + rest;
    assert steps[1..] == rest;
    assert forall x <- steps :: x == step || x in rest;
  }

  /** What the worker alone does changes neither what is accepted nor whether the context is suspended or running,
      and waits for no mutex that somebody else has. */
  ghost predicate SameOutside(s: Core, t: Core) {
    && t.accepted == s.accepted && t.running == s.running && t.suspended == s.suspended && t.suspendable == s.suspendable
    && t.lock == s.lock && t.stopper == s.stopper && t.disposer == s.disposer && t.cancelledQueue == s.cancelledQueue
  }

  lemma ServeAction(s: Core) returns (t: Core)
    requires Inv(s) && s.pc == InActions && s.current == Nobody && s.batch != [] && !s.stopper
    ensures Enabled(s, ActionBegin) && Enabled(Next(s, ActionBegin), ActionEnd) && t == Next(Next(s, ActionBegin), ActionEnd)
    ensures Inv(t) && t.pc == InActions && t.current == Nobody && t.batch == s.batch[1..] && t.queue == s.queue
    ensures SameOutside(s, t) && t.stopThread == s.stopThread
  {
    StepKeepsInv(s, ActionBegin);
    StepKeepsInv(Next(s, ActionBegin), ActionEnd);
    t := Next(Next(s, ActionBegin), ActionEnd);
  }

  /** The worker finishes its batch, invoking what is left of it or, told to stop, cancelling it. */
  lemma {:induction false} FinishBatch(s: Core) returns (steps: seq<Step>, t: Core)
    requires Inv(s) && s.pc == InActions && s.current == Nobody
    ensures Run(s, steps, t) && WorkerOnly(steps) && Inv(t) && SameOutside(s, t) && t.queue == s.queue
    ensures t.pc == if s.stopThread || s.stopper then Stopped else Top
    decreases |s.batch|
  {
    if s.batch == [] {
      StepKeepsInv(s, EndIteration);
      t := Next(s, EndIteration);
      steps := Prepend(s, EndIteration, [], t);
    } else if s.stopper {
      StepKeepsInv(s, ActionCancel);
      steps, t := FinishBatch(Next(s, ActionCancel));
      steps := Prepend(s, ActionCancel, steps, t);
    } else {
      var u := ServeAction(s);
      steps, t := FinishBatch(u);
      steps := Prepend(Next(s, ActionBegin), ActionEnd, steps, t);
      steps := Prepend(s, ActionBegin, steps, t);
    }
  }

  lemma FinishTimers(s: Core) returns (steps: seq<Step>, t: Core)
    requires Inv(s) && s.pc == InTimers && s.current == Nobody
    ensures Run(s, steps, t) && WorkerOnly(steps) && Inv(t) && SameOutside(s, t) && t.queue == s.queue
    ensures t.pc == if s.stopThread || s.stopper then Stopped else Top
  {
    StepKeepsInv(s, TimersDone);
    steps, t := FinishBatch(Next(s, TimersDone));
    steps := Prepend(s, TimersDone, steps, t);
  }

  /** User code the worker is inside returns. */
  lemma FinishCurrent(s: Core) returns (steps: seq<Step>, t: Core)
    requires Inv(s) && s.disposer != Cancelling && (s.pc == InTimers || s.pc == InActions)
    ensures Run(s, steps, t) && WorkerOnly(steps) && Inv(t) && SameOutside(s, t) && t.queue == s.queue
    ensures t.pc == if s.stopThread || s.stopper then Stopped else Top
  {
    var u := s;
    if s.current != Nobody {
      var step := if s.current.Client? then ClientEnd else ActionEnd;
      StepKeepsInv(s, step);
      u := Next(s, step);
    }
    if u.pc == InTimers {
      steps, t := FinishTimers(u);
    } else {
      steps, t := FinishBatch(u);
    }
    if s.current != Nobody {
      steps := Prepend(s, if s.current.Client? then ClientEnd else ActionEnd, steps, t);
    }
  }

  /** The worker takes the queue, unless it is suspended, and finishes it. */
  lemma TakeQueue(s: Core) returns (steps: seq<Step>, t: Core)
    requires Inv(s) && s.pc == Chosen && s.lock == Free
    ensures Run(s, steps, t) && WorkerOnly(steps) && Inv(t) && SameOutside(s, t)
    ensures t.queue == if s.suspended then s.queue else []
    ensures t.pc == if s.running then Top else Stopped
  {
    StepKeepsInv(s, Swap(false));
    steps, t := FinishBatch(Next(s, Swap(false)));
    steps := Prepend(s, Swap(false), steps, t);
  }

  lemma TakeTurn(s: Core) returns (steps: seq<Step>, t: Core)
    requires Inv(s) && s.pc == Top && s.lock == Free
    ensures Run(s, steps, t) && WorkerOnly(steps) && Inv(t) && SameOutside(s, t)
    ensures t.queue == if s.suspended then s.queue else []
    ensures t.pc == if s.running then Top else Stopped
  {
    StepKeepsInv(s, Choose);
    steps, t := TakeQueue(Next(s, Choose));
    steps := Prepend(s, Choose, steps, t);
  }

  lemma {:induction false} Append(s: Core, a: seq<Step>, t: Core, b: seq<Step>, u: Core) returns (steps: seq<Step>)
    requires Run(s, a, t) && WorkerOnly(a) && Run(t, b, u) && WorkerOnly(b)
    ensures Run(s, steps, u) && WorkerOnly(steps)
    decreases |a|
  {
    if a == [] {
      steps := b;
    } else {
      assert a[0] in a && forall step <- a[1..] :: step in a;
      steps := Append(Next(s, a[0]), a[1..], t, b, u);
      steps := Prepend(s, a[0], steps, u);
    }
  }

  /** Nothing accepted is left over. */
  ghost predicate AllInvoked(s: Core) {
    s.invoked == Tickets(|s.accepted|)
  }

  lemma NothingLeft(s: Core)
    requires Inv(s) && !s.stopper && s.cancelledQueue == [] && s.queue == [] && s.batch == []
    ensures AllInvoked(s)
  {
    LedgerIsWhole(s);
  }

  /** From every state of every run in which the context has been neither disposed nor suspended, with nobody in
      the middle of adding: the worker alone can invoke everything accepted so far. */
  lemma EverythingCanRun(s: Core) returns (steps: seq<Step>, t: Core)
    requires Reachable(s) && s.running && !s.suspended && s.lock == Free
    ensures Run(s, steps, t) && WorkerOnly(steps) && t.accepted == s.accepted && AllInvoked(t) && t.pc == Top
  {
    ReachableInv(s);
    var first, u := [], s;
    if s.pc == Chosen {
      first, u := TakeQueue(s);
    } else if s.pc == InTimers || s.pc == InActions {
      first, u := FinishCurrent(s);
    }
    var rest;
    rest, t := TakeTurn(u);
    steps := Append(s, first, u, rest, t);
    NothingLeft(t);
  }

  /** Resuming ends a suspension: whatever was held back can be invoked then. */
  lemma ResumingLetsRun(s: Core) returns (steps: seq<Step>, t: Core)
    requires Reachable(s) && s.running && s.lock == Free && Enabled(s, Resume)
    ensures Run(Next(s, Resume), steps, t) && WorkerOnly(steps) && t.accepted == s.accepted && AllInvoked(t)
  {
    ReachableOnce(s, Resume);
    steps, t := EverythingCanRun(Next(s, Resume));
  }

  lemma ReachableOnce(s: Core, step: Step)
    requires Reachable(s) && Enabled(s, step)
    ensures Reachable(Next(s, step))
  {
    var suspendable: bool, suspended: bool, steps: seq<Step> :| Run(Initial(suspendable, suspended), steps, s);
    RunSnoc(Initial(suspendable, suspended), steps, s, step);
  }

  lemma {:induction false} RunSnoc(s: Core, steps: seq<Step>, s': Core, step: Step)
    requires Run(s, steps, s') && Enabled(s', step)
    ensures Run(s, steps + [step], Next(s', step))
    decreases |steps|
  {
    var all := steps + [step];
    if steps == [] {
      assert all[1..] == [] && all[0] == step;
    } else {
      RunSnoc(Next(s, steps[0]), steps[1..], s', step);
      assert all[0] == steps[0] && all[1..] == steps[1..] + [step];
    }
  }

  // ---------------------------------------------------------------------------
  // Disposed
  // ---------------------------------------------------------------------------

  /** The context is disposed and its worker has left its loop. */
  predicate Finished(s: Core) {
    s.disposer == Disposed && s.pc == Stopped
  }

  /** The worker leaves its loop. */
  lemma LeaveLoop(s: Core) returns (steps: seq<Step>, t: Core)
    requires Inv(s) && !s.running && s.disposer != Cancelling && s.lock == Free
    ensures Run(s, steps, t) && WorkerOnly(steps) && Inv(t) && t.pc == Stopped && SameOutside(s, t)
  {
    if s.pc == Stopped {
      steps, t := [], s;
    } else if s.pc == Top {
      steps, t := TakeTurn(s);
    } else if s.pc == Chosen {
      steps, t := TakeQueue(s);
    } else {
      steps, t := FinishCurrent(s);
      if t.pc == Top {
        var more, u := TakeTurn(t);
        steps := Append(s, steps, t, more, u);
        t := u;
      }
    }
  }

  /** From every state of every run in which somebody has begun to dispose the context, with nobody in the middle
      of adding: the worker and the disposing thread can finish, and every action has been invoked or cancelled
      then. */
  lemma DisposalCanFinish(s: Core) returns (steps: seq<Step>, t: Core)
    requires Reachable(s) && !s.running && s.lock == Free
    ensures Run(s, steps, t) && Finished(t) && t.accepted == s.accepted
    ensures |t.invoked| + |t.cancelledBatch| + |t.cancelledQueue| == |t.accepted|
  {
    ReachableInv(s);
    if s.disposer == Cancelling {
      StepKeepsInv(s, CancelInside);
      steps, t := LeaveLoop(Next(s, CancelInside));
      steps := Prepend(s, CancelInside, steps, t);
    } else {
      var a, u := LeaveLoop(s);
      if u.disposer == Joining {
        StepKeepsInv(u, JoinAndCancel);
        t := Next(u, JoinAndCancel);
        RunSnoc(s, a, u, JoinAndCancel);
        steps := a + [JoinAndCancel];
      } else {
        steps, t := a, u;
      }
    }
    assert t.queue == [] && t.batch == [];
  }
}
