/**
 The action queue of `simple_context`: one worker thread that swaps out a whole
 batch under the mutex and runs it unlocked, any number of threads that add
 actions, and two ways to dispose.

 A step is one critical section or one lock-free access, so every interleaving
 of the threads is a sequence of steps.  An accepted action is known by its
 ticket, its position in the order of acceptance: the same pooled action object
 may be queued many times.
 */
module ActionQueue {

  /** The context mutex, when somebody other than the worker's own step holds it. */
  datatype Lock = Free | Adding(action: nat)

  /** Where the worker's loop stands. */
  datatype Pc = Top | Chosen | InTimers | InActions | Stopped

  /** The user code the worker is inside, if any. */
  datatype Current = Nobody | Action(ticket: nat) | Client(token: nat)

  /** How far the one successful `dispose` call has come. */
  datatype Disposer = NotDisposed | Joining | Cancelling | Disposed

  datatype Core = Core(
    running: bool,
    suspendable: bool,
    suspended: bool,
    stopper: bool,              // the worker's stack variable
    lock: Lock,
    pc: Pc,
    stopThread: bool,           // the worker's local, read under the mutex
    queue: seq<nat>,
    batch: seq<nat>,
    current: Current,
    disposer: Disposer,
    accepted: seq<nat>,         // what every ticket stands for
    invoked: seq<nat>,
    cancelledBatch: seq<nat>,   // cancelled by the worker, out of its batch
    cancelledQueue: seq<nat>)   // cancelled by dispose, out of the queue

  datatype Step =
    | AddBegin(action: nat)
    | AddCommit
    | Suspend
    | Resume
    | DisposeOutside
    | JoinAndCancel
    | DisposeInside
    | CancelInside
    | Choose
    | Swap(timerRound: bool)
    | ClientBegin(token: nat)
    | ClientEnd
    | TimersDone
    | ActionBegin
    | ActionEnd
    | ActionCancel
    | EndIteration

  function Initial(suspendable: bool, suspended: bool): Core {
    Core(true, suspendable, suspendable && suspended, false, Free, Top, false,
         [], [], Nobody, NotDisposed, [], [], [], [])
  }

  predicate Enabled(s: Core, step: Step) {
    match step
    case AddBegin(_) => s.lock == Free && s.running
    case AddCommit => s.lock.Adding?
    case Suspend => s.suspendable
    case Resume => s.suspendable
    case DisposeOutside => s.running
    case JoinAndCancel => s.disposer == Joining && s.pc == Stopped && s.lock == Free
    case DisposeInside => s.running && s.current != Nobody
    case CancelInside => s.disposer == Cancelling && s.lock == Free
    case Choose => s.pc == Top && s.lock == Free
    case Swap(_) => s.pc == Chosen && s.lock == Free
    case ClientBegin(_) => s.pc == InTimers && s.current == Nobody
    case ClientEnd => s.current.Client? && s.disposer != Cancelling
    case TimersDone => s.pc == InTimers && s.current == Nobody
    case ActionBegin => s.pc == InActions && s.current == Nobody && s.batch != [] && !s.stopper
    case ActionEnd => s.current.Action? && s.disposer != Cancelling
    case ActionCancel => s.pc == InActions && s.current == Nobody && s.batch != [] && s.stopper
    case EndIteration => s.pc == InActions && s.current == Nobody && s.batch == []
  }

  function Next(s: Core, step: Step): Core
    requires Enabled(s, step)
  {
    match step
    case AddBegin(a) => s.(lock := Adding(a))
    case AddCommit =>
      s.(lock := Free, queue := s.queue + [|s.accepted|], accepted := s.accepted + [s.lock.action])
    case Suspend => s.(suspended := true)
    case Resume => s.(suspended := false)
    case DisposeOutside => s.(running := false, disposer := Joining)
    case JoinAndCancel => s.(cancelledQueue := s.cancelledQueue + s.queue, queue := [], disposer := Disposed)
    case DisposeInside => s.(running := false, stopper := true, disposer := Cancelling)
    case CancelInside => s.(cancelledQueue := s.cancelledQueue + s.queue, queue := [], disposer := Disposed)
    case Choose => s.(pc := Chosen)
    case Swap(timerRound) =>
      var s' := s.(stopThread := !s.running, pc := if timerRound && !s.suspended then InTimers else InActions);
      if s.suspended then s' else s'.(batch := s.queue, queue := s.batch)
    case ClientBegin(c) => s.(current := Client(c))
    case ClientEnd => s.(current := Nobody)
    case TimersDone => s.(pc := InActions)
    case ActionBegin =>
      s.(current := Action(s.batch[0]), invoked := s.invoked + [s.batch[0]], batch := s.batch[1..])
    case ActionEnd => s.(current := Nobody)
    case ActionCancel => s.(cancelledBatch := s.cancelledBatch + [s.batch[0]], batch := s.batch[1..])
    case EndIteration => s.(pc := if s.stopThread || s.stopper then Stopped else Top)
  }

  /** `s'` is reached from `s` by the given steps, each enabled when taken. */
  ghost predicate Run(s: Core, steps: seq<Step>, s': Core)
    decreases |steps|
  {
    if steps == [] then s == s'
    else Enabled(s, steps[0]) && Run(Next(s, steps[0]), steps[1..], s')
  }

  /** The tickets handed out so far, in order. */
  function Tickets(n: nat): (r: seq<nat>)
    ensures |r| == n && forall i :: 0 <= i < n ==> r[i] == i
  {
    seq(n, i => i)
  }

  /** `s` holds the consecutive tickets from `from` on. */
  ghost predicate Consecutive(s: seq<nat>, from: nat) {
    forall i :: 0 <= i < |s| ==> s[i] == from + i
  }

  /** Every ticket is in exactly one place, and the places are in ticket order:
      invoked, cancelled out of the batch, still in the batch, cancelled out of the
      queue, still in the queue. */
  ghost predicate Ledger(s: Core) {
    var a := |s.invoked|;
    var b := a + |s.cancelledBatch|;
    var c := b + |s.batch|;
    var d := c + |s.cancelledQueue|;
    && Consecutive(s.invoked, 0)
    && Consecutive(s.cancelledBatch, a)
    && Consecutive(s.batch, b)
    && Consecutive(s.cancelledQueue, c)
    && Consecutive(s.queue, d)
    && d + |s.queue| == |s.accepted|
  }

  lemma LedgerIsWhole(s: Core)
    requires Ledger(s)
    ensures s.invoked + s.cancelledBatch + s.batch + s.cancelledQueue + s.queue == Tickets(|s.accepted|)
  {
  }

  /** How the flags, the worker's place and the lists hang together. */
  ghost predicate Rules(s: Core) {
    && (s.running <==> s.disposer == NotDisposed)
    && (s.suspended ==> s.suspendable)
    && (s.stopper ==> s.disposer == Cancelling || s.disposer == Disposed)
    && (s.disposer == Cancelling ==> s.stopper && s.current != Nobody)
    && (s.disposer == Joining ==> !s.stopper)
    && (!s.stopper ==> s.cancelledBatch == [])
    && (s.cancelledQueue != [] ==> s.disposer == Disposed)
    && (s.disposer == Disposed ==> s.queue == [] && s.lock == Free && (s.stopper || s.pc == Stopped))
    && (s.pc == Top || s.pc == Chosen || s.pc == Stopped ==> s.batch == [] && s.current == Nobody)
    && (s.pc == Top || s.pc == Chosen ==> !s.stopper)
    && (s.current.Client? ==> s.pc == InTimers)
    && (s.current.Action? ==> s.pc == InActions && s.invoked != [] && s.current.ticket == s.invoked[|s.invoked| - 1])
    && (s.stopThread ==> !s.running)
    && (s.pc == Stopped ==> !s.running)
    && (s.pc == Top ==> !s.stopThread)
    && (s.pc == Chosen ==> !s.stopThread)
    && (s.stopThread && !s.suspendable ==> s.queue == [] && s.lock == Free && (s.cancelledQueue != [] ==> s.stopper))
    && (s.pc == Stopped && !s.stopper ==> s.stopThread)
  }

  /** What every step keeps. */
  ghost predicate Inv(s: Core) {
    Ledger(s) && Rules(s)
  }

  lemma InitialInv(suspendable: bool, suspended: bool)
    ensures Inv(Initial(suspendable, suspended))
  {
  }

  lemma AddingKeepsInv(s: Core, step: Step)
    requires Inv(s) && Enabled(s, step)
    requires step.AddBegin? || step.AddCommit? || step.Suspend? || step.Resume?
    ensures Inv(Next(s, step))
  {
  }

  lemma DisposingKeepsInv(s: Core, step: Step)
    requires Inv(s) && Enabled(s, step)
    requires step.DisposeOutside? || step.JoinAndCancel? || step.DisposeInside? || step.CancelInside?
    ensures Inv(Next(s, step))
  {
  }

  lemma RoundKeepsInv(s: Core, step: Step)
    requires Inv(s) && Enabled(s, step)
    requires step.Choose? || step.Swap? || step.TimersDone? || step.EndIteration?
    ensures Inv(Next(s, step))
  {
  }

  lemma UserCodeKeepsInv(s: Core, step: Step)
    requires Inv(s) && Enabled(s, step)
    requires step.ClientBegin? || step.ClientEnd? || step.ActionBegin? || step.ActionEnd? || step.ActionCancel?
    ensures Inv(Next(s, step))
  {
  }

  lemma StepKeepsInv(s: Core, step: Step)
    requires Inv(s) && Enabled(s, step)
    ensures Inv(Next(s, step))
  {
    if step.AddBegin? || step.AddCommit? || step.Suspend? || step.Resume? {
      AddingKeepsInv(s, step);
    } else if step.DisposeOutside? || step.JoinAndCancel? || step.DisposeInside? || step.CancelInside? {
      DisposingKeepsInv(s, step);
    } else if step.Choose? || step.Swap? || step.TimersDone? || step.EndIteration? {
      RoundKeepsInv(s, step);
    } else {
      UserCodeKeepsInv(s, step);
    }
  }

  lemma {:induction false} RunKeepsInv(s: Core, steps: seq<Step>, s': Core)
    requires Inv(s) && Run(s, steps, s')
    ensures Inv(s')
    decreases |steps|
  {
    if steps != [] {
      StepKeepsInv(s, steps[0]);
      RunKeepsInv(Next(s, steps[0]), steps[1..], s');
    }
  }

  /** Some run of a fresh context leads to `s`. */
  ghost predicate Reachable(s: Core) {
    exists suspendable: bool, suspended: bool, steps: seq<Step> :: Run(Initial(suspendable, suspended), steps, s)
  }

  lemma ReachableInv(s: Core)
    requires Reachable(s)
    ensures Inv(s)
  {
    var suspendable: bool, suspended: bool, steps: seq<Step> :| Run(Initial(suspendable, suspended), steps, s);
    InitialInv(suspendable, suspended);
    RunKeepsInv(Initial(suspendable, suspended), steps, s);
  }

  /** The actions behind the given tickets. */
  function ActionsOf(s: Core, tickets: seq<nat>): (r: seq<nat>)
    requires forall t :: t in tickets ==> t < |s.accepted|
    ensures |r| == |tickets|
    ensures forall i :: 0 <= i < |tickets| ==> tickets[i] in tickets && r[i] == s.accepted[tickets[i]]
  {
    seq(|tickets|, i requires 0 <= i < |tickets| => assert tickets[i] in tickets; s.accepted[tickets[i]])
  }

  /** In every run the invoked actions are a prefix of the accepted ones: first in, first out, each once. */
  lemma InvokedInOrder(s: Core)
    requires Reachable(s)
    ensures forall t :: t in s.invoked ==> t < |s.accepted|
    ensures ActionsOf(s, s.invoked) <= s.accepted
  {
    ReachableInv(s);
  }

  /** While nobody has disposed the context from its own worker, and before the
      disposing thread cancels, accepted = handled + current batch + queue. */
  lemma AcceptedSplits(s: Core)
    requires Reachable(s) && !s.stopper && s.disposer != Disposed
    ensures s.invoked + s.batch + s.queue == Tickets(|s.accepted|)
  {
    ReachableInv(s);
    LedgerIsWhole(s);
    assert s.invoked + s.cancelledBatch + s.batch + s.cancelledQueue + s.queue == s.invoked + s.batch + s.queue;
  }

  /** How often a ticket occurs in a sequence. */
  function Occurrences(t: nat, tickets: seq<nat>): nat {
    multiset(tickets)[t]
  }

  /** Every accepted action has been handled once, never invoked and cancelled, as
      soon as the context is disposed and its worker has left the loop. */
  lemma DisposedHandlesEachOnce(s: Core, t: nat)
    requires Reachable(s) && s.disposer == Disposed && s.pc == Stopped && t < |s.accepted|
    ensures Occurrences(t, s.invoked) + Occurrences(t, s.cancelledBatch) + Occurrences(t, s.cancelledQueue) == 1
  {
    ReachableInv(s);
    LedgerIsWhole(s);
    var handled := s.invoked + s.cancelledBatch + s.cancelledQueue;
    assert s.invoked + s.cancelledBatch + s.batch + s.cancelledQueue + s.queue == handled;
    TicketOnce(|s.accepted|, t);
    assert multiset(handled) == multiset(s.invoked) + multiset(s.cancelledBatch) + multiset(s.cancelledQueue);
  }

  lemma {:induction false} TicketOnce(n: nat, t: nat)
    ensures multiset(Tickets(n))[t] == if t < n then 1 else 0
  {
    if n > 0 {
      TicketOnce(n - 1, t);
      assert Tickets(n) == Tickets(n - 1) + [n - 1];
    } else {
      assert Tickets(n) == [];
    }
  }

  /** Disposing a non-suspendable context from another thread runs everything that
      was accepted: nothing at all is cancelled. */
  lemma OutsideDisposeRunsEverything(s: Core)
    requires Reachable(s) && !s.suspendable && !s.stopper && s.pc == Stopped
    ensures s.cancelledBatch == [] && s.cancelledQueue == []
    ensures s.invoked == Tickets(|s.accepted|)
  {
    ReachableInv(s);
    assert s.cancelledQueue == [] && s.queue == [] && s.batch == [];
  }

  lemma RunCons(s: Core, step: Step, rest: seq<Step>, s': Core) returns (steps: seq<Step>)
    requires Enabled(s, step) && Run(Next(s, step), rest, s')
    ensures Run(s, steps, s')
  {
    steps := [step] + rest;
    assert steps[1..] == rest;
  }

  /** A suspendable context may cancel: the run that suspends, queues and disposes. */
  lemma SuspendedDisposeCancels(action: nat) returns (s: Core)
    ensures Reachable(s) && s.disposer == Disposed && s.pc == Stopped && !s.stopper
    ensures s.invoked == [] && s.cancelledQueue == [0] && s.accepted == [action]
  {
    var queued := Initial(true, true).(queue := [0], accepted := [action]);
    var steps := ServeDisposed(queued, queued.(running := false, disposer := Disposed, pc := Stopped, stopThread := true,
                                               queue := [], cancelledQueue := [0]));
    s := queued.(running := false, disposer := Disposed, pc := Stopped, stopThread := true, queue := [], cancelledQueue := [0]);
    var adding := Initial(true, true).(lock := Adding(action));
    assert Next(adding, AddCommit) == queued;
    steps := RunCons(adding, AddCommit, steps, s);
    steps := RunCons(Initial(true, true), AddBegin(action), steps, s);
  }

  lemma ServeDisposed(s: Core, s': Core) returns (steps: seq<Step>)
    requires s.pc == Top && s.lock == Free && s.running && s.suspended && s.batch == [] && s.current == Nobody
    requires s.cancelledQueue == []
    requires s' == s.(running := false, disposer := Disposed, pc := Stopped, stopThread := true, queue := [], cancelledQueue := s.queue)
    ensures Run(s, steps, s')
  {
    var a := s.(running := false, disposer := Joining);
    var b := a.(pc := Chosen);
    var c := b.(pc := InActions, stopThread := true);
    var d := c.(pc := Stopped);
    steps := RunCons(d, JoinAndCancel, [], s');
    steps := RunCons(c, EndIteration, steps, s');
    steps := RunCons(b, Swap(false), steps, s');
    steps := RunCons(a, Choose, steps, s');
    steps := RunCons(s, DisposeOutside, steps, s');
  }

  /** The action behind ticket `t` has been invoked and has returned. */
  predicate Completed(s: Core, t: nat) {
    t in s.invoked && s.current != Action(t)
  }

  /** `sync` is a barrier: once its empty action is through, so is everything accepted before it. */
  lemma SyncIsBarrier(s: Core, t: nat, u: nat)
    requires Reachable(s) && t in s.invoked && u < t
    ensures Completed(s, u)
  {
    ReachableInv(s);
    var k :| 0 <= k < |s.invoked| && s.invoked[k] == t;
    assert s.invoked[u] == u;
  }

  ghost predicate Grown(s: Core, s': Core) {
    && s.accepted <= s'.accepted && s.invoked <= s'.invoked
    && s.cancelledBatch <= s'.cancelledBatch && s.cancelledQueue <= s'.cancelledQueue
  }

  lemma StepOnlyGrows(s: Core, step: Step)
    requires Enabled(s, step)
    ensures Grown(s, Next(s, step))
  {
  }

  /** What has been handled stays handled the same way through the rest of any run. */
  lemma {:induction false} HistoryOnlyGrows(s: Core, steps: seq<Step>, s': Core)
    requires Run(s, steps, s')
    ensures Grown(s, s')
    decreases |steps|
  {
    if steps != [] {
      StepOnlyGrows(s, steps[0]);
      HistoryOnlyGrows(Next(s, steps[0]), steps[1..], s');
    }
  }
}
