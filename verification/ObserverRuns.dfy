/**
 What the operations of weak observers come to, whatever goes on between their steps,
 and that a doomed object gets freed.
 */
module ObserverRuns {
  import opened DisposablePtr

  // ---------------------------------------------------------------------------
  // Operations of one observer among any number
  // ---------------------------------------------------------------------------

  /** The step begins an operation of observer `i`, or a notification of it. */
  predicate Begins(step: Step, i: nat) {
    step == BeginLock(i) || step == BeginReset(i) || step == BeginAssign(i) || step == Notify(i)
  }

  /** Observer `i` goes on with one operation; everybody else does anything. */
  ghost predicate Continues(steps: seq<Step>, i: nat) {
    forall step <- steps :: !Begins(step, i)
  }

  /** A pointer is being cleared, or has been, and with it the registration of its callback. */
  predicate ClearingFor(s: State, i: nat, caller: Caller) {
    && i < |s.observers|
    && var o := s.observers[i];
       || o == Observer(true, Clearing(caller))
       || (o == Observer(true, Cleared(caller)) && i !in s.callbacks)
       || (o == Observer(false, Free) && i !in s.callbacks)
  }

  lemma ClearingStep(s: State, step: Step, i: nat, caller: Caller)
    requires ClearingFor(s, i, caller) && !caller.Assigner? && Enabled(s, step) && !Begins(step, i)
    ensures ClearingFor(Next(s, step), i, caller)
  {
  }

  lemma {:induction false} ClearingRun(s: State, steps: seq<Step>, s': State, i: nat, caller: Caller)
    requires ClearingFor(s, i, caller) && !caller.Assigner? && Run(s, steps, s') && Continues(steps, i)
    ensures ClearingFor(s', i, caller)
    decreases |steps|
  {
    if steps != [] {
      assert steps[0] in steps && forall step <- steps[1..] :: step in steps;
      ClearingStep(s, steps[0], i, caller);
      ClearingRun(Next(s, steps[0]), steps[1..], s', i, caller);
    }
  }

  /** However the others go on meanwhile: an observer that has been reset, or told of the destruction, or whose
      lock has failed, is null once the operation is over, and its callback is not registered any more. */
  lemma ClearedIsNull(s: State, step: Step, i: nat, steps: seq<Step>, s': State)
    requires Enabled(s, step) && Run(Next(s, step), steps, s') && Continues(steps, i) && At(s', i, Free)
    requires step == BeginReset(i) || (step == Notify(i) && s.observers[i].ptr) || (step == AddRef(i) && s.count + 1 < 2)
    ensures !s'.observers[i].ptr && i !in s'.callbacks
  {
    var caller := if step.BeginReset? then Resetter else if step.Notify? then Destroyer else Locker;
    ClearingRun(Next(s, step), steps, s', i, caller);
    if step.AddRef? {
      assert Next(s, step).observers[i] == Observer(true, Clearing(Locker));
    }
  }

  /** A pointer is being set to the object, or has been. */
  predicate AssigningFor(s: State, i: nat) {
    && i < |s.observers|
    && var o := s.observers[i];
       || o == Observer(true, Clearing(Assigner)) || o == Observer(true, Cleared(Assigner)) || o == Observer(false, Setting)
       || o == Observer(true, Registering)
       || (o == Observer(true, Free) && i in s.callbacks)
  }

  lemma AssigningStep(s: State, step: Step, i: nat)
    requires AssigningFor(s, i) && Enabled(s, step) && !Begins(step, i)
    ensures AssigningFor(Next(s, step), i)
  {
  }

  lemma {:induction false} AssigningRun(s: State, steps: seq<Step>, s': State, i: nat)
    requires AssigningFor(s, i) && Run(s, steps, s') && Continues(steps, i)
    ensures AssigningFor(s', i)
    decreases |steps|
  {
    if steps != [] {
      assert steps[0] in steps && forall step <- steps[1..] :: step in steps;
      AssigningStep(s, steps[0], i);
      AssigningRun(Next(s, steps[0]), steps[1..], s', i);
    }
  }

  /** An observer that has been assigned the object points to it once the assignment is over, and the object has
      its callback. */
  lemma AssignedIsWatched(s: State, i: nat, steps: seq<Step>, s': State)
    requires Enabled(s, BeginAssign(i)) && Run(Next(s, BeginAssign(i)), steps, s') && Continues(steps, i) && At(s', i, Free)
    ensures s'.observers[i].ptr && i in s'.callbacks
  {
    AssigningRun(Next(s, BeginAssign(i)), steps, s', i);
  }

  lemma SetNullHolds(s: State, i: nat, caller: Caller)
    requires At(s, i, Clearing(caller)) && (caller.Resetter? || caller.Assigner?)
    ensures Enabled(s, Unregister(i)) && Enabled(Next(s, Unregister(i)), SetNull(i))
    ensures Next(Next(s, Unregister(i)), SetNull(i)) ==
      s.(observers := s.observers[i := Observer(false, if caller.Assigner? then Setting else Free)], callbacks := s.callbacks - {i})
  {
    assert s.observers[i := Observer(s.observers[i].ptr, Cleared(caller))][i := Observer(false, Setting)] == s.observers[i := Observer(false, Setting)];
    assert s.observers[i := Observer(s.observers[i].ptr, Cleared(caller))][i := Observer(false, Free)] == s.observers[i := Observer(false, Free)];
  }

  /** A reset can be gone through with; nothing changes but the observer and its registration. */
  lemma ResetCanFinish(s: State, i: nat) returns (steps: seq<Step>)
    requires Enabled(s, BeginReset(i))
    ensures Run(s, steps, s.(observers := s.observers[i := Observer(false, Free)], callbacks := s.callbacks - {i}))
  {
    var a := Next(s, BeginReset(i));
    SetNullHolds(a, i, Resetter);
    var b := Next(a, Unregister(i));
    var t := Next(b, SetNull(i));
    assert t == s.(observers := s.observers[i := Observer(false, Free)], callbacks := s.callbacks - {i});
    steps := Prepend(b, SetNull(i), [], t);
    steps := Prepend(a, Unregister(i), steps, t);
    steps := Prepend(s, BeginReset(i), steps, t);
  }

  /** So can an assignment, whether the observer has observed anything before or not. */
  lemma AssignCanFinish(s: State, i: nat) returns (steps: seq<Step>)
    requires Enabled(s, BeginAssign(i))
    ensures Run(s, steps, s.(observers := s.observers[i := Observer(true, Free)], callbacks := s.callbacks + {i}))
  {
    var goal := s.(observers := s.observers[i := Observer(true, Free)], callbacks := s.callbacks + {i});
    var a := Next(s, BeginAssign(i));
    if s.observers[i].ptr {
      SetNullHolds(a, i, Assigner);
      var b := Next(a, Unregister(i));
      var c := Next(b, SetNull(i));
      assert s.callbacks - {i} + {i} == s.callbacks + {i};
      steps := SetAndRegister(c, i, goal);
      steps := Prepend(b, SetNull(i), steps, goal);
      steps := Prepend(a, Unregister(i), steps, goal);
    } else {
      steps := SetAndRegister(a, i, goal);
    }
    steps := Prepend(s, BeginAssign(i), steps, goal);
  }

  lemma SetAndRegister(s: State, i: nat, t: State) returns (steps: seq<Step>)
    requires At(s, i, Setting) && s.pinned > 0
    requires t == s.(observers := s.observers[i := Observer(true, Free)], callbacks := s.callbacks + {i}, pinned := s.pinned - 1)
    ensures Run(s, steps, t)
  {
    var a := Next(s, SetPtr(i));
    assert a.observers[i := Observer(true, Free)] == t.observers;
    assert Next(a, Register(i)) == t;
    steps := Prepend(a, Register(i), [], t);
    steps := Prepend(s, SetPtr(i), steps, t);
  }

  /** A lock can be gone through with: it hands out a reference if the count was one at least; otherwise it leaves
      its own reference behind and the observer null. */
  lemma LockCanFinish(s: State, i: nat) returns (steps: seq<Step>, t: State)
    requires Enabled(s, BeginLock(i))
    ensures Run(s, steps, t) && t.phase == s.phase && t.pinned == s.pinned && t.count == s.count + 1
    ensures i < |t.observers| == |s.observers| && forall j :: 0 <= j < |s.observers| && j != i ==> t.observers[j] == s.observers[j]
    ensures if s.count >= 1 then t == s.(count := t.count, owners := s.owners + 1, observers := t.observers) && t.observers[i] == Observer(true, Free)
            else t.owners == s.owners && t.stray == s.stray + 1 && t.observers[i] == Observer(false, Free) && t.callbacks == s.callbacks - {i}
  {
    var a := Next(s, BeginLock(i));
    var b := Next(a, AddRef(i));
    if s.count >= 1 {
      t := b;
      steps := [];
    } else {
      var c := Next(b, Unregister(i));
      t := Next(c, SetNull(i));
      steps := Prepend(c, SetNull(i), [], t);
      steps := Prepend(b, Unregister(i), steps, t);
    }
    steps := Prepend(a, AddRef(i), steps, t);
    steps := Prepend(s, BeginLock(i), steps, t);
  }

  // ---- who owns the object ---------------------------------------------------

  /** What a step means to the owners: a copy of a pointer, a pointer let go of, a lock that found the count at one
      at least. */
  function OwnersGained(s: State, step: Step): int {
    match step
    case Copy => 1
    case Release => -1
    case AddRef(_) => if s.count >= 1 then 1 else 0
    case _ => 0
  }

  function OwnersOver(s: State, steps: seq<Step>): int
    decreases |steps|
  {
    if steps == [] || !Enabled(s, steps[0]) then 0 else OwnersGained(s, steps[0]) + OwnersOver(Next(s, steps[0]), steps[1..])
  }

  lemma StepBalances(s: State, step: Step)
    requires Enabled(s, step)
    ensures Next(s, step).owners == s.owners + OwnersGained(s, step)
    ensures Next(s, step).count - Next(s, step).owners - Next(s, step).stray == s.count - s.owners - s.stray
  {
  }

  /** With any number of observers, and whatever its interleaving: a run leaves as many owners as there were, with the
      copies and successful locks it has made and without the releases; and the count is that of the owners and
      of the references failed locks have left behind. */
  lemma {:induction false} OwnersBalance(s: State, steps: seq<Step>, s': State)
    requires Run(s, steps, s')
    ensures s'.owners == s.owners + OwnersOver(s, steps)
    ensures s'.count - s'.owners - s'.stray == s.count - s.owners - s.stray
    decreases |steps|
  {
    if steps != [] {
      StepBalances(s, steps[0]);
      OwnersBalance(Next(s, steps[0]), steps[1..], s');
    }
  }

  // ---------------------------------------------------------------------------
  // One observer: the destructor comes to its end
  // ---------------------------------------------------------------------------

  lemma Prepend(s: State, step: Step, rest: seq<Step>, s': State) returns (steps: seq<Step>)
    requires Enabled(s, step) && Run(Next(s, step), rest, s')
    ensures Run(s, steps, s')
  {
    steps := [step] + rest;
    assert steps[1..] == rest;
  }

  /** The object is gone, and the observer knows. */
  predicate Gone(s: State) {
    s.phase.Freed? && |s.observers| == 1 && s.observers[0] == Observer(false, Free) && s.callbacks == {}
  }

  lemma OneStep(s: State, step: Step)
    requires Inv(s) && |s.observers| == 1 && !s.phase.Alive? && Enabled(s, step)
    ensures Inv(Next(s, step)) && |Next(s, step).observers| == 1 && !Next(s, step).phase.Alive?
  {
    StepKeepsInv(s, step);
  }

  /** How much is left of what the observer is in the middle of. */
  function LeftOf(pc: Pc): nat {
    match pc
    case Free => 0
    case Cleared(_) => 1
    case Clearing(_) => 2
    case Locking => 3
    case _ => 4
  }

  /** The step the observer takes next. */
  function NextOf(pc: Pc): Step {
    match pc
    case Locking => AddRef(0)
    case Clearing(_) => Unregister(0)
    case Cleared(_) => SetNull(0)
    case _ => Deallocate
  }

  lemma ObserverGoesOn(s: State)
    requires Inv(s) && |s.observers| == 1 && !s.phase.Alive? && s.observers[0].pc != Free
    ensures var step := NextOf(s.observers[0].pc);
      && Enabled(s, step) && LeftOf(Next(s, step).observers[0].pc) < LeftOf(s.observers[0].pc)
      && (s.phase.Notifying? <==> Next(s, step).phase.Notifying?) && (s.phase.Freed? <==> Next(s, step).phase.Freed?)
  {
    StepKeepsInv(s, NextOf(s.observers[0].pc));
  }

  lemma {:induction false} ObserverFinishes(s: State) returns (steps: seq<Step>, t: State)
    requires Inv(s) && |s.observers| == 1 && !s.phase.Alive?
    ensures Run(s, steps, t) && Inv(t) && |t.observers| == 1 && !t.phase.Alive? && t.observers[0].pc == Free
    ensures (s.phase.Notifying? <==> t.phase.Notifying?) && (s.phase.Freed? <==> t.phase.Freed?)
    decreases LeftOf(s.observers[0].pc)
  {
    if s.observers[0].pc == Free {
      steps, t := [], s;
    } else {
      var step := NextOf(s.observers[0].pc);
      ObserverGoesOn(s);
      OneStep(s, step);
      steps, t := ObserverFinishes(Next(s, step));
      steps := Prepend(s, step, steps, t);
    }
  }

  lemma {:induction false} Append(s: State, a: seq<Step>, t: State, b: seq<Step>, u: State) returns (steps: seq<Step>)
    requires Run(s, a, t) && Run(t, b, u)
    ensures Run(s, steps, u)
    decreases |a|
  {
    if a == [] {
      steps := b;
    } else {
      steps := Append(Next(s, a[0]), a[1..], t, b, u);
      steps := Prepend(s, a[0], steps, u);
    }
  }

  /** The destructor has told the observer, if it was registered. */
  lemma TellObserver(s: State) returns (steps: seq<Step>, t: State)
    requires Inv(s) && |s.observers| == 1 && s.phase.Notifying? && s.observers[0].pc == Free
    ensures Run(s, steps, t) && Inv(t) && |t.observers| == 1 && t.phase == Notifying({}) && t.observers[0].pc == Free
  {
    if 0 !in s.phase.pending {
      steps, t := [], s;
      assert s.phase.pending == {};
    } else {
      OneStep(s, Notify(0));
      var a := Next(s, Notify(0));
      if s.observers[0].ptr {
        OneStep(a, Unregister(0));
        var b := Next(a, Unregister(0));
        OneStep(b, SetNull(0));
        t := Next(b, SetNull(0));
        assert t.phase.pending == {};
        steps := Prepend(b, SetNull(0), [], t);
        steps := Prepend(a, Unregister(0), steps, t);
      } else {
        t := a;
        assert t.phase.pending == {};
        steps := [];
      }
      steps := Prepend(s, Notify(0), steps, t);
    }
  }

  lemma FreeObject(s: State) returns (steps: seq<Step>, t: State)
    requires Inv(s) && |s.observers| == 1 && !s.phase.Alive? && s.observers[0].pc == Free
    ensures Run(s, steps, t) && Gone(t)
    decreases s.phase.Doomed?
  {
    if s.phase.Freed? {
      steps, t := [], s;
    } else if s.phase.Notifying? {
      var first, u := TellObserver(s);
      OneStep(u, Deallocate);
      t := Next(u, Deallocate);
      var last := Prepend(u, Deallocate, [], t);
      steps := Append(s, first, u, last, t);
    } else {
      OneStep(s, Snapshot);
      steps, t := FreeObject(Next(s, Snapshot));
      steps := Prepend(s, Snapshot, steps, t);
    }
  }

  /** With one observer: once the last owner has let go, in whatever state of whatever run, the destructor and the
      observer can come to their ends; the object is freed then, and the observer is null. */
  lemma DoomedIsFreed(s: State) returns (steps: seq<Step>, t: State)
    requires Reachable(1, s) && !s.phase.Alive?
    ensures Run(s, steps, t) && Gone(t)
  {
    ReachableOne(s);
    var first, u := ObserverFinishes(s);
    var last;
    last, t := FreeObject(u);
    steps := Append(s, first, u, last, t);
  }

  lemma ReachableOne(s: State)
    requires Reachable(1, s)
    ensures Inv(s) && |s.observers| == 1
  {
    var steps :| Run(Initial(1), steps, s);
    RunKeepsInv(Initial(1), steps, s);
  }
}
