/**
 `disposable_ptr`: weak observers of one reference-counted object whose destructor
 notifies its disposal callbacks.

 Every access to shared memory is a step of its own: the atomic count, the
 object's callback list, and each observer's pointer, which its mutex guards.  An
 observer whose `pc` is not `Free` has its mutex taken.  Owners, observers and the
 thread that runs the destructor interleave freely.
 */
module DisposablePtr {

  /** On whose behalf an observer's pointer is being cleared. */
  datatype Caller = Locker | Resetter | Assigner | Destroyer

  datatype Pc =
    | Free
    | Locking                      // found the pointer set, about to add a reference
    | Clearing(caller: Caller)     // about to unregister its callback from the object
    | Cleared(caller: Caller)      // about to set its pointer to null
    | Setting                      // about to set its pointer to the object
    | Registering                  // about to register its callback with the object

  datatype Observer = Observer(ptr: bool, pc: Pc)

  datatype Phase =
    | Alive
    | Doomed                                  // the count has dropped to zero
    | Notifying(pending: set<nat>)            // callbacks copied out of the list and not yet called
    | Freed

  /** `owners` are the references callers hold or believe to hold; `stray` are those that
      failed locks have added and nobody will ever release; `pinned` are owned by callers
      that are in the middle of assigning the object to an observer. */
  datatype State = State(
    count: int,
    owners: nat,
    stray: nat,
    pinned: nat,
    phase: Phase,
    callbacks: set<nat>,
    observers: seq<Observer>)

  datatype Step =
    | Copy
    | Release
    | BeginLock(i: nat)
    | AddRef(i: nat)
    | BeginReset(i: nat)
    | BeginAssign(i: nat)
    | Unregister(i: nat)
    | SetNull(i: nat)
    | SetPtr(i: nat)
    | Register(i: nat)
    | Snapshot
    | Notify(i: nat)
    | Deallocate

  /** A new object with its maker's reference, and `n` observers that observe nothing yet. */
  function Initial(n: nat): State {
    State(1, 1, 0, 0, Alive, {}, seq(n, i => Observer(false, Free)))
  }

  predicate At(s: State, i: nat, pc: Pc) {
    i < |s.observers| && s.observers[i].pc == pc
  }

  predicate Enabled(s: State, step: Step) {
    match step
    case Copy => s.owners > 0
    case Release => s.owners > s.pinned
    case BeginLock(i) => At(s, i, Free) && s.observers[i].ptr
    case AddRef(i) => At(s, i, Locking)
    case BeginReset(i) => At(s, i, Free) && s.observers[i].ptr
    case BeginAssign(i) => At(s, i, Free) && s.owners > s.pinned
    case Unregister(i) => i < |s.observers| && s.observers[i].pc.Clearing?
    case SetNull(i) => i < |s.observers| && s.observers[i].pc.Cleared?
    case SetPtr(i) => At(s, i, Setting)
    case Register(i) => At(s, i, Registering) && s.pinned > 0
    case Snapshot => s.phase == Doomed
    case Notify(i) => s.phase.Notifying? && i in s.phase.pending && At(s, i, Free)
    case Deallocate => s.phase == Notifying({})
  }

  function Put(s: State, i: nat, o: Observer): State
    requires i < |s.observers|
  {
    s.(observers := s.observers[i := o])
  }

  /** The last owner's release starts the destructor. */
  function DoRelease(s: State): State
    requires s.owners > 0
  {
    s.(count := s.count - 1, owners := s.owners - 1, phase := if s.count == 1 then Doomed else s.phase)
  }

  /** A count of at least 2 after the increment is taken to mean that there was an owner; any
      other makes the lock fail, and the increment stays. */
  function DoAddRef(s: State, i: nat): State
    requires At(s, i, Locking)
  {
    if s.count + 1 < 2 then
      Put(s, i, Observer(true, Clearing(Locker))).(count := s.count + 1, stray := s.stray + 1)
    else
      Put(s, i, Observer(true, Free)).(count := s.count + 1, owners := s.owners + 1)
  }

  function DoSetNull(s: State, i: nat): State
    requires i < |s.observers| && s.observers[i].pc.Cleared?
  {
    var caller := s.observers[i].pc.caller;
    Put(s, i, Observer(false, if caller.Assigner? then Setting else Free)).(
      phase := if caller.Destroyer? && s.phase.Notifying? then Notifying(s.phase.pending - {i}) else s.phase)
  }

  function DoNotify(s: State, i: nat): State
    requires s.phase.Notifying? && At(s, i, Free)
  {
    if s.observers[i].ptr then Put(s, i, Observer(true, Clearing(Destroyer)))
    else s.(phase := Notifying(s.phase.pending - {i}))
  }

  function Next(s: State, step: Step): State
    requires Enabled(s, step)
  {
    match step
    case Copy => s.(count := s.count + 1, owners := s.owners + 1)
    case Release => DoRelease(s)
    case BeginLock(i) => Put(s, i, Observer(true, Locking))
    case AddRef(i) => DoAddRef(s, i)
    case BeginReset(i) => Put(s, i, Observer(true, Clearing(Resetter)))
    case BeginAssign(i) =>
      var o := s.observers[i];
      Put(s, i, o.(pc := if o.ptr then Clearing(Assigner) else Setting)).(pinned := s.pinned + 1)
    case Unregister(i) =>
      var o := s.observers[i];
      Put(s, i, o.(pc := Cleared(o.pc.caller))).(callbacks := s.callbacks - {i})
    case SetNull(i) => DoSetNull(s, i)
    case SetPtr(i) => Put(s, i, Observer(true, Registering))
    case Register(i) => Put(s, i, Observer(true, Free)).(callbacks := s.callbacks + {i}, pinned := s.pinned - 1)
    case Snapshot => s.(phase := Notifying(s.callbacks))
    case Notify(i) => DoNotify(s, i)
    case Deallocate => s.(phase := Freed)
  }

  ghost predicate Run(s: State, steps: seq<Step>, s': State)
    decreases |steps|
  {
    if steps == [] then s == s' else Enabled(s, steps[0]) && Run(Next(s, steps[0]), steps[1..], s')
  }

  ghost predicate Reachable(n: nat, s: State) {
    exists steps :: Run(Initial(n), steps, s)
  }

  // ---------------------------------------------------------------------------
  // Safety
  // ---------------------------------------------------------------------------

  /** The observer's next step reads or writes the object. */
  predicate Touches(o: Observer) {
    o.pc == Locking || o.pc.Clearing? || o.pc == Registering
  }

  /** The object lives exactly as long as somebody owns it, and nobody is about to touch freed memory. */
  ghost predicate Safe(s: State) {
    && (s.phase.Alive? <==> s.owners > 0)
    && (s.phase.Freed? ==> forall i :: 0 <= i < |s.observers| ==> !Touches(s.observers[i]))
  }

  // ---- one observer ----------------------------------------------------------

  predicate Assigning(o: Observer) {
    o.pc == Clearing(Assigner) || o.pc == Cleared(Assigner) || o.pc == Setting || o.pc == Registering
  }

  /** The observer points at the object, which has its callback. */
  predicate Watching(o: Observer) {
    o.ptr && !o.pc.Cleared? && o.pc != Registering
  }

  /** What holds of the only observer `o`, whose index is 0. */
  ghost predicate ObserverInv(s: State, o: Observer) {
    && (0 in s.callbacks <==> Watching(o))
    && (o.pc == Locking || o.pc.Clearing? || o.pc.Cleared? || o.pc == Registering ==> o.ptr)
    && (o.pc == Setting ==> !o.ptr)
    && s.pinned == (if Assigning(o) then 1 else 0)
    && (s.stray > 0 ==> !o.ptr || o.pc == Clearing(Locker) || o.pc == Cleared(Locker))
    && (s.phase.Notifying? && Watching(o) ==> 0 in s.phase.pending)
    && (s.phase.Freed? ==> !Watching(o))
    && (o.pc == Clearing(Destroyer) || o.pc == Cleared(Destroyer) ==> s.phase.Notifying? && 0 in s.phase.pending)
  }

  ghost predicate Inv(s: State) {
    && |s.observers| <= 1
    && s.count == s.owners + s.stray
    && s.pinned <= s.owners
    && (s.phase.Alive? <==> s.owners > 0)
    && (s.stray > 0 ==> !s.phase.Alive?)
    && s.stray <= 1
    && (forall i <- s.callbacks :: i < |s.observers|)
    && (s.phase.Notifying? ==> forall i <- s.phase.pending :: i < |s.observers|)
    && (|s.observers| == 0 ==> s.stray == 0 && s.pinned == 0)
    && (|s.observers| == 1 ==> ObserverInv(s, s.observers[0]))
  }

  lemma OwnerKeepsInv(s: State, step: Step)
    requires Inv(s) && Enabled(s, step) && (step.Copy? || step.Release? || step.AddRef?)
    ensures Inv(Next(s, step))
  {
  }

  lemma ObserverKeepsInv(s: State, step: Step)
    requires Inv(s) && Enabled(s, step) && (step.BeginLock? || step.BeginReset? || step.BeginAssign? || step.SetPtr?)
    ensures Inv(Next(s, step))
  {
  }

  lemma CallbackKeepsInv(s: State, step: Step)
    requires Inv(s) && Enabled(s, step) && (step.Unregister? || step.SetNull? || step.Register?)
    ensures Inv(Next(s, step))
  {
  }

  lemma StepKeepsInv(s: State, step: Step)
    requires Inv(s) && Enabled(s, step)
    ensures Inv(Next(s, step))
  {
    match step
    case Copy => OwnerKeepsInv(s, step);
    case Release => OwnerKeepsInv(s, step);
    case AddRef(_) => OwnerKeepsInv(s, step);
    case Unregister(_) => CallbackKeepsInv(s, step);
    case SetNull(_) => CallbackKeepsInv(s, step);
    case Register(_) => CallbackKeepsInv(s, step);
    case Snapshot =>
    case Notify(_) =>
    case Deallocate =>
    case _ => ObserverKeepsInv(s, step);
  }

  lemma {:induction false} RunKeepsInv(s: State, steps: seq<Step>, s': State)
    requires Inv(s) && Run(s, steps, s')
    ensures Inv(s') && |s'.observers| == |s.observers|
    decreases |steps|
  {
    if steps != [] {
      StepKeepsInv(s, steps[0]);
      RunKeepsInv(Next(s, steps[0]), steps[1..], s');
    }
  }

  lemma ReachableInv(n: nat, s: State)
    requires n <= 1 && Reachable(n, s)
    ensures Inv(s)
  {
    var steps :| Run(Initial(n), steps, s);
    RunKeepsInv(Initial(n), steps, s);
  }

  /** With one observer: whatever the interleaving, a lock succeeds exactly if the object had an
      owner when the lock added its reference, and the caller then owns one more counted
      reference; a failed lock leaves the owners as they were. */
  lemma LockSucceedsIffOwned(s: State, i: nat)
    requires Reachable(1, s) && Enabled(s, AddRef(i))
    ensures !s.phase.Freed?
    ensures var t := Next(s, AddRef(i));
      if s.owners > 0 then t.owners == s.owners + 1 && t.count == t.owners && t.phase.Alive? && t.observers[i] == Observer(true, Free)
      else t.owners == 0 && t.observers[i].pc == Clearing(Locker)
  {
    ReachableInv(1, s);
  }

  /** With one observer: a reference is given out only while the object is alive, and the
      object is touched only while it is there. */
  lemma OneObserverIsSafe(n: nat, s: State)
    requires n <= 1 && Reachable(n, s)
    ensures Safe(s)
  {
    ReachableInv(n, s);
  }

  /** Once destruction has started nobody becomes an owner again. */
  lemma DestructionIsFinal(s: State, steps: seq<Step>, s': State)
    requires Reachable(1, s) && !s.phase.Alive? && Run(s, steps, s')
    ensures !s'.phase.Alive? && s'.owners == 0
  {
    ReachableInv(1, s);
    DeadStaysDead(s, steps, s');
  }

  lemma {:induction false} DeadStaysDead(s: State, steps: seq<Step>, s': State)
    requires Inv(s) && !s.phase.Alive? && Run(s, steps, s')
    ensures !s'.phase.Alive? && s'.owners == 0
    decreases |steps|
  {
    if steps != [] {
      StepKeepsInv(s, steps[0]);
      DeadStaysDead(Next(s, steps[0]), steps[1..], s');
    }
  }

  // ---- two observers ---------------------------------------------------------

  /** The first observer's failed lock leaves its reference behind; the second one, asking before
      the destructor has told it, takes that for an owner and hands out a doomed object. */
  lemma TwoObserversHandOutDoomed(n: nat) returns (s: State)
    requires n >= 2
    ensures Reachable(n, s) && s.phase == Doomed && s.owners == 1 && !Safe(s)
  {
    var a := BothAssigned(n);
    var b := Next(Next(Next(a, BeginLock(0)), Release), AddRef(0));
    assert At(b, 1, Free);
    var c := Next(b, BeginLock(1));
    s := Next(c, AddRef(1));
    RunOnce(n, a, BeginLock(0));
    RunOnce(n, Next(a, BeginLock(0)), Release);
    RunOnce(n, Next(Next(a, BeginLock(0)), Release), AddRef(0));
    RunOnce(n, b, BeginLock(1));
    RunOnce(n, c, AddRef(1));
  }

  lemma BothAssigned(n: nat) returns (s: State)
    requires n >= 2
    ensures Reachable(n, s) && s.count == s.owners == 1 && s.stray == s.pinned == 0 && s.phase == Alive
    ensures |s.observers| == n && s.observers[0] == s.observers[1] == Observer(true, Free)
  {
    assert Run(Initial(n), [], Initial(n));
    s := Assign(n, Initial(n), 0);
    s := Assign(n, s, 1);
  }

  lemma Assign(n: nat, s: State, i: nat) returns (t: State)
    requires Reachable(n, s) && At(s, i, Free) && !s.observers[i].ptr && s.owners > 0 && s.pinned == 0
    ensures Reachable(n, t) && t == s.(observers := s.observers[i := Observer(true, Free)], callbacks := s.callbacks + {i})
  {
    var a := Next(s, BeginAssign(i));
    var b := Next(a, SetPtr(i));
    t := Next(b, Register(i));
    RunOnce(n, s, BeginAssign(i));
    RunOnce(n, a, SetPtr(i));
    RunOnce(n, b, Register(i));
  }

  lemma RunOnce(n: nat, s: State, step: Step)
    requires Reachable(n, s) && Enabled(s, step)
    ensures Reachable(n, Next(s, step))
  {
    var steps :| Run(Initial(n), steps, s);
    RunSnoc(Initial(n), steps, s, step);
  }

  lemma {:induction false} RunSnoc(s: State, steps: seq<Step>, s': State, step: Step)
    requires Run(s, steps, s') && Enabled(s', step)
    ensures Run(s, steps + [step], Next(s', step))
    decreases |steps|
  {
    if steps == [] {
      assert Run(Next(s, step), [], Next(s, step));
      assert ([step])[1..] == [];
    } else {
      RunSnoc(Next(s, steps[0]), steps[1..], s', step);
      assert (steps + [step])[1..] == steps[1..] + [step];
    }
  }

  /** Every interleaving is safe exactly when no object has more than one observer. */
  lemma SafeIffAtMostOne(n: nat)
    ensures (forall s :: Reachable(n, s) ==> Safe(s)) <==> n <= 1
  {
    if n <= 1 {
      forall s | Reachable(n, s) ensures Safe(s) {
        OneObserverIsSafe(n, s);
      }
    } else {
      var s := TwoObserversHandOutDoomed(n);
    }
  }
}
