/**
 `ref_count_ptr` and `ref_count_base`: every operation on pointers, spelled out as
 the additions, releases and assignments it makes, in their order.

 Objects and pointer variables are numbered.  `owed` is bookkeeping: the references
 to an object that are held as raw pointers, by whoever made the object, detached
 it from a pointer or added a reference by hand.  Within an operation it may run a
 debt, while a pointer is set before its reference is added.
 */
module RefCountPtr {
  import opened Options

  type Target = Option<nat>

  /** A pointer variable before its construction or after its destruction is unborn. */
  datatype Slot = Unborn | Ptr(target: Target)

  /** `fault` records that a reference of a deleted object was added or released. */
  datatype State = State(counts: seq<int>, deletions: seq<nat>, vars: seq<Slot>, owed: seq<int>, fault: bool)

  datatype Op =
    | New
    | AddRefRaw(o: nat)
    | ReleaseRaw(o: nat)
    | Construct(v: nat)
    | ConstructRaw(v: nat, t: Target)
    | ConstructCopy(v: nat, w: nat)
    | ConstructMove(v: nat, w: nat)
    | AssignRaw(v: nat, t: Target)
    | AssignCopy(v: nat, w: nat)
    | AssignMove(v: nat, w: nat)
    | Attach(v: nat, t: Target)
    | Detach(v: nat)
    | ReleaseVar(v: nat)
    | Destroy(v: nat)

  // ---- the steps operations are made of --------------------------------------

  predicate Known(s: State, t: Target) {
    t.Some? ==> t.value < |s.counts| && t.value < |s.deletions| && t.value < |s.owed|
  }

  predicate Alive(s: State, t: Target) {
    Known(s, t) && (t.Some? ==> s.counts[t.value] > 0)
  }

  /** The object may not be there at all: then nothing is known of the outcome but the fault. */
  function AddRef(s: State, t: Target): State {
    if t.None? then s
    else if !Alive(s, t) then s.(fault := true)
    else
      var o := t.value;
      s.(counts := s.counts[o := s.counts[o] + 1], owed := s.owed[o := s.owed[o] + 1])
  }

  /** The last release deletes the object. */
  function Release(s: State, t: Target): State {
    if t.None? then s
    else if !Alive(s, t) then s.(fault := true)
    else
      var o := t.value;
      s.(counts := s.counts[o := s.counts[o] - 1], owed := s.owed[o := s.owed[o] - 1],
         deletions := if s.counts[o] == 1 then s.deletions[o := s.deletions[o] + 1] else s.deletions)
  }

  function TargetOf(slot: Slot): Target {
    if slot.Unborn? then None else slot.target
  }

  function Shift(owed: seq<int>, t: Target, n: int): seq<int> {
    if t.Some? && t.value < |owed| then owed[t.value := owed[t.value] + n] else owed
  }

  /** Overwrites a pointer without touching any count. */
  function Put(s: State, v: nat, slot: Slot): State
    requires v < |s.vars|
  {
    s.(vars := s.vars[v := slot], owed := Shift(Shift(s.owed, TargetOf(s.vars[v]), 1), TargetOf(slot), -1))
  }

  function At(s: State, v: nat): Target {
    if v < |s.vars| then TargetOf(s.vars[v]) else None
  }

  /** `release()`: the reference goes first, then the pointer. */
  function Drop(s: State, v: nat): State
    requires v < |s.vars|
  {
    if At(s, v).None? then s else Put(Release(s, At(s, v)), v, Ptr(None))
  }

  /** Points `v` at `t` and adds the reference afterwards. */
  function Point(s: State, v: nat, t: Target): State
    requires v < |s.vars|
  {
    AddRef(Put(s, v, Ptr(t)), t)
  }

  // ---- operations ------------------------------------------------------------

  predicate Born(s: State, v: nat) {
    v < |s.vars| && s.vars[v].Ptr?
  }

  predicate Fresh(s: State, v: nat) {
    v < |s.vars| && s.vars[v].Unborn?
  }

  /** A raw pointer handed in is null or points to a live object; a reference handed in with it, or
      given up by hand, must be owed. */
  predicate Allowed(s: State, op: Op) {
    match op
    case New => true
    case AddRefRaw(o) => Alive(s, Some(o))
    case ReleaseRaw(o) => Alive(s, Some(o)) && s.owed[o] > 0
    case Construct(v) => Fresh(s, v)
    case ConstructRaw(v, t) => Fresh(s, v) && Alive(s, t)
    case ConstructCopy(v, w) => Fresh(s, v) && Born(s, w)
    case ConstructMove(v, w) => Fresh(s, v) && Born(s, w)
    case AssignRaw(v, t) => Born(s, v) && Alive(s, t)
    case AssignCopy(v, w) => Born(s, v) && Born(s, w)
    case AssignMove(v, w) => Born(s, v) && Born(s, w)
    case Attach(v, t) => Born(s, v) && Alive(s, t) && (t.Some? ==> s.owed[t.value] > 0)
    case Detach(v) => Born(s, v)
    case ReleaseVar(v) => Born(s, v)
    case Destroy(v) => Born(s, v)
  }

  /** Assigning a raw pointer lets go of the old object before it refers to the new one. */
  function DoAssignRaw(s: State, v: nat, t: Target): State
    requires v < |s.vars|
  {
    if At(s, v).Some? && At(s, v) == t then s
    else
      var s1 := Drop(s, v);
      if t.Some? then Put(AddRef(s1, t), v, Ptr(t)) else s1
  }

  function DoAssignCopy(s: State, v: nat, w: nat): State
    requires v < |s.vars|
  {
    if At(s, v) == At(s, w) then s else Point(Drop(s, v), v, At(s, w))
  }

  /** Moving does not look whether the two are the same: the other's pointer is read after this one has
      let go of its own. */
  function DoAssignMove(s: State, v: nat, w: nat): State
    requires v < |s.vars| && w < |s.vars|
  {
    var s1 := Drop(s, v);
    Drop(Point(s1, v, At(s1, w)), w)
  }

  function Apply(s: State, op: Op): State
    requires Allowed(s, op)
  {
    match op
    case New => s.(counts := s.counts + [1], deletions := s.deletions + [0], owed := s.owed + [1])
    case AddRefRaw(o) => AddRef(s, Some(o))
    case ReleaseRaw(o) => Release(s, Some(o))
    case Construct(v) => Put(s, v, Ptr(None))
    case ConstructRaw(v, t) => Point(s, v, t)
    case ConstructCopy(v, w) => Point(s, v, At(s, w))
    case ConstructMove(v, w) => Drop(Point(s, v, At(s, w)), w)
    case AssignRaw(v, t) => DoAssignRaw(s, v, t)
    case AssignCopy(v, w) => DoAssignCopy(s, v, w)
    case AssignMove(v, w) => DoAssignMove(s, v, w)
    case Attach(v, t) => Put(Release(s, At(s, v)), v, Ptr(t))
    case Detach(v) => Put(s, v, Ptr(None))
    case ReleaseVar(v) => Drop(s, v)
    case Destroy(v) => Put(Drop(s, v), v, Unborn)
  }

  // ---------------------------------------------------------------------------
  // Conservation
  // ---------------------------------------------------------------------------

  function Pointing(vars: seq<Slot>, o: nat): nat {
    if vars == [] then 0 else Pointing(vars[..|vars| - 1], o) + if TargetOf(vars[|vars| - 1]) == Some(o) then 1 else 0
  }

  lemma {:induction false} PointingUpdate(vars: seq<Slot>, v: nat, slot: Slot, o: nat)
    requires v < |vars|
    ensures Pointing(vars[v := slot], o) + (if TargetOf(vars[v]) == Some(o) then 1 else 0)
         == Pointing(vars, o) + (if TargetOf(slot) == Some(o) then 1 else 0)
  {
    var n := |vars| - 1;
    if v < n {
      PointingUpdate(vars[..n], v, slot, o);
      assert vars[v := slot][..n] == vars[..n][v := slot];
    } else {
      assert vars[v := slot][..n] == vars[..n];
    }
  }

  lemma {:induction false} PointedAt(vars: seq<Slot>, v: nat, o: nat)
    requires v < |vars| && TargetOf(vars[v]) == Some(o)
    ensures Pointing(vars, o) > 0
  {
    if v < |vars| - 1 {
      PointedAt(vars[..|vars| - 1], v, o);
    }
  }

  ghost predicate Balanced(s: State, o: nat)
    requires o < |s.counts| == |s.owed|
  {
    s.counts[o] == Pointing(s.vars, o) + s.owed[o]
  }

  /** What every step within an operation keeps. */
  ghost predicate Ledger(s: State) {
    && |s.counts| == |s.deletions| == |s.owed| && !s.fault
    && (forall v :: 0 <= v < |s.vars| ==> Known(s, TargetOf(s.vars[v])))
    && (forall o: nat :: o < |s.counts| ==> Balanced(s, o))
    && (forall o :: 0 <= o < |s.counts| ==> s.counts[o] >= 0 && s.deletions[o] == if s.counts[o] == 0 then 1 else 0)
  }

  /** Between operations nothing is in debt. */
  ghost predicate Inv(s: State) {
    Ledger(s) && forall o :: 0 <= o < |s.owed| ==> s.owed[o] >= 0
  }

  lemma AddRefKeepsLedger(s: State, t: Target)
    requires Ledger(s) && Alive(s, t)
    ensures Ledger(AddRef(s, t)) && AddRef(s, t).vars == s.vars && AddRef(s, t).owed == Shift(s.owed, t, 1)
  {
    forall o: nat | o < |s.counts| ensures Balanced(AddRef(s, t), o) {
      assert Balanced(s, o);
    }
  }

  lemma ReleaseKeepsLedger(s: State, t: Target)
    requires Ledger(s) && Alive(s, t)
    ensures Ledger(Release(s, t)) && Release(s, t).vars == s.vars && Release(s, t).owed == Shift(s.owed, t, -1)
  {
    forall o: nat | o < |s.counts| ensures Balanced(Release(s, t), o) {
      assert Balanced(s, o);
    }
  }

  lemma PutKeepsLedger(s: State, v: nat, slot: Slot)
    requires Ledger(s) && v < |s.vars| && Known(s, TargetOf(slot))
    ensures Ledger(Put(s, v, slot))
  {
    forall o: nat | o < |s.counts| ensures Balanced(Put(s, v, slot), o) {
      assert Balanced(s, o);
      PointingUpdate(s.vars, v, slot, o);
    }
  }

  /** What a pointer points to is alive, unless a debt is being run. */
  lemma PointedIsAlive(s: State, v: nat)
    requires Ledger(s) && v < |s.vars| && (forall o :: 0 <= o < |s.owed| ==> s.owed[o] >= 0)
    ensures Alive(s, At(s, v))
  {
    if At(s, v).Some? {
      PointedAt(s.vars, v, At(s, v).value);
      assert Balanced(s, At(s, v).value);
    }
  }

  lemma DropKeepsInv(s: State, v: nat)
    requires Inv(s) && Born(s, v)
    ensures Inv(Drop(s, v)) && Drop(s, v).vars == s.vars[v := Ptr(None)] && Drop(s, v).owed == s.owed
  {
    var t := At(s, v);
    PointedIsAlive(s, v);
    if t.Some? {
      ReleaseKeepsLedger(s, t);
      PutKeepsLedger(Release(s, t), v, Ptr(None));
    }
  }

  lemma PointKeepsInv(s: State, v: nat, t: Target)
    requires Inv(s) && v < |s.vars| && At(s, v).None? && Alive(s, t)
    ensures Inv(Point(s, v, t)) && Point(s, v, t).vars == s.vars[v := Ptr(t)] && Point(s, v, t).owed == s.owed
  {
    PutKeepsLedger(s, v, Ptr(t));
    AddRefKeepsLedger(Put(s, v, Ptr(t)), t);
  }

  // ---- what each operation is for --------------------------------------------

  /** The pointers after an operation, whatever happens to counts on the way. */
  function VarsAfter(vars: seq<Slot>, op: Op): seq<Slot>
    requires op.Construct? || op.ConstructRaw? || op.AssignRaw? || op.Attach? || op.Detach? || op.ReleaseVar? || op.Destroy? ==> op.v < |vars|
    requires op.ConstructCopy? || op.ConstructMove? || op.AssignCopy? || op.AssignMove? ==> op.v < |vars| && op.w < |vars|
  {
    match op
    case New | AddRefRaw(_) | ReleaseRaw(_) => vars
    case Construct(v) => vars[v := Ptr(None)]
    case ConstructRaw(v, t) => vars[v := Ptr(t)]
    case AssignRaw(v, t) => vars[v := Ptr(t)]
    case Attach(v, t) => vars[v := Ptr(t)]
    case ConstructCopy(v, w) => vars[v := vars[w]]
    case AssignCopy(v, w) => vars[v := vars[w]]
    case ConstructMove(v, w) => vars[v := vars[w]][w := Ptr(None)]
    case AssignMove(v, w) => vars[v := vars[w]][w := Ptr(None)]
    case Detach(v) => vars[v := Ptr(None)]
    case ReleaseVar(v) => vars[v := Ptr(None)]
    case Destroy(v) => vars[v := Unborn]
  }

  /** The raw references owed after an operation. */
  function OwedAfter(s: State, op: Op): seq<int> {
    match op
    case New => s.owed + [1]
    case AddRefRaw(o) => Shift(s.owed, Some(o), 1)
    case ReleaseRaw(o) => Shift(s.owed, Some(o), -1)
    case Attach(_, t) => Shift(s.owed, t, -1)
    case Detach(v) => Shift(s.owed, At(s, v), 1)
    case _ => s.owed
  }

  ghost predicate AsMeant(s: State, op: Op)
    requires Allowed(s, op)
  {
    var t := Apply(s, op);
    Inv(t) && t.vars == VarsAfter(s.vars, op) && t.owed == OwedAfter(s, op)
  }

  lemma NewAsMeant(s: State)
    requires Inv(s)
    ensures AsMeant(s, New)
  {
    var t := Apply(s, New);
    forall o: nat | o < |t.counts| ensures Balanced(t, o) {
      if o < |s.counts| { assert Balanced(s, o); } else { NobodyPoints(s, |s.vars|, o); }
    }
  }

  lemma {:induction false} NobodyPoints(s: State, n: nat, o: nat)
    requires n <= |s.vars| && o >= |s.counts| && forall v :: 0 <= v < |s.vars| ==> Known(s, TargetOf(s.vars[v]))
    ensures n == |s.vars| ==> Pointing(s.vars, o) == 0
    ensures Pointing(s.vars[..n], o) == 0
  {
    if n > 0 {
      NobodyPoints(s, n - 1, o);
      assert s.vars[..n][..n - 1] == s.vars[..n - 1];
    }
    assert s.vars[..|s.vars|] == s.vars;
  }

  lemma AssignRawAsMeant(s: State, v: nat, t: Target)
    requires Inv(s) && Allowed(s, AssignRaw(v, t))
    ensures AsMeant(s, AssignRaw(v, t))
  {
    if !(At(s, v).Some? && At(s, v) == t) {
      DropKeepsInv(s, v);
      var s1 := Drop(s, v);
      if t.Some? {
        AddRefKeepsLedger(s1, t);
        PutKeepsLedger(AddRef(s1, t), v, Ptr(t));
      }
    }
  }

  lemma AssignCopyAsMeant(s: State, v: nat, w: nat)
    requires Inv(s) && Allowed(s, AssignCopy(v, w))
    ensures AsMeant(s, AssignCopy(v, w))
  {
    if At(s, v) != At(s, w) {
      DropKeepsInv(s, v);
      PointedIsAlive(Drop(s, v), w);
      PointKeepsInv(Drop(s, v), v, At(s, w));
    }
  }

  lemma AssignMoveAsMeant(s: State, v: nat, w: nat)
    requires Inv(s) && Allowed(s, AssignMove(v, w))
    ensures AsMeant(s, AssignMove(v, w))
  {
    DropKeepsInv(s, v);
    var s1 := Drop(s, v);
    PointedIsAlive(s1, w);
    PointKeepsInv(s1, v, At(s1, w));
    DropKeepsInv(Point(s1, v, At(s1, w)), w);
  }

  lemma ConstructMoveAsMeant(s: State, v: nat, w: nat)
    requires Inv(s) && Allowed(s, ConstructMove(v, w))
    ensures AsMeant(s, ConstructMove(v, w))
  {
    PointedIsAlive(s, w);
    PointKeepsInv(s, v, At(s, w));
    DropKeepsInv(Point(s, v, At(s, w)), w);
  }

  lemma AttachAsMeant(s: State, v: nat, t: Target)
    requires Inv(s) && Allowed(s, Attach(v, t))
    ensures AsMeant(s, Attach(v, t))
  {
    PointedIsAlive(s, v);
    ReleaseKeepsLedger(s, At(s, v));
    PutKeepsLedger(Release(s, At(s, v)), v, Ptr(t));
  }

  lemma DestroyAsMeant(s: State, v: nat)
    requires Inv(s) && Allowed(s, Destroy(v))
    ensures AsMeant(s, Destroy(v))
  {
    DropKeepsInv(s, v);
    PutKeepsLedger(Drop(s, v), v, Unborn);
  }

  /** Every operation leaves the pointers and the raw references as it is meant to, and the books balanced. */
  lemma OpAsMeant(s: State, op: Op)
    requires Inv(s) && Allowed(s, op)
    ensures AsMeant(s, op)
  {
    match op
    case New => NewAsMeant(s);
    case AddRefRaw(o) => AddRefKeepsLedger(s, Some(o));
    case ReleaseRaw(o) => ReleaseKeepsLedger(s, Some(o));
    case Construct(v) => PutKeepsLedger(s, v, Ptr(None));
    case ConstructRaw(v, t) => PointKeepsInv(s, v, t);
    case ConstructCopy(v, w) =>
      PointedIsAlive(s, w);
      PointKeepsInv(s, v, At(s, w));
    case ConstructMove(v, w) => ConstructMoveAsMeant(s, v, w);
    case AssignRaw(v, t) => AssignRawAsMeant(s, v, t);
    case AssignCopy(v, w) => AssignCopyAsMeant(s, v, w);
    case AssignMove(v, w) => AssignMoveAsMeant(s, v, w);
    case Attach(v, t) => AttachAsMeant(s, v, t);
    case Detach(v) => PutKeepsLedger(s, v, Ptr(None));
    case ReleaseVar(v) => DropKeepsInv(s, v);
    case Destroy(v) => DestroyAsMeant(s, v);
  }

  // ---- every sequence of operations ------------------------------------------

  ghost predicate Run(s: State, ops: seq<Op>, s': State)
    decreases |ops|
  {
    if ops == [] then s == s' else Allowed(s, ops[0]) && Run(Apply(s, ops[0]), ops[1..], s')
  }

  function Initial(n: nat): State {
    State([], [], seq(n, i => Unborn), [], false)
  }

  lemma {:induction false} NoPointers(n: nat, o: nat)
    ensures Pointing(seq(n, i => Unborn), o) == 0
  {
    if n > 0 {
      NoPointers(n - 1, o);
      assert seq(n, i => Unborn)[..n - 1] == seq(n - 1, i => Unborn);
    }
  }

  lemma {:induction false} RunKeepsInv(s: State, ops: seq<Op>, s': State)
    requires Inv(s) && Run(s, ops, s')
    ensures Inv(s')
    decreases |ops|
  {
    if ops != [] {
      OpAsMeant(s, ops[0]);
      RunKeepsInv(Apply(s, ops[0]), ops[1..], s');
    }
  }

  /** Over any sequence of operations: no deleted object is ever touched, an object's count is the number
      of pointers to it plus the raw references owed, and it has been deleted once if that is zero and
      not at all if it is not. */
  lemma CountsAreReferences(n: nat, ops: seq<Op>, s: State, o: nat)
    requires Run(Initial(n), ops, s) && o < |s.counts|
    ensures !s.fault && o < |s.owed| && o < |s.deletions|
    ensures s.owed[o] >= 0 && s.counts[o] == Pointing(s.vars, o) + s.owed[o]
    ensures s.deletions[o] == if Pointing(s.vars, o) + s.owed[o] == 0 then 1 else 0
  {
    RunKeepsInv(Initial(n), ops, s);
    assert Balanced(s, o);
  }

  // ---------------------------------------------------------------------------
  // The objects
  // ---------------------------------------------------------------------------

  class Counted {
    var refCount: int
    var deleted: bool

    constructor ()
      ensures refCount == 1 && !deleted
    {
      refCount, deleted := 1, false;
    }

    method AddRef() returns (count: int)
      requires !deleted
      modifies this`refCount
      ensures count == refCount == old(refCount) + 1
    {
      refCount := refCount + 1;
      count := refCount;
    }

    method Release() returns (count: int)
      requires !deleted
      modifies this
      ensures count == refCount == old(refCount) - 1 && (deleted <==> refCount == 0)
    {
      refCount := refCount - 1;
      deleted := refCount == 0;
      count := refCount;
    }
  }

  class Pointer {
    var ptr: Counted?

    constructor ()
      ensures ptr == null
    {
      ptr := null;
    }

    /** The object counts at least `n` references. */
    ghost predicate Holds(n: nat)
      reads this, ptr
    {
      ptr != null ==> !ptr.deleted && ptr.refCount >= n
    }

    method Release()
      requires Holds(1)
      modifies this, ptr
      ensures ptr == null
      ensures old(ptr) != null ==> old(ptr).refCount == old(ptr.refCount) - 1 && (old(ptr).deleted <==> old(ptr).refCount == 0)
    {
      if ptr != null {
        var _ := ptr.Release();
        ptr := null;
      }
    }

    /** Two pointers to one object hold two references to it; assigning such a pointer to the other, or
        to itself, changes nothing. */
    method AssignCopy(other: Pointer)
      requires Holds(1) && other.Holds(1) && (other != this && other.ptr == ptr ==> Holds(2))
      modifies this, ptr, other.ptr
      ensures ptr == old(other.ptr) && other.ptr == old(other.ptr)
      ensures old(ptr) == old(other.ptr) && ptr != null ==> ptr.refCount == old(ptr.refCount) && !ptr.deleted
      ensures old(ptr) != old(other.ptr) && old(ptr) != null ==>
        old(ptr).refCount == old(ptr.refCount) - 1 && (old(ptr).deleted <==> old(ptr).refCount == 0)
      ensures old(ptr) != old(other.ptr) && ptr != null ==> ptr.refCount == old(other.ptr.refCount) + 1 && !ptr.deleted
    {
      var otherPtr := other.ptr;
      if ptr == otherPtr {
        return;
      }
      Release();
      ptr := otherPtr;
      if ptr != null {
        var _ := ptr.AddRef();
      }
    }

    /** The other's reference changes hands; moving a pointer to itself releases it. */
    method AssignMove(other: Pointer)
      requires Holds(1) && other.Holds(1) && (other != this && other.ptr == ptr ==> Holds(2))
      modifies this, other, ptr, other.ptr
      ensures other.ptr == null && (other != this ==> ptr == old(other.ptr))
      ensures old(ptr) != null ==>
        old(ptr).refCount == old(ptr.refCount) - 1 && (old(ptr).deleted <==> old(ptr).refCount == 0)
      ensures ptr != null && ptr != old(ptr) ==> ptr.refCount == old(other.ptr.refCount) && !ptr.deleted
    {
      Release();
      ptr := other.ptr;
      if ptr != null {
        var _ := ptr.AddRef();
      }
      other.Release();
    }

    /** Takes over a reference the caller owes. */
    method Attach(other: Counted?)
      requires Holds(1) && (other != null ==> !other.deleted) && (other != null && other == ptr ==> other.refCount >= 2)
      modifies this, ptr
      ensures ptr == other
      ensures old(ptr) != null ==>
        old(ptr).refCount == old(ptr.refCount) - 1 && (old(ptr).deleted <==> old(ptr).refCount == 0)
    {
      if ptr != null {
        var refCount := ptr.Release();
      }
      ptr := other;
    }

    method Detach() returns (raw: Counted?)
      modifies this
      ensures raw == old(ptr) && ptr == null
    {
      raw := ptr;
      ptr := null;
    }
  }
}
