/**
 The delivery path of one subscription, end to end: a row update is copied into a
 pooled payload, a pooled action carries the payload through the dispatcher's
 queue, and the worker calls the subscribed function with it.

 Producer steps (the thread that raised the update) and worker steps interleave
 freely.  Raises on one row are serialized by the row's raise mutex.  The queue
 shown here is the subscription's share of the dispatcher's queue: appending,
 swapping the whole batch, taking the head and cancelling all commute with
 leaving out what other subscriptions have queued.

 `uses` and `place` are bookkeeping: what every reference count ought to amount
 to.  The pools decide by the counts alone.
 */
module Delivery {
  import opened Options
  import ObjectPool

  type Bytes = seq<nat>
  type Pool = ObjectPool.Pool

  /** A payload object: the bytes in use and the buffer they sit in. */
  datatype Payload = Payload(size: nat, buffer: Bytes)

  function Update(p: Payload, bytes: Bytes): Payload {
    Payload(|bytes|, bytes + if |bytes| < |p.buffer| then p.buffer[|bytes|..] else [])
  }

  /** What a reader of the payload gets. */
  function Content(p: Payload): Bytes
    requires p.size <= |p.buffer|
  {
    p.buffer[..p.size]
  }

  lemma UpdateThenContent(p: Payload, bytes: Bytes)
    ensures Update(p, bytes).size <= |Update(p, bytes).buffer| && Content(Update(p, bytes)) == bytes
  {
  }

  /** Who refers to a payload besides its pool: the producer, and the one action that carries it. */
  datatype Use = Use(inHand: bool, holder: Option<nat>)

  datatype Place = Spare | InHand | InLine | Performing | Shed | Dead

  /** An action object: its payload pointer, and where it is. */
  datatype Act = Act(data: Option<nat>, place: Place)

  /** How far the producer has come with the update it is raising. */
  datatype Phase =
    | Idle
    | Taken(slot: nat, bytes: Bytes)
    | Written(slot: nat, bytes: Bytes)
    | Equipped(slot: nat, bytes: Bytes, act: nat)
    | Armed(slot: nat, bytes: Bytes, act: nat)
    | Admitted(slot: nat, bytes: Bytes, act: nat)   // holds the context's mutex, having found it running

  datatype State = State(
    dataPool: Pool,
    payloads: seq<Payload>,
    uses: seq<Use>,
    actPool: Pool,
    acts: seq<Act>,             // the pooled actions first, then those made when the pool had none
    phase: Phase,
    line: seq<nat>,             // the worker's batch followed by the queue
    cut: nat,                   // how much of the line is batch
    performing: Option<nat>,
    running: bool,
    stopped: bool,              // the worker performs nothing any more
    raised: seq<Bytes>,
    delivered: seq<Bytes>)

  datatype Step =
    | Raise(bytes: Bytes, grow: bool, slot: nat)
    | Write
    | TakeAction(pooled: Option<nat>)
    | SetData
    | Admit
    | Enqueue
    | Reject
    | Swap
    | Begin
    | End
    | Cancel(at: nat)
    | DropRef(act: nat)
    | Dispose
    | Stop

  function Initial(slots: nat, actions: nat, capacity: nat): State {
    State(ObjectPool.Pool(seq(slots, i => Some(1)), 0, false, true),
          seq(slots, i => Payload(0, seq(capacity, j => 0))), seq(slots, i => Use(false, None)),
          ObjectPool.Pool(seq(actions, i => Some(1)), 0, false, false), seq(actions, i => Act(None, Spare)),
          Idle, [], 0, None, true, false, [], [])
  }

  function Fill<T>(s: seq<T>, n: nat, x: T): (r: seq<T>)
    ensures |s| <= n ==> |r| == n
    ensures s <= r
    ensures forall i :: |s| <= i < |r| ==> r[i] == x
  {
    if |s| < n then s + seq(n - |s|, i => x) else s
  }

  /** The worker drops what it has performed or cancelled when it clears its batch, the
      disposing thread drops what it cancelled out of the queue; the machine lets either
      happen at any later moment. */
  predicate Enabled(s: State, step: Step) {
    match step
    case Raise(_, grow, k) => s.phase.Idle? && CanGive(s.dataPool, grow, k)
    case Write => s.phase.Taken? && s.phase.slot < |s.payloads|
    case TakeAction(pooled) => s.phase.Written? && (pooled.Some? ==> pooled.value < |s.acts| && CanGive(s.actPool, false, pooled.value))
    case SetData => CanSetData(s)
    case Admit => s.phase.Armed? && s.running
    case Enqueue => s.phase.Admitted? && CanLetGo(s)
    case Reject => s.phase.Armed? && !s.running && CanLetGo(s) && CanDrop(LetGo(s), s.phase.act)
    case Swap => s.cut == 0 && s.performing.None? && !s.stopped
    case Begin => CanBegin(s)
    case End => CanEnd(s)
    case Cancel(at) => s.stopped && at < |s.line| && (at == 0 || at == s.cut) && s.line[at] < |s.acts|
    case DropRef(a) => CanDrop(s, a) && s.acts[a].place == Shed
    case Dispose => s.running
    case Stop => !s.running
  }

  function Next(s: State, step: Step): State
    requires Enabled(s, step)
  {
    match step
    case Raise(bytes, grow, k) => DoRaise(s, bytes, grow, k)
    case Write => DoWrite(s)
    case TakeAction(pooled) => if pooled.Some? then TakePooled(s, pooled.value) else TakeNew(s)
    case SetData => DoSetData(s)
    case Admit => s.(phase := Admitted(s.phase.slot, s.phase.bytes, s.phase.act))
    case Enqueue => DoEnqueue(s)
    case Reject => Drop(LetGo(s), s.phase.act)
    case Swap => s.(cut := |s.line|)
    case Begin => DoBegin(s)
    case End => DoEnd(s)
    case Cancel(at) => DoCancel(s, at)
    case DropRef(a) => Drop(s, a)
    case Dispose => s.(running := false)
    case Stop => s.(stopped := true)
  }

  ghost predicate Run(s: State, steps: seq<Step>, s': State)
    decreases |steps|
  {
    if steps == [] then s == s' else Enabled(s, steps[0]) && Run(Next(s, steps[0]), steps[1..], s')
  }

  // ---- reference counts ------------------------------------------------------

  predicate Counted(p: Pool, k: nat) {
    ObjectPool.Outside(p, k)
  }

  function Incr(p: Pool, k: nat): Pool
    requires Counted(p, k)
  {
    ObjectPool.Recount(p, k, 1)
  }

  function Decr(p: Pool, k: nat): Pool
    requires Counted(p, k)
  {
    ObjectPool.Recount(p, k, -1)
  }

  predicate CanRelease(p: Pool, d: Option<nat>) {
    d.Some? ==> Counted(p, d.value)
  }

  /** Releases a payload pointer, which may be null. */
  function Unref(p: Pool, d: Option<nat>): Pool
    requires CanRelease(p, d)
  {
    if d.Some? then Decr(p, d.value) else p
  }

  function Unhold(uses: seq<Use>, d: Option<nat>): seq<Use> {
    if d.Some? && d.value < |uses| then uses[d.value := uses[d.value].(holder := None)] else uses
  }

  predicate Pooled(s: State, a: nat) {
    a < |s.actPool.items|
  }

  // ---- producer --------------------------------------------------------------

  function AfterGrowing(p: Pool, grow: bool): Pool {
    if grow then ObjectPool.Grown(p) else p
  }

  /** A search hands out a slot that is spare when it looks there, whatever it has found elsewhere before;
      a doubling pool may have grown by then, though items may have been let go since. */
  predicate CanGive(p: Pool, grow: bool, k: nat) {
    (grow ==> p.doubling) && k < |AfterGrowing(p, grow).items| && ObjectPool.Available(AfterGrowing(p, grow), k)
  }

  function DoRaise(s: State, bytes: Bytes, grow: bool, k: nat): State
    requires CanGive(s.dataPool, grow, k)
  {
    var pool := ObjectPool.HandOut(AfterGrowing(s.dataPool, grow), k);
    var n := |pool.items|;
    var uses := Fill(s.uses, n, Use(false, None));
    s.(dataPool := pool, payloads := Fill(s.payloads, n, Payload(0, [])),
       uses := if k < |uses| then uses[k := uses[k].(inHand := true)] else uses,
       phase := Taken(k, bytes), raised := s.raised + [bytes])
  }

  function DoWrite(s: State): State
    requires s.phase.Taken? && s.phase.slot < |s.payloads|
  {
    var k := s.phase.slot;
    s.(payloads := s.payloads[k := Update(s.payloads[k], s.phase.bytes)], phase := Written(k, s.phase.bytes))
  }

  function TakePooled(s: State, a: nat): State
    requires s.phase.Written? && a < |s.acts| && CanGive(s.actPool, false, a)
  {
    s.(actPool := ObjectPool.HandOut(s.actPool, a), acts := s.acts[a := s.acts[a].(place := InHand)],
       phase := Equipped(s.phase.slot, s.phase.bytes, a))
  }

  /** When the search has found no action in the pool a new one is made. */
  function TakeNew(s: State): State
    requires s.phase.Written?
  {
    s.(acts := s.acts + [Act(None, InHand)], phase := Equipped(s.phase.slot, s.phase.bytes, |s.acts|))
  }

  predicate CanSetData(s: State) {
    && s.phase.Equipped? && s.phase.act < |s.acts| && s.phase.slot < |s.uses|
    && CanRelease(s.dataPool, s.acts[s.phase.act].data)
    && Counted(Unref(s.dataPool, s.acts[s.phase.act].data), s.phase.slot)
  }

  /** The action lets go of a payload left over from a cancelled delivery and takes the new one. */
  function DoSetData(s: State): State
    requires CanSetData(s)
  {
    var a, k := s.phase.act, s.phase.slot;
    var d := s.acts[a].data;
    var uses := Unhold(s.uses, d);
    s.(dataPool := Incr(Unref(s.dataPool, d), k),
       uses := uses[k := uses[k].(holder := Some(a))],
       acts := s.acts[a := s.acts[a].(data := Some(k))],
       phase := Armed(k, s.phase.bytes, a))
  }

  predicate CanLetGo(s: State) {
    (s.phase.Armed? || s.phase.Admitted?) && Counted(s.dataPool, s.phase.slot) && s.phase.slot < |s.uses| && s.phase.act < |s.acts|
  }

  /** The producer's own reference to the payload goes out of scope. */
  function LetGo(s: State): State
    requires CanLetGo(s)
  {
    var k := s.phase.slot;
    s.(dataPool := Decr(s.dataPool, k), uses := s.uses[k := s.uses[k].(inHand := false)], phase := Idle)
  }

  /** A context is found running or not before the action is queued, in the same critical section; being
      disposed in between does not keep the action out.
      The queue takes its own reference before the producer's goes, so the action's count is
      unchanged.  A disposed context throws instead: then the action is dropped and the update
      is lost; a pooled action keeps its payload, any other takes it down with it. */
  function DoEnqueue(s: State): State
    requires CanLetGo(s)
  {
    var a := s.phase.act;
    LetGo(s).(acts := s.acts[a := s.acts[a].(place := InLine)], line := s.line + [a])
  }

  // ---- worker ----------------------------------------------------------------

  predicate CanBegin(s: State) {
    && !s.stopped && s.performing.None? && 0 < s.cut <= |s.line| && s.line[0] < |s.acts|
    && Readable(s.payloads, s.acts[s.line[0]].data)
  }

  predicate Readable(payloads: seq<Payload>, d: Option<nat>) {
    d.Some? && d.value < |payloads| && payloads[d.value].size <= |payloads[d.value].buffer|
  }

  /** The subscribed function is called with what the payload holds now. */
  function DoBegin(s: State): State
    requires CanBegin(s)
  {
    var a := s.line[0];
    s.(acts := s.acts[a := s.acts[a].(place := Performing)], performing := Some(a), line := s.line[1..], cut := s.cut - 1,
       delivered := s.delivered + [Content(s.payloads[s.acts[a].data.value])])
  }

  predicate CanEnd(s: State) {
    s.performing.Some? && s.performing.value < |s.acts| && CanRelease(s.dataPool, s.acts[s.performing.value].data)
  }

  /** The function has returned: the action lets its payload go. */
  function DoEnd(s: State): State
    requires CanEnd(s)
  {
    var a := s.performing.value;
    var d := s.acts[a].data;
    s.(dataPool := Unref(s.dataPool, d), uses := Unhold(s.uses, d), acts := s.acts[a := Act(None, Shed)], performing := None)
  }

  /** Cancelling leaves the payload with the action. */
  function DoCancel(s: State, at: nat): State
    requires at < |s.line| && s.line[at] < |s.acts|
  {
    var a := s.line[at];
    s.(acts := s.acts[a := s.acts[a].(place := Shed)], line := s.line[..at] + s.line[at + 1..],
       cut := if at < s.cut then s.cut - 1 else s.cut)
  }

  predicate CanDrop(s: State, a: nat) {
    a < |s.acts| && if Pooled(s, a) then Counted(s.actPool, a) else CanRelease(s.dataPool, s.acts[a].data)
  }

  /** The last reference but the pool's goes: a pooled action is spare again, any other is destroyed with what it holds. */
  function Drop(s: State, a: nat): State
    requires CanDrop(s, a)
  {
    if Pooled(s, a) then
      s.(actPool := Decr(s.actPool, a), acts := s.acts[a := s.acts[a].(place := Spare)])
    else
      var d := s.acts[a].data;
      s.(dataPool := Unref(s.dataPool, d), uses := Unhold(s.uses, d), acts := s.acts[a := Act(None, Dead)])
  }

  // ---------------------------------------------------------------------------
  // The invariant
  // ---------------------------------------------------------------------------

  function One(b: bool): nat {
    if b then 1 else 0
  }

  /** A payload's count is the pool's reference, plus the producer's, plus the carrying action's. */
  ghost predicate PayloadCounts(pool: Pool, uses: seq<Use>) {
    && ObjectPool.PoolInv(pool) && pool.doubling && pool.items != [] && |uses| == |pool.items|
    && forall k :: 0 <= k < |uses| ==> CountIs(pool.items[k], uses[k])
  }

  predicate CountIs(item: Option<nat>, use: Use) {
    if item.None? then use == Use(false, None)
    else item.value == 1 + One(use.inHand) + One(use.holder.Some?)
  }

  /** An action's payload is held by that action and by no other. */
  ghost predicate Linked(acts: seq<Act>, uses: seq<Use>) {
    && (forall k :: 0 <= k < |uses| && uses[k].holder.Some? ==>
          uses[k].holder.value < |acts| && acts[uses[k].holder.value].data == Some(k))
    && (forall a :: 0 <= a < |acts| && acts[a].data.Some? ==>
          acts[a].data.value < |uses| && uses[acts[a].data.value].holder == Some(a))
  }

  /** A pooled action's count is the pool's reference plus that of the one place it is in. */
  ghost predicate ActionCounts(pool: Pool, acts: seq<Act>) {
    && ObjectPool.PoolInv(pool) && !pool.doubling && |pool.items| <= |acts|
    && forall a :: 0 <= a < |pool.items| ==> acts[a].place != Dead && pool.items[a] == Some(if acts[a].place == Spare then 1 else 2)
  }

  /** The line holds exactly-once the actions whose place it is. */
  ghost predicate Listed(acts: seq<Act>, line: seq<nat>) {
    && (forall i, j :: 0 <= i < j < |line| ==> line[i] != line[j])
    && (forall i :: 0 <= i < |line| ==> line[i] < |acts| && acts[line[i]].place == InLine)
  }

  /** What the producer has in hand is what its phase says. */
  ghost predicate HandInv(phase: Phase, uses: seq<Use>) {
    && (forall k :: 0 <= k < |uses| ==> (uses[k].inHand <==> !phase.Idle? && phase.slot == k))
    && (!phase.Idle? ==> phase.slot < |uses|)
    && (phase.Taken? || phase.Written? || phase.Equipped? ==> uses[phase.slot].holder.None?)
  }

  ghost predicate ActInHand(phase: Phase, acts: seq<Act>) {
    && (phase.Equipped? || phase.Armed? || phase.Admitted? ==> phase.act < |acts| && acts[phase.act].place == InHand)
    && (phase.Armed? || phase.Admitted? ==> acts[phase.act].data == Some(phase.slot))
  }

  /** The payload is there and reads as the given bytes. */
  ghost predicate Carries(payloads: seq<Payload>, d: Option<nat>, bytes: Bytes) {
    Readable(payloads, d) && Content(payloads[d.value]) == bytes
  }

  ghost predicate WrittenInv(phase: Phase, payloads: seq<Payload>) {
    !phase.Idle? && !phase.Taken? ==> Carries(payloads, Some(phase.slot), phase.bytes)
  }

  /** The actions in line carry the updates raised from position `from` on, in order. */
  ghost predicate InOrder(acts: seq<Act>, payloads: seq<Payload>, line: seq<nat>, raised: seq<Bytes>, from: nat) {
    && from + |line| <= |raised|
    && forall i :: 0 <= i < |line| ==> line[i] < |acts| && Carries(payloads, acts[line[i]].data, raised[from + i])
  }

  /** While the subscribed function runs, its payload reads as it did when the call began. */
  ghost predicate PerformingInv(performing: Option<nat>, acts: seq<Act>, payloads: seq<Payload>, delivered: seq<Bytes>) {
    performing.Some? ==>
      && performing.value < |acts| && acts[performing.value].place == Performing
      && delivered != [] && Carries(payloads, acts[performing.value].data, delivered[|delivered| - 1])
  }

  /** No update has been lost so far. */
  predicate Lossless(s: State) {
    s.running || (s.phase.Admitted? && !s.stopped)
  }

  ghost predicate FlowInv(s: State) {
    && s.delivered <= s.raised
    && s.cut <= |s.line|
    && (s.running ==> !s.stopped)
    && (Lossless(s) ==> |s.delivered| + |s.line| + One(!s.phase.Idle?) == |s.raised|)
    && (!s.phase.Idle? ==> s.raised != [] && s.phase.bytes == s.raised[|s.raised| - 1])
  }

  /** Payloads, their counts and the producer's hold on them. */
  ghost predicate Storage(pool: Pool, payloads: seq<Payload>, uses: seq<Use>, acts: seq<Act>, phase: Phase) {
    |payloads| == |uses| && PayloadCounts(pool, uses) && Linked(acts, uses) && HandInv(phase, uses) && WrittenInv(phase, payloads)
  }

  /** Actions, their counts and where they are. */
  ghost predicate Actions(pool: Pool, acts: seq<Act>, phase: Phase, line: seq<nat>) {
    ActionCounts(pool, acts) && ActInHand(phase, acts) && Listed(acts, line)
  }

  /** What the in-flight actions carry. */
  ghost predicate InFlight(s: State) {
    && PerformingInv(s.performing, s.acts, s.payloads, s.delivered)
    && (!s.stopped ==> InOrder(s.acts, s.payloads, s.line, s.raised, |s.delivered|))
  }

  ghost predicate Inv(s: State) {
    && Storage(s.dataPool, s.payloads, s.uses, s.acts, s.phase)
    && Actions(s.actPool, s.acts, s.phase, s.line)
    && InFlight(s)
    && FlowInv(s)
  }

  // ---------------------------------------------------------------------------
  // The payload object
  // ---------------------------------------------------------------------------

  class RowData {
    var size: nat
    var buffer: array<nat>

    constructor (capacity: nat)
      ensures fresh(buffer) && size == 0 && View() == Payload(0, seq(capacity, i => 0))
    {
      size := 0;
      buffer := new nat[capacity](i => 0);
      new;
      assert buffer[..] == seq(capacity, i => 0);
    }

    ghost function View(): Payload
      reads this, buffer
    {
      Payload(size, buffer[..])
    }

    /** Grows the buffer when it is too short, never shrinks it, and copies in place. */
    method Store(bytes: Bytes)
      modifies this, buffer
      ensures View() == Update(old(View()), bytes)
      ensures if |bytes| <= old(buffer.Length) then buffer == old(buffer) else fresh(buffer)
    {
      if |bytes| > buffer.Length {
        var old_ := buffer;
        buffer := new nat[|bytes|](i requires 0 <= i < |bytes| reads old_ => if i < old_.Length then old_[i] else 0);
      }
      forall i | 0 <= i < |bytes| {
        buffer[i] := bytes[i];
      }
      size := |bytes|;
      assert buffer[..|bytes|] == bytes;
      assert buffer[|bytes|..] == if |bytes| < old(buffer.Length) then old(buffer[|bytes|..]) else [];
      assert buffer[..] == buffer[..|bytes|] + buffer[|bytes|..];
    }
  }
}
