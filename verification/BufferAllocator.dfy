/**
 `buffer_allocator`: one fixed-size pool of buffers per requested size, each
 pool sized so that its buffers stay within a byte limit.

 The allocator's mutex admits one request at a time; the holders of buffers copy
 and release their references while a request searches.
 */
module BufferAllocator {
  import opened Options
  import ObjectPool
  import PoolReferences

  /** What a request comes to; a size of zero divides by zero before it is rejected. */
  datatype Outcome = Undefined | Nothing | Buffer(slot: nat)

  datatype Allocator = Allocator(limit: nat, lazy: bool, pools: map<nat, ObjectPool.State>)

  function NewPool(a: Allocator, size: nat): ObjectPool.State
    requires size > 0
  {
    ObjectPool.Fresh(ObjectPool.Pool(seq(a.limit / size, i => if a.lazy then None else Some(1)), 0, a.lazy, false))
  }

  function PoolFor(a: Allocator, size: nat): ObjectPool.State
    requires size > 0
  {
    if size in a.pools then a.pools[size] else NewPool(a, size)
  }

  datatype Step = Request(size: nat) | InPool(size: nat, step: ObjectPool.Step)

  /** No request is being served. */
  predicate Quiet(a: Allocator) {
    forall size <- a.pools :: a.pools[size].phase.Idle?
  }

  predicate Enabled(a: Allocator, step: Step) {
    match step
    case Request(_) => Quiet(a)
    case InPool(size, st) => size in a.pools && !st.Begin? && ObjectPool.Enabled(a.pools[size], st)
  }

  /** A request makes the pool for its size if there is none, and starts searching it. */
  function Next(a: Allocator, step: Step): Allocator
    requires Enabled(a, step)
  {
    match step
    case Request(size) =>
      if size == 0 then a
      else a.(pools := a.pools[size := ObjectPool.StartScan(PoolFor(a, size), PoolFor(a, size).pool, false)])
    case InPool(size, st) => a.(pools := a.pools[size := ObjectPool.Next(a.pools[size], st)])
  }

  ghost predicate Run(a: Allocator, steps: seq<Step>, a': Allocator)
    decreases |steps|
  {
    if steps == [] then a == a' else Enabled(a, steps[0]) && Run(Next(a, steps[0]), steps[1..], a')
  }

  /** A pool of `n` slots that does not grow. */
  ghost predicate Fixed(s: ObjectPool.State, n: nat) {
    ObjectPool.Inv(s) && !s.pool.doubling && |s.pool.items| == n
  }

  ghost predicate Inv(a: Allocator) {
    forall size :: size in a.pools ==> size > 0 && Fixed(a.pools[size], a.limit / size)
  }

  lemma StepKeepsInv(a: Allocator, step: Step)
    requires Inv(a) && Enabled(a, step)
    ensures Inv(Next(a, step)) && Next(a, step).limit == a.limit
  {
    if step.InPool? {
      ObjectPool.StepKeepsInv(a.pools[step.size], step.step);
    } else if step.size > 0 {
      assert Fixed(PoolFor(a, step.size), a.limit / step.size);
      ObjectPool.StepKeepsInv(PoolFor(a, step.size).(phase := ObjectPool.Idle), ObjectPool.Begin);
    }
  }

  lemma {:induction false} RunKeepsInv(a: Allocator, steps: seq<Step>, a': Allocator)
    requires Inv(a) && Run(a, steps, a')
    ensures Inv(a') && a'.limit == a.limit
    decreases |steps|
  {
    if steps != [] {
      StepKeepsInv(a, steps[0]);
      RunKeepsInv(Next(a, steps[0]), steps[1..], a');
    }
  }

  lemma QuotientFits(n: nat, d: nat, k: nat)
    requires d > 0 && k <= n / d
    ensures k * d <= n
  {
    assert (n / d) * d <= n;
    assert k * d <= (n / d) * d;
  }

  /** In every run from an empty allocator, the buffers made of any one size take up at most the limit. */
  lemma WithinByteLimit(limit: nat, lazy: bool, steps: seq<Step>, a: Allocator, size: nat)
    requires Run(Allocator(limit, lazy, map[]), steps, a) && size in a.pools
    ensures ObjectPool.Created(a.pools[size].pool.items) * size <= limit
  {
    RunKeepsInv(Allocator(limit, lazy, map[]), steps, a);
    ObjectPool.CreatedWithinSlots(a.pools[size].pool.items);
    QuotientFits(limit, size, ObjectPool.Created(a.pools[size].pool.items));
  }

  /** Of a size nobody has asked for before, nobody holds a buffer, and there are as many as the limit allows,
      made already or made when they are asked for. */
  lemma NobodyHoldsNew(a: Allocator, size: nat)
    requires size > 0 && size !in a.pools
    ensures var items := PoolFor(a, size).pool.items;
      && ObjectPool.Taken(items) == {} && |items| == a.limit / size && ObjectPool.PoolInv(PoolFor(a, size).pool)
      && forall k :: 0 <= k < |items| ==> items[k] == if a.lazy then None else Some(1)
  {
  }

  /** Every buffer the limit allows is held by somebody: of a size asked for before, each one; of any other,
      none is, so the limit must allow none. */
  predicate AllHeld(a: Allocator, size: nat)
    requires size > 0
  {
    if size in a.pools then
      var items := a.pools[size].pool.items;
      forall k :: 0 <= k < |items| ==> items[k].Some? && items[k].value >= 2
    else a.limit < size
  }

  lemma FitsIffPositive(limit: nat, size: nat)
    requires size > 0
    ensures limit / size == 0 <==> limit < size
  {
    if limit < size {
      assert limit / size == 0;
    } else {
      assert limit / size >= 1;
    }
  }

  lemma AllHeldIffAllTaken(a: Allocator, size: nat)
    requires Inv(a) && size > 0
    ensures AllHeld(a, size) <==> ObjectPool.AllTaken(PoolFor(a, size).pool)
  {
    var p := PoolFor(a, size).pool;
    FitsIffPositive(a.limit, size);
    assert Fixed(PoolFor(a, size), a.limit / size);
    forall k | 0 <= k < |p.items|
      ensures !ObjectPool.Available(p, k) <==> p.items[k].Some? && p.items[k].value >= 2
    {
    }
    if size !in a.pools && |p.items| > 0 {
      assert ObjectPool.Available(p, 0);
    }
  }

  /** A request may come to nothing exactly if every buffer the limit allows is held when it begins.
      Buffers released while it searches can only make it succeed. */
  lemma RequestMayFailIffAllHeld(a: Allocator, size: nat)
    requires Inv(a) && Quiet(a) && size > 0
    ensures (exists steps, s ::
               ObjectPool.Scan(Next(a, Request(size)).pools[size], steps, s) && ObjectPool.Enabled(s, ObjectPool.GiveUp))
            <==> AllHeld(a, size)
  {
    var p := PoolFor(a, size).pool;
    assert Fixed(PoolFor(a, size), a.limit / size);
    ObjectPool.MayFailIffAllTaken(p);
    assert Next(a, Request(size)).pools[size] == ObjectPool.StartScan(ObjectPool.Fresh(p), p, false);
    AllHeldIffAllTaken(a, size);
    assert forall steps, s :: ObjectPool.Scan(ObjectPool.StartScan(ObjectPool.Fresh(p), p, false), steps, s) ==>
      (ObjectPool.Enabled(s, ObjectPool.GiveUp) <==> s.phase.round == |s.pool.items|);
  }

  // ---------------------------------------------------------------------------
  // The object
  // ---------------------------------------------------------------------------

  /** What a request leaves behind, given what the holders of buffers do while it searches. */
  function Served(a: Allocator, size: nat, meanwhile: ObjectPool.Meanwhile): ObjectPool.Got
    requires size > 0
  {
    ObjectPool.Searched(PoolFor(a, size).pool, 0, meanwhile)
  }

  /** A request gets a buffer nobody else refers to, or all the limit allows were held when it began; of a size
      asked for the first time it gets one exactly if one fits the limit. */
  lemma ServedOutcome(a: Allocator, size: nat, meanwhile: ObjectPool.Meanwhile)
    requires Inv(a) && size > 0
    ensures var got := Served(a, size, meanwhile);
      && Fixed(ObjectPool.Fresh(got.pool), a.limit / size)
      && (got.slot.None? ==> AllHeld(a, size))
      && (size !in a.pools ==> (got.slot.Some? <==> size <= a.limit))
      && (got.slot.Some? ==> got.slot.value < a.limit / size && got.pool.items[got.slot.value] == Some(2))
  {
    var p := PoolFor(a, size).pool;
    assert Fixed(PoolFor(a, size), a.limit / size);
    ObjectPool.SearchCompletes(p, meanwhile, meanwhile);
    PoolReferences.SearchOutcome(p, meanwhile);
    AllHeldIffAllTaken(a, size);
    FitsIffPositive(a.limit, size);
  }

  /** The pools between requests. */
  function Between(pools: map<nat, ObjectPool.Pool>): map<nat, ObjectPool.State> {
    map size | size in pools :: ObjectPool.Fresh(pools[size])
  }

  lemma BetweenUpdated(pools: map<nat, ObjectPool.Pool>, size: nat, p: ObjectPool.Pool)
    ensures Between(pools[size := p]) == Between(pools)[size := ObjectPool.Fresh(p)]
  {
  }

  class BufferAllocatorObject {
    var pools: map<nat, ObjectPool.Pool>
    const limit: nat
    const lazy: bool

    /** Between requests. */
    ghost function View(): Allocator
      reads this
    {
      Allocator(limit, lazy, Between(pools))
    }

    constructor (limit: nat, lazy: bool)
      ensures Inv(View()) && View() == Allocator(limit, lazy, map[])
    {
      this.limit, this.lazy := limit, lazy;
      pools := map[];
    }

    /** Looks the pool up, makes it on the first request for its size, and searches it for a buffer. */
    method Request(size: nat, meanwhile: ObjectPool.Meanwhile) returns (r: Outcome)
      requires Inv(View())
      modifies this`pools
      ensures Inv(View()) && (r.Undefined? <==> size == 0)
      ensures size == 0 ==> View() == old(View())
      ensures r.Nothing? ==> AllHeld(old(View()), size)
      ensures 0 < size && size !in old(pools) ==> (r.Buffer? <==> size <= limit)
      ensures r.Buffer? ==> size in pools && r.slot < |pools[size].items| == limit / size && pools[size].items[r.slot] == Some(2)
      ensures size > 0 ==>
        var got := Served(old(View()), size, meanwhile);
        && View() == old(View()).(pools := old(View()).pools[size := ObjectPool.Fresh(got.pool)])
        && r == (match got.slot case None => Nothing case Some(k) => Buffer(k))
    {
      if size == 0 {
        return Undefined;
      }
      var pool;
      if size in pools {
        pool := pools[size];
        assert Fixed(View().pools[size], limit / size);
      } else {
        var count := limit / size;
        pool := ObjectPool.Pool(seq(count, i => if lazy then None else Some(1)), 0, lazy, false);
      }
      assert pool == PoolFor(View(), size).pool;
      ServedOutcome(View(), size, meanwhile);
      var got := ObjectPool.Searched(pool, 0, meanwhile);
      BetweenUpdated(pools, size, got.pool);
      pools := pools[size := got.pool];
      r := match got.slot case None => Nothing case Some(k) => Buffer(k);
    }
  }
}
