/**
 `ref_count_object_pool`: a vector of reference-counted items that hands out an
 item when nobody but the pool itself refers to it.  An item never leaves its
 slot, so a slot is either empty or carries the reference count of its item.

 The pool's mutex admits one search at a time, but it does not stop those who hold
 items from copying and releasing their references, which are atomic.  So a search
 is a sequence of looks, one slot each, and references come and go between them.
 */
module ObjectPool {
  import opened Options

  datatype Pool = Pool(items: seq<Option<nat>>, next: nat, lazy: bool, doubling: bool)

  /** The pool refers to each of its items, and the search starts inside the vector. */
  ghost predicate PoolInv(p: Pool) {
    && (forall k :: 0 <= k < |p.items| && p.items[k].Some? ==> p.items[k].value >= 1)
    && (p.items == [] ==> p.next == 0)
    && (p.items != [] ==> p.next < |p.items|)
  }

  /** The slot looked at in the `i`-th round of the search. */
  function Index(p: Pool, i: nat): (k: nat)
    requires i < |p.items|
    ensures k < |p.items|
  {
    if p.lazy then i else (p.next + i) % |p.items|
  }

  /** Nobody outside the pool refers to slot `k`. */
  predicate Available(p: Pool, k: nat)
    requires k < |p.items|
  {
    p.items[k].None? || p.items[k].value == 1
  }

  /** The pool after handing out slot `k`: created if need be, with one more reference. */
  function HandOut(p: Pool, k: nat): Pool
    requires k < |p.items| && Available(p, k)
  {
    p.(items := p.items[k := Some(2)], next := (k + 1) % |p.items|)
  }

  /** A doubling pool that finds nothing grows to twice its size and looks again. */
  function Grown(p: Pool): Pool {
    p.(items := p.items + seq(|p.items|, i => None))
  }

  // ---------------------------------------------------------------------------
  // A pool, its searches and the holders of its items
  // ---------------------------------------------------------------------------

  datatype Phase = Idle | Looking(round: nat, grown: bool)

  /** How the last search has ended. */
  datatype Outcome = Pending | Slot(slot: nat) | Nothing | Thrown

  /** `held` is bookkeeping: the slots that were taken when the scan under way began. */
  datatype State = State(pool: Pool, phase: Phase, outcome: Outcome, held: set<nat>)

  datatype Step = Begin | Look | GiveUp | AddRef(slot: nat) | Release(slot: nat)

  /** A holder may copy or drop a reference only while the item is outstanding. */
  predicate Outside(p: Pool, k: nat) {
    k < |p.items| && p.items[k].Some? && p.items[k].value >= 2
  }

  predicate Enabled(s: State, step: Step) {
    match step
    case Begin => s.phase.Idle?
    case Look => s.phase.Looking? && s.phase.round < |s.pool.items|
    case GiveUp => s.phase.Looking? && s.phase.round == |s.pool.items|
    case AddRef(k) => Outside(s.pool, k)
    case Release(k) => Outside(s.pool, k)
  }

  function Taken(items: seq<Option<nat>>): set<nat> {
    set k: nat | k < |items| && items[k].Some? && items[k].value >= 2
  }

  function StartScan(s: State, pool: Pool, grown: bool): State {
    State(pool, Looking(0, grown), Pending, Taken(pool.items))
  }

  function DoLook(s: State): State
    requires Enabled(s, Look)
  {
    var k := Index(s.pool, s.phase.round);
    if Available(s.pool, k) then s.(pool := HandOut(s.pool, k), phase := Idle, outcome := Slot(k))
    else s.(phase := Looking(s.phase.round + 1, s.phase.grown))
  }

  /** A doubling pool scans once more after growing; when that is in vain too it throws. */
  function DoGiveUp(s: State): State
    requires Enabled(s, GiveUp)
  {
    if s.pool.doubling && !s.phase.grown then StartScan(s, Grown(s.pool), true)
    else s.(phase := Idle, outcome := if s.pool.doubling then Thrown else Nothing)
  }

  function Recount(p: Pool, k: nat, n: int): Pool
    requires Outside(p, k) && n >= -1
  {
    p.(items := p.items[k := Some(p.items[k].value + n)])
  }

  function Next(s: State, step: Step): State
    requires Enabled(s, step)
  {
    match step
    case Begin => StartScan(s, s.pool, false)
    case Look => DoLook(s)
    case GiveUp => DoGiveUp(s)
    case AddRef(k) => s.(pool := Recount(s.pool, k, 1))
    case Release(k) => s.(pool := Recount(s.pool, k, -1))
  }

  ghost predicate Run(s: State, steps: seq<Step>, s': State)
    decreases |steps|
  {
    if steps == [] then s == s' else Enabled(s, steps[0]) && Run(Next(s, steps[0]), steps[1..], s')
  }

  function Fresh(p: Pool): State {
    State(p, Idle, Pending, {})
  }

  /** Slots passed have items; what is taken now was taken when the scan began; and the slots a
      pool has grown by stay empty until the scan comes to them. */
  ghost predicate Inv(s: State) {
    && PoolInv(s.pool)
    && (s.phase.Looking? ==>
          && s.outcome.Pending?
          && s.phase.round <= |s.pool.items|
          && (forall j :: 0 <= j < s.phase.round ==> Index(s.pool, j) in s.held && s.pool.items[Index(s.pool, j)].Some?)
          && Taken(s.pool.items) <= s.held
          && (forall k <- s.held :: k < |s.pool.items|)
          && (s.phase.grown ==> s.pool.doubling && |s.pool.items| % 2 == 0 && forall k :: |s.pool.items| <= 2 * k && k < |s.pool.items| ==> s.pool.items[k].None?))
  }

  // ---- the circular search ---------------------------------------------------

  /** No slot is looked at twice. */
  lemma NeverTwice(p: Pool, i: nat, j: nat)
    requires PoolInv(p) && i < j < |p.items|
    ensures Index(p, i) != Index(p, j)
  {
    if !p.lazy {
      Wraps(p, i);
      Wraps(p, j);
    }
  }

  lemma Wraps(p: Pool, i: nat)
    requires PoolInv(p) && i < |p.items| && !p.lazy
    ensures Index(p, i) == if p.next + i < |p.items| then p.next + i else p.next + i - |p.items|
  {
  }

  /** Every slot is looked at. */
  lemma EveryOne(p: Pool, k: nat) returns (i: nat)
    requires PoolInv(p) && k < |p.items|
    ensures i < |p.items| && Index(p, i) == k
  {
    if p.lazy {
      i := k;
    } else {
      i := if p.next <= k then k - p.next else k + |p.items| - p.next;
      Wraps(p, i);
    }
  }

  // ---- every step ------------------------------------------------------------

  lemma RecountKeepsInv(s: State, k: nat, n: int)
    requires Inv(s) && Outside(s.pool, k) && n >= -1
    ensures Inv(s.(pool := Recount(s.pool, k, n)))
  {
    var t := s.(pool := Recount(s.pool, k, n));
    if s.phase.Looking? {
      forall j | 0 <= j < s.phase.round ensures Index(t.pool, j) in t.held && t.pool.items[Index(t.pool, j)].Some? {
        assert Index(t.pool, j) == Index(s.pool, j);
      }
    }
  }

  lemma LookKeepsInv(s: State)
    requires Inv(s) && Enabled(s, Look)
    ensures Inv(DoLook(s))
  {
    var k := Index(s.pool, s.phase.round);
    if !Available(s.pool, k) {
      assert k in Taken(s.pool.items);
    }
  }

  lemma StepKeepsInv(s: State, step: Step)
    requires Inv(s) && Enabled(s, step)
    ensures Inv(Next(s, step))
    ensures Next(s, step).pool.doubling == s.pool.doubling && Next(s, step).pool.lazy == s.pool.lazy
    ensures |Next(s, step).pool.items| == if step.GiveUp? && s.pool.doubling && !s.phase.grown then 2 * |s.pool.items| else |s.pool.items|
  {
    match step
    case Begin =>
    case Look => LookKeepsInv(s);
    case GiveUp =>
    case AddRef(k) => RecountKeepsInv(s, k, 1);
    case Release(k) => RecountKeepsInv(s, k, -1);
  }

  lemma {:induction false} RunKeepsInv(s: State, steps: seq<Step>, s': State)
    requires Inv(s) && Run(s, steps, s')
    ensures Inv(s') && s'.pool.doubling == s.pool.doubling && s'.pool.lazy == s.pool.lazy
    ensures !s.pool.doubling ==> |s'.pool.items| == |s.pool.items|
    decreases |steps|
  {
    if steps != [] {
      StepKeepsInv(s, steps[0]);
      RunKeepsInv(Next(s, steps[0]), steps[1..], s');
    }
  }

  /** Whatever references have come and gone since the search began: an item handed out is referred to by
      nobody but the pool at that moment, and no other slot changes. */
  lemma HandsOutOnlySpare(p: Pool, steps: seq<Step>, s: State)
    requires PoolInv(p) && Run(Fresh(p), steps, s) && Enabled(s, Look) && Next(s, Look).outcome.Slot?
    ensures var k, t := Next(s, Look).outcome.slot, Next(s, Look).pool;
      && k < |s.pool.items| == |t.items| && Available(s.pool, k) && k !in Taken(s.pool.items)
      && t.items[k] == Some(2)
      && forall j :: 0 <= j < |t.items| && j != k ==> t.items[j] == s.pool.items[j]
  {
    RunKeepsInv(Fresh(p), steps, s);
  }

  /** A doubling pool throws only if it has no slots, and then it does: releases and copies in
      between cannot make it run out. */
  lemma DoublingFailsIffEmpty(p: Pool, steps: seq<Step>, s: State)
    requires PoolInv(p) && p.doubling && Run(Fresh(p), steps, s) && Enabled(s, GiveUp)
    ensures Next(s, GiveUp).phase.Idle? ==> s.pool.items == [] && Next(s, GiveUp).outcome.Thrown?
    ensures s.pool.items == [] && s.phase.grown ==> Next(s, GiveUp).outcome.Thrown?
  {
    RunKeepsInv(Fresh(p), steps, s);
    if s.phase.grown && s.pool.items != [] {
      var i := EveryOne(s.pool, |s.pool.items| - 1);
    }
  }

  // ---------------------------------------------------------------------------
  // When a search comes to nothing
  // ---------------------------------------------------------------------------

  /** The part of a run in which one scan goes on. */
  ghost predicate Scan(s: State, steps: seq<Step>, s': State) {
    && Run(s, steps, s') && s'.phase.Looking?
    && forall step <- steps :: step.Look? || step.AddRef? || step.Release?
  }

  predicate AllTaken(p: Pool) {
    forall k :: 0 <= k < |p.items| ==> !Available(p, k)
  }

  lemma {:induction false} ScanStaysLooking(s: State, steps: seq<Step>, s': State)
    requires Scan(s, steps, s')
    ensures s.phase.Looking? && s'.held == s.held && |s'.pool.items| == |s.pool.items|
    decreases |steps|
  {
    if steps != [] {
      assert steps[0] in steps && forall step <- steps[1..] :: step in steps;
      ScanStaysLooking(Next(s, steps[0]), steps[1..], s');
    }
  }

  /** A scan that has passed every slot without finding one has found each taken, and each was taken when
      the scan began: nobody but the pool's own searches can take a spare item. */
  lemma FoundNothing(p: Pool, steps: seq<Step>, s: State, grown: bool)
    requires PoolInv(p) && !grown && Scan(StartScan(Fresh(p), p, grown), steps, s) && s.phase.round == |s.pool.items|
    ensures AllTaken(p)
  {
    var start := StartScan(Fresh(p), p, grown);
    RunKeepsInv(start, steps, s);
    ScanStaysLooking(start, steps, s);
    forall k | 0 <= k < |p.items| ensures !Available(p, k) {
      var i := EveryOne(s.pool, k);
      assert k in s.held;
    }
  }

  lemma {:induction false} LooksOnly(s: State, n: nat) returns (steps: seq<Step>, s': State)
    requires Inv(s) && s.phase.Looking? && AllTaken(s.pool) && s.phase.round + n == |s.pool.items|
    ensures Scan(s, steps, s') && s'.phase.round == |s'.pool.items|
    decreases n
  {
    if n == 0 {
      steps, s' := [], s;
    } else {
      LookKeepsInv(s);
      var rest;
      rest, s' := LooksOnly(DoLook(s), n - 1);
      steps := [Look] + rest;
      assert steps[1..] == rest;
    }
  }

  /** So a search may come to nothing exactly if every item is outstanding when it begins; and if some slot
      is spare then, it succeeds, whatever happens meanwhile. */
  lemma MayFailIffAllTaken(p: Pool)
    requires PoolInv(p)
    ensures (exists steps, s :: Scan(StartScan(Fresh(p), p, false), steps, s) && s.phase.round == |s.pool.items|) <==> AllTaken(p)
  {
    var start := StartScan(Fresh(p), p, false);
    if steps, s :| Scan(start, steps, s) && s.phase.round == |s.pool.items| {
      FoundNothing(p, steps, s, false);
    }
    if AllTaken(p) {
      var steps, s := LooksOnly(start, |p.items|);
    }
  }

  // ---------------------------------------------------------------------------
  // How many objects a lazy pool creates
  // ---------------------------------------------------------------------------

  function Created(items: seq<Option<nat>>): nat {
    if items == [] then 0
    else Created(items[..|items| - 1]) + if items[|items| - 1].Some? then 1 else 0
  }

  function Outstanding(items: seq<Option<nat>>): (n: nat)
    ensures n == |Taken(items)|
  {
    OutstandingSteps(items);
    if items == [] then 0
    else
      var last := items[|items| - 1];
      Outstanding(items[..|items| - 1]) + if last.Some? && last.value >= 2 then 1 else 0
  }

  lemma OutstandingSteps(items: seq<Option<nat>>)
    ensures items == [] ==> Taken(items) == {}
    ensures items != [] ==>
      var n := |items| - 1;
      |Taken(items)| == |Taken(items[..n])| + if items[n].Some? && items[n].value >= 2 then 1 else 0
  {
    if items != [] {
      var n := |items| - 1;
      var before := Taken(items[..n]);
      assert n !in before;
      assert Taken(items) == if items[n].Some? && items[n].value >= 2 then before + {n} else before;
    }
  }

  lemma OutstandingGrows(items: seq<Option<nat>>)
    requires items != []
    ensures var n := |items| - 1;
      Outstanding(items) == Outstanding(items[..n]) + if items[n].Some? && items[n].value >= 2 then 1 else 0
  {
  }

  function Max(a: nat, b: nat): nat {
    if a < b then b else a
  }

  /** The largest number of items outstanding at once, over the whole run. */
  function Peak(s: State, steps: seq<Step>): nat
    decreases |steps|
  {
    if steps == [] || !Enabled(s, steps[0]) then Outstanding(s.pool.items)
    else Max(Outstanding(s.pool.items), Peak(Next(s, steps[0]), steps[1..]))
  }

  /** The first `c` slots are created and no other. */
  ghost predicate Prefix(items: seq<Option<nat>>, c: nat) {
    c <= |items| && forall k :: 0 <= k < |items| ==> (items[k].Some? <==> k < c)
  }

  lemma {:induction false} CreatedPrefix(items: seq<Option<nat>>, c: nat)
    requires Prefix(items, c)
    ensures Created(items) == c && Outstanding(items) <= c
    ensures Outstanding(items) == c <==> forall k :: 0 <= k < c ==> items[k].value >= 2
  {
    if items != [] {
      var n := |items| - 1;
      var front, c' := items[..n], if c <= n then c else n;
      assert forall k :: 0 <= k < n ==> front[k] == items[k];
      assert Prefix(front, c');
      CreatedPrefix(front, c');
      OutstandingGrows(items);
    }
  }

  /** After a run whose peak so far is `peak`: never more created than the peak and one, and what the scan
      under way has passed was outstanding at once. */
  ghost predicate LazyInv(s: State, peak: nat, c: nat) {
    && Inv(s) && s.pool.lazy && Prefix(s.pool.items, c)
    && Outstanding(s.pool.items) <= peak <= c <= peak + 1 && (c > 0 ==> peak > 0)
    && (s.phase.Looking? ==> |s.held| <= peak)
  }

  function FirstSlots(n: nat): (r: set<nat>)
    ensures |r| == n && forall k :: k in r <==> 0 <= k < n
  {
    if n == 0 then {} else FirstSlots(n - 1) + {n - 1}
  }

  /** What a scan has passed was all outstanding when the scan began. */
  lemma PassedWithinPeak(s: State, peak: nat, c: nat)
    requires LazyInv(s, peak, c) && s.phase.Looking?
    ensures s.phase.round <= peak
  {
    var passed := FirstSlots(s.phase.round);
    assert forall k <- passed :: Index(s.pool, k) in s.held;
    assert passed <= s.held;
    Within(passed, s.held);
  }

  lemma {:induction false} Within(a: set<nat>, b: set<nat>)
    requires a <= b
    ensures |a| <= |b|
    decreases a
  {
    if x :| x in a {
      Within(a - {x}, b - {x});
    }
  }

  /** The look that comes to the first empty slot creates an item. */
  predicate Creates(s: State) {
    Enabled(s, Look) && s.pool.items[Index(s.pool, s.phase.round)].None?
  }

  lemma CreatingLook(s: State, peak: nat, c: nat)
    requires LazyInv(s, peak, c) && Creates(s)
    ensures s.phase.round == c == peak
    ensures var t := Next(s, Look).pool.items; Prefix(t, c + 1) && Outstanding(t) == Outstanding(s.pool.items) + 1
  {
    PassedWithinPeak(s, peak, c);
    var t := Next(s, Look).pool.items;
    assert Taken(t) == Taken(s.pool.items) + {c};
  }

  lemma OtherStepsCreateNothing(s: State, step: Step, peak: nat, c: nat)
    requires LazyInv(s, peak, c) && Enabled(s, step) && !(step.Look? && Creates(s))
    ensures LazyInv(Next(s, step), Max(peak, Outstanding(Next(s, step).pool.items)), c)
  {
    StepKeepsInv(s, step);
    var t := Next(s, step);
    assert Prefix(t.pool.items, c);
    CreatedPrefix(t.pool.items, c);
  }

  lemma LazyStep(s: State, step: Step, peak: nat, c: nat) returns (c': nat)
    requires LazyInv(s, peak, c) && Enabled(s, step)
    ensures LazyInv(Next(s, step), Max(peak, Outstanding(Next(s, step).pool.items)), c')
  {
    if step.Look? && Creates(s) {
      CreatingLook(s, peak, c);
      LookKeepsInv(s);
      CreatedPrefix(s.pool.items, c);
      c' := c + 1;
    } else {
      OtherStepsCreateNothing(s, step, peak, c);
      c' := c;
    }
  }

  lemma {:induction false} LazyRun(s: State, steps: seq<Step>, s': State, peak: nat, c: nat) returns (c': nat)
    requires LazyInv(s, peak, c) && Run(s, steps, s')
    ensures LazyInv(s', Max(peak, Peak(s, steps)), c')
    decreases |steps|
  {
    if steps == [] {
      c' := c;
    } else {
      var t := Next(s, steps[0]);
      c' := LazyStep(s, steps[0], peak, c);
      c' := LazyRun(t, steps[1..], s', Max(peak, Outstanding(t.pool.items)), c');
      PeakCountsStart(t, steps[1..]);
    }
  }

  lemma PeakCountsStart(s: State, steps: seq<Step>)
    ensures Outstanding(s.pool.items) <= Peak(s, steps)
  {
  }

  /** A lazy pool of `n` slots nobody has used yet. */
  function Unused(n: nat, doubling: bool): State {
    Fresh(Pool(seq(n, i => None), 0, true, doubling))
  }

  lemma UnusedRun(n: nat, doubling: bool, steps: seq<Step>, s: State) returns (c: nat)
    requires Run(Unused(n, doubling), steps, s)
    ensures LazyInv(s, Peak(Unused(n, doubling), steps), c) && Created(s.pool.items) == c
  {
    var start := Unused(n, doubling);
    assert Taken(start.pool.items) == {};
    c := LazyRun(start, steps, s, 0, 0);
    CreatedPrefix(s.pool.items, c);
  }

  /** In every run of a lazy pool, searches interleaved with releases, the objects created exceed the peak
      number outstanding at once by one at most. */
  lemma LazyCreatesPeakAndOne(n: nat, doubling: bool, steps: seq<Step>, s: State)
    requires Run(Unused(n, doubling), steps, s)
    ensures Peak(Unused(n, doubling), steps) <= Created(s.pool.items) <= Peak(Unused(n, doubling), steps) + 1
  {
    var c := UnusedRun(n, doubling, steps, s);
  }

  lemma {:induction false} Extend(s: State, steps: seq<Step>, t: State, step: Step)
    requires Run(s, steps, t) && Enabled(t, step)
    ensures Run(s, steps + [step], Next(t, step))
    ensures Peak(s, steps + [step]) == Max(Peak(s, steps), Outstanding(Next(t, step).pool.items))
    decreases |steps|
  {
    if steps == [] {
      assert [step][1..] == [] && [] + [step] == [step];
      assert Run(Next(s, step), [], Next(s, step));
    } else {
      Extend(Next(s, steps[0]), steps[1..], t, step);
      assert (steps + [step])[1..] == steps[1..] + [step];
    }
  }

  lemma CreatingCounts(s: State, peak: nat, c: nat)
    requires LazyInv(s, peak, c) && Creates(s)
    ensures var t := Next(s, Look).pool.items;
      && peak == c && Created(t) == c + 1 && Outstanding(t) <= c + 1
      && (Outstanding(t) == c + 1 <==> forall j :: 0 <= j < s.phase.round ==> !Available(s.pool, j))
  {
    CreatingLook(s, peak, c);
    CreatedPrefix(Next(s, Look).pool.items, c + 1);
    CreatedPrefix(s.pool.items, c);
    assert forall j :: 0 <= j < c ==> (!Available(s.pool, j) <==> s.pool.items[j].value >= 2);
  }

  /** A look that creates an item keeps the number created within the peak exactly if nobody has let go of
      an item the search has passed. */
  lemma CreatesWithinPeakIffNoneReleased(n: nat, doubling: bool, steps: seq<Step>, s: State)
    requires Run(Unused(n, doubling), steps, s) && Creates(s)
    ensures Run(Unused(n, doubling), steps + [Look], Next(s, Look))
    ensures Created(Next(s, Look).pool.items) <= Peak(Unused(n, doubling), steps + [Look])
            <==> forall j :: 0 <= j < s.phase.round ==> !Available(s.pool, j)
  {
    var c := UnusedRun(n, doubling, steps, s);
    CreatingCounts(s, Peak(Unused(n, doubling), steps), c);
    Extend(Unused(n, doubling), steps, s, Look);
  }

  /** A search passes the only item, which is then let go, and creates a second one. */
  lemma PassedThenReleased(n: nat, doubling: bool) returns (steps: seq<Step>, s: State)
    requires n > 1 || (n == 1 && doubling)
    ensures Run(Unused(n, doubling), steps, s) && Creates(s) && s.phase.round == 1 && Available(s.pool, 0)
  {
    var start := Unused(n, doubling);
    steps, s := [], start;
    steps, s := Taking(start, steps, s, Begin);
    steps, s := Taking(start, steps, s, Look);
    steps, s := Taking(start, steps, s, Begin);
    steps, s := Taking(start, steps, s, Look);
    if n == 1 {
      steps, s := Taking(start, steps, s, GiveUp);
      steps, s := Taking(start, steps, s, Look);
    }
    steps, s := Taking(start, steps, s, Release(0));
  }

  lemma Taking(start: State, steps: seq<Step>, s: State, step: Step) returns (steps': seq<Step>, s': State)
    requires Run(start, steps, s) && Enabled(s, step)
    ensures Run(start, steps', s') && s' == Next(s, step)
  {
    Extend(start, steps, s, step);
    steps', s' := steps + [step], Next(s, step);
  }

  /** The objects created stay within the peak in every run exactly if the pool has at most one slot and
      cannot get a second. */
  lemma AlwaysWithinPeakIffOneSlot(n: nat, doubling: bool)
    ensures (forall steps, s :: Run(Unused(n, doubling), steps, s) ==> Created(s.pool.items) <= Peak(Unused(n, doubling), steps))
            <==> n == 0 || (n == 1 && !doubling)
  {
    if n == 0 || (n == 1 && !doubling) {
      forall steps, s | Run(Unused(n, doubling), steps, s)
        ensures Created(s.pool.items) <= Peak(Unused(n, doubling), steps)
      {
        var c := UnusedRun(n, doubling, steps, s);
        FewSlots(Unused(n, doubling), steps, s);
      }
    } else {
      var steps, s := PassedThenReleased(n, doubling);
      CreatesWithinPeakIffNoneReleased(n, doubling, steps, s);
    }
  }

  lemma {:induction false} FewSlots(s: State, steps: seq<Step>, s': State)
    requires Inv(s) && Run(s, steps, s') && (s.pool.items == [] || (|s.pool.items| == 1 && !s.pool.doubling))
    ensures |s'.pool.items| == |s.pool.items|
    decreases |steps|
  {
    if steps != [] {
      StepKeepsInv(s, steps[0]);
      FewSlots(Next(s, steps[0]), steps[1..], s');
    }
  }

  lemma {:induction false} CreatedWithinSlots(items: seq<Option<nat>>)
    ensures Created(items) <= |items|
  {
    if items != [] {
      CreatedWithinSlots(items[..|items| - 1]);
    }
  }

  // ---------------------------------------------------------------------------
  // The object
  // ---------------------------------------------------------------------------

  /** What the holders do to the items before the search's look at round `i`. */
  type Meanwhile = nat -> seq<Step>

  function Disturbed(p: Pool, steps: seq<Step>): (q: Pool)
    ensures |q.items| == |p.items| && q == p.(items := q.items)
  {
    if steps == [] then p
    else
      var q := Disturbed(p, steps[..|steps| - 1]);
      match steps[|steps| - 1]
      case AddRef(k) => if Outside(q, k) then Recount(q, k, 1) else q
      case Release(k) => if Outside(q, k) then Recount(q, k, -1) else q
      case _ => q
  }

  /** The pool after a search and what it found, from round `i` on. */
  datatype Got = Got(pool: Pool, slot: Option<nat>)

  function Searched(p: Pool, i: nat, meanwhile: Meanwhile): Got
    requires i <= |p.items|
    decreases |p.items| - i
  {
    if i == |p.items| then Got(p, None)
    else
      var q := Disturbed(p, meanwhile(i));
      var k := Index(q, i);
      if Available(q, k) then Got(HandOut(q, k), Some(k)) else Searched(q, i + 1, meanwhile)
  }

  lemma {:induction false} DisturbedRuns(s: State, changes: seq<Step>) returns (steps: seq<Step>)
    requires s.phase.Looking?
    ensures Scan(s, steps, s.(pool := Disturbed(s.pool, changes)))
    decreases |changes|
  {
    if changes == [] {
      steps := [];
    } else {
      var n := |changes| - 1;
      steps := DisturbedRuns(s, changes[..n]);
      var t, step := s.(pool := Disturbed(s.pool, changes[..n])), changes[n];
      if (step.AddRef? || step.Release?) && Outside(t.pool, step.slot) {
        Extend(s, steps, t, step);
        steps := steps + [step];
      }
    }
  }

  lemma {:induction false} Appended(s: State, a: seq<Step>, t: State, b: seq<Step>, u: State)
    requires Run(s, a, t) && Run(t, b, u)
    ensures Run(s, a + b, u)
    decreases |a|
  {
    if a == [] {
      assert a + b == b;
    } else {
      Appended(Next(s, a[0]), a[1..], t, b, u);
      assert (a + b)[1..] == a[1..] + b;
    }
  }

  lemma LooksOnce(s: State, changes: seq<Step>) returns (steps: seq<Step>, t: State)
    requires s.phase.Looking? && s.phase.round < |s.pool.items|
    ensures t == s.(pool := Disturbed(s.pool, changes)) && |t.pool.items| == |s.pool.items|
    ensures Enabled(t, Look) && Run(s, steps, DoLook(t))
  {
    steps := DisturbedRuns(s, changes);
    t := s.(pool := Disturbed(s.pool, changes));
    Extend(s, steps, t, Look);
    steps := steps + [Look];
  }

  /** What the scanning loop computes is what some run of looks and changes of references leads to. */
  lemma {:induction false} SearchedRuns(s: State, meanwhile: Meanwhile) returns (steps: seq<Step>, s': State)
    requires s.phase.Looking? && s.phase.round <= |s.pool.items|
    ensures Run(s, steps, s') && s'.pool == Searched(s.pool, s.phase.round, meanwhile).pool
    ensures match Searched(s.pool, s.phase.round, meanwhile).slot
      case Some(k) => s'.phase.Idle? && s'.outcome == Slot(k)
      case None => s'.phase == Looking(|s'.pool.items|, s.phase.grown) && s'.outcome == s.outcome
    decreases |s.pool.items| - s.phase.round
  {
    if s.phase.round == |s.pool.items| {
      steps, s' := [], s;
    } else {
      var t;
      steps, t := LooksOnce(s, meanwhile(s.phase.round));
      s' := DoLook(t);
      if !Available(t.pool, Index(t.pool, t.phase.round)) {
        var looked, rest := s', [];
        rest, s' := SearchedRuns(looked, meanwhile);
        Appended(s, steps, looked, rest, s');
        steps := steps + rest;
      }
    }
  }

  class RefCountObjectPool {
    var items: seq<Option<nat>>
    var nextSearchIndex: nat
    const lazy: bool
    const doubling: bool

    ghost function View(): Pool
      reads this
    {
      Pool(items, nextSearchIndex, lazy, doubling)
    }

    constructor (size: nat, doubling: bool, lazy: bool)
      ensures PoolInv(View()) && |items| == size && this.lazy == lazy && this.doubling == doubling
      ensures forall k :: 0 <= k < size ==> items[k] == if lazy then None else Some(1)
    {
      this.doubling, this.lazy := doubling, lazy;
      items := seq(size, i => if lazy then None else Some(1));
      nextSearchIndex := 0;
    }

    /** The holders of items change their references. */
    method Change(steps: seq<Step>)
      modifies this`items
      ensures View() == Disturbed(old(View()), steps)
    {
      for i := 0 to |steps|
        invariant View() == Disturbed(old(View()), steps[..i])
      {
        assert steps[..i + 1][..i] == steps[..i];
        match steps[i] {
          case AddRef(k) =>
            if k < |items| && items[k].Some? && items[k].value >= 2 {
              items := items[k := Some(items[k].value + 1)];
            }
          case Release(k) =>
            if k < |items| && items[k].Some? && items[k].value >= 2 {
              items := items[k := Some(items[k].value - 1)];
            }
          case _ =>
        }
      }
      assert steps[..|steps|] == steps;
    }

    /** The scanning loop: creates an empty slot it comes across, and stops at the first
        item that only the pool refers to. */
    method QueryItem(meanwhile: Meanwhile) returns (slot: Option<nat>)
      modifies this`items, this`nextSearchIndex
      ensures Got(View(), slot) == Searched(old(View()), 0, meanwhile)
    {
      var i := 0;
      while i < |items|
        invariant 0 <= i <= |items|
        invariant Searched(View(), i, meanwhile) == Searched(old(View()), 0, meanwhile)
        decreases |items| - i
      {
        Change(meanwhile(i));
        var index := if lazy then i else (nextSearchIndex + i) % |items|;
        if items[index].None? {
          items := items[index := Some(1)];
        }
        if items[index].value == 1 {
          nextSearchIndex := (index + 1) % |items|;
          items := items[index := Some(2)];
          return Some(index);
        }
        i := i + 1;
      }
      return None;
    }

    /** The locked operation: a doubling pool that finds nothing grows and scans once more. */
    method GetItem(first: Meanwhile, second: Meanwhile) returns (slot: Option<nat>, thrown: bool)
      requires PoolInv(View())
      modifies this`items, this`nextSearchIndex
      ensures var got := Searched(old(View()), 0, first);
        if got.slot.Some? || !doubling then Got(View(), slot) == got
        else Got(View(), slot) == Searched(Grown(got.pool), 0, second)
      ensures PoolInv(View()) && (thrown <==> doubling && old(items) == [])
      ensures doubling && old(items) != [] ==> slot.Some?
    {
      SearchCompletes(View(), first, second);
      thrown := false;
      slot := QueryItem(first);
      if slot.None? && doubling {
        items := items + seq(|items|, i => None);
        slot := QueryItem(second);
        thrown := slot.None?;
      }
    }
  }

  lemma ScanKeepsInv(s: State, meanwhile: Meanwhile)
    requires Inv(s) && s.phase.Looking? && s.phase.round == 0
    ensures var got := Searched(s.pool, 0, meanwhile);
      && PoolInv(got.pool) && |got.pool.items| == |s.pool.items| && got.pool.doubling == s.pool.doubling
      && (s.pool.items == [] ==> got.slot.None?)
      && (s.phase.grown && s.pool.items != [] ==> got.slot.Some?)
  {
    var steps, s' := SearchedRuns(s, meanwhile);
    RunKeepsInv(s, steps, s');
    SearchedKeepsSize(s.pool, 0, meanwhile);
    if s.phase.grown && s.pool.items != [] && Searched(s.pool, 0, meanwhile).slot.None? {
      var i := EveryOne(s'.pool, |s'.pool.items| - 1);
      assert s'.phase.grown;
    }
  }

  lemma SecondScan(p: Pool, second: Meanwhile)
    requires PoolInv(p) && p.doubling
    ensures var again := Searched(Grown(p), 0, second); PoolInv(again.pool) && (again.slot.None? <==> p.items == [])
  {
    var start := StartScan(Fresh(p), Grown(p), true);
    assert Inv(start);
    ScanKeepsInv(start, second);
    assert Grown(p).items == [] <==> p.items == [];
  }

  /** The second scan of a doubling pool with slots cannot fail. */
  lemma SearchCompletes(p: Pool, first: Meanwhile, second: Meanwhile)
    requires PoolInv(p)
    ensures var got := Searched(p, 0, first);
      PoolInv(got.pool) && |got.pool.items| == |p.items| && got.pool.doubling == p.doubling && (p.items == [] ==> got.slot.None?)
    ensures var got := Searched(p, 0, first);
      got.slot.None? && p.doubling ==>
        var again := Searched(Grown(got.pool), 0, second);
        PoolInv(again.pool) && (again.slot.None? <==> p.items == [])
  {
    ScanKeepsInv(StartScan(Fresh(p), p, false), first);
    var q := Searched(p, 0, first).pool;
    if p.doubling {
      SecondScan(q, second);
    }
  }

  lemma {:induction false} SearchedKeepsSize(p: Pool, i: nat, meanwhile: Meanwhile)
    requires i <= |p.items|
    ensures |Searched(p, i, meanwhile).pool.items| == |p.items|
    ensures p.items == [] ==> Searched(p, i, meanwhile) == Got(p, None)
    decreases |p.items| - i
  {
    if i < |p.items| {
      var q := Disturbed(p, meanwhile(i));
      if !Available(q, Index(q, i)) {
        SearchedKeepsSize(q, i + 1, meanwhile);
      }
    }
  }
}
