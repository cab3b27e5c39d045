/**
 Who refers to the items of a pool: what its counts say about the history of hand-outs,
 copies and releases, and when a search finds an item.
 */
module PoolReferences {
  import opened Options
  import opened ObjectPool

  /** The references to an item besides the pool's. */
  function References(item: Option<nat>): nat {
    if item.Some? && item.value > 0 then item.value - 1 else 0
  }

  function ReferencesTo(p: Pool, k: nat): nat {
    if k < |p.items| then References(p.items[k]) else 0
  }

  /** What a step means to those who hold references to the item in slot `k`: they are handed one, they copy
      one, or they give one back. */
  function Gained(s: State, step: Step, k: nat): int
    requires Enabled(s, step)
  {
    match step
    case Look => if Next(s, step).outcome == Slot(k) then 1 else 0
    case AddRef(j) => if j == k then 1 else 0
    case Release(j) => if j == k then -1 else 0
    case _ => 0
  }

  function GainedOver(s: State, steps: seq<Step>, k: nat): int
    decreases |steps|
  {
    if steps == [] || !Enabled(s, steps[0]) then 0 else Gained(s, steps[0], k) + GainedOver(Next(s, steps[0]), steps[1..], k)
  }

  lemma StepBalances(s: State, step: Step, k: nat)
    requires Inv(s) && Enabled(s, step)
    ensures ReferencesTo(Next(s, step).pool, k) == ReferencesTo(s.pool, k) + Gained(s, step, k)
  {
  }

  /** In every run the references counted for an item are those there were, and those handed out and copied
      since, without those given back. */
  lemma {:induction false} ReferencesBalance(s: State, steps: seq<Step>, s': State, k: nat)
    requires Inv(s) && Run(s, steps, s')
    ensures ReferencesTo(s'.pool, k) == ReferencesTo(s.pool, k) + GainedOver(s, steps, k)
    decreases |steps|
  {
    if steps != [] {
      StepKeepsInv(s, steps[0]);
      StepBalances(s, steps[0], k);
      ReferencesBalance(Next(s, steps[0]), steps[1..], s', k);
    }
  }

  /** So in a pool nobody held anything of, an item is spare exactly when as many references to it have been
      given back as were handed out and copied. */
  lemma SpareIffAllGivenBack(p: Pool, steps: seq<Step>, s: State, k: nat)
    requires PoolInv(p) && (forall j :: 0 <= j < |p.items| ==> Available(p, j))
    requires Run(Fresh(p), steps, s) && k < |s.pool.items|
    ensures Available(s.pool, k) <==> GainedOver(Fresh(p), steps, k) == 0
  {
    RunKeepsInv(Fresh(p), steps, s);
    ReferencesBalance(Fresh(p), steps, s, k);
    assert k < |p.items| ==> Available(p, k);
  }

  /** A pool whose items were made with it looks last, in its next search, at the item it has handed out. */
  lemma HandedOutIsLookedAtLast(p: Pool, k: nat)
    requires PoolInv(p) && !p.lazy && k < |p.items| && Available(p, k)
    ensures var q := HandOut(p, k); PoolInv(q) && |q.items| == |p.items| && Index(q, |q.items| - 1) == k
  {
    var q := HandOut(p, k);
    NextAfter(k, |p.items|);
    NextAfter(k, |q.items|);
    Wraps(q, |q.items| - 1);
  }

  lemma NextAfter(k: nat, n: nat)
    requires k < n
    ensures (k + 1) % n == if k + 1 < n then k + 1 else 0
  {
  }

  // ---- when a search finds an item -------------------------------------------

  lemma {:induction false} DisturbedKeepsSpare(p: Pool, changes: seq<Step>, k: nat)
    requires k < |p.items| && Available(p, k)
    ensures Available(Disturbed(p, changes), k)
    decreases |changes|
  {
    if changes != [] {
      DisturbedKeepsSpare(p, changes[..|changes| - 1], k);
    }
  }

  lemma {:induction false} SearchMisses(p: Pool, i: nat, meanwhile: Meanwhile, j: nat)
    requires i <= j < |p.items| && Searched(p, i, meanwhile).slot.None?
    ensures !Available(p, Index(p, j))
    decreases |p.items| - i
  {
    var q := Disturbed(p, meanwhile(i));
    if Available(p, Index(p, j)) {
      DisturbedKeepsSpare(p, meanwhile(i), Index(p, j));
    }
    if i < j {
      SearchMisses(q, i + 1, meanwhile, j);
    }
  }

  lemma {:induction false} SearchFinds(p: Pool, i: nat, meanwhile: Meanwhile)
    requires i <= |p.items| && Searched(p, i, meanwhile).slot.Some?
    ensures var got := Searched(p, i, meanwhile); got.slot.value < |got.pool.items| && got.pool.items[got.slot.value] == Some(2)
    decreases |p.items| - i
  {
    var q := Disturbed(p, meanwhile(i));
    if !Available(q, Index(q, i)) {
      SearchFinds(q, i + 1, meanwhile);
    }
  }

  /** Whatever the holders do while a search looks: if it comes to nothing, every item was outstanding when it
      began; otherwise it has handed out an item to which nobody else refers. */
  lemma SearchOutcome(p: Pool, meanwhile: Meanwhile)
    requires PoolInv(p)
    ensures var got := Searched(p, 0, meanwhile);
      match got.slot
      case None => forall k :: 0 <= k < |p.items| ==> !Available(p, k)
      case Some(k) => k < |got.pool.items| && got.pool.items[k] == Some(2)
  {
    if Searched(p, 0, meanwhile).slot.None? {
      forall k | 0 <= k < |p.items| ensures !Available(p, k) {
        var j := EveryOne(p, k);
        SearchMisses(p, 0, meanwhile, j);
      }
    } else {
      SearchFinds(p, 0, meanwhile);
    }
  }

  // ---- what a search comes to when nobody interferes -------------------------

  ghost predicate SomeSpare(p: Pool) {
    exists k :: 0 <= k < |p.items| && Available(p, k)
  }

  lemma ScanEnds(s: State) returns (steps: seq<Step>, t: State)
    requires Inv(s) && s.phase.Looking? && s.phase.round == 0
    ensures Run(s, steps, t) && Inv(t) && t.pool.doubling == s.pool.doubling && |t.pool.items| == |s.pool.items|
    ensures if SomeSpare(s.pool) then t.phase.Idle? && t.outcome.Slot?
            else t.phase == Looking(|t.pool.items|, s.phase.grown)
  {
    var quiet: Meanwhile := _ => [];
    steps, t := SearchedRuns(s, quiet);
    RunKeepsInv(s, steps, t);
    SearchedKeepsSize(s.pool, 0, quiet);
    SearchOutcome(s.pool, quiet);
    if Searched(s.pool, 0, quiet).slot.Some? {
      QuietFinds(s.pool, 0);
    }
  }

  lemma {:induction false} QuietFinds(p: Pool, i: nat)
    requires i <= |p.items| && Searched(p, i, _ => []).slot.Some?
    ensures SomeSpare(p)
    decreases |p.items| - i
  {
    if !Available(p, Index(p, i)) {
      assert Searched(p, i, _ => []) == Searched(p, i + 1, _ => []);
      QuietFinds(p, i + 1);
    }
  }

  /** A search that nobody interferes with ends: with an item if one is spare, or if a pool that has slots can grow;
      otherwise with nothing, or for a doubling pool without slots with an exception. */
  lemma SearchEnds(s: State) returns (steps: seq<Step>, t: State)
    requires Inv(s) && Enabled(s, Begin)
    ensures Run(Next(s, Begin), steps, t) && t.phase.Idle?
    ensures if SomeSpare(s.pool) || (s.pool.doubling && s.pool.items != []) then t.outcome.Slot?
            else if s.pool.doubling then t.outcome.Thrown? else t.outcome.Nothing?
  {
    StepKeepsInv(s, Begin);
    var a;
    steps, a := ScanEnds(Next(s, Begin));
    t := a;
    if !SomeSpare(s.pool) {
      StepKeepsInv(a, GiveUp);
      var b := Next(a, GiveUp);
      t := b;
      Extend(Next(s, Begin), steps, a, GiveUp);
      steps := steps + [GiveUp];
      if s.pool.doubling {
        var more;
        more, t := GrownScanEnds(b);
        Appended(Next(s, Begin), steps, b, more, t);
        steps := steps + more;
      }
    }
  }

  lemma GrownScanEnds(s: State) returns (steps: seq<Step>, t: State)
    requires Inv(s) && s.phase == Looking(0, true) && s.pool.doubling
    ensures Run(s, steps, t) && t.phase.Idle? && if s.pool.items != [] then t.outcome.Slot? else t.outcome.Thrown?
  {
    steps, t := ScanEnds(s);
    if s.pool.items != [] {
      assert s.pool.items[|s.pool.items| - 1].None?;
      assert Available(s.pool, |s.pool.items| - 1);
    } else {
      Extend(s, steps, t, GiveUp);
      t := Next(t, GiveUp);
      steps := steps + [GiveUp];
    }
  }
}
