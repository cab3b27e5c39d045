/**
 `Schema::BuildStructs`: builds the metadata of every struct of a schema, each after
 the structs its complex fields and arrays are made of.

 A name is looked up through `key`, the XML spelling of the name in lower case.
 Complex type names have been replaced by struct names when the metadata was read.
 */
module SchemaBuild {

  type Name = string

  datatype Field = Field(complex: bool, typeName: Name)
  datatype Struct = Struct(name: Name, fields: seq<Field>)
  datatype Catalog = Catalog(structs: map<Name, Struct>, key: Name -> Name)

  /** The catalog has a struct of this name. */
  ghost predicate Named(c: Catalog, n: Name) {
    exists k <- c.structs :: c.structs[k].name == n
  }

  predicate Found(c: Catalog, n: Name) {
    c.key(n) in c.structs
  }

  predicate DependsOn(s: Struct, n: Name) {
    Field(true, n) in s.fields
  }

  /** Complex type names are struct names, and a struct name finds that struct or none. */
  ghost predicate Proper(c: Catalog) {
    && (forall k, n :: k in c.structs && DependsOn(c.structs[k], n) ==> Named(c, n))
    && (forall k <- c.structs :: Found(c, c.structs[k].name) ==> c.key(c.structs[k].name) == k)
  }

  /** Every struct is found by its name. */
  ghost predicate AllFound(c: Catalog) {
    forall k <- c.structs :: Found(c, c.structs[k].name)
  }

  /** The struct found under `n` has a complex type among the names `w`. */
  ghost predicate Feeds(c: Catalog, w: set<Name>, n: Name) {
    Found(c, n) && exists d <- w :: DependsOn(c.structs[c.key(n)], d)
  }

  /** Struct names that are not stored yet, each of a struct with a complex type among them. */
  ghost predicate Cycle(c: Catalog, store: seq<Name>, w: set<Name>) {
    && w != {}
    && (forall n <- w :: n !in store && Named(c, n))
    && (forall n {:trigger Feeds(c, w, n)} :: n in w ==> Feeds(c, w, n))
  }

  ghost predicate Acyclic(c: Catalog, store: seq<Name>) {
    !exists w :: Cycle(c, store, w)
  }

  lemma FoundByName(c: Catalog, n: Name)
    requires Proper(c) && Named(c, n) && Found(c, n)
    ensures c.structs[c.key(n)].name == n
  {
    var k :| k in c.structs && c.structs[k].name == n;
    assert Found(c, c.structs[k].name);
  }

  lemma FoundByAll(c: Catalog, n: Name)
    requires AllFound(c) && Named(c, n)
    ensures Found(c, n)
  {
    var k :| k in c.structs && c.structs[k].name == n;
    assert Found(c, c.structs[k].name);
  }

  // ---------------------------------------------------------------------------
  // The build
  // ---------------------------------------------------------------------------

  /** The complex type names that are not stored, in field order. */
  function Missing(fields: seq<Field>, store: seq<Name>): (r: seq<Name>)
    ensures forall n :: n in r <==> Field(true, n) in fields && n !in store
  {
    if fields == [] then []
    else
      var f := fields[|fields| - 1];
      var rest := Missing(fields[..|fields| - 1], store);
      assert fields == fields[..|fields| - 1] + [f];
      if f.complex && f.typeName !in store then rest + [f.typeName] else rest
  }

  /** Metadata that is already stored is left as it is. */
  function Built(store: seq<Name>, s: Struct): seq<Name> {
    if s.name in store then store else store + [s.name]
  }

  datatype Status = Going(stack: seq<Name>, store: seq<Name>) | Done(ok: bool, store: seq<Name>)

  function Settle(stack: seq<Name>, store: seq<Name>): Status {
    if stack == [] then Done(true, store) else Going(stack, store)
  }

  /** One turn of the loop over the stack. */
  function Turn(c: Catalog, stack: seq<Name>, store: seq<Name>): Status
    requires stack != []
  {
    var top := stack[|stack| - 1];
    if top in store then Settle(stack[..|stack| - 1], store)
    else if !Found(c, top) then Done(false, store)
    else
      var s := c.structs[c.key(top)];
      var missing := Missing(s.fields, store);
      if missing == [] then Settle(stack[..|stack| - 1], Built(store, s)) else Going(stack + missing, store)
  }

  function Turns(c: Catalog, st: Status, n: nat): Status
    decreases n
  {
    if n == 0 || st.Done? || st.stack == [] then st else Turns(c, Turn(c, st.stack, st.store), n - 1)
  }

  datatype Filled = Filled(stack: seq<Name>, store: seq<Name>)

  /** The first pass looks at a struct: it is pushed with all it needs, or built if it needs nothing. */
  function Look(f: Filled, s: Struct): Filled {
    var missing := Missing(s.fields, f.store);
    Filled(f.stack + [s.name] + missing, if missing == [] then Built(f.store, s) else f.store)
  }

  /** The first pass, over the first `i` structs of the order in which the catalog lists them. */
  function FirstPass(c: Catalog, order: seq<Name>, store: seq<Name>, i: nat): Filled
    requires i <= |order| && forall k <- order :: k in c.structs
  {
    if i == 0 then Filled([], store) else Look(FirstPass(c, order, store, i - 1), c.structs[order[i - 1]])
  }

  function Start(c: Catalog, order: seq<Name>, store: seq<Name>): Status
    requires forall k <- order :: k in c.structs
  {
    var f := FirstPass(c, order, store, |order|);
    Settle(f.stack, f.store)
  }

  // ---------------------------------------------------------------------------
  // Order of the build
  // ---------------------------------------------------------------------------

  /** Position `i` of the store is a struct all of whose complex types come before it. */
  ghost predicate After(c: Catalog, store: seq<Name>, i: nat)
    requires i < |store|
  {
    && store[i] !in store[..i]
    && exists k <- c.structs :: c.structs[k].name == store[i] && forall d :: DependsOn(c.structs[k], d) ==> d in store[..i]
  }

  /** What has been added to the store since `old_` is in dependency order, each struct once. */
  ghost predicate DepsFirst(c: Catalog, old_: seq<Name>, store: seq<Name>) {
    old_ <= store && forall i :: |old_| <= i < |store| ==> After(c, store, i)
  }

  lemma BuiltKeepsOrder(c: Catalog, old_: seq<Name>, store: seq<Name>, k: Name)
    requires DepsFirst(c, old_, store) && k in c.structs && Missing(c.structs[k].fields, store) == []
    ensures DepsFirst(c, old_, Built(store, c.structs[k]))
  {
    var s := c.structs[k];
    var store' := Built(store, s);
    if s.name !in store {
      forall i | |old_| <= i < |store'| ensures After(c, store', i) {
        assert store'[..i] == store[..i];
        if i == |store| {
          assert forall d :: DependsOn(s, d) ==> d in store by {
            forall d | DependsOn(s, d) ensures d in store { assert d !in Missing(s.fields, store); }
          }
          assert store'[..i] == store;
        } else {
          assert After(c, store, i);
        }
      }
    }
  }

  /** What holds of stack and store all along. */
  ghost predicate Inv(c: Catalog, old_: seq<Name>, stack: seq<Name>, store: seq<Name>) {
    && DepsFirst(c, old_, store)
    && forall n <- stack :: Named(c, n)
  }

  /** The struct is stored or waits on the stack. */
  ghost predicate Kept(stack: seq<Name>, store: seq<Name>, n: Name) {
    n in store || n in stack
  }

  lemma TurnKeepsInv(c: Catalog, old_: seq<Name>, stack: seq<Name>, store: seq<Name>)
    requires Proper(c) && Inv(c, old_, stack, store) && stack != []
    ensures match Turn(c, stack, store)
      case Going(stack', store') => Inv(c, old_, stack', store')
      case Done(ok, store') => DepsFirst(c, old_, store') && (!ok ==> exists n :: Named(c, n) && !Found(c, n) && n !in store')
  {
    var top := stack[|stack| - 1];
    if top in store {
    } else if Found(c, top) {
      var k := c.key(top);
      if Missing(c.structs[k].fields, store) == [] {
        BuiltKeepsOrder(c, old_, store, k);
      } else {
        forall n | n in Missing(c.structs[k].fields, store) ensures Named(c, n) {
          assert DependsOn(c.structs[k], n);
        }
      }
    }
  }

  lemma TurnKeepsAll(c: Catalog, stack: seq<Name>, store: seq<Name>, n: Name)
    requires Proper(c) && stack != [] && Named(c, stack[|stack| - 1]) && Kept(stack, store, n)
    ensures match Turn(c, stack, store)
      case Going(stack', store') => Kept(stack', store', n)
      case Done(ok, store') => ok ==> n in store'
  {
    assert stack == stack[..|stack| - 1] + [stack[|stack| - 1]];
  }

  lemma {:induction false} FirstPassInv(c: Catalog, order: seq<Name>, store: seq<Name>, i: nat)
    requires Proper(c) && i <= |order| && forall k <- order :: k in c.structs
    ensures var f := FirstPass(c, order, store, i); Inv(c, store, f.stack, f.store)
    ensures var f := FirstPass(c, order, store, i); forall j :: 0 <= j < i ==> Kept(f.stack, f.store, c.structs[order[j]].name)
  {
    if i > 0 {
      FirstPassInv(c, order, store, i - 1);
      var f := FirstPass(c, order, store, i - 1);
      var k := order[i - 1];
      if Missing(c.structs[k].fields, f.store) == [] {
        BuiltKeepsOrder(c, store, f.store, k);
      }
      forall n | n in Missing(c.structs[k].fields, f.store) ensures Named(c, n) {
        assert DependsOn(c.structs[k], n);
      }
    }
  }

  // ---------------------------------------------------------------------------
  // Termination
  // ---------------------------------------------------------------------------

  function Rank(rank: map<Name, nat>, n: Name): nat {
    if n in rank then rank[n] + 1 else 0
  }

  /** The struct found under `n` has the complex type `d`, which is not stored. */
  predicate Needs(c: Catalog, store: seq<Name>, n: Name, d: Name) {
    Found(c, n) && DependsOn(c.structs[c.key(n)], d) && d !in store
  }

  /** Each struct to build ranks above every complex type it still needs. */
  ghost predicate Ranked(c: Catalog, store: seq<Name>, rank: map<Name, nat>) {
    forall n, d :: Named(c, n) && n !in store && Needs(c, store, n, d) ==> Rank(rank, d) < Rank(rank, n)
  }

  ghost function Names(c: Catalog): set<Name> {
    set k <- c.structs :: c.structs[k].name
  }

  /** Ranks all names but `rest`, taking one at a time that needs nothing of what is left. */
  lemma {:induction false} Peel(c: Catalog, store: seq<Name>, rest: set<Name>, rank: map<Name, nat>, top: nat) returns (r: map<Name, nat>)
    requires Acyclic(c, store) && forall n <- rest :: n !in store && Named(c, n) && Found(c, n)
    requires rest !! rank.Keys && forall n <- rank :: rank[n] < top
    requires forall n, d :: n in rank && Needs(c, store, n, d) ==> d !in rest && Rank(rank, d) < Rank(rank, n)
    ensures r.Keys == rank.Keys + rest
    ensures forall n, d :: n in r && Needs(c, store, n, d) ==> Rank(r, d) < Rank(r, n)
    decreases rest
  {
    if rest == {} {
      r := rank;
    } else {
      assert !Cycle(c, store, rest);
      var m :| m in rest && !Feeds(c, rest, m);
      assert forall d :: Needs(c, store, m, d) ==> d !in rest;
      r := Peel(c, store, rest - {m}, rank[m := top], top + 1);
    }
  }

  lemma {:induction false} Lowest(w: set<Name>, rank: map<Name, nat>) returns (n: Name)
    requires w != {}
    ensures n in w && forall d <- w :: Rank(rank, n) <= Rank(rank, d)
    decreases w
  {
    n :| n in w;
    if w != {n} {
      assert w - {n} != {};
      var m := Lowest(w - {n}, rank);
      n := if Rank(rank, m) < Rank(rank, n) then m else n;
    }
  }

  /** Nothing is cyclic exactly when the structs can be ranked. */
  lemma RankedIffAcyclic(c: Catalog, store: seq<Name>)
    requires Proper(c)
    ensures Acyclic(c, store) <==> exists rank :: Ranked(c, store, rank)
  {
    if Acyclic(c, store) {
      var rest := set n <- Names(c) | n !in store && Found(c, n);
      var rank := Peel(c, store, rest, map[], 0);
      assert Ranked(c, store, rank);
    }
    if rank :| Ranked(c, store, rank) {
      forall w | Cycle(c, store, w) ensures false {
        var n := Lowest(w, rank);
        assert Feeds(c, w, n);
        var d :| d in w && DependsOn(c.structs[c.key(n)], d);
        assert Needs(c, store, n, d);
      }
    }
  }

  /** Structs still to be built, then whether the top is built, then the height or the rank of the top. */
  ghost function Unbuilt(c: Catalog, store: seq<Name>): nat {
    |set n <- Names(c) | n !in store|
  }

  function TopBuilt(stack: seq<Name>, store: seq<Name>): nat {
    if stack != [] && stack[|stack| - 1] in store then 1 else 0
  }

  function Depth(stack: seq<Name>, store: seq<Name>, rank: map<Name, nat>): nat {
    if TopBuilt(stack, store) == 1 then |stack| else if stack == [] then 0 else Rank(rank, stack[|stack| - 1])
  }

  lemma BuiltShrinks(c: Catalog, store: seq<Name>, k: Name)
    requires k in c.structs && c.structs[k].name !in store
    ensures Unbuilt(c, Built(store, c.structs[k])) < Unbuilt(c, store)
  {
    var n := c.structs[k].name;
    var before := set m <- Names(c) | m !in store;
    var after := set m <- Names(c) | m !in store + [n];
    assert after == before - {n} && n in before;
  }

  lemma TurnDecreases(c: Catalog, old_: seq<Name>, rank: map<Name, nat>, stack: seq<Name>, store: seq<Name>)
    requires Proper(c) && Ranked(c, old_, rank) && Inv(c, old_, stack, store) && stack != []
    ensures match Turn(c, stack, store)
      case Going(stack', store') =>
        || Unbuilt(c, store') < Unbuilt(c, store)
        || (store' == store && TopBuilt(stack', store) < TopBuilt(stack, store))
        || (store' == store && TopBuilt(stack', store) == TopBuilt(stack, store) && Depth(stack', store, rank) < Depth(stack, store, rank))
      case Done(_, _) => true
  {
    var top := stack[|stack| - 1];
    if top !in store && Found(c, top) {
      var k := c.key(top);
      var s := c.structs[k];
      FoundByName(c, top);
      var missing := Missing(s.fields, store);
      if missing == [] {
        BuiltShrinks(c, store, k);
      } else {
        var d := missing[|missing| - 1];
        assert d in missing;
        assert (stack + missing)[|stack + missing| - 1] == d;
        assert Needs(c, old_, top, d);
      }
    }
  }

  /** Without cycles the loop comes to an end. */
  lemma {:induction false} Terminates(c: Catalog, old_: seq<Name>, rank: map<Name, nat>, stack: seq<Name>, store: seq<Name>) returns (n: nat)
    requires Proper(c) && Ranked(c, old_, rank) && Inv(c, old_, stack, store) && stack != []
    ensures Turns(c, Going(stack, store), n).Done?
    decreases Unbuilt(c, store), TopBuilt(stack, store), Depth(stack, store, rank)
  {
    TurnDecreases(c, old_, rank, stack, store);
    TurnKeepsInv(c, old_, stack, store);
    match Turn(c, stack, store)
    case Going(stack', store') =>
      if stack' == [] {
        assert false;
      }
      var m := Terminates(c, old_, rank, stack', store');
      n := m + 1;
    case Done(_, _) => n := 1;
  }

  // ---- cycles ----------------------------------------------------------------

  /** Nothing of the cycle is stored, and one of its members waits on the stack. */
  ghost predicate Stuck(c: Catalog, w: set<Name>, stack: seq<Name>, store: seq<Name>) {
    Cycle(c, store, w) && exists n <- w :: n in stack
  }

  lemma CycleNeeds(c: Catalog, w: set<Name>, store: seq<Name>, n: Name)
    requires Cycle(c, store, w) && Found(c, n)
    ensures n in w ==> Missing(c.structs[c.key(n)].fields, store) != []
  {
    var s := c.structs[c.key(n)];
    if n in w {
      assert Feeds(c, w, n);
      var d :| d in w && DependsOn(s, d);
      assert d in Missing(s.fields, store);
    }
  }

  lemma BuiltKeepsCycle(c: Catalog, w: set<Name>, store: seq<Name>, k: Name)
    requires Proper(c) && Cycle(c, store, w) && k in c.structs && Missing(c.structs[k].fields, store) == []
    ensures Cycle(c, Built(store, c.structs[k]), w)
  {
    var n := c.structs[k].name;
    if Found(c, n) {
      CycleNeeds(c, w, store, n);
    }
    assert n in w ==> Feeds(c, w, n);
  }

  lemma TurnKeepsStuck(c: Catalog, old_: seq<Name>, w: set<Name>, stack: seq<Name>, store: seq<Name>)
    requires Proper(c) && AllFound(c) && Inv(c, old_, stack, store) && Stuck(c, w, stack, store)
    ensures Turn(c, stack, store).Going? && Stuck(c, w, Turn(c, stack, store).stack, Turn(c, stack, store).store)
  {
    var top := stack[|stack| - 1];
    var n :| n in w && n in stack;
    assert stack == stack[..|stack| - 1] + [top];
    FoundByAll(c, top);
    CycleNeeds(c, w, store, top);
    var k := c.key(top);
    if top !in store && Missing(c.structs[k].fields, store) == [] {
      BuiltKeepsCycle(c, w, store, k);
      assert n in stack[..|stack| - 1];
    } else if top !in store {
      assert n in stack + Missing(c.structs[k].fields, store);
    } else {
      assert n in stack[..|stack| - 1];
    }
  }

  lemma {:induction false} StuckForever(c: Catalog, old_: seq<Name>, w: set<Name>, stack: seq<Name>, store: seq<Name>, n: nat)
    requires Proper(c) && AllFound(c) && Inv(c, old_, stack, store) && Stuck(c, w, stack, store)
    ensures Turns(c, Going(stack, store), n).Going?
    decreases n
  {
    if n > 0 {
      TurnKeepsStuck(c, old_, w, stack, store);
      TurnKeepsInv(c, old_, stack, store);
      var t := Turn(c, stack, store);
      StuckForever(c, old_, w, t.stack, t.store, n - 1);
    }
  }

  lemma {:induction false} FirstPassKeepsCycle(c: Catalog, w: set<Name>, order: seq<Name>, store: seq<Name>, i: nat)
    requires Proper(c) && Cycle(c, store, w) && i <= |order| && forall k <- order :: k in c.structs
    ensures Cycle(c, FirstPass(c, order, store, i).store, w)
  {
    if i > 0 {
      FirstPassKeepsCycle(c, w, order, store, i - 1);
      var f := FirstPass(c, order, store, i - 1);
      if Missing(c.structs[order[i - 1]].fields, f.store) == [] {
        BuiltKeepsCycle(c, w, f.store, order[i - 1]);
      }
    }
  }

  /** When every struct is found by its name: in whatever order the structs are listed, the
      build ends exactly when no structs contain each other in a cycle. */
  lemma TerminatesIffAcyclic(c: Catalog, order: seq<Name>, store: seq<Name>)
    requires Proper(c) && AllFound(c) && forall k :: k in order <==> k in c.structs
    ensures (exists n :: Turns(c, Start(c, order, store), n).Done?) <==> Acyclic(c, store)
  {
    var f := FirstPass(c, order, store, |order|);
    FirstPassInv(c, order, store, |order|);
    if Acyclic(c, store) {
      RankedIffAcyclic(c, store);
      var rank :| Ranked(c, store, rank);
      if f.stack == [] {
        assert Turns(c, Start(c, order, store), 0).Done?;
      } else {
        var n := Terminates(c, store, rank, f.stack, f.store);
        assert Start(c, order, store) == Going(f.stack, f.store);
      }
    } else {
      var w :| Cycle(c, store, w);
      FirstPassKeepsCycle(c, w, order, store, |order|);
      var n :| n in w;
      var k :| k in c.structs && c.structs[k].name == n;
      var j :| 0 <= j < |order| && order[j] == k;
      assert Kept(f.stack, f.store, c.structs[order[j]].name);
      forall m ensures Turns(c, Start(c, order, store), m).Going? {
        StuckForever(c, store, w, f.stack, f.store, m);
      }
    }
  }

  lemma {:induction false} TurnsOutcome(c: Catalog, old_: seq<Name>, stack: seq<Name>, store: seq<Name>, n: nat)
    requires Proper(c) && Inv(c, old_, stack, store) && stack != [] && Turns(c, Going(stack, store), n).Done?
    requires forall k <- c.structs :: Kept(stack, store, c.structs[k].name)
    ensures var t := Turns(c, Going(stack, store), n);
      && DepsFirst(c, old_, t.store)
      && (t.ok ==> forall k <- c.structs :: c.structs[k].name in t.store)
      && (!t.ok ==> exists k <- c.structs :: !Found(c, c.structs[k].name) && c.structs[k].name !in t.store)
    decreases n
  {
    TurnKeepsInv(c, old_, stack, store);
    forall k <- c.structs ensures match Turn(c, stack, store)
      case Going(stack', store') => Kept(stack', store', c.structs[k].name)
      case Done(ok, store') => ok ==> c.structs[k].name in store'
    {
      TurnKeepsAll(c, stack, store, c.structs[k].name);
    }
    match Turn(c, stack, store)
    case Going(stack', store') =>
      TurnsOutcome(c, old_, stack', store', n - 1);
    case Done(_, _) =>
  }

  lemma FirstPassKeepsAll(c: Catalog, order: seq<Name>, store: seq<Name>, k: Name)
    requires Proper(c) && k in order && forall k <- order :: k in c.structs
    ensures var f := FirstPass(c, order, store, |order|); Kept(f.stack, f.store, c.structs[k].name)
  {
    FirstPassInv(c, order, store, |order|);
    var j :| 0 <= j < |order| && order[j] == k;
    var f := FirstPass(c, order, store, |order|);
    assert Kept(f.stack, f.store, c.structs[order[j]].name);
  }

  /** Whenever the build ends: every struct it added comes after all its complex types, and it either
      has stored them all, or has met a struct that is not found by its own name. */
  lemma BuildOutcome(c: Catalog, order: seq<Name>, store: seq<Name>, n: nat)
    requires Proper(c) && forall k :: k in order <==> k in c.structs
    requires Turns(c, Start(c, order, store), n).Done?
    ensures var t := Turns(c, Start(c, order, store), n);
      && DepsFirst(c, store, t.store)
      && (t.ok ==> forall k <- c.structs :: c.structs[k].name in t.store)
      && (!t.ok ==> exists k <- c.structs :: !Found(c, c.structs[k].name) && c.structs[k].name !in t.store)
  {
    var f := FirstPass(c, order, store, |order|);
    FirstPassInv(c, order, store, |order|);
    forall k <- c.structs ensures Kept(f.stack, f.store, c.structs[k].name) {
      FirstPassKeepsAll(c, order, store, k);
    }
    if f.stack != [] {
      TurnsOutcome(c, store, f.stack, f.store, n);
    }
  }

  /** The outcome does not depend on how long one looks. */
  lemma {:induction false} TurnsMore(c: Catalog, st: Status, n: nat)
    ensures var t := Turns(c, st, n);
      Turns(c, st, n + 1) == if t.Done? || t.stack == [] then t else Turn(c, t.stack, t.store)
    decreases n
  {
    if n > 0 && st.Going? && st.stack != [] {
      TurnsMore(c, Turn(c, st.stack, st.store), n - 1);
    } else if st.Going? && st.stack != [] {
      assert Turns(c, st, 1) == Turns(c, Turn(c, st.stack, st.store), 0);
    }
  }

  // ---------------------------------------------------------------------------
  // The object
  // ---------------------------------------------------------------------------

  class Schema {
    const catalog: Catalog
    var store: seq<Name>

    constructor (catalog: Catalog, store: seq<Name>)
      ensures this.catalog == catalog && this.store == store
    {
      this.catalog, this.store := catalog, store;
    }

    /** Pushes the complex types that are not stored. */
    method UpdateStack(stack: seq<Name>, info: Struct) returns (pushed: seq<Name>, isComplex: bool)
      ensures pushed == stack + Missing(info.fields, store)
      ensures isComplex <==> exists d :: DependsOn(info, d) && d !in store
    {
      pushed, isComplex := stack, false;
      for i := 0 to |info.fields|
        invariant pushed == stack + Missing(info.fields[..i], store)
        invariant isComplex <==> Missing(info.fields[..i], store) != []
      {
        var data := info.fields[i];
        assert info.fields[..i + 1][..i] == info.fields[..i];
        if data.complex && data.typeName !in store {
          pushed := pushed + [data.typeName];
          isComplex := true;
        }
      }
      assert info.fields[..|info.fields|] == info.fields;
      assert isComplex ==> Missing(info.fields, store)[0] in Missing(info.fields, store);
    }

    method BuildParserMetadata(info: Struct)
      modifies this`store
      ensures store == Built(old(store), info)
    {
      if info.name !in store {
        store := store + [info.name];
      }
    }

    method PushStruct(stack: seq<Name>, info: Struct) returns (pushed: seq<Name>)
      modifies this`store
      ensures Filled(pushed, store) == Look(Filled(stack, old(store)), info)
    {
      var isComplex;
      NoneMissing(info, store);
      pushed, isComplex := UpdateStack(stack + [info.name], info);
      if !isComplex {
        BuildParserMetadata(info);
      }
    }

    /** Pushes every struct and what it still needs; builds those that need nothing. */
    method FillStack(order: seq<Name>) returns (stack: seq<Name>)
      requires forall k <- order :: k in catalog.structs
      modifies this`store
      ensures Filled(stack, store) == FirstPass(catalog, order, old(store), |order|)
    {
      stack := [];
      for i := 0 to |order|
        invariant Filled(stack, store) == FirstPass(catalog, order, old(store), i)
      {
        stack := PushStruct(stack, catalog.structs[order[i]]);
      }
    }

    /** One turn: pops what is stored, builds what needs nothing, or pushes what is needed. */
    method HandleTop(stack: seq<Name>) returns (stack': seq<Name>, failed: bool)
      requires stack != []
      modifies this`store
      ensures Turn(catalog, stack, old(store)) == if failed then Done(false, store) else Settle(stack', store)
      ensures store == old(store) || !failed
    {
      var str := stack[|stack| - 1];
      if str in store {
        return stack[..|stack| - 1], false;
      }
      var newStr := catalog.key(str);
      if newStr !in catalog.structs {
        return stack, true;
      }
      var info := catalog.structs[newStr];
      NoneMissing(info, store);
      var isComplex;
      stack', isComplex := UpdateStack(stack, info);
      if !isComplex {
        BuildParserMetadata(info);
        stack' := stack[..|stack| - 1];
      }
      failed := false;
    }

    /** `order` is how the map of structs happens to be iterated. */
    method BuildStructs(order: seq<Name>) returns (ok: bool)
      requires Proper(catalog) && Acyclic(catalog, store)
      requires forall k :: k in order <==> k in catalog.structs
      modifies this`store
      ensures DepsFirst(catalog, old(store), store)
      ensures ok ==> forall k <- catalog.structs :: catalog.structs[k].name in store
      ensures !ok ==> exists k <- catalog.structs :: !Found(catalog, catalog.structs[k].name) && catalog.structs[k].name !in store
      ensures exists n :: Turns(catalog, Start(catalog, order, old(store)), n) == Done(ok, store)
    {
      ghost var before := store;
      RankedIffAcyclic(catalog, store);
      ghost var rank :| Ranked(catalog, store, rank);
      var stack := FillStack(order);
      FirstPassInv(catalog, order, before, |order|);
      ghost var n := 0;
      var failed := false;
      while stack != [] && !failed
        invariant !failed ==> Inv(catalog, before, stack, store)
        invariant Turns(catalog, Start(catalog, order, before), n) == if failed then Done(false, store) else Settle(stack, store)
        decreases if failed || stack == [] then 0 else 1, Unbuilt(catalog, store), TopBuilt(stack, store), Depth(stack, store, rank)
      {
        TurnDecreases(catalog, before, rank, stack, store);
        TurnKeepsInv(catalog, before, stack, store);
        TurnsMore(catalog, Start(catalog, order, before), n);
        n := n + 1;
        stack, failed := HandleTop(stack);
      }
      BuildOutcome(catalog, order, before, n);
      ok := !failed;
    }
  }

  lemma NoneMissing(s: Struct, store: seq<Name>)
    ensures Missing(s.fields, store) == [] <==> forall d :: DependsOn(s, d) ==> d in store
  {
    if Missing(s.fields, store) != [] {
      assert Missing(s.fields, store)[0] in Missing(s.fields, store);
    }
    forall d | DependsOn(s, d) && d !in store ensures d in Missing(s.fields, store) {
    }
  }
}
