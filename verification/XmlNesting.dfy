/** What the loader's nesting limit comes to, given that its counter starts anew after each child. */
module XmlNesting {
  import opened XmlStore

  /** How many structs follow below a struct, each the first child of the one before. */
  function Chain(e: Element): nat {
    if e.Struct? && e.children != [] && e.children[0].Struct? then 1 + Chain(e.children[0]) else 0
  }

  /** Some nested struct heads a chain of `MaxNestingDepth` structs, itself included. */
  predicate TooDeep(e: Element) {
    e.Struct? && exists c <- e.children :: c.Struct? && (1 + Chain(c) >= MaxNestingDepth || TooDeep(c))
  }

  lemma {:induction false} FailsInSome(es: seq<Element>, depth: nat)
    ensures FailsIn(es, depth) <==> exists i :: 0 <= i < |es| && ChildFails(es[i], if i == 0 then depth else 0)
    decreases |es|
  {
    if es != [] {
      var n := |es| - 1;
      FailsInSome(es[..n], depth);
      assert FailsIn(es[..n], depth) ==> exists i :: 0 <= i < n && ChildFails(es[i], if i == 0 then depth else 0) by {
        if i :| 0 <= i < n && ChildFails(es[..n][i], if i == 0 then depth else 0) {
          assert es[..n][i] == es[i];
        }
      }
      if i :| 0 <= i < n && ChildFails(es[i], if i == 0 then depth else 0) {
        assert es[..n][i] == es[i];
      }
    }
  }

  /** The chain that ends below `e` when the counter stands at `depth`. */
  predicate Exceeds(e: Element, depth: nat) {
    Chain(e) > 0 && depth + Chain(e) >= MaxNestingDepth
  }

  lemma {:induction false} FailsIffTooDeepFrom(e: Element, depth: nat)
    requires !HasUnknown(e) && depth < MaxNestingDepth
    ensures Fails(e, depth) <==> TooDeep(e) || Exceeds(e, depth)
    decreases e, 0
  {
    if e.Struct? {
      FailsInSome(e.children, depth);
      forall i | 0 <= i < |e.children|
        ensures ChildFails(e.children[i], if i == 0 then depth else 0) <==>
          && e.children[i].Struct?
          && (TooDeep(e.children[i]) || (if i == 0 then Exceeds(e, depth) else 1 + Chain(e.children[i]) >= MaxNestingDepth))
      {
        var c := e.children[i];
        assert c in e.children;
        ChildFailsIff(c, if i == 0 then depth else 0);
      }
      ChildrenTooDeep(e, depth);
    }
  }

  lemma {:induction false} ChildFailsIff(c: Element, depth: nat)
    requires !HasUnknown(c) && depth < MaxNestingDepth
    ensures ChildFails(c, depth) <==> c.Struct? && (TooDeep(c) || depth + 1 + Chain(c) >= MaxNestingDepth)
    decreases c, 1
  {
    if c.Struct? && depth + 1 < MaxNestingDepth {
      FailsIffTooDeepFrom(c, depth + 1);
    }
  }

  lemma ChildrenTooDeep(e: Element, depth: nat)
    requires e.Struct?
    ensures (exists i :: 0 <= i < |e.children| && e.children[i].Struct?
               && (TooDeep(e.children[i]) || (if i == 0 then Exceeds(e, depth) else 1 + Chain(e.children[i]) >= MaxNestingDepth)))
            <==> TooDeep(e) || Exceeds(e, depth)
  {
  }

  /** A tree without unknown types is refused exactly if some nested struct heads a chain of ten structs,
      each the first child of the one before. */
  lemma FailsIffTooDeep(e: Element)
    requires !HasUnknown(e)
    ensures Fails(e, 0) <==> TooDeep(e)
  {
    FailsIffTooDeepFrom(e, 0);
    if Exceeds(e, 0) {
      assert e.children[0] in e.children;
    }
  }

  /** Structs `n` deep, with a leaf before each. */
  function Spaced(n: nat): Element {
    if n == 0 then Struct([]) else Struct([Text(0, []), Spaced(n - 1)])
  }

  function Depth(e: Element): nat {
    if e.Struct? then 1 + DepthAll(e.children) else 0
  }

  function DepthAll(es: seq<Element>): nat {
    if es == [] then 0
    else
      var last, rest := Depth(es[|es| - 1]), DepthAll(es[..|es| - 1]);
      if last > rest then last else rest
  }

  lemma OneLeaf(es: seq<Element>)
    requires es == [Text(0, [])]
    ensures SpanAll(es) == 0 && DepthAll(es) == 0
  {
    assert es[..0] == [];
    assert SpanAll(es[..0]) == 0 && DepthAll(es[..0]) == 0;
    assert Span(es[0]) == 0 && Depth(es[0]) == 0;
  }

  /** The limit does not bound the depth of a tree: for every depth there is one that loads. */
  lemma {:induction false} AnyDepthLoads(n: nat)
    ensures Depth(Spaced(n)) == n + 1 && Span(Spaced(n)) == 0
    ensures Loadable(Spaced(n)) && !HasUnknown(Spaced(n)) && !TooDeep(Spaced(n)) && !Fails(Spaced(n), 0)
  {
    if n > 0 {
      AnyDepthLoads(n - 1);
      var es := [Text(0, []), Spaced(n - 1)];
      assert Spaced(n).children == es && es[..1] == [Text(0, [])];
      assert Chain(Spaced(n - 1)) == 0;
      OneLeaf(es[..1]);
    }
    FailsIffTooDeep(Spaced(n));
  }
}
