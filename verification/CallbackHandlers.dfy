/**
 `callback_handler`: a vector of distinct callbacks that is copied before its
 callbacks are called, so that they may add and remove callbacks themselves.
 */
module CallbackHandlers {

  function Added<T(==,!new)>(s: seq<T>, x: T): (r: seq<T>)
    ensures forall y :: y in r <==> y in s || y == x
  {
    if x in s then s else s + [x]
  }

  /** Erases the first occurrence. */
  function Erased<T(==)>(s: seq<T>, x: T): seq<T> {
    if s == [] then [] else if s[0] == x then s[1..] else [s[0]] + Erased(s[1..], x)
  }

  ghost predicate Distinct<T>(s: seq<T>) {
    forall i, j :: 0 <= i < j < |s| ==> s[i] != s[j]
  }

  lemma {:induction false} ErasedIsGone<T(!new)>(s: seq<T>, x: T)
    requires Distinct(s)
    ensures Distinct(Erased(s, x)) && forall y :: y in Erased(s, x) <==> y in s && y != x
  {
    if s != [] {
      var rest := s[1..];
      assert s == [s[0]] + rest;
      assert s[0] !in rest;
      ErasedIsGone(rest, x);
      if s[0] != x {
        assert Erased(s, x) == [s[0]] + Erased(rest, x);
        assert s[0] !in Erased(rest, x);
      }
    }
  }

  lemma AddedDistinct<T(!new)>(s: seq<T>, x: T)
    requires Distinct(s)
    ensures Distinct(Added(s, x))
  {
  }

  lemma {:induction false} ErasedSplit<T>(s: seq<T>, i: nat)
    requires i < |s| && forall j :: 0 <= j < i ==> s[j] != s[i]
    ensures Erased(s, s[i]) == s[..i] + s[i + 1..]
  {
    if i > 0 {
      ErasedSplit(s[1..], i - 1);
    }
  }

  lemma {:induction false} ErasedAbsent<T>(s: seq<T>, x: T)
    requires x !in s
    ensures Erased(s, x) == s
  {
    if s != [] {
      ErasedAbsent(s[1..], x);
    }
  }

  /** What a callback does to the vector while it is being called. */
  datatype Change<T> = Add(callback: T) | Remove(callback: T)

  function Changed<T(==,!new)>(s: seq<T>, c: Change<T>): seq<T> {
    if c.Add? then Added(s, c.callback) else Erased(s, c.callback)
  }

  function ChangedAll<T(==,!new)>(s: seq<T>, cs: seq<Change<T>>): seq<T> {
    if cs == [] then s else Changed(ChangedAll(s, cs[..|cs| - 1]), cs[|cs| - 1])
  }

  /** The changes that calling all of these callbacks in turn makes. */
  function Reactions<T>(called: seq<T>, react: T -> seq<Change<T>>): seq<Change<T>> {
    if called == [] then [] else Reactions(called[..|called| - 1], react) + react(called[|called| - 1])
  }

  lemma {:induction false} ChangedAllAppend<T(!new)>(s: seq<T>, a: seq<Change<T>>, b: seq<Change<T>>)
    ensures ChangedAll(s, a + b) == ChangedAll(ChangedAll(s, a), b)
  {
    if b == [] {
      assert a + b == a;
    } else {
      assert (a + b)[..|a + b| - 1] == a + b[..|b| - 1];
      ChangedAllAppend(s, a, b[..|b| - 1]);
    }
  }

  class CallbackHandler<T(==,!new)> {
    var callbacks: seq<T>

    ghost predicate Valid()
      reads this
    {
      Distinct(callbacks)
    }

    constructor ()
      ensures Valid() && callbacks == []
    {
      callbacks := [];
    }

    method AddCallback(callback: T) returns (added: bool)
      requires Valid()
      modifies this
      ensures Valid() && callbacks == Added(old(callbacks), callback) && (added <==> callback !in old(callbacks))
    {
      var it := Find(callback);
      if it < |callbacks| {
        return false;
      }
      callbacks := callbacks + [callback];
      added := true;
    }

    method RemoveCallback(callback: T) returns (removed: bool)
      requires Valid()
      modifies this
      ensures Valid() && callbacks == Erased(old(callbacks), callback) && (removed <==> callback in old(callbacks))
    {
      ErasedIsGone(callbacks, callback);
      var it := Find(callback);
      if it == |callbacks| {
        ErasedAbsent(callbacks, callback);
        return false;
      }
      ErasedSplit(callbacks, it);
      callbacks := callbacks[..it] + callbacks[it + 1..];
      removed := true;
    }

    method Find(callback: T) returns (it: nat)
      ensures it <= |callbacks| && (it < |callbacks| ==> callbacks[it] == callback)
      ensures forall j :: 0 <= j < it ==> callbacks[j] != callback
    {
      it := 0;
      while it < |callbacks| && callbacks[it] != callback
        invariant 0 <= it <= |callbacks|
        invariant forall j :: 0 <= j < it ==> callbacks[j] != callback
      {
        it := it + 1;
      }
    }

    /** Calls exactly the callbacks there were at the start, in order, each once, whatever they change. */
    method RaiseCallbacks(react: T -> seq<Change<T>>) returns (called: seq<T>)
      requires Valid()
      modifies this
      ensures called == old(callbacks) && Distinct(called)
      ensures Valid() && callbacks == ChangedAll(old(callbacks), Reactions(called, react))
    {
      var cloned: seq<T> := [];
      for i := 0 to |callbacks|
        invariant cloned == callbacks[..i]
      {
        cloned := cloned + [callbacks[i]];
      }
      called := [];
      for i := 0 to |cloned|
        invariant called == cloned[..i]
        invariant Valid() && callbacks == ChangedAll(cloned, Reactions(cloned[..i], react))
      {
        called := called + [cloned[i]];
        assert cloned[..i + 1][..i] == cloned[..i];
        ghost var before := callbacks;
        React(react(cloned[i]));
        ChangedAllAppend(cloned, Reactions(cloned[..i], react), react(cloned[i]));
      }
      assert cloned[..|cloned|] == cloned;
    }

    method React(changes: seq<Change<T>>)
      requires Valid()
      modifies this
      ensures Valid() && callbacks == ChangedAll(old(callbacks), changes)
    {
      for i := 0 to |changes|
        invariant Valid() && callbacks == ChangedAll(old(callbacks), changes[..i])
      {
        assert changes[..i + 1][..i] == changes[..i];
        if changes[i].Add? {
          var added := AddCallback(changes[i].callback);
        } else {
          var removed := RemoveCallback(changes[i].callback);
        }
      }
      assert changes[..|changes|] == changes;
    }
  }
}
