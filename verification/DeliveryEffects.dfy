/**
 What becomes of payloads and actions on the delivery path once they have done their
 work: nothing keeps them from being used again.
 */
module DeliveryEffects {
  import opened Options
  import ObjectPool
  import opened Delivery
  import opened DeliverySteps
  import DeliveryRuns

  /** No other payload's count, use or content differs, and no other action. */
  ghost predicate SamePayloadsBut(s: State, t: State, k: nat) {
    && |t.dataPool.items| == |s.dataPool.items| && |t.uses| == |s.uses| && t.payloads == s.payloads
    && forall j :: 0 <= j < |s.dataPool.items| && j < |s.uses| && j != k ==> t.dataPool.items[j] == s.dataPool.items[j] && t.uses[j] == s.uses[j]
  }

  ghost predicate SameActionsBut(s: State, t: State, a: nat) {
    |t.acts| == |s.acts| && forall b :: 0 <= b < |s.acts| && b != a ==> t.acts[b] == s.acts[b]
  }

  /** Payload `k` has one reference less. */
  predicate OneLess(s: State, t: State, k: nat) {
    && k < |s.dataPool.items| && k < |t.dataPool.items| && s.dataPool.items[k].Some? && s.dataPool.items[k].value > 0
    && t.dataPool.items[k] == Some(s.dataPool.items[k].value - 1)
  }

  /** Action `a`, which has carried payload `k`, does so no more: the payload has a reference less, and can be
      handed out again unless the producer has it in hand. */
  ghost predicate LetsPayloadGo(s: State, t: State, a: nat, k: nat) {
    && a < |t.acts| && t.acts[a].data.None? && k < |t.uses| && t.uses[k].holder.None?
    && OneLess(s, t, k) && SamePayloadsBut(s, t, k) && SameActionsBut(s, t, a)
    && (ObjectPool.Available(t.dataPool, k) <==> s.phase.Idle? || s.phase.slot != k)
  }

  lemma HolderReleased(s: State, a: nat, k: nat)
    requires Inv(s) && a < |s.acts| && s.acts[a].data == Some(k)
    requires k < |s.uses| && CanRelease(s.dataPool, Some(k))
    ensures OneLess(s, s.(dataPool := Unref(s.dataPool, Some(k))), k)
    ensures ObjectPool.Available(Unref(s.dataPool, Some(k)), k) <==> s.phase.Idle? || s.phase.slot != k
  {
    assert s.uses[k].holder == Some(a);
    assert CountIs(s.dataPool.items[k], s.uses[k]);
  }

  /** When the subscribed function has returned, its action lets go of the payload it was called with. */
  lemma EndLetsGo(s: State)
    requires Inv(s) && Enabled(s, End)
    ensures var a := s.performing.value;
      && s.acts[a].data.Some? && LetsPayloadGo(s, Next(s, End), a, s.acts[a].data.value)
      && Next(s, End).acts[a].place == Shed && Next(s, End).performing.None? && Next(s, End).actPool == s.actPool
      && Next(s, End).line == s.line && Next(s, End).delivered == s.delivered && Next(s, End).phase == s.phase
  {
    var a := s.performing.value;
    assert Carries(s.payloads, s.acts[a].data, s.delivered[|s.delivered| - 1]);
    HolderReleased(s, a, s.acts[a].data.value);
  }

  /** The last reference to an action but the pool's goes: a pooled one is spare again; any other is gone, and
      with it its hold on a payload it was cancelled with. */
  lemma DropLetsGo(s: State, a: nat)
    requires Inv(s) && Enabled(s, DropRef(a))
    ensures var t := Next(s, DropRef(a));
      if a < |s.actPool.items| then
        && t.acts[a] == Act(s.acts[a].data, Spare) && SameActionsBut(s, t, a) && t.dataPool == s.dataPool && t.uses == s.uses
        && |t.actPool.items| == |s.actPool.items| && ObjectPool.Available(t.actPool, a)
      else
        && t.acts[a] == Act(None, Dead) && SameActionsBut(s, t, a) && t.actPool == s.actPool
        && match s.acts[a].data
           case None => t.dataPool == s.dataPool && t.uses == s.uses
           case Some(k) => LetsPayloadGo(s, t, a, k)
  {
    if a < |s.actPool.items| {
      DropPooled(s, a);
    } else {
      DropOther(s, a);
    }
  }

  lemma DropPooled(s: State, a: nat)
    requires Inv(s) && Enabled(s, DropRef(a)) && a < |s.actPool.items|
    ensures var t := Next(s, DropRef(a));
      && t.acts[a] == Act(s.acts[a].data, Spare) && SameActionsBut(s, t, a) && t.dataPool == s.dataPool && t.uses == s.uses
      && |t.actPool.items| == |s.actPool.items| && ObjectPool.Available(t.actPool, a)
  {
  }

  lemma DropOther(s: State, a: nat)
    requires Inv(s) && Enabled(s, DropRef(a)) && a >= |s.actPool.items|
    ensures var t := Next(s, DropRef(a));
      && t.acts[a] == Act(None, Dead) && SameActionsBut(s, t, a) && t.actPool == s.actPool
      && match s.acts[a].data
         case None => t.dataPool == s.dataPool && t.uses == s.uses
         case Some(k) => LetsPayloadGo(s, t, a, k)
  {
    if s.acts[a].data.Some? {
      OtherLetsGo(s, a, s.acts[a].data.value);
    }
  }

  lemma OtherLetsGo(s: State, a: nat, k: nat)
    requires Inv(s) && Enabled(s, DropRef(a)) && a >= |s.actPool.items| && s.acts[a].data == Some(k)
    ensures LetsPayloadGo(s, Next(s, DropRef(a)), a, k)
  {
    assert s.uses[k].holder == Some(a);
    HolderReleased(s, a, k);
  }

  /** A cancelled action keeps its payload, and its place in the line closes up. */
  lemma CancelKeepsPayload(s: State, at: nat)
    requires Inv(s) && Enabled(s, Cancel(at))
    ensures var t, a := Next(s, Cancel(at)), s.line[at];
      && t.acts[a] == Act(s.acts[a].data, Shed) && SameActionsBut(s, t, a) && t.dataPool == s.dataPool && t.uses == s.uses
      && a !in t.line && |t.line| == |s.line| - 1 && (forall b :: b != a ==> (b in t.line <==> b in s.line))
  {
    WithoutOne(s.line, at);
  }

  lemma WithoutOne(line: seq<nat>, at: nat)
    requires at < |line| && forall i, j :: 0 <= i < j < |line| ==> line[i] != line[j]
    ensures var rest := line[..at] + line[at + 1..];
      |rest| == |line| - 1 && line[at] !in rest && forall b :: b != line[at] ==> (b in rest <==> b in line)
  {
    assert line == line[..at] + [line[at]] + line[at + 1..];
  }

  /** A refused update leaves the producer with nothing in hand; a pooled action keeps the payload it was given. */
  lemma RejectLetsGo(s: State)
    requires Inv(s) && Enabled(s, Reject)
    ensures var t, a, k := Next(s, Reject), s.phase.act, s.phase.slot;
      && t.phase.Idle? && t.line == s.line && t.raised == s.raised && SameActionsBut(s, t, a) && SamePayloadsBut(s, t, k)
      && k < |t.uses| && !t.uses[k].inHand
      && if a < |s.actPool.items| then
           t.acts[a] == Act(Some(k), Spare) && |t.actPool.items| == |s.actPool.items| && ObjectPool.Available(t.actPool, a) && t.uses[k].holder == Some(a)
         else
           t.acts[a] == Act(None, Dead) && |t.dataPool.items| == |s.dataPool.items| && ObjectPool.Available(t.dataPool, k) && t.uses[k].holder.None?
  {
    assert CountIs(s.dataPool.items[s.phase.slot], s.uses[s.phase.slot]);
  }
}
