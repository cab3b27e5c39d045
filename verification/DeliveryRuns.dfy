/** What a subscriber can rely on, in every run of the delivery path. */
module DeliveryRuns {
  import opened Options
  import ObjectPool
  import opened Delivery
  import opened DeliverySteps

  // ---------------------------------------------------------------------------
  // Every run
  // ---------------------------------------------------------------------------

  lemma InitialInv(slots: nat, actions: nat, capacity: nat)
    requires slots > 0
    ensures Inv(Initial(slots, actions, capacity))
  {
  }

  lemma {:induction false} RunKeepsInv(s: State, steps: seq<Step>, s': State)
    requires Inv(s) && Run(s, steps, s')
    ensures Inv(s')
    decreases |steps|
  {
    if steps != [] {
      StepKeepsInv(s, steps[0]);
      RunKeepsInv(Next(s, steps[0]), steps[1..], s');
    }
  }

  ghost predicate Reachable(s: State) {
    exists slots: nat, actions: nat, capacity: nat, steps: seq<Step> ::
      slots > 0 && Run(Initial(slots, actions, capacity), steps, s)
  }

  lemma ReachableInv(s: State)
    requires Reachable(s)
    ensures Inv(s)
  {
    var slots: nat, actions: nat, capacity: nat, steps: seq<Step> :|
      slots > 0 && Run(Initial(slots, actions, capacity), steps, s);
    InitialInv(slots, actions, capacity);
    RunKeepsInv(Initial(slots, actions, capacity), steps, s);
  }

  // ---------------------------------------------------------------------------
  // What a subscriber can rely on
  // ---------------------------------------------------------------------------

  /** The subscribed function has received the updates raised since it subscribed, in order, none
      left out, each with the bytes it was raised with; while the context runs, what is still
      missing is in line or in the producer's hands. */
  lemma DeliveredIsPrefix(s: State)
    requires Reachable(s)
    ensures s.delivered <= s.raised
    ensures s.running ==> |s.raised| == |s.delivered| + |s.line| + One(!s.phase.Idle?)
  {
    ReachableInv(s);
  }

  /** The action carries a payload the subscribed function has yet to read, or is reading. */
  predicate Carrying(s: State, a: nat) {
    a in s.line || s.performing == Some(a)
  }

  /** A payload in flight is never overwritten. */
  lemma NoInFlightOverwrite(s: State, step: Step, a: nat)
    requires Reachable(s) && Enabled(s, step) && Carrying(s, a)
    ensures a < |s.acts| && (!s.stopped || s.performing == Some(a) ==> s.acts[a].data.Some?)
    ensures s.acts[a].data.Some? ==>
      var k := s.acts[a].data.value;
      k < |s.payloads| && k < |Next(s, step).payloads| && Next(s, step).payloads[k] == s.payloads[k]
  {
    ReachableInv(s);
    if s.performing != Some(a) {
      var i :| 0 <= i < |s.line| && s.line[i] == a;
      assert !s.stopped ==> Carries(s.payloads, s.acts[s.line[i]].data, s.raised[|s.delivered| + i]);
    }
    if s.acts[a].data.Some? {
      assert s.uses[s.acts[a].data.value].holder == Some(a);
      HeldPayloadKept(s, step, s.acts[a].data.value);
    }
  }

  /** The guards that speak of counts and indices never stand in the way: an update can always be
      raised and carried through. */
  lemma ProducerNeverStuck(s: State)
    requires Reachable(s)
    ensures s.phase.Idle? ==> exists grow, k :: CanGive(s.dataPool, grow, k) && forall bytes :: Enabled(s, Raise(bytes, grow, k))
    ensures s.phase.Taken? ==> Enabled(s, Write)
    ensures s.phase.Equipped? ==> Enabled(s, SetData)
    ensures s.phase.Armed? ==> Enabled(s, if s.running then Admit else Reject)
    ensures s.phase.Admitted? ==> Enabled(s, Enqueue)
  {
    ReachableInv(s);
    match s.phase
    case Idle => assert CanGive(s.dataPool, true, |s.dataPool.items|);
    case Taken(_, _) =>
    case Written(_, _) =>
    case Equipped(_, _, _) => SetDataStorage(s);
    case Armed(_, _, _) => if !s.running { LetGoKeepsInv(s); DropKeepsInv(LetGo(s), s.phase.act); }
    case Admitted(_, _, _) => LetGoStorage(s);
  }

  /** Nor does the worker ever stop short of what it has to perform or drop. */
  lemma WorkerNeverStuck(s: State, a: nat)
    requires Reachable(s)
    ensures s.performing.Some? ==> Enabled(s, End)
    ensures s.performing.None? && !s.stopped && 0 < s.cut ==> Enabled(s, Begin)
    ensures a < |s.acts| && s.acts[a].place == Shed ==> Enabled(s, DropRef(a))
  {
    ReachableInv(s);
    if s.performing.Some? {
      DropStorage(s, s.performing.value, Act(None, Shed));
    } else if !s.stopped && 0 < s.cut {
      BeginLine(s);
    }
    if a < |s.acts| && s.acts[a].place == Shed {
      DropKeepsInv(s, a);
    }
  }
}
