/** Every step of the delivery path keeps its invariant: one lemma for each step, the parts of the invariant one by one. */
module DeliverySteps {
  import opened Options
  import ObjectPool
  import opened Delivery

  // ---- frames ----------------------------------------------------------------

  /** The actions in line are as they were. */
  ghost predicate SameInLine(acts: seq<Act>, acts': seq<Act>) {
    |acts| <= |acts'| && forall b :: 0 <= b < |acts| && acts[b].place == InLine ==> acts'[b] == acts[b]
  }

  lemma InOrderFrame(acts: seq<Act>, acts': seq<Act>, payloads: seq<Payload>, line: seq<nat>, raised: seq<Bytes>, from: nat)
    requires SameInLine(acts, acts') && Listed(acts, line) && InOrder(acts, payloads, line, raised, from)
    ensures InOrder(acts', payloads, line, raised, from)
  {
    forall i | 0 <= i < |line| ensures line[i] < |acts'| && Carries(payloads, acts'[line[i]].data, raised[from + i]) {
      assert acts'[line[i]] == acts[line[i]];
    }
  }

  lemma LineFrame(s: State, acts': seq<Act>)
    requires Inv(s) && SameInLine(s.acts, acts')
    ensures Listed(acts', s.line)
    ensures !s.stopped ==> InOrder(acts', s.payloads, s.line, s.raised, |s.delivered|)
  {
    if !s.stopped {
      InOrderFrame(s.acts, acts', s.payloads, s.line, s.raised, |s.delivered|);
    }
  }

  /** The actions in line and the one being performed are as they were. */
  ghost predicate SameInFlight(acts: seq<Act>, acts': seq<Act>) {
    SameInLine(acts, acts') && forall b :: 0 <= b < |acts| && acts[b].place == Performing ==> acts'[b] == acts[b]
  }

  lemma ActFrame(s: State, acts': seq<Act>)
    requires Inv(s) && SameInFlight(s.acts, acts')
    ensures Listed(acts', s.line)
    ensures PerformingInv(s.performing, acts', s.payloads, s.delivered)
    ensures !s.stopped ==> InOrder(acts', s.payloads, s.line, s.raised, |s.delivered|)
  {
    LineFrame(s, acts');
  }

  /** The payloads the in-flight actions carry read the same in `payloads'`. */
  ghost predicate SameWhereHeld(payloads: seq<Payload>, payloads': seq<Payload>, uses: seq<Use>) {
    && |uses| == |payloads| <= |payloads'|
    && forall k :: 0 <= k < |uses| && uses[k].holder.Some? ==> payloads'[k] == payloads[k]
  }

  lemma CarriesFrame(acts: seq<Act>, uses: seq<Use>, payloads: seq<Payload>, payloads': seq<Payload>, a: nat, bytes: Bytes)
    requires Linked(acts, uses) && SameWhereHeld(payloads, payloads', uses)
    requires a < |acts| && Carries(payloads, acts[a].data, bytes)
    ensures Carries(payloads', acts[a].data, bytes)
  {
    assert uses[acts[a].data.value].holder == Some(a);
  }

  lemma PayloadsFrame(s: State, payloads': seq<Payload>)
    requires Inv(s) && SameWhereHeld(s.payloads, payloads', s.uses)
    ensures PerformingInv(s.performing, s.acts, payloads', s.delivered)
    ensures !s.stopped ==> InOrder(s.acts, payloads', s.line, s.raised, |s.delivered|)
  {
    if s.performing.Some? {
      CarriesFrame(s.acts, s.uses, s.payloads, payloads', s.performing.value, s.delivered[|s.delivered| - 1]);
    }
    if !s.stopped {
      forall i | 0 <= i < |s.line| ensures Carries(payloads', s.acts[s.line[i]].data, s.raised[|s.delivered| + i]) {
        CarriesFrame(s.acts, s.uses, s.payloads, payloads', s.line[i], s.raised[|s.delivered| + i]);
      }
    }
  }

  // ---- producer steps --------------------------------------------------------

  lemma GiveCounts(pool: ObjectPool.Pool, uses: seq<Use>, grow: bool, k: nat)
    requires PayloadCounts(pool, uses) && CanGive(pool, grow, k)
    ensures var given := ObjectPool.HandOut(AfterGrowing(pool, grow), k);
      var filled := Fill(uses, |given.items|, Use(false, None));
      && k < |filled| && filled[k] == Use(false, None) && PayloadCounts(given, filled[k := Use(true, None)])
  {
    if k < |uses| {
      assert CountIs(pool.items[k], uses[k]);
    }
  }

  lemma RaiseTakesUnused(s: State, bytes: Bytes, grow: bool, k: nat)
    requires Inv(s) && Enabled(s, Raise(bytes, grow, k))
    ensures var t := DoRaise(s, bytes, grow, k);
      && k < |t.uses| == |t.payloads| && |s.uses| <= |t.uses| && s.payloads <= t.payloads
      && t.uses[k] == Use(true, None)
      && (forall j :: 0 <= j < |s.uses| && j != k ==> t.uses[j] == s.uses[j])
      && (forall j :: |s.uses| <= j < |t.uses| && j != k ==> t.uses[j] == Use(false, None))
      && (k < |s.uses| ==> s.uses[k] == Use(false, None))
      && PayloadCounts(t.dataPool, t.uses)
  {
    GiveCounts(s.dataPool, s.uses, grow, k);
  }

  lemma RaiseKeepsInv(s: State, bytes: Bytes, grow: bool, k: nat)
    requires Inv(s) && Enabled(s, Raise(bytes, grow, k))
    ensures Inv(DoRaise(s, bytes, grow, k))
  {
    var t := DoRaise(s, bytes, grow, k);
    RaiseTakesUnused(s, bytes, grow, k);
    PayloadsFrame(s, t.payloads);
    assert Storage(t.dataPool, t.payloads, t.uses, t.acts, t.phase);
    assert InFlight(t);
  }

  lemma WriteKeepsInv(s: State)
    requires Inv(s) && s.phase.Taken? && s.phase.slot < |s.payloads|
    ensures Inv(DoWrite(s))
  {
    PayloadsFrame(s, DoWrite(s).payloads);
    UpdateThenContent(s.payloads[s.phase.slot], s.phase.bytes);
  }

  lemma PooledActionIsSpare(pool: ObjectPool.Pool, acts: seq<Act>, a: nat)
    requires ActionCounts(pool, acts) && CanGive(pool, false, a)
    ensures a < |acts| && acts[a].place == Spare
    ensures ActionCounts(ObjectPool.HandOut(pool, a), acts[a := acts[a].(place := InHand)])
  {
  }

  lemma SameDataKeepsLinked(acts: seq<Act>, acts': seq<Act>, uses: seq<Use>)
    requires Linked(acts, uses) && |acts| <= |acts'|
    requires forall a :: 0 <= a < |acts| ==> acts'[a].data == acts[a].data
    requires forall a :: |acts| <= a < |acts'| ==> acts'[a].data == None
    ensures Linked(acts', uses)
  {
  }

  lemma TakeStorage(pool: ObjectPool.Pool, payloads: seq<Payload>, uses: seq<Use>, acts: seq<Act>, acts': seq<Act>, phase: Phase, a: nat)
    requires Storage(pool, payloads, uses, acts, phase) && phase.Written? && |acts| <= |acts'|
    requires forall b :: 0 <= b < |acts| ==> acts'[b].data == acts[b].data
    requires forall b :: |acts| <= b < |acts'| ==> acts'[b].data == None
    ensures Storage(pool, payloads, uses, acts', Equipped(phase.slot, phase.bytes, a))
  {
    SameDataKeepsLinked(acts, acts', uses);
  }

  lemma TakeFlow(s: State, actPool: ObjectPool.Pool, acts: seq<Act>, a: nat)
    requires Inv(s) && s.phase.Written? && SameInFlight(s.acts, acts)
    ensures var t := s.(actPool := actPool, acts := acts, phase := Equipped(s.phase.slot, s.phase.bytes, a));
      InFlight(t) && FlowInv(t) && Listed(acts, s.line)
  {
    ActFrame(s, acts);
  }

  lemma TakePooledKeepsInv(s: State, a: nat)
    requires Inv(s) && Enabled(s, TakeAction(Some(a)))
    ensures Inv(TakePooled(s, a))
  {
    var t := TakePooled(s, a);
    PooledActionIsSpare(s.actPool, s.acts, a);
    TakeStorage(s.dataPool, s.payloads, s.uses, s.acts, t.acts, s.phase, a);
    TakeFlow(s, t.actPool, t.acts, a);
  }

  lemma TakeNewActions(pool: ObjectPool.Pool, acts: seq<Act>)
    requires ActionCounts(pool, acts)
    ensures ActionCounts(pool, acts + [Act(None, InHand)]) && SameInFlight(acts, acts + [Act(None, InHand)])
  {
  }

  lemma TakeNewKeepsInv(s: State)
    requires Inv(s) && s.phase.Written?
    ensures Inv(TakeNew(s))
  {
    var acts := TakeNew(s).acts;
    TakeNewActions(s.actPool, s.acts);
    TakeStorage(s.dataPool, s.payloads, s.uses, s.acts, acts, s.phase, |s.acts|);
    TakeFlow(s, s.actPool, acts, |s.acts|);
  }

  /** Releasing what an action holds, if anything, and forgetting the action as its holder. */
  lemma UnrefKeepsCounts(pool: ObjectPool.Pool, uses: seq<Use>, acts: seq<Act>, a: nat, act: Act)
    requires PayloadCounts(pool, uses) && Linked(acts, uses) && a < |acts| && act.data.None?
    ensures CanRelease(pool, acts[a].data)
    ensures PayloadCounts(Unref(pool, acts[a].data), Unhold(uses, acts[a].data))
    ensures Linked(acts[a := act], Unhold(uses, acts[a].data))
  {
    if acts[a].data.Some? {
      var k := acts[a].data.value;
      assert CountIs(pool.items[k], uses[k]);
    }
  }

  /** An action takes a payload nobody carries. */
  lemma HoldKeepsCounts(pool: ObjectPool.Pool, uses: seq<Use>, acts: seq<Act>, a: nat, k: nat, act: Act)
    requires PayloadCounts(pool, uses) && Linked(acts, uses) && a < |acts| && acts[a].data.None? && act.data == Some(k)
    requires k < |uses| && uses[k] == Use(true, None)
    ensures Counted(pool, k)
    ensures PayloadCounts(Incr(pool, k), uses[k := Use(true, Some(a))])
    ensures Linked(acts[a := act], uses[k := Use(true, Some(a))])
  {
    assert CountIs(pool.items[k], uses[k]);
  }

  lemma SetDataCounts(pool: ObjectPool.Pool, uses: seq<Use>, acts: seq<Act>, a: nat, k: nat, act: Act)
    requires PayloadCounts(pool, uses) && Linked(acts, uses) && a < |acts| && act.data == Some(k)
    requires k < |uses| && uses[k] == Use(true, None)
    ensures var d := acts[a].data;
      && CanRelease(pool, d) && Counted(Unref(pool, d), k)
      && PayloadCounts(Incr(Unref(pool, d), k), Unhold(uses, d)[k := Use(true, Some(a))])
      && Linked(acts[a := act], Unhold(uses, d)[k := Use(true, Some(a))])
  {
    var d := acts[a].data;
    UnrefKeepsCounts(pool, uses, acts, a, act.(data := None));
    var bare := acts[a := act.(data := None)];
    HoldKeepsCounts(Unref(pool, d), Unhold(uses, d), bare, a, k, act);
    assert acts[a := act] == bare[a := act];
  }

  lemma SetDataStorage(s: State)
    requires Storage(s.dataPool, s.payloads, s.uses, s.acts, s.phase) && s.phase.Equipped? && s.phase.act < |s.acts|
    ensures CanSetData(s)
    ensures var t := DoSetData(s); Storage(t.dataPool, t.payloads, t.uses, t.acts, t.phase)
  {
    var a, k := s.phase.act, s.phase.slot;
    SetDataCounts(s.dataPool, s.uses, s.acts, a, k, s.acts[a].(data := Some(k)));
  }

  lemma SetDataActions(pool: ObjectPool.Pool, acts: seq<Act>, a: nat, k: nat)
    requires ActionCounts(pool, acts) && a < |acts| && acts[a].place == InHand
    ensures var acts' := acts[a := acts[a].(data := Some(k))]; ActionCounts(pool, acts') && SameInFlight(acts, acts')
  {
  }

  lemma SetDataFlow(s: State)
    requires Inv(s) && s.phase.Equipped? && CanSetData(s) && SameInFlight(s.acts, DoSetData(s).acts)
    ensures var t := DoSetData(s); InFlight(t) && FlowInv(t) && Listed(t.acts, t.line)
  {
    ActFrame(s, DoSetData(s).acts);
  }

  lemma SetDataKeepsInv(s: State)
    requires Inv(s) && s.phase.Equipped?
    ensures CanSetData(s) && Inv(DoSetData(s))
  {
    SetDataStorage(s);
    SetDataActions(s.actPool, s.acts, s.phase.act, s.phase.slot);
    SetDataFlow(s);
  }

  lemma LetGoKeepsCounts(pool: ObjectPool.Pool, uses: seq<Use>, acts: seq<Act>, k: nat)
    requires PayloadCounts(pool, uses) && Linked(acts, uses) && k < |uses| && uses[k].inHand
    ensures Counted(pool, k)
    ensures PayloadCounts(Decr(pool, k), uses[k := uses[k].(inHand := false)])
    ensures Linked(acts, uses[k := uses[k].(inHand := false)])
  {
    assert CountIs(pool.items[k], uses[k]);
  }

  lemma LetGoStorage(s: State)
    requires Storage(s.dataPool, s.payloads, s.uses, s.acts, s.phase) && (s.phase.Armed? || s.phase.Admitted?) && s.phase.act < |s.acts|
    ensures CanLetGo(s)
    ensures var t := LetGo(s); Storage(t.dataPool, t.payloads, t.uses, t.acts, t.phase)
  {
    LetGoKeepsCounts(s.dataPool, s.uses, s.acts, s.phase.slot);
  }

  lemma EnqueueActions(pool: ObjectPool.Pool, acts: seq<Act>, a: nat, line: seq<nat>)
    requires ActionCounts(pool, acts) && Listed(acts, line) && a < |acts| && acts[a].place == InHand
    ensures ActionCounts(pool, acts[a := acts[a].(place := InLine)])
    ensures Listed(acts[a := acts[a].(place := InLine)], line + [a])
  {
  }

  lemma EnqueueOrder(acts: seq<Act>, payloads: seq<Payload>, line: seq<nat>, raised: seq<Bytes>, from: nat, a: nat)
    requires InOrder(acts, payloads, line, raised, from) && from + |line| < |raised|
    requires a < |acts| && Carries(payloads, acts[a].data, raised[from + |line|])
    ensures InOrder(acts, payloads, line + [a], raised, from)
  {
  }

  lemma EnqueueFlow(s: State)
    requires Inv(s) && s.phase.Admitted? && CanLetGo(s)
    ensures var t := DoEnqueue(s); InFlight(t) && FlowInv(t)
  {
    var a := s.phase.act;
    var acts := s.acts[a := s.acts[a].(place := InLine)];
    ActFrame(s, acts);
    if !s.stopped {
      EnqueueOrder(acts, s.payloads, s.line, s.raised, |s.delivered|, a);
    }
  }

  lemma EnqueueKeepsInv(s: State)
    requires Inv(s) && s.phase.Admitted?
    ensures CanLetGo(s) && Inv(DoEnqueue(s))
  {
    var a := s.phase.act;
    var acts := s.acts[a := s.acts[a].(place := InLine)];
    LetGoStorage(s);
    SameDataKeepsLinked(s.acts, acts, LetGo(s).uses);
    EnqueueActions(s.actPool, s.acts, a, s.line);
    EnqueueFlow(s);
  }

  lemma LetGoKeepsInv(s: State)
    requires Inv(s) && s.phase.Armed? && !s.running
    ensures CanLetGo(s) && Inv(LetGo(s))
  {
    LetGoStorage(s);
  }

  // ---- worker steps ----------------------------------------------------------

  lemma DropStorage(s: State, a: nat, act: Act)
    requires Storage(s.dataPool, s.payloads, s.uses, s.acts, s.phase) && a < |s.acts|
    requires act.data.None? && (s.phase.Armed? || s.phase.Admitted? ==> s.phase.act != a)
    ensures CanRelease(s.dataPool, s.acts[a].data)
    ensures var d := s.acts[a].data;
      Storage(Unref(s.dataPool, d), s.payloads, Unhold(s.uses, d), s.acts[a := act], s.phase)
  {
    UnrefKeepsCounts(s.dataPool, s.uses, s.acts, a, act);
  }

  lemma MoveKeepsCounts(pool: ObjectPool.Pool, acts: seq<Act>, a: nat, act: Act)
    requires ActionCounts(pool, acts) && a < |acts| && acts[a].place != Spare && act.place != Spare
    requires a < |pool.items| ==> act.place != Dead
    ensures ActionCounts(pool, acts[a := act])
  {
  }

  lemma DropActions(pool: ObjectPool.Pool, acts: seq<Act>, a: nat)
    requires ActionCounts(pool, acts) && a < |pool.items| && acts[a].place != Spare
    ensures Counted(pool, a) && ActionCounts(Decr(pool, a), acts[a := acts[a].(place := Spare)])
  {
  }

  lemma DropPooledKeepsInv(s: State, a: nat)
    requires Inv(s) && Pooled(s, a) && (s.acts[a].place == Shed || (s.acts[a].place == InHand && s.phase.Idle?))
    ensures CanDrop(s, a) && Inv(Drop(s, a))
  {
    var acts := s.acts[a := s.acts[a].(place := Spare)];
    DropActions(s.actPool, s.acts, a);
    assert Storage(s.dataPool, s.payloads, s.uses, acts, s.phase) by { SameDataKeepsLinked(s.acts, acts, s.uses); }
    DropFlow(s, acts, Decr(s.actPool, a), s.dataPool, s.uses);
  }

  lemma DropFlow(s: State, acts: seq<Act>, actPool: ObjectPool.Pool, dataPool: ObjectPool.Pool, uses: seq<Use>)
    requires Inv(s) && SameInFlight(s.acts, acts)
    ensures var t := s.(acts := acts, actPool := actPool, dataPool := dataPool, uses := uses);
      InFlight(t) && FlowInv(t) && Listed(acts, s.line)
  {
    ActFrame(s, acts);
  }

  lemma DropOtherKeepsInv(s: State, a: nat)
    requires Inv(s) && a < |s.acts| && !Pooled(s, a) && (s.acts[a].place == Shed || (s.acts[a].place == InHand && s.phase.Idle?))
    ensures CanDrop(s, a) && Inv(Drop(s, a))
  {
    var acts, d := s.acts[a := Act(None, Dead)], s.acts[a].data;
    DropStorage(s, a, Act(None, Dead));
    MoveKeepsCounts(s.actPool, s.acts, a, Act(None, Dead));
    DropFlow(s, acts, s.actPool, Unref(s.dataPool, d), Unhold(s.uses, d));
  }

  /** An action that is in nobody's line and nobody's hand can be let go. */
  lemma DropKeepsInv(s: State, a: nat)
    requires Inv(s) && a < |s.acts| && (s.acts[a].place == Shed || (s.acts[a].place == InHand && s.phase.Idle?))
    ensures CanDrop(s, a) && Inv(Drop(s, a))
  {
    if Pooled(s, a) {
      DropPooledKeepsInv(s, a);
    } else {
      DropOtherKeepsInv(s, a);
    }
  }

  lemma BeginOrder(acts: seq<Act>, acts': seq<Act>, payloads: seq<Payload>, line: seq<nat>, raised: seq<Bytes>, from: nat)
    requires Listed(acts, line) && InOrder(acts, payloads, line, raised, from) && line != []
    requires acts' == acts[line[0] := acts[line[0]].(place := Performing)]
    ensures Carries(payloads, acts[line[0]].data, raised[from])
    ensures Listed(acts', line[1..]) && InOrder(acts', payloads, line[1..], raised, from + 1)
  {
    assert Carries(payloads, acts[line[0]].data, raised[from + 0]);
    var rest := line[1..];
    forall i | 0 <= i < |rest|
      ensures rest[i] < |acts'| && acts'[rest[i]] == acts[rest[i]] && Carries(payloads, acts'[rest[i]].data, raised[from + 1 + i])
    {
      assert rest[i] == line[i + 1] && Carries(payloads, acts[line[i + 1]].data, raised[from + (i + 1)]);
    }
  }

  lemma BeginLine(s: State)
    requires Inv(s) && s.performing.None? && !s.stopped && 0 < s.cut
    ensures CanBegin(s)
    ensures var t := DoBegin(s);
      Listed(t.acts, t.line) && InFlight(t) && FlowInv(t)
  {
    BeginOrder(s.acts, s.acts[s.line[0] := s.acts[s.line[0]].(place := Performing)], s.payloads, s.line, s.raised, |s.delivered|);
    assert DoBegin(s).delivered == s.raised[..|s.delivered| + 1];
  }

  lemma BeginKeepsInv(s: State)
    requires Inv(s) && s.performing.None? && !s.stopped && 0 < s.cut
    ensures CanBegin(s) && Inv(DoBegin(s))
  {
    BeginLine(s);
    var t := DoBegin(s);
    SameDataKeepsLinked(s.acts, t.acts, s.uses);
    MoveKeepsCounts(s.actPool, s.acts, s.line[0], t.acts[s.line[0]]);
  }

  lemma EndActions(pool: ObjectPool.Pool, acts: seq<Act>, phase: Phase, a: nat)
    requires ActionCounts(pool, acts) && ActInHand(phase, acts) && a < |acts| && acts[a].place == Performing
    ensures var acts' := acts[a := Act(None, Shed)];
      ActionCounts(pool, acts') && ActInHand(phase, acts') && SameInLine(acts, acts')
  {
  }

  lemma EndStorage(s: State)
    requires Inv(s) && s.performing.Some?
    ensures CanEnd(s)
    ensures var t := DoEnd(s); Storage(t.dataPool, t.payloads, t.uses, t.acts, t.phase)
  {
    DropStorage(s, s.performing.value, Act(None, Shed));
  }

  lemma EndLine(s: State)
    requires Inv(s) && CanEnd(s)
    ensures var t := DoEnd(s); Actions(t.actPool, t.acts, t.phase, t.line) && InFlight(t) && FlowInv(t)
  {
    EndActions(s.actPool, s.acts, s.phase, s.performing.value);
    LineFrame(s, DoEnd(s).acts);
  }

  lemma EndKeepsInv(s: State)
    requires Inv(s) && s.performing.Some?
    ensures CanEnd(s) && Inv(DoEnd(s))
  {
    EndStorage(s);
    EndLine(s);
  }

  lemma CancelListed(acts: seq<Act>, line: seq<nat>, at: nat, act: Act)
    requires Listed(acts, line) && at < |line|
    ensures Listed(acts[line[at] := act], line[..at] + line[at + 1..])
  {
    var line' := line[..at] + line[at + 1..];
    forall i | 0 <= i < |line'| ensures line'[i] == line[if i < at then i else i + 1] {
    }
  }

  lemma CancelStorage(s: State, a: nat)
    requires Storage(s.dataPool, s.payloads, s.uses, s.acts, s.phase) && a < |s.acts|
    ensures Storage(s.dataPool, s.payloads, s.uses, s.acts[a := s.acts[a].(place := Shed)], s.phase)
  {
    SameDataKeepsLinked(s.acts, s.acts[a := s.acts[a].(place := Shed)], s.uses);
  }

  lemma CancelActions(pool: ObjectPool.Pool, acts: seq<Act>, phase: Phase, line: seq<nat>, at: nat)
    requires Actions(pool, acts, phase, line) && at < |line|
    ensures Actions(pool, acts[line[at] := acts[line[at]].(place := Shed)], phase, line[..at] + line[at + 1..])
  {
    CancelListed(acts, line, at, acts[line[at]].(place := Shed));
    MoveKeepsCounts(pool, acts, line[at], acts[line[at]].(place := Shed));
  }

  lemma CancelFlow(s: State, at: nat)
    requires InFlight(s) && FlowInv(s) && s.stopped && at < |s.line|
    requires s.line[at] < |s.acts| && s.acts[s.line[at]].place == InLine
    ensures InFlight(DoCancel(s, at)) && FlowInv(DoCancel(s, at))
  {
  }

  lemma CancelKeepsInv(s: State, at: nat)
    requires Inv(s) && s.stopped && at < |s.line|
    ensures Inv(DoCancel(s, at))
  {
    CancelStorage(s, s.line[at]);
    CancelActions(s.actPool, s.acts, s.phase, s.line, at);
    CancelFlow(s, at);
  }

  // ---- every step ------------------------------------------------------------

  lemma AdmitKeepsInv(s: State)
    requires Inv(s) && Enabled(s, Admit)
    ensures Inv(Next(s, Admit))
  {
  }

  lemma DisposalKeepsInv(s: State, step: Step)
    requires Inv(s) && Enabled(s, step) && (step.Swap? || step.Dispose? || step.Stop?)
    ensures Inv(Next(s, step))
  {
  }

  lemma StepKeepsInv(s: State, step: Step)
    requires Inv(s) && Enabled(s, step)
    ensures Inv(Next(s, step))
  {
    match step
    case Raise(bytes, grow, k) => RaiseKeepsInv(s, bytes, grow, k);
    case Write => WriteKeepsInv(s);
    case TakeAction(pooled) =>
      if pooled.Some? { TakePooledKeepsInv(s, pooled.value); } else { TakeNewKeepsInv(s); }
    case SetData => SetDataKeepsInv(s);
    case Admit => AdmitKeepsInv(s);
    case Enqueue => EnqueueKeepsInv(s);
    case Reject =>
      LetGoKeepsInv(s);
      DropKeepsInv(LetGo(s), s.phase.act);
    case Begin => BeginKeepsInv(s);
    case End => EndKeepsInv(s);
    case Cancel(at) => CancelKeepsInv(s, at);
    case DropRef(a) => DropKeepsInv(s, a);
    case _ => DisposalKeepsInv(s, step);
  }

  /** No step but the producer's write changes a payload, and that one is carried by no action. */
  lemma HeldPayloadKept(s: State, step: Step, k: nat)
    requires Inv(s) && Enabled(s, step) && k < |s.uses| && s.uses[k].holder.Some?
    ensures k < |Next(s, step).payloads| && Next(s, step).payloads[k] == s.payloads[k]
  {
    if step.Raise? {
      RaiseTakesUnused(s, step.bytes, step.grow, step.slot);
    }
  }
}
