/**
 Whether replication of a row comes to an end, decided by what is under way for it: in
 any state whatever, so after any write and after any answer to a registration request.
 */
module ReplicationLoops {
  import opened EchoFlow
  import opened Replication

  /** The agents go on sending and receiving; the application writes nothing more and nobody registers. */
  ghost predicate Relays(s: State, steps: seq<Step>, t: State) {
    Run(s, steps, t) && forall step <- steps :: step.Send? || step.Receive?
  }

  /** The agents may get to `n` messages for row `k`. */
  ghost predicate Reaches(s: State, k: nat, n: nat) {
    exists steps, t :: Relays(s, steps, t) && k < |t.messages| && t.messages[k] >= n
  }

  /** There is no end to the messages for row `k` that the agents may still exchange. */
  ghost predicate Endless(s: State, k: nat) {
    forall n: nat :: Reaches(s, k, n)
  }

  ghost predicate Settled(t: State, k: nat) {
    Shaped(t) && k < |t.last| && Quiet(t, k)
  }

  /** However the agents go on, there is always something under way for row `k`. */
  ghost predicate NeverSettles(s: State, k: nat) {
    forall steps, t :: Relays(s, steps, t) ==> !Settled(t, k)
  }

  function FlowAt(s: State, k: nat): Flow<Value>
    requires Shaped(s) && k < |s.last|
  {
    FlowOf(View(s, Left, k))
  }

  lemma RelayAppend(s: State, a: seq<Step>, t: State, b: seq<Step>, u: State)
    requires Relays(s, a, t) && Relays(t, b, u)
    ensures Relays(s, a + b, u)
    decreases |a|
  {
    if a == [] {
      assert a + b == b;
    } else {
      assert a[0] in a && forall step <- a[1..] :: step in a;
      RelayAppend(Next(s, a[0]), a[1..], t, b, u);
      assert (a + b)[1..] == a[1..] + b;
      assert forall step <- a + b :: step in a || step in b;
    }
  }

  lemma RelayFirst(s: State, step: Step, rest: seq<Step>, t: State)
    requires Enabled(s, step) && (step.Send? || step.Receive?) && Relays(Next(s, step), rest, t)
    ensures Relays(s, [step] + rest, t)
  {
    var steps := [step] + rest;
    assert steps[0] == step && steps[1..] == rest;
    assert forall x <- steps :: x == step || x in rest;
  }

  // ---------------------------------------------------------------------------
  // What relaying never changes
  // ---------------------------------------------------------------------------

  /** From `w` to `u` nothing is decided, and the messages issued are those there were to come. */
  predicate SameOutlook(w: RowView, u: RowView) {
    && (Loops(FlowOf(u)) <==> Loops(FlowOf(w)))
    && (!Loops(FlowOf(w)) ==>
          && u.messages + Rest(FlowOf(u)) == w.messages + Rest(FlowOf(w))
          && FinalMine(FlowOf(u)) == FinalMine(FlowOf(w)) && FinalTheirs(FlowOf(u)) == FinalTheirs(FlowOf(w)))
  }

  lemma OutlookFlips(w: RowView, u: RowView)
    requires SameOutlook(w, u)
    ensures SameOutlook(FlipView(w), FlipView(u))
  {
    assert FlowOf(FlipView(w)) == Flip(FlowOf(w)) && FlowOf(FlipView(u)) == Flip(FlowOf(u));
    FlipLoops(FlowOf(w));
    FlipLoops(FlowOf(u));
    if !Loops(FlowOf(w)) {
      FlipFinal(FlowOf(w));
      FlipFinal(FlowOf(u));
    }
  }

  lemma ReceivedOutlook(w: RowView)
    requires w.coming != []
    ensures SameOutlook(w, ViewReceived(w))
  {
    ReceivedFlow(w);
    ReceivedKeepsLoops(FlowOf(w));
    if !Loops(FlowOf(w)) {
      ReceivedKeepsFinal(FlowOf(w));
    }
  }

  lemma RelayStep(s: State, step: Step, k: nat)
    requires Shaped(s) && k < |s.last| && Enabled(s, step) && (step.Send? || step.Receive?)
    ensures Shaped(Next(s, step)) && |Next(s, step).last| == |s.last|
    ensures SameOutlook(View(s, Left, k), View(Next(s, step), Left, k))
  {
    StepKeepsShape(s, step);
    var side, t := step.side, Next(s, step);
    if step.Send? {
      SendView(s, side, k);
      if k == Of(s, side).queue[0].row {
        SentFlow(View(s, side, k));
      }
    } else {
      ReceiveView(s, side, k);
      if k == Of(s, side).inbox[0].row {
        ReceivedOutlook(View(s, side, k));
      }
    }
    OutlookFlips(View(s, side, k), View(t, side, k));
    OtherView(s, side, k);
    OtherView(t, side, k);
  }

  lemma {:induction false} RelayKeeps(s: State, steps: seq<Step>, t: State, k: nat)
    requires Shaped(s) && k < |s.last| && Relays(s, steps, t)
    ensures Shaped(t) && |t.last| == |s.last| && SameOutlook(View(s, Left, k), View(t, Left, k))
    decreases |steps|
  {
    if steps != [] {
      assert steps[0] in steps && forall step <- steps[1..] :: step in steps;
      RelayStep(s, steps[0], k);
      RelayKeeps(Next(s, steps[0]), steps[1..], t, k);
    }
  }

  // ---------------------------------------------------------------------------
  // Relaying can go on
  // ---------------------------------------------------------------------------

  function Ahead(s: State, side: Side): nat {
    2 * |Of(s, Other(side)).queue| + |Of(s, side).inbox|
  }

  lemma AheadSent(s: State, side: Side)
    requires Enabled(s, Send(side))
    ensures Ahead(DoSend(s, side), Other(side)) < Ahead(s, Other(side))
  {
  }

  lemma SendAhead(s: State, side: Side, k: nat) returns (u: State)
    requires Shaped(s) && k < |s.last| && Of(s, side).queue != []
    ensures Enabled(s, Send(side)) && u == Next(s, Send(side)) && Shaped(u) && |u.last| == |s.last|
    ensures FlowOf(View(u, Other(side), k)) == FlowOf(View(s, Other(side), k)) && u.messages[k] == s.messages[k]
    ensures Ahead(u, Other(side)) < Ahead(s, Other(side))
  {
    SendShape(s, side);
    u := Next(s, Send(side));
    AheadSent(s, side);
    SendView(s, side, k);
    OtherView(s, side, k);
    OtherView(u, side, k);
  }

  lemma ReceiveAhead(s: State, side: Side, k: nat) returns (u: State)
    requires Shaped(s) && k < |s.last| && Of(s, side).inbox != []
    ensures Enabled(s, Receive(side)) && u == Next(s, Receive(side)) && Shaped(u) && |u.last| == |s.last|
    ensures var f, f' := FlowOf(View(s, side, k)), FlowOf(View(u, side, k));
      if Of(s, side).inbox[0].row == k then f.inbound != [] && f' == Received(f) && u.messages[k] == s.messages[k] + Echo(f)
      else f' == f && u.messages[k] == s.messages[k] && Ahead(u, side) < Ahead(s, side)
  {
    assert Of(s, side).inbox[0] in Of(s, side).inbox;
    u := Next(s, Receive(side));
    StepKeepsShape(s, Receive(side));
    ReceiveView(s, side, k);
    if Of(s, side).inbox[0].row == k {
      ReceivedFlow(View(s, side, k));
    }
  }

  /** The agents can get the oldest value under way for the row received, with whatever is ahead of it. */
  lemma {:induction false} ReceiveNext(s: State, side: Side, k: nat) returns (steps: seq<Step>, t: State)
    requires Shaped(s) && k < |s.last| && FlowOf(View(s, side, k)).inbound != []
    ensures Relays(s, steps, t) && Shaped(t) && |t.last| == |s.last|
    ensures FlowOf(View(t, side, k)) == Received(FlowOf(View(s, side, k)))
    ensures t.messages[k] == s.messages[k] + Echo(FlowOf(View(s, side, k)))
    decreases Ahead(s, side)
  {
    var inbox, u, step := Of(s, side).inbox, s, Receive(side);
    if inbox == [] {
      step := Send(Other(side));
      u := SendAhead(s, Other(side), k);
    } else {
      u := ReceiveAhead(s, side, k);
    }
    var rest := [];
    if inbox != [] && inbox[0].row == k {
      t := u;
      assert Run(u, [], u);
    } else {
      rest, t := ReceiveNext(u, side, k);
    }
    RelayFirst(s, step, rest, t);
    steps := [step] + rest;
  }

  function UnderWay(s: State, k: nat): nat
    requires Shaped(s) && k < |s.last|
  {
    |FlowAt(s, k).outbound| + |FlowAt(s, k).inbound|
  }

  /** Some side can receive: it drops a value, or passes one on. */
  lemma RelayOnce(s: State, k: nat) returns (steps: seq<Step>, t: State)
    requires Shaped(s) && k < |s.last| && !Quiet(s, k)
    ensures Relays(s, steps, t) && Shaped(t) && |t.last| == |s.last|
    ensures UnderWay(t, k) + 1 == UnderWay(s, k) + t.messages[k] - s.messages[k]
    ensures s.messages[k] <= t.messages[k] <= s.messages[k] + 1
  {
    var side := if FlowAt(s, k).inbound != [] then Left else Right;
    OtherView(s, Left, k);
    steps, t := ReceiveNext(s, side, k);
    OtherView(t, Left, k);
  }

  lemma {:induction false} OneMore(s: State, k: nat) returns (steps: seq<Step>, t: State)
    requires Shaped(s) && k < |s.last| && Loops(FlowAt(s, k))
    ensures Relays(s, steps, t) && Shaped(t) && |t.last| == |s.last|
    ensures Loops(FlowAt(t, k)) && t.messages[k] == s.messages[k] + 1
    decreases UnderWay(s, k)
  {
    steps, t := RelayOnce(s, k);
    RelayKeeps(s, steps, t, k);
    if t.messages[k] == s.messages[k] {
      var more, u := OneMore(t, k);
      RelayAppend(s, steps, t, more, u);
      steps, t := steps + more, u;
    }
  }

  lemma {:induction false} GoesOn(s: State, k: nat, n: nat) returns (steps: seq<Step>, t: State)
    requires Shaped(s) && k < |s.last| && Loops(FlowAt(s, k))
    ensures Relays(s, steps, t) && Shaped(t) && |t.last| == |s.last| && t.messages[k] >= n
    decreases n - s.messages[k]
  {
    if s.messages[k] >= n {
      steps, t := [], s;
    } else {
      var a, u := OneMore(s, k);
      var b;
      b, t := GoesOn(u, k, n);
      RelayAppend(s, a, u, b, t);
      steps := a + b;
    }
  }

  lemma {:induction false} ComesToRest(s: State, k: nat) returns (steps: seq<Step>, t: State)
    requires Shaped(s) && k < |s.last| && !Loops(FlowAt(s, k))
    ensures Relays(s, steps, t) && Settled(t, k)
    decreases Rest(FlowAt(s, k)), UnderWay(s, k)
  {
    if Quiet(s, k) {
      steps, t := [], s;
    } else {
      var a, u := RelayOnce(s, k);
      RelayKeeps(s, a, u, k);
      var b;
      b, t := ComesToRest(u, k);
      RelayAppend(s, a, u, b, t);
      steps := a + b;
    }
  }

  // ---------------------------------------------------------------------------
  // The exact condition
  // ---------------------------------------------------------------------------

  /** Nothing is ever settled exactly where values go round. */
  lemma NeverSettlesIffLoops(s: State, k: nat)
    requires Shaped(s) && k < |s.last|
    ensures NeverSettles(s, k) <==> Loops(FlowAt(s, k))
  {
    if Loops(FlowAt(s, k)) {
      forall steps, t | Relays(s, steps, t) ensures !Settled(t, k) {
        RelayKeeps(s, steps, t, k);
        if Settled(t, k) {
          QuietIsFinal(FlowAt(t, k));
        }
      }
    } else {
      var steps, t := ComesToRest(s, k);
    }
  }

  /** The messages that were still to come in `s` have come, and the sides hold what they were to. */
  predicate SettledAs(s: State, t: State, k: nat)
    requires Shaped(s) && k < |s.last| && Shaped(t) && k < |t.last|
  {
    && t.messages[k] == s.messages[k] + Rest(FlowAt(s, k))
    && t.left.rows[k] == FinalMine(FlowAt(s, k)) && t.right.rows[k] == FinalTheirs(FlowAt(s, k))
  }

  /** And there the messages never end; elsewhere those still to come are counted by `Rest`, three at most,
      and what both sides will hold is settled already. */
  lemma EndlessIffLoops(s: State, k: nat)
    requires Shaped(s) && k < |s.last|
    ensures Endless(s, k) <==> Loops(FlowAt(s, k))
    ensures !Loops(FlowAt(s, k)) ==> Rest(FlowAt(s, k)) <= 3 && forall steps, t :: Relays(s, steps, t) ==>
      && Shaped(t) && k < |t.last| && t.messages[k] <= s.messages[k] + Rest(FlowAt(s, k))
      && (Quiet(t, k) ==> SettledAs(s, t, k))
  {
    if Loops(FlowAt(s, k)) {
      forall n: nat ensures Reaches(s, k, n) {
        var steps, t := GoesOn(s, k, n);
      }
    } else {
      RestIsSmall(FlowAt(s, k));
      forall steps, t | Relays(s, steps, t)
        ensures Shaped(t) && k < |t.last| && t.messages[k] <= s.messages[k] + Rest(FlowAt(s, k))
        ensures Quiet(t, k) ==> SettledAs(s, t, k)
      {
        RelayKeeps(s, steps, t, k);
        if Quiet(t, k) {
          QuietIsFinal(FlowAt(t, k));
        }
      }
      assert !Reaches(s, k, s.messages[k] + 4);
    }
  }

  lemma LoopsFrom(s: State, side: Side, k: nat)
    requires Shaped(s) && k < |s.last|
    ensures Loops(FlowOf(View(s, side, k))) <==> Loops(FlowAt(s, k))
    ensures Rest(FlowOf(View(s, side, k))) == Rest(FlowAt(s, k))
  {
    OtherView(s, Left, k);
    FlipLoops(FlowAt(s, k));
  }

  // ---------------------------------------------------------------------------
  // Writes and replays
  // ---------------------------------------------------------------------------

  /** At most one value is under way. */
  predicate Single(w: RowView) {
    |FlowOf(w).outbound| + |FlowOf(w).inbound| <= 1
  }

  /** Writing `v` changes the row, and a different value is under way: to a replica that will take it, or to
      this side while the replica there will take `v`. */
  predicate WriteUnsettles(w: RowView, v: Value) {
    var f := FlowOf(w);
    && v != f.mine
    && ((f.outbound != [] && f.outbound[0] != f.theirs && f.outbound[0] != v)
        || (f.inbound != [] && f.inbound[0] != v && f.theirs != v))
  }

  /** The replayed value is news to the other side, and differs from one on its way here that is news to
      this side; or it overtakes a different one still queued and is news to both; or it follows a different
      one that is. */
  predicate ReplayUnsettles(w: RowView) {
    var f, p := FlowOf(w), Padded(w.mine, w.capacity);
    || (f.inbound != [] && f.inbound[0] !in {f.mine, p} && p != f.theirs)
    || (w.queued != [] && p !in {f.mine, f.theirs} && w.queued[0] != p)
    || (w.sent != [] && w.sent[0] !in {f.mine, f.theirs, p})
  }

  /** What comes back of two values on their way. */
  lemma EchoesTwo<T>(x: T, y: T, z: T)
    ensures Echoes(x, [y, z]) == (if x == y then [] else [y]) + (if y == z then [] else [z])
  {
    assert [y, z] == [y] + [z];
    EchoesAppend(x, [y], [z]);
    EchoesOne(x, y);
    EchoesOne(y, z);
  }

  /** Two values sent after each other go round exactly if the first is news to both sides and the second
      differs from it. */
  lemma TwoLoop<T>(x: T, y: T, mine: T, theirs: T)
    ensures Loops(Flow([x, y], [], mine, theirs)) <==> x != theirs && x != y && x != mine
  {
    EchoesTwo(theirs, x, y);
    EchoesTwo(mine, x, y);
    EchoesOne(mine, x);
    EchoesOne(mine, y);
  }

  /** Two values that cross go round exactly if each is news and they differ. */
  lemma CrossingLoop<T>(x: T, y: T, mine: T, theirs: T)
    ensures Loops(Flow([x], [y], mine, theirs)) <==> x != theirs && y != mine && x != y
  {
    EchoesOne(theirs, x);
    EchoesOne(mine, y);
    EchoesOne(mine, x);
    EchoesOne(theirs, y);
  }

  lemma OneNeverLoops<T>(x: T, mine: T, theirs: T)
    ensures !Loops(Flow([x], [], mine, theirs))
  {
    EchoesOne(theirs, x);
    EchoesOne(mine, x);
  }

  lemma SingleNeverLoops<T>(f: Flow<T>)
    requires |f.outbound| + |f.inbound| <= 1
    ensures !Loops(f)
  {
    FlipLoops(f);
    if f.outbound != [] {
      assert f == Flow([f.outbound[0]], [], f.mine, f.theirs);
      OneNeverLoops(f.outbound[0], f.mine, f.theirs);
    } else if f.inbound != [] {
      assert Flip(f) == Flow([f.inbound[0]], [], f.theirs, f.mine);
      OneNeverLoops(f.inbound[0], f.theirs, f.mine);
    } else {
      QuietIsFinal(f);
    }
  }

  lemma SingleWrite(w: RowView, v: Value)
    requires Single(w)
    ensures Loops(FlowOf(ViewWritten(w, v))) <==> WriteUnsettles(w, v)
  {
    var f, t := FlowOf(w), FlowOf(ViewWritten(w, v));
    if v == f.mine {
      SingleNeverLoops(f);
    } else if f.outbound != [] {
      assert t == Flow([f.outbound[0], v], [], v, f.theirs);
      TwoLoop(f.outbound[0], v, v, f.theirs);
    } else if f.inbound != [] {
      assert t == Flow([v], [f.inbound[0]], v, f.theirs);
      CrossingLoop(v, f.inbound[0], v, f.theirs);
    } else {
      assert t == Flow([v], [], v, f.theirs);
      OneNeverLoops(v, v, f.theirs);
    }
  }

  lemma ReplaysFlow(w: RowView) returns (p: Value, f: Flow<Value>)
    ensures p == Padded(w.mine, w.capacity) && f == FlowOf(ViewReplayed(w))
    ensures f == Flow(w.sent + [p] + w.queued, w.coming + w.pending, w.mine, w.theirs)
  {
    p, f := Padded(w.mine, w.capacity), FlowOf(ViewReplayed(w));
  }

  lemma ReplayBehind(w: RowView)
    requires Single(w) && w.sent != []
    ensures Loops(FlowOf(ViewReplayed(w))) <==> ReplayUnsettles(w)
  {
    var p, f := ReplaysFlow(w);
    assert f == Flow([w.sent[0], p], [], w.mine, w.theirs);
    TwoLoop(w.sent[0], p, w.mine, w.theirs);
  }

  lemma ReplayAhead(w: RowView)
    requires Single(w) && w.queued != []
    ensures Loops(FlowOf(ViewReplayed(w))) <==> ReplayUnsettles(w)
  {
    var p, f := ReplaysFlow(w);
    assert f == Flow([p, w.queued[0]], [], w.mine, w.theirs);
    TwoLoop(p, w.queued[0], w.mine, w.theirs);
  }

  lemma ReplayCrossing(w: RowView)
    requires Single(w) && w.sent == w.queued == []
    ensures Loops(FlowOf(ViewReplayed(w))) <==> ReplayUnsettles(w)
  {
    var p, f := ReplaysFlow(w);
    var inbound := w.coming + w.pending;
    if inbound != [] {
      assert f == Flow([p], [inbound[0]], w.mine, w.theirs);
      CrossingLoop(p, inbound[0], w.mine, w.theirs);
    } else {
      assert f == Flow([p], [], w.mine, w.theirs);
      OneNeverLoops(p, w.mine, w.theirs);
    }
  }

  lemma SingleReplay(w: RowView)
    requires Single(w)
    ensures Loops(FlowOf(ViewReplayed(w))) <==> ReplayUnsettles(w)
  {
    if w.sent != [] {
      ReplayBehind(w);
    } else if w.queued != [] {
      ReplayAhead(w);
    } else {
      ReplayCrossing(w);
    }
  }

  /** For any write whatever, in any state: the messages for its row have no end if and only if what is then
      under way goes round; and with at most one value under way before, if and only if the write unsettles
      it. */
  lemma WriteEndlessIff(s: State, side: Side, k: nat, v: Value)
    requires Shaped(s) && Enabled(s, Write(side, k, v))
    ensures Endless(DoWrite(s, side, k, v), k) <==> Loops(FlowOf(ViewWritten(View(s, side, k), v)))
    ensures Endless(DoWrite(s, side, k, v), k) <==> NeverSettles(DoWrite(s, side, k, v), k)
    ensures Single(View(s, side, k)) ==> (Endless(DoWrite(s, side, k, v), k) <==> WriteUnsettles(View(s, side, k), v))
  {
    var t := DoWrite(s, side, k, v);
    WriteView(s, side, k, v, k);
    LoopsFrom(t, side, k);
    EndlessIffLoops(t, k);
    NeverSettlesIffLoops(t, k);
    if Single(View(s, side, k)) {
      SingleWrite(View(s, side, k), v);
    }
  }

  /** And so for any answer to a registration request. */
  lemma ReplayEndlessIff(s: State, side: Side, k: nat)
    requires Shaped(s) && Enabled(s, Replay(side, k))
    ensures Endless(DoReplay(s, side, k), k) <==> Loops(FlowOf(ViewReplayed(View(s, side, k))))
    ensures Endless(DoReplay(s, side, k), k) <==> NeverSettles(DoReplay(s, side, k), k)
    ensures Single(View(s, side, k)) ==> (Endless(DoReplay(s, side, k), k) <==> ReplayUnsettles(View(s, side, k)))
  {
    var t := DoReplay(s, side, k);
    ReplayView(s, side, k, k);
    LoopsFrom(t, side, k);
    EndlessIffLoops(t, k);
    NeverSettlesIffLoops(t, k);
    if Single(View(s, side, k)) {
      SingleReplay(View(s, side, k));
    }
  }

  /** The discipline lets exactly those replays happen that leave the messages an end. */
  lemma DisciplinedIffEnding(s: State, side: Side, k: nat)
    requires Shaped(s) && Enabled(s, Replay(side, k))
    ensures Disciplined(s, Replay(side, k)) <==> !Endless(DoReplay(s, side, k), k)
  {
    ReplayEndlessIff(s, side, k);
  }

  // ---------------------------------------------------------------------------
  // One replay
  // ---------------------------------------------------------------------------

  lemma ReplayedRest(w: RowView)
    requires FlowOf(w).outbound == [] && FlowOf(w).inbound == []
    ensures var f, p := FlowOf(ViewReplayed(w)), Padded(w.mine, w.capacity);
      && !Loops(f) && Rest(f) == One(p != w.theirs) + One(p != w.theirs && p != w.mine)
      && FinalTheirs(f) == p && FinalMine(f) == if p == w.theirs then w.mine else p
  {
    var p := Padded(w.mine, w.capacity);
    assert FlowOf(ViewReplayed(w)) == Flow([p], [], w.mine, w.theirs);
    OneNeverLoops(p, w.mine, w.theirs);
    EchoesOne(w.theirs, p);
    EchoesOne(w.mine, p);
  }

  /** A replay with nothing under way for its row: by the time nothing is again, the other side holds the row
      padded to its capacity.  One message was needed exactly if it did before; two exactly if it did not
      and the row has full size, three if it has not. */
  lemma OneReplay(s: State, side: Side, k: nat, steps: seq<Step>, t: State)
    requires Shaped(s) && Enabled(s, Replay(side, k)) && Quiet(s, k)
    requires Relays(DoReplay(s, side, k), steps, t) && Settled(t, k)
    ensures var p, mine, theirs := Padded(Of(s, side).rows[k], s.capacity[k]), Of(s, side).rows[k], Of(s, Other(side)).rows[k];
      && Of(t, Other(side)).rows[k] == p && Of(t, side).rows[k] == (if theirs == p then mine else p)
      && (t.messages[k] == s.messages[k] + 1 <==> theirs == p)
      && (t.messages[k] == s.messages[k] + 2 <==> theirs != p && |mine| == s.capacity[k])
      && (t.messages[k] == s.messages[k] + 3 <==> theirs != p && |mine| < s.capacity[k])
  {
    var u, w := DoReplay(s, side, k), View(s, side, k);
    OtherView(s, Left, k);
    ReplayView(s, side, k, k);
    ReplayedRest(w);
    LoopsFrom(u, side, k);
    EndlessIffLoops(u, k);
    OtherView(u, Left, k);
    FlipFinal(FlowAt(u, k));
  }

  /** The replay costs the one message it is exactly if the stored value has full size, where the replicas
      agree. */
  lemma OneMessageIffFullSize(s: State, side: Side, k: nat, steps: seq<Step>, t: State)
    requires Shaped(s) && Enabled(s, Replay(side, k)) && Quiet(s, k) && s.left.rows[k] == s.right.rows[k]
    requires Relays(DoReplay(s, side, k), steps, t) && Settled(t, k)
    ensures t.messages[k] == s.messages[k] + 1 <==> |Of(s, side).rows[k]| == s.capacity[k]
  {
    OneReplay(s, side, k, steps, t);
  }

  /** One row nobody has written, nothing under way, and nothing issued so far. */
  ghost predicate Unwritten(s: State, size: nat) {
    && Shaped(s) && |s.last| == 1 && s.capacity[0] == size && s.left.rows[0] == s.right.rows[0] == [] && Quiet(s, 0)
    && s.messages[0] == s.writes[0] == s.replays[0] == 0
    && Enabled(s, Replay(Left, 0)) && Disciplined(s, Replay(Left, 0))
  }

  lemma UnwrittenCosts(s: State, size: nat, steps: seq<Step>, t: State)
    requires size > 0 && Unwritten(s, size) && Relays(DoReplay(s, Left, 0), steps, t) && Settled(t, 0)
    ensures t.messages[0] == 3 && t.writes[0] == 0 && t.replays[0] == 1
    ensures t.left.rows[0] == t.right.rows[0] == Padded([], size)
  {
    OneReplay(s, Left, 0, steps, t);
    RelaysWriteNothing(DoReplay(s, Left, 0), steps, t);
  }

  lemma UnwrittenReplay(size: nat) returns (s: State)
    requires size > 0
    ensures s == Initial([[]], [[]], [size]) && Unwritten(s, size)
  {
    s := Initial([[]], [[]], [size]);
    InitialInv([[]], [[]], [size]);
    ReplayedRest(View(s, Left, 0));
  }

  /** Rows nobody has written, and one answer to a registration request: three messages. */
  lemma UnwrittenRowCostsThree(size: nat) returns (steps: seq<Step>, t: State)
    requires size > 0
    ensures var s := Initial([[]], [[]], [size]);
      && Shaped(s) && Enabled(s, Replay(Left, 0)) && Disciplined(s, Replay(Left, 0))
      && Relays(Next(s, Replay(Left, 0)), steps, t) && Settled(t, 0)
      && t.messages[0] == 3 && t.writes[0] == 0 && t.replays[0] == 1
      && t.left.rows[0] == t.right.rows[0] == Padded([], size)
  {
    var s := UnwrittenReplay(size);
    steps, t := ReplayToRest(s, Left, 0);
    UnwrittenCosts(s, size, steps, t);
  }

  lemma ReplayToRest(s: State, side: Side, k: nat) returns (steps: seq<Step>, t: State)
    requires Shaped(s) && Enabled(s, Replay(side, k)) && Disciplined(s, Replay(side, k))
    ensures Relays(DoReplay(s, side, k), steps, t) && Settled(t, k)
  {
    ReplayView(s, side, k, k);
    LoopsFrom(DoReplay(s, side, k), side, k);
    steps, t := ComesToRest(DoReplay(s, side, k), k);
  }

  lemma {:induction false} RelaysWriteNothing(s: State, steps: seq<Step>, t: State)
    requires Relays(s, steps, t)
    ensures t.writes == s.writes && t.replays == s.replays && t.short == s.short
    decreases |steps|
  {
    if steps != [] {
      assert steps[0] in steps && forall step <- steps[1..] :: step in steps;
      RelaysWriteNothing(Next(s, steps[0]), steps[1..], t);
    }
  }

  // ---------------------------------------------------------------------------
  // Three ways to get there
  // ---------------------------------------------------------------------------

  function OneWrite(a: Value, v: Value, size: nat): State {
    DoWrite(Initial([v], [v], [size]), Left, 0, a)
  }

  lemma AfterOneWrite(a: Value, v: Value, size: nat) returns (s: State)
    requires a != v && Fits(a, size) && |v| <= size
    ensures s == OneWrite(a, v, size) && Shaped(s) && |s.last| == 1 && s.capacity == [size]
    ensures FlowOf(View(s, Left, 0)) == Flow([a], [], a, v) && FlowOf(View(s, Right, 0)) == Flow([], [a], v, a)
  {
    var start := Initial([v], [v], [size]);
    InitialInv([v], [v], [size]);
    WriteView(start, Left, 0, a, 0);
    s := DoWrite(start, Left, 0, a);
    OtherView(s, Left, 0);
  }

  /** Two sides that write different values before either message has arrived. */
  lemma CrossedWritesNeverSettle(a: Value, b: Value, v: Value, size: nat)
    requires a != b && a != v && b != v && Fits(a, size) && Fits(b, size) && |v| <= size
    ensures var s := OneWrite(a, v, size);
      Enabled(s, Write(Right, 0, b)) && NeverSettles(Next(s, Write(Right, 0, b)), 0) && Endless(Next(s, Write(Right, 0, b)), 0)
  {
    var s := AfterOneWrite(a, v, size);
    WriteEndlessIff(s, Right, 0, b);
  }

  /** One side that writes twice before the first message has arrived. */
  lemma QuickWritesNeverSettle(a: Value, b: Value, v: Value, size: nat)
    requires a != b && a != v && Fits(a, size) && Fits(b, size) && |v| <= size
    ensures var s := OneWrite(a, v, size);
      Enabled(s, Write(Left, 0, b)) && NeverSettles(Next(s, Write(Left, 0, b)), 0) && Endless(Next(s, Write(Left, 0, b)), 0)
  {
    var s := AfterOneWrite(a, v, size);
    WriteEndlessIff(s, Left, 0, b);
  }

  lemma CrossedReplay(s: State, a: Value, v: Value, size: nat)
    requires Shaped(s) && InRange(s, 0) && s.capacity[0] == size && FlowOf(View(s, Right, 0)) == Flow([], [a], v, a)
    requires a != v && a != Padded(v, size)
    ensures Endless(DoReplay(s, Right, 0), 0) && NeverSettles(DoReplay(s, Right, 0), 0)
  {
    ReplayEndlessIff(s, Right, 0);
    assert ReplayUnsettles(View(s, Right, 0));
  }

  /** One side that writes as the other, which has not heard of it, answers a registration request. */
  lemma CrossedReplayNeverSettles(a: Value, v: Value, size: nat)
    requires a != v && a != Padded(v, size) && Fits(a, size) && |v| <= size
    ensures var s := OneWrite(a, v, size);
      Enabled(s, Replay(Right, 0)) && NeverSettles(Next(s, Replay(Right, 0)), 0) && Endless(Next(s, Replay(Right, 0)), 0)
  {
    var s := AfterOneWrite(a, v, size);
    CrossedReplay(s, a, v, size);
  }
}
