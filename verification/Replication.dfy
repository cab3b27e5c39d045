/**
 Two remote agents that replicate rows to each other.

 A row that changes is reported to the agent's own dispatcher, which sends it; the
 other agent writes what it receives, and if that changes its row, its own
 subscription reports the change back.  Without forced writes a row reports only
 writes that change it.

 A registration request is answered for every row of a table with a replay: the row is
 read to its full capacity, past its current size with zeros, and sent at once, ahead
 of what the dispatcher has still to send.  Requests come whenever the other agent
 makes them; no application decides when.

 Rows are numbered; both agents know a row by the same external table id and row
 key, and both give it the same capacity.  The replicas may start apart.  A row nobody
 has written is empty.  `last`, `apart`, `writes`, `replays`, `short` and `messages` are
 bookkeeping.
 */
module Replication {
  import opened EchoFlow

  type Value = seq<nat>

  datatype Msg = Msg(row: nat, value: Value)

  datatype Side = Left | Right

  /** An agent's rows, the reports its dispatcher has still to send, and what has arrived for it. */
  datatype Agent = Agent(rows: seq<Value>, queue: seq<Msg>, inbox: seq<Msg>)

  datatype State = State(
    left: Agent,
    right: Agent,
    capacity: seq<nat>,
    last: seq<Value>,        // what was written last, or replayed for a row never reported, on whichever side
    apart: seq<bool>,        // the rows whose replicas differed at the start
    writes: seq<nat>,        // application writes per row
    replays: seq<nat>,       // answers to registration requests per row
    short: seq<nat>,         // those for which the row held less than its capacity
    messages: seq<nat>)      // data messages issued per row

  datatype Step =
    | Write(side: Side, row: nat, value: Value)
    | Send(side: Side)
    | Receive(side: Side)
    | Replay(side: Side, row: nat)

  function Other(side: Side): Side {
    if side.Left? then Right else Left
  }

  function Of(s: State, side: Side): Agent {
    if side.Left? then s.left else s.right
  }

  function With(s: State, side: Side, a: Agent): State {
    if side.Left? then s.(left := a) else s.(right := a)
  }

  function Initial(lefts: seq<Value>, rights: seq<Value>, capacity: seq<nat>): State
    requires |lefts| == |rights| == |capacity|
  {
    var zero := seq(|lefts|, i => 0);
    State(Agent(lefts, [], []), Agent(rights, [], []), capacity, lefts,
          seq(|lefts|, i requires 0 <= i < |lefts| => lefts[i] != rights[i]), zero, zero, zero, zero)
  }

  // ---- rows ------------------------------------------------------------------

  /** A row refuses an empty value and one that is too large. */
  predicate Fits(v: Value, capacity: nat) {
    0 < |v| <= capacity
  }

  /** What reading a row to its capacity gives. */
  function Padded(v: Value, capacity: nat): (p: Value)
    ensures |v| <= capacity ==> |p| == capacity
    ensures v <= p && (p == v <==> |v| >= capacity)
  {
    if |v| < capacity then v + seq(capacity - |v|, i => 0) else v
  }

  lemma PaddedTwice(v: Value, capacity: nat)
    ensures Padded(Padded(v, capacity), capacity) == Padded(v, capacity)
  {
  }

  // ---- steps -----------------------------------------------------------------

  predicate InRange(s: State, k: nat) {
    && k < |s.left.rows| && k < |s.right.rows| && k < |s.capacity| && k < |s.last| && k < |s.apart|
    && k < |s.writes| && k < |s.replays| && k < |s.short| && k < |s.messages|
  }

  /** A message for a row there is not would be dropped; there is none.  A write the row refuses is no step. */
  predicate Enabled(s: State, step: Step) {
    match step
    case Write(side, k, v) => InRange(s, k) && Fits(v, s.capacity[k])
    case Send(side) => Of(s, side).queue != []
    case Receive(side) => Of(s, side).inbox != [] && InRange(s, Of(s, side).inbox[0].row)
    case Replay(side, k) => InRange(s, k)
  }

  /** A write that changes the row is stored and reported; any other is neither. */
  function Written(a: Agent, k: nat, v: Value, capacity: nat): Agent
    requires k < |a.rows|
  {
    if !Fits(v, capacity) || a.rows[k] == v then a else a.(rows := a.rows[k := v], queue := a.queue + [Msg(k, v)])
  }

  function Bump(counts: seq<nat>, k: nat, n: nat): seq<nat>
    requires k < |counts|
  {
    counts[k := counts[k] + n]
  }

  /** How many reports writing `v` causes. */
  function Reports(a: Agent, k: nat, v: Value, capacity: nat): nat
    requires k < |a.rows|
  {
    if !Fits(v, capacity) || a.rows[k] == v then 0 else 1
  }

  function DoWrite(s: State, side: Side, k: nat, v: Value): State
    requires InRange(s, k)
  {
    With(s, side, Written(Of(s, side), k, v, s.capacity[k])).(
      last := s.last[k := v], writes := Bump(s.writes, k, 1), messages := Bump(s.messages, k, Reports(Of(s, side), k, v, s.capacity[k])))
  }

  function Arrived(s: State, side: Side, m: Msg): State {
    var a := Of(s, side);
    With(s, side, a.(inbox := a.inbox + [m]))
  }

  function DoSend(s: State, side: Side): State
    requires Enabled(s, Send(side))
  {
    var a := Of(s, side);
    Arrived(With(s, side, a.(queue := a.queue[1..])), Other(side), a.queue[0])
  }

  function DoReceive(s: State, side: Side): State
    requires Enabled(s, Receive(side))
  {
    var a := Of(s, side);
    var m := a.inbox[0];
    With(s, side, Written(a, m.row, m.value, s.capacity[m.row]).(inbox := a.inbox[1..])).(
      messages := Bump(s.messages, m.row, Reports(a, m.row, m.value, s.capacity[m.row])))
  }

  /** Nothing has been issued for the row, whose replicas differ. */
  predicate Unheard(s: State, k: nat) {
    k < |s.apart| && s.apart[k] && k < |s.messages| && s.messages[k] == 0
  }

  function DoReplay(s: State, side: Side, k: nat): State
    requires InRange(s, k)
  {
    var v := Of(s, side).rows[k];
    Arrived(s, Other(side), Msg(k, Padded(v, s.capacity[k]))).(
      last := if Unheard(s, k) then s.last[k := v] else s.last, replays := Bump(s.replays, k, 1),
      short := Bump(s.short, k, One(|v| < s.capacity[k])), messages := Bump(s.messages, k, 1))
  }

  function Next(s: State, step: Step): State
    requires Enabled(s, step)
  {
    match step
    case Write(side, k, v) => DoWrite(s, side, k, v)
    case Send(side) => DoSend(s, side)
    case Receive(side) => DoReceive(s, side)
    case Replay(side, k) => DoReplay(s, side, k)
  }

  ghost predicate Run(s: State, steps: seq<Step>, s': State)
    decreases |steps|
  {
    if steps == [] then s == s'
    else Enabled(s, steps[0]) && Run(Next(s, steps[0]), steps[1..], s')
  }

  // ---- what is under way -----------------------------------------------------

  /** The values among the messages that are for row `k`. */
  function For(msgs: seq<Msg>, k: nat): seq<Value> {
    if msgs == [] then [] else (if msgs[0].row == k then [msgs[0].value] else []) + For(msgs[1..], k)
  }

  lemma {:induction false} ForAppend(a: seq<Msg>, b: seq<Msg>, k: nat)
    ensures For(a + b, k) == For(a, k) + For(b, k)
  {
    if a == [] {
      assert a + b == b;
    } else {
      var all := a + b;
      ForAppend(a[1..], b, k);
      assert all[0] == a[0] && all[1..] == a[1..] + b;
      var first := if a[0].row == k then [a[0].value] else [];
      assert For(all, k) == first + (For(a[1..], k) + For(b, k));
      assert For(a, k) == first + For(a[1..], k);
    }
  }

  lemma ForOne(m: Msg, k: nat)
    ensures For([m], k) == if m.row == k then [m.value] else []
  {
    assert [m][1..] == [];
  }

  // ---------------------------------------------------------------------------
  // One row, seen from one side
  // ---------------------------------------------------------------------------

  datatype RowView = RowView(
    sent: seq<Value>,        // on the way to the other side
    queued: seq<Value>,      // to be sent after that
    coming: seq<Value>,
    pending: seq<Value>,
    mine: Value,
    theirs: Value,
    capacity: nat,
    last: Value,
    apart: bool,
    writes: nat,
    replays: nat,
    short: nat,
    messages: nat)

  /** All sequences have one element per row, rows and messages are within their capacities, and messages are
      for rows there are. */
  predicate Shaped(s: State) {
    && |s.left.rows| == |s.right.rows| == |s.capacity| == |s.last| == |s.apart| == |s.writes| == |s.replays| == |s.short| == |s.messages|
    && (forall k :: 0 <= k < |s.capacity| ==> s.capacity[k] > 0)
    && WellFormed(s.left, s.capacity) && WellFormed(s.right, s.capacity)
  }

  predicate WellFormed(a: Agent, capacity: seq<nat>) {
    && |a.rows| == |capacity|
    && (forall k :: 0 <= k < |capacity| ==> |a.rows[k]| <= capacity[k])
    && (forall m <- a.queue :: m.row < |capacity| && Fits(m.value, capacity[m.row]))
    && (forall m <- a.inbox :: m.row < |capacity| && Fits(m.value, capacity[m.row]))
  }

  function View(s: State, side: Side, k: nat): RowView
    requires InRange(s, k)
  {
    RowView(For(Of(s, Other(side)).inbox, k), For(Of(s, side).queue, k), For(Of(s, side).inbox, k), For(Of(s, Other(side)).queue, k),
            Of(s, side).rows[k], Of(s, Other(side)).rows[k], s.capacity[k],
            s.last[k], s.apart[k], s.writes[k], s.replays[k], s.short[k], s.messages[k])
  }

  function FlipView(w: RowView): RowView {
    w.(sent := w.coming, queued := w.pending, coming := w.sent, pending := w.queued, mine := w.theirs, theirs := w.mine)
  }

  function FlowOf(w: RowView): Flow<Value> {
    Flow(w.sent + w.queued, w.coming + w.pending, w.mine, w.theirs)
  }

  /** Nothing is under way for the row. */
  predicate Quiet(s: State, k: nat)
    requires InRange(s, k)
  {
    FlowOf(View(s, Left, k)).outbound == [] && FlowOf(View(s, Left, k)).inbound == []
  }

  /** Writing reports a change and nothing else. */
  function ViewWritten(w: RowView, v: Value): RowView {
    if w.mine == v then w.(last := v, writes := w.writes + 1)
    else w.(mine := v, queued := w.queued + [v], last := v, writes := w.writes + 1, messages := w.messages + 1)
  }

  /** A received value that changes the row is echoed; one that does not is dropped. */
  function ViewReceived(w: RowView): RowView
    requires w.coming != []
  {
    var x, rest := w.coming[0], w.coming[1..];
    if w.mine == x then w.(coming := rest)
    else w.(mine := x, coming := rest, queued := w.queued + [x], messages := w.messages + 1)
  }

  function ViewSent(w: RowView): RowView
    requires w.queued != []
  {
    w.(sent := w.sent + [w.queued[0]], queued := w.queued[1..])
  }

  /** What a replay sends goes ahead of what is queued. */
  function ViewReplayed(w: RowView): RowView {
    w.(sent := w.sent + [Padded(w.mine, w.capacity)], last := if w.apart && w.messages == 0 then w.mine else w.last,
       replays := w.replays + 1, short := w.short + One(|w.mine| < w.capacity), messages := w.messages + 1)
  }

  lemma OtherView(s: State, side: Side, k: nat)
    requires InRange(s, k)
    ensures View(s, Other(side), k) == FlipView(View(s, side, k))
    ensures FlowOf(View(s, Other(side), k)) == Flip(FlowOf(View(s, side, k)))
  {
  }

  lemma WrittenShape(a: Agent, k: nat, v: Value, capacity: seq<nat>)
    requires WellFormed(a, capacity) && k < |capacity|
    ensures WellFormed(Written(a, k, v, capacity[k]), capacity)
  {
  }

  lemma SendShape(s: State, side: Side)
    requires Shaped(s) && Enabled(s, Send(side))
    ensures Shaped(DoSend(s, side))
  {
    assert Of(s, side).queue[0] in Of(s, side).queue;
  }

  lemma ReceiveShape(s: State, side: Side)
    requires Shaped(s) && Enabled(s, Receive(side))
    ensures Shaped(DoReceive(s, side))
  {
    var m := Of(s, side).inbox[0];
    WrittenShape(Of(s, side), m.row, m.value, s.capacity);
  }

  lemma WriteShape(s: State, side: Side, k: nat, v: Value)
    requires Shaped(s) && Enabled(s, Write(side, k, v))
    ensures Shaped(DoWrite(s, side, k, v))
  {
    WrittenShape(Of(s, side), k, v, s.capacity);
  }

  lemma ReplayShape(s: State, side: Side, k: nat)
    requires Shaped(s) && Enabled(s, Replay(side, k))
    ensures Shaped(DoReplay(s, side, k))
  {
  }

  lemma StepKeepsShape(s: State, step: Step)
    requires Shaped(s) && Enabled(s, step)
    ensures Shaped(Next(s, step)) && |Next(s, step).last| == |s.last| && Next(s, step).apart == s.apart
    ensures Next(s, step).capacity == s.capacity
  {
    match step
    case Write(side, k, v) => WriteShape(s, side, k, v);
    case Send(side) => SendShape(s, side);
    case Receive(side) => ReceiveShape(s, side);
    case Replay(side, k) => ReplayShape(s, side, k);
  }

  lemma WrittenRow(s: State, side: Side, k: nat, v: Value, j: nat)
    requires Enabled(s, Write(side, k, v)) && InRange(s, j)
    ensures var t := DoWrite(s, side, k, v);
      InRange(t, j) && View(t, side, j) == if j == k then ViewWritten(View(s, side, j), v) else View(s, side, j)
  {
    ForAppend(Of(s, side).queue, [Msg(k, v)], j);
    ForOne(Msg(k, v), j);
  }

  lemma WriteView(s: State, side: Side, k: nat, v: Value, j: nat)
    requires Shaped(s) && Enabled(s, Write(side, k, v)) && j < |s.last|
    ensures var t := DoWrite(s, side, k, v);
      Shaped(t) && View(t, side, j) == if j == k then ViewWritten(View(s, side, j), v) else View(s, side, j)
  {
    WriteShape(s, side, k, v);
    WrittenRow(s, side, k, v, j);
  }

  lemma SentRow(s: State, side: Side, j: nat)
    requires Enabled(s, Send(side)) && InRange(s, j)
    ensures var t, k := DoSend(s, side), Of(s, side).queue[0].row;
      && InRange(t, j) && (j == k ==> View(s, side, j).queued != [])
      && View(t, side, j) == if j == k then ViewSent(View(s, side, j)) else View(s, side, j)
  {
    var q := Of(s, side).queue;
    ForAppend(Of(s, Other(side)).inbox, [q[0]], j);
    ForOne(q[0], j);
  }

  lemma SendView(s: State, side: Side, j: nat)
    requires Shaped(s) && Enabled(s, Send(side)) && j < |s.last|
    ensures var t, k := DoSend(s, side), Of(s, side).queue[0].row;
      && Shaped(t) && (j == k ==> View(s, side, j).queued != [])
      && View(t, side, j) == if j == k then ViewSent(View(s, side, j)) else View(s, side, j)
  {
    SendShape(s, side);
    SentRow(s, side, j);
  }

  lemma ReceivedQueues(a: Agent, k: nat, v: Value, capacity: nat, j: nat)
    requires k < |a.rows| && Fits(v, capacity)
    ensures For(Written(a, k, v, capacity).queue, j) == For(a.queue, j) + if j == k && a.rows[k] != v then [v] else []
  {
    ForAppend(a.queue, [Msg(k, v)], j);
    ForOne(Msg(k, v), j);
  }

  lemma ReceivedSame(s: State, side: Side, j: nat)
    requires Enabled(s, Receive(side)) && InRange(s, j) && Of(s, side).inbox[0].row == j
    requires Fits(Of(s, side).inbox[0].value, s.capacity[j])
    ensures InRange(DoReceive(s, side), j) && View(s, side, j).coming != []
    ensures View(DoReceive(s, side), side, j) == ViewReceived(View(s, side, j))
  {
    ReceivedQueues(Of(s, side), j, Of(s, side).inbox[0].value, s.capacity[j], j);
  }

  lemma ReceivedOther(s: State, side: Side, j: nat)
    requires Enabled(s, Receive(side)) && InRange(s, j) && Of(s, side).inbox[0].row != j
    requires var m := Of(s, side).inbox[0]; Fits(m.value, s.capacity[m.row])
    ensures InRange(DoReceive(s, side), j) && View(DoReceive(s, side), side, j) == View(s, side, j)
  {
    var m := Of(s, side).inbox[0];
    ReceivedQueues(Of(s, side), m.row, m.value, s.capacity[m.row], j);
  }

  lemma ReceiveView(s: State, side: Side, j: nat)
    requires Shaped(s) && Enabled(s, Receive(side)) && j < |s.last|
    ensures var t, k := DoReceive(s, side), Of(s, side).inbox[0].row;
      && Shaped(t)
      && (j == k ==> View(s, side, j).coming != [] && View(t, side, j) == ViewReceived(View(s, side, j)))
      && (j != k ==> View(t, side, j) == View(s, side, j))
  {
    ReceiveShape(s, side);
    assert Of(s, side).inbox[0] in Of(s, side).inbox;
    if j == Of(s, side).inbox[0].row {
      ReceivedSame(s, side, j);
    } else {
      ReceivedOther(s, side, j);
    }
  }

  lemma ReplayedRow(s: State, side: Side, k: nat, j: nat)
    requires Enabled(s, Replay(side, k)) && InRange(s, j)
    ensures var t := DoReplay(s, side, k);
      InRange(t, j) && View(t, side, j) == if j == k then ViewReplayed(View(s, side, j)) else View(s, side, j)
  {
    var m := Msg(k, Padded(Of(s, side).rows[k], s.capacity[k]));
    var inbox := Of(s, Other(side)).inbox;
    var t := DoReplay(s, side, k);
    assert Of(t, Other(side)) == Of(s, Other(side)).(inbox := inbox + [m]) && Of(t, side) == Of(s, side);
    assert For(inbox + [m], j) == For(inbox, j) + if j == k then [m.value] else [] by {
      ForAppend(inbox, [m], j);
      ForOne(m, j);
    }
  }

  lemma ReplayView(s: State, side: Side, k: nat, j: nat)
    requires Shaped(s) && Enabled(s, Replay(side, k)) && j < |s.last|
    ensures var t := DoReplay(s, side, k);
      Shaped(t) && View(t, side, j) == if j == k then ViewReplayed(View(s, side, j)) else View(s, side, j)
  {
    ReplayShape(s, side, k);
    ReplayedRow(s, side, k, j);
  }

  // ---- what a step does to the flow of values --------------------------------

  lemma ReceivedFlow(w: RowView)
    requires w.coming != []
    ensures FlowOf(w).inbound != [] && FlowOf(ViewReceived(w)) == Received(FlowOf(w))
    ensures ViewReceived(w).messages == w.messages + Echo(FlowOf(w))
  {
  }

  lemma SentFlow(w: RowView)
    requires w.queued != []
    ensures FlowOf(ViewSent(w)) == FlowOf(w)
  {
  }

  lemma ReplayedFlow(w: RowView)
    ensures FlowOf(ViewReplayed(w)) == Inserted(FlowOf(w), w.sent, Padded(w.mine, w.capacity), w.queued)
  {
  }

  // ---------------------------------------------------------------------------
  // The invariant of one row
  // ---------------------------------------------------------------------------

  /** What a side has queued last is what it holds; with nothing queued, what it has sent last is, or that
      padded. */
  predicate Tail(sent: seq<Value>, queued: seq<Value>, held: Value, replayed: Value) {
    if queued != [] then queued[|queued| - 1] == held
    else sent != [] ==> sent[|sent| - 1] == held || sent[|sent| - 1] == replayed
  }

  /** What replaying `v` may have sent, in a run in which `short` replays were of less than the capacity. */
  function Resent(w: RowView, v: Value): Value {
    if w.short == 0 then v else Padded(v, w.capacity)
  }

  /** In the end both sides will hold the last value, but for padding; exactly, where no short value has been
      replayed. */
  predicate Settles(w: RowView) {
    && Padded(FinalMine(FlowOf(w)), w.capacity) == Padded(FinalTheirs(FlowOf(w)), w.capacity) == Padded(w.last, w.capacity)
    && (w.short == 0 ==> FinalMine(FlowOf(w)) == FinalTheirs(FlowOf(w)) == w.last)
  }

  /** Messages issued, messages that will still come, and one more for replicas that will stay apart. */
  function Cost(w: RowView): nat {
    w.messages + Rest(FlowOf(w)) + One(Apart(FlowOf(w)))
  }

  predicate RowOk(w: RowView) {
    && !Loops(FlowOf(w))
    && Tail(w.sent, w.queued, w.mine, Resent(w, w.mine)) && Tail(w.coming, w.pending, w.theirs, Resent(w, w.theirs))
    && (w.messages == 0 ==> FlowOf(w).outbound == FlowOf(w).inbound == [] && (w.apart <==> w.mine != w.theirs) && (!w.apart ==> w.mine == w.last))
    && (w.messages > 0 || !w.apart ==> Settles(w))
    && Cost(w) <= 2 * w.writes + w.replays + 2 * w.short + One(w.apart)
  }

  lemma FlipOk(w: RowView)
    requires RowOk(w)
    ensures RowOk(FlipView(w))
  {
    assert FlowOf(FlipView(w)) == Flip(FlowOf(w));
    FlipLoops(FlowOf(w));
    FlipFinal(FlowOf(w));
  }

  lemma WriteKeepsRow(w: RowView, v: Value)
    requires RowOk(w) && FlowOf(w).outbound == [] && FlowOf(w).inbound == []
    ensures RowOk(ViewWritten(w, v))
  {
    QuietIsFinal(FlowOf(w));
    if w.mine != v {
      var t := ViewWritten(w, v);
      assert FlowOf(t) == Flow([v], [], v, w.theirs);
      WrittenSettles(w.mine, w.theirs, v);
    }
  }

  lemma ReceiveKeepsRow(w: RowView)
    requires RowOk(w) && w.coming != []
    ensures RowOk(ViewReceived(w))
  {
    ReceivedFlow(w);
    ReceivedKeepsLoops(FlowOf(w));
    ReceivedKeepsFinal(FlowOf(w));
  }

  lemma SendKeepsRow(w: RowView)
    requires RowOk(w) && w.queued != []
    ensures RowOk(ViewSent(w))
  {
    SentFlow(w);
  }

  /** What a side has sent or queued last. */
  lemma LastOutbound(w: RowView)
    requires Tail(w.sent, w.queued, w.mine, Resent(w, w.mine)) && FlowOf(w).outbound != []
    ensures FlowOf(w).outbound[|FlowOf(w).outbound| - 1] in {w.mine, Resent(w, w.mine)}
    ensures w.queued != [] ==> w.queued[|w.queued| - 1] == w.mine
  {
    var out := FlowOf(w).outbound;
    assert out[|out| - 1] == if w.queued != [] then w.queued[|w.queued| - 1] else w.sent[|w.sent| - 1];
  }

  /** A side that nothing under way will change holds the last value, but for padding. */
  lemma HoldsLast(w: RowView)
    requires RowOk(w) && In(FlowOf(w)) == [] && (w.messages > 0 || !w.apart)
    ensures Padded(w.mine, w.capacity) == Padded(w.last, w.capacity) && (w.short == 0 ==> w.mine == w.last)
  {
    OutboundFinal(FlowOf(w));
    PaddedTwice(w.mine, w.capacity);
    if Out(FlowOf(w)) != [] {
      LastOutbound(w);
    }
  }

  /** A replay that is news to the other side, when nothing is to this one. */
  lemma ReplayNews(w: RowView)
    requires RowOk(w) && !Loops(FlowOf(ViewReplayed(w))) && In(FlowOf(w)) == [] && Out(FlowOf(ViewReplayed(w))) != []
    ensures Settles(ViewReplayed(w))
  {
    var p := Padded(w.mine, w.capacity);
    ReplayedFlow(w);
    InsertedFinal(FlowOf(w), w.sent, p, w.queued);
    PaddedTwice(w.mine, w.capacity);
    if w.messages > 0 || !w.apart {
      HoldsLast(w);
    }
  }

  /** Any other leaves what both sides will hold as it was. */
  lemma ReplayNoNews(w: RowView)
    requires RowOk(w) && !Loops(FlowOf(ViewReplayed(w))) && (In(FlowOf(w)) != [] || Out(FlowOf(ViewReplayed(w))) == [])
    ensures Settles(ViewReplayed(w))
  {
    var p := Padded(w.mine, w.capacity);
    ReplayedFlow(w);
    InsertedFinal(FlowOf(w), w.sent, p, w.queued);
    if w.messages == 0 {
      QuietIsFinal(FlowOf(w));
      PaddedTwice(w.mine, w.capacity);
    }
  }

  lemma ReplaySettles(w: RowView)
    requires RowOk(w) && !Loops(FlowOf(ViewReplayed(w)))
    ensures Settles(ViewReplayed(w))
  {
    if In(FlowOf(w)) == [] && Out(FlowOf(ViewReplayed(w))) != [] {
      ReplayNews(w);
    } else {
      ReplayNoNews(w);
    }
  }

  lemma ReplayCost(w: RowView)
    requires RowOk(w) && !Loops(FlowOf(ViewReplayed(w)))
    ensures Cost(ViewReplayed(w)) <= Cost(w) + if |w.mine| < w.capacity then 3 else 1
  {
    var f, p := FlowOf(w), Padded(w.mine, w.capacity);
    ReplayedFlow(w);
    if |w.mine| < w.capacity {
      OtherAgain(f, w.sent, p, w.queued);
    } else {
      assert f.outbound != [] ==> f.outbound[|f.outbound| - 1] == if w.queued != [] then w.queued[|w.queued| - 1] else w.sent[|w.sent| - 1];
      SameAgain(f, w.sent, w.queued);
    }
  }

  lemma ReplayKeepsRow(w: RowView)
    requires RowOk(w) && !Loops(FlowOf(ViewReplayed(w)))
    ensures RowOk(ViewReplayed(w))
  {
    ReplaySettles(w);
    ReplayCost(w);
  }

  // ---------------------------------------------------------------------------
  // Disciplined runs
  // ---------------------------------------------------------------------------

  /** The application writes a row only when nothing is under way for it, and no replay sets two different
      values going round. */
  predicate Disciplined(s: State, step: Step)
    requires Shaped(s) && Enabled(s, step)
  {
    match step
    case Write(_, k, _) => Quiet(s, k)
    case Replay(side, k) => !Loops(FlowOf(ViewReplayed(View(s, side, k))))
    case _ => true
  }

  ghost predicate DisciplinedRun(s: State, steps: seq<Step>, s': State)
    decreases |steps|
  {
    if steps == [] then s == s'
    else Shaped(s) && Enabled(s, steps[0]) && Disciplined(s, steps[0]) && DisciplinedRun(Next(s, steps[0]), steps[1..], s')
  }

  ghost predicate Inv(s: State) {
    Shaped(s) && forall k: nat :: k < |s.last| ==> RowOk(View(s, Left, k))
  }

  lemma EitherSideOk(s: State, side: Side, k: nat)
    requires Shaped(s) && k < |s.last|
    ensures RowOk(View(s, Left, k)) <==> RowOk(View(s, side, k))
  {
    OtherView(s, Left, k);
    if RowOk(View(s, Left, k)) {
      FlipOk(View(s, Left, k));
    }
    if RowOk(View(s, Right, k)) {
      FlipOk(View(s, Right, k));
    }
  }

  lemma StepKeepsRow(s: State, step: Step, j: nat)
    requires Inv(s) && Enabled(s, step) && Disciplined(s, step) && j < |s.last|
    ensures Shaped(Next(s, step)) && RowOk(View(Next(s, step), step.side, j))
  {
    assert RowOk(View(s, Left, j));
    EitherSideOk(s, step.side, j);
    OtherView(s, Left, j);
    match step
    case Write(side, k, v) =>
      WriteView(s, side, k, v, j);
      if j == k { WriteKeepsRow(View(s, side, j), v); }
    case Send(side) =>
      SendView(s, side, j);
      if j == Of(s, side).queue[0].row { SendKeepsRow(View(s, side, j)); }
    case Receive(side) =>
      ReceiveView(s, side, j);
      if j == Of(s, side).inbox[0].row { ReceiveKeepsRow(View(s, side, j)); }
    case Replay(side, k) =>
      ReplayView(s, side, k, j);
      if j == k { ReplayKeepsRow(View(s, side, j)); }
  }

  lemma StepKeepsInv(s: State, step: Step)
    requires Inv(s) && Enabled(s, step) && Disciplined(s, step)
    ensures Inv(Next(s, step))
  {
    StepKeepsShape(s, step);
    var t := Next(s, step);
    forall j: nat | j < |t.last| ensures RowOk(View(t, Left, j)) {
      StepKeepsRow(s, step, j);
      EitherSideOk(t, step.side, j);
    }
  }

  lemma {:induction false} RunKeepsInv(s: State, steps: seq<Step>, s': State)
    requires Inv(s) && DisciplinedRun(s, steps, s')
    ensures Inv(s') && |s'.last| == |s.last| && s'.apart == s.apart && s'.capacity == s.capacity
    decreases |steps|
  {
    if steps != [] {
      StepKeepsInv(s, steps[0]);
      StepKeepsShape(s, steps[0]);
      RunKeepsInv(Next(s, steps[0]), steps[1..], s');
    }
  }

  // ---------------------------------------------------------------------------
  // Agreement and traffic
  // ---------------------------------------------------------------------------

  /** Rows that have some capacity, and hold no more than that. */
  predicate RowsFit(rows: seq<Value>, capacity: seq<nat>) {
    |rows| == |capacity| && forall k :: 0 <= k < |rows| ==> |rows[k]| <= capacity[k] && capacity[k] > 0
  }

  lemma InitialInv(lefts: seq<Value>, rights: seq<Value>, capacity: seq<nat>)
    requires RowsFit(lefts, capacity) && RowsFit(rights, capacity)
    ensures Inv(Initial(lefts, rights, capacity))
  {
    var s := Initial(lefts, rights, capacity);
    forall k: nat | k < |s.last| ensures RowOk(View(s, Left, k)) {
      QuietIsFinal(FlowOf(View(s, Left, k)));
    }
  }

  function Sum(counts: seq<nat>): nat {
    if counts == [] then 0 else Sum(counts[..|counts| - 1]) + counts[|counts| - 1]
  }

  /** How many rows start out apart. */
  function RowsApart(lefts: seq<Value>, rights: seq<Value>): nat
    requires |lefts| == |rights|
  {
    if lefts == [] then 0
    else
      var n := |lefts| - 1;
      RowsApart(lefts[..n], rights[..n]) + One(lefts[n] != rights[n])
  }

  lemma {:induction false} SumBound(messages: seq<nat>, writes: seq<nat>, replays: seq<nat>, short: seq<nat>, lefts: seq<Value>, rights: seq<Value>)
    requires |messages| == |writes| == |replays| == |short| == |lefts| == |rights|
    requires forall k :: 0 <= k < |messages| ==> messages[k] <= 2 * writes[k] + replays[k] + 2 * short[k] + One(lefts[k] != rights[k])
    ensures Sum(messages) <= 2 * Sum(writes) + Sum(replays) + 2 * Sum(short) + RowsApart(lefts, rights)
  {
    if messages != [] {
      var n := |messages| - 1;
      SumBound(messages[..n], writes[..n], replays[..n], short[..n], lefts[..n], rights[..n]);
    }
  }

  /** In every disciplined run, with any interleaving of rows, and whatever the replicas hold at the start:
      once nothing is under way for a row, its replicas agree, but for padding, on the value written last, if
      they agreed at the start or some message has been issued for the row; they still differ if neither.
      Where no replay was of less than the row's capacity, this holds of the values exactly. */
  lemma ReplicasAgree(lefts: seq<Value>, rights: seq<Value>, capacity: seq<nat>, steps: seq<Step>, s: State, k: nat)
    requires RowsFit(lefts, capacity) && RowsFit(rights, capacity)
    requires DisciplinedRun(Initial(lefts, rights, capacity), steps, s) && k < |lefts|
    ensures Shaped(s) && |s.last| == |lefts| && s.capacity == capacity
    ensures Quiet(s, k) && (lefts[k] == rights[k] || s.messages[k] > 0) ==>
      Padded(s.left.rows[k], capacity[k]) == Padded(s.right.rows[k], capacity[k]) == Padded(s.last[k], capacity[k])
    ensures Quiet(s, k) && lefts[k] != rights[k] && s.messages[k] == 0 ==> s.left.rows[k] != s.right.rows[k]
    ensures Quiet(s, k) && s.short[k] == 0 ==>
      && (s.left.rows[k] == s.right.rows[k] <==> lefts[k] == rights[k] || s.messages[k] > 0)
      && (s.left.rows[k] == s.right.rows[k] ==> s.left.rows[k] == s.last[k])
  {
    InitialInv(lefts, rights, capacity);
    RunKeepsInv(Initial(lefts, rights, capacity), steps, s);
    assert RowOk(View(s, Left, k));
    if Quiet(s, k) {
      QuietIsFinal(FlowOf(View(s, Left, k)));
    }
  }

  /** And there are at most two data messages for each application write, one for each answer to a
      registration request and two more if the row held less than its capacity, and one more for a row that
      starts apart, per row and in all. */
  lemma TrafficIsBounded(lefts: seq<Value>, rights: seq<Value>, capacity: seq<nat>, steps: seq<Step>, s: State, k: nat)
    requires RowsFit(lefts, capacity) && RowsFit(rights, capacity)
    requires DisciplinedRun(Initial(lefts, rights, capacity), steps, s) && k < |lefts|
    ensures Shaped(s) && |s.last| == |lefts|
    ensures s.messages[k] <= 2 * s.writes[k] + s.replays[k] + 2 * s.short[k] + One(lefts[k] != rights[k])
    ensures Sum(s.messages) <= 2 * Sum(s.writes) + Sum(s.replays) + 2 * Sum(s.short) + RowsApart(lefts, rights)
  {
    InitialInv(lefts, rights, capacity);
    RunKeepsInv(Initial(lefts, rights, capacity), steps, s);
    forall j | 0 <= j < |lefts| ensures s.messages[j] <= 2 * s.writes[j] + s.replays[j] + 2 * s.short[j] + One(lefts[j] != rights[j]) {
      assert RowOk(View(s, Left, j));
    }
    SumBound(s.messages, s.writes, s.replays, s.short, lefts, rights);
  }

  /** A write of the value one replica holds already is not reported, and leaves replicas apart that were. */
  lemma UnreportedWriteLeavesApart(a: Value, b: Value, size: nat)
    requires a != b && Fits(a, size) && |b| <= size
    ensures var s := Initial([a], [b], [size]);
      && Shaped(s) && Enabled(s, Write(Left, 0, a)) && Disciplined(s, Write(Left, 0, a))
      && var t := Next(s, Write(Left, 0, a));
         && Shaped(t) && Quiet(t, 0)
         && t.last == [a] && t.left.rows == [a] && t.right.rows == [b]
  {
  }
}
