/**
 Where a run of a state machine gets to: which state the opcodes that handlers try
 lead to, that the state reached is entered, and when a run stands in an end state.
 */
module StateRuns {
  import opened StateMachines

  // ---------------------------------------------------------------------------
  // Where opcodes lead
  // ---------------------------------------------------------------------------

  /** Whether the opcode, tried in state `at`, moves the machine. */
  predicate Moves(nodes: map<int, Node>, at: int, opcode: int) {
    && at in nodes
    && var next := FindTransition(nodes[at].transitions, opcode);
       next != -1 && Legal(nodes, next)
  }

  function Hop(nodes: map<int, Node>, at: int, opcode: int): int {
    if Moves(nodes, at, opcode) then FindTransition(nodes[at].transitions, opcode) else at
  }

  /** Where opcodes tried one after the other lead, the first one first. */
  function Reached(nodes: map<int, Node>, at: int, opcodes: seq<int>): int
    decreases |opcodes|
  {
    if opcodes == [] then at else Reached(nodes, Hop(nodes, at, opcodes[0]), opcodes[1..])
  }

  /** Whether any of them moves the machine. */
  predicate MovesOn(nodes: map<int, Node>, at: int, opcodes: seq<int>)
    decreases |opcodes|
  {
    opcodes != [] && (Moves(nodes, at, opcodes[0]) || MovesOn(nodes, Hop(nodes, at, opcodes[0]), opcodes[1..]))
  }

  lemma {:induction false} ReachedAppend(nodes: map<int, Node>, at: int, opcodes: seq<int>, opcode: int)
    ensures Reached(nodes, at, opcodes + [opcode]) == Hop(nodes, Reached(nodes, at, opcodes), opcode)
    ensures MovesOn(nodes, at, opcodes + [opcode]) <==> MovesOn(nodes, at, opcodes) || Moves(nodes, Reached(nodes, at, opcodes), opcode)
    decreases |opcodes|
  {
    var all := opcodes + [opcode];
    if opcodes == [] {
      assert all[1..] == [];
    } else {
      assert all[0] == opcodes[0] && all[1..] == opcodes[1..] + [opcode];
      ReachedAppend(nodes, Hop(nodes, at, opcodes[0]), opcodes[1..], opcode);
    }
  }

  lemma {:induction false} NotMoving(nodes: map<int, Node>, at: int, opcodes: seq<int>)
    requires !MovesOn(nodes, at, opcodes)
    ensures Reached(nodes, at, opcodes) == at
    decreases |opcodes|
  {
    if opcodes != [] {
      NotMoving(nodes, at, opcodes[1..]);
    }
  }

  lemma {:induction false} StaysRegistered(nodes: map<int, Node>, at: int, opcodes: seq<int>)
    requires at in nodes
    ensures Reached(nodes, at, opcodes) in nodes
    decreases |opcodes|
  {
    if opcodes != [] {
      StaysRegistered(nodes, Hop(nodes, at, opcodes[0]), opcodes[1..]);
    }
  }

  lemma PerformHops(m: Machine, opcode: int)
    ensures var t := Perform(m, opcode);
      && t.ok == Moves(m.nodes, m.current, opcode)
      && t.machine == m.(lastOpcode := opcode, current := Hop(m.nodes, m.current, opcode),
                         visited := if t.ok then m.visited + [t.machine.current] else m.visited)
  {
    if m.current in m.nodes {
      var ts := m.nodes[m.current].transitions;
      assert FindTransition(ts, opcode) != -1 ==> Transition(opcode, FindTransition(ts, opcode)) in ts;
    }
  }

  /** A handler takes the machine where its opcodes lead, and changes nothing else but the last opcode. */
  lemma {:induction false} HandlersLead(m: Machine, opcodes: seq<int>)
    ensures var t := React(m, opcodes);
      && t.current == Reached(m.nodes, m.current, opcodes)
      && t == m.(current := t.current, visited := t.visited, lastOpcode := if opcodes == [] then m.lastOpcode else opcodes[|opcodes| - 1])
      && (t.visited != m.visited <==> MovesOn(m.nodes, m.current, opcodes)) && |t.visited| >= |m.visited|
  {
    if opcodes != [] {
      var n := |opcodes| - 1;
      assert opcodes == opcodes[..n] + [opcodes[n]];
      HandlersLead(m, opcodes[..n]);
      PerformHops(React(m, opcodes[..n]), opcodes[n]);
      ReachedAppend(m.nodes, m.current, opcodes[..n], opcodes[n]);
    }
  }

  // ---------------------------------------------------------------------------
  // Entering what was reached
  // ---------------------------------------------------------------------------

  predicate EndState(nodes: map<int, Node>, id: int) {
    id in nodes && nodes[id].kind in {EndSuccess, EndFail, EndAbort}
  }

  /** The outcome is that of this end state. */
  predicate OutcomeOf(nodes: map<int, Node>, id: int, status: Status) {
    EndState(nodes, id) && Ended(status) && EndKind(status, nodes[id].kind)
  }

  lemma EnteredFinishes(m: Machine, script: seq<Reaction>)
    requires EndState(m.nodes, m.current)
    ensures OutcomeOf(m.nodes, m.current, Switch(m, script).status)
  {
    EnteringEndStateFinishes(m, script);
  }

  /** Data handled while the machine is under way, or a state timeout, or a start: when the opcodes tried lead to
      an end state and the handler says that it has moved, the run has finished with that state's outcome,
      whatever handlers come after. */
  lemma EventsReachTheEnd(m: Machine, reaction: Reaction, script: seq<Reaction>, first: int)
    ensures var end := Reached(m.nodes, m.current, reaction.opcodes);
      reaction.moved && EndState(m.nodes, end) ==>
        && OutcomeOf(m.nodes, end, OnEvent(m, StateTimeout(reaction, script)).status)
        && (m.status.InTheMiddle? ==> OutcomeOf(m.nodes, end, OnEvent(m, Data(reaction, script)).status))
    ensures EndState(m.nodes, first) ==> OutcomeOf(m.nodes, first, OnEvent(m, Start(first, script)).status)
  {
    HandlersLead(m, reaction.opcodes);
    if reaction.moved && EndState(m.nodes, Reached(m.nodes, m.current, reaction.opcodes)) {
      EnteredFinishes(React(m, reaction.opcodes).(timerOn := false), script);
    }
    if EndState(m.nodes, first) {
      EnteredFinishes(Started(m, first), script);
    }
  }

  /** A machine at its first state, not entered yet. */
  function Started(m: Machine, first: int): Machine {
    m.(current := first, status := InTheMiddle, timerOn := if m.status.NotStarted? then m.timerOn else false, visited := [first])
  }

  /** Without a move the data is handled all the same, and nothing is entered. */
  lemma UnmovedStays(m: Machine, reaction: Reaction, script: seq<Reaction>)
    requires m.status.InTheMiddle? && !reaction.moved
    ensures var t := OnEvent(m, Data(reaction, script));
      t.current == Reached(m.nodes, m.current, reaction.opcodes) && t.status == m.status && t.timerOn == m.timerOn
  {
    HandlersLead(m, reaction.opcodes);
  }

  // ---- the state timer -------------------------------------------------------

  /** The current state has a timeout. */
  predicate Waits(m: Machine) {
    m.current in m.nodes && m.nodes[m.current].timeout > 0
  }

  lemma {:induction false} SwitchTimer(m: Machine, script: seq<Reaction>)
    ensures var t := Switch(m, script);
      t.nodes == m.nodes && t.lastStatus == m.lastStatus && (t.timerOn <==> m.timerOn || Waits(t))
    decreases |script|
  {
    var m1 := if m.current in m.nodes then m.(status := StatusOn(m.nodes[m.current].kind, m.status)) else m;
    if script != [] {
      HandlersLead(m1, script[0].opcodes);
      var m2 := React(m1, script[0].opcodes);
      if script[0].moved && !Ended(m2.status) {
        SwitchTimer(m2, script[1..]);
      }
    }
  }

  /** The state timer runs, after an event that has entered a state, exactly if the state it has come to rest in
      has a timeout; pausing and a process timeout stop it, and resuming starts it again. */
  lemma TimerRunsIffWaiting(m: Machine, e: Event)
    ensures var t := OnEvent(m, e);
      match e
      case Start(_, _) => !m.status.NotStarted? || !m.timerOn ==> (t.timerOn <==> Waits(t))
      case Data(r, _) => if m.status.InTheMiddle? && r.moved then t.timerOn <==> Waits(t) else t.timerOn == m.timerOn
      case StateTimeout(r, _) => if r.moved then t.timerOn <==> Waits(t) else t.timerOn == m.timerOn
      case ProcessTimeout => !t.timerOn && t.status.FinishedTimeout? && t.current == m.current
      case Pause => t.status.Paused? && t.current == m.current && (!m.status.Paused? ==> !t.timerOn)
      case Resume => m.status.Paused? ==> (t.timerOn <==> m.timerOn || Waits(m)) && t.current == m.current && t.status == m.lastStatus
  {
    match e
    case Start(first, script) => SwitchTimer(Started(m, first), script);
    case Data(r, script) =>
      HandlersLead(m, r.opcodes);
      SwitchTimer(React(m, r.opcodes).(timerOn := false), script);
    case StateTimeout(r, script) =>
      HandlersLead(m, r.opcodes);
      SwitchTimer(React(m, r.opcodes).(timerOn := false), script);
    case _ =>
  }

  // ---------------------------------------------------------------------------
  // Standing in an end state
  // ---------------------------------------------------------------------------

  /** A handler says that it has moved exactly if it has. */
  predicate Honest(nodes: map<int, Node>, at: int, r: Reaction) {
    r.moved <==> MovesOn(nodes, at, r.opcodes)
  }

  /** So do the handlers of the states entered on the way. */
  predicate HonestScript(nodes: map<int, Node>, at: int, script: seq<Reaction>)
    decreases |script|
  {
    script == [] ||
    (Honest(nodes, at, script[0]) && (script[0].moved ==> HonestScript(nodes, Reached(nodes, at, script[0].opcodes), script[1..])))
  }

  predicate HonestReaction(nodes: map<int, Node>, at: int, r: Reaction, script: seq<Reaction>) {
    Honest(nodes, at, r) && (r.moved ==> HonestScript(nodes, Reached(nodes, at, r.opcodes), script))
  }

  /** Events with honest handlers, and no timeout of the whole process. */
  predicate HonestEvent(m: Machine, e: Event) {
    match e
    case Start(first, script) => first in m.nodes && HonestScript(m.nodes, first, script)
    case Data(r, script) => m.status.InTheMiddle? ==> HonestReaction(m.nodes, m.current, r, script)
    case StateTimeout(r, script) => HonestReaction(m.nodes, m.current, r, script)
    case ProcessTimeout => false
    case _ => true
  }

  /** What the run has come to, looking through a pause. */
  function Standing(m: Machine): Status {
    if m.status.Paused? then m.lastStatus else m.status
  }

  /** No transition leads out of an end state. */
  ghost predicate Final(nodes: map<int, Node>) {
    forall id <- nodes :: EndState(nodes, id) ==> nodes[id].transitions == []
  }

  ghost predicate Stands(m: Machine) {
    && m.current in m.nodes
    && (EndState(m.nodes, m.current) ==> Ended(Standing(m)))
    && (Final(m.nodes) && Ended(Standing(m)) ==> OutcomeOf(m.nodes, m.current, Standing(m)))
  }

  lemma {:induction false} FinalStays(nodes: map<int, Node>, at: int, opcodes: seq<int>)
    requires Final(nodes) && EndState(nodes, at)
    ensures !MovesOn(nodes, at, opcodes)
    decreases |opcodes|
  {
    if opcodes != [] {
      FinalStays(nodes, at, opcodes[1..]);
    }
  }

  lemma {:induction false} SwitchStands(m: Machine, script: seq<Reaction>)
    requires m.current in m.nodes && HonestScript(m.nodes, m.current, script)
    requires Final(m.nodes) ==> !Ended(Standing(m))
    ensures Stands(Switch(m, script)) && Switch(m, script).nodes == m.nodes
    decreases |script|
  {
    var m1 := m.(status := StatusOn(m.nodes[m.current].kind, m.status));
    if script != [] {
      HandlersLead(m1, script[0].opcodes);
      StaysRegistered(m.nodes, m.current, script[0].opcodes);
      var m2 := React(m1, script[0].opcodes);
      if script[0].moved && !Ended(m2.status) {
        SwitchStands(m2, script[1..]);
      } else {
        SwitchStops(m, script[0], m2);
      }
    }
  }

  lemma SwitchStops(m: Machine, r: Reaction, m2: Machine)
    requires m.current in m.nodes && Honest(m.nodes, m.current, r)
    requires Final(m.nodes) ==> !Ended(Standing(m))
    requires m2 == m.(status := StatusOn(m.nodes[m.current].kind, m.status), lastOpcode := m2.lastOpcode, visited := m2.visited,
                      current := Reached(m.nodes, m.current, r.opcodes))
    requires m2.current in m.nodes && (!r.moved || Ended(m2.status))
    ensures Stands(TimerOn(m2))
  {
    if !r.moved {
      NotMoving(m.nodes, m.current, r.opcodes);
    }
    if Final(m.nodes) && EndState(m.nodes, m.current) {
      FinalStays(m.nodes, m.current, r.opcodes);
    }
  }

  lemma ReactionStands(m: Machine, r: Reaction, script: seq<Reaction>)
    requires Stands(m) && HonestReaction(m.nodes, m.current, r, script)
    ensures var m1 := React(m, r.opcodes);
      var t := if r.moved then Switch(m1.(timerOn := false), script) else m1;
      Stands(t) && t.nodes == m.nodes
  {
    HandlersLead(m, r.opcodes);
    StaysRegistered(m.nodes, m.current, r.opcodes);
    var m1 := React(m, r.opcodes);
    if r.moved {
      if Final(m.nodes) && EndState(m.nodes, m.current) {
        FinalStays(m.nodes, m.current, r.opcodes);
      }
      SwitchStands(m1.(timerOn := false), script);
    } else {
      NotMoving(m.nodes, m.current, r.opcodes);
    }
  }

  lemma EventStands(m: Machine, e: Event)
    requires Stands(m) && HonestEvent(m, e)
    ensures Stands(OnEvent(m, e)) && OnEvent(m, e).nodes == m.nodes
  {
    match e
    case Start(first, script) => SwitchStands(Started(m, first), script);
    case Data(r, script) => if m.status.InTheMiddle? { ReactionStands(m, r, script); }
    case StateTimeout(r, script) => ReactionStands(m, r, script);
    case Pause =>
    case Resume =>
  }

  /** Every event of the sequence is honest in the state it meets. */
  ghost predicate HonestRun(m: Machine, events: seq<Event>) {
    forall i :: 0 <= i < |events| ==> HonestEvent(After(m, events[..i]), events[i])
  }

  lemma {:induction false} RunStands(m: Machine, events: seq<Event>)
    requires Stands(m) && HonestRun(m, events)
    ensures Stands(After(m, events)) && After(m, events).nodes == m.nodes
    decreases |events|
  {
    if events != [] {
      var n := |events| - 1;
      forall i | 0 <= i < n ensures HonestEvent(After(m, events[..n][..i]), events[..n][i]) {
        assert events[..n][..i] == events[..i];
      }
      RunStands(m, events[..n]);
      EventStands(After(m, events[..n]), events[n]);
    }
  }

  /** In every run of starts, data, state timeouts, pauses and resumptions whose handlers report their moves: a
      machine that stands in an end state has finished; and if no transition leads out of an end state, it
      stands in one of a given kind exactly if it has finished with that kind's outcome. */
  lemma StandsInEndIffFinished(m: Machine, first: int, script: seq<Reaction>, events: seq<Event>)
    requires first in m.nodes && HonestScript(m.nodes, first, script)
    requires HonestRun(OnEvent(m, Start(first, script)), events)
    ensures var t := After(OnEvent(m, Start(first, script)), events);
      && t.nodes == m.nodes && (EndState(m.nodes, t.current) ==> Ended(Standing(t)))
      && (Final(m.nodes) ==> (EndState(m.nodes, t.current) <==> Ended(Standing(t))))
      && (Final(m.nodes) && Ended(Standing(t)) ==> EndKind(Standing(t), m.nodes[t.current].kind))
  {
    SwitchStands(Started(m, first), script);
    RunStands(OnEvent(m, Start(first, script)), events);
  }
}
