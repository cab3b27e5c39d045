/**
 `StateMachine`: event-driven transitions between registered states.

 The handlers of a state are the user's.  All that is assumed of them is that they
 move the machine only by performing transitions, and that a handler for leaving a
 state does not move it at all: a reaction is the opcodes a handler tries, one
 after the other, and what it returns.
 */
module StateMachines {

  datatype StateType = Uninitialized | Default | EndSuccess | EndFail | EndAbort

  datatype Transition = Transition(opcode: int, next: int)

  datatype Node = Node(kind: StateType, transitions: seq<Transition>, timeout: int)

  datatype Status = NotStarted | InTheMiddle | FinishedFail | FinishedTimeout | FinishedSuccess | FinishedKilled | FinishedAborted | Paused

  datatype Reaction = Reaction(opcodes: seq<int>, moved: bool)

  /** `visited` is bookkeeping: the states since the last start. */
  datatype Machine = Machine(
    nodes: map<int, Node>,
    current: int,
    status: Status,
    lastStatus: Status,
    lastOpcode: int,
    timerOn: bool,
    visited: seq<int>)

  datatype Event =
    | Start(first: int, script: seq<Reaction>)
    | Data(reaction: Reaction, script: seq<Reaction>)
    | StateTimeout(reaction: Reaction, script: seq<Reaction>)
    | ProcessTimeout
    | Pause
    | Resume

  const MaxTransitions: nat := 32

  /** The target of the first transition with this opcode, or -1. */
  function FindTransition(ts: seq<Transition>, opcode: int): (next: int)
    ensures next == -1 || Transition(opcode, next) in ts
    ensures (forall t <- ts :: t.opcode != opcode) ==> next == -1
  {
    if ts == [] then -1 else if ts[0].opcode == opcode then ts[0].next else FindTransition(ts[1..], opcode)
  }

  /** Of several transitions with one opcode the first added decides. */
  lemma {:induction false} FirstAddedDecides(ts: seq<Transition>, opcode: int, i: nat)
    requires i < |ts| && ts[i].opcode == opcode && forall j :: 0 <= j < i ==> ts[j].opcode != opcode
    ensures FindTransition(ts, opcode) == ts[i].next
  {
    if i > 0 {
      FirstAddedDecides(ts[1..], opcode, i - 1);
    }
  }

  /** A state the machine may move to. */
  predicate Legal(nodes: map<int, Node>, id: int) {
    id in nodes && !nodes[id].kind.Uninitialized?
  }

  datatype Tried = Tried(machine: Machine, ok: bool)

  function Perform(m: Machine, opcode: int): Tried {
    var m1 := m.(lastOpcode := opcode);
    if m.current !in m.nodes then Tried(m1, false)
    else
      var next := FindTransition(m.nodes[m.current].transitions, opcode);
      if next != -1 && Legal(m.nodes, next) then Tried(m1.(current := next, visited := m.visited + [next]), true)
      else Tried(m1, false)
  }

  function React(m: Machine, opcodes: seq<int>): Machine {
    if opcodes == [] then m else Perform(React(m, opcodes[..|opcodes| - 1]), opcodes[|opcodes| - 1]).machine
  }

  predicate Ended(status: Status) {
    status.FinishedSuccess? || status.FinishedFail? || status.FinishedAborted?
  }

  function StatusOn(kind: StateType, status: Status): Status {
    match kind
    case EndSuccess => FinishedSuccess
    case EndFail => FinishedFail
    case EndAbort => FinishedAborted
    case _ => status
  }

  function TimerOn(m: Machine): Machine {
    if m.current in m.nodes && m.nodes[m.current].timeout > 0 then m.(timerOn := true) else m
  }

  /** Entering a state: an end state sets the status, and what the entered state's handler does may lead on to
      another.  Handlers beyond the script do nothing. */
  function Switch(m: Machine, script: seq<Reaction>): Machine
    decreases |script|
  {
    var m1 := if m.current in m.nodes then m.(status := StatusOn(m.nodes[m.current].kind, m.status)) else m;
    if script == [] then TimerOn(m1)
    else
      var m2 := React(m1, script[0].opcodes);
      if script[0].moved && !Ended(m2.status) then Switch(m2, script[1..]) else TimerOn(m2)
  }

  function OnEvent(m: Machine, e: Event): Machine {
    match e
    case Start(first, script) =>
      Switch(m.(current := first, status := InTheMiddle, timerOn := if m.status.NotStarted? then m.timerOn else false, visited := [first]), script)
    case Data(reaction, script) =>
      if !m.status.InTheMiddle? then m
      else
        var m1 := React(m, reaction.opcodes);
        if reaction.moved then Switch(m1.(timerOn := false), script) else m1
    case StateTimeout(reaction, script) =>
      var m1 := React(m, reaction.opcodes);
      if reaction.moved then Switch(m1.(timerOn := false), script) else m1
    case ProcessTimeout => m.(status := FinishedTimeout, timerOn := false)
    case Pause => if m.status.Paused? then m else m.(timerOn := false, lastStatus := m.status, status := Paused)
    case Resume => if m.status.Paused? then TimerOn(m).(status := m.lastStatus) else m
  }

  function After(m: Machine, events: seq<Event>): Machine {
    if events == [] then m else OnEvent(After(m, events[..|events| - 1]), events[|events| - 1])
  }

  // ---------------------------------------------------------------------------
  // The path of visited states
  // ---------------------------------------------------------------------------

  ghost predicate Edge(nodes: map<int, Node>, a: int, b: int) {
    a in nodes && Legal(nodes, b) && exists opcode :: Transition(opcode, b) in nodes[a].transitions
  }

  ghost predicate Path(nodes: map<int, Node>, visited: seq<int>) {
    && visited != [] && visited[0] in nodes
    && forall i :: 0 < i < |visited| ==> Edge(nodes, visited[i - 1], visited[i])
  }

  ghost predicate Inv(m: Machine) {
    Path(m.nodes, m.visited) && m.current == m.visited[|m.visited| - 1]
  }

  lemma PathEndsRegistered(nodes: map<int, Node>, visited: seq<int>)
    requires Path(nodes, visited)
    ensures visited[|visited| - 1] in nodes
  {
    if |visited| > 1 {
      assert Edge(nodes, visited[|visited| - 2], visited[|visited| - 1]);
    }
  }

  lemma PerformKeepsInv(m: Machine, opcode: int)
    requires Inv(m)
    ensures var t := Perform(m, opcode).machine; Inv(t) && t.nodes == m.nodes && m.visited <= t.visited
  {
    var t := Perform(m, opcode).machine;
    if t.visited != m.visited {
      assert Edge(m.nodes, m.current, t.current);
      forall i | 0 < i < |t.visited| ensures Edge(t.nodes, t.visited[i - 1], t.visited[i]) {
        if i < |m.visited| { assert Edge(m.nodes, m.visited[i - 1], m.visited[i]); }
      }
    }
  }

  lemma {:induction false} ReactKeepsInv(m: Machine, opcodes: seq<int>)
    requires Inv(m)
    ensures var t := React(m, opcodes); Inv(t) && t == m.(current := t.current, lastOpcode := t.lastOpcode, visited := t.visited) && m.visited <= t.visited
  {
    if opcodes != [] {
      ReactKeepsInv(m, opcodes[..|opcodes| - 1]);
      PerformKeepsInv(React(m, opcodes[..|opcodes| - 1]), opcodes[|opcodes| - 1]);
    }
  }

  lemma {:induction false} SwitchKeepsInv(m: Machine, script: seq<Reaction>)
    requires Inv(m)
    ensures var t := Switch(m, script); Inv(t) && t.nodes == m.nodes && m.visited <= t.visited
    decreases |script|
  {
    var m1 := if m.current in m.nodes then m.(status := StatusOn(m.nodes[m.current].kind, m.status)) else m;
    if script != [] {
      ReactKeepsInv(m1, script[0].opcodes);
      SwitchKeepsInv(React(m1, script[0].opcodes), script[1..]);
    }
  }

  lemma EventKeepsInv(m: Machine, e: Event)
    requires Inv(m) && (e.Start? ==> e.first in m.nodes)
    ensures Inv(OnEvent(m, e)) && OnEvent(m, e).nodes == m.nodes
    ensures !e.Start? ==> m.visited <= OnEvent(m, e).visited
  {
    match e
    case Start(first, script) =>
      SwitchKeepsInv(m.(current := first, status := InTheMiddle, timerOn := if m.status.NotStarted? then m.timerOn else false, visited := [first]), script);
    case Data(reaction, script) =>
      ReactKeepsInv(m, reaction.opcodes);
      SwitchKeepsInv(React(m, reaction.opcodes).(timerOn := false), script);
    case StateTimeout(reaction, script) =>
      ReactKeepsInv(m, reaction.opcodes);
      SwitchKeepsInv(React(m, reaction.opcodes).(timerOn := false), script);
    case _ =>
  }

  lemma {:induction false} AfterKeepsInv(m: Machine, events: seq<Event>)
    requires Inv(m) && forall e <- events :: e.Start? ==> e.first in m.nodes
    ensures Inv(After(m, events)) && After(m, events).nodes == m.nodes
  {
    if events != [] {
      AfterKeepsInv(m, events[..|events| - 1]);
      assert events[|events| - 1] in events;
      EventKeepsInv(After(m, events[..|events| - 1]), events[|events| - 1]);
    }
  }

  /** In every run started at a registered state, whatever the handlers try and return: the current state is
      registered, and each visited state is a legal target of a transition added to the one before. */
  lemma CurrentStaysRegistered(m: Machine, first: int, script: seq<Reaction>, events: seq<Event>)
    requires first in m.nodes && forall e <- events :: e.Start? ==> e.first in m.nodes
    ensures var t := After(OnEvent(m, Start(first, script)), events);
      t.current in m.nodes && Path(m.nodes, t.visited) && t.visited[|t.visited| - 1] == t.current
  {
    var started := m.(current := first, status := InTheMiddle, timerOn := if m.status.NotStarted? then m.timerOn else false, visited := [first]);
    SwitchKeepsInv(started, script);
    AfterKeepsInv(OnEvent(m, Start(first, script)), events);
    PathEndsRegistered(m.nodes, After(OnEvent(m, Start(first, script)), events).visited);
  }

  // ---- pausing ---------------------------------------------------------------

  lemma {:induction false} IdleStays(m: Machine, events: seq<Event>)
    requires !m.status.InTheMiddle? && forall e <- events :: e.Data? || (e.Pause? && m.status.Paused?)
    ensures After(m, events) == m
  {
    if events != [] {
      assert events[|events| - 1] in events;
      IdleStays(m, events[..|events| - 1]);
    }
  }

  /** Pausing and resuming, with data and further pauses in between, restores status and state; and data
      changes nothing at all while the machine has not started, is paused or has finished. */
  lemma PauseThenResume(m: Machine, events: seq<Event>)
    requires !m.status.Paused? && forall e <- events :: e.Data? || e.Pause?
    ensures var t := OnEvent(After(OnEvent(m, Pause), events), Resume);
      t.status == m.status && t.current == m.current && t.visited == m.visited
    ensures !m.status.InTheMiddle? && (forall e <- events :: e.Data?) ==> After(m, events) == m
  {
    IdleStays(OnEvent(m, Pause), events);
    if !m.status.InTheMiddle? && forall e <- events :: e.Data? {
      IdleStays(m, events);
    }
  }

  // ---- what a finished status means ------------------------------------------

  /** Entering an end state finishes the run with that state's outcome, whatever its handler does. */
  lemma EnteringEndStateFinishes(m: Machine, script: seq<Reaction>)
    requires m.current in m.nodes && Ended(StatusOn(m.nodes[m.current].kind, NotStarted))
    ensures Switch(m, script).status == StatusOn(m.nodes[m.current].kind, NotStarted)
  {
    if script != [] {
      StatusUntouched(m.(status := StatusOn(m.nodes[m.current].kind, m.status)), script[0].opcodes);
    }
  }

  lemma {:induction false} StatusUntouched(m: Machine, opcodes: seq<int>)
    ensures React(m, opcodes).status == m.status
  {
    if opcodes != [] {
      StatusUntouched(m, opcodes[..|opcodes| - 1]);
    }
  }

  predicate EndKind(status: Status, kind: StateType) {
    match status
    case FinishedSuccess => kind.EndSuccess?
    case FinishedFail => kind.EndFail?
    case FinishedAborted => kind.EndAbort?
    case _ => true
  }

  /** The status says how the machine ended only if it has been in a state of that kind. */
  ghost predicate Earned(m: Machine, status: Status) {
    Ended(status) ==> exists i :: 0 <= i < |m.visited| && m.visited[i] in m.nodes && EndKind(status, m.nodes[m.visited[i]].kind)
  }

  /** The status is earned, and so is the one a paused machine will return to. */
  ghost predicate Fair(m: Machine) {
    Earned(m, m.status) && (m.status.Paused? ==> Earned(m, m.lastStatus))
  }

  lemma EarnedMore(m: Machine, t: Machine, status: Status)
    requires Earned(m, status) && t.nodes == m.nodes && m.visited <= t.visited
    ensures Earned(t, status)
  {
    if Ended(status) {
      var i :| 0 <= i < |m.visited| && m.visited[i] in m.nodes && EndKind(status, m.nodes[m.visited[i]].kind);
      assert t.visited[i] == m.visited[i];
    }
  }

  lemma FairMore(m: Machine, t: Machine)
    requires Fair(m) && t.nodes == m.nodes && m.visited <= t.visited && t.status == m.status && t.lastStatus == m.lastStatus
    ensures Fair(t)
  {
    EarnedMore(m, t, m.status);
    if m.status.Paused? {
      EarnedMore(m, t, m.lastStatus);
    }
  }

  lemma {:induction false} SwitchIsFair(m: Machine, script: seq<Reaction>)
    requires Inv(m) && Fair(m)
    ensures Fair(Switch(m, script))
    decreases |script|
  {
    var m1 := if m.current in m.nodes then m.(status := StatusOn(m.nodes[m.current].kind, m.status)) else m;
    assert Fair(m1) by {
      if m1.status == m.status {
        FairMore(m, m1);
      } else {
        assert m1.visited[|m1.visited| - 1] == m.current;
      }
    }
    if script == [] {
      FairMore(m1, TimerOn(m1));
    } else {
      var m2 := React(m1, script[0].opcodes);
      ReactKeepsInv(m1, script[0].opcodes);
      FairMore(m1, m2);
      if script[0].moved && !Ended(m2.status) {
        SwitchIsFair(m2, script[1..]);
      } else {
        FairMore(m2, TimerOn(m2));
      }
    }
  }

  lemma ReactionIsFair(m: Machine, reaction: Reaction, script: seq<Reaction>)
    requires Inv(m) && Fair(m)
    ensures var m1 := React(m, reaction.opcodes);
      Fair(if reaction.moved then Switch(m1.(timerOn := false), script) else m1)
  {
    var m1 := React(m, reaction.opcodes);
    ReactKeepsInv(m, reaction.opcodes);
    FairMore(m, m1);
    FairMore(m1, m1.(timerOn := false));
    SwitchIsFair(m1.(timerOn := false), script);
  }

  lemma EventIsFair(m: Machine, e: Event)
    requires Inv(m) && Fair(m) && !e.Start?
    ensures Fair(OnEvent(m, e))
  {
    var t := OnEvent(m, e);
    match e
    case Data(reaction, script) => if m.status.InTheMiddle? { ReactionIsFair(m, reaction, script); }
    case StateTimeout(reaction, script) => ReactionIsFair(m, reaction, script);
    case ProcessTimeout =>
    case Pause => EarnedMore(m, t, m.status);
    case Resume => if m.status.Paused? { EarnedMore(m, t, m.lastStatus); }
  }

  lemma {:induction false} AfterIsFair(m: Machine, events: seq<Event>)
    requires Inv(m) && Fair(m) && forall e <- events :: !e.Start?
    ensures var t := After(m, events); Inv(t) && t.nodes == m.nodes && Fair(t)
  {
    if events != [] {
      var init, e := events[..|events| - 1], events[|events| - 1];
      assert e in events;
      AfterIsFair(m, init);
      EventKeepsInv(After(m, init), e);
      EventIsFair(After(m, init), e);
    }
  }

  /** A run that reports success, failure or abortion has visited an end state of that kind. */
  lemma FinishedOnlyInEndState(m: Machine, first: int, script: seq<Reaction>, events: seq<Event>)
    requires first in m.nodes && forall e <- events :: !e.Start?
    ensures var t := After(OnEvent(m, Start(first, script)), events);
      Ended(t.status) ==> exists i :: 0 <= i < |t.visited| && t.visited[i] in m.nodes && EndKind(t.status, m.nodes[t.visited[i]].kind)
  {
    var started := m.(current := first, status := InTheMiddle, timerOn := if m.status.NotStarted? then m.timerOn else false, visited := [first]);
    SwitchKeepsInv(started, script);
    SwitchIsFair(started, script);
    AfterIsFair(OnEvent(m, Start(first, script)), events);
  }

  // ---------------------------------------------------------------------------
  // The objects
  // ---------------------------------------------------------------------------

  class StateObject {
    const kind: StateType
    const timeout: int
    const transitionsArray: array<Transition>
    var numOfTransitions: nat

    ghost predicate Valid()
      reads this
    {
      numOfTransitions <= MaxTransitions <= transitionsArray.Length
    }

    ghost function View(): Node
      reads this, transitionsArray
      requires Valid()
    {
      Node(kind, transitionsArray[..numOfTransitions], timeout)
    }

    constructor (kind: StateType, timeout: int)
      ensures Valid() && fresh(transitionsArray) && View() == Node(kind, [], timeout)
    {
      this.kind, this.timeout := kind, timeout;
      transitionsArray := new Transition[500](_ => Transition(0, 0));
      numOfTransitions := 0;
    }

    /** Refused once there are 32 transitions, although the array has room for 500. */
    method AddTransition(opcode: int, next: int) returns (added: bool)
      requires Valid()
      modifies this, transitionsArray
      ensures Valid() && (added <==> |old(View()).transitions| < MaxTransitions)
      ensures View() == if added then old(View()).(transitions := old(View()).transitions + [Transition(opcode, next)]) else old(View())
    {
      if numOfTransitions >= MaxTransitions {
        return false;
      }
      transitionsArray[numOfTransitions] := Transition(opcode, next);
      numOfTransitions := numOfTransitions + 1;
      added := true;
    }

    method Find(opcode: int) returns (next: int)
      requires Valid()
      ensures next == FindTransition(View().transitions, opcode)
    {
      ghost var ts := View().transitions;
      for i := 0 to numOfTransitions
        invariant forall j :: 0 <= j < i ==> ts[j].opcode != opcode
      {
        if transitionsArray[i].opcode == opcode {
          FirstAddedDecides(ts, opcode, i);
          return transitionsArray[i].next;
        }
      }
      next := -1;
    }
  }

  class StateMachine {
    const nodes: map<int, Node>
    var current: int
    var processStatus: Status
    var lastProcessStatus: Status
    var lastOpcode: int
    var timerOn: bool
    ghost var visited: seq<int>

    ghost function View(): Machine
      reads this
    {
      Machine(nodes, current, processStatus, lastProcessStatus, lastOpcode, timerOn, visited)
    }

    constructor (nodes: map<int, Node>)
      ensures View() == Machine(nodes, 0, NotStarted, NotStarted, 0, false, [])
    {
      this.nodes := nodes;
      current, processStatus, lastProcessStatus, lastOpcode, timerOn, visited := 0, NotStarted, NotStarted, 0, false, [];
    }

    method PerformTransition(opcode: int) returns (moved: bool)
      requires current in nodes
      modifies this`current, this`lastOpcode, this`visited
      ensures current in nodes && Tried(View(), moved) == Perform(old(View()), opcode)
    {
      lastOpcode := opcode;
      var next := FindTransition(nodes[current].transitions, opcode);
      if next == -1 {
        return false;
      }
      if next in nodes && !nodes[next].kind.Uninitialized? {
        current := next;
        visited := visited + [next];
        return true;
      }
      moved := false;
    }

    method Handle(opcodes: seq<int>)
      requires current in nodes
      modifies this`current, this`lastOpcode, this`visited
      ensures current in nodes && View() == React(old(View()), opcodes)
    {
      for i := 0 to |opcodes|
        invariant current in nodes && View() == React(old(View()), opcodes[..i])
      {
        assert opcodes[..i + 1][..i] == opcodes[..i];
        var moved := PerformTransition(opcodes[i]);
      }
      assert opcodes[..|opcodes|] == opcodes;
    }

    method SwitchToNextState(script: seq<Reaction>)
      requires current in nodes
      modifies this`current, this`lastOpcode, this`visited, this`processStatus, this`timerOn
      ensures current in nodes && View() == Switch(old(View()), script)
    {
      var rest, isMovedToNext, entered := script, true, false;
      ghost var goal := Switch(View(), script);
      while isMovedToNext && !(entered && Ended(processStatus))
        invariant current in nodes
        invariant if isMovedToNext && !(entered && Ended(processStatus)) then Switch(View(), rest) == goal else TimerOn(View()) == goal
        decreases isMovedToNext, |rest|
      {
        match nodes[current].kind {
          case EndSuccess => processStatus := FinishedSuccess;
          case EndFail => processStatus := FinishedFail;
          case EndAbort => processStatus := FinishedAborted;
          case _ =>
        }
        if rest == [] {
          isMovedToNext := false;
        } else {
          Handle(rest[0].opcodes);
          isMovedToNext := rest[0].moved;
          rest := rest[1..];
        }
        entered := true;
      }
      if nodes[current].timeout > 0 {
        timerOn := true;
      }
    }

    method CallState(reaction: Reaction, script: seq<Reaction>) returns (handled: bool)
      requires current in nodes
      modifies this
      ensures current in nodes && View() == OnEvent(old(View()), Data(reaction, script))
      ensures handled <==> old(processStatus).InTheMiddle?
    {
      if !processStatus.InTheMiddle? {
        return false;
      }
      Handle(reaction.opcodes);
      if reaction.moved {
        timerOn := false;
        SwitchToNextState(script);
      }
      handled := true;
    }

    method InitializeResetRun(first: int, script: seq<Reaction>)
      requires first in nodes
      modifies this
      ensures current in nodes && View() == OnEvent(old(View()), Start(first, script))
    {
      if !processStatus.NotStarted? {
        timerOn := false;
      }
      current, visited := first, [first];
      processStatus := InTheMiddle;
      SwitchToNextState(script);
    }

    method PauseRun()
      requires current in nodes
      modifies this
      ensures View() == OnEvent(old(View()), Pause)
    {
      if !processStatus.Paused? {
        timerOn := false;
        lastProcessStatus := processStatus;
        processStatus := Paused;
      }
    }

    method ResumeRun()
      requires current in nodes
      modifies this
      ensures View() == OnEvent(old(View()), Resume)
    {
      if processStatus.Paused? {
        if nodes[current].timeout > 0 {
          timerOn := true;
        }
        processStatus := lastProcessStatus;
      }
    }
  }
}
