/**
 `RemoteAgent`: which imported tables have been acknowledged, and when the agent
 reports that its data is in sync.
 */
module RemoteAgentSync {

  datatype Flag = NotShared | Imported | Exported

  /** An entry of the table-info map, whose entries are visited in order of their keys. */
  datatype TableInfo = TableInfo(key: nat, externalId: int, flag: Flag, acked: bool)

  /** A row takes at most `capacity` bytes; only a row of the empty type takes none. */
  datatype Row = Row(capacity: nat, empty: bool)

  type Tables = map<nat, map<nat, Row>>

  const TwoTo32: nat := 0x1_0000_0000
  const FailureTimeout: nat := 1000

  /** `heard` are the tables for which a data message has been processed since the start or the
      last communication error. */
  datatype State = State(infos: seq<TableInfo>, tables: Tables, synced: bool, gotMsg: bool, lastAck: nat, heard: set<nat>)

  datatype Step =
    | Data(index: nat, entry: nat, size: nat)
    | KeepAlive(now: nat)
    | Periodic(now: nat)

  /** The first entry from `i` on whose external id, as an unsigned word, is `index`. */
  function FirstMatch(infos: seq<TableInfo>, index: nat, i: nat): (r: nat)
    requires i <= |infos|
    ensures i <= r <= |infos|
    ensures r < |infos| ==> infos[r].externalId % TwoTo32 == index
    ensures forall j :: i <= j < r ==> infos[j].externalId % TwoTo32 != index
    decreases |infos| - i
  {
    if i == |infos| || infos[i].externalId % TwoTo32 == index then i else FirstMatch(infos, index, i + 1)
  }

  predicate Takes(row: Row, size: nat) {
    row.empty || 0 < size <= row.capacity
  }

  /** The message is for a row that is there and takes the value. */
  predicate Processed(s: State, index: nat, entry: nat, size: nat) {
    var i := FirstMatch(s.infos, index, 0);
    && i < |s.infos| && s.infos[i].key in s.tables && entry in s.tables[s.infos[i].key]
    && Takes(s.tables[s.infos[i].key][entry], size)
  }

  function Acked(infos: seq<TableInfo>, i: nat): seq<TableInfo>
    requires i < |infos|
  {
    if infos[i].flag.Imported? then infos[i := infos[i].(acked := true)] else infos
  }

  function DoData(s: State, index: nat, entry: nat, size: nat): State {
    var i := FirstMatch(s.infos, index, 0);
    if Processed(s, index, entry, size) then s.(infos := Acked(s.infos, i), heard := s.heard + {s.infos[i].key}) else s
  }

  /** Nothing has been heard for too long; ticks are unsigned words. */
  predicate Late(s: State, now: nat) {
    (now - s.lastAck) % TwoTo32 > FailureTimeout
  }

  function Unacked(infos: seq<TableInfo>): (r: seq<TableInfo>)
    ensures |r| == |infos|
    ensures forall i :: 0 <= i < |r| ==> r[i] == if infos[i].flag.Imported? then infos[i].(acked := false) else infos[i]
  {
    seq(|infos|, i requires 0 <= i < |infos| => if infos[i].flag.Imported? then infos[i].(acked := false) else infos[i])
  }

  function CommunicationError(s: State): State {
    s.(gotMsg := false, infos := Unacked(s.infos), synced := false, heard := {})
  }

  /** An imported table of the data set that has an external id. */
  predicate Awaited(info: TableInfo, tables: Tables) {
    info.flag.Imported? && info.externalId != -1 && info.key in tables
  }

  ghost predicate AllAcked(infos: seq<TableInfo>, tables: Tables) {
    forall i :: 0 <= i < |infos| && Awaited(infos[i], tables) ==> infos[i].acked
  }

  ghost function DoPeriodic(s: State, now: nat): State {
    if Late(s, now) then (if s.gotMsg then CommunicationError(s) else s)
    else s.(gotMsg := true, synced := AllAcked(s.infos, s.tables))
  }

  ghost function Next(s: State, step: Step): State {
    match step
    case Data(index, entry, size) => DoData(s, index, entry, size)
    case KeepAlive(now) => s.(lastAck := now)
    case Periodic(now) => DoPeriodic(s, now)
  }

  ghost function After(s: State, steps: seq<Step>): State {
    if steps == [] then s else Next(After(s, steps[..|steps| - 1]), steps[|steps| - 1])
  }

  /** Imported tables start out unacknowledged, and the agent out of sync. */
  ghost predicate Initial(s: State) {
    && (forall i :: 0 <= i < |s.infos| && s.infos[i].flag.Imported? ==> !s.infos[i].acked)
    && !s.synced && s.heard == {}
  }

  ghost predicate Inv(s: State) {
    && (forall i :: 0 <= i < |s.infos| && s.infos[i].flag.Imported? && s.infos[i].acked ==> s.infos[i].key in s.heard)
    && (s.synced ==> AllAcked(s.infos, s.tables))
  }

  /** Only acknowledgements change. */
  ghost predicate SameTables(s: State, t: State) {
    && |t.infos| == |s.infos| && t.tables == s.tables
    && forall i :: 0 <= i < |s.infos| ==> t.infos[i] == s.infos[i].(acked := t.infos[i].acked)
  }

  lemma StepKeepsInv(s: State, step: Step)
    requires Inv(s)
    ensures Inv(Next(s, step)) && SameTables(s, Next(s, step))
  {
  }

  lemma {:induction false} AfterKeepsInv(s: State, steps: seq<Step>)
    requires Initial(s)
    ensures Inv(After(s, steps)) && SameTables(s, After(s, steps))
    decreases |steps|
  {
    if steps != [] {
      AfterKeepsInv(s, steps[..|steps| - 1]);
      StepKeepsInv(After(s, steps[..|steps| - 1]), steps[|steps| - 1]);
    }
  }

  /** After any sequence of messages and periods: if the agent says its data is in sync, then every
      imported table with an external id has had a data message since the last error. */
  lemma SyncedMeansHeard(s: State, steps: seq<Step>, i: nat)
    requires Initial(s) && After(s, steps).synced && i < |s.infos| && Awaited(s.infos[i], s.tables)
    ensures s.infos[i].key in After(s, steps).heard
  {
    AfterKeepsInv(s, steps);
    var t := After(s, steps);
    assert Awaited(t.infos[i], t.tables) && t.infos[i].acked;
  }

  /** The position after the last communication error. */
  ghost function LastError(s: State, steps: seq<Step>): (r: nat)
    ensures r <= |steps|
  {
    if steps == [] then 0
    else
      var n := |steps| - 1;
      var t := After(s, steps[..n]);
      if steps[n].Periodic? && Late(t, steps[n].now) && t.gotMsg then n + 1 else LastError(s, steps[..n])
  }

  /** `heard` is what it claims to be: some message since then has been processed for that table. */
  lemma {:induction false} HeardHasWitness(s: State, steps: seq<Step>, key: nat) returns (j: nat)
    requires s.heard == {} && key in After(s, steps).heard
    ensures LastError(s, steps) <= j < |steps| && steps[j].Data?
    ensures var t, m := After(s, steps[..j]), steps[j];
      Processed(t, m.index, m.entry, m.size) && t.infos[FirstMatch(t.infos, m.index, 0)].key == key
    decreases |steps|
  {
    var n := |steps| - 1;
    var t := After(s, steps[..n]);
    if key in t.heard {
      j := HeardHasWitness(s, steps[..n], key);
      assert steps[..n][..j] == steps[..j];
    } else {
      j := n;
      assert LastError(s, steps[..n]) <= n;
    }
  }

  // ---------------------------------------------------------------------------
  // The object
  // ---------------------------------------------------------------------------

  class RemoteAgent {
    var infos: seq<TableInfo>
    const tables: Tables
    var synced: bool
    var gotMsg: bool
    var lastAck: nat
    var requests: seq<int>      // external ids for which registration messages have been sent
    ghost var heard: set<nat>

    ghost function View(): State
      reads this
    {
      State(infos, tables, synced, gotMsg, lastAck, heard)
    }

    /** The map's keys are distinct. */
    ghost predicate Valid()
      reads this
    {
      forall i, j :: 0 <= i < j < |infos| ==> infos[i].key != infos[j].key
    }

    constructor (infos: seq<TableInfo>, tables: Tables)
      requires forall i, j :: 0 <= i < j < |infos| ==> infos[i].key != infos[j].key
      requires forall i :: 0 <= i < |infos| && infos[i].flag.Imported? ==> !infos[i].acked
      ensures Valid() && Initial(View()) && this.infos == infos && this.tables == tables && !gotMsg && requests == []
    {
      this.infos, this.tables := infos, tables;
      synced, gotMsg, lastAck, requests, heard := false, false, 0, [], {};
    }

    /** `thrown` stands for the exception of a write that the row does not take. */
    method HandleSingleDataValue(index: nat, entry: nat, size: nat) returns (thrown: bool)
      requires Valid()
      modifies this`infos, this`heard
      ensures Valid() && View() == DoData(old(View()), index, entry, size)
      ensures thrown ==> View() == old(View())
    {
      thrown := false;
      var itr := 0;
      while itr < |infos| && infos[itr].externalId % TwoTo32 != index
        invariant 0 <= itr <= |infos|
        invariant FirstMatch(infos, index, 0) == FirstMatch(infos, index, itr)
      {
        itr := itr + 1;
      }
      if itr == |infos| || infos[itr].key !in tables || entry !in tables[infos[itr].key] {
        return;
      }
      if !Takes(tables[infos[itr].key][entry], size) {
        return true;
      }
      heard := heard + {infos[itr].key};
      if infos[itr].flag.Imported? {
        infos := infos[itr := infos[itr].(acked := true)];
      }
    }

    method FindInfo(key: nat) returns (i: nat)
      ensures i <= |infos| && (i < |infos| ==> infos[i].key == key)
      ensures i == |infos| ==> forall j :: 0 <= j < |infos| ==> infos[j].key != key
    {
      i := 0;
      while i < |infos| && infos[i].key != key
        invariant 0 <= i <= |infos|
        invariant forall j :: 0 <= j < i ==> infos[j].key != key
      {
        i := i + 1;
      }
    }

    /** Asks again for every table that is still awaited; `order` is how the data set lists its tables. */
    method SendRegistrationRequests(order: seq<nat>)
      requires Valid() && forall key :: key in order <==> key in tables
      modifies this`synced, this`requests
      ensures View() == old(View()).(synced := AllAcked(infos, tables))
      ensures old(requests) <= requests
      ensures forall i :: 0 <= i < |infos| && Awaited(infos[i], tables) && !infos[i].acked ==> infos[i].externalId in requests[|old(requests)|..]
    {
      var isInsync := true;
      ghost var before := requests;
      for t := 0 to |order|
        invariant before <= requests && (isInsync ==> requests == before)
        invariant forall i :: 0 <= i < |infos| && Awaited(infos[i], tables) && infos[i].key in order[..t] && !infos[i].acked ==>
                    !isInsync && infos[i].externalId in requests[|before|..]
        invariant !isInsync ==> exists i :: 0 <= i < |infos| && Awaited(infos[i], tables) && !infos[i].acked
      {
        var i := FindInfo(order[t]);
        ghost var was := requests;
        if i < |infos| && infos[i].flag.Imported? && infos[i].externalId != -1 && !infos[i].acked {
          isInsync := false;
          requests := requests + [infos[i].externalId];
          assert Awaited(infos[i], tables);
          assert requests[|before|..] == was[|before|..] + [infos[i].externalId];
        }
      }
      synced := isInsync;
    }

    method HandleRemoteAgentCommunicationError()
      requires Valid()
      modifies this`infos, this`gotMsg, this`synced, this`heard
      ensures Valid() && View() == CommunicationError(old(View()))
    {
      gotMsg := false;
      for itr := 0 to |infos|
        invariant |infos| == |old(infos)| && !gotMsg
        invariant forall j :: 0 <= j < |infos| ==> infos[j] == if j < itr then Unacked(old(infos))[j] else old(infos)[j]
      {
        if infos[itr].flag.Imported? {
          infos := infos[itr := infos[itr].(acked := false)];
        }
      }
      assert infos == Unacked(old(infos));
      synced := false;
      heard := {};
    }

    method PeriodicRemoteAgentDataCollection(now: nat, order: seq<nat>)
      requires Valid() && forall key :: key in order <==> key in tables
      modifies this
      ensures Valid() && View() == DoPeriodic(old(View()), now)
    {
      if (now - lastAck) % TwoTo32 > FailureTimeout {
        if gotMsg {
          HandleRemoteAgentCommunicationError();
        }
      } else {
        gotMsg := true;
        SendRegistrationRequests(order);
      }
    }
  }
}
