/**
 What a remote agent's flags say about the messages and periods there have been.
 */
module RemoteAgentRuns {
  import opened RemoteAgentSync

  /** The map's keys are distinct. */
  ghost predicate DistinctKeys(infos: seq<TableInfo>) {
    forall i, j :: 0 <= i < j < |infos| ==> infos[i].key != infos[j].key
  }

  /** Message `j` has been processed, for the table with this key. */
  ghost predicate HeardAt(s: State, steps: seq<Step>, key: nat, j: nat) {
    && j < |steps| && steps[j].Data?
    && var t, m := After(s, steps[..j]), steps[j];
       && Processed(t, m.index, m.entry, m.size)
       && t.infos[FirstMatch(t.infos, m.index, 0)].key == key
  }

  /** Some message since the last error has been. */
  ghost predicate HeardSinceError(s: State, steps: seq<Step>, key: nat) {
    exists j: nat :: LastError(s, steps) <= j && HeardAt(s, steps, key, j)
  }

  /** An imported table is acknowledged exactly if it has been heard of. */
  ghost predicate AckedIffHeard(s: State) {
    forall i :: 0 <= i < |s.infos| && s.infos[i].flag.Imported? ==> (s.infos[i].acked <==> s.infos[i].key in s.heard)
  }

  lemma StepKeepsAcks(s: State, step: Step)
    requires DistinctKeys(s.infos) && AckedIffHeard(s)
    ensures DistinctKeys(Next(s, step).infos) && AckedIffHeard(Next(s, step))
  {
    match step
    case Data(index, entry, size) =>
      var i := FirstMatch(s.infos, index, 0);
      if Processed(s, index, entry, size) && s.infos[i].flag.Imported? {
        forall j | 0 <= j < |s.infos| ensures s.infos[j].key == s.infos[i].key <==> i == j {
        }
      }
    case KeepAlive(_) =>
    case Periodic(_) =>
  }

  lemma {:induction false} AfterKeepsAcks(s: State, steps: seq<Step>)
    requires Initial(s) && DistinctKeys(s.infos)
    ensures DistinctKeys(After(s, steps).infos) && AckedIffHeard(After(s, steps))
    decreases |steps|
  {
    if steps != [] {
      AfterKeepsAcks(s, steps[..|steps| - 1]);
      StepKeepsAcks(After(s, steps[..|steps| - 1]), steps[|steps| - 1]);
    }
  }

  lemma StepHears(s: State, step: Step, key: nat)
    ensures key in Next(s, step).heard <==>
      if step.Periodic? && Late(s, step.now) && s.gotMsg then false
      else key in s.heard || (step.Data? && Processed(s, step.index, step.entry, step.size) && s.infos[FirstMatch(s.infos, step.index, 0)].key == key)
  {
  }

  lemma {:induction false} HeardIfMessage(s: State, steps: seq<Step>, key: nat, j: nat)
    requires LastError(s, steps) <= j && HeardAt(s, steps, key, j)
    ensures key in After(s, steps).heard
    decreases |steps|
  {
    var n := |steps| - 1;
    var before := steps[..n];
    StepHears(After(s, before), steps[n], key);
    if j < n {
      assert before[..j] == steps[..j] && before[j] == steps[j];
      assert HeardAt(s, before, key, j);
      HeardIfMessage(s, before, key, j);
    } else {
      assert steps[..j] == before;
    }
  }

  /** A table counts as heard of exactly if a message has been processed for it since the last communication
      error, and an imported one is acknowledged exactly then. */
  lemma AckedIffMessage(s: State, steps: seq<Step>, i: nat)
    requires Initial(s) && DistinctKeys(s.infos) && i < |s.infos| && s.infos[i].flag.Imported?
    ensures i < |After(s, steps).infos| && After(s, steps).infos[i].key == s.infos[i].key
    ensures After(s, steps).infos[i].acked <==> HeardSinceError(s, steps, s.infos[i].key)
  {
    AfterKeepsInv(s, steps);
    AfterKeepsAcks(s, steps);
    var key := s.infos[i].key;
    if key in After(s, steps).heard {
      var j := HeardHasWitness(s, steps, key);
      assert HeardAt(s, steps, key, j);
    }
    if HeardSinceError(s, steps, key) {
      var j: nat :| LastError(s, steps) <= j && HeardAt(s, steps, key, j);
      HeardIfMessage(s, steps, key, j);
    }
  }

  /** At the end of a period that was on time the agent says that its data is in sync exactly if a message has been
      processed, since the last communication error, for each imported table with an external id. */
  lemma SyncedIffAllHeard(s: State, steps: seq<Step>, now: nat)
    requires Initial(s) && DistinctKeys(s.infos) && !Late(After(s, steps), now)
    ensures After(s, steps + [Periodic(now)]).synced <==>
      forall i :: 0 <= i < |s.infos| && Awaited(s.infos[i], s.tables) ==> HeardSinceError(s, steps, s.infos[i].key)
  {
    var all, t := steps + [Periodic(now)], After(s, steps);
    assert all[..|all| - 1] == steps;
    AfterKeepsInv(s, steps);
    forall i | 0 <= i < |s.infos| && Awaited(s.infos[i], s.tables)
      ensures Awaited(t.infos[i], t.tables) && (t.infos[i].acked <==> HeardSinceError(s, steps, s.infos[i].key))
    {
      AckedIffMessage(s, steps, i);
    }
    forall i | 0 <= i < |s.infos| ensures Awaited(t.infos[i], t.tables) <==> Awaited(s.infos[i], s.tables) {
    }
  }

  /** When the last keep-alive message came, or the time the agent started with. */
  function LastKeepAlive(start: nat, steps: seq<Step>): nat {
    if steps == [] then start
    else
      var n := |steps| - 1;
      if steps[n].KeepAlive? then steps[n].now else LastKeepAlive(start, steps[..n])
  }

  lemma {:induction false} LastAckIsLastKeepAlive(s: State, steps: seq<Step>)
    ensures After(s, steps).lastAck == LastKeepAlive(s.lastAck, steps)
    decreases |steps|
  {
    if steps != [] {
      LastAckIsLastKeepAlive(s, steps[..|steps| - 1]);
    }
  }

  /** After a period the other agent counts as up exactly if its last keep-alive message was recent enough; and
      if it was not, the agent is out of sync, all imported tables being unacknowledged, unless it had not been
      up since the last such error. */
  lemma UpIffRecentKeepAlive(s: State, steps: seq<Step>, now: nat)
    ensures var t, u := After(s, steps), After(s, steps + [Periodic(now)]);
      var late := (now - LastKeepAlive(s.lastAck, steps)) % TwoTo32 > FailureTimeout;
      && (u.gotMsg <==> !late)
      && (late && t.gotMsg ==> !u.synced && u.heard == {} && forall i :: 0 <= i < |u.infos| && u.infos[i].flag.Imported? ==> !u.infos[i].acked)
  {
    var all := steps + [Periodic(now)];
    assert all[..|all| - 1] == steps;
    LastAckIsLastKeepAlive(s, steps);
  }
}
