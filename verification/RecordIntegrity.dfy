/** Referential integrity of the rollback records over every interleaving. */
module RecordIntegrity {
  import opened Base
  import opened Actions
  import opened ActionStore
  import opened RollbackRecords
  import opened Protocol
  import opened History
  import opened Linearization

  /** A record names a stored action, carries its tenant, effect and intent, and an error code exactly for a failure. */
  predicate Matches(r: RollbackRecord, store: Store) {
    && r.actionId in store
    && r.tenantId == store[r.actionId].tenantId
    && r.sideEffectId == store[r.actionId].sideEffectId
    && r.intentId == store[r.actionId].intentId
    && (r.errorCode.Some? <==> r.kind == FailureRecord)
  }

  predicate KeepsIdentity(a: Action, store: Store) {
    a.id in store && SameIdentity(a, store[a.id])
  }

  predicate RecordsMatch(s: State) {
    && (forall i :: 0 <= i < |s.records| ==> Matches(s.records[i], s.store))
    && (forall c :: c in s.clients && s.clients[c].Recording? ==> KeepsIdentity(s.clients[c].snapshot, s.store))
  }

  lemma CasKeepsIdentity(store: Store, id: Uuid, w: Write, token: int, other: Uuid)
    requires other in store
    ensures other in Cas(store, id, w, token).store && SameIdentity(store[other], Cas(store, id, w, token).store[other])
  {
    ApplyFrame(store[other], w);
  }

  /** No step removes an action or changes what it is for. */
  lemma StepKeepsIdentity(s: State, step: Step, id: Uuid)
    requires Enabled(s, step) && id in s.store
    ensures id in Next(s, step).store && SameIdentity(s.store[id], Next(s, step).store[id])
  {
    match step
    case TryCommit(c, env) =>
      var client := s.clients[c];
      CasKeepsIdentity(s.store, client.id, WriteOf(client.call, env), TokenOf(client.call, client.snapshot), id);
    case RawWrite(i, w, token) =>
      CasKeepsIdentity(s.store, i, w, token, id);
    case _ =>
  }

  lemma CommitKeepsIdentity(s: State, c: nat, env: Env)
    requires Inv(s) && Enabled(s, TryCommit(c, env))
    ensures var t := Next(s, TryCommit(c, env));
      c in t.clients ==> t.clients[c].Recording? && KeepsIdentity(t.clients[c].snapshot, t.store)
  {
    var client := s.clients[c];
    assert ClientOk(s.log, s.shown, client);
    if Cas(s.store, client.id, WriteOf(client.call, env), TokenOf(client.call, client.snapshot)).result.Ok? {
      TwoPhasesAreOne(s.log, s.store, client.seenAt, client.id, client.call, env, client.snapshot);
      CurrentKey(s.log, client.id);
    }
  }

  lemma StepKeepsMatch(s: State, step: Step)
    requires Inv(s) && Enabled(s, step) && RecordsMatch(s)
    ensures RecordsMatch(Next(s, step))
  {
    var t := Next(s, step);
    forall id | id in s.store ensures id in t.store && SameIdentity(s.store[id], t.store[id]) {
      StepKeepsIdentity(s, step, id);
    }
    if step.TryCommit? {
      CommitKeepsIdentity(s, step.c, step.env);
    }
  }

  /** Every record ever written matches its action, and always will. */
  lemma {:induction false} RecordsAlwaysMatch(steps: seq<Step>)
    requires IsRun(steps)
    ensures RecordsMatch(Reached(steps))
  {
    if steps != [] {
      RecordsAlwaysMatch(steps[..|steps| - 1]);
      RunKeepsInv(steps[..|steps| - 1]);
      StepKeepsMatch(Reached(steps[..|steps| - 1]), steps[|steps| - 1]);
    }
  }

  // ----- Each record tells the call it was written for -----

  /** The record of a committed waiver or execution, field by field. */
  predicate Describes(r: RollbackRecord, e: Event) {
    && e.Commit? && (e.call.WaiveCall? || e.call.ExecuteCall?)
    && r.actionId == e.snapshot.id && r.tenantId == e.snapshot.tenantId
    && r.sideEffectId == e.snapshot.sideEffectId && r.intentId == e.snapshot.intentId
    && r.recordedBy == e.call.actor
    && (if e.call.WaiveCall? then r.kind == WaivedRecord && r.errorCode == None
        else if e.env.result.success then r.kind == SuccessRecord && r.errorCode == None
        else
          && r.kind == FailureRecord
          && (e.env.result.errorCode.Some? ==> r.errorCode == e.env.result.errorCode)
          && (e.env.result.errorCode.None? ==> r.errorCode == Some("UNKNOWN_ERROR")))
  }

  predicate Described(r: RollbackRecord, log: seq<Event>) {
    exists j :: 0 <= j < |log| && Describes(r, log[j])
  }

  /** The client has committed the call it is about to write a record for. */
  predicate Committed(client: Client, log: seq<Event>)
    requires client.Recording?
  {
    exists j :: 0 <= j < |log| && log[j].Commit?
                && log[j].call == client.call && log[j].env == client.env && log[j].snapshot == client.snapshot
  }

  predicate RecordsTell(s: State) {
    && (forall i :: 0 <= i < |s.records| ==> Described(s.records[i], s.log))
    && (forall c :: c in s.clients && s.clients[c].Recording? ==> Committed(s.clients[c], s.log))
  }

  lemma DescribedLater(r: RollbackRecord, log: seq<Event>, more: seq<Event>)
    requires Described(r, log)
    ensures Described(r, log + more)
  {
    var j :| 0 <= j < |log| && Describes(r, log[j]);
    assert (log + more)[j] == log[j];
  }

  lemma CommittedLater(client: Client, log: seq<Event>, more: seq<Event>)
    requires client.Recording? && Committed(client, log)
    ensures Committed(client, log + more)
  {
    var j :| 0 <= j < |log| && log[j].Commit?
             && log[j].call == client.call && log[j].env == client.env && log[j].snapshot == client.snapshot;
    assert (log + more)[j] == log[j];
  }

  lemma LogOnlyGrows(s: State, step: Step)
    requires Enabled(s, step)
    ensures |s.log| <= |Next(s, step).log| && Next(s, step).log[..|s.log|] == s.log
  {
  }

  lemma NewRecordIsDescribed(s: State, c: nat, recordId: Uuid, at: Timestamp)
    requires RecordsTell(s) && Enabled(s, WriteRecord(c, recordId, at))
    ensures var t := Next(s, WriteRecord(c, recordId, at));
      Described(t.records[|s.records|], s.log) && t.records[|s.records|].recordedAt == at
  {
    var client := s.clients[c];
    var j :| 0 <= j < |s.log| && s.log[j].Commit?
             && s.log[j].call == client.call && s.log[j].env == client.env && s.log[j].snapshot == client.snapshot;
    assert Describes(RecordFor(recordId, client.snapshot, client.call, client.env.result, at), s.log[j]);
  }

  lemma NewRecordingIsCommitted(s: State, c: nat, env: Env)
    requires Enabled(s, TryCommit(c, env))
    ensures var t := Next(s, TryCommit(c, env));
      c in t.clients ==> t.clients[c].Recording? && Committed(t.clients[c], t.log)
  {
    var t := Next(s, TryCommit(c, env));
    if c in t.clients {
      assert t.log[|s.log|].Commit?;
    }
  }

  lemma StepKeepsTelling(s: State, step: Step)
    requires Enabled(s, step) && RecordsTell(s)
    ensures RecordsTell(Next(s, step))
  {
    var t := Next(s, step);
    LogOnlyGrows(s, step);
    var more := t.log[|s.log|..];
    assert t.log == s.log + more;
    forall i | 0 <= i < |s.records| ensures Described(s.records[i], t.log) {
      DescribedLater(s.records[i], s.log, more);
    }
    forall c | c in s.clients && s.clients[c].Recording? ensures Committed(s.clients[c], t.log) {
      CommittedLater(s.clients[c], s.log, more);
    }
    if step.WriteRecord? {
      NewRecordIsDescribed(s, step.c, step.recordId, step.at);
    } else if step.TryCommit? {
      NewRecordingIsCommitted(s, step.c, step.env);
    }
  }

  /** Over every interleaving, each record tells kind, code and actor of a call that was committed on its action. */
  lemma {:induction false} RecordsAlwaysTell(steps: seq<Step>)
    requires IsRun(steps)
    ensures RecordsTell(Reached(steps))
  {
    if steps != [] {
      RecordsAlwaysTell(steps[..|steps| - 1]);
      StepKeepsTelling(Reached(steps[..|steps| - 1]), steps[|steps| - 1]);
    }
  }

  /** The record as the service builds it, with the identifier and the time it is given. */
  lemma RecordTells(id: Uuid, snapshot: Action, call: Call, env: Env, at: Timestamp, seenAt: nat)
    requires KindOf(call, env.result).Some?
    ensures var r := RecordFor(id, snapshot, call, env.result, at);
      r.id == id && r.recordedAt == at && Describes(r, Commit(call, env, seenAt, snapshot, snapshot, snapshot))
  {
  }
}
