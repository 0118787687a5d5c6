/** The action service: each call reads, validates and writes through the repository. */
module ActionServices {
  import opened Base
  import opened Actions
  import opened ActionStore
  import opened ActionRepositories
  import opened CallContracts
  import opened DeadLetters
  import opened Executors
  import opened Indexes
  import opened Planner
  import opened RollbackRecords
  import opened SideEffects
  import SideEffectLedger
  import opened Sorting
  import RollbackRecordRepositories

  /** The world as a call sees it when the executor plays no part. */
  function AtTime(now: Timestamp): Env {
    Env(now, ExecutionResult(true, None, now))
  }

  /** The world when the shipped executor answers for the stored action. */
  function ShippedEnv(store: Store, id: Uuid, ledger: Option<Ledger>, now: Timestamp): Env {
    if id in store then Env(now, ShippedExecution(ledger, store[id], now)) else AtTime(now)
  }

  /** The store after creating each action of `plan` in turn. */
  function Created(store: Store, plan: seq<Action>): Store {
    if plan == [] then store
    else Created(store, plan[..|plan| - 1])[plan[|plan| - 1].id := plan[|plan| - 1]]
  }

  function PendingOf(t: Uuid): Action -> bool { OfStatus(t, Pending) }
  function Executable(): Action -> bool { (a: Action) => IsServiceExecutable(a) }
  function Reapprovable(): Action -> bool { (a: Action) => CanBeReapproved(a) }
  function Dead(): Action -> bool { (a: Action) => IsDlqCandidate(a) }
  function ExecutableOf(t: Uuid): Action -> bool {
    (a: Action) => a.tenantId == t && a.status == Approved && IsServiceExecutable(a)
  }
  function ReapprovableOf(t: Uuid): Action -> bool { (a: Action) => a.tenantId == t && CanBeReapproved(a) }
  function DeadOf(t: Uuid): Action -> bool { (a: Action) => a.tenantId == t && IsDlqCandidate(a) }

  /** Some queue has work or a verdict for the action. */
  predicate Queued(a: Action) {
    a.status == Pending || (a.status == Approved && IsServiceExecutable(a)) || a.status == Failed
  }

  datatype BatchCandidates = BatchCandidates(
    pendingApproval: seq<Action>,
    approvedExecutable: seq<Action>,
    retryableFailed: seq<Action>,
    dlq: seq<Action>)

  class ActionService {
    const repo: ActionRepository
    const sideEffects: SideEffectLedger.SideEffectRepository?
    const records: RollbackRecordRepositories.RollbackRecordRepository?

    constructor (repo: ActionRepository, sideEffects: SideEffectLedger.SideEffectRepository?,
                 records: RollbackRecordRepositories.RollbackRecordRepository?)
      ensures this.repo == repo && this.sideEffects == sideEffects && this.records == records
    {
      this.repo, this.sideEffects, this.records := repo, sideEffects, records;
    }

    ghost function Footprint(): set<object> {
      {repo} + (if records == null then {} else {records})
    }

    ghost predicate Valid()
      reads repo, sideEffects, records
    {
      repo.Valid() && (sideEffects != null ==> sideEffects.Valid()) && (records != null ==> records.Valid())
    }

    function LedgerView(): Option<Ledger>
      reads sideEffects
    {
      if sideEffects == null then None else Some(sideEffects.effects)
    }

    ghost predicate UnusedRecordId(id: Uuid)
      reads records
    {
      records != null ==> id !in records.records
    }

    /** The rollback records gained `record`, or nothing. */
    twostate predicate RecordsGained(record: Option<RollbackRecord>)
      reads records
    {
      records != null ==>
        records.records ==
        if record.Some? then old(records.records)[record.value.id := record.value] else old(records.records)
    }

    /** Best-effort record writing: without a record repository nothing happens. */
    method LeaveRecord(record: RollbackRecord)
      requires Valid() && UnusedRecordId(record.id)
      modifies records
      ensures Valid() && RecordsGained(Some(record))
    {
      if records != null {
        var _ := records.Create(record);
      }
    }

    method ApproveAction(id: Uuid, token: int, actor: Option<string>, now: Timestamp) returns (r: Result<Action>)
      requires Valid()
      modifies repo
      ensures Valid()
      ensures Outcome(repo.actions, r) == Perform(old(repo.actions), id, ApproveCall(token, actor), AtTime(now))
    {
      var got := repo.Get(id);
      if got.Err? {
        return got;
      }
      if !CanTransitionTo(got.value.status, Approved) {
        return Err(InvalidTransition(got.value.status, Approved));
      }
      r := repo.UpdateStatus(id, Approved, token, actor, None, now);
    }

    /** A waiver leaves one rollback record behind, and only when it succeeds. */
    method WaiveAction(id: Uuid, token: int, actor: Option<string>, now: Timestamp, recordId: Uuid)
      returns (r: Result<Action>)
      requires Valid() && UnusedRecordId(recordId)
      modifies Footprint()
      ensures Valid()
      ensures Outcome(repo.actions, r) == Perform(old(repo.actions), id, WaiveCall(token, actor), AtTime(now))
      ensures RecordsGained(
        if r.Ok?
        then Some(RecordFor(recordId, old(repo.actions)[id], WaiveCall(token, actor), AtTime(now).result, now))
        else None)
    {
      var got := repo.Get(id);
      if got.Err? {
        return got;
      }
      var action := got.value;
      if !CanTransitionTo(action.status, Waived) {
        return Err(InvalidTransition(action.status, Waived));
      }
      r := repo.UpdateStatus(id, Waived, token, None, actor, now);
      if r.Ok? {
        LeaveRecord(RecordFor(recordId, action, WaiveCall(token, actor), AtTime(now).result, now));
      }
    }

    /** The call with its executor's answer given: gate, record under the snapshot's version, leave a record. */
    method ExecuteWith(id: Uuid, actor: Option<string>, result: ExecutionResult, now: Timestamp, recordId: Uuid)
      returns (r: Result<Action>)
      requires Valid() && UnusedRecordId(recordId)
      modifies Footprint()
      ensures Valid()
      ensures Outcome(repo.actions, r) == Perform(old(repo.actions), id, ExecuteCall(actor), Env(now, result))
      ensures RecordsGained(
        if r.Ok? then Some(RecordFor(recordId, old(repo.actions)[id], ExecuteCall(actor), result, now)) else None)
    {
      var got := repo.Get(id);
      if got.Err? {
        return got;
      }
      var action := got.value;
      if action.status != Approved {
        return Err(NotExecutable(id));
      }
      if !IsServiceExecutable(action) {
        return Err(NotExecutable(id));
      }
      var token := action.lockVersion;
      r := repo.RecordResult(id, result, token, actor);
      if r.Ok? {
        LeaveRecord(RecordFor(recordId, action, ExecuteCall(actor), result, now));
      }
    }

    /** Executes with the shipped executors, whose answer depends on nothing the gates could change. */
    method ExecuteAction(id: Uuid, actor: Option<string>, now: Timestamp, recordId: Uuid) returns (r: Result<Action>)
      requires Valid() && UnusedRecordId(recordId)
      modifies Footprint()
      ensures Valid()
      ensures var env := ShippedEnv(old(repo.actions), id, old(LedgerView()), now);
        && Outcome(repo.actions, r) == Perform(old(repo.actions), id, ExecuteCall(actor), env)
        && RecordsGained(
             if r.Ok? then Some(RecordFor(recordId, old(repo.actions)[id], ExecuteCall(actor), env.result, now))
             else None)
    {
      var env := ShippedEnv(repo.actions, id, LedgerView(), now);
      r := ExecuteWith(id, actor, env.result, now, recordId);
    }

    method ReapproveAction(id: Uuid, token: int) returns (r: Result<Action>)
      requires Valid()
      modifies repo
      ensures Valid()
      ensures forall env :: Outcome(repo.actions, r) == Perform(old(repo.actions), id, ReapproveCall(token), env)
    {
      var got := repo.Get(id);
      if got.Err? {
        return got;
      }
      var action := got.value;
      if action.status != Failed {
        return Err(InvalidTransition(action.status, Pending));
      }
      if action.attemptCount >= action.maxRetries {
        return Err(NotReapprovable(id));
      }
      if ReapprovalDenied(action) {
        return Err(NotReapprovable(id));
      }
      r := repo.Reapprove(id, token);
    }

    /** Plans an intent from the ledger and stores the plan, one action after the other. */
    method PlanCompensationActions(intentId: Uuid, tenantId: Uuid, context: RebaseContext, freshId: nat -> Uuid,
                                   clock: nat -> Timestamp) returns (r: Result<seq<Action>>)
      requires Valid()
      requires Injective(freshId) && forall i :: freshId(i) !in repo.actions
      modifies repo
      ensures Valid()
      ensures sideEffects == null ==> r == Err(Internal) && repo.actions == old(repo.actions)
      ensures sideEffects != null ==>
        var effects := NewestFirst(Filter(Filter(sideEffects.history, SideEffectLedger.OfIntent(intentId)),
                                          SideEffectLedger.OfTenant(tenantId)), SideEffectLedger.OccurredAt);
        && r == Ok(PlanFromSideEffects(context, effects, tenantId, freshId, clock))
        && repo.actions == Created(old(repo.actions), r.value)
    {
      if sideEffects == null {
        return Err(Internal);
      }
      var effects := sideEffects.ListByIntent(intentId, tenantId);
      var generated := PlanFromSideEffects(context, effects, tenantId, freshId, clock);
      PlanCoversEffects(context, effects, tenantId, freshId, clock);
      var persisted := CreateAll(generated);
      r := Ok(persisted);
    }

    method CreateAll(generated: seq<Action>) returns (persisted: seq<Action>)
      requires Valid()
      requires forall i :: 0 <= i < |generated| ==> generated[i].id !in repo.actions
      requires forall i, j :: 0 <= i < j < |generated| ==> generated[i].id != generated[j].id
      modifies repo
      ensures Valid()
      ensures persisted == generated && repo.actions == Created(old(repo.actions), generated)
    {
      persisted := [];
      for i := 0 to |generated|
        invariant Valid()
        invariant persisted == generated[..i]
        invariant repo.actions == Created(old(repo.actions), generated[..i])
        invariant forall k :: i <= k < |generated| ==> generated[k].id !in repo.actions
      {
        assert generated[..i + 1][..i] == generated[..i];
        var created := repo.Create(generated[i]);
        persisted := persisted + [created.value];
      }
      assert generated[..|generated|] == generated;
    }

    method ListDlqCandidates(tenantId: Uuid) returns (rows: seq<Action>)
      requires Valid()
      ensures IsScan(rows, repo.actions, IdOf, DeadOf(tenantId))
      ensures Distinct(rows)
      ensures forall a :: a in rows <==>
        && a.id in repo.actions && repo.actions[a.id] == a && a.tenantId == tenantId
        && a.status == Failed && (a.attemptCount >= a.maxRetries || !MayPass(a))
    {
      var failed := repo.ListByStatus(tenantId, Failed);
      FilterKeepsScan(failed, repo.actions, IdOf, OfStatus(tenantId, Failed), Dead(), DeadOf(tenantId));
      rows := Filter(failed, Dead());
      forall a: Action { RetryPolicyTells(a); }
    }

    /** The four queues partition the tenant's pending, executable approved and failed actions. */
    method ListBatchCandidates(tenantId: Uuid) returns (c: BatchCandidates)
      requires Valid()
      ensures IsScan(c.pendingApproval, repo.actions, IdOf, PendingOf(tenantId))
      ensures IsScan(c.approvedExecutable, repo.actions, IdOf, ExecutableOf(tenantId))
      ensures IsScan(c.retryableFailed, repo.actions, IdOf, ReapprovableOf(tenantId))
      ensures IsScan(c.dlq, repo.actions, IdOf, DeadOf(tenantId))
      ensures var all := c.pendingApproval + c.approvedExecutable + c.retryableFailed + c.dlq;
        && Distinct(all)
        && forall a :: a in all <==>
          a.id in repo.actions && repo.actions[a.id] == a && a.tenantId == tenantId && Queued(a)
    {
      var pending := repo.ListByStatus(tenantId, Pending);
      var approved := repo.ListByStatus(tenantId, Approved);
      var failed := repo.ListByStatus(tenantId, Failed);
      FilterKeepsScan(approved, repo.actions, IdOf, OfStatus(tenantId, Approved), Executable(), ExecutableOf(tenantId));
      FilterKeepsScan(failed, repo.actions, IdOf, OfStatus(tenantId, Failed), Reapprovable(), ReapprovableOf(tenantId));
      FilterKeepsScan(failed, repo.actions, IdOf, OfStatus(tenantId, Failed), Dead(), DeadOf(tenantId));
      c := BatchCandidates(pending, Filter(approved, Executable()), Filter(failed, Reapprovable()),
                           Filter(failed, Dead()));
      QueuesPartition(c, repo.actions, tenantId);
    }
  }

  lemma QueuesPartition(c: BatchCandidates, store: Store, tenantId: Uuid)
    requires IsScan(c.pendingApproval, store, IdOf, PendingOf(tenantId))
    requires IsScan(c.approvedExecutable, store, IdOf, ExecutableOf(tenantId))
    requires IsScan(c.retryableFailed, store, IdOf, ReapprovableOf(tenantId))
    requires IsScan(c.dlq, store, IdOf, DeadOf(tenantId))
    ensures var all := c.pendingApproval + c.approvedExecutable + c.retryableFailed + c.dlq;
      && Distinct(all)
      && forall a :: a in all <==> a.id in store && store[a.id] == a && a.tenantId == tenantId && Queued(a)
  {
    forall a: Action { FailedIsReapprovableOrDead(a); }
    DistinctConcat(c.pendingApproval, c.approvedExecutable);
    DistinctConcat(c.pendingApproval + c.approvedExecutable, c.retryableFailed);
    DistinctConcat(c.pendingApproval + c.approvedExecutable + c.retryableFailed, c.dlq);
  }

  lemma DistinctConcat<T>(s: seq<T>, t: seq<T>)
    requires Distinct(s) && Distinct(t) && forall x :: x in s ==> x !in t
    ensures Distinct(s + t)
  {
    forall i, j | 0 <= i < j < |s + t| ensures (s + t)[i] != (s + t)[j] {
      if i < |s| <= j {
        assert (s + t)[i] in s && (s + t)[j] in t;
      }
    }
  }
}
