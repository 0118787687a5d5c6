/** Dry runs and batch commands over explicit identifier lists. */
module Orchestration {
  import opened Base
  import opened Actions
  import opened ActionStore
  import opened ActionServices
  import opened CallContracts
  import opened Executors
  import opened PassRecords
  import opened Planner
  import opened RollbackRecords
  import opened SideEffects
  import opened Sweeps

  // ----- Proposals -----

  datatype Proposal = ProposeApprove | ProposeReapprove | ProposeExecute | NoAction

  function ComputeProposal(a: Action): Proposal {
    match a.status
    case Pending => if CanTransitionTo(a.status, Approved) then ProposeApprove else NoAction
    case Approved => if IsServiceExecutable(a) then ProposeExecute else NoAction
    case Failed => if CanBeReapproved(a) then ProposeReapprove else NoAction
    case Executed => NoAction
    case Waived => NoAction
  }

  /** A proposal is made exactly when that call, with the version just read, would succeed. */
  lemma ProposalIffCallSucceeds(store: Store, id: Uuid, actor: Option<string>, env: Env)
    requires id in store
    ensures var a := store[id];
      && (ComputeProposal(a) == ProposeApprove <==>
          Perform(store, id, ApproveCall(a.lockVersion, actor), env).result.Ok?)
      && (ComputeProposal(a) == ProposeReapprove <==> Perform(store, id, ReapproveCall(a.lockVersion), env).result.Ok?)
      && (ComputeProposal(a) == ProposeExecute <==> Perform(store, id, ExecuteCall(actor), env).result.Ok?)
  {
  }

  // ----- The dry run -----

  datatype ProposalItem = ProposalItem(id: Uuid, proposal: Proposal, status: Status)

  datatype DryRun = DryRun(
    proposals: seq<ProposalItem>,
    notFound: seq<Uuid>,
    total: nat, canApprove: nat, canReapprove: nat, canExecute: nat, noAction: nat, missing: nat)

  function OwnedBy(store: Store, tenantId: Uuid): Uuid -> bool {
    (id: Uuid) => Owned(store, tenantId, id)
  }

  function Missing(store: Store, tenantId: Uuid): Uuid -> bool {
    (id: Uuid) => !Owned(store, tenantId, id)
  }

  function Proposing(store: Store, tenantId: Uuid, p: Proposal): Uuid -> bool {
    (id: Uuid) => Owned(store, tenantId, id) && ComputeProposal(store[id]) == p
  }

  function ProposalItems(store: Store, ids: seq<Uuid>): seq<ProposalItem>
    requires forall i :: 0 <= i < |ids| ==> ids[i] in store
  {
    seq(|ids|, i requires 0 <= i < |ids| => ProposalItem(ids[i], ComputeProposal(store[ids[i]]), store[ids[i]].status))
  }

  /** How one item enters the result: a proposal if the action is the tenant's, else a missing identifier. */
  function DryRunItem(r: DryRun, store: Store, tenantId: Uuid, id: Uuid): DryRun {
    if !Owned(store, tenantId, id) then
      r.(notFound := r.notFound + [id], missing := r.missing + 1, noAction := r.noAction + 1)
    else
      var proposal := ComputeProposal(store[id]);
      var counted := match proposal
        case ProposeApprove => r.(canApprove := r.canApprove + 1)
        case ProposeReapprove => r.(canReapprove := r.canReapprove + 1)
        case ProposeExecute => r.(canExecute := r.canExecute + 1)
        case NoAction => r.(noAction := r.noAction + 1);
      counted.(proposals := counted.proposals + [ProposalItem(id, proposal, store[id].status)])
  }

  /** The result is right for `ids`: proposals for the owned ones, the rest missing, and counters that partition. */
  ghost predicate DryRunRight(r: DryRun, store: Store, tenantId: Uuid, ids: seq<Uuid>) {
    && r.notFound == Filter(ids, Missing(store, tenantId))
    && (forall x :: x in Filter(ids, OwnedBy(store, tenantId)) ==> x in store)
    && r.proposals == ProposalItems(store, Filter(ids, OwnedBy(store, tenantId)))
    && |ids| == r.canApprove + r.canReapprove + r.canExecute + r.noAction
    && r.missing == |r.notFound| <= r.noAction
    && r.canApprove == Count(ids, Proposing(store, tenantId, ProposeApprove))
    && r.canReapprove == Count(ids, Proposing(store, tenantId, ProposeReapprove))
    && r.canExecute == Count(ids, Proposing(store, tenantId, ProposeExecute))
  }

  lemma DryRunItemRight(r: DryRun, store: Store, tenantId: Uuid, ids: seq<Uuid>, id: Uuid)
    requires DryRunRight(r, store, tenantId, ids)
    ensures DryRunRight(DryRunItem(r, store, tenantId, id), store, tenantId, ids + [id])
  {
    FilterAppend(ids, Missing(store, tenantId), id);
    FilterAppend(ids, OwnedBy(store, tenantId), id);
    CountAppend(ids, Proposing(store, tenantId, ProposeApprove), id);
    CountAppend(ids, Proposing(store, tenantId, ProposeReapprove), id);
    CountAppend(ids, Proposing(store, tenantId, ProposeExecute), id);
  }

  /** An item shows the action's present status and the proposal for it. */
  predicate ProposalTells(item: ProposalItem, store: Store) {
    item.id in store && item.proposal == ComputeProposal(store[item.id]) && item.status == store[item.id].status
  }

  lemma ProposalsTell(r: DryRun, store: Store, tenantId: Uuid, ids: seq<Uuid>)
    requires DryRunRight(r, store, tenantId, ids)
    ensures forall i :: 0 <= i < |r.proposals| ==> ProposalTells(r.proposals[i], store)
  {
  }

  /** Read-only: it has no modifies clause, so the store is untouched. */
  method PlanOrchestrationActions(service: ActionService, tenantId: Uuid, ids: seq<Uuid>) returns (r: DryRun)
    ensures r.total == |ids| && DryRunRight(r, service.repo.actions, tenantId, ids)
    ensures forall i :: 0 <= i < |r.proposals| ==> ProposalTells(r.proposals[i], service.repo.actions)
  {
    r := DryRun([], [], |ids|, 0, 0, 0, 0, 0);
    for i := 0 to |ids|
      invariant r.total == |ids| && DryRunRight(r, service.repo.actions, tenantId, ids[..i])
    {
      DryRunItemRight(r, service.repo.actions, tenantId, ids[..i], ids[i]);
      assert ids[..i + 1] == ids[..i] + [ids[i]];
      r := DryRunItem(r, service.repo.actions, tenantId, ids[i]);
    }
    assert ids[..|ids|] == ids;
    ProposalsTell(r, service.repo.actions, tenantId, ids);
  }

  // ----- Batch commands -----

  /** The clock reading and the executor's answer at each position of a list. */
  datatype World = World(clock: nat -> Timestamp, answer: (nat, Action) -> ExecutionResult)

  function EnvAt(w: World, i: nat, a: Action): Env {
    Env(w.clock(i), w.answer(i, a))
  }

  /** The world in which the shipped executors answer. */
  function ShippedWorld(clock: nat -> Timestamp, ledger: Option<Ledger>): World {
    World(clock, (i: nat, a: Action) => ShippedExecution(ledger, a, clock(i)))
  }

  datatype Command = BatchApprove(actor: Option<string>) | BatchReapprove | BatchExecute(actor: Option<string>)

  /** The call a command makes on an action it has just read. */
  function CallOf(command: Command, a: Action): Call {
    match command
    case BatchApprove(actor) => ApproveCall(a.lockVersion, actor)
    case BatchReapprove => ReapproveCall(a.lockVersion)
    case BatchExecute(actor) => ExecuteCall(actor)
  }

  /** Would the command succeed on the action as it is? */
  predicate IsEligible(command: Command, a: Action) {
    Denial(CallOf(command, a), a) == None
  }

  function Eligible(command: Command): Action -> bool {
    (a: Action) => IsEligible(command, a)
  }

  function Commanded(command: Command, a: Action, env: Env): Action {
    if IsEligible(command, a) then Apply(a, WriteOf(CallOf(command, a), env)) else a
  }

  function BatchStep(command: Command, w: World): (nat, Action) -> Action {
    (i: nat, a: Action) => Commanded(command, a, EnvAt(w, i, a))
  }

  /** One item of a batch as the service sees it. */
  function BatchItem(store: Store, tenantId: Uuid, id: Uuid, command: Command, env: Env): Outcome {
    if !Owned(store, tenantId, id) then Outcome(store, Err(ActionNotFound(id)))
    else Perform(store, id, CallOf(command, store[id]), env)
  }

  /** An item succeeds exactly on an owned eligible action, and then makes one step of the sweep. */
  lemma BatchItemIsStep(store: Store, tenantId: Uuid, id: Uuid, command: Command, env: Env)
    ensures BatchItem(store, tenantId, id, command, env).result.Ok? <==>
      Owned(store, tenantId, id) && IsEligible(command, store[id])
    ensures BatchItem(store, tenantId, id, command, env).store ==
      if Owned(store, tenantId, id) then store[id := Commanded(command, store[id], env)] else store
    ensures BatchItem(store, tenantId, id, command, env).result.Ok? ==>
      BatchItem(store, tenantId, id, command, env).result.value == Commanded(command, store[id], env)
  {
    if id in store {
      assert store[id := store[id]] == store;
    }
  }

  /** What each command makes of an action at position `i`, field by field. */
  lemma CommandTells(w: World, i: nat, a: Action, actor: Option<string>)
    ensures BatchStep(BatchApprove(actor), w)(i, a) ==
      if a.status != Pending then a
      else a.(status := Approved, lockVersion := a.lockVersion + 1, approvedAt := Some(w.clock(i)),
              approvedBy := Named(actor, a.approvedBy))
    ensures BatchStep(BatchReapprove, w)(i, a) ==
      if a.status == Failed && a.attemptCount < a.maxRetries && MayPass(a)
      then a.(status := Pending, lockVersion := a.lockVersion + 1, failedAt := None) else a
    ensures var r := w.answer(i, a);
      BatchStep(BatchExecute(actor), w)(i, a) ==
      if a.status != Approved || !IsExecutablePair(a.strategy, a.feasibility) then a
      else if r.success then
        a.(status := Executed, lockVersion := a.lockVersion + 1, attemptCount := a.attemptCount + 1, payload := Some(r),
           executedAt := Some(r.completedAt), executedBy := Named(actor, a.executedBy))
      else
        a.(status := Failed, lockVersion := a.lockVersion + 1, attemptCount := a.attemptCount + 1, payload := Some(r),
           failedAt := Some(r.completedAt))
  {
    RetryPolicyTells(a);
  }

  lemma CommandConsumes(command: Command, w: World)
    ensures Consumes(BatchStep(command, w), Eligible(command)) && KeepsTenant(BatchStep(command, w))
  {
  }

  /**
   The frame of a batch over any list, repeats included: an owned eligible listed action takes one
   step, at its first listing, and every other action of the store stays as it was.
   */
  lemma BatchActsOnce(store: Store, tenantId: Uuid, ids: seq<Uuid>, command: Command, w: World, id: Uuid)
    ensures var after := Sweep(store, tenantId, ids, |ids|, BatchStep(command, w));
      && (id in after <==> id in store)
      && (id in store && id !in Targets(store, tenantId, ids, Eligible(command)) ==> after[id] == store[id])
      && (id in Targets(store, tenantId, ids, Eligible(command)) ==>
            forall i :: 0 <= i < |ids| && ids[i] == id && id !in ids[..i] ==>
            after[id] == Commanded(command, store[id], EnvAt(w, i, store[id])))
  {
    var step, hit := BatchStep(command, w), Eligible(command);
    CommandConsumes(command, w);
    SweepIsTrail(store, tenantId, ids, |ids|, step, id);
    assert ids[..|ids|] == ids;
    if Owned(store, tenantId, id) {
      TrailHits(store[id], ids, |ids|, id, step, hit);
      if id !in ids {
        TrailUnlisted(store[id], ids, |ids|, id, step);
      }
      forall i | 0 <= i < |ids| && ids[i] == id && id !in ids[..i] && hit(store[id])
        ensures Trail(store[id], ids, |ids|, id, step) == step(i, store[id])
      {
        assert forall k :: 0 <= k < i ==> ids[k] in ids[..i];
        TrailActsOnce(store[id], ids, |ids|, id, step, hit, i);
      }
    }
  }

  datatype ItemOutcome = ItemOutcome(id: Uuid, result: Result<Action>)

  datatype BatchResult = BatchResult(
    outcomes: seq<ItemOutcome>, notFound: seq<Uuid>, total: nat, succeeded: nat, failed: nat, missing: nat)

  /** The fresh record identifiers a batch may use, from position `from` on. */
  ghost predicate RecordIdsFree(service: ActionService, recordIds: nat -> Uuid, from: nat)
    reads service.records
  {
    Injective(recordIds) && forall k: nat :: from <= k ==> service.UnusedRecordId(recordIds(k))
  }

  ghost predicate RecordsAre(service: ActionService, records: Records)
    reads service.records
  {
    service.records != null ==> service.records.records == records
  }

  ghost function RecordsOf(service: ActionService): Records
    reads service.records
  {
    if service.records == null then map[] else service.records.records
  }

  /** Only an execution that is accepted leaves a record. */
  function BatchLeft(command: Command, a: Action, recordId: Uuid, env: Env): Option<RollbackRecord> {
    if command.BatchExecute? && IsEligible(command, a)
    then Some(RecordFor(recordId, a, CallOf(command, a), env.result, env.now)) else None
  }

  function BatchLeaves(command: Command, w: World, recordIds: nat -> Uuid): Leaving {
    (i: nat, a: Action) => BatchLeft(command, a, recordIds(i), EnvAt(w, i, a))
  }

  /** A batch files one record per attempt, under its own identifiers. */
  lemma BatchFiles(command: Command, w: World, recordIds: nat -> Uuid)
    ensures Numbers(BatchLeaves(command, w, recordIds), recordIds)
    ensures CountsAttempts(BatchStep(command, w), BatchLeaves(command, w, recordIds))
  {
    forall i: nat, a: Action
      ensures CountsAttempt(a, BatchStep(command, w)(i, a), BatchLeaves(command, w, recordIds)(i, a))
    {
      BatchStepFiles(command, a, recordIds(i), EnvAt(w, i, a));
    }
  }

  lemma BatchStepFiles(command: Command, a: Action, recordId: Uuid, env: Env)
    ensures CountsAttempt(a, Commanded(command, a, env), BatchLeft(command, a, recordId, env))
  {
    ApplyFrame(a, WriteOf(CallOf(command, a), env));
  }

  /** One item of a batch on the live service. */
  method BatchOne(service: ActionService, tenantId: Uuid, id: Uuid, command: Command, now: Timestamp,
                  recordIds: nat -> Uuid, i: nat) returns (r: Result<Action>)
    requires service.Valid() && RecordIdsFree(service, recordIds, i)
    modifies service.Footprint()
    ensures service.Valid() && RecordIdsFree(service, recordIds, i + 1)
    ensures Outcome(service.repo.actions, r) ==
      BatchItem(old(service.repo.actions), tenantId, id, command,
                ShippedEnv(old(service.repo.actions), id, old(service.LedgerView()), now))
    ensures var store := old(service.repo.actions);
      service.RecordsGained(
        if Owned(store, tenantId, id)
        then BatchLeft(command, store[id], recordIds(i), ShippedEnv(store, id, old(service.LedgerView()), now))
        else None)
  {
    var got := service.repo.Get(id);
    if got.Err? || got.value.tenantId != tenantId {
      return Err(ActionNotFound(id));
    }
    match command {
      case BatchApprove(actor) => r := service.ApproveAction(id, got.value.lockVersion, actor, now);
      case BatchReapprove => r := service.ReapproveAction(id, got.value.lockVersion);
      case BatchExecute(actor) => r := service.ExecuteAction(id, actor, now, recordIds(i));
    }
  }

  /** How one item enters the summary. */
  function Tally(r: BatchResult, id: Uuid, found: bool, item: Result<Action>): BatchResult {
    var counted := if item.Ok? then r.(succeeded := r.succeeded + 1) else r.(failed := r.failed + 1);
    var noted := if found then counted else counted.(notFound := r.notFound + [id], missing := r.missing + 1);
    noted.(outcomes := r.outcomes + [ItemOutcome(id, item)])
  }

  /** The item at position `i` succeeded exactly if the pass acted there, and returned the action it left. */
  ghost predicate ItemRight(item: Result<Action>, store: Store, tenantId: Uuid, ids: seq<Uuid>, i: nat,
                            step: (nat, Action) -> Action, hit: Action -> bool)
    requires i < |ids|
  {
    && (item.Ok? <==> HitsAt(store, tenantId, ids, i, step, hit))
    && (item.Ok? ==> item.value == step(i, Sweep(store, tenantId, ids, i, step)[ids[i]]))
  }

  /** Outcomes match identifiers position by position. */
  ghost predicate OutcomesRight(outcomes: seq<ItemOutcome>, store: Store, tenantId: Uuid, ids: seq<Uuid>,
                                step: (nat, Action) -> Action, hit: Action -> bool)
    requires |outcomes| <= |ids|
  {
    forall i :: 0 <= i < |outcomes| ==>
      outcomes[i].id == ids[i] && ItemRight(outcomes[i].result, store, tenantId, ids, i, step, hit)
  }

  lemma OutcomesAppend(outcomes: seq<ItemOutcome>, store: Store, tenantId: Uuid, ids: seq<Uuid>,
                       step: (nat, Action) -> Action, hit: Action -> bool, item: Result<Action>)
    requires |outcomes| < |ids| && OutcomesRight(outcomes, store, tenantId, ids, step, hit)
    requires ItemRight(item, store, tenantId, ids, |outcomes|, step, hit)
    ensures OutcomesRight(outcomes + [ItemOutcome(ids[|outcomes|], item)], store, tenantId, ids, step, hit)
  {
  }

  /** The summary is right for the first `n` items: outcomes by position, counters, missing identifiers. */
  ghost predicate SummaryRight(r: BatchResult, store: Store, tenantId: Uuid, ids: seq<Uuid>, n: nat,
                               step: (nat, Action) -> Action, hit: Action -> bool)
    requires n <= |ids|
  {
    && |r.outcomes| == n && OutcomesRight(r.outcomes, store, tenantId, ids, step, hit)
    && r.notFound == Filter(ids[..n], Missing(store, tenantId))
    && r.succeeded + r.failed == n
    && r.missing == |r.notFound| <= r.failed
    && r.succeeded == HitCount(store, tenantId, ids, n, step, hit)
  }

  lemma TallyRight(r: BatchResult, store: Store, tenantId: Uuid, ids: seq<Uuid>, n: nat, step: (nat, Action) -> Action,
                   hit: Action -> bool, item: Result<Action>)
    requires n < |ids| && KeepsTenant(step)
    requires SummaryRight(r, store, tenantId, ids, n, step, hit)
    requires ItemRight(item, store, tenantId, ids, n, step, hit)
    ensures SummaryRight(Tally(r, ids[n], Owned(store, tenantId, ids[n]), item), store, tenantId, ids, n + 1, step, hit)
  {
    OutcomesAppend(r.outcomes, store, tenantId, ids, step, hit, item);
    SweepIsTrail(store, tenantId, ids, n, step, ids[n]);
    assert ids[..n + 1] == ids[..n] + [ids[n]];
    FilterAppend(ids[..n], Missing(store, tenantId), ids[n]);
  }

  /** One item as the service sees it is one step of the sweep. */
  lemma BatchNext(store: Store, tenantId: Uuid, ids: seq<Uuid>, i: nat, command: Command, clock: nat -> Timestamp,
                  ledger: Option<Ledger>, o: Outcome)
    requires i < |ids|
    requires var before := Sweep(store, tenantId, ids, i, BatchStep(command, ShippedWorld(clock, ledger)));
      o == BatchItem(before, tenantId, ids[i], command, ShippedEnv(before, ids[i], ledger, clock(i)))
    ensures var step := BatchStep(command, ShippedWorld(clock, ledger));
      && o.store == Sweep(store, tenantId, ids, i + 1, step)
      && ItemRight(o.result, store, tenantId, ids, i, step, Eligible(command))
  {
    var before := Sweep(store, tenantId, ids, i, BatchStep(command, ShippedWorld(clock, ledger)));
    BatchItemIsStep(before, tenantId, ids[i], command, ShippedEnv(before, ids[i], ledger, clock(i)));
  }

  /** What position `i` of a batch leaves, in the terms of the service. */
  lemma BatchLeavesAt(store: Store, tenantId: Uuid, ids: seq<Uuid>, i: nat, command: Command, clock: nat -> Timestamp,
                      ledger: Option<Ledger>, recordIds: nat -> Uuid)
    requires i < |ids|
    ensures var w := ShippedWorld(clock, ledger);
      var before := Sweep(store, tenantId, ids, i, BatchStep(command, w));
      LeftAt(store, tenantId, ids, i, BatchStep(command, w), BatchLeaves(command, w, recordIds)) ==
      if Owned(before, tenantId, ids[i])
      then BatchLeft(command, before[ids[i]], recordIds(i), ShippedEnv(before, ids[i], ledger, clock(i))) else None
  {
  }

  /** One turn of the batch loop on the live service is one item of the sweep. */
  method BatchTurn(service: ActionService, tenantId: Uuid, ids: seq<Uuid>, command: Command, clock: nat -> Timestamp,
                   recordIds: nat -> Uuid, i: nat, ghost store: Store, ghost records: Records)
    returns (item: Result<Action>)
    requires service.Valid() && RecordIdsFree(service, recordIds, i) && i < |ids|
    requires service.repo.actions ==
      Sweep(store, tenantId, ids, i, BatchStep(command, ShippedWorld(clock, service.LedgerView())))
    requires var w := ShippedWorld(clock, service.LedgerView());
      RecordsAre(service, SweepRecords(records, store, tenantId, ids, i, BatchStep(command, w),
                                       BatchLeaves(command, w, recordIds)))
    modifies service.Footprint()
    ensures service.Valid() && RecordIdsFree(service, recordIds, i + 1)
    ensures service.LedgerView() == old(service.LedgerView())
    ensures var step := BatchStep(command, ShippedWorld(clock, service.LedgerView()));
      && service.repo.actions == Sweep(store, tenantId, ids, i + 1, step)
      && ItemRight(item, store, tenantId, ids, i, step, Eligible(command))
    ensures var w := ShippedWorld(clock, service.LedgerView());
      RecordsAre(service, SweepRecords(records, store, tenantId, ids, i + 1, BatchStep(command, w),
                                       BatchLeaves(command, w, recordIds)))
  {
    BatchLeavesAt(store, tenantId, ids, i, command, clock, service.LedgerView(), recordIds);
    NextRecords(records, store, tenantId, ids, i, BatchStep(command, ShippedWorld(clock, service.LedgerView())),
                BatchLeaves(command, ShippedWorld(clock, service.LedgerView()), recordIds));
    item := BatchOne(service, tenantId, ids[i], command, clock(i), recordIds, i);
    BatchNext(store, tenantId, ids, i, command, clock, service.LedgerView(), Outcome(service.repo.actions, item));
  }

  /** The three batch commands, whose loops differ only in the call they make per item. */
  method RunBatch(service: ActionService, tenantId: Uuid, ids: seq<Uuid>, command: Command, clock: nat -> Timestamp,
                  recordIds: nat -> Uuid) returns (r: BatchResult)
    requires service.Valid() && RecordIdsFree(service, recordIds, 0)
    modifies service.Footprint()
    ensures service.Valid() && RecordIdsFree(service, recordIds, |ids|)
    ensures var step := BatchStep(command, ShippedWorld(clock, old(service.LedgerView())));
      && service.repo.actions == Sweep(old(service.repo.actions), tenantId, ids, |ids|, step)
      && SummaryRight(r, old(service.repo.actions), tenantId, ids, |ids|, step, Eligible(command))
    ensures r.total == |ids| == r.succeeded + r.failed
    ensures var w := ShippedWorld(clock, old(service.LedgerView()));
      RecordsAre(service, SweepRecords(old(RecordsOf(service)), old(service.repo.actions), tenantId, ids, |ids|,
                                       BatchStep(command, w), BatchLeaves(command, w, recordIds)))
    ensures r.succeeded == |Targets(old(service.repo.actions), tenantId, ids, Eligible(command))|
  {
    ghost var store, records := service.repo.actions, RecordsOf(service);
    ghost var w := ShippedWorld(clock, service.LedgerView());
    CommandConsumes(command, w);
    r := BatchResult([], [], |ids|, 0, 0, 0);
    for i := 0 to |ids|
      invariant service.Valid() && RecordIdsFree(service, recordIds, i)
      invariant service.LedgerView() == old(service.LedgerView())
      invariant service.repo.actions == Sweep(store, tenantId, ids, i, BatchStep(command, w))
      invariant RecordsAre(service, SweepRecords(records, store, tenantId, ids, i, BatchStep(command, w),
                                                 BatchLeaves(command, w, recordIds)))
      invariant r.total == |ids| && SummaryRight(r, store, tenantId, ids, i, BatchStep(command, w), Eligible(command))
    {
      var found := ids[i] in service.repo.actions && service.repo.actions[ids[i]].tenantId == tenantId;
      SweepIsTrail(store, tenantId, ids, i, BatchStep(command, w), ids[i]);
      var item := BatchTurn(service, tenantId, ids, command, clock, recordIds, i, store, records);
      TallyRight(r, store, tenantId, ids, i, BatchStep(command, w), Eligible(command), item);
      r := Tally(r, ids[i], found, item);
    }
    assert ids[..|ids|] == ids;
    HitsAreTargets(store, tenantId, ids, |ids|, BatchStep(command, w), Eligible(command));
  }

  /** Whatever the list, a batch leaves each action as many new records as attempts, and the old ones alone. */
  lemma BatchRecordsMatch(records: Records, store: Store, tenantId: Uuid, ids: seq<Uuid>, command: Command, w: World,
                          recordIds: nat -> Uuid, id: Uuid)
    requires FreeIds(recordIds, records)
    requires KeyedStore(store) && id in store
    ensures var step, leaves := BatchStep(command, w), BatchLeaves(command, w, recordIds);
      var swept := Sweep(store, tenantId, ids, |ids|, step);
      var after := SweepRecords(records, store, tenantId, ids, |ids|, step, leaves);
      && id in swept && |Gained(records, after, id)| == swept[id].attemptCount - store[id].attemptCount
      && (forall r :: r in records ==> r in after && after[r] == records[r])
      && (!command.BatchExecute? ==> after == records)
  {
    var step, leaves := BatchStep(command, w), BatchLeaves(command, w, recordIds);
    BatchFiles(command, w, recordIds);
    GainedMatchAttempts(records, store, tenantId, ids, step, leaves, recordIds, id);
    if !command.BatchExecute? {
      NothingLeft(records, store, tenantId, ids, |ids|, step, leaves);
    }
  }

  /** Each new record is of a listed action of the tenant, and tells how the execution at its position ended. */
  lemma BatchRecordsTell(records: Records, store: Store, tenantId: Uuid, ids: seq<Uuid>, command: Command, w: World,
                         recordIds: nat -> Uuid, r: Uuid) returns (i: nat)
    requires FreeIds(recordIds, records)
    requires var leaves := BatchLeaves(command, w, recordIds);
      var after := SweepRecords(records, store, tenantId, ids, |ids|, BatchStep(command, w), leaves);
      r in after && r !in records
    ensures i < |ids| && r == recordIds(i)
    ensures var leaves := BatchLeaves(command, w, recordIds);
      var after := SweepRecords(records, store, tenantId, ids, |ids|, BatchStep(command, w), leaves);
      var before := Sweep(store, tenantId, ids, i, BatchStep(command, w));
      && Owned(before, tenantId, ids[i])
      && Tells(after[r], before[ids[i]], Sweep(store, tenantId, ids, i + 1, BatchStep(command, w))[ids[i]])
  {
    BatchFiles(command, w, recordIds);
    i := GainedTell(records, store, tenantId, ids, BatchStep(command, w), BatchLeaves(command, w, recordIds),
                    recordIds, r);
  }
}
