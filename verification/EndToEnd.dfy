/** From recorded side effects to executed compensations: planning, batch approval, batch execution. */
module EndToEnd {
  import opened Base
  import opened Actions
  import opened ActionStore
  import opened ActionServices
  import opened Executors
  import opened Orchestration
  import opened PassRecords
  import opened Planner
  import opened RollbackRecords
  import opened SideEffects
  import opened Sorting
  import opened Sweeps
  import SideEffectLedger

  /** The effect an action was planned for, as the ledger holds it. */
  predicate PlannedFor(a: Action, e: SideEffect, ledger: Ledger) {
    && e.id in ledger && ledger[e.id] == e && NeedsAction(e)
    && a.sideEffectId == e.id && a.intentId == e.intentId && a.tenantId == e.tenantId
    && a.feasibility == FeasibilityFor(e.effectClass) && IsServiceExecutable(a)
  }

  /** Planner, service gate and executors fit together: the executor of a planned action succeeds. */
  lemma PlanFitsExecutors(a: Action, e: SideEffect, ledger: Ledger, at: Timestamp)
    requires PlannedFor(a, e, ledger)
    ensures ShippedExecution(Some(ledger), a, at) == Success(at)
  {
  }

  function IdsOf(plan: seq<Action>): seq<Uuid> {
    seq(|plan|, i requires 0 <= i < |plan| => plan[i].id)
  }

  predicate OwnIds(plan: seq<Action>) {
    forall i, j :: 0 <= i < j < |plan| ==> plan[i].id != plan[j].id
  }

  /** Creating a plan adds its actions and leaves the rest of the store alone. */
  lemma {:induction false} CreatedHolds(store: Store, plan: seq<Action>, id: Uuid)
    requires OwnIds(plan)
    ensures forall i :: 0 <= i < |plan| && plan[i].id == id ==>
      id in Created(store, plan) && Created(store, plan)[id] == plan[i]
    ensures (forall i :: 0 <= i < |plan| ==> plan[i].id != id) ==>
      (id in Created(store, plan) <==> id in store) && (id in store ==> Created(store, plan)[id] == store[id])
  {
    if plan != [] {
      CreatedHolds(store, plan[..|plan| - 1], id);
    }
  }

  /** Two batch passes over the same list without repeats. */
  function ApprovedThenExecuted(store: Store, tenantId: Uuid, ids: seq<Uuid>, approver: Option<string>,
                                executor: Option<string>, w: World, w': World): Store
  {
    var approved := Sweep(store, tenantId, ids, |ids|, BatchStep(BatchApprove(approver), w));
    Sweep(approved, tenantId, ids, |ids|, BatchStep(BatchExecute(executor), w'))
  }

  /** Executed by its first attempt, as planned. */
  predicate Compensated(planned: Action, a: Action) {
    && SameIdentity(planned, a) && a.status == Executed && a.attemptCount == 1 && a.lockVersion == 2
    && a.payload.Some? && a.payload.value.success
  }

  lemma TwoCallsCompensate(a: Action, e: SideEffect, ledger: Ledger, approver: Option<string>, executor: Option<string>,
                           w: World, clock: nat -> Timestamp, i: nat)
    requires Fresh(a) && PlannedFor(a, e, ledger)
    ensures var approved := BatchStep(BatchApprove(approver), w)(i, a);
      approved.tenantId == a.tenantId
      && Compensated(a, BatchStep(BatchExecute(executor), ShippedWorld(clock, Some(ledger)))(i, approved))
  {
    var approved := BatchStep(BatchApprove(approver), w)(i, a);
    PlanFitsExecutors(approved, e, ledger, clock(i));
  }

  lemma BatchesCompensate(store: Store, tenantId: Uuid, ids: seq<Uuid>, approver: Option<string>,
                          executor: Option<string>, w: World, clock: nat -> Timestamp, ledger: Ledger, i: nat,
                          e: SideEffect)
    requires Distinct(ids) && i < |ids| && ids[i] in store
    requires Fresh(store[ids[i]]) && PlannedFor(store[ids[i]], e, ledger) && store[ids[i]].tenantId == tenantId
    ensures var final := ApprovedThenExecuted(store, tenantId, ids, approver, executor, w,
                                              ShippedWorld(clock, Some(ledger)));
      ids[i] in final && Compensated(store[ids[i]], final[ids[i]])
  {
    var first := BatchStep(BatchApprove(approver), w);
    var second := BatchStep(BatchExecute(executor), ShippedWorld(clock, Some(ledger)));
    TwoCallsCompensate(store[ids[i]], e, ledger, approver, executor, w, clock, i);
    DistinctSweep(store, tenantId, ids, |ids|, first, ids[i]);
    DistinctSweep(Sweep(store, tenantId, ids, |ids|, first), tenantId, ids, |ids|, second, ids[i]);
  }

  /** What the service's planning call reads for an intent. */
  function EffectsOf(history: seq<SideEffect>, intentId: Uuid, tenantId: Uuid): seq<SideEffect> {
    NewestFirst(Filter(Filter(history, SideEffectLedger.OfIntent(intentId)), SideEffectLedger.OfTenant(tenantId)),
                SideEffectLedger.OccurredAt)
  }

  /** The effects planned for are those of the tenant and intent that are no pure reads, each as the ledger holds it. */
  lemma EffectsAreTheTenants(history: seq<SideEffect>, intentId: Uuid, tenantId: Uuid, e: SideEffect)
    requires SideEffectLedger.FreshIds(history)
    ensures e in Filter(EffectsOf(history, intentId, tenantId), Compensable()) <==>
      e in history && e.intentId == intentId && e.tenantId == tenantId && NeedsAction(e)
    ensures e in history ==> var ledger := SideEffectLedger.Table(history); e.id in ledger && ledger[e.id] == e
  {
    var mine := Filter(history, SideEffectLedger.OfIntent(intentId));
    var kept := Filter(mine, SideEffectLedger.OfTenant(tenantId));
    SideEffectLedger.TableMembers(history);
    FilterMember(history, SideEffectLedger.OfIntent(intentId), e);
    FilterMember(mine, SideEffectLedger.OfTenant(tenantId), e);
    NewestFirstSorts(kept, SideEffectLedger.OccurredAt);
    assert e in kept <==> e in multiset(kept);
    assert e in EffectsOf(history, intentId, tenantId) <==> e in multiset(EffectsOf(history, intentId, tenantId));
    FilterMember(EffectsOf(history, intentId, tenantId), Compensable(), e);
  }

  lemma BatchesLeaveOthers(store: Store, tenantId: Uuid, ids: seq<Uuid>, approver: Option<string>,
                           executor: Option<string>, w: World, w': World, id: Uuid)
    requires Distinct(ids)
    ensures var final := ApprovedThenExecuted(store, tenantId, ids, approver, executor, w, w');
      (id in final <==> id in store) && (id in store && id !in ids ==> final[id] == store[id])
  {
    var first, second := BatchStep(BatchApprove(approver), w), BatchStep(BatchExecute(executor), w');
    var approved := Sweep(store, tenantId, ids, |ids|, first);
    assert ids[..|ids|] == ids;
    CommandConsumes(BatchApprove(approver), w);
    CommandConsumes(BatchExecute(executor), w');
    SweepIsTrail(store, tenantId, ids, |ids|, first, id);
    SweepIsTrail(approved, tenantId, ids, |ids|, second, id);
    if id in store && id !in ids {
      DistinctSweep(store, tenantId, ids, |ids|, first, id);
      DistinctSweep(approved, tenantId, ids, |ids|, second, id);
    }
  }

  /** What the three calls make of a store: plan an intent from the ledger, then approve and execute the plan. */
  function CompensateIntent(history: seq<SideEffect>, store: Store, plan: seq<Action>, tenantId: Uuid,
                            approver: Option<string>, executor: Option<string>, w: World,
                            clock: nat -> Timestamp): Store
  {
    ApprovedThenExecuted(Created(store, plan), tenantId, IdsOf(plan), approver, executor, w,
                         ShippedWorld(clock, Some(SideEffectLedger.Table(history))))
  }

  /** What planning reads and finds necessary. */
  function NeedyEffects(history: seq<SideEffect>, intentId: Uuid, tenantId: Uuid): seq<SideEffect> {
    Filter(EffectsOf(history, intentId, tenantId), Compensable())
  }

  /** A plan made for the needy effects, under identifiers the store does not know. */
  ghost predicate PlanFor(plan: seq<Action>, history: seq<SideEffect>, store: Store, intentId: Uuid, tenantId: Uuid) {
    var needy := NeedyEffects(history, intentId, tenantId);
    && |plan| == |needy| && OwnIds(plan)
    && (forall i :: 0 <= i < |plan| ==>
          Fresh(plan[i]) && plan[i].id !in store && PlannedFor(plan[i], needy[i], SideEffectLedger.Table(history)))
  }

  lemma PlanIsForEffects(history: seq<SideEffect>, store: Store, intentId: Uuid, tenantId: Uuid, context: RebaseContext,
                         freshId: nat -> Uuid, clock: nat -> Timestamp)
    requires SideEffectLedger.FreshIds(history)
    requires Injective(freshId) && forall i: nat :: freshId(i) !in store
    ensures var plan := PlanFromSideEffects(context, EffectsOf(history, intentId, tenantId), tenantId, freshId, clock);
      PlanFor(plan, history, store, intentId, tenantId)
  {
    var effects, needy := EffectsOf(history, intentId, tenantId), NeedyEffects(history, intentId, tenantId);
    PlanCoversEffects(context, effects, tenantId, freshId, clock);
    forall i | 0 <= i < |needy|
      ensures needy[i] in history && needy[i].tenantId == tenantId && NeedsAction(needy[i])
      ensures var ledger := SideEffectLedger.Table(history); needy[i].id in ledger && ledger[needy[i].id] == needy[i]
    {
      EffectsAreTheTenants(history, intentId, tenantId, needy[i]);
    }
  }

  lemma PlannedAreCompensated(history: seq<SideEffect>, store: Store, plan: seq<Action>, intentId: Uuid, tenantId: Uuid,
                              approver: Option<string>, executor: Option<string>, w: World,
                              clock: nat -> Timestamp, i: nat)
    requires SideEffectLedger.FreshIds(history) && PlanFor(plan, history, store, intentId, tenantId) && i < |plan|
    ensures var final := CompensateIntent(history, store, plan, tenantId, approver, executor, w, clock);
      plan[i].id in final && Compensated(plan[i], final[plan[i].id])
  {
    var ids, needy := IdsOf(plan), NeedyEffects(history, intentId, tenantId);
    CreatedHolds(store, plan, ids[i]);
    EffectsAreTheTenants(history, intentId, tenantId, needy[i]);
    BatchesCompensate(Created(store, plan), tenantId, ids, approver, executor, w, clock,
                      SideEffectLedger.Table(history), i, needy[i]);
  }

  lemma OthersAreUntouched(history: seq<SideEffect>, store: Store, plan: seq<Action>, tenantId: Uuid,
                           approver: Option<string>, executor: Option<string>, w: World,
                           clock: nat -> Timestamp, id: Uuid)
    requires OwnIds(plan) && forall i :: 0 <= i < |plan| ==> plan[i].id !in store
    ensures var final := CompensateIntent(history, store, plan, tenantId, approver, executor, w, clock);
      (id in final <==> id in store || id in IdsOf(plan)) && (id in store ==> final[id] == store[id])
  {
    var ids := IdsOf(plan);
    CreatedHolds(store, plan, id);
    BatchesLeaveOthers(Created(store, plan), tenantId, ids, approver, executor, w,
                       ShippedWorld(clock, Some(SideEffectLedger.Table(history))), id);
    if i :| 0 <= i < |plan| && plan[i].id == id {
      assert ids[i] == id;
    }
  }

  /** Every planned action is compensated, and what was in the store before is as it was. */
  ghost predicate AllCompensated(plan: seq<Action>, store: Store, final: Store) {
    && (forall i :: 0 <= i < |plan| ==> plan[i].id in final && Compensated(plan[i], final[plan[i].id]))
    && (forall id :: id in final <==> id in store || id in IdsOf(plan))
    && (forall id :: id in store ==> final[id] == store[id])
  }

  /**
   For any ledger, any store and any fresh identifiers: planning an intent creates one action per
   effect of that tenant and intent that is no pure read, in the ledger's listing order; batch
   approval and batch execution of the created identifiers leave each of them executed by its first
   attempt, and everything that was in the store before as it was.
   */
  lemma PlanApproveExecute(history: seq<SideEffect>, store: Store, intentId: Uuid, tenantId: Uuid,
                           context: RebaseContext, freshId: nat -> Uuid, planClock: nat -> Timestamp,
                           approver: Option<string>, executor: Option<string>, w: World, clock: nat -> Timestamp)
    requires SideEffectLedger.FreshIds(history)
    requires Injective(freshId) && forall i: nat :: freshId(i) !in store
    ensures var plan := PlanFromSideEffects(context, EffectsOf(history, intentId, tenantId), tenantId, freshId,
                                            planClock);
      && PlanFor(plan, history, store, intentId, tenantId)
      && AllCompensated(plan, store, CompensateIntent(history, store, plan, tenantId, approver, executor, w, clock))
  {
    var plan := PlanFromSideEffects(context, EffectsOf(history, intentId, tenantId), tenantId, freshId, planClock);
    PlanIsForEffects(history, store, intentId, tenantId, context, freshId, planClock);
    PlanIsCompensated(history, store, plan, intentId, tenantId, approver, executor, w, clock);
  }

  lemma PlanIsCompensated(history: seq<SideEffect>, store: Store, plan: seq<Action>, intentId: Uuid, tenantId: Uuid,
                          approver: Option<string>, executor: Option<string>, w: World, clock: nat -> Timestamp)
    requires SideEffectLedger.FreshIds(history) && PlanFor(plan, history, store, intentId, tenantId)
    ensures AllCompensated(plan, store, CompensateIntent(history, store, plan, tenantId, approver, executor, w, clock))
  {
    var final := CompensateIntent(history, store, plan, tenantId, approver, executor, w, clock);
    forall i | 0 <= i < |plan| ensures plan[i].id in final && Compensated(plan[i], final[plan[i].id]) {
      PlannedAreCompensated(history, store, plan, intentId, tenantId, approver, executor, w, clock, i);
    }
    forall id ensures (id in final <==> id in store || id in IdsOf(plan)) && (id in store ==> final[id] == store[id]) {
      OthersAreUntouched(history, store, plan, tenantId, approver, executor, w, clock, id);
    }
  }

  function Shifted(ids: nat -> Uuid, n: nat): nat -> Uuid {
    (k: nat) => ids(k + n)
  }

  lemma ShiftKeepsFree(service: ActionService, recordIds: nat -> Uuid, n: nat)
    requires RecordIdsFree(service, recordIds, n)
    ensures RecordIdsFree(service, Shifted(recordIds, n), 0)
  {
  }

  /** The records after both batches: approval leaves none. */
  function RecordsOfExecution(records: Records, store: Store, tenantId: Uuid, ids: seq<Uuid>, approver: Option<string>,
                              executor: Option<string>, w: World, w': World, recordIds: nat -> Uuid): Records
  {
    var approved := Sweep(store, tenantId, ids, |ids|, BatchStep(BatchApprove(approver), w));
    SweepRecords(records, approved, tenantId, ids, |ids|, BatchStep(BatchExecute(executor), w'),
                 BatchLeaves(BatchExecute(executor), w', recordIds))
  }

  /** The planned action `i` gains exactly one record, of its success. */
  ghost predicate OneSuccess(records: Records, after: Records, a: Action) {
    && |Gained(records, after, a.id)| == 1
    && forall r :: r in Gained(records, after, a.id) ==>
         && after[r].kind == SuccessRecord && after[r].errorCode == None && after[r].tenantId == a.tenantId
         && after[r].sideEffectId == a.sideEffectId && after[r].intentId == a.intentId
  }

  lemma CompensationGainsOneSuccess(records: Records, store: Store, tenantId: Uuid, ids: seq<Uuid>,
                                    approver: Option<string>, executor: Option<string>, w: World,
                                    clock: nat -> Timestamp, ledger: Ledger, i: nat, e: SideEffect,
                                    recordIds: nat -> Uuid)
    requires Distinct(ids) && i < |ids| && ids[i] in store && KeyedStore(store)
    requires Fresh(store[ids[i]]) && PlannedFor(store[ids[i]], e, ledger) && store[ids[i]].tenantId == tenantId
    requires FreeIds(recordIds, records)
    ensures OneSuccess(records, RecordsOfExecution(records, store, tenantId, ids, approver, executor, w,
                                                   ShippedWorld(clock, Some(ledger)), recordIds), store[ids[i]])
  {
    var id, a := ids[i], store[ids[i]];
    var w' := ShippedWorld(clock, Some(ledger));
    var first, second := BatchStep(BatchApprove(approver), w), BatchStep(BatchExecute(executor), w');
    var approved := Sweep(store, tenantId, ids, |ids|, first);
    var after := RecordsOfExecution(records, store, tenantId, ids, approver, executor, w, w', recordIds);
    TwoCallsCompensate(a, e, ledger, approver, executor, w, clock, i);
    DistinctSweep(store, tenantId, ids, |ids|, first, id);
    DistinctSweep(approved, tenantId, ids, |ids|, second, id);
    BatchFiles(BatchApprove(approver), w, recordIds);
    SweepKeepsKeys(store, tenantId, ids, |ids|, first, BatchLeaves(BatchApprove(approver), w, recordIds));
    BatchRecordsMatch(records, approved, tenantId, ids, BatchExecute(executor), w', recordIds, id);
    forall r | r in Gained(records, after, id)
      ensures after[r].kind == SuccessRecord && after[r].errorCode == None && after[r].tenantId == a.tenantId
      ensures after[r].sideEffectId == a.sideEffectId && after[r].intentId == a.intentId
    {
      var j := BatchRecordsTell(records, approved, tenantId, ids, BatchExecute(executor), w', recordIds, r);
      BatchFiles(BatchExecute(executor), w', recordIds);
      SweepKeepsKeys(approved, tenantId, ids, j, second, BatchLeaves(BatchExecute(executor), w', recordIds));
      assert ids[j] == id && j == i;
      DistinctSweep(approved, tenantId, ids, j, second, id);
      DistinctSweep(approved, tenantId, ids, j + 1, second, id);
    }
  }

  lemma {:induction false} CreatedKeepsKeys(store: Store, plan: seq<Action>)
    requires KeyedStore(store)
    ensures KeyedStore(Created(store, plan))
  {
    if plan != [] {
      CreatedKeepsKeys(store, plan[..|plan| - 1]);
    }
  }

  ghost predicate EachOneSuccess(records: Records, after: Records, plan: seq<Action>) {
    forall i :: 0 <= i < |plan| ==> OneSuccess(records, after, plan[i])
  }

  lemma PlanGainsOneSuccessEach(records: Records, history: seq<SideEffect>, store: Store, plan: seq<Action>,
                                intentId: Uuid, tenantId: Uuid, approver: Option<string>,
                                executor: Option<string>, w: World, clock: nat -> Timestamp, recordIds: nat -> Uuid)
    requires SideEffectLedger.FreshIds(history) && KeyedStore(store)
    requires PlanFor(plan, history, store, intentId, tenantId)
    requires FreeIds(recordIds, records)
    ensures var w' := ShippedWorld(clock, Some(SideEffectLedger.Table(history)));
      var after := RecordsOfExecution(records, Created(store, plan), tenantId, IdsOf(plan), approver, executor, w, w',
                                      recordIds);
      EachOneSuccess(records, after, plan)
  {
    var ids, needy, ledger := IdsOf(plan), NeedyEffects(history, intentId, tenantId), SideEffectLedger.Table(history);
    var after := RecordsOfExecution(records, Created(store, plan), tenantId, ids, approver, executor, w,
                                    ShippedWorld(clock, Some(ledger)), recordIds);
    CreatedKeepsKeys(store, plan);
    forall i | 0 <= i < |plan| ensures OneSuccess(records, after, plan[i]) {
      CreatedHolds(store, plan, ids[i]);
      EffectsAreTheTenants(history, intentId, tenantId, needy[i]);
      CompensationGainsOneSuccess(records, Created(store, plan), tenantId, ids, approver, executor, w, clock, ledger, i,
                                  needy[i], recordIds);
    }
  }

  /** Batch approval, then batch execution of the same identifiers. */
  method ApproveAndExecuteOn(service: ActionService, tenantId: Uuid, ids: seq<Uuid>, approver: Option<string>,
                             approveClock: nat -> Timestamp, executor: Option<string>, clock: nat -> Timestamp,
                             recordIds: nat -> Uuid)
    requires service.Valid() && RecordIdsFree(service, recordIds, 0)
    modifies service.Footprint()
    ensures service.Valid()
    ensures service.repo.actions ==
      ApprovedThenExecuted(old(service.repo.actions), tenantId, ids, approver, executor,
                           ShippedWorld(approveClock, old(service.LedgerView())),
                           ShippedWorld(clock, old(service.LedgerView())))
    ensures var w := ShippedWorld(approveClock, old(service.LedgerView()));
      var w' := ShippedWorld(clock, old(service.LedgerView()));
      var after := RecordsOfExecution(old(RecordsOf(service)), old(service.repo.actions), tenantId, ids, approver,
                                      executor, w, w', Shifted(recordIds, |ids|));
      RecordsAre(service, after)
  {
    ghost var records, store := RecordsOf(service), service.repo.actions;
    ghost var w := ShippedWorld(approveClock, service.LedgerView());
    NothingLeft(records, store, tenantId, ids, |ids|, BatchStep(BatchApprove(approver), w),
                BatchLeaves(BatchApprove(approver), w, recordIds));
    var _ := RunBatch(service, tenantId, ids, BatchApprove(approver), approveClock, recordIds);
    ShiftKeepsFree(service, recordIds, |ids|);
    var _ := RunBatch(service, tenantId, ids, BatchExecute(executor), clock, Shifted(recordIds, |ids|));
  }

  /** Planning on a live service. */
  method PlanOn(service: ActionService, intentId: Uuid, tenantId: Uuid, context: RebaseContext, freshId: nat -> Uuid,
                planClock: nat -> Timestamp) returns (r: Result<seq<Action>>)
    requires service.Valid()
    requires Injective(freshId) && forall i: nat :: freshId(i) !in service.repo.actions
    modifies service.repo
    ensures service.Valid()
    ensures service.sideEffects == null ==> r == Err(Internal) && service.repo.actions == old(service.repo.actions)
    ensures service.sideEffects != null ==>
      && r.Ok? && PlanFor(r.value, service.sideEffects.history, old(service.repo.actions), intentId, tenantId)
      && service.repo.actions == Created(old(service.repo.actions), r.value)
      && service.LedgerView() == Some(SideEffectLedger.Table(service.sideEffects.history))
      && SideEffectLedger.FreshIds(service.sideEffects.history)
  {
    ghost var store := service.repo.actions;
    r := service.PlanCompensationActions(intentId, tenantId, context, freshId, planClock);
    if r.Ok? {
      PlanIsForEffects(service.sideEffects.history, store, intentId, tenantId, context, freshId, planClock);
    }
  }

  /** The three calls on a live service, with or without a rollback record repository. */
  method PlanApproveExecuteOn(service: ActionService, intentId: Uuid, tenantId: Uuid, context: RebaseContext,
                              freshId: nat -> Uuid, planClock: nat -> Timestamp, approver: Option<string>,
                              approveClock: nat -> Timestamp, executor: Option<string>, clock: nat -> Timestamp,
                              recordIds: nat -> Uuid) returns (r: Result<seq<Action>>)
    requires service.Valid() && RecordIdsFree(service, recordIds, 0)
    requires Injective(freshId) && forall i: nat :: freshId(i) !in service.repo.actions
    modifies service.Footprint()
    ensures service.Valid()
    ensures service.sideEffects == null ==> r == Err(Internal) && service.repo.actions == old(service.repo.actions)
    ensures service.sideEffects != null ==>
      && r.Ok? && PlanFor(r.value, service.sideEffects.history, old(service.repo.actions), intentId, tenantId)
      && AllCompensated(r.value, old(service.repo.actions), service.repo.actions)
      && (service.records != null ==> EachOneSuccess(old(RecordsOf(service)), service.records.records, r.value))
  {
    ghost var store, records := service.repo.actions, RecordsOf(service);
    r := PlanOn(service, intentId, tenantId, context, freshId, planClock);
    if r.Ok? {
      ghost var w := ShippedWorld(approveClock, service.LedgerView());
      PlanIsCompensated(service.sideEffects.history, store, r.value, intentId, tenantId, approver, executor, w, clock);
      if service.records != null {
        ShiftKeepsFree(service, recordIds, |r.value|);
        PlanGainsOneSuccessEach(records, service.sideEffects.history, store, r.value, intentId, tenantId, approver,
                                executor, w, clock, Shifted(recordIds, |r.value|));
      }
      ApproveAndExecuteOn(service, tenantId, IdsOf(r.value), approver, approveClock, executor, clock, recordIds);
    }
  }
}
