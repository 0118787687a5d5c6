/** What one orchestration pass does, as functions, and the theorems about passes. */
module RuntimeSpec {
  import opened Base
  import opened Actions
  import opened ActionStore
  import opened CallContracts
  import opened DeadLetters
  import opened Executors
  import opened Lifecycle
  import opened Orchestration
  import opened OrchestrationRuns
  import opened PassRecords
  import opened Planner
  import opened RollbackRecords
  import opened SideEffects
  import opened Sweeps

  /** The runtime's choice for an action of the run's tenant. */
  function Decide(a: Action): Decision {
    match a.status
    case Pending => DecideApprove
    case Approved => if IsServiceExecutable(a) then DecideExecute else DecideSkip
    case Failed => if CanBeReapproved(a) then DecideReapprove else DecideSkip
    case Executed => DecideSkip
    case Waived => DecideSkip
  }

  /** The service call that carries a decision out, with the version just read. */
  function CallFor(a: Action): Option<Call> {
    match Decide(a)
    case DecideApprove => Some(ApproveCall(a.lockVersion, None))
    case DecideReapprove => Some(ReapproveCall(a.lockVersion))
    case DecideExecute => Some(ExecuteCall(None))
    case _ => None
  }

  /** One step of an action under the runtime. */
  function Advance(a: Action, env: Env): Action {
    if CallFor(a).Some? then Apply(a, WriteOf(CallFor(a).value, env)) else a
  }

  function AdvanceStep(w: World): (nat, Action) -> Action {
    (i: nat, a: Action) => Advance(a, EnvAt(w, i, a))
  }

  /** The call a decision leads to succeeds on the action it was decided for, and does exactly one step. */
  lemma DecidedCallSucceeds(store: Store, id: Uuid, env: Env)
    requires id in store && CallFor(store[id]).Some?
    ensures Perform(store, id, CallFor(store[id]).value, env) ==
      Outcome(store[id := Advance(store[id], env)], Ok(Advance(store[id], env)))
  {
  }

  /** What one step of a run makes of an action, field by field; the runtime names no actor. */
  lemma AdvanceTells(w: World, i: nat, a: Action)
    ensures var r := w.answer(i, a);
      var next := a.(lockVersion := a.lockVersion + 1);
      AdvanceStep(w)(i, a) ==
      match a.status
      case Pending => next.(status := Approved, approvedAt := Some(w.clock(i)))
      case Approved =>
        if !IsExecutablePair(a.strategy, a.feasibility) then a
        else if r.success then
          next.(status := Executed, attemptCount := a.attemptCount + 1, payload := Some(r),
                executedAt := Some(r.completedAt))
        else
          next.(status := Failed, attemptCount := a.attemptCount + 1, payload := Some(r),
                failedAt := Some(r.completedAt))
      case Failed =>
        if a.attemptCount < a.maxRetries && MayPass(a) then next.(status := Pending, failedAt := None) else a
      case Executed => a
      case Waived => a
  {
    RetryPolicyTells(a);
  }

  /** The store after a run over `ids`. */
  function RunStore(store: Store, tenantId: Uuid, ids: seq<Uuid>, w: World): Store {
    Sweep(store, tenantId, ids, |ids|, AdvanceStep(w))
  }

  /** A pass: what it makes of an action at a position, and what it notes having decided. */
  datatype Pass = Pass(step: (nat, Action) -> Action, decide: Action -> Decision)

  function RuntimePass(w: World): Pass {
    Pass(AdvanceStep(w), (a: Action) => Decide(a))
  }

  /** What a pass notes at position `i`. */
  function ItemAt(store: Store, tenantId: Uuid, ids: seq<Uuid>, i: nat, p: Pass): RunItem
    requires i < |ids|
  {
    var before := Sweep(store, tenantId, ids, i, p.step);
    if Owned(before, tenantId, ids[i]) then
      RunItem(ids[i], p.decide(before[ids[i]]), true, Some(p.step(i, before[ids[i]]).status))
    else
      RunItem(ids[i], DecideNotFound, false, None)
  }

  function ItemsOf(store: Store, tenantId: Uuid, ids: seq<Uuid>, n: nat, p: Pass): seq<RunItem>
    requires n <= |ids|
  {
    if n == 0 then [] else ItemsOf(store, tenantId, ids, n - 1, p) + [ItemAt(store, tenantId, ids, n - 1, p)]
  }

  ghost predicate Sound(p: Pass) {
    KeepsTenant(p.step) && forall a: Action :: p.decide(a) != DecideNotFound
  }

  lemma RuntimePassIsSound(w: World)
    ensures Sound(RuntimePass(w))
  {
  }

  lemma ItemTells(store: Store, tenantId: Uuid, ids: seq<Uuid>, i: nat, p: Pass)
    requires i < |ids| && Sound(p)
    ensures var item := ItemAt(store, tenantId, ids, i, p);
      && item.actionId == ids[i]
      && (item.decision == DecideNotFound <==> !Owned(store, tenantId, ids[i]))
      && (item.success <==> Owned(store, tenantId, ids[i]))
  {
    SweepIsTrail(store, tenantId, ids, i, p.step, ids[i]);
  }

  /** Items line up with the list. */
  lemma {:induction false} ItemsLineUp(store: Store, tenantId: Uuid, ids: seq<Uuid>, n: nat, p: Pass)
    requires n <= |ids|
    ensures |ItemsOf(store, tenantId, ids, n, p)| == n
    ensures forall i :: 0 <= i < n ==> ItemsOf(store, tenantId, ids, n, p)[i] == ItemAt(store, tenantId, ids, i, p)
  {
    if n > 0 {
      ItemsLineUp(store, tenantId, ids, n - 1, p);
    }
  }

  /** No item is a failure, and the missing ones are exactly the unowned identifiers. */
  lemma {:induction false} ItemsCount(store: Store, tenantId: Uuid, ids: seq<Uuid>, n: nat, p: Pass)
    requires n <= |ids| && Sound(p)
    ensures Count(ItemsOf(store, tenantId, ids, n, p), FailureItem()) == 0
    ensures Count(ItemsOf(store, tenantId, ids, n, p), NotFoundItem()) == Count(ids[..n], Missing(store, tenantId))
  {
    if n > 0 {
      ItemsCount(store, tenantId, ids, n - 1, p);
      ItemTells(store, tenantId, ids, n - 1, p);
      AppendCounts(ItemsOf(store, tenantId, ids, n - 1, p), ItemAt(store, tenantId, ids, n - 1, p), ids[..n - 1],
                   ids[n - 1], Missing(store, tenantId));
      assert ids[..n] == ids[..n - 1] + [ids[n - 1]];
    }
  }

  lemma AppendCounts(items: seq<RunItem>, item: RunItem, ids: seq<Uuid>, id: Uuid, missing: Uuid -> bool)
    requires item.decision == DecideNotFound <==> missing(id)
    requires item.success || item.decision == DecideNotFound
    ensures Count(items + [item], FailureItem()) == Count(items, FailureItem())
    ensures Count(items + [item], NotFoundItem()) - Count(ids + [id], missing) ==
      Count(items, NotFoundItem()) - Count(ids, missing)
  {
    CountAppend(items, FailureItem(), item);
    CountAppend(items, NotFoundItem(), item);
    CountAppend(ids, missing, id);
  }

  lemma AdvanceKeepsTenant(w: World)
    ensures KeepsTenant(AdvanceStep(w))
  {
  }

  // ----- Rollback records of a run -----

  /** Only an execution leaves a record. */
  function RunLeft(a: Action, recordId: Uuid, env: Env): Option<RollbackRecord> {
    if Decide(a) == DecideExecute then Some(RecordFor(recordId, a, ExecuteCall(None), env.result, env.now)) else None
  }

  function RunLeaves(w: World, recordIds: nat -> Uuid): Leaving {
    (i: nat, a: Action) => RunLeft(a, recordIds(i), EnvAt(w, i, a))
  }

  /** A run files one record per attempt, under its own identifiers. */
  lemma RunFiles(w: World, recordIds: nat -> Uuid)
    ensures Numbers(RunLeaves(w, recordIds), recordIds)
    ensures CountsAttempts(AdvanceStep(w), RunLeaves(w, recordIds))
  {
    forall i: nat, a: Action ensures CountsAttempt(a, AdvanceStep(w)(i, a), RunLeaves(w, recordIds)(i, a)) {
      RunStepFiles(a, recordIds(i), EnvAt(w, i, a));
    }
  }

  lemma RunStepFiles(a: Action, recordId: Uuid, env: Env)
    ensures CountsAttempt(a, Advance(a, env), RunLeft(a, recordId, env))
  {
    if CallFor(a).Some? {
      ApplyFrame(a, WriteOf(CallFor(a).value, env));
    }
  }

  /** Whatever the list, a run leaves each action as many new records as attempts, and the old ones alone. */
  lemma RunRecordsMatch(records: Records, store: Store, tenantId: Uuid, ids: seq<Uuid>, w: World,
                        recordIds: nat -> Uuid, id: Uuid)
    requires FreeIds(recordIds, records)
    requires KeyedStore(store) && id in store
    ensures var after := SweepRecords(records, store, tenantId, ids, |ids|, AdvanceStep(w), RunLeaves(w, recordIds));
      var swept := RunStore(store, tenantId, ids, w);
      && id in swept && |Gained(records, after, id)| == swept[id].attemptCount - store[id].attemptCount
      && (forall r :: r in records ==> r in after && after[r] == records[r])
  {
    RunFiles(w, recordIds);
    GainedMatchAttempts(records, store, tenantId, ids, AdvanceStep(w), RunLeaves(w, recordIds), recordIds, id);
  }

  /** Each new record is of a listed action of the tenant, and tells how the execution at its position ended. */
  lemma RunRecordsTell(records: Records, store: Store, tenantId: Uuid, ids: seq<Uuid>, w: World,
                       recordIds: nat -> Uuid, r: Uuid) returns (i: nat)
    requires FreeIds(recordIds, records)
    requires var after := SweepRecords(records, store, tenantId, ids, |ids|, AdvanceStep(w), RunLeaves(w, recordIds));
      r in after && r !in records
    ensures i < |ids| && r == recordIds(i)
    ensures var after := SweepRecords(records, store, tenantId, ids, |ids|, AdvanceStep(w), RunLeaves(w, recordIds));
      var before := Sweep(store, tenantId, ids, i, AdvanceStep(w));
      && Owned(before, tenantId, ids[i])
      && Tells(after[r], before[ids[i]], Sweep(store, tenantId, ids, i + 1, AdvanceStep(w))[ids[i]])
  {
    RunFiles(w, recordIds);
    i := GainedTell(records, store, tenantId, ids, AdvanceStep(w), RunLeaves(w, recordIds), recordIds, r);
  }

  // ----- The dry run predicts the run -----

  function AsDecision(p: Proposal): Decision {
    match p
    case ProposeApprove => DecideApprove
    case ProposeReapprove => DecideReapprove
    case ProposeExecute => DecideExecute
    case NoAction => DecideSkip
  }

  /** What the dry run says about an identifier, in the run's vocabulary. */
  function Predicted(store: Store, tenantId: Uuid, id: Uuid): Decision {
    if Owned(store, tenantId, id) then AsDecision(ComputeProposal(store[id])) else DecideNotFound
  }

  /**
   For any list, repeats included: the decision at a position is the dry run's answer for the action
   as its earlier listings have left it, so an identifier listed k times takes k steps.
   */
  lemma RunFollowsTrails(store: Store, tenantId: Uuid, ids: seq<Uuid>, i: nat, w: World)
    requires i < |ids|
    ensures ItemAt(store, tenantId, ids, i, RuntimePass(w)).actionId == ids[i]
    ensures ItemAt(store, tenantId, ids, i, RuntimePass(w)).decision ==
      if Owned(store, tenantId, ids[i])
      then AsDecision(ComputeProposal(Trail(store[ids[i]], ids, i, ids[i], AdvanceStep(w))))
      else DecideNotFound
  {
    AdvanceKeepsTenant(w);
    SweepIsTrail(store, tenantId, ids, i, AdvanceStep(w), ids[i]);
  }

  /** Without repeats, the run decides at every position what the dry run proposed on the initial store. */
  lemma DryRunPredictsRun(store: Store, tenantId: Uuid, ids: seq<Uuid>, i: nat, w: World)
    requires Distinct(ids) && i < |ids|
    ensures ItemAt(store, tenantId, ids, i, RuntimePass(w)).decision == Predicted(store, tenantId, ids[i])
  {
    RunFollowsTrails(store, tenantId, ids, i, w);
    if Owned(store, tenantId, ids[i]) {
      TrailUnlisted(store[ids[i]], ids, i, ids[i], AdvanceStep(w));
    }
  }

  /** Without repeats, the run leaves each listed owned action one step on and everything else alone. */
  lemma RunIsOneStepEach(store: Store, tenantId: Uuid, ids: seq<Uuid>, w: World, id: Uuid)
    requires Distinct(ids) && id in store
    ensures id in RunStore(store, tenantId, ids, w)
    ensures forall p :: 0 <= p < |ids| && ids[p] == id && store[id].tenantId == tenantId ==>
      RunStore(store, tenantId, ids, w)[id] == Advance(store[id], EnvAt(w, p, store[id]))
    ensures id !in ids || store[id].tenantId != tenantId ==> RunStore(store, tenantId, ids, w)[id] == store[id]
  {
    DistinctSweep(store, tenantId, ids, |ids|, AdvanceStep(w), id);
    assert ids[..|ids|] == ids;
  }

  // ----- Repeated runs converge -----

  /** The store after `n` runs over the same list, each in its own world. */
  function Passes(store: Store, tenantId: Uuid, ids: seq<Uuid>, worlds: nat -> World, n: nat): Store {
    if n == 0 then store else RunStore(Passes(store, tenantId, ids, worlds, n - 1), tenantId, ids, worlds(n - 1))
  }

  /** How many more steps an action can take at most. */
  function Rank(a: Action): int {
    if Quiescent(a) then 0
    else match a.status
      case Pending => 3 * (Budget(a) - a.attemptCount) - 1
      case Approved => 3 * (Budget(a) - a.attemptCount) - 2
      case Failed => 3 * (Budget(a) - a.attemptCount)
      case Executed => 0
      case Waived => 0
  }

  lemma AdvanceLowersRank(a: Action, env: Env)
    requires LifecycleOk(a)
    ensures LifecycleOk(Advance(a, env)) && SameIdentity(a, Advance(a, env))
    ensures 0 <= Rank(a) <= 3 * Budget(a) - 1
    ensures Rank(a) == 0 <==> Quiescent(a)
    ensures if Quiescent(a) then Advance(a, env) == a else 0 <= Rank(Advance(a, env)) < Rank(a)
  {
    if CallFor(a).Some? {
      CallKeepsLifecycle(CallFor(a).value, a, env);
    }
  }

  /** A measure of the steps left to the `good` actions in every one of the worlds: zero exactly at rest. */
  ghost predicate Measures(worlds: nat -> World, good: Action -> bool, rank: Action -> nat) {
    && (forall k :: Descends(AdvanceStep(worlds(k)), good, rank))
    && (forall a: Action :: good(a) ==> (rank(a) == 0 <==> Quiescent(a)))
  }

  /** Each pass takes a listed owned action at least one step down, until it is quiescent. */
  lemma {:induction false} PassesLowerRank(store: Store, tenantId: Uuid, ids: seq<Uuid>, worlds: nat -> World, n: nat,
                                           id: Uuid, good: Action -> bool, rank: Action -> nat)
    requires Measures(worlds, good, rank) && Owned(store, tenantId, id) && id in ids && good(store[id])
    ensures var s := Passes(store, tenantId, ids, worlds, n);
      Owned(s, tenantId, id) && good(s[id]) && (rank(s[id]) == 0 || rank(s[id]) <= rank(store[id]) - n)
  {
    if n > 0 {
      PassesLowerRank(store, tenantId, ids, worlds, n - 1, id, good, rank);
      var s, f := Passes(store, tenantId, ids, worlds, n - 1), AdvanceStep(worlds(n - 1));
      AdvanceKeepsTenant(worlds(n - 1));
      SweepIsTrail(s, tenantId, ids, |ids|, f, id);
      assert ids[..|ids|] == ids;
      TrailDescends(s[id], ids, |ids|, id, f, good, rank);
    }
  }

  lemma {:induction false} SettledRunChangesNothing(store: Store, tenantId: Uuid, ids: seq<Uuid>, n: nat, w: World)
    requires n <= |ids|
    requires forall id :: id in ids && Owned(store, tenantId, id) ==> Quiescent(store[id])
    ensures Sweep(store, tenantId, ids, n, AdvanceStep(w)) == store
  {
    if n > 0 {
      SettledRunChangesNothing(store, tenantId, ids, n - 1, w);
      var id := ids[n - 1];
      if Owned(store, tenantId, id) {
        assert Quiescent(store[id]);
        assert Advance(store[id], EnvAt(w, n - 1, store[id])) == store[id];
      }
    }
  }

  lemma {:induction false} PassesKeepOwned(store: Store, tenantId: Uuid, ids: seq<Uuid>, worlds: nat -> World, n: nat,
                                           id: Uuid)
    ensures Owned(Passes(store, tenantId, ids, worlds, n), tenantId, id) <==> Owned(store, tenantId, id)
  {
    if n > 0 {
      PassesKeepOwned(store, tenantId, ids, worlds, n - 1, id);
      AdvanceKeepsTenant(worlds(n - 1));
      SweepIsTrail(Passes(store, tenantId, ids, worlds, n - 1), tenantId, ids, |ids|, AdvanceStep(worlds(n - 1)), id);
    }
  }

  /** The listed actions the tenant owned before are still there and at rest. */
  predicate Settled(before: Store, after: Store, tenantId: Uuid, ids: seq<Uuid>) {
    forall id :: id in ids && Owned(before, tenantId, id) ==> Owned(after, tenantId, id) && Quiescent(after[id])
  }

  /** Passes that suffice by some measure settle the listed actions of the tenant, and further passes change nothing. */
  lemma {:induction false} PassesSettle(store: Store, tenantId: Uuid, ids: seq<Uuid>, worlds: nat -> World, n: nat,
                                        m: nat, good: Action -> bool, rank: Action -> nat)
    requires Measures(worlds, good, rank) && n <= m
    requires forall id :: id in ids && Owned(store, tenantId, id) ==> good(store[id]) && rank(store[id]) <= n
    ensures Settled(store, Passes(store, tenantId, ids, worlds, n), tenantId, ids)
    ensures Passes(store, tenantId, ids, worlds, m) == Passes(store, tenantId, ids, worlds, n)
  {
    var s := Passes(store, tenantId, ids, worlds, n);
    forall id | id in ids
      ensures Owned(s, tenantId, id) <==> Owned(store, tenantId, id)
      ensures Owned(s, tenantId, id) ==> Quiescent(s[id])
    {
      PassesKeepOwned(store, tenantId, ids, worlds, n, id);
      if Owned(store, tenantId, id) {
        PassesLowerRank(store, tenantId, ids, worlds, n, id, good, rank);
      }
    }
    if n < m {
      PassesSettle(store, tenantId, ids, worlds, n, m - 1, good, rank);
      SettledRunChangesNothing(s, tenantId, ids, |ids|, worlds(m - 1));
    }
  }

  function WithinLifecycle(): Action -> bool { (a: Action) => LifecycleOk(a) }
  function StepsLeft(): Action -> nat { (a: Action) => if Rank(a) < 0 then 0 else Rank(a) }

  lemma RankMeasures(worlds: nat -> World)
    ensures Measures(worlds, WithinLifecycle(), StepsLeft())
  {
    forall a: Action, env: Env | LifecycleOk(a)
      ensures LifecycleOk(Advance(a, env)) && 0 <= Rank(a) && (Rank(a) == 0 <==> Quiescent(a))
      ensures if Quiescent(a) then Advance(a, env) == a else 0 <= Rank(Advance(a, env)) < Rank(a)
    {
      AdvanceLowersRank(a, env);
    }
    forall k ensures Descends(AdvanceStep(worlds(k)), WithinLifecycle(), StepsLeft()) {
    }
  }

  /** The passes that suffice for every listed owned action. */
  predicate Enough(store: Store, tenantId: Uuid, ids: seq<Uuid>, n: nat) {
    forall id :: id in ids && Owned(store, tenantId, id) ==> LifecycleOk(store[id]) && 3 * Budget(store[id]) - 1 <= n
  }

  /**
   Convergence with arbitrary executor answers: after 3 * max(1, max_retries) - 1 passes every listed
   action of the tenant is quiescent, and every further pass leaves the whole store as it is.
   */
  lemma {:induction false} RepeatedRunsConverge(store: Store, tenantId: Uuid, ids: seq<Uuid>, worlds: nat -> World,
                                                n: nat, m: nat)
    requires Enough(store, tenantId, ids, n) && n <= m
    ensures Settled(store, Passes(store, tenantId, ids, worlds, n), tenantId, ids)
    ensures Passes(store, tenantId, ids, worlds, m) == Passes(store, tenantId, ids, worlds, n)
  {
    RankMeasures(worlds);
    forall id | id in ids && Owned(store, tenantId, id) ensures StepsLeft()(store[id]) <= n {
      AdvanceLowersRank(store[id], EnvAt(worlds(0), 0, store[id]));
    }
    PassesSettle(store, tenantId, ids, worlds, n, m, WithinLifecycle(), StepsLeft());
  }

  // ----- With the shipped executors two runs suffice -----

  ghost predicate AnswersFinally(w: World) {
    forall i: nat, a: Action :: Final(w.answer(i, a))
  }

  lemma ShippedWorldAnswersFinally(clock: nat -> Timestamp, ledger: Option<Ledger>)
    ensures AnswersFinally(ShippedWorld(clock, ledger))
  {
    forall i: nat, a: Action ensures Final(ShippedWorld(clock, ledger).answer(i, a)) {
      ShippedResultsAreFinal(ledger, a, clock(i));
    }
  }

  /** An approval and an execution are left, or an execution, or nothing. */
  function ShippedRank(a: Action): nat {
    if Quiescent(a) then 0 else if a.status == Pending then 2 else 1
  }

  function Untried(): Action -> bool { (a: Action) => OneShot(a) }
  function ShippedStepsLeft(): Action -> nat { (a: Action) => ShippedRank(a) }

  lemma ShippedStepDescends(a: Action, env: Env)
    requires OneShot(a) && Final(env.result)
    ensures OneShot(Advance(a, env))
    ensures if ShippedRank(a) == 0 then Advance(a, env) == a else ShippedRank(Advance(a, env)) < ShippedRank(a)
  {
    if CallFor(a).Some? {
      OneShotStep(a, CallFor(a).value, env);
    }
  }

  lemma ShippedRankMeasures(worlds: nat -> World)
    requires forall k :: AnswersFinally(worlds(k))
    ensures Measures(worlds, Untried(), ShippedStepsLeft())
  {
    forall k ensures Descends(AdvanceStep(worlds(k)), Untried(), ShippedStepsLeft()) {
      var w := worlds(k);
      assert AnswersFinally(w);
      forall i: nat, a: Action | OneShot(a)
        ensures OneShot(AdvanceStep(w)(i, a))
        ensures var b := AdvanceStep(w)(i, a);
          if ShippedRank(a) == 0 then b == a else ShippedRank(b) < ShippedRank(a)
      {
        ShippedStepDescends(a, EnvAt(w, i, a));
      }
    }
  }

  /**
   Convergence as shipped, whatever the ledgers, the clocks and the retry budgets: two runs over a
   list settle every listed action of the tenant, and further runs change nothing.
   */
  lemma ShippedRunsConverge(store: Store, tenantId: Uuid, ids: seq<Uuid>, clocks: nat -> nat -> Timestamp,
                            ledgers: nat -> Option<Ledger>, m: nat)
    requires forall id :: id in ids && Owned(store, tenantId, id) ==> OneShot(store[id])
    requires 2 <= m
    ensures var worlds := ShippedWorlds(clocks, ledgers);
      && Settled(store, Passes(store, tenantId, ids, worlds, 2), tenantId, ids)
      && Passes(store, tenantId, ids, worlds, m) == Passes(store, tenantId, ids, worlds, 2)
  {
    var worlds := ShippedWorlds(clocks, ledgers);
    forall k ensures AnswersFinally(worlds(k)) {
      ShippedWorldAnswersFinally(clocks(k), ledgers(k));
    }
    ShippedRankMeasures(worlds);
    PassesSettle(store, tenantId, ids, worlds, 2, m, Untried(), ShippedStepsLeft());
  }

  function ShippedWorlds(clocks: nat -> nat -> Timestamp, ledgers: nat -> Option<Ledger>): nat -> World {
    (k: nat) => ShippedWorld(clocks(k), ledgers(k))
  }

  /** Without repeats one run suffices exactly if no listed action of the tenant is pending and executable. */
  lemma OneRunSufficesIff(store: Store, tenantId: Uuid, ids: seq<Uuid>, worlds: nat -> World)
    requires Distinct(ids) && AnswersFinally(worlds(0))
    requires forall id :: id in ids && Owned(store, tenantId, id) ==> OneShot(store[id])
    ensures Settled(store, Passes(store, tenantId, ids, worlds, 1), tenantId, ids) <==>
      forall id :: id in ids && Owned(store, tenantId, id) ==>
        !(store[id].status == Pending && IsServiceExecutable(store[id]))
  {
    var s, w := Passes(store, tenantId, ids, worlds, 1), worlds(0);
    assert Passes(store, tenantId, ids, worlds, 0) == store;
    forall id | id in ids && Owned(store, tenantId, id)
      ensures Owned(s, tenantId, id)
      ensures Quiescent(s[id]) <==> !(store[id].status == Pending && IsServiceExecutable(store[id]))
    {
      var p :| 0 <= p < |ids| && ids[p] == id;
      RunIsOneStepEach(store, tenantId, ids, w, id);
      ShippedStepDescends(store[id], EnvAt(w, p, store[id]));
      assert s[id] == Advance(store[id], EnvAt(w, p, store[id]));
    }
  }

  // ----- The bound is reached -----

  /** An executor that always fails without saying why, which may be retried. */
  ghost predicate FailsSoftly(w: World) {
    forall i: nat, a: Action :: !w.answer(i, a).success && w.answer(i, a).errorCode == None
  }

  predicate Retrying(a: Action) {
    LifecycleOk(a) && IsServiceExecutable(a) && !HasErrorCode(a)
  }

  lemma SoftFailureStep(a: Action, env: Env)
    requires Retrying(a) && !Quiescent(a) && !env.result.success && env.result.errorCode == None
    ensures Retrying(Advance(a, env)) && Rank(Advance(a, env)) == Rank(a) - 1
    ensures Advance(a, env).lockVersion == a.lockVersion + 1
    ensures Budget(Advance(a, env)) == Budget(a) && Advance(a, env).tenantId == a.tenantId
  {
    AdvanceLowersRank(a, env);
  }

  /**
   No smaller number of passes suffices: with retryable failures, a fresh executable action uses
   up the whole bound.
   */
  lemma {:induction false} BoundIsTight(store: Store, tenantId: Uuid, id: Uuid, worlds: nat -> World, n: nat)
    requires Owned(store, tenantId, id) && Fresh(store[id]) && IsServiceExecutable(store[id])
    requires forall k :: FailsSoftly(worlds(k))
    requires n <= 3 * Budget(store[id]) - 1
    ensures var s := Passes(store, tenantId, [id], worlds, n);
      && Owned(s, tenantId, id) && Retrying(s[id]) && Budget(s[id]) == Budget(store[id])
      && Rank(s[id]) == 3 * Budget(store[id]) - 1 - n && s[id].lockVersion == n
      && (Quiescent(s[id]) <==> n == 3 * Budget(store[id]) - 1)
  {
    if n > 0 {
      BoundIsTight(store, tenantId, id, worlds, n - 1);
      var s, w := Passes(store, tenantId, [id], worlds, n - 1), worlds(n - 1);
      assert FailsSoftly(w);
      SoftFailureStep(s[id], EnvAt(w, 0, s[id]));
      RunIsOneStepEach(s, tenantId, [id], w, id);
      assert [id][0] == id;
      var a := Advance(s[id], EnvAt(w, 0, s[id]));
      AdvanceLowersRank(a, EnvAt(w, 0, a));
    }
  }
}
