/**
 What the program's descriptions say and its code does not: exactly when the two agree, and a
 witness that they differ.
 */
module Descriptions {
  import opened Base
  import opened Actions
  import opened ActionStore
  import opened DeadLetters
  import opened Executors
  import opened Lifecycle
  import opened Orchestration
  import opened OrchestrationRuns
  import opened Policy
  import opened Runtime
  import opened RuntimeSpec
  import opened SideEffects
  import opened Sweeps

  // ----- Which approved actions are executed -----

  /** The execution policy as described: Automatic feasibility, or one of three pairs. */
  predicate DescribedExecutable(a: Action) {
    || a.feasibility == Automatic
    || (a.strategy == CounterAction && a.feasibility == SemiAutomatic)
    || (a.strategy == FollowupNotice && a.feasibility == ManualOnly)
    || (a.strategy == Escalation && a.feasibility == NotPossible)
  }

  /** An approved action is executed as described, unless it is Automatic with a strategy other than Rollback. */
  lemma ExecutionAsDescribedIff(store: Store, id: Uuid, actor: Option<string>, env: Env)
    requires id in store && store[id].status == Approved
    ensures var a := store[id];
      (Perform(store, id, ExecuteCall(actor), env).result.Ok? <==> DescribedExecutable(a)) <==>
      (a.feasibility == Automatic ==> a.strategy == Rollback)
  {
  }

  lemma AutomaticCounterActionIsRefused(a: Action, env: Env)
    requires a.status == Approved && a.strategy == CounterAction && a.feasibility == Automatic
    ensures DescribedExecutable(a)
    ensures Perform(map[a.id := a], a.id, ExecuteCall(None), env).result == Err(NotExecutable(a.id))
  {
  }

  /** Ready as described: Approved and Automatic. */
  predicate DescribedReady(a: Action) {
    a.status == Approved && a.feasibility == Automatic
  }

  /**
   The coordination status is Ready as described, except for approved actions whose pair is not
   decided by being Automatic.
   */
  lemma ReadyAsDescribedIff(a: Action)
    ensures (CoordinationOf(a) == CoordReady <==> DescribedReady(a)) <==>
      (a.status == Approved ==>
         match a.feasibility
         case Automatic => a.strategy == Rollback
         case SemiAutomatic => a.strategy != CounterAction
         case ManualOnly => a.strategy != FollowupNotice
         case NotPossible => a.strategy != Escalation)
  {
  }

  lemma SemiAutomaticCounterActionIsReady(a: Action)
    requires a.status == Approved && a.strategy == CounterAction && a.feasibility == SemiAutomatic
    ensures CoordinationOf(a) == CoordReady && !DescribedReady(a)
  {
  }

  /** The runtime's execute choice as described: two pairs. */
  predicate DescribedChoice(a: Action) {
    && a.status == Approved
    && ((a.strategy == Rollback && a.feasibility == Automatic)
        || (a.strategy == CounterAction && a.feasibility == SemiAutomatic))
  }

  /** The runtime chooses as described except for approved notices and escalations, which it executes too. */
  lemma ChoiceAsDescribedIff(a: Action)
    ensures (Decide(a) == DecideExecute <==> DescribedChoice(a)) <==>
      !(a.status == Approved && ((a.strategy == FollowupNotice && a.feasibility == ManualOnly)
                                 || (a.strategy == Escalation && a.feasibility == NotPossible)))
  {
  }

  lemma EscalationIsChosen(a: Action)
    requires a.status == Approved && a.strategy == Escalation && a.feasibility == NotPossible
    ensures Decide(a) == DecideExecute && !DescribedChoice(a)
  {
  }

  // ----- What a run counts -----

  function SkipItem(): RunItem -> bool { (i: RunItem) => i.decision == DecideSkip }

  /** The skipped counter is the number of skipped actions exactly if there are none. */
  lemma SkippedCounterIff(started: Run, items: seq<RunItem>)
    requires Unexecuted(started)
    ensures Booked(started, items).skipped == Count(items, SkipItem()) <==>
      forall i :: 0 <= i < |items| ==> items[i].decision != DecideSkip
  {
    CountAll(items, SkipItem());
  }

  /** A terminal action is skipped, and the skip is booked as a success. */
  lemma SkipIsBookedAsSuccess(run: Run, store: Store, w: World)
    requires Unexecuted(run) && |run.actionIds| == 1
    requires Owned(store, run.tenantId, run.actionIds[0]) && IsTerminal(store[run.actionIds[0]].status)
    ensures var after := RunAfter(run, store, 1, RuntimePass(w));
      |after.items| == 1 && after.items[0].decision == DecideSkip && after.skipped == 0 && after.succeeded == 1
  {
    OneItem(run, store, RuntimePass(w));
  }

  lemma OneItem(run: Run, store: Store, p: Pass)
    requires Unexecuted(run) && |run.actionIds| == 1
    ensures var after, item := RunAfter(run, store, 1, p), ItemAt(store, run.tenantId, run.actionIds, 0, p);
      && after.items == [item] && after.skipped == 0
      && after.notFound == One(item.decision == DecideNotFound)
      && after.succeeded == One(item.decision != DecideNotFound && item.success)
      && after.failed == One(item.decision != DecideNotFound && !item.success)
  {
    var item := ItemAt(store, run.tenantId, run.actionIds, 0, p);
    assert ItemsOf(store, run.tenantId, run.actionIds, 0, p) == [];
    assert ItemsOf(store, run.tenantId, run.actionIds, 1, p) == [] + [item] == [item];
    assert run.items + [item] == [item];
    BookedOne(run, item);
  }

  /** An executed item is booked as a success in any case; its status tells whether the executor succeeded. */
  lemma ExecutionIsBookedAsSuccess(run: Run, store: Store, w: World)
    requires Unexecuted(run) && |run.actionIds| == 1 && Owned(store, run.tenantId, run.actionIds[0])
    requires Decide(store[run.actionIds[0]]) == DecideExecute
    ensures var after, a := RunAfter(run, store, 1, RuntimePass(w)), store[run.actionIds[0]];
      && |after.items| == 1 && after.succeeded == 1 && after.failed == 0
      && after.items[0].resultingStatus == Some(if w.answer(0, a).success then Executed else Failed)
  {
    OneItem(run, store, RuntimePass(w));
  }

  /** An action as the earlier listings of a run leave it for position `i`. */
  function MetAt(store: Store, ids: seq<Uuid>, i: nat, w: World): Action
    requires i < |ids| && ids[i] in store
  {
    Trail(store[ids[i]], ids, i, ids[i], AdvanceStep(w))
  }

  lemma MetUnchanged(store: Store, ids: seq<Uuid>, i: nat, w: World)
    requires Distinct(ids) && i < |ids| && ids[i] in store
    ensures MetAt(store, ids, i, w) == store[ids[i]]
  {
    TrailUnlisted(store[ids[i]], ids, i, ids[i], AdvanceStep(w));
  }

  function RunItems(run: Run, store: Store, w: World): seq<RunItem> {
    ItemsOf(store, run.tenantId, run.actionIds, |run.actionIds|, RuntimePass(w))
  }

  lemma ItemMet(store: Store, tenantId: Uuid, ids: seq<Uuid>, i: nat, w: World)
    requires i < |ids|
    ensures var item := ItemAt(store, tenantId, ids, i, RuntimePass(w));
      if Owned(store, tenantId, ids[i]) then
        && item.decision == Decide(MetAt(store, ids, i, w))
        && item.resultingStatus == Some(Advance(MetAt(store, ids, i, w), EnvAt(w, i, MetAt(store, ids, i, w))).status)
      else item.decision == DecideNotFound
  {
    AdvanceKeepsTenant(w);
    SweepIsTrail(store, tenantId, ids, i, AdvanceStep(w), ids[i]);
  }

  lemma SkippedIffQuiescent(a: Action)
    ensures Decide(a) == DecideSkip <==> Quiescent(a)
  {
    FailedIsReapprovableOrDead(a);
  }

  /**
   For any list the skipped counter of a first execution is right exactly if no listed action of the
   tenant is quiescent when its turn comes.
   */
  lemma SkippedCounterRightIff(run: Run, store: Store, w: World)
    requires Unexecuted(run)
    ensures var ids, items := run.actionIds, RunItems(run, store, w);
      Booked(run, items).skipped == Count(items, SkipItem()) <==>
      forall i :: 0 <= i < |ids| && Owned(store, run.tenantId, ids[i]) ==> !Quiescent(MetAt(store, ids, i, w))
  {
    var ids, items := run.actionIds, RunItems(run, store, w);
    SkippedCounterIff(run, items);
    ItemsLineUp(store, run.tenantId, ids, |ids|, RuntimePass(w));
    forall i | 0 <= i < |ids|
      ensures items[i].decision == DecideSkip <==>
        Owned(store, run.tenantId, ids[i]) && Quiescent(MetAt(store, ids, i, w))
    {
      ItemMet(store, run.tenantId, ids, i, w);
      if Owned(store, run.tenantId, ids[i]) {
        SkippedIffQuiescent(MetAt(store, ids, i, w));
      }
    }
  }

  /** Without repeats that can be read off the store the run starts from. */
  lemma SkippedCounterRightOnStoreIff(run: Run, store: Store, w: World)
    requires Unexecuted(run) && Distinct(run.actionIds)
    ensures var items := RunItems(run, store, w);
      Booked(run, items).skipped == Count(items, SkipItem()) <==>
      forall id :: id in run.actionIds && Owned(store, run.tenantId, id) ==> !Quiescent(store[id])
  {
    SkippedCounterRightIff(run, store, w);
    forall i | 0 <= i < |run.actionIds| && Owned(store, run.tenantId, run.actionIds[i])
      ensures MetAt(store, run.actionIds, i, w) == store[run.actionIds[i]]
    {
      MetUnchanged(store, run.actionIds, i, w);
    }
  }

  /** An execution that ended in Failed. */
  function FailedExecution(): RunItem -> bool {
    (i: RunItem) => i.decision == DecideExecute && i.resultingStatus == Some(Failed)
  }

  lemma ExecutionFailsIff(a: Action, w: World, i: nat)
    ensures Decide(a) == DecideExecute && Advance(a, EnvAt(w, i, a)).status == Failed <==>
      Decide(a) == DecideExecute && !w.answer(i, a).success
  {
  }

  /**
   For any list the failed counter of a first execution counts the executions that ended in Failed
   exactly if there are none: every listed action of the tenant that is up for execution when its
   turn comes succeeds.
   */
  lemma FailedCounterRightIff(run: Run, store: Store, w: World)
    requires Unexecuted(run)
    ensures var ids, items := run.actionIds, RunItems(run, store, w);
      Booked(run, items).failed == Count(items, FailedExecution()) <==>
      forall i :: 0 <= i < |ids| && Owned(store, run.tenantId, ids[i]) ==>
        Decide(MetAt(store, ids, i, w)) == DecideExecute ==> w.answer(i, MetAt(store, ids, i, w)).success
  {
    var ids, items, p := run.actionIds, RunItems(run, store, w), RuntimePass(w);
    RuntimePassIsSound(w);
    ItemsCount(store, run.tenantId, ids, |ids|, p);
    CountAll(items, FailedExecution());
    ItemsLineUp(store, run.tenantId, ids, |ids|, p);
    forall i | 0 <= i < |ids|
      ensures FailedExecution()(items[i]) <==>
        && Owned(store, run.tenantId, ids[i]) && Decide(MetAt(store, ids, i, w)) == DecideExecute
        && !w.answer(i, MetAt(store, ids, i, w)).success
    {
      ItemMet(store, run.tenantId, ids, i, w);
      if Owned(store, run.tenantId, ids[i]) {
        ExecutionFailsIff(MetAt(store, ids, i, w), w, i);
      }
    }
  }

  /** The tenant's action will be executed by the next run. */
  predicate IsDue(store: Store, tenantId: Uuid, id: Uuid) {
    Owned(store, tenantId, id) && Decide(store[id]) == DecideExecute
  }

  /** Without repeats that can be read off the store the run starts from and the executors' answers for it. */
  lemma FailedCounterRightOnStoreIff(run: Run, store: Store, w: World)
    requires Unexecuted(run) && Distinct(run.actionIds)
    ensures var ids, items := run.actionIds, RunItems(run, store, w);
      Booked(run, items).failed == Count(items, FailedExecution()) <==>
      forall i :: 0 <= i < |ids| && IsDue(store, run.tenantId, ids[i]) ==> w.answer(i, store[ids[i]]).success
  {
    FailedCounterRightIff(run, store, w);
    forall i | 0 <= i < |run.actionIds| && Owned(store, run.tenantId, run.actionIds[i])
      ensures MetAt(store, run.actionIds, i, w) == store[run.actionIds[i]]
    {
      MetUnchanged(store, run.actionIds, i, w);
    }
  }

  lemma DueSucceedsIff(store: Store, tenantId: Uuid, id: Uuid, clock: nat -> Timestamp, ledger: Option<Ledger>, i: nat)
    requires IsDue(store, tenantId, id)
    ensures ShippedWorld(clock, ledger).answer(i, store[id]).success <==>
      (ledger.Some? ==> Supports(ledger.value, store[id]))
  {
    ShippedSucceedsIff(ledger, store[id], clock(i));
  }

  /** With the shipped executors: exactly if the ledger, where there is one, supports every due action. */
  lemma FailedCounterRightOnLedgerIff(run: Run, store: Store, clock: nat -> Timestamp, ledger: Option<Ledger>)
    requires Unexecuted(run) && Distinct(run.actionIds)
    ensures var ids, items := run.actionIds, RunItems(run, store, ShippedWorld(clock, ledger));
      Booked(run, items).failed == Count(items, FailedExecution()) <==>
      forall i :: 0 <= i < |ids| && IsDue(store, run.tenantId, ids[i]) && ledger.Some? ==>
        Supports(ledger.value, store[ids[i]])
  {
    var ids, w := run.actionIds, ShippedWorld(clock, ledger);
    FailedCounterRightOnStoreIff(run, store, w);
    DueAllSucceedIff(store, run.tenantId, ids, clock, ledger);
  }

  lemma DueAllSucceedIff(store: Store, tenantId: Uuid, ids: seq<Uuid>, clock: nat -> Timestamp, ledger: Option<Ledger>)
    ensures var w := ShippedWorld(clock, ledger);
      (forall i :: 0 <= i < |ids| && IsDue(store, tenantId, ids[i]) ==> w.answer(i, store[ids[i]]).success) <==>
      (forall i :: 0 <= i < |ids| && IsDue(store, tenantId, ids[i]) && ledger.Some? ==>
         Supports(ledger.value, store[ids[i]]))
  {
    var w := ShippedWorld(clock, ledger);
    forall i | 0 <= i < |ids| && IsDue(store, tenantId, ids[i])
      ensures w.answer(i, store[ids[i]]).success <==> (ledger.Some? ==> Supports(ledger.value, store[ids[i]]))
    {
      DueSucceedsIff(store, tenantId, ids[i], clock, ledger, i);
    }
  }

  // ----- Executing a stored run again -----

  /** What one execution of a stored run meets: the clock at its ends, the store, and the pass it makes. */
  datatype Round = Round(begun: Timestamp, store: Store, pass: Pass, done: Timestamp)

  /** The stored run after `k` executions. */
  function Reexecuted(run: Run, rounds: nat -> Round, k: nat): Run {
    if k == 0 then run
    else
      var before, round := Reexecuted(run, rounds, k - 1), rounds(k - 1);
      Finished(RunAfter(Started(before, round.begun), round.store, |before.actionIds|, round.pass), round.done)
  }

  function CounterSum(run: Run): nat {
    run.succeeded + run.failed + run.skipped + run.notFound
  }

  lemma RoundAddsTotal(run: Run, round: Round)
    ensures var n := |run.actionIds|;
      var after := Finished(RunAfter(Started(run, round.begun), round.store, n, round.pass), round.done);
      && after.actionIds == run.actionIds && after.total == run.total
      && CounterSum(after) == CounterSum(run) + n && |after.items| == |run.items| + n
  {
    var started := Started(run, round.begun);
    ItemsLineUp(round.store, started.tenantId, started.actionIds, |started.actionIds|, round.pass);
    CountsCover(ItemsOf(round.store, started.tenantId, started.actionIds, |started.actionIds|, round.pass));
  }

  lemma OneMore(k: int, n: int)
    ensures (k - 1) * n + n == k * n
  {
  }

  /** Whatever the stores and passes, `k` executions count and list every identifier `k` times. */
  lemma {:induction false} ReexecutionAccumulates(run: Run, rounds: nat -> Round, k: nat)
    requires Unexecuted(run)
    ensures var after := Reexecuted(run, rounds, k);
      && after.actionIds == run.actionIds && after.total == |run.actionIds|
      && CounterSum(after) == k * |run.actionIds| && |after.items| == k * |run.actionIds|
  {
    if k > 0 {
      ReexecutionAccumulates(run, rounds, k - 1);
      RoundAddsTotal(Reexecuted(run, rounds, k - 1), rounds(k - 1));
      OneMore(k, |run.actionIds|);
    }
  }

  lemma OnceIff(k: nat, n: nat)
    requires n > 0
    ensures k * n == n <==> k == 1
  {
    assert k * n - n == (k - 1) * n;
  }

  /** So the counters equal the total, and the items line up with the list, exactly after one execution. */
  lemma CountersEqualTotalIffOnce(run: Run, rounds: nat -> Round, k: nat)
    requires Unexecuted(run) && run.actionIds != []
    ensures var after := Reexecuted(run, rounds, k);
      && (CounterSum(after) == after.total <==> k == 1)
      && (|after.items| == after.total <==> k == 1)
  {
    ReexecutionAccumulates(run, rounds, k);
    OnceIff(k, |run.actionIds|);
  }

  lemma SecondExecutionCountsTwice(run: Run, rounds: nat -> Round)
    requires run == NewRun(run.id, run.tenantId, [run.id], None, None, run.createdAt)
    ensures var after := Reexecuted(run, rounds, 2);
      after.total == 1 && CounterSum(after) == 2 && |after.items| == 2
  {
    ReexecutionAccumulates(run, rounds, 2);
  }

  // ----- Versions are 32-bit integers in the source -----

  const I32_MAX := 0x7fff_ffff
  const LARGEST_SAFE_BUDGET := 715_827_882

  /** The version bound of guarded runs fits exactly up to this budget. */
  lemma VersionBoundFitsIff(a: Action)
    ensures 3 * Budget(a) - 1 <= I32_MAX <==> a.maxRetries <= LARGEST_SAFE_BUDGET
  {
  }

  /** Beyond it, repeated runs with retryable failures do reach a version that does not fit. */
  lemma LargeBudgetOverflows(store: Store, tenantId: Uuid, id: Uuid, worlds: nat -> World)
    requires Owned(store, tenantId, id) && Fresh(store[id]) && IsServiceExecutable(store[id])
    requires forall k :: FailsSoftly(worlds(k))
    requires store[id].maxRetries > LARGEST_SAFE_BUDGET
    ensures var s := Passes(store, tenantId, [id], worlds, I32_MAX + 1);
      id in s && s[id].lockVersion == I32_MAX + 1
  {
    BoundIsTight(store, tenantId, id, worlds, I32_MAX + 1);
  }
}
