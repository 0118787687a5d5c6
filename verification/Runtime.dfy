/** The single-shot orchestration runtime: one pass over a stored run's identifiers, persisted item by item. */
module Runtime {
  import opened Base
  import opened Actions
  import opened ActionStore
  import opened ActionServices
  import opened Orchestration
  import opened OrchestrationRuns
  import opened PassRecords
  import opened RuntimeSpec
  import opened Sweeps

  /** How the outcome of an item appears in the run: missing actions and errors become items too. */
  function Noted(id: Uuid, r: Result<RunItem>): RunItem {
    if r.Ok? then r.value
    else if r.error.ActionNotFound? then RunItem(id, DecideNotFound, false, None)
    else RunItem(id, DecideSkip, false, None)
  }

  /** The run after `m` items, and its values after each of them. */
  function RunAfter(started: Run, store: Store, m: nat, p: Pass): Run
    requires m <= |started.actionIds|
  {
    Booked(started, ItemsOf(store, started.tenantId, started.actionIds, m, p))
  }

  function RunValues(started: Run, store: Store, m: nat, p: Pass): seq<Run>
    requires m <= |started.actionIds|
  {
    if m == 0 then [] else RunValues(started, store, m - 1, p) + [RunAfter(started, store, m, p)]
  }

  lemma NextValue(started: Run, store: Store, i: nat, p: Pass)
    requires i < |started.actionIds|
    ensures var item := ItemAt(store, started.tenantId, started.actionIds, i, p);
      RunAfter(started, store, i + 1, p) == Booked(RunAfter(started, store, i, p), [item])
    ensures RunValues(started, store, i + 1, p) ==
      RunValues(started, store, i, p) + [RunAfter(started, store, i + 1, p)]
  {
    BookedAppend(started, ItemsOf(store, started.tenantId, started.actionIds, i, p),
                 ItemAt(store, started.tenantId, started.actionIds, i, p));
  }

  /** The run, the store and the repository as a pass finds them. */
  datatype PassStart = PassStart(run: Run, store: Store, pass: Pass, table: map<Uuid, Run>, journal: seq<Run>,
                                 records: Records, leaves: Leaving)

  /**
   What a pass leaves behind: the store swept once with its rollback records filed, the finished
   run returned and stored, and in the journal the run's value after each item and at the end.
   */
  ghost predicate Completed(start: PassStart, done: Timestamp, service: ActionService, r: Result<Run>,
                            table: map<Uuid, Run>, journal: seq<Run>)
    reads service.repo, service.records
  {
    var n := |start.run.actionIds|;
    && RecordsAre(service, SweepRecords(start.records, start.store, start.run.tenantId, start.run.actionIds, n,
                                        start.pass.step, start.leaves))
    && service.repo.actions == Sweep(start.store, start.run.tenantId, start.run.actionIds, n, start.pass.step)
    && r == Ok(Finished(RunAfter(start.run, start.store, n, start.pass), done))
    && table == start.table[start.run.id := r.value]
    && journal == start.journal + RunValues(start.run, start.store, n, start.pass) + [r.value]
  }

  class OrchestrationRuntime {
    const service: ActionService
    const runs: RunRepository

    constructor (service: ActionService, runs: RunRepository)
      ensures this.service == service && this.runs == runs
    {
      this.service, this.runs := service, runs;
    }

    /** Approve, execute, reapprove or skip, through the service and its own checks. */
    method ProcessSingleAction(tenantId: Uuid, id: Uuid, now: Timestamp, recordIds: nat -> Uuid, i: nat)
      returns (r: Result<RunItem>)
      requires service.Valid() && RecordIdsFree(service, recordIds, i)
      modifies service.Footprint()
      ensures service.Valid() && RecordIdsFree(service, recordIds, i + 1)
      ensures !Owned(old(service.repo.actions), tenantId, id) ==>
        r == Err(ActionNotFound(id)) && service.repo.actions == old(service.repo.actions)
      ensures Owned(old(service.repo.actions), tenantId, id) ==>
        var a := old(service.repo.actions)[id];
        var b := Advance(a, ShippedEnv(old(service.repo.actions), id, old(service.LedgerView()), now));
        && r == Ok(RunItem(id, Decide(a), true, Some(b.status)))
        && service.repo.actions == old(service.repo.actions)[id := b]
      ensures var store := old(service.repo.actions);
        service.RecordsGained(
          if Owned(store, tenantId, id)
          then RunLeft(store[id], recordIds(i), ShippedEnv(store, id, old(service.LedgerView()), now)) else None)
    {
      var got := service.repo.Get(id);
      if got.Err? {
        return Err(got.error);
      }
      var action := got.value;
      if action.tenantId != tenantId {
        return Err(ActionNotFound(id));
      }
      ghost var store, env := service.repo.actions, ShippedEnv(service.repo.actions, id, service.LedgerView(), now);
      if CallFor(action).Some? {
        DecidedCallSucceeds(store, id, env);
      }
      assert store[id := action] == store;
      var updated: Result<Action> := got;
      match action.status {
        case Pending =>
          updated := service.ApproveAction(id, action.lockVersion, None, now);
        case Approved =>
          if IsServiceExecutable(action) {
            updated := service.ExecuteAction(id, None, now, recordIds(i));
          }
        case Failed =>
          if CanBeReapproved(action) {
            updated := service.ReapproveAction(id, action.lockVersion);
          }
        case Executed =>
        case Waived =>
      }
      r := Ok(RunItem(id, Decide(action), updated.Ok?,
                      Some(if updated.Ok? then updated.value.status else action.status)));
    }

    /** The item at position `i` of the pass, on the live service. */
    method ProcessItem(tenantId: Uuid, ids: seq<Uuid>, i: nat, clock: nat -> Timestamp, recordIds: nat -> Uuid,
                       ghost store: Store, ghost p: Pass, ghost records: Records, ghost leaves: Leaving)
      returns (r: Result<RunItem>)
      requires Ready(recordIds, i) && Makes(p, leaves, clock, recordIds) && i < |ids|
      requires service.repo.actions == Sweep(store, tenantId, ids, i, p.step)
      requires RecordsAre(service, SweepRecords(records, store, tenantId, ids, i, p.step, leaves))
      modifies service.Footprint()
      ensures Ready(recordIds, i + 1) && Makes(p, leaves, clock, recordIds)
      ensures service.repo.actions == Sweep(store, tenantId, ids, i + 1, p.step)
      ensures RecordsAre(service, SweepRecords(records, store, tenantId, ids, i + 1, p.step, leaves))
      ensures Noted(ids[i], r) == ItemAt(store, tenantId, ids, i, p)
      ensures r.Ok? ==> r.value.actionId == ids[i] && r.value.decision != DecideNotFound
    {
      NextRecords(records, store, tenantId, ids, i, p.step, leaves);
      r := ProcessSingleAction(tenantId, ids[i], clock(i), recordIds, i);
    }

    /** Notes one outcome in the run and persists it. */
    method Persist(tracker: OrchestrationRun, id: Uuid, r: Result<RunItem>)
      requires runs.Valid() && tracker.run.id in runs.runs
      requires runs.runs[tracker.run.id].tenantId == tracker.run.tenantId
      requires r.Ok? ==> r.value.actionId == id && r.value.decision != DecideNotFound
      modifies runs, tracker
      ensures runs.Valid()
      ensures tracker.run == Booked(old(tracker.run), [Noted(id, r)])
      ensures |tracker.run.items| == |old(tracker.run).items| + 1
      ensures tracker.run.items[|old(tracker.run).items|] ==
        match r
        case Ok(item) => item
        case Err(ActionNotFound(_)) => RunItem(id, DecideNotFound, false, None)
        case Err(_) => RunItem(id, DecideSkip, false, None)
      ensures runs.runs == old(runs.runs)[tracker.run.id := tracker.run]
      ensures runs.journal == old(runs.journal) + [tracker.run]
    {
      BookedOne(tracker.run, Noted(id, r));
      if r.Ok? {
        if r.value.success {
          tracker.RecordSuccess(id, r.value.decision, r.value.resultingStatus);
        } else {
          tracker.RecordFailure(id, r.value.decision, r.value.resultingStatus);
        }
      } else if r.error.ActionNotFound? {
        tracker.RecordNotFound(id);
      } else {
        tracker.RecordFailure(id, DecideSkip, None);
      }
      var _ := runs.Update(tracker.run);
    }

    /** The service is in order, with fresh record identifiers for the items from `i` on. */
    ghost predicate Ready(recordIds: nat -> Uuid, i: nat)
      reads service.repo, service.sideEffects, service.records
    {
      service.Valid() && RecordIdsFree(service, recordIds, i)
    }

    /** `p` is the pass the live service makes, and `leaves` says which records it leaves. */
    ghost predicate Makes(p: Pass, leaves: Leaving, clock: nat -> Timestamp, recordIds: nat -> Uuid)
      reads service.sideEffects
    {
      var w := ShippedWorld(clock, service.LedgerView());
      p == RuntimePass(w) && leaves == RunLeaves(w, recordIds)
    }

    /**
     Executes a stored run whatever its status. The store makes one sweep; the journal gains the
     started run, the run after each item and the finished run.
     */
    method ExecuteExistingRun(runId: Uuid, begun: Timestamp, clock: nat -> Timestamp, done: Timestamp,
                              recordIds: nat -> Uuid, ghost p: Pass, ghost leaves: Leaving)
      returns (r: Result<Run>)
      requires Ready(recordIds, 0) && Makes(p, leaves, clock, recordIds) && runs.Valid()
      modifies service.Footprint(), runs
      ensures Ready(recordIds, if r.Ok? then |r.value.actionIds| else 0) && runs.Valid()
      ensures runId !in old(runs.runs) ==>
        && r == Err(RunNotFound(runId)) && service.repo.actions == old(service.repo.actions)
        && runs.runs == old(runs.runs) && runs.journal == old(runs.journal)
        && RecordsOf(service) == old(RecordsOf(service))
      ensures runId in old(runs.runs) ==>
        var started := Started(old(runs.runs)[runId], begun);
        var start := PassStart(started, old(service.repo.actions), p, old(runs.runs), old(runs.journal) + [started],
                               old(RecordsOf(service)), leaves);
        Completed(start, done, service, r, runs.runs, runs.journal)
    {
      var got := runs.Get(runId);
      if got.Err? {
        return got;
      }
      var tracker := new OrchestrationRun.Load(got.value);
      r := ExecuteLoaded(tracker, begun, clock, done, recordIds, p, leaves);
    }

    /** Start, pass and finish of a run that is stored as loaded. */
    method ExecuteLoaded(tracker: OrchestrationRun, begun: Timestamp, clock: nat -> Timestamp, done: Timestamp,
                         recordIds: nat -> Uuid, ghost p: Pass, ghost leaves: Leaving)
      returns (r: Result<Run>)
      requires Ready(recordIds, 0) && Makes(p, leaves, clock, recordIds) && runs.Valid()
      requires tracker.run.id in runs.runs && runs.runs[tracker.run.id] == tracker.run
      modifies service.Footprint(), runs, tracker
      ensures r.Ok? && Ready(recordIds, |r.value.actionIds|) && runs.Valid()
      ensures var started := Started(old(tracker.run), begun);
        var start := PassStart(started, old(service.repo.actions), p, old(runs.runs), old(runs.journal) + [started],
                               old(RecordsOf(service)), leaves);
        Completed(start, done, service, r, runs.runs, runs.journal)
    {
      ghost var start := Begin(tracker, begun, p, leaves);
      ExecutePass(tracker, clock, recordIds, start);
      r := Finish(tracker, done, start);
    }

    method CreateRun(id: Uuid, tenantId: Uuid, actionIds: seq<Uuid>, initiatedBy: Option<string>,
                     intentId: Option<Uuid>, now: Timestamp) returns (r: Result<Run>)
      requires runs.Valid() && id !in runs.runs
      modifies runs
      ensures runs.Valid() && r == Ok(NewRun(id, tenantId, actionIds, initiatedBy, intentId, now))
      ensures r.value == Run(id, tenantId, intentId, actionIds, RunPending, initiatedBy, now, None, None,
                             0, 0, 0, 0, |actionIds|, [])
      ensures runs.runs == old(runs.runs)[id := r.value] && runs.journal == old(runs.journal) + [r.value]
    {
      r := runs.Create(NewRun(id, tenantId, actionIds, initiatedBy, intentId, now));
    }

    /** A new run, executed at once. */
    method ExecuteRun(id: Uuid, tenantId: Uuid, actionIds: seq<Uuid>, initiatedBy: Option<string>,
                      intentId: Option<Uuid>, now: Timestamp, begun: Timestamp, clock: nat -> Timestamp,
                      done: Timestamp, recordIds: nat -> Uuid, ghost p: Pass, ghost leaves: Leaving)
      returns (r: Result<Run>)
      requires Ready(recordIds, 0) && Makes(p, leaves, clock, recordIds) && runs.Valid() && id !in runs.runs
      modifies service.Footprint(), runs
      ensures Ready(recordIds, |actionIds|) && runs.Valid()
      ensures var created := NewRun(id, tenantId, actionIds, initiatedBy, intentId, now);
        var started := Started(created, begun);
        var start := PassStart(started, old(service.repo.actions), p, old(runs.runs)[id := created],
                               old(runs.journal) + [created] + [started], old(RecordsOf(service)), leaves);
        Completed(start, done, service, r, runs.runs, runs.journal)
    {
      var created := CreateRun(id, tenantId, actionIds, initiatedBy, intentId, now);
      r := ExecuteExistingRun(id, begun, clock, done, recordIds, p, leaves);
    }

    /** Marks the run as started and persists it. */
    method Begin(tracker: OrchestrationRun, now: Timestamp, ghost p: Pass, ghost leaves: Leaving)
      returns (ghost start: PassStart)
      requires runs.Valid() && tracker.run.id in runs.runs && runs.runs[tracker.run.id] == tracker.run
      modifies runs, tracker
      ensures Progress(tracker, 0, start) && start.run == Started(old(tracker.run), now)
      ensures start == PassStart(start.run, service.repo.actions, p, old(runs.runs), old(runs.journal) + [start.run],
                                 RecordsOf(service), leaves)
    {
      tracker.MarkStarted(now);
      start := PassStart(tracker.run, service.repo.actions, p, runs.runs, runs.journal + [tracker.run],
                         RecordsOf(service), leaves);
      assert RunAfter(start.run, start.store, 0, p) == start.run by {
        assert start.run.items + [] == start.run.items;
      }
      var _ := runs.Update(tracker.run);
    }

    /** Marks the run as completed and persists it. */
    method Finish(tracker: OrchestrationRun, now: Timestamp, ghost start: PassStart) returns (r: Result<Run>)
      requires Progress(tracker, |start.run.actionIds|, start)
      modifies runs, tracker
      ensures runs.Valid() && Completed(start, now, service, r, runs.runs, runs.journal)
    {
      tracker.MarkCompleted(now);
      r := runs.Update(tracker.run);
    }

    /** Where the loop stands after `i` items of a pass that began in `start`: the store, and the books. */
    ghost predicate Progress(tracker: OrchestrationRun, i: nat, start: PassStart)
      requires i <= |start.run.actionIds|
      reads service.repo, service.records, runs, tracker
    {
      && RecordsAre(service, SweepRecords(start.records, start.store, start.run.tenantId, start.run.actionIds, i,
                                          start.pass.step, start.leaves))
      && service.repo.actions == Sweep(start.store, start.run.tenantId, start.run.actionIds, i, start.pass.step)
      && Kept(tracker, i, start)
    }

    ghost predicate Kept(tracker: OrchestrationRun, i: nat, start: PassStart)
      requires i <= |start.run.actionIds|
      reads runs, tracker
    {
      && runs.Valid()
      && tracker.run == RunAfter(start.run, start.store, i, start.pass)
      && start.run.id in start.table && start.table[start.run.id].tenantId == start.run.tenantId
      && runs.runs == start.table[start.run.id := tracker.run]
      && runs.journal == start.journal + RunValues(start.run, start.store, i, start.pass)
    }

    /** Notes the outcome of the item at position `i` and persists the run. */
    method Note(tracker: OrchestrationRun, i: nat, r: Result<RunItem>, ghost start: PassStart)
      requires i < |start.run.actionIds| && Kept(tracker, i, start)
      requires var id := start.run.actionIds[i];
        && (r.Ok? ==> r.value.actionId == id && r.value.decision != DecideNotFound)
        && Noted(id, r) == ItemAt(start.store, start.run.tenantId, start.run.actionIds, i, start.pass)
      modifies runs, tracker
      ensures Kept(tracker, i + 1, start)
    {
      NextValue(start.run, start.store, i, start.pass);
      Persist(tracker, tracker.run.actionIds[i], r);
    }

    /** One turn of the loop: process the item, then note and persist it. */
    method Turn(tracker: OrchestrationRun, i: nat, clock: nat -> Timestamp, recordIds: nat -> Uuid,
                ghost start: PassStart)
      requires Ready(recordIds, i) && Makes(start.pass, start.leaves, clock, recordIds) && i < |start.run.actionIds|
      requires Progress(tracker, i, start)
      modifies service.Footprint(), runs, tracker
      ensures Ready(recordIds, i + 1) && Makes(start.pass, start.leaves, clock, recordIds)
      ensures Progress(tracker, i + 1, start)
    {
      var run := tracker.run;
      var item := ProcessItem(run.tenantId, run.actionIds, i, clock, recordIds, start.store, start.pass,
                              start.records, start.leaves);
      Note(tracker, i, item, start);
    }

    /** The loop over the identifiers. */
    method ExecutePass(tracker: OrchestrationRun, clock: nat -> Timestamp, recordIds: nat -> Uuid,
                       ghost start: PassStart)
      requires Ready(recordIds, 0) && Makes(start.pass, start.leaves, clock, recordIds)
      requires Progress(tracker, 0, start)
      modifies service.Footprint(), runs, tracker
      ensures Ready(recordIds, |start.run.actionIds|)
      ensures Progress(tracker, |start.run.actionIds|, start)
    {
      for i := 0 to |tracker.run.actionIds|
        invariant Ready(recordIds, i) && Makes(start.pass, start.leaves, clock, recordIds)
        invariant i <= |start.run.actionIds| == |old(tracker.run).actionIds|
        invariant Progress(tracker, i, start)
      {
        Turn(tracker, i, clock, recordIds, start);
      }
    }
  }

  // ----- Bookkeeping -----

  /** Items line up with a prefix of the list, and the four counters add up to them. */
  predicate InStep(run: Run) {
    && run.total == |run.actionIds|
    && |run.items| <= |run.actionIds|
    && (forall i :: 0 <= i < |run.items| ==> run.items[i].actionId == run.actionIds[i])
    && run.succeeded + run.failed + run.skipped + run.notFound == |run.items|
  }

  /** A run nobody has executed yet. */
  predicate Unexecuted(run: Run) {
    && run.items == [] && run.total == |run.actionIds|
    && run.succeeded == 0 && run.failed == 0 && run.skipped == 0 && run.notFound == 0
  }

  /**
   Whatever the items say, and so whatever other writers do meanwhile: booking items for a prefix of
   the list keeps a first execution in step.
   */
  lemma BookedInStep(started: Run, items: seq<RunItem>)
    requires Unexecuted(started) && |items| <= |started.actionIds|
    requires forall i :: 0 <= i < |items| ==> items[i].actionId == started.actionIds[i]
    ensures InStep(Booked(started, items)) && Booked(started, items).items == items
  {
    CountsCover(items);
    assert started.items + items == items;
  }

  /** A pass over the whole list closes with counters that add up to the total exactly if they started at zero. */
  lemma CountersCloseIffFirst(started: Run, items: seq<RunItem>)
    requires started.total == |started.actionIds| == |items|
    ensures var run := Booked(started, items);
      run.succeeded + run.failed + run.skipped + run.notFound == run.total <==>
      started.succeeded == started.failed == started.skipped == started.notFound == 0
  {
    CountsCover(items);
  }

  /** Every value a first execution persists on the way is in step with its list. */
  lemma FirstExecutionInStep(started: Run, store: Store, m: nat, p: Pass)
    requires Unexecuted(started) && m <= |started.actionIds| && Sound(p)
    ensures InStep(RunAfter(started, store, m, p))
    ensures |RunAfter(started, store, m, p).items| == m
  {
    var items := ItemsOf(store, started.tenantId, started.actionIds, m, p);
    ItemsLineUp(store, started.tenantId, started.actionIds, m, p);
    forall i | 0 <= i < m ensures items[i].actionId == started.actionIds[i] {
      ItemTells(store, started.tenantId, started.actionIds, i, p);
    }
    BookedInStep(started, items);
  }

  lemma {:induction false} RunValuesInStep(started: Run, store: Store, n: nat, p: Pass)
    requires Unexecuted(started) && n <= |started.actionIds| && Sound(p)
    ensures forall k :: 0 <= k < |RunValues(started, store, n, p)| ==> InStep(RunValues(started, store, n, p)[k])
  {
    if n > 0 {
      RunValuesInStep(started, store, n - 1, p);
      FirstExecutionInStep(started, store, n, p);
    }
  }

  /**
   The items of a finished first execution over a list without repeats are the dry run's answers
   on the initial store.
   */
  lemma RunMatchesDryRun(started: Run, store: Store, w: World, i: nat)
    requires Unexecuted(started) && Distinct(started.actionIds) && i < |started.actionIds|
    ensures var run := RunAfter(started, store, |started.actionIds|, RuntimePass(w));
      && |run.items| == |started.actionIds| && run.items[i].actionId == started.actionIds[i]
      && run.items[i].decision == Predicted(store, started.tenantId, started.actionIds[i])
  {
    var p := RuntimePass(w);
    RuntimePassIsSound(w);
    ItemsLineUp(store, started.tenantId, started.actionIds, |started.actionIds|, p);
    ItemTells(store, started.tenantId, started.actionIds, i, p);
    DryRunPredictsRun(store, started.tenantId, started.actionIds, i, w);
  }

  lemma StatusTells(run: Run, missing: Uuid -> bool)
    requires run.failed == 0 && run.notFound == Count(run.actionIds, missing)
    requires run.succeeded + run.notFound == |run.actionIds|
    ensures FinalStatus(run) == RunCompleted <==> forall id :: id in run.actionIds ==> !missing(id)
    ensures FinalStatus(run) == RunFailed <==> run.actionIds != [] && forall id :: id in run.actionIds ==> missing(id)
    ensures FinalStatus(run) in {RunCompleted, RunFailed, RunCompletedWithErrors}
  {
    CountAll(run.actionIds, missing);
  }

  lemma WholeListCounts(started: Run, store: Store, p: Pass)
    requires Unexecuted(started) && Sound(p)
    ensures var run := RunAfter(started, store, |started.actionIds|, p);
      && run.actionIds == started.actionIds && InStep(run) && |run.items| == run.total && run.failed == run.skipped == 0
      && run.notFound == Count(run.actionIds, Missing(store, started.tenantId))
  {
    var ids := started.actionIds;
    FirstExecutionInStep(started, store, |ids|, p);
    ItemsCount(store, started.tenantId, ids, |ids|, p);
    assert ids[..|ids|] == ids;
  }

  /**
   The status of a finished first execution, whatever happened to the items: Completed iff every item
   succeeded, Failed iff there were items and none did, CompletedWithErrors iff some did and some did not.
   */
  lemma StatusOfItems(started: Run, items: seq<RunItem>, at: Timestamp)
    requires Unexecuted(started)
    requires forall i :: 0 <= i < |items| && items[i].decision == DecideNotFound ==> !items[i].success
    ensures var status := Finished(Booked(started, items), at).status;
      && (status == RunCompleted <==> forall i :: 0 <= i < |items| ==> items[i].success)
      && (status == RunFailed <==> items != [] && forall i :: 0 <= i < |items| ==> !items[i].success)
      && status in {RunCompleted, RunFailed, RunCompletedWithErrors}
  {
    CountsCover(items);
    CountAll(items, SuccessItem());
  }

  /** What the finished run says about the store it started from. */
  ghost predicate BooksClosed(final: Run, store: Store) {
    var ids := final.actionIds;
    && InStep(final) && final.succeeded + final.notFound == final.total && final.failed == final.skipped == 0
    && (final.status == RunCompleted <==> forall id :: id in ids ==> Owned(store, final.tenantId, id))
    && (final.status == RunFailed <==> ids != [] && forall id :: id in ids ==> !Owned(store, final.tenantId, id))
    && final.status in {RunCompleted, RunFailed, RunCompletedWithErrors}
  }

  lemma BooksClose(run: Run, at: Timestamp, store: Store)
    requires InStep(run) && |run.items| == run.total && run.failed == 0 && run.skipped == 0
    requires run.notFound == Count(run.actionIds, Missing(store, run.tenantId))
    ensures BooksClosed(Finished(run, at), store)
  {
    StatusTells(run, Missing(store, run.tenantId));
  }

  /**
   The books of a first execution with no other writers: at the end the counters add up to the
   total, nothing failed or was counted as skipped, and the final status tells exactly whether all,
   none or some of the identifiers were found.
   */
  lemma FirstExecutionBooks(started: Run, store: Store, p: Pass, at: Timestamp)
    requires Unexecuted(started) && Sound(p)
    ensures BooksClosed(Finished(RunAfter(started, store, |started.actionIds|, p), at), store)
  {
    WholeListCounts(started, store, p);
    BooksClose(RunAfter(started, store, |started.actionIds|, p), at, store);
  }

  /** The books of a new run, executed at once. */
  lemma NewRunBooks(created: Run, begun: Timestamp, store: Store, w: World, done: Timestamp)
    requires created == NewRun(created.id, created.tenantId, created.actionIds, created.initiatedBy, created.intentId,
                               created.createdAt)
    ensures var final := Finished(RunAfter(Started(created, begun), store, |created.actionIds|, RuntimePass(w)), done);
      && BooksClosed(final, store)
      && final.items == ItemsOf(store, created.tenantId, created.actionIds, |created.actionIds|, RuntimePass(w))
  {
    RuntimePassIsSound(w);
    FirstExecutionBooks(Started(created, begun), store, RuntimePass(w), done);
  }
}
