/** Orchestration runs: the mutable run a pass keeps, its stored values, and their repository. */
module OrchestrationRuns {
  import opened Base
  import opened Indexes
  import opened Sorting

  datatype RunStatus = RunPending | RunRunning | RunCompleted | RunCompletedWithErrors | RunFailed

  datatype Decision = DecideApprove | DecideReapprove | DecideExecute | DecideSkip | DecideNotFound

  /** What a run notes about one item; the status is absent when no action was found. */
  datatype RunItem = RunItem(actionId: Uuid, decision: Decision, success: bool, resultingStatus: Option<Status>)

  datatype Run = Run(
    id: Uuid,
    tenantId: Uuid,
    intentId: Option<Uuid>,
    actionIds: seq<Uuid>,
    status: RunStatus,
    initiatedBy: Option<string>,
    createdAt: Timestamp,
    startedAt: Option<Timestamp>,
    completedAt: Option<Timestamp>,
    succeeded: nat,
    failed: nat,
    skipped: nat,
    notFound: nat,
    total: nat,
    items: seq<RunItem>)

  function NewRun(id: Uuid, tenantId: Uuid, actionIds: seq<Uuid>, initiatedBy: Option<string>, intentId: Option<Uuid>,
                  now: Timestamp): Run
  {
    Run(id, tenantId, intentId, actionIds, RunPending, initiatedBy, now, None, None, 0, 0, 0, 0, |actionIds|, [])
  }

  function Started(run: Run, now: Timestamp): Run {
    run.(status := RunRunning, startedAt := Some(now))
  }

  function FinalStatus(run: Run): RunStatus {
    if run.failed == 0 && run.notFound == 0 then RunCompleted
    else if run.succeeded == 0 then RunFailed
    else RunCompletedWithErrors
  }

  function Finished(run: Run, now: Timestamp): Run {
    run.(completedAt := Some(now), status := FinalStatus(run))
  }

  /** The items that count as not found, as successes and as failures. */
  function NotFoundItem(): RunItem -> bool { (i: RunItem) => i.decision == DecideNotFound }
  function SuccessItem(): RunItem -> bool { (i: RunItem) => i.decision != DecideNotFound && i.success }
  function FailureItem(): RunItem -> bool { (i: RunItem) => i.decision != DecideNotFound && !i.success }

  /** A run with `items` appended and counted. */
  function Booked(run: Run, items: seq<RunItem>): Run {
    run.(succeeded := run.succeeded + Count(items, SuccessItem()),
         failed := run.failed + Count(items, FailureItem()),
         notFound := run.notFound + Count(items, NotFoundItem()),
         items := run.items + items)
  }

  lemma CountOne<T>(x: T, p: T -> bool)
    ensures Count([x], p) == if p(x) then 1 else 0
  {
    CountAppend([], p, x);
    assert [] + [x] == [x];
  }

  /** Booking one item bumps exactly one counter. */
  lemma BookedOne(run: Run, item: RunItem)
    ensures Booked(run, [item]) ==
      var counted := if item.decision == DecideNotFound then run.(notFound := run.notFound + 1)
                     else if item.success then run.(succeeded := run.succeeded + 1)
                     else run.(failed := run.failed + 1);
      counted.(items := run.items + [item])
  {
    CountOne(item, SuccessItem());
    CountOne(item, FailureItem());
    CountOne(item, NotFoundItem());
  }

  lemma BookedAppend(run: Run, items: seq<RunItem>, item: RunItem)
    ensures Booked(run, items + [item]) == Booked(Booked(run, items), [item])
  {
    CountAppend(items, SuccessItem(), item);
    CountAppend(items, FailureItem(), item);
    CountAppend(items, NotFoundItem(), item);
    CountOne(item, SuccessItem());
    CountOne(item, FailureItem());
    CountOne(item, NotFoundItem());
    assert run.items + (items + [item]) == run.items + items + [item];
  }

  lemma {:induction false} CountsCover(items: seq<RunItem>)
    ensures Count(items, SuccessItem()) + Count(items, FailureItem()) + Count(items, NotFoundItem()) == |items|
  {
    if items != [] {
      CountsCover(items[..|items| - 1]);
    }
  }

  /** The run while it is being processed: its methods bump counters and append items in place. */
  class OrchestrationRun {
    var run: Run

    constructor Load(run: Run)
      ensures this.run == run
    {
      this.run := run;
    }

    method MarkStarted(now: Timestamp)
      modifies this
      ensures run == Started(old(run), now)
      ensures run == old(run).(status := RunRunning, startedAt := Some(now))
    {
      run := run.(status := RunRunning);
      run := run.(startedAt := Some(now));
    }

    method MarkCompleted(now: Timestamp)
      modifies this
      ensures run == Finished(old(run), now)
      ensures run == old(run).(status := run.status, completedAt := Some(now))
    {
      run := run.(completedAt := Some(now));
      if run.failed == 0 && run.notFound == 0 {
        run := run.(status := RunCompleted);
      } else if run.succeeded == 0 {
        run := run.(status := RunFailed);
      } else {
        run := run.(status := RunCompletedWithErrors);
      }
    }

    method RecordSuccess(id: Uuid, decision: Decision, resulting: Option<Status>)
      modifies this
      ensures run == old(run).(succeeded := old(run).succeeded + 1,
                               items := old(run).items + [RunItem(id, decision, true, resulting)])
    {
      run := run.(succeeded := run.succeeded + 1);
      run := run.(items := run.items + [RunItem(id, decision, true, resulting)]);
    }

    method RecordFailure(id: Uuid, decision: Decision, resulting: Option<Status>)
      modifies this
      ensures run == old(run).(failed := old(run).failed + 1,
                               items := old(run).items + [RunItem(id, decision, false, resulting)])
    {
      run := run.(failed := run.failed + 1);
      run := run.(items := run.items + [RunItem(id, decision, false, resulting)]);
    }

    method RecordNotFound(id: Uuid)
      modifies this
      ensures run == old(run).(notFound := old(run).notFound + 1,
                               items := old(run).items + [RunItem(id, DecideNotFound, false, None)])
    {
      run := run.(notFound := run.notFound + 1);
      run := run.(items := run.items + [RunItem(id, DecideNotFound, false, None)]);
    }
  }

  function IdOf(r: Run): Uuid { r.id }
  function TenantOf(r: Run): Uuid { r.tenantId }
  function CreatedAt(r: Run): Timestamp { r.createdAt }
  function OfTenant(t: Uuid): Run -> bool { (r: Run) => r.tenantId == t }

  class RunRepository {
    var runs: map<Uuid, Run>
    var byTenant: Index<Uuid>
    /** Every value ever stored, in order. */
    ghost var journal: seq<Run>

    ghost predicate Valid()
      reads this
    {
      KeyedBy(runs, IdOf) && Exact(byTenant, runs, TenantOf)
    }

    constructor ()
      ensures Valid() && runs == map[]
    {
      runs, byTenant, journal := map[], map[], [];
    }

    method Create(run: Run) returns (r: Result<Run>)
      requires Valid()
      modifies this
      ensures r == Ok(run) && runs == old(runs)[run.id := run] && journal == old(journal) + [run]
      ensures Valid() <==> run.id !in old(runs)
    {
      PushExactIffNew(byTenant, runs, TenantOf, run.id, run);
      runs := runs[run.id := run];
      byTenant := Push(byTenant, run.tenantId, run.id);
      journal := journal + [run];
      r := Ok(run);
    }

    method Get(id: Uuid) returns (r: Result<Run>)
      ensures r == if id in runs then Ok(runs[id]) else Err(RunNotFound(id))
    {
      r := if id in runs then Ok(runs[id]) else Err(RunNotFound(id));
    }

    /** Replaces a stored run; the tenant index is not maintained, so it stays exact exactly if the tenant stays. */
    method Update(run: Run) returns (r: Result<Run>)
      requires Valid()
      modifies this
      ensures run.id !in old(runs) ==>
        r == Err(RunNotFound(run.id)) && runs == old(runs) && journal == old(journal) && byTenant == old(byTenant)
      ensures run.id in old(runs) ==>
        r == Ok(run) && runs == old(runs)[run.id := run] && journal == old(journal) + [run] && byTenant == old(byTenant)
      ensures Valid() <==> (run.id in old(runs) ==> old(runs)[run.id].tenantId == run.tenantId)
    {
      if run.id in runs {
        ghost var was := runs[run.id];
        if was.tenantId == run.tenantId {
          SameKeyKeepsExact(byTenant, runs, TenantOf, run.id, run);
        } else {
          assert ExactAt(byTenant, runs, TenantOf, was.tenantId);
          assert !ExactAt(byTenant, runs[run.id := run], TenantOf, was.tenantId);
        }
        runs := runs[run.id := run];
        journal := journal + [run];
        r := Ok(run);
      } else {
        r := Err(RunNotFound(run.id));
      }
    }

    ghost function IdsOfTenant(tenantId: Uuid): set<Uuid>
      reads this
    {
      set id | id in runs && runs[id].tenantId == tenantId
    }

    method ListByTenant(tenantId: Uuid, limit: Option<nat>) returns (rows: seq<Run>)
      requires Valid()
      ensures exists all ::
        && IsScan(all, runs, IdOf, OfTenant(tenantId)) && NewestOrdered(all, CreatedAt)
        && NewestOf(rows, all, limit)
      ensures forall r :: r in rows ==> r.id in runs && runs[r.id] == r && r.tenantId == tenantId
      ensures forall i, j :: 0 <= i < j < |rows| ==> rows[i] != rows[j] && rows[i].createdAt >= rows[j].createdAt
      ensures forall r, id :: r in rows && id in runs && runs[id].tenantId == tenantId && runs[id] !in rows ==>
        r.createdAt >= runs[id].createdAt
      ensures var n := |IdsOfTenant(tenantId)|; |rows| == if limit.Some? && limit.value < n then limit.value else n
    {
      var found := Resolve(Lookup(byTenant, tenantId), runs);
      LookupIsScan(byTenant, runs, TenantOf, tenantId, IdOf, OfTenant(tenantId));
      SortKeepsScan(found, runs, IdOf, OfTenant(tenantId), CreatedAt);
      var all := NewestFirst(found, CreatedAt);
      rows := Truncate(all, limit);
      NewestOfTells(rows, all, limit, CreatedAt);
      ScanSize(all, runs, IdOf, OfTenant(tenantId), IdsOfTenant(tenantId));
    }
  }
}
