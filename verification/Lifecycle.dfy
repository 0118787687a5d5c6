/** What guarded runs, and only guarded runs, keep true of every action. */
module Lifecycle {
  import opened Base
  import opened Actions
  import opened ActionStore
  import opened RollbackRecords
  import opened Protocol
  import opened History
  import opened Linearization

  /** The attempts an action can use: its first execution needs no budget. */
  function Budget(a: Action): int {
    if a.maxRetries > 1 then a.maxRetries else 1
  }

  /** The lock version in closed form, the attempt bound, and which timestamps are set. */
  predicate LifecycleOk(a: Action) {
    && 0 <= a.attemptCount <= Budget(a)
    && (match a.status
        case Pending => a.lockVersion == 3 * a.attemptCount && a.attemptCount < Budget(a)
        case Approved => a.lockVersion == 3 * a.attemptCount + 1 && a.attemptCount < Budget(a) && a.approvedAt.Some?
        case Waived => a.lockVersion == 3 * a.attemptCount + 1 && a.attemptCount < Budget(a)
        case Executed => a.lockVersion == 3 * a.attemptCount - 1 && a.payload.Some? && a.payload.value.success
        case Failed => a.lockVersion == 3 * a.attemptCount - 1 && a.payload.Some? && !a.payload.value.success)
    && (a.failedAt.Some? <==> a.status == Failed)
    && (a.executedAt.Some? <==> a.status == Executed)
    && (a.waivedAt.Some? <==> a.status == Waived)
    && (a.payload.Some? <==> a.attemptCount > 0)
  }

  lemma CallKeepsLifecycle(call: Call, a: Action, env: Env)
    requires LifecycleOk(a) && Denial(call, a) == None
    ensures LifecycleOk(Apply(a, WriteOf(call, env)))
  {
  }

  predicate GuardedEvent(e: Event) {
    !e.Raw? && (e.Birth? ==> Fresh(e.action))
  }

  predicate GuardedLog(log: seq<Event>) {
    forall i :: 0 <= i < |log| ==> GuardedEvent(log[i])
  }

  lemma {:induction false} GuardedRunsLogOnlyCalls(steps: seq<Step>)
    requires IsGuardedRun(steps)
    ensures GuardedLog(Reached(steps).log)
  {
    if steps != [] {
      var init := steps[..|steps| - 1];
      assert forall i :: 0 <= i < |init| ==> init[i] == steps[i];
      GuardedRunsLogOnlyCalls(init);
      assert GuardedStep(steps[|steps| - 1]);
    }
  }

  lemma {:induction false} LogKeepsLifecycle(log: seq<Event>, id: Uuid)
    requires LogOk(log) && GuardedLog(log) && Current(log, id).Some?
    ensures LifecycleOk(Current(log, id).value)
  {
    var e := log[|log| - 1];
    if e.Commit? || IdOf(e) != id {
      LogKeepsLifecycle(log[..|log| - 1], id);
      if IdOf(e) == id {
        CallKeepsLifecycle(e.call, e.before, e.env);
      }
    }
  }

  /** The closed-form invariant over every interleaved guarded run, and the version bound it gives. */
  lemma GuardedRunsKeepLifecycle(steps: seq<Step>, id: Uuid)
    requires IsGuardedRun(steps) && id in Reached(steps).store
    ensures LifecycleOk(Reached(steps).store[id])
    ensures 0 <= Reached(steps).store[id].lockVersion <= 3 * Budget(Reached(steps).store[id]) - 1
  {
    RunKeepsInv(steps);
    GuardedRunsLogOnlyCalls(steps);
    LogKeepsLifecycle(Reached(steps).log, id);
  }

  // ----- Counting the committed calls -----

  predicate IsApproval(e: Event, id: Uuid) {
    e.Commit? && e.after.id == id && e.call.ApproveCall?
  }

  predicate IsExecution(e: Event, id: Uuid) {
    e.Commit? && e.after.id == id && e.call.ExecuteCall?
  }

  function Approvals(id: Uuid): Event -> bool {
    (e: Event) => IsApproval(e, id)
  }

  function Executions(id: Uuid): Event -> bool {
    (e: Event) => IsExecution(e, id)
  }

  function One(b: bool): nat {
    if b then 1 else 0
  }

  /** The committed calls on `id`, counted by what they were, as a function of the action alone. */
  lemma {:induction false} LogCounts(log: seq<Event>, id: Uuid)
    requires LogOk(log) && GuardedLog(log)
    ensures Current(log, id).None? ==>
      && Count(log, Approvals(id)) == 0 && Count(log, Executions(id)) == 0
      && forall kind :: Count(log, EventTest(id, kind)) == 0
    ensures Current(log, id).Some? ==> var a := Current(log, id).value;
      && Count(log, Approvals(id)) == a.attemptCount + One(a.status == Approved)
      && Count(log, Executions(id)) == a.attemptCount
      && Count(log, EventTest(id, SuccessRecord)) == One(a.status == Executed)
      && Count(log, EventTest(id, WaivedRecord)) == One(a.status == Waived)
      && Count(log, EventTest(id, FailureRecord)) == a.attemptCount - One(a.status == Executed)
  {
    if log != [] {
      var init, e := log[..|log| - 1], log[|log| - 1];
      assert log == init + [e];
      LogCounts(init, id);
      CountAppend(init, Approvals(id), e);
      CountAppend(init, Executions(id), e);
      CountAppend(init, EventTest(id, SuccessRecord), e);
      CountAppend(init, EventTest(id, WaivedRecord), e);
      CountAppend(init, EventTest(id, FailureRecord), e);
      if e.Commit? {
        assert EventOk(init, e);
      }
    }
  }

  /** Successful approvals always equal the attempts made plus the one still outstanding. */
  lemma ApprovalsMatchAttempts(steps: seq<Step>, id: Uuid)
    requires IsGuardedRun(steps) && id in Reached(steps).store
    ensures var s := Reached(steps);
      && Count(s.log, Approvals(id)) == s.store[id].attemptCount + One(s.store[id].status == Approved)
      && Count(s.log, Executions(id)) == s.store[id].attemptCount
  {
    RunKeepsInv(steps);
    GuardedRunsLogOnlyCalls(steps);
    LogCounts(Reached(steps).log, id);
  }

  lemma {:induction false} CountGrows<T>(s: seq<T>, p: T -> bool, i: nat)
    requires i <= |s|
    ensures Count(s[..i], p) <= Count(s, p)
    ensures Count(s[..i], p) < Count(s, p) ==> exists k :: i <= k < |s| && p(s[k])
  {
    if i == |s| {
      assert s[..i] == s;
    } else {
      assert s[..|s| - 1][..i] == s[..i];
      CountGrows(s[..|s| - 1], p, i);
      if Count(s[..i], p) < Count(s[..|s| - 1], p) {
        var k :| i <= k < |s| - 1 && p(s[..|s| - 1][k]);
        assert p(s[k]);
      }
    }
  }

  lemma ApprovalCountRises(log: seq<Event>, id: Uuid, i: nat)
    requires LogOk(log) && GuardedLog(log) && i < |log|
    requires IsExecution(log[i], id)
    requires Current(log, id).Some? && Current(log, id).value.status == Approved
    ensures Count(log[..i + 1], Approvals(id)) < Count(log, Approvals(id))
  {
    LogOkAt(log, i);
    assert log[..i + 1] == log[..i] + [log[i]];
    LogOkAppend(log[..i], log[i]);
    CurrentAppend(log[..i], log[i], id);
    LogCounts(log[..i + 1], id);
    LogCounts(log, id);
    CountGrows(log, Executions(id), i + 1);
  }

  /**
   Racing executions record at most one result per approval: between two recorded results of an
   action lies a fresh approval, and the later result was computed from a snapshot read after it, so
   a slow executor started under an earlier approval never reports under a later one.
   */
  lemma OneResultPerApproval(steps: seq<Step>, id: Uuid, i: nat, j: nat) returns (k: nat)
    requires IsGuardedRun(steps)
    requires i < j < |Reached(steps).log|
    requires IsExecution(Reached(steps).log[i], id) && IsExecution(Reached(steps).log[j], id)
    ensures i < k < Reached(steps).log[j].seenAt <= j
    ensures IsApproval(Reached(steps).log[k], id)
  {
    RunKeepsInv(steps);
    GuardedRunsLogOnlyCalls(steps);
    k := ApprovalBetween(Reached(steps).log, id, i, j);
  }

  lemma ApprovalBetween(log: seq<Event>, id: Uuid, i: nat, j: nat) returns (k: nat)
    requires LogOk(log) && GuardedLog(log) && i < j < |log|
    requires IsExecution(log[i], id) && IsExecution(log[j], id)
    ensures i < k < log[j].seenAt <= j
    ensures IsApproval(log[k], id)
  {
    var past := log[..j];
    LogOkAt(log, j);
    assert EventOk(past, log[j]);
    ApprovalCountRises(past, id, i);
    CountGrows(past, Approvals(id), i + 1);
    k :| i + 1 <= k < |past| && Approvals(id)(past[k]);
    assert Untouched(past, log[j].seenAt, j, id);
  }

  // ----- The rollback ledger -----

  function Total(s: State, id: Uuid): nat {
    Written(s, id, SuccessRecord) + Written(s, id, FailureRecord) + Written(s, id, WaivedRecord)
  }

  function Outstanding(s: State, id: Uuid): nat {
    |Owing(s.clients, id, SuccessRecord)| + |Owing(s.clients, id, FailureRecord)| + |Owing(s.clients, id, WaivedRecord)|
  }

  /**
   Conservation under interleaving: the records of an action together with the clients still between
   their commit and their record equal its attempts plus one if it was waived. Once nobody is in
   between, there is exactly one success record if the action is Executed and none otherwise.
   */
  lemma LedgerConservation(steps: seq<Step>, id: Uuid)
    requires IsGuardedRun(steps) && id in Reached(steps).store
    ensures var s, a := Reached(steps), Reached(steps).store[id];
      && Total(s, id) + Outstanding(s, id) == a.attemptCount + One(a.status == Waived)
      && Written(s, id, SuccessRecord) <= 1
      && (Outstanding(s, id) == 0 ==>
            && Written(s, id, SuccessRecord) == One(a.status == Executed)
            && Written(s, id, WaivedRecord) == One(a.status == Waived)
            && Written(s, id, FailureRecord) == a.attemptCount - One(a.status == Executed))
  {
    RunKeepsInv(steps);
    GuardedRunsLogOnlyCalls(steps);
    LogCounts(Reached(steps).log, id);
    RunKeepsBalance(steps, id, SuccessRecord);
    RunKeepsBalance(steps, id, FailureRecord);
    RunKeepsBalance(steps, id, WaivedRecord);
  }
}
