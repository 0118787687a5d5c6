/** Where an action's recorded fields come from: over every guarded run each is what its history says. */
module Provenance {
  import opened Base
  import opened Actions
  import opened ActionStore
  import opened Protocol
  import opened History
  import opened Linearization
  import opened Lifecycle

  /** The last event that satisfies `p`. */
  function Last(log: seq<Event>, p: Event -> bool): Option<Event> {
    if log == [] then None
    else if p(log[|log| - 1]) then Some(log[|log| - 1])
    else Last(log[..|log| - 1], p)
  }

  /** It is in the log, satisfies `p`, and no later event does; there is none exactly if no event does. */
  lemma {:induction false} LastTells(log: seq<Event>, p: Event -> bool)
    ensures Last(log, p).None? <==> forall j :: 0 <= j < |log| ==> !p(log[j])
    ensures Last(log, p).Some? ==>
      exists j :: 0 <= j < |log| && log[j] == Last(log, p).value && p(log[j])
                  && forall k :: j < k < |log| ==> !p(log[k])
  {
    if log != [] {
      var init := log[..|log| - 1];
      LastTells(init, p);
      if p(log[|init|]) {
        assert log[|init|] == Last(log, p).value;
      } else if Last(init, p).Some? {
        var j :| 0 <= j < |init| && init[j] == Last(init, p).value && p(init[j])
          && forall k :: j < k < |init| ==> !p(init[k]);
        assert log[j] == Last(log, p).value && forall k :: j < k < |log| ==> !p(log[k]);
      }
    }
  }

  // ----- The committed calls on an action -----

  predicate IsWaiver(e: Event, id: Uuid) {
    e.Commit? && e.after.id == id && e.call.WaiveCall?
  }

  function Waivers(id: Uuid): Event -> bool { (e: Event) => IsWaiver(e, id) }
  function NamedApprovals(id: Uuid): Event -> bool { (e: Event) => IsApproval(e, id) && e.call.actor.Some? }
  function NamedWaivers(id: Uuid): Event -> bool { (e: Event) => IsWaiver(e, id) && e.call.actor.Some? }
  function Successes(id: Uuid): Event -> bool { (e: Event) => IsExecution(e, id) && e.env.result.success }
  function NamedSuccesses(id: Uuid): Event -> bool {
    (e: Event) => IsExecution(e, id) && e.env.result.success && e.call.actor.Some?
  }

  /** The clock, the actor and the executor's answer of a committed call, if there is one. */
  function TimeOf(e: Option<Event>): Option<Timestamp>
    requires e.Some? ==> e.value.Commit?
  {
    if e.Some? then Some(e.value.env.now) else None
  }

  function ActorOf(e: Option<Event>): Option<string>
    requires e.Some? ==> e.value.Commit? && !e.value.call.ReapproveCall?
  {
    if e.Some? then e.value.call.actor else None
  }

  function AnswerOf(e: Option<Event>): Option<ExecutionResult>
    requires e.Some? ==> e.value.Commit?
  {
    if e.Some? then Some(e.value.env.result) else None
  }

  function CompletionOf(e: Option<Event>): Option<Timestamp>
    requires e.Some? ==> e.value.Commit?
  {
    if e.Some? then Some(e.value.env.result.completedAt) else None
  }

  lemma {:induction false} LastHolds(log: seq<Event>, p: Event -> bool)
    ensures Last(log, p).Some? ==> p(Last(log, p).value)
  {
    if log != [] {
      LastHolds(log[..|log| - 1], p);
    }
  }

  /** Approval: the clock of the last committed approval, and the last name an approval gave. */
  ghost predicate ApprovalStems(a: Action, log: seq<Event>, id: Uuid) {
    LastHolds(log, Approvals(id));
    LastHolds(log, NamedApprovals(id));
    a.approvedAt == TimeOf(Last(log, Approvals(id))) && a.approvedBy == ActorOf(Last(log, NamedApprovals(id)))
  }

  /** The same for waivers. */
  ghost predicate WaiverStems(a: Action, log: seq<Event>, id: Uuid) {
    LastHolds(log, Waivers(id));
    LastHolds(log, NamedWaivers(id));
    a.waivedAt == TimeOf(Last(log, Waivers(id))) && a.waivedBy == ActorOf(Last(log, NamedWaivers(id)))
  }

  /** Result: the answer of the last committed execution, and the time that answer reports if it was a failure. */
  ghost predicate ResultStems(a: Action, log: seq<Event>, id: Uuid) {
    LastHolds(log, Executions(id));
    && a.payload == AnswerOf(Last(log, Executions(id)))
    && a.failedAt == if a.status == Failed then CompletionOf(Last(log, Executions(id))) else None
  }

  /** Success: the time the last successful execution reports, and the last name such an execution gave. */
  ghost predicate SuccessStems(a: Action, log: seq<Event>, id: Uuid) {
    LastHolds(log, Successes(id));
    LastHolds(log, NamedSuccesses(id));
    a.executedAt == CompletionOf(Last(log, Successes(id))) && a.executedBy == ActorOf(Last(log, NamedSuccesses(id)))
  }

  lemma {:induction false} NothingBeforeBirth(log: seq<Event>, id: Uuid, p: Event -> bool)
    requires LogOk(log) && Current(log, id).None? && forall e: Event :: p(e) ==> IdOf(e) == id
    ensures Last(log, p).None?
  {
    if log != [] {
      NothingBeforeBirth(log[..|log| - 1], id, p);
    }
  }

  lemma {:induction false} ApprovalTold(log: seq<Event>, id: Uuid)
    requires LogOk(log) && GuardedLog(log) && Current(log, id).Some?
    ensures ApprovalStems(Current(log, id).value, log, id)
  {
    var init, e := log[..|log| - 1], log[|log| - 1];
    assert EventOk(init, e) && GuardedEvent(e);
    if e.Birth? && IdOf(e) == id {
      NothingBeforeBirth(init, id, Approvals(id));
      NothingBeforeBirth(init, id, NamedApprovals(id));
    } else {
      ApprovalTold(init, id);
    }
  }

  lemma {:induction false} WaiverTold(log: seq<Event>, id: Uuid)
    requires LogOk(log) && GuardedLog(log) && Current(log, id).Some?
    ensures WaiverStems(Current(log, id).value, log, id)
  {
    var init, e := log[..|log| - 1], log[|log| - 1];
    assert EventOk(init, e) && GuardedEvent(e);
    if e.Birth? && IdOf(e) == id {
      NothingBeforeBirth(init, id, Waivers(id));
      NothingBeforeBirth(init, id, NamedWaivers(id));
    } else {
      WaiverTold(init, id);
    }
  }

  lemma {:induction false} ResultTold(log: seq<Event>, id: Uuid)
    requires LogOk(log) && GuardedLog(log) && Current(log, id).Some?
    ensures ResultStems(Current(log, id).value, log, id)
  {
    var init, e := log[..|log| - 1], log[|log| - 1];
    assert EventOk(init, e) && GuardedEvent(e);
    if e.Birth? && IdOf(e) == id {
      NothingBeforeBirth(init, id, Executions(id));
    } else {
      ResultTold(init, id);
      if IdOf(e) == id {
        LogKeepsLifecycle(init, id);
      }
    }
  }

  lemma {:induction false} SuccessTold(log: seq<Event>, id: Uuid)
    requires LogOk(log) && GuardedLog(log) && Current(log, id).Some?
    ensures SuccessStems(Current(log, id).value, log, id)
  {
    var init, e := log[..|log| - 1], log[|log| - 1];
    assert EventOk(init, e) && GuardedEvent(e);
    if e.Birth? && IdOf(e) == id {
      NothingBeforeBirth(init, id, Successes(id));
      NothingBeforeBirth(init, id, NamedSuccesses(id));
    } else {
      SuccessTold(init, id);
    }
  }

  /**
   Over every guarded interleaving: who approved or waived an action and when, what its executor
   answered and when, are exactly what the last such committed calls said. In particular a
   reapproval changes none of it.
   */
  lemma {:induction false} FieldsStemFromCalls(steps: seq<Step>, id: Uuid)
    requires IsGuardedRun(steps) && id in Reached(steps).store
    ensures var s := Reached(steps);
      && ApprovalStems(s.store[id], s.log, id) && WaiverStems(s.store[id], s.log, id)
      && ResultStems(s.store[id], s.log, id) && SuccessStems(s.store[id], s.log, id)
    ensures var s := Reached(steps);
      s.store[id].attemptCount > 0 <==> Last(s.log, Executions(id)).Some?
  {
    var log := Reached(steps).log;
    RunKeepsInv(steps);
    GuardedRunsLogOnlyCalls(steps);
    ApprovalTold(log, id);
    WaiverTold(log, id);
    ResultTold(log, id);
    SuccessTold(log, id);
    LogKeepsLifecycle(log, id);
  }
}
