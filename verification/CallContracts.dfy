/**
 The contract of each service call in the caller's terms: when it succeeds, with which error it fails
 otherwise, and every field of the action it leaves. Nothing here refers to the calls' own helpers.
 */
module CallContracts {
  import opened Base
  import opened Actions
  import opened ActionStore

  // ----- Statuses and error codes -----

  /** The four permitted transitions, written out; a status is terminal exactly if none leads out of it. */
  lemma TransitionsTell(from: Status, to: Status)
    ensures CanTransitionTo(from, to) <==>
      (from, to) in {(Pending, Approved), (Pending, Waived), (Approved, Executed), (Failed, Pending)}
    ensures IsTerminal(from) <==> forall s :: !CanTransitionTo(from, s)
  {
    assert CanTransitionTo(Pending, Approved) && CanTransitionTo(Approved, Executed)
      && CanTransitionTo(Failed, Pending);
  }

  /** The transient failures, written out. */
  predicate IsTransient(code: string) {
    code in {
      "CONNECTION_TIMEOUT", "CONNECTION_REFUSED", "NETWORK_UNREACHABLE", "READ_TIMEOUT", "WRITE_TIMEOUT",
      "SERVICE_UNAVAILABLE", "TEMPORARILY_OVERLOADED", "BACKEND_ERROR", "RESOURCE_BUSY", "LOCK_ACQUISITION_FAILED",
      "RATE_LIMIT_EXCEEDED", "QUOTA_EXCEEDED"}
  }

  lemma RetryableIffTransient(code: string)
    ensures IsRetryableCode(code) <==>
      code in {
        "CONNECTION_TIMEOUT", "CONNECTION_REFUSED", "NETWORK_UNREACHABLE", "READ_TIMEOUT", "WRITE_TIMEOUT",
        "SERVICE_UNAVAILABLE", "TEMPORARILY_OVERLOADED", "BACKEND_ERROR", "RESOURCE_BUSY", "LOCK_ACQUISITION_FAILED",
        "RATE_LIMIT_EXCEEDED", "QUOTA_EXCEEDED"}
    ensures IsRetryableCode(code) <==> IsTransient(code)
  {
    if IsTransient(code) {
      assert RetryableCode(0) == "CONNECTION_TIMEOUT" && RetryableCode(1) == "CONNECTION_REFUSED";
      assert RetryableCode(2) == "NETWORK_UNREACHABLE" && RetryableCode(3) == "READ_TIMEOUT";
      assert RetryableCode(4) == "WRITE_TIMEOUT" && RetryableCode(5) == "SERVICE_UNAVAILABLE";
      assert RetryableCode(6) == "TEMPORARILY_OVERLOADED" && RetryableCode(7) == "BACKEND_ERROR";
      assert RetryableCode(8) == "RESOURCE_BUSY" && RetryableCode(9) == "LOCK_ACQUISITION_FAILED";
      assert RetryableCode(10) == "RATE_LIMIT_EXCEEDED" && RetryableCode(11) == "QUOTA_EXCEEDED";
    }
  }

  /** A failure that may pass: no code was recorded, or a transient one. */
  predicate MayPass(a: Action) {
    a.payload.Some? && a.payload.value.errorCode.Some? ==> IsTransient(a.payload.value.errorCode.value)
  }

  /** Reapprovable: failed, with budget left, for a reason that may pass. A dead letter: failed, otherwise. */
  lemma RetryPolicyTells(a: Action)
    ensures CanBeReapproved(a) <==> a.status == Failed && a.attemptCount < a.maxRetries && MayPass(a)
    ensures IsDlqCandidate(a) <==> a.status == Failed && (a.attemptCount >= a.maxRetries || !MayPass(a))
    ensures ReapprovalDenied(a) <==> !CanBeReapproved(a)
  {
    if HasErrorCode(a) {
      RetryableIffTransient(a.payload.value.errorCode.value);
    }
  }

  // ----- The repository's writes -----

  function Named(name: Option<string>, before: Option<string>): Option<string> {
    match name
    case Some(_) => name
    case None => before
  }

  /** A write fails on a missing action, then on a stale token, then on reopening what has not failed. */
  lemma WriteFailsIff(store: Store, id: Uuid, w: Write, token: int)
    ensures var o := Cas(store, id, w, token);
      && (id !in store ==> o == Outcome(store, Err(ActionNotFound(id))))
      && (id in store && store[id].lockVersion != token ==> o == Outcome(store, Err(ConcurrencyConflict(id))))
      && (id in store && store[id].lockVersion == token && w.Reopen? && store[id].status != Failed ==>
            o == Outcome(store, Err(InvalidTransition(store[id].status, Pending))))
      && (o.result.Ok? <==>
            id in store && store[id].lockVersion == token && (w.Reopen? ==> store[id].status == Failed))
      && (o.result.Ok? ==> o.store == store[id := o.result.value])
  {
  }

  /**
   What an accepted status update leaves, field by field; the timestamp goes with the status, a
   name only if given.
   */
  lemma StatusUpdateTells(a: Action, status: Status, now: Timestamp, approver: Option<string>, waiver: Option<string>)
    ensures Apply(a, SetStatus(status, now, approver, waiver)) ==
      a.(status := status,
         lockVersion := a.lockVersion + 1,
         approvedAt := if status == Approved then Some(now) else a.approvedAt,
         approvedBy := if status == Approved then Named(approver, a.approvedBy) else a.approvedBy,
         waivedAt := if status == Waived then Some(now) else a.waivedAt,
         waivedBy := if status == Waived then Named(waiver, a.waivedBy) else a.waivedBy,
         executedAt := if status == Executed then Some(now) else a.executedAt,
         failedAt := if status == Failed then Some(now) else a.failedAt)
  {
  }

  /** What a recorded result leaves: the answer itself, one more attempt, and the time the executor reported. */
  lemma ResultTells(a: Action, result: ExecutionResult, executor: Option<string>)
    ensures Apply(a, SetResult(result, executor)) ==
      a.(status := if result.success then Executed else Failed,
         lockVersion := a.lockVersion + 1,
         attemptCount := a.attemptCount + 1,
         payload := Some(result),
         executedAt := if result.success then Some(result.completedAt) else a.executedAt,
         executedBy := if result.success then Named(executor, a.executedBy) else a.executedBy,
         failedAt := if result.success then a.failedAt else Some(result.completedAt))
  {
  }

  // ----- The guarded calls -----

  /** The outcome of a call: the error that comes first, or the action left behind. */
  ghost predicate Succeeds(o: Outcome, store: Store, id: Uuid, after: Action) {
    o == Outcome(store[id := after], Ok(after))
  }

  lemma ApproveTells(store: Store, id: Uuid, token: int, actor: Option<string>, env: Env)
    ensures var o := Perform(store, id, ApproveCall(token, actor), env);
      if id !in store then o == Outcome(store, Err(ActionNotFound(id)))
      else
        var a := store[id];
        if a.status != Pending then o == Outcome(store, Err(InvalidTransition(a.status, Approved)))
        else if a.lockVersion != token then o == Outcome(store, Err(ConcurrencyConflict(id)))
        else Succeeds(o, store, id, a.(status := Approved, lockVersion := token + 1, approvedAt := Some(env.now),
                                     approvedBy := Named(actor, a.approvedBy)))
  {
  }

  lemma WaiveTells(store: Store, id: Uuid, token: int, actor: Option<string>, env: Env)
    ensures var o := Perform(store, id, WaiveCall(token, actor), env);
      if id !in store then o == Outcome(store, Err(ActionNotFound(id)))
      else
        var a := store[id];
        if a.status != Pending then o == Outcome(store, Err(InvalidTransition(a.status, Waived)))
        else if a.lockVersion != token then o == Outcome(store, Err(ConcurrencyConflict(id)))
        else Succeeds(o, store, id, a.(status := Waived, lockVersion := token + 1, waivedAt := Some(env.now),
                                     waivedBy := Named(actor, a.waivedBy)))
  {
  }

  /** The four executable pairs, written out. */
  predicate IsExecutablePair(s: Strategy, f: Feasibility) {
    (s, f) in {(Rollback, Automatic), (CounterAction, SemiAutomatic), (FollowupNotice, ManualOnly),
               (Escalation, NotPossible)}
  }

  lemma ExecuteTells(store: Store, id: Uuid, actor: Option<string>, env: Env)
    ensures var o := Perform(store, id, ExecuteCall(actor), env);
      if id !in store then o == Outcome(store, Err(ActionNotFound(id)))
      else
        var a, r := store[id], env.result;
        if a.status != Approved || !IsExecutablePair(a.strategy, a.feasibility) then
          o == Outcome(store, Err(NotExecutable(a.id)))
        else
          var tried := a.(lockVersion := a.lockVersion + 1, attemptCount := a.attemptCount + 1, payload := Some(r));
          Succeeds(o, store, id,
                 if r.success then tried.(status := Executed, executedAt := Some(r.completedAt),
                                          executedBy := Named(actor, a.executedBy))
                 else tried.(status := Failed, failedAt := Some(r.completedAt)))
  {
  }

  /** Approval and waiver fields survive a reapproval, as do the attempts and the recorded result. */
  lemma ReapproveTells(store: Store, id: Uuid, token: int, env: Env)
    ensures var o := Perform(store, id, ReapproveCall(token), env);
      if id !in store then o == Outcome(store, Err(ActionNotFound(id)))
      else
        var a := store[id];
        if a.status != Failed then o == Outcome(store, Err(InvalidTransition(a.status, Pending)))
        else if a.attemptCount >= a.maxRetries || !MayPass(a) then o == Outcome(store, Err(NotReapprovable(a.id)))
        else if a.lockVersion != token then o == Outcome(store, Err(ConcurrencyConflict(id)))
        else Succeeds(o, store, id, a.(status := Pending, lockVersion := token + 1, failedAt := None))
  {
    if id in store {
      RetryPolicyTells(store[id]);
    }
  }

  /** After a failure with budget left, the next reapproval succeeds exactly if the executor's code may pass. */
  lemma ReapprovableAfterFailureIff(store: Store, id: Uuid, actor: Option<string>, env: Env, later: Env)
    requires id in store && store[id].status == Approved && IsExecutablePair(store[id].strategy, store[id].feasibility)
    requires !env.result.success && store[id].attemptCount + 1 < store[id].maxRetries
    ensures var failed := Perform(store, id, ExecuteCall(actor), env).store;
      && id in failed
      && (Perform(failed, id, ReapproveCall(failed[id].lockVersion), later).result.Ok? <==>
            (env.result.errorCode.Some? ==> IsTransient(env.result.errorCode.value)))
  {
    ExecuteTells(store, id, actor, env);
    ReapproveTells(Perform(store, id, ExecuteCall(actor), env).store, id, store[id].lockVersion + 1, later);
  }
}
