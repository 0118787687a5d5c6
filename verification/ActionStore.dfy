/**
 The primary map of compensation actions as a value, its compare-and-swap writes, and the
 four guarded service calls as single atomic steps on it.
 */
module ActionStore {
  import opened Base
  import opened Actions

  type Store = map<Uuid, Action>

  /** The three mutations the repository offers, with the values the caller and the clock supply. */
  datatype Write =
    | SetStatus(newStatus: Status, now: Timestamp, approvedBy: Option<string>, waivedBy: Option<string>)
    | SetResult(result: ExecutionResult, executedBy: Option<string>)
    | Reopen

  function OrElse<T>(x: Option<T>, y: Option<T>): Option<T> {
    if x.Some? then x else y
  }

  /** The action after an accepted write. */
  function Apply(a: Action, w: Write): Action {
    match w
    case SetStatus(status, now, approvedBy, waivedBy) =>
      var b := a.(lockVersion := a.lockVersion + 1, status := status);
      (match status
       case Approved => b.(approvedAt := Some(now), approvedBy := OrElse(approvedBy, a.approvedBy))
       case Waived => b.(waivedAt := Some(now), waivedBy := OrElse(waivedBy, a.waivedBy))
       case Executed => b.(executedAt := Some(now))
       case Failed => b.(failedAt := Some(now))
       case Pending => b)
    case SetResult(result, executedBy) =>
      var b := a.(lockVersion := a.lockVersion + 1, attemptCount := a.attemptCount + 1, payload := Some(result));
      if result.success then
        b.(status := Executed, executedAt := Some(result.completedAt), executedBy := OrElse(executedBy, a.executedBy))
      else
        b.(status := Failed, failedAt := Some(result.completedAt))
    case Reopen =>
      a.(lockVersion := a.lockVersion + 1, status := Pending, failedAt := None)
  }

  datatype Outcome = Outcome(store: Store, result: Result<Action>)

  /** One repository write under its optimistic lock. */
  function Cas(store: Store, id: Uuid, w: Write, token: int): Outcome {
    if id !in store then
      Outcome(store, Err(ActionNotFound(id)))
    else
      var a := store[id];
      if a.lockVersion != token then
        Outcome(store, Err(ConcurrencyConflict(id)))
      else if w.Reopen? && a.status != Failed then
        Outcome(store, Err(InvalidTransition(a.status, Pending)))
      else
        Outcome(store[id := Apply(a, w)], Ok(Apply(a, w)))
  }

  /** A service call. Three carry the caller's version token; `ExecuteCall` uses its own snapshot's. */
  datatype Call =
    | ApproveCall(token: int, actor: Option<string>)
    | WaiveCall(token: int, actor: Option<string>)
    | ReapproveCall(token: int)
    | ExecuteCall(actor: Option<string>)

  /** What the outside world supplies while a call runs: the clock and the executor's answer. */
  datatype Env = Env(now: Timestamp, result: ExecutionResult)

  /** The validation each call performs on the snapshot it has read. */
  function Denial(call: Call, a: Action): Option<Error> {
    match call
    case ApproveCall(_, _) =>
      if CanTransitionTo(a.status, Approved) then None else Some(InvalidTransition(a.status, Approved))
    case WaiveCall(_, _) =>
      if CanTransitionTo(a.status, Waived) then None else Some(InvalidTransition(a.status, Waived))
    case ReapproveCall(_) =>
      if a.status != Failed then Some(InvalidTransition(a.status, Pending))
      else if a.attemptCount >= a.maxRetries then Some(NotReapprovable(a.id))
      else if ReapprovalDenied(a) then Some(NotReapprovable(a.id))
      else None
    case ExecuteCall(_) =>
      if a.status != Approved then Some(NotExecutable(a.id))
      else if !IsServiceExecutable(a) then Some(NotExecutable(a.id))
      else None
  }

  function WriteOf(call: Call, env: Env): Write {
    match call
    case ApproveCall(_, actor) => SetStatus(Approved, env.now, actor, None)
    case WaiveCall(_, actor) => SetStatus(Waived, env.now, None, actor)
    case ReapproveCall(_) => Reopen
    case ExecuteCall(actor) => SetResult(env.result, actor)
  }

  function TokenOf(call: Call, snapshot: Action): int {
    if call.ExecuteCall? then snapshot.lockVersion else call.token
  }

  /** A whole call as one atomic guarded transition: look up, validate, compare and swap. */
  function Perform(store: Store, id: Uuid, call: Call, env: Env): Outcome {
    if id !in store then
      Outcome(store, Err(ActionNotFound(id)))
    else
      match Denial(call, store[id])
      case Some(e) => Outcome(store, Err(e))
      case None => Cas(store, id, WriteOf(call, env), TokenOf(call, store[id]))
  }

  /** The fields that say what an action is for; no write touches them. */
  predicate SameIdentity(a: Action, b: Action) {
    && b.id == a.id && b.tenantId == a.tenantId && b.sideEffectId == a.sideEffectId && b.intentId == a.intentId
    && b.triggerContext == a.triggerContext && b.feasibility == a.feasibility && b.strategy == a.strategy
    && b.maxRetries == a.maxRetries && b.generatedAt == a.generatedAt
  }

  /** Every accepted write raises the version by one and leaves the identity alone. */
  lemma ApplyFrame(a: Action, w: Write)
    ensures Apply(a, w).lockVersion == a.lockVersion + 1
    ensures SameIdentity(a, Apply(a, w))
  {
  }
}
