/** The compensation action: its fields, its status matrix and its retry policy. */
module Actions {
  import opened Base

  datatype Feasibility = Automatic | SemiAutomatic | ManualOnly | NotPossible

  datatype Strategy = Rollback | CounterAction | FollowupNotice | Quarantine | Escalation

  datatype RebaseContext = RebaseContext(intentId: Uuid, fromVersion: int, toVersion: int, workflowId: Uuid)

  datatype ExecutionResult = ExecutionResult(success: bool, errorCode: Option<string>, completedAt: Timestamp)

  datatype Action = Action(
    id: Uuid,
    tenantId: Uuid,
    sideEffectId: Uuid,
    intentId: Uuid,
    triggerContext: RebaseContext,
    payload: Option<ExecutionResult>,
    feasibility: Feasibility,
    strategy: Strategy,
    status: Status,
    attemptCount: int,
    maxRetries: int,
    lockVersion: int,
    generatedAt: Timestamp,
    approvedAt: Option<Timestamp>,
    approvedBy: Option<string>,
    waivedAt: Option<Timestamp>,
    waivedBy: Option<string>,
    executedAt: Option<Timestamp>,
    executedBy: Option<string>,
    failedAt: Option<Timestamp>)

  const DEFAULT_MAX_RETRIES := 3

  /** The constructor shared by manual construction and planning. */
  function NewAction(id: Uuid, tenantId: Uuid, sideEffectId: Uuid, intentId: Uuid, context: RebaseContext,
                     feasibility: Feasibility, strategy: Strategy, now: Timestamp): Action
  {
    Action(id, tenantId, sideEffectId, intentId, context, None, feasibility, strategy,
           Pending, 0, DEFAULT_MAX_RETRIES, 0, now, None, None, None, None, None, None, None)
  }

  /** What every freshly constructed action looks like, whatever budget was then put in its public field. */
  predicate Fresh(a: Action) {
    && a.status == Pending && a.attemptCount == 0 && a.lockVersion == 0 && a.payload == None
    && a.approvedAt == None && a.waivedAt == None && a.executedAt == None && a.failedAt == None
    && a.approvedBy == None && a.waivedBy == None && a.executedBy == None
  }

  /** The status matrix consulted before a direct status update. */
  predicate CanTransitionTo(from: Status, to: Status) {
    match (from, to)
    case (Pending, Approved) => true
    case (Pending, Waived) => true
    case (Approved, Executed) => true
    case (Failed, Pending) => true
    case _ => false
  }

  predicate IsTerminal(s: Status) {
    s == Executed || s == Waived
  }

  const RETRYABLE_CODES := 12

  /** The allow-list of transient failures. */
  function RetryableCode(k: nat): string
    requires k < RETRYABLE_CODES
  {
    match k
    case 0 => "CONNECTION_TIMEOUT"
    case 1 => "CONNECTION_REFUSED"
    case 2 => "NETWORK_UNREACHABLE"
    case 3 => "READ_TIMEOUT"
    case 4 => "WRITE_TIMEOUT"
    case 5 => "SERVICE_UNAVAILABLE"
    case 6 => "TEMPORARILY_OVERLOADED"
    case 7 => "BACKEND_ERROR"
    case 8 => "RESOURCE_BUSY"
    case 9 => "LOCK_ACQUISITION_FAILED"
    case 10 => "RATE_LIMIT_EXCEEDED"
    case _ => "QUOTA_EXCEEDED"
  }

  /** Every code off the list is permanent. */
  predicate IsRetryableCode(code: string) {
    exists k: nat :: k < RETRYABLE_CODES && RetryableCode(k) == code
  }

  predicate HasErrorCode(a: Action) {
    a.payload.Some? && a.payload.value.errorCode.Some?
  }

  /** Failed, and either out of budget or failed for good. */
  predicate IsDlqCandidate(a: Action) {
    if a.status != Failed then false
    else if a.attemptCount >= a.maxRetries then true
    else if HasErrorCode(a) then !IsRetryableCode(a.payload.value.errorCode.value)
    else false
  }

  predicate CanBeReapproved(a: Action) {
    if a.status != Failed then false
    else if a.attemptCount >= a.maxRetries then false
    else if HasErrorCode(a) then IsRetryableCode(a.payload.value.errorCode.value)
    else true
  }

  /** Whether a denial reason exists for reapproving `a`. */
  predicate ReapprovalDenied(a: Action) {
    if a.status != Failed then true
    else if a.attemptCount >= a.maxRetries then true
    else if HasErrorCode(a) && !IsRetryableCode(a.payload.value.errorCode.value) then true
    else false
  }

  predicate IsAutoExecutable(a: Action) {
    a.feasibility == Automatic
  }

  /** The four strategy and feasibility pairs the service can execute. */
  predicate IsServiceExecutable(a: Action) {
    match (a.strategy, a.feasibility)
    case (Rollback, Automatic) => true
    case (CounterAction, SemiAutomatic) => true
    case (FollowupNotice, ManualOnly) => true
    case (Escalation, NotPossible) => true
    case _ => false
  }
}
