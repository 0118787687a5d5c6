/** The shipped executors: read-only checks of an action against the side-effect ledger. */
module Executors {
  import opened Base
  import opened Actions
  import opened SideEffects

  function Success(at: Timestamp): ExecutionResult {
    ExecutionResult(true, None, at)
  }

  function Failure(code: string, at: Timestamp): ExecutionResult {
    ExecutionResult(false, Some(code), at)
  }

  /** The gates all four executors share, in order; only the rollback executor accepts any class. */
  function CheckedExecution(strategy: Strategy, feasibility: Feasibility, effectClass: Option<EffectClass>,
                            ledger: Ledger, a: Action, at: Timestamp): ExecutionResult
  {
    if a.strategy != strategy then Failure("UNSUPPORTED_STRATEGY_TYPE", at)
    else if a.feasibility != feasibility then Failure("UNSUPPORTED_FEASIBILITY", at)
    else if a.sideEffectId !in ledger then Failure("SIDE_EFFECT_NOT_FOUND", at)
    else
      var effect := ledger[a.sideEffectId];
      if effect.tenantId != a.tenantId then Failure("TENANT_MISMATCH", at)
      else if effect.intentId != a.intentId then Failure("INTENT_MISMATCH", at)
      else if effectClass.Some? && effect.effectClass != effectClass.value then Failure("INVALID_SIDE_EFFECT_CLASS", at)
      else Success(at)
  }

  function RollbackExecutor(ledger: Ledger, a: Action, at: Timestamp): ExecutionResult {
    CheckedExecution(Rollback, Automatic, None, ledger, a, at)
  }

  function CounterActionExecutor(ledger: Ledger, a: Action, at: Timestamp): ExecutionResult {
    CheckedExecution(CounterAction, SemiAutomatic, Some(S2ExternalReversible), ledger, a, at)
  }

  function FollowupNoticeExecutor(ledger: Ledger, a: Action, at: Timestamp): ExecutionResult {
    CheckedExecution(FollowupNotice, ManualOnly, Some(S3ExternalPartiallyReversible), ledger, a, at)
  }

  function EscalationExecutor(ledger: Ledger, a: Action, at: Timestamp): ExecutionResult {
    CheckedExecution(Escalation, NotPossible, Some(S4Irreversible), ledger, a, at)
  }

  /** How the service picks an executor; without a ledger it falls back to the stub. */
  function ShippedExecution(ledger: Option<Ledger>, a: Action, at: Timestamp): ExecutionResult {
    match (a.strategy, a.feasibility)
    case (Rollback, Automatic) =>
      if ledger.Some? then RollbackExecutor(ledger.value, a, at) else Success(at)
    case (CounterAction, SemiAutomatic) =>
      if ledger.Some? then CounterActionExecutor(ledger.value, a, at) else Success(at)
    case (FollowupNotice, ManualOnly) =>
      if ledger.Some? then FollowupNoticeExecutor(ledger.value, a, at) else Success(at)
    case (Escalation, NotPossible) =>
      if ledger.Some? then EscalationExecutor(ledger.value, a, at) else Success(at)
    case _ => Failure("UNSUPPORTED_COMBO", at)
  }

  /** Either a success or a failure no retry will cure. */
  predicate Final(r: ExecutionResult) {
    r.success || (r.errorCode.Some? && !IsRetryableCode(r.errorCode.value))
  }

  lemma CheckedIsFinal(strategy: Strategy, feasibility: Feasibility, effectClass: Option<EffectClass>,
                       ledger: Ledger, a: Action, at: Timestamp)
    ensures Final(CheckedExecution(strategy, feasibility, effectClass, ledger, a, at))
  {
  }

  /** Every failure code the shipped executors produce is permanent. */
  lemma ShippedResultsAreFinal(ledger: Option<Ledger>, a: Action, at: Timestamp)
    ensures Final(ShippedExecution(ledger, a, at))
  {
    if ledger.Some? {
      CheckedIsFinal(Rollback, Automatic, None, ledger.value, a, at);
      CheckedIsFinal(CounterAction, SemiAutomatic, Some(S2ExternalReversible), ledger.value, a, at);
      CheckedIsFinal(FollowupNotice, ManualOnly, Some(S3ExternalPartiallyReversible), ledger.value, a, at);
      CheckedIsFinal(Escalation, NotPossible, Some(S4Irreversible), ledger.value, a, at);
    }
  }

  /** The class an executor insists on; the rollback executor takes any. */
  function ClassFor(strategy: Strategy): Option<EffectClass> {
    match strategy
    case CounterAction => Some(S2ExternalReversible)
    case FollowupNotice => Some(S3ExternalPartiallyReversible)
    case Escalation => Some(S4Irreversible)
    case _ => None
  }

  /** The ledger holds the action's effect, of its tenant and intent and of the class its executor insists on. */
  predicate Supports(ledger: Ledger, a: Action) {
    && a.sideEffectId in ledger
    && ledger[a.sideEffectId].tenantId == a.tenantId && ledger[a.sideEffectId].intentId == a.intentId
    && (ClassFor(a.strategy).Some? ==> ledger[a.sideEffectId].effectClass == ClassFor(a.strategy).value)
  }

  /** Exactly when the shipped executors succeed, read off the action and the ledger. */
  lemma ShippedSucceedsIff(ledger: Option<Ledger>, a: Action, at: Timestamp)
    ensures ShippedExecution(ledger, a, at).success <==>
      IsServiceExecutable(a) && (ledger.Some? ==> Supports(ledger.value, a))
  {
  }

  /** The one effect an action names, if the ledger holds it. */
  function EffectNamed(ledger: Ledger, a: Action): Option<SideEffect> {
    if a.sideEffectId in ledger then Some(ledger[a.sideEffectId]) else None
  }

  /**
   The code of a failed execution names the first check that failed, in this order: the effect is
   missing, is another tenant's, is another intent's, is of the wrong class. A success carries none.
   */
  lemma FailureCodeTells(ledger: Ledger, a: Action, at: Timestamp)
    requires IsServiceExecutable(a)
    ensures var r, effect := ShippedExecution(Some(ledger), a, at), EffectNamed(ledger, a);
      && r.completedAt == at
      && (r.errorCode == Some("SIDE_EFFECT_NOT_FOUND") <==> effect.None?)
      && (r.errorCode == Some("TENANT_MISMATCH") <==> effect.Some? && effect.value.tenantId != a.tenantId)
      && (r.errorCode == Some("INTENT_MISMATCH") <==>
            effect.Some? && effect.value.tenantId == a.tenantId && effect.value.intentId != a.intentId)
      && (r.errorCode == Some("INVALID_SIDE_EFFECT_CLASS") <==>
            && effect.Some? && effect.value.tenantId == a.tenantId && effect.value.intentId == a.intentId
            && ClassFor(a.strategy).Some? && effect.value.effectClass != ClassFor(a.strategy).value)
      && (r.errorCode == None <==> r.success)
  {
    CodesDiffer();
  }

  lemma CodesDiffer()
    ensures "SIDE_EFFECT_NOT_FOUND" != "TENANT_MISMATCH" && "SIDE_EFFECT_NOT_FOUND" != "INTENT_MISMATCH"
    ensures "SIDE_EFFECT_NOT_FOUND" != "INVALID_SIDE_EFFECT_CLASS" && "TENANT_MISMATCH" != "INTENT_MISMATCH"
    ensures "TENANT_MISMATCH" != "INVALID_SIDE_EFFECT_CLASS" && "INTENT_MISMATCH" != "INVALID_SIDE_EFFECT_CLASS"
  {
    assert "SIDE_EFFECT_NOT_FOUND"[0] == 'S' && "TENANT_MISMATCH"[0] == 'T' && "INTENT_MISMATCH"[2] == 'T';
    assert "INVALID_SIDE_EFFECT_CLASS"[2] == 'V' && "INTENT_MISMATCH"[0] == "INVALID_SIDE_EFFECT_CLASS"[0] == 'I';
  }

  /** Without a ledger the executable pairs succeed, and every other pair fails for good. */
  lemma FallbackTells(ledger: Option<Ledger>, a: Action, at: Timestamp)
    ensures ledger.None? && IsServiceExecutable(a) ==>
      ShippedExecution(ledger, a, at) == ExecutionResult(true, None, at)
    ensures !IsServiceExecutable(a) ==>
      ShippedExecution(ledger, a, at) == ExecutionResult(false, Some("UNSUPPORTED_COMBO"), at)
  {
  }

  /** Called on its own, each executor refuses another strategy first and another feasibility next. */
  lemma ExecutorGatesTell(ledger: Ledger, a: Action, at: Timestamp)
    ensures var wrong := ExecutionResult(false, Some("UNSUPPORTED_STRATEGY_TYPE"), at);
      && (a.strategy != Rollback ==> RollbackExecutor(ledger, a, at) == wrong)
      && (a.strategy != CounterAction ==> CounterActionExecutor(ledger, a, at) == wrong)
      && (a.strategy != FollowupNotice ==> FollowupNoticeExecutor(ledger, a, at) == wrong)
      && (a.strategy != Escalation ==> EscalationExecutor(ledger, a, at) == wrong)
    ensures var wrong := ExecutionResult(false, Some("UNSUPPORTED_FEASIBILITY"), at);
      && (a.strategy == Rollback && a.feasibility != Automatic ==> RollbackExecutor(ledger, a, at) == wrong)
      && (a.strategy == CounterAction && a.feasibility != SemiAutomatic ==>
          CounterActionExecutor(ledger, a, at) == wrong)
      && (a.strategy == FollowupNotice && a.feasibility != ManualOnly ==>
          FollowupNoticeExecutor(ledger, a, at) == wrong)
      && (a.strategy == Escalation && a.feasibility != NotPossible ==> EscalationExecutor(ledger, a, at) == wrong)
  {
  }
}
