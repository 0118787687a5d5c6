/** The audit record written after an execution or a waiver. */
module RollbackRecords {
  import opened Base
  import opened Actions
  import opened ActionStore

  datatype RecordKind = SuccessRecord | FailureRecord | WaivedRecord

  datatype RollbackRecord = RollbackRecord(
    id: Uuid,
    tenantId: Uuid,
    actionId: Uuid,
    sideEffectId: Uuid,
    intentId: Uuid,
    kind: RecordKind,
    errorCode: Option<string>,
    recordedBy: Option<string>,
    recordedAt: Timestamp)

  /** The kind of record a committed call owes: only executions and waivers leave one. */
  function KindOf(call: Call, result: ExecutionResult): Option<RecordKind> {
    match call
    case WaiveCall(_, _) => Some(WaivedRecord)
    case ExecuteCall(_) => Some(if result.success then SuccessRecord else FailureRecord)
    case _ => None
  }

  /** The record a committed call builds from its snapshot. */
  function RecordFor(id: Uuid, snapshot: Action, call: Call, result: ExecutionResult, at: Timestamp): RollbackRecord
    requires KindOf(call, result).Some?
  {
    var kind := KindOf(call, result).value;
    var code := if kind != FailureRecord then None
                else if result.errorCode.Some? then result.errorCode else Some("UNKNOWN_ERROR");
    RollbackRecord(id, snapshot.tenantId, snapshot.id, snapshot.sideEffectId, snapshot.intentId,
                   kind, code, call.actor, at)
  }
}
