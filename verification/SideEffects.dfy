/** Recorded side effects and their severity classes. */
module SideEffects {
  import opened Base

  datatype EffectClass =
    | S0PureRead
    | S1InternalReversible
    | S2ExternalReversible
    | S3ExternalPartiallyReversible
    | S4Irreversible

  datatype SideEffect = SideEffect(
    id: Uuid,
    tenantId: Uuid,
    intentId: Uuid,
    intentVersion: int,
    effectClass: EffectClass,
    effectType: string,
    target: string,
    occurredAt: Timestamp,
    idempotencyKey: Option<string>)

  /** The part of the ledger the executors look at: effects by identifier. */
  type Ledger = map<Uuid, SideEffect>
}
