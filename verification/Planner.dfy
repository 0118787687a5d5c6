/** The bounded planner: one action per side effect that needs compensating. */
module Planner {
  import opened Base
  import opened Actions
  import opened SideEffects

  function FeasibilityFor(c: EffectClass): Feasibility {
    match c
    case S0PureRead => NotPossible
    case S1InternalReversible => Automatic
    case S2ExternalReversible => SemiAutomatic
    case S3ExternalPartiallyReversible => ManualOnly
    case S4Irreversible => NotPossible
  }

  function FromSideEffect(id: Uuid, tenantId: Uuid, e: SideEffect, context: RebaseContext, strategy: Strategy,
                          now: Timestamp): Action
  {
    NewAction(id, tenantId, e.id, e.intentId, context, FeasibilityFor(e.effectClass), strategy, now)
  }

  /** No action for a pure read; otherwise the strategy its class calls for. */
  function ClassifyAndPlan(id: Uuid, tenantId: Uuid, e: SideEffect, context: RebaseContext,
                           now: Timestamp): Option<Action>
  {
    match e.effectClass
    case S0PureRead => None
    case S1InternalReversible => Some(FromSideEffect(id, tenantId, e, context, Rollback, now))
    case S2ExternalReversible => Some(FromSideEffect(id, tenantId, e, context, CounterAction, now))
    case S3ExternalPartiallyReversible => Some(FromSideEffect(id, tenantId, e, context, FollowupNotice, now))
    case S4Irreversible => Some(FromSideEffect(id, tenantId, e, context, Escalation, now))
  }

  /** `freshId(i)` and `clock(i)` are the identifier and instant drawn while planning effect `i`. */
  function PlanFromSideEffects(context: RebaseContext, effects: seq<SideEffect>, tenantId: Uuid,
                               freshId: nat -> Uuid, clock: nat -> Timestamp): seq<Action>
  {
    if effects == [] then []
    else
      var n := |effects| - 1;
      var planned := ClassifyAndPlan(freshId(n), tenantId, effects[n], context, clock(n));
      PlanFromSideEffects(context, effects[..n], tenantId, freshId, clock)
      + (if planned.Some? then [planned.value] else [])
  }

  ghost predicate Injective(f: nat -> Uuid) {
    forall i: nat, j: nat :: i < j ==> f(i) != f(j)
  }

  predicate NeedsAction(e: SideEffect) {
    e.effectClass != S0PureRead
  }

  function Compensable(): SideEffect -> bool {
    (e: SideEffect) => NeedsAction(e)
  }

  /** The identifier and the instant of generation are those drawn while planning effect `k`. */
  predicate PlannedAt(a: Action, k: nat, freshId: nat -> Uuid, clock: nat -> Timestamp) {
    a.id == freshId(k) && a.generatedAt == clock(k)
  }

  predicate PlannedAmong(a: Action, effects: seq<SideEffect>, freshId: nat -> Uuid, clock: nat -> Timestamp) {
    exists k: nat :: k < |effects| && PlannedAt(a, k, freshId, clock) && effects[k].id == a.sideEffectId
  }

  /** The pair each class is planned with, written out; a pure read gets no action. */
  lemma PlannedPairTells(id: Uuid, tenantId: Uuid, e: SideEffect, context: RebaseContext, now: Timestamp)
    ensures var planned := ClassifyAndPlan(id, tenantId, e, context, now);
      && (planned.None? <==> e.effectClass == S0PureRead)
      && (planned.Some? ==>
            (e.effectClass, planned.value.strategy, planned.value.feasibility) in {
              (S1InternalReversible, Rollback, Automatic),
              (S2ExternalReversible, CounterAction, SemiAutomatic),
              (S3ExternalPartiallyReversible, FollowupNotice, ManualOnly),
              (S4Irreversible, Escalation, NotPossible)})
  {
  }

  /**
   Exactly one pending, service-executable action per effect that is not a pure read, in the order
   of the effects, each under its own fresh identifier.
   */
  lemma {:induction false} PlanCoversEffects(context: RebaseContext, effects: seq<SideEffect>, tenantId: Uuid,
                                             freshId: nat -> Uuid, clock: nat -> Timestamp)
    requires Injective(freshId)
    ensures var plan := PlanFromSideEffects(context, effects, tenantId, freshId, clock);
      var needy := Filter(effects, Compensable());
      && |plan| == |needy|
      && (forall i :: 0 <= i < |plan| ==>
            && plan[i].sideEffectId == needy[i].id && plan[i].intentId == needy[i].intentId
            && plan[i].tenantId == tenantId && plan[i].triggerContext == context
            && plan[i].feasibility == FeasibilityFor(needy[i].effectClass)
            && Fresh(plan[i]) && plan[i].maxRetries == 3 && IsServiceExecutable(plan[i]))
      && (forall i :: 0 <= i < |plan| ==> PlannedAmong(plan[i], effects, freshId, clock))
      && (forall i, j :: 0 <= i < j < |plan| ==> plan[i].id != plan[j].id)
  {
    if effects != [] {
      var n := |effects| - 1;
      PlanCoversEffects(context, effects[..n], tenantId, freshId, clock);
      var before := PlanFromSideEffects(context, effects[..n], tenantId, freshId, clock);
      var plan := PlanFromSideEffects(context, effects, tenantId, freshId, clock);
      forall i | 0 <= i < |plan| ensures PlannedAmong(plan[i], effects, freshId, clock) {
        if i < |before| {
          assert PlannedAmong(before[i], effects[..n], freshId, clock);
          var k: nat :|
            k < n && PlannedAt(before[i], k, freshId, clock) && effects[..n][k].id == before[i].sideEffectId;
          assert PlannedAt(plan[i], k, freshId, clock) && effects[k].id == plan[i].sideEffectId;
        } else {
          assert PlannedAt(plan[i], n, freshId, clock) && effects[n].id == plan[i].sideEffectId;
        }
      }
      forall i | 0 <= i < |before| ensures plan[i] == before[i] && before[i].id != freshId(n) {
        assert PlannedAmong(before[i], effects[..n], freshId, clock);
      }
    }
  }
}
