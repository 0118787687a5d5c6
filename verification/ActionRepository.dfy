/** The in-memory action repository: a primary map and four secondary indexes updated in place. */
module ActionRepositories {
  import opened Base
  import opened Actions
  import opened ActionStore
  import opened Sorting
  import opened Indexes

  function IdOf(a: Action): Uuid { a.id }
  function TenantOf(a: Action): Uuid { a.tenantId }
  function EffectOf(a: Action): Uuid { a.sideEffectId }
  function TenantStatusOf(a: Action): (Uuid, Status) { (a.tenantId, a.status) }
  function TenantIntentOf(a: Action): (Uuid, Uuid) { (a.tenantId, a.intentId) }
  function GeneratedAt(a: Action): Timestamp { a.generatedAt }

  // The WHERE clauses of the listing queries.
  function OfTenant(t: Uuid): Action -> bool { (a: Action) => a.tenantId == t }
  function OfEffect(e: Uuid): Action -> bool { (a: Action) => a.sideEffectId == e }
  function OfEffectAndTenant(e: Uuid, t: Uuid): Action -> bool { (a: Action) => a.sideEffectId == e && a.tenantId == t }
  function OfIntent(i: Uuid, t: Uuid): Action -> bool { (a: Action) => a.tenantId == t && a.intentId == i }
  function OfStatus(t: Uuid, s: Status): Action -> bool { (a: Action) => a.tenantId == t && a.status == s }

  class ActionRepository {
    var actions: Store
    var byTenant: Index<Uuid>
    var bySideEffect: Index<Uuid>
    var byStatus: Index<(Uuid, Status)>
    var byIntent: Index<(Uuid, Uuid)>

    /** Every index agrees with a scan of the primary map. */
    ghost predicate Valid()
      reads this
    {
      && KeyedBy(actions, IdOf)
      && Exact(byTenant, actions, TenantOf)
      && Exact(bySideEffect, actions, EffectOf)
      && Exact(byStatus, actions, TenantStatusOf)
      && Exact(byIntent, actions, TenantIntentOf)
    }

    constructor ()
      ensures Valid() && actions == map[]
    {
      actions, byTenant, bySideEffect, byStatus, byIntent := map[], map[], map[], map[], map[];
    }

    /** Insertion does not look for a repeated identifier; the indexes survive exactly when it is new. */
    method Create(action: Action) returns (r: Result<Action>)
      requires Valid()
      modifies this
      ensures r == Ok(action)
      ensures actions == old(actions)[action.id := action]
      ensures Valid() <==> action.id !in old(actions)
    {
      PushExactIffNew(byTenant, actions, TenantOf, action.id, action);
      PushExactIffNew(bySideEffect, actions, EffectOf, action.id, action);
      PushExactIffNew(byStatus, actions, TenantStatusOf, action.id, action);
      PushExactIffNew(byIntent, actions, TenantIntentOf, action.id, action);
      actions := actions[action.id := action];
      byTenant := Push(byTenant, action.tenantId, action.id);
      bySideEffect := Push(bySideEffect, action.sideEffectId, action.id);
      byStatus := Push(byStatus, (action.tenantId, action.status), action.id);
      byIntent := Push(byIntent, (action.tenantId, action.intentId), action.id);
      r := Ok(action);
    }

    method Get(id: Uuid) returns (r: Result<Action>)
      ensures r == if id in actions then Ok(actions[id]) else Err(ActionNotFound(id))
    {
      r := if id in actions then Ok(actions[id]) else Err(ActionNotFound(id));
    }

    ghost function IdsOfTenant(tenantId: Uuid): set<Uuid>
      reads this
    {
      set id | id in actions && actions[id].tenantId == tenantId
    }

    /** The tenant's scan, newest first; a limit keeps the newest. */
    method ListByTenant(tenantId: Uuid, limit: Option<nat>) returns (rows: seq<Action>)
      requires Valid()
      ensures exists all ::
        && IsScan(all, actions, IdOf, OfTenant(tenantId)) && NewestOrdered(all, GeneratedAt)
        && NewestOf(rows, all, limit)
      ensures forall r :: r in rows ==> r.id in actions && actions[r.id] == r && r.tenantId == tenantId
      ensures forall i, j :: 0 <= i < j < |rows| ==> rows[i] != rows[j] && rows[i].generatedAt >= rows[j].generatedAt
      ensures forall r, id :: r in rows && id in actions && actions[id].tenantId == tenantId && actions[id] !in rows ==>
        r.generatedAt >= actions[id].generatedAt
      ensures var n := |IdsOfTenant(tenantId)|; |rows| == if limit.Some? && limit.value < n then limit.value else n
    {
      var found := Resolve(Lookup(byTenant, tenantId), actions);
      LookupIsScan(byTenant, actions, TenantOf, tenantId, IdOf, OfTenant(tenantId));
      SortKeepsScan(found, actions, IdOf, OfTenant(tenantId), GeneratedAt);
      var all := NewestFirst(found, GeneratedAt);
      rows := Truncate(all, limit);
      NewestOfTells(rows, all, limit, GeneratedAt);
      ScanSize(all, actions, IdOf, OfTenant(tenantId), IdsOfTenant(tenantId));
    }

    method ListBySideEffect(sideEffectId: Uuid, tenantId: Uuid) returns (rows: seq<Action>)
      requires Valid()
      ensures IsScan(rows, actions, IdOf, OfEffectAndTenant(sideEffectId, tenantId))
      ensures Distinct(rows)
      ensures forall r :: r in rows <==>
        r.id in actions && actions[r.id] == r && r.tenantId == tenantId && r.sideEffectId == sideEffectId
    {
      var found := Resolve(Lookup(bySideEffect, sideEffectId), actions);
      LookupIsScan(bySideEffect, actions, EffectOf, sideEffectId, IdOf, OfEffect(sideEffectId));
      FilterKeepsScan(found, actions, IdOf, OfEffect(sideEffectId), OfTenant(tenantId),
                      OfEffectAndTenant(sideEffectId, tenantId));
      rows := Filter(found, OfTenant(tenantId));
    }

    method ListByIntent(intentId: Uuid, tenantId: Uuid) returns (rows: seq<Action>)
      requires Valid()
      ensures IsScan(rows, actions, IdOf, OfIntent(intentId, tenantId))
      ensures Distinct(rows)
      ensures forall r :: r in rows <==>
        r.id in actions && actions[r.id] == r && r.tenantId == tenantId && r.intentId == intentId
    {
      LookupIsScan(byIntent, actions, TenantIntentOf, (tenantId, intentId), IdOf, OfIntent(intentId, tenantId));
      rows := Resolve(Lookup(byIntent, (tenantId, intentId)), actions);
    }

    method ListByStatus(tenantId: Uuid, status: Status) returns (rows: seq<Action>)
      requires Valid()
      ensures IsScan(rows, actions, IdOf, OfStatus(tenantId, status))
      ensures Distinct(rows)
      ensures forall r :: r in rows <==>
        r.id in actions && actions[r.id] == r && r.tenantId == tenantId && r.status == status
    {
      LookupIsScan(byStatus, actions, TenantStatusOf, (tenantId, status), IdOf, OfStatus(tenantId, status));
      rows := Resolve(Lookup(byStatus, (tenantId, status)), actions);
    }

    /** The tail every write shares: store the row, take it off its old status list, append it to the new one. */
    method Overwrite(updated: Action)
      requires Valid() && updated.id in actions && SameIdentity(actions[updated.id], updated)
      modifies this`actions, this`byStatus
      ensures Valid() && actions == old(actions)[updated.id := updated]
    {
      var id, was := updated.id, actions[updated.id];
      SameKeyKeepsExact(byTenant, actions, TenantOf, id, updated);
      SameKeyKeepsExact(bySideEffect, actions, EffectOf, id, updated);
      SameKeyKeepsExact(byIntent, actions, TenantIntentOf, id, updated);
      MoveKeepsExact(byStatus, actions, TenantStatusOf, id, updated);
      actions := actions[id := updated];
      byStatus := Retain(byStatus, (was.tenantId, was.status), id);
      byStatus := Push(byStatus, (was.tenantId, updated.status), id);
    }

    method UpdateStatus(id: Uuid, newStatus: Status, token: int, approvedBy: Option<string>, waivedBy: Option<string>,
                        now: Timestamp) returns (r: Result<Action>)
      requires Valid()
      modifies this`actions, this`byStatus
      ensures Valid()
      ensures Outcome(actions, r) == Cas(old(actions), id, SetStatus(newStatus, now, approvedBy, waivedBy), token)
    {
      if id !in actions {
        return Err(ActionNotFound(id));
      }
      var action := actions[id];
      if action.lockVersion != token {
        return Err(ConcurrencyConflict(id));
      }
      action := action.(lockVersion := action.lockVersion + 1, status := newStatus);
      match newStatus {
        case Approved =>
          action := action.(approvedAt := Some(now));
          if approvedBy.Some? { action := action.(approvedBy := approvedBy); }
        case Waived =>
          action := action.(waivedAt := Some(now));
          if waivedBy.Some? { action := action.(waivedBy := waivedBy); }
        case Executed => action := action.(executedAt := Some(now));
        case Failed => action := action.(failedAt := Some(now));
        case Pending =>
      }
      Overwrite(action);
      r := Ok(action);
    }

    method RecordResult(id: Uuid, result: ExecutionResult, token: int, executedBy: Option<string>)
      returns (r: Result<Action>)
      requires Valid()
      modifies this`actions, this`byStatus
      ensures Valid()
      ensures Outcome(actions, r) == Cas(old(actions), id, SetResult(result, executedBy), token)
    {
      if id !in actions {
        return Err(ActionNotFound(id));
      }
      var action := actions[id];
      if action.lockVersion != token {
        return Err(ConcurrencyConflict(id));
      }
      action := action.(lockVersion := action.lockVersion + 1);
      action := action.(attemptCount := action.attemptCount + 1);
      action := action.(payload := Some(result));
      if result.success {
        action := action.(status := Executed, executedAt := Some(result.completedAt));
        if executedBy.Some? { action := action.(executedBy := executedBy); }
      } else {
        action := action.(status := Failed, failedAt := Some(result.completedAt));
      }
      Overwrite(action);
      r := Ok(action);
    }

    method Reapprove(id: Uuid, token: int) returns (r: Result<Action>)
      requires Valid()
      modifies this`actions, this`byStatus
      ensures Valid()
      ensures Outcome(actions, r) == Cas(old(actions), id, Reopen, token)
    {
      if id !in actions {
        return Err(ActionNotFound(id));
      }
      var action := actions[id];
      if action.lockVersion != token {
        return Err(ConcurrencyConflict(id));
      }
      if action.status != Failed {
        return Err(InvalidTransition(action.status, Pending));
      }
      action := action.(lockVersion := action.lockVersion + 1, status := Pending);
      action := action.(failedAt := None);
      Overwrite(action);
      r := Ok(action);
    }
  }
}
