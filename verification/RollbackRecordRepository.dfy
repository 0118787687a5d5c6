/** The in-memory rollback record repository: records and five secondary indexes. */
module RollbackRecordRepositories {
  import opened Base
  import opened RollbackRecords
  import opened Sorting
  import opened Indexes

  function IdOf(r: RollbackRecord): Uuid { r.id }
  function TenantOf(r: RollbackRecord): Uuid { r.tenantId }
  function ActionOf(r: RollbackRecord): Uuid { r.actionId }
  function EffectOf(r: RollbackRecord): Uuid { r.sideEffectId }
  function TenantIntentOf(r: RollbackRecord): (Uuid, Uuid) { (r.tenantId, r.intentId) }
  function TenantKindOf(r: RollbackRecord): (Uuid, RecordKind) { (r.tenantId, r.kind) }
  function RecordedAt(r: RollbackRecord): Timestamp { r.recordedAt }

  function OfTenant(t: Uuid): RollbackRecord -> bool { (r: RollbackRecord) => r.tenantId == t }
  function OfAction(a: Uuid): RollbackRecord -> bool { (r: RollbackRecord) => r.actionId == a }
  function OfActionAndTenant(a: Uuid, t: Uuid): RollbackRecord -> bool {
    (r: RollbackRecord) => r.actionId == a && r.tenantId == t
  }
  function OfKind(t: Uuid, k: RecordKind): RollbackRecord -> bool {
    (r: RollbackRecord) => r.tenantId == t && r.kind == k
  }

  class RollbackRecordRepository {
    var records: map<Uuid, RollbackRecord>
    var byTenant: Index<Uuid>
    var byCompensationAction: Index<Uuid>
    var bySideEffect: Index<Uuid>
    var byIntent: Index<(Uuid, Uuid)>
    var byResult: Index<(Uuid, RecordKind)>

    ghost predicate Valid()
      reads this
    {
      && KeyedBy(records, IdOf)
      && Exact(byTenant, records, TenantOf)
      && Exact(byCompensationAction, records, ActionOf)
      && Exact(bySideEffect, records, EffectOf)
      && Exact(byIntent, records, TenantIntentOf)
      && Exact(byResult, records, TenantKindOf)
    }

    constructor ()
      ensures Valid() && records == map[]
    {
      records, byTenant, byCompensationAction := map[], map[], map[];
      bySideEffect, byIntent, byResult := map[], map[], map[];
    }

    method Create(record: RollbackRecord) returns (r: Result<RollbackRecord>)
      requires Valid()
      modifies this
      ensures r == Ok(record)
      ensures records == old(records)[record.id := record]
      ensures Valid() <==> record.id !in old(records)
    {
      PushExactIffNew(byTenant, records, TenantOf, record.id, record);
      PushExactIffNew(byCompensationAction, records, ActionOf, record.id, record);
      PushExactIffNew(bySideEffect, records, EffectOf, record.id, record);
      PushExactIffNew(byIntent, records, TenantIntentOf, record.id, record);
      PushExactIffNew(byResult, records, TenantKindOf, record.id, record);
      records := records[record.id := record];
      byTenant := Push(byTenant, record.tenantId, record.id);
      byCompensationAction := Push(byCompensationAction, record.actionId, record.id);
      bySideEffect := Push(bySideEffect, record.sideEffectId, record.id);
      byIntent := Push(byIntent, (record.tenantId, record.intentId), record.id);
      byResult := Push(byResult, (record.tenantId, record.kind), record.id);
      r := Ok(record);
    }

    ghost function IdsOfTenant(tenantId: Uuid): set<Uuid>
      reads this
    {
      set id | id in records && records[id].tenantId == tenantId
    }

    method ListByTenant(tenantId: Uuid, limit: Option<nat>) returns (rows: seq<RollbackRecord>)
      requires Valid()
      ensures exists all ::
        && IsScan(all, records, IdOf, OfTenant(tenantId)) && NewestOrdered(all, RecordedAt)
        && NewestOf(rows, all, limit)
      ensures forall r :: r in rows ==> r.id in records && records[r.id] == r && r.tenantId == tenantId
      ensures forall i, j :: 0 <= i < j < |rows| ==> rows[i] != rows[j] && rows[i].recordedAt >= rows[j].recordedAt
      ensures forall r, id :: r in rows && id in records && records[id].tenantId == tenantId && records[id] !in rows ==>
        r.recordedAt >= records[id].recordedAt
      ensures var n := |IdsOfTenant(tenantId)|; |rows| == if limit.Some? && limit.value < n then limit.value else n
    {
      var found := Resolve(Lookup(byTenant, tenantId), records);
      LookupIsScan(byTenant, records, TenantOf, tenantId, IdOf, OfTenant(tenantId));
      SortKeepsScan(found, records, IdOf, OfTenant(tenantId), RecordedAt);
      var all := NewestFirst(found, RecordedAt);
      rows := Truncate(all, limit);
      NewestOfTells(rows, all, limit, RecordedAt);
      ScanSize(all, records, IdOf, OfTenant(tenantId), IdsOfTenant(tenantId));
    }

    method ListByCompensationAction(actionId: Uuid, tenantId: Uuid) returns (rows: seq<RollbackRecord>)
      requires Valid()
      ensures IsScan(rows, records, IdOf, OfActionAndTenant(actionId, tenantId))
      ensures Distinct(rows)
      ensures forall r :: r in rows <==>
        r.id in records && records[r.id] == r && r.tenantId == tenantId && r.actionId == actionId
    {
      var found := Resolve(Lookup(byCompensationAction, actionId), records);
      LookupIsScan(byCompensationAction, records, ActionOf, actionId, IdOf, OfAction(actionId));
      FilterKeepsScan(found, records, IdOf, OfAction(actionId), OfTenant(tenantId),
                      OfActionAndTenant(actionId, tenantId));
      rows := Filter(found, OfTenant(tenantId));
    }

    method ListByResult(tenantId: Uuid, kind: RecordKind) returns (rows: seq<RollbackRecord>)
      requires Valid()
      ensures IsScan(rows, records, IdOf, OfKind(tenantId, kind))
      ensures Distinct(rows)
      ensures forall r :: r in rows <==>
        r.id in records && records[r.id] == r && r.tenantId == tenantId && r.kind == kind
    {
      LookupIsScan(byResult, records, TenantKindOf, (tenantId, kind), IdOf, OfKind(tenantId, kind));
      rows := Resolve(Lookup(byResult, (tenantId, kind)), records);
    }
  }
}
