/** The rollback records a pass over an identifier list leaves behind. */
module PassRecords {
  import opened Base
  import opened Actions
  import opened ActionStore
  import opened Planner
  import opened RollbackRecords
  import opened Sweeps

  type Records = map<Uuid, RollbackRecord>

  // ----- Filing one record after the other -----

  function Filed(records: Records, record: Option<RollbackRecord>): Records {
    if record.Some? then records[record.value.id := record.value] else records
  }

  /** The records after the first `n` positions, of which position `i` leaves `left(i)`. */
  function FileAll(records: Records, left: nat -> Option<RollbackRecord>, n: nat): Records {
    if n == 0 then records else Filed(FileAll(records, left, n - 1), left(n - 1))
  }

  /** Position `i` files its record under its own identifier, which no record had before. */
  ghost predicate FilesUnder(left: nat -> Option<RollbackRecord>, recordIds: nat -> Uuid, records: Records) {
    && Injective(recordIds) && (forall i: nat :: recordIds(i) !in records)
    && forall i: nat :: left(i).Some? ==> left(i).value.id == recordIds(i)
  }

  predicate IsAmong(r: Uuid, recordIds: nat -> Uuid, n: nat) {
    exists i: nat :: i < n && recordIds(i) == r
  }

  /** The record is there under its identifier, or nothing is. */
  predicate IsFiled(records: Records, recordId: Uuid, left: Option<RollbackRecord>) {
    if left.Some? then recordId in records && records[recordId] == left.value else recordId !in records
  }

  /** Nothing is lost or changed, what is new is what some position left, and what was left is there. */
  ghost predicate OldOrLeft(after: Records, records: Records, left: nat -> Option<RollbackRecord>, n: nat,
                            recordIds: nat -> Uuid)
  {
    && (forall r :: r in records ==> r in after && after[r] == records[r])
    && (forall r :: r in after ==> r in records || IsAmong(r, recordIds, n))
    && (forall i: nat :: i < n ==> IsFiled(after, recordIds(i), left(i)))
  }

  lemma FilingKeeps(before: Records, records: Records, left: nat -> Option<RollbackRecord>, n: nat,
                    recordIds: nat -> Uuid)
    requires FilesUnder(left, recordIds, records) && OldOrLeft(before, records, left, n, recordIds)
    ensures recordIds(n) !in before && OldOrLeft(Filed(before, left(n)), records, left, n + 1, recordIds)
  {
    var after := Filed(before, left(n));
    assert recordIds(n) !in before;
    forall r | r in after && r !in records ensures IsAmong(r, recordIds, n + 1) {
      if r in before {
        assert IsAmong(r, recordIds, n);
      } else {
        assert r == recordIds(n);
      }
    }
    forall i: nat | i < n + 1 ensures IsFiled(after, recordIds(i), left(i)) {
      if i < n {
        assert IsFiled(before, recordIds(i), left(i));
      }
    }
  }

  lemma {:induction false} RecordsAreOldOrLeft(records: Records, left: nat -> Option<RollbackRecord>, n: nat,
                                               recordIds: nat -> Uuid)
    requires FilesUnder(left, recordIds, records)
    ensures OldOrLeft(FileAll(records, left, n), records, left, n, recordIds)
    ensures recordIds(n) !in FileAll(records, left, n)
  {
    if n > 0 {
      RecordsAreOldOrLeft(records, left, n - 1, recordIds);
      FilingKeeps(FileAll(records, left, n - 1), records, left, n - 1, recordIds);
    }
  }

  // ----- Counting an action's new records -----

  predicate IsGained(records: Records, after: Records, actionId: Uuid, r: Uuid) {
    r in after && r !in records && after[r].actionId == actionId
  }

  /** The records of an action that were not there before. */
  function Gained(records: Records, after: Records, actionId: Uuid): set<Uuid> {
    set r | r in after && IsGained(records, after, actionId, r)
  }

  function Leaves(left: Option<RollbackRecord>, actionId: Uuid): nat {
    if left.Some? && left.value.actionId == actionId then 1 else 0
  }

  /** How many of the first `n` positions leave a record of the action. */
  function LeftCount(left: nat -> Option<RollbackRecord>, n: nat, actionId: Uuid): nat {
    if n == 0 then 0 else LeftCount(left, n - 1, actionId) + Leaves(left(n - 1), actionId)
  }

  lemma GainedStep(records: Records, before: Records, left: Option<RollbackRecord>, recordId: Uuid, id: Uuid)
    requires recordId !in before && recordId !in records && (left.Some? ==> left.value.id == recordId)
    ensures |Gained(records, Filed(before, left), id)| == |Gained(records, before, id)| + Leaves(left, id)
  {
    var after := Filed(before, left);
    var was, now := Gained(records, before, id), Gained(records, after, id);
    forall r ensures r in now <==> r in was || (r == recordId && Leaves(left, id) == 1) {
      if r != recordId {
        assert r in after <==> r in before;
        assert IsGained(records, after, id, r) <==> IsGained(records, before, id, r);
      }
    }
    if Leaves(left, id) == 1 {
      assert now == was + {recordId};
    } else {
      assert now == was;
    }
  }

  lemma {:induction false} GainedAreLeft(records: Records, left: nat -> Option<RollbackRecord>, n: nat,
                                         recordIds: nat -> Uuid, id: Uuid)
    requires FilesUnder(left, recordIds, records)
    ensures |Gained(records, FileAll(records, left, n), id)| == LeftCount(left, n, id)
  {
    if n == 0 {
      assert Gained(records, records, id) == {};
    } else {
      GainedAreLeft(records, left, n - 1, recordIds, id);
      RecordsAreOldOrLeft(records, left, n - 1, recordIds);
      GainedStep(records, FileAll(records, left, n - 1), left(n - 1), recordIds(n - 1), id);
    }
  }

  // ----- The records of a pass -----

  /** The record position `i` leaves for the action it meets, if any. */
  type Leaving = (nat, Action) -> Option<RollbackRecord>

  /** What position `i` of a pass leaves: nothing for an action that is not the tenant's. */
  function LeftAt(store: Store, tenantId: Uuid, ids: seq<Uuid>, i: nat, step: (nat, Action) -> Action,
                  leaves: Leaving): Option<RollbackRecord>
    requires i < |ids|
  {
    var before := Sweep(store, tenantId, ids, i, step);
    if Owned(before, tenantId, ids[i]) then leaves(i, before[ids[i]]) else None
  }

  function Left(store: Store, tenantId: Uuid, ids: seq<Uuid>, step: (nat, Action) -> Action,
                leaves: Leaving): nat -> Option<RollbackRecord>
  {
    (i: nat) => if i < |ids| then LeftAt(store, tenantId, ids, i, step, leaves) else None
  }

  /** The records after the first `n` items. */
  function SweepRecords(records: Records, store: Store, tenantId: Uuid, ids: seq<Uuid>, n: nat,
                        step: (nat, Action) -> Action, leaves: Leaving): Records
    requires n <= |ids|
  {
    FileAll(records, Left(store, tenantId, ids, step, leaves), n)
  }

  lemma NextRecords(records: Records, store: Store, tenantId: Uuid, ids: seq<Uuid>, i: nat,
                    step: (nat, Action) -> Action, leaves: Leaving)
    requires i < |ids|
    ensures SweepRecords(records, store, tenantId, ids, i + 1, step, leaves) ==
      Filed(SweepRecords(records, store, tenantId, ids, i, step, leaves), LeftAt(store, tenantId, ids, i, step, leaves))
  {
  }

  /** Records are filed under the identifier drawn for their position. */
  ghost predicate Numbers(leaves: Leaving, recordIds: nat -> Uuid) {
    forall i: nat, a: Action :: leaves(i, a).Some? ==> leaves(i, a).value.id == recordIds(i)
  }

  ghost predicate FreeIds(recordIds: nat -> Uuid, records: Records) {
    Injective(recordIds) && forall i: nat :: recordIds(i) !in records
  }

  /** A step raises the attempts exactly when it leaves a record, which tells how it ended, and keeps the identity. */
  ghost predicate CountsAttempts(step: (nat, Action) -> Action, leaves: Leaving) {
    forall i: nat, a: Action :: CountsAttempt(a, step(i, a), leaves(i, a))
  }

  predicate CountsAttempt(a: Action, b: Action, left: Option<RollbackRecord>) {
    && SameIdentity(a, b)
    && b.attemptCount == a.attemptCount + (if left.Some? then 1 else 0)
    && (left.Some? ==> Tells(left.value, a, b))
  }

  /** The record of an execution of `a` that left `b`: whose it is, how it ended, and with which code. */
  predicate Tells(r: RollbackRecord, a: Action, b: Action) {
    && r.actionId == a.id && r.tenantId == a.tenantId && r.sideEffectId == a.sideEffectId && r.intentId == a.intentId
    && b.payload.Some?
    && (if b.payload.value.success then b.status == Executed && r.kind == SuccessRecord && r.errorCode == None
        else
          && b.status == Failed && r.kind == FailureRecord && r.errorCode.Some?
          && (b.payload.value.errorCode.Some? ==> r.errorCode == b.payload.value.errorCode))
  }

  ghost predicate KeyedStore(store: Store) {
    forall id :: id in store ==> store[id].id == id
  }

  lemma {:induction false} SweepKeepsKeys(store: Store, tenantId: Uuid, ids: seq<Uuid>, n: nat,
                                          step: (nat, Action) -> Action, leaves: Leaving)
    requires n <= |ids| && KeyedStore(store) && CountsAttempts(step, leaves)
    ensures KeyedStore(Sweep(store, tenantId, ids, n, step))
  {
    if n > 0 {
      SweepKeepsKeys(store, tenantId, ids, n - 1, step, leaves);
    }
  }

  lemma {:induction false} LeftCountsAttempts(store: Store, tenantId: Uuid, ids: seq<Uuid>, n: nat,
                                              step: (nat, Action) -> Action, leaves: Leaving, id: Uuid)
    requires n <= |ids| && CountsAttempts(step, leaves) && KeyedStore(store) && id in store
    ensures var swept := Sweep(store, tenantId, ids, n, step);
      id in swept
      && LeftCount(Left(store, tenantId, ids, step, leaves), n, id) == swept[id].attemptCount - store[id].attemptCount
  {
    if n > 0 {
      LeftCountsAttempts(store, tenantId, ids, n - 1, step, leaves, id);
      SweepKeepsKeys(store, tenantId, ids, n - 1, step, leaves);
    }
  }

  lemma PassFilesUnder(records: Records, store: Store, tenantId: Uuid, ids: seq<Uuid>, step: (nat, Action) -> Action,
                       leaves: Leaving, recordIds: nat -> Uuid)
    requires FreeIds(recordIds, records) && Numbers(leaves, recordIds)
    ensures FilesUnder(Left(store, tenantId, ids, step, leaves), recordIds, records)
  {
  }

  /** Each action gains as many records as attempts, whatever the list, and old records stay as they are. */
  lemma GainedMatchAttempts(records: Records, store: Store, tenantId: Uuid, ids: seq<Uuid>,
                            step: (nat, Action) -> Action, leaves: Leaving, recordIds: nat -> Uuid, id: Uuid)
    requires FreeIds(recordIds, records) && Numbers(leaves, recordIds) && CountsAttempts(step, leaves)
    requires KeyedStore(store) && id in store
    ensures var swept := Sweep(store, tenantId, ids, |ids|, step);
      var after := SweepRecords(records, store, tenantId, ids, |ids|, step, leaves);
      && id in swept && |Gained(records, after, id)| == swept[id].attemptCount - store[id].attemptCount
      && (forall r :: r in records ==> r in after && after[r] == records[r])
  {
    var left := Left(store, tenantId, ids, step, leaves);
    PassFilesUnder(records, store, tenantId, ids, step, leaves, recordIds);
    GainedAreLeft(records, left, |ids|, recordIds, id);
    RecordsAreOldOrLeft(records, left, |ids|, recordIds);
    LeftCountsAttempts(store, tenantId, ids, |ids|, step, leaves, id);
  }

  /** Each new record tells an execution the pass made, of an action of the tenant. */
  lemma GainedTell(records: Records, store: Store, tenantId: Uuid, ids: seq<Uuid>, step: (nat, Action) -> Action,
                   leaves: Leaving, recordIds: nat -> Uuid, r: Uuid) returns (i: nat)
    requires FreeIds(recordIds, records) && Numbers(leaves, recordIds) && CountsAttempts(step, leaves)
    requires var after := SweepRecords(records, store, tenantId, ids, |ids|, step, leaves); r in after && r !in records
    ensures i < |ids| && r == recordIds(i)
    ensures var record := SweepRecords(records, store, tenantId, ids, |ids|, step, leaves)[r];
      var before := Sweep(store, tenantId, ids, i, step);
      && Owned(before, tenantId, ids[i])
      && Tells(record, before[ids[i]], Sweep(store, tenantId, ids, i + 1, step)[ids[i]])
  {
    var left := Left(store, tenantId, ids, step, leaves);
    PassFilesUnder(records, store, tenantId, ids, step, leaves, recordIds);
    RecordsAreOldOrLeft(records, left, |ids|, recordIds);
    assert IsAmong(r, recordIds, |ids|);
    i :| i < |ids| && recordIds(i) == r;
    assert IsFiled(FileAll(records, left, |ids|), recordIds(i), left(i));
  }

  lemma {:induction false} NothingLeft(records: Records, store: Store, tenantId: Uuid, ids: seq<Uuid>, n: nat,
                                       step: (nat, Action) -> Action, leaves: Leaving)
    requires n <= |ids| && forall i: nat, a: Action :: leaves(i, a) == None
    ensures SweepRecords(records, store, tenantId, ids, n, step, leaves) == records
  {
    if n > 0 {
      NothingLeft(records, store, tenantId, ids, n - 1, step, leaves);
    }
  }
}
