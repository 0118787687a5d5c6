/** The side-effect ledger: its specification as a growing history, and the indexed repository that refines it. */
module SideEffectLedger {
  import opened Base
  import opened SideEffects
  import opened Sorting
  import opened Indexes

  // ----- Specification: the effects in the order they were stored -----

  predicate HasKey(e: SideEffect, tenantId: Uuid, key: string) {
    e.tenantId == tenantId && e.idempotencyKey == Some(key)
  }

  /** What a scan of the ledger for an idempotency key finds first. */
  function FirstWithKey(history: seq<SideEffect>, tenantId: Uuid, key: string): Option<SideEffect> {
    if history == [] then None
    else
      var earlier := FirstWithKey(history[..|history| - 1], tenantId, key);
      if earlier.Some? then earlier
      else if HasKey(history[|history| - 1], tenantId, key) then Some(history[|history| - 1])
      else None
  }

  /** The effect an idempotent recording returns; an effect without a key is always stored. */
  function Existing(history: seq<SideEffect>, e: SideEffect): Option<SideEffect> {
    if e.idempotencyKey.Some? then FirstWithKey(history, e.tenantId, e.idempotencyKey.value) else None
  }

  function Answer(history: seq<SideEffect>, e: SideEffect): SideEffect {
    if Existing(history, e).Some? then Existing(history, e).value else e
  }

  function Extended(history: seq<SideEffect>, e: SideEffect): seq<SideEffect> {
    if Existing(history, e).Some? then history else history + [e]
  }

  /** The ledger after the first `n` of a sequence of service calls, each given by the effect it builds. */
  function LedgerAfter(calls: seq<SideEffect>, n: nat): seq<SideEffect>
    requires n <= |calls|
  {
    if n == 0 then [] else Extended(LedgerAfter(calls, n - 1), calls[n - 1])
  }

  predicate UniqueKeys(history: seq<SideEffect>) {
    forall i, j :: 0 <= i < j < |history| && history[i].idempotencyKey.Some? ==>
      !HasKey(history[j], history[i].tenantId, history[i].idempotencyKey.value)
  }

  lemma {:induction false} FirstWithKeyScans(history: seq<SideEffect>, tenantId: Uuid, key: string)
    ensures FirstWithKey(history, tenantId, key).Some? <==>
      exists i :: 0 <= i < |history| && HasKey(history[i], tenantId, key)
    ensures FirstWithKey(history, tenantId, key).Some? ==>
      FirstWithKey(history, tenantId, key).value in history
        && HasKey(FirstWithKey(history, tenantId, key).value, tenantId, key)
  {
    if history != [] {
      var init := history[..|history| - 1];
      FirstWithKeyScans(init, tenantId, key);
      if FirstWithKey(init, tenantId, key).Some? {
        var i :| 0 <= i < |init| && HasKey(init[i], tenantId, key);
        assert HasKey(history[i], tenantId, key);
      } else {
        assert forall i :: 0 <= i < |init| ==> history[i] == init[i];
      }
    }
  }

  lemma FirstWithKeyAppend(history: seq<SideEffect>, e: SideEffect, tenantId: Uuid, key: string)
    ensures FirstWithKey(history + [e], tenantId, key) ==
      if FirstWithKey(history, tenantId, key).Some? then FirstWithKey(history, tenantId, key)
      else if HasKey(e, tenantId, key) then Some(e) else None
  {
    assert (history + [e])[..|history|] == history;
  }

  lemma ExtendedKeepsUnique(history: seq<SideEffect>, e: SideEffect)
    requires UniqueKeys(history)
    ensures UniqueKeys(Extended(history, e))
  {
    if Existing(history, e).None? {
      forall i | 0 <= i < |history| && history[i].idempotencyKey.Some?
        ensures !HasKey(e, history[i].tenantId, history[i].idempotencyKey.value)
      {
        FirstWithKeyScans(history, history[i].tenantId, history[i].idempotencyKey.value);
        assert HasKey(history[i], history[i].tenantId, history[i].idempotencyKey.value);
      }
    }
  }

  lemma ExtendedKeepsFirst(history: seq<SideEffect>, e: SideEffect, tenantId: Uuid, key: string)
    ensures FirstWithKey(history, tenantId, key).Some? ==>
      FirstWithKey(Extended(history, e), tenantId, key) == FirstWithKey(history, tenantId, key)
    ensures HasKey(e, tenantId, key) ==> FirstWithKey(Extended(history, e), tenantId, key) == Some(Answer(history, e))
  {
    FirstWithKeyAppend(history, e, tenantId, key);
  }

  lemma {:induction false} FirstStays(calls: seq<SideEffect>, i: nat, j: nat, tenantId: Uuid, key: string,
                                      first: SideEffect)
    requires i <= j <= |calls| && FirstWithKey(LedgerAfter(calls, i), tenantId, key) == Some(first)
    ensures FirstWithKey(LedgerAfter(calls, j), tenantId, key) == Some(first)
  {
    if i < j {
      var before := LedgerAfter(calls, j - 1);
      FirstStays(calls, i, j - 1, tenantId, key, first);
      ExtendedKeepsFirst(before, calls[j - 1], tenantId, key);
      assert LedgerAfter(calls, j) == Extended(before, calls[j - 1]);
    }
  }

  /** Over any sequence of calls, at most one effect exists per tenant and key. */
  lemma {:induction false} LedgerKeysStayUnique(calls: seq<SideEffect>, n: nat)
    requires n <= |calls|
    ensures UniqueKeys(LedgerAfter(calls, n))
  {
    if n > 0 {
      LedgerKeysStayUnique(calls, n - 1);
      ExtendedKeepsUnique(LedgerAfter(calls, n - 1), calls[n - 1]);
    }
  }

  /**
   Idempotence over any sequence of calls: every later call with the same tenant and key, whatever
   its payload and whatever came between, returns what the first one returned and stores nothing.
   */
  lemma RepeatedKeyReturnsFirst(calls: seq<SideEffect>, i: nat, j: nat)
    requires i < j < |calls|
    requires calls[i].idempotencyKey.Some? && HasKey(calls[j], calls[i].tenantId, calls[i].idempotencyKey.value)
    ensures Answer(LedgerAfter(calls, j), calls[j]) == Answer(LedgerAfter(calls, i), calls[i])
    ensures LedgerAfter(calls, j + 1) == LedgerAfter(calls, j)
  {
    var tenantId, key := calls[i].tenantId, calls[i].idempotencyKey.value;
    ExtendedKeepsFirst(LedgerAfter(calls, i), calls[i], tenantId, key);
    FirstStays(calls, i + 1, j, tenantId, key, Answer(LedgerAfter(calls, i), calls[i]));
  }

  // ----- The repository -----

  function OfIntent(i: Uuid): SideEffect -> bool { (e: SideEffect) => e.intentId == i }
  function OfTenant(t: Uuid): SideEffect -> bool { (e: SideEffect) => e.tenantId == t }
  function OccurredAt(e: SideEffect): Timestamp { e.occurredAt }

  function Table(history: seq<SideEffect>): Ledger {
    if history == [] then map[]
    else Table(history[..|history| - 1])[history[|history| - 1].id := history[|history| - 1]]
  }

  function Ids(history: seq<SideEffect>): seq<Uuid> {
    if history == [] then [] else Ids(history[..|history| - 1]) + [history[|history| - 1].id]
  }

  predicate FreshIds(history: seq<SideEffect>) {
    forall i, j :: 0 <= i < j < |history| ==> history[i].id != history[j].id
  }

  lemma {:induction false} TableMembers(history: seq<SideEffect>)
    requires FreshIds(history)
    ensures forall i :: 0 <= i < |history| ==>
      history[i].id in Table(history) && Table(history)[history[i].id] == history[i]
    ensures forall id :: id in Table(history) ==> Table(history)[id] in history && Table(history)[id].id == id
  {
    if history != [] {
      var init, z := history[..|history| - 1], history[|history| - 1];
      assert history == init + [z];
      TableMembers(init);
    }
  }

  /** Looking the filtered identifiers up again gives back the filtered effects, in order. */
  lemma {:induction false} ResolveIds(part: seq<SideEffect>, table: Ledger)
    requires forall i :: 0 <= i < |part| ==> part[i].id in table && table[part[i].id] == part[i]
    ensures Resolve(Ids(part), table) == part
  {
    if part != [] {
      var init := part[..|part| - 1];
      assert part == init + [part[|part| - 1]];
      ResolveIds(init, table);
      assert Ids(part)[..|Ids(part)| - 1] == Ids(init);
    }
  }

  ghost predicate IndexedBy(byIntent: Index<Uuid>, history: seq<SideEffect>) {
    forall k :: IndexedAt(byIntent, history, k)
  }

  ghost predicate IndexedAt(byIntent: Index<Uuid>, history: seq<SideEffect>, k: Uuid) {
    Lookup(byIntent, k) == Ids(Filter(history, OfIntent(k)))
  }

  ghost predicate KeysIndexed(byKey: map<(Uuid, string), Uuid>, history: seq<SideEffect>) {
    forall t: Uuid, k: string ::
      && ((t, k) in byKey <==> FirstWithKey(history, t, k).Some?)
      && ((t, k) in byKey ==> byKey[(t, k)] == FirstWithKey(history, t, k).value.id)
  }

  lemma IdsAppend(part: seq<SideEffect>, e: SideEffect)
    ensures Ids(part + [e]) == Ids(part) + [e.id]
  {
    assert (part + [e])[..|part|] == part;
  }

  lemma AppendKeepsIntentIndex(byIntent: Index<Uuid>, history: seq<SideEffect>, e: SideEffect, k: Uuid)
    requires IndexedAt(byIntent, history, k)
    ensures IndexedAt(Push(byIntent, e.intentId, e.id), history + [e], k)
  {
    var part := Filter(history, OfIntent(k));
    FilterAppend(history, OfIntent(k), e);
    if e.intentId == k {
      IdsAppend(part, e);
      assert Filter(history + [e], OfIntent(k)) == part + [e];
    } else {
      assert Filter(history + [e], OfIntent(k)) == part;
    }
  }

  lemma AppendKeepsKeyIndex(byKey: map<(Uuid, string), Uuid>, history: seq<SideEffect>, e: SideEffect)
    requires KeysIndexed(byKey, history) && Existing(history, e).None?
    ensures KeysIndexed(KeyAdded(byKey, e), history + [e])
  {
    forall t: Uuid, k: string
      ensures (t, k) in KeyAdded(byKey, e) <==> FirstWithKey(history + [e], t, k).Some?
      ensures (t, k) in KeyAdded(byKey, e) ==> KeyAdded(byKey, e)[(t, k)] == FirstWithKey(history + [e], t, k).value.id
    {
      FirstWithKeyAppend(history, e, t, k);
    }
  }

  lemma AppendKeepsTable(history: seq<SideEffect>, e: SideEffect)
    requires FreshIds(history)
    ensures Table(history + [e]) == Table(history)[e.id := e]
    ensures FreshIds(history + [e]) <==> e.id !in Table(history)
  {
    assert (history + [e])[..|history|] == history;
    TableMembers(history);
    if e.id in Table(history) {
      var i :| 0 <= i < |history| && history[i] == Table(history)[e.id];
      assert (history + [e])[i].id == (history + [e])[|history|].id;
    }
  }

  /** The three maps say the same as the history, which holds no id and no key twice. */
  ghost predicate Refines(effects: Ledger, byIntent: Index<Uuid>, byKey: map<(Uuid, string), Uuid>,
                          history: seq<SideEffect>)
  {
    && FreshIds(history) && UniqueKeys(history)
    && effects == Table(history)
    && IndexedBy(byIntent, history)
    && KeysIndexed(byKey, history)
  }

  function KeyAdded(byKey: map<(Uuid, string), Uuid>, e: SideEffect): map<(Uuid, string), Uuid> {
    if e.idempotencyKey.Some? then byKey[(e.tenantId, e.idempotencyKey.value) := e.id] else byKey
  }

  /** Storing an effect keeps the maps in step exactly when its id is new and its key is not taken. */
  lemma AppendRefinesIffNew(effects: Ledger, byIntent: Index<Uuid>, byKey: map<(Uuid, string), Uuid>,
                            history: seq<SideEffect>, e: SideEffect)
    requires Refines(effects, byIntent, byKey, history)
    ensures Refines(effects[e.id := e], Push(byIntent, e.intentId, e.id), KeyAdded(byKey, e), history + [e])
            <==> e.id !in effects && Existing(history, e).None?
  {
    AppendKeepsTable(history, e);
    forall k | IndexedAt(byIntent, history, k) { AppendKeepsIntentIndex(byIntent, history, e, k); }
    if Existing(history, e).None? {
      AppendKeepsKeyIndex(byKey, history, e);
      ExtendedKeepsUnique(history, e);
    } else {
      FirstWithKeyScans(history, e.tenantId, e.idempotencyKey.value);
      var i :| 0 <= i < |history| && HasKey(history[i], e.tenantId, e.idempotencyKey.value);
      assert (history + [e])[i] == history[i] && (history + [e])[|history|] == e;
      assert !UniqueKeys(history + [e]);
    }
  }

  class SideEffectRepository {
    var effects: Ledger
    var byIntent: Index<Uuid>
    var byIdempotencyKey: map<(Uuid, string), Uuid>
    ghost var history: seq<SideEffect>

    ghost predicate Valid()
      reads this
    {
      Refines(effects, byIntent, byIdempotencyKey, history)
    }

    constructor ()
      ensures Valid() && history == []
    {
      effects, byIntent, byIdempotencyKey, history := map[], map[], map[], [];
    }

    /** Stores an effect unconditionally; the indexes survive exactly when its id is new and its key is not taken. */
    method Create(e: SideEffect) returns (r: Result<SideEffect>)
      requires Valid()
      modifies this
      ensures r == Ok(e) && history == old(history) + [e] && effects == old(effects)[e.id := e]
      ensures Valid() <==> e.id !in old(effects) && Existing(old(history), e).None?
    {
      AppendRefinesIffNew(effects, byIntent, byIdempotencyKey, history, e);
      effects := effects[e.id := e];
      byIntent := Push(byIntent, e.intentId, e.id);
      if e.idempotencyKey.Some? {
        byIdempotencyKey := byIdempotencyKey[(e.tenantId, e.idempotencyKey.value) := e.id];
      }
      history := history + [e];
      r := Ok(e);
    }

    /** The atomic get-or-create, in one critical section. */
    method GetOrCreateIdempotent(e: SideEffect) returns (r: Result<SideEffect>)
      requires Valid()
      modifies this
      ensures r == Ok(Answer(old(history), e))
      ensures history == Extended(old(history), e)
      ensures Valid() <==> Existing(old(history), e).Some? || e.id !in old(effects)
    {
      if e.idempotencyKey.Some? {
        var k := (e.tenantId, e.idempotencyKey.value);
        if k in byIdempotencyKey {
          var existingId := byIdempotencyKey[k];
          TableMembers(history);
          FirstWithKeyScans(history, e.tenantId, e.idempotencyKey.value);
          if existingId in effects {
            return Ok(effects[existingId]);
          }
        }
      }
      r := Create(e);
    }

    method Get(id: Uuid) returns (r: Result<SideEffect>)
      ensures r == if id in effects then Ok(effects[id]) else Err(Internal)
    {
      r := if id in effects then Ok(effects[id]) else Err(Internal);
    }

    /** Exactly the tenant's effects of the intent, newest first, equal instants in the order they were stored. */
    method ListByIntent(intentId: Uuid, tenantId: Uuid) returns (rows: seq<SideEffect>)
      requires Valid()
      ensures rows == NewestFirst(Filter(Filter(history, OfIntent(intentId)), OfTenant(tenantId)), OccurredAt)
      ensures NewestOrdered(rows, OccurredAt)
      ensures multiset(rows) == multiset(Filter(Filter(history, OfIntent(intentId)), OfTenant(tenantId)))
    {
      var found := Resolve(Lookup(byIntent, intentId), effects);
      ghost var part := Filter(history, OfIntent(intentId));
      assert IndexedAt(byIntent, history, intentId);
      TableMembers(history);
      forall i | 0 <= i < |part| ensures part[i].id in effects && effects[part[i].id] == part[i] {
        FilterMember(history, OfIntent(intentId), part[i]);
      }
      ResolveIds(part, effects);
      NewestFirstSorts(Filter(found, OfTenant(tenantId)), OccurredAt);
      rows := NewestFirst(Filter(found, OfTenant(tenantId)), OccurredAt);
    }

    /** The key index agrees with a scan of the ledger. */
    method FindByIdempotencyKey(key: string, tenantId: Uuid) returns (r: Option<SideEffect>)
      requires Valid()
      ensures r == FirstWithKey(history, tenantId, key)
    {
      if (tenantId, key) in byIdempotencyKey {
        var id := byIdempotencyKey[(tenantId, key)];
        TableMembers(history);
        FirstWithKeyScans(history, tenantId, key);
        r := if id in effects then Some(effects[id]) else None;
      } else {
        r := None;
      }
    }
  }

  class SideEffectService {
    const repo: SideEffectRepository

    constructor (repo: SideEffectRepository)
      ensures this.repo == repo
    {
      this.repo := repo;
    }

    method RecordSideEffect(id: Uuid, tenantId: Uuid, intentId: Uuid, intentVersion: int, effectClass: EffectClass,
                            effectType: string, target: string, now: Timestamp) returns (r: Result<SideEffect>)
      requires repo.Valid() && id !in repo.effects
      modifies repo
      ensures repo.Valid()
      ensures var e := SideEffect(id, tenantId, intentId, intentVersion, effectClass, effectType, target, now, None);
        r == Ok(Answer(old(repo.history), e)) && repo.history == Extended(old(repo.history), e)
    {
      r := repo.Create(SideEffect(id, tenantId, intentId, intentVersion, effectClass, effectType, target, now, None));
    }

    method RecordSideEffectWithIdempotency(id: Uuid, tenantId: Uuid, intentId: Uuid, intentVersion: int,
                                           effectClass: EffectClass, effectType: string, target: string, key: string,
                                           now: Timestamp) returns (r: Result<SideEffect>)
      requires repo.Valid() && id !in repo.effects
      modifies repo
      ensures repo.Valid()
      ensures var e := SideEffect(id, tenantId, intentId, intentVersion, effectClass, effectType, target, now,
                                  Some(key));
        r == Ok(Answer(old(repo.history), e)) && repo.history == Extended(old(repo.history), e)
    {
      r := repo.GetOrCreateIdempotent(
        SideEffect(id, tenantId, intentId, intentVersion, effectClass, effectType, target, now, Some(key)));
    }
  }
}
