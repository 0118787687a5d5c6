/**
 One pass over an identifier list, applying a step to each listed action of a tenant. Batch
 commands and orchestration runs are both such passes; `f(i, a)` is what position `i` makes of `a`.
 */
module Sweeps {
  import opened Base
  import opened Actions
  import opened ActionStore

  /** A found action that belongs to the tenant; anything else is reported as not found. */
  predicate Owned(store: Store, tenantId: Uuid, id: Uuid) {
    id in store && store[id].tenantId == tenantId
  }

  /** The store after the first `n` items. */
  function Sweep(store: Store, tenantId: Uuid, ids: seq<Uuid>, n: nat, f: (nat, Action) -> Action): Store
    requires n <= |ids|
  {
    if n == 0 then store
    else
      var before, id := Sweep(store, tenantId, ids, n - 1, f), ids[n - 1];
      if Owned(before, tenantId, id) then before[id := f(n - 1, before[id])] else before
  }

  /** What the first `n` items make of the single action `id`. */
  function Trail(a: Action, ids: seq<Uuid>, n: nat, id: Uuid, f: (nat, Action) -> Action): Action
    requires n <= |ids|
  {
    if n == 0 then a
    else
      var b := Trail(a, ids, n - 1, id, f);
      if ids[n - 1] == id then f(n - 1, b) else b
  }

  ghost predicate KeepsTenant(f: (nat, Action) -> Action) {
    forall i: nat, a: Action :: f(i, a).tenantId == a.tenantId
  }

  /**
   The frame of a pass and the independence of its items: no action appears or disappears, other
   tenants' actions are untouched, and each owned action takes exactly one step per listing, whatever
   happens to the others.
   */
  lemma {:induction false} SweepIsTrail(store: Store, tenantId: Uuid, ids: seq<Uuid>, n: nat,
                                        f: (nat, Action) -> Action, id: Uuid)
    requires n <= |ids| && KeepsTenant(f)
    ensures id in Sweep(store, tenantId, ids, n, f) <==> id in store
    ensures Owned(Sweep(store, tenantId, ids, n, f), tenantId, id) <==> Owned(store, tenantId, id)
    ensures id in store ==>
      Sweep(store, tenantId, ids, n, f)[id] ==
      if store[id].tenantId == tenantId then Trail(store[id], ids, n, id, f) else store[id]
  {
    if n > 0 {
      SweepIsTrail(store, tenantId, ids, n - 1, f, id);
    }
  }

  lemma {:induction false} TrailUnlisted(a: Action, ids: seq<Uuid>, n: nat, id: Uuid, f: (nat, Action) -> Action)
    requires n <= |ids| && forall i :: 0 <= i < n ==> ids[i] != id
    ensures Trail(a, ids, n, id, f) == a
  {
    if n > 0 {
      TrailUnlisted(a, ids, n - 1, id, f);
    }
  }

  /** Over a list without repeats each listed owned action takes one step, and every other action none. */
  lemma {:induction false} DistinctSweep(store: Store, tenantId: Uuid, ids: seq<Uuid>, n: nat,
                                         f: (nat, Action) -> Action, id: Uuid)
    requires Distinct(ids) && n <= |ids| && id in store
    ensures id in Sweep(store, tenantId, ids, n, f)
    ensures forall p :: 0 <= p < n && ids[p] == id && store[id].tenantId == tenantId ==>
      Sweep(store, tenantId, ids, n, f)[id] == f(p, store[id])
    ensures id !in ids[..n] || store[id].tenantId != tenantId ==> Sweep(store, tenantId, ids, n, f)[id] == store[id]
  {
    if n > 0 {
      DistinctSweep(store, tenantId, ids, n - 1, f, id);
      assert ids[..n] == ids[..n - 1] + [ids[n - 1]];
    }
  }

  // ----- Passes that bring every action closer to rest -----

  /** `f` keeps `good` and lowers `rank`, until it is zero; then it leaves the action alone. */
  ghost predicate Descends(f: (nat, Action) -> Action, good: Action -> bool, rank: Action -> nat) {
    forall i: nat, a: Action :: good(a) ==>
      good(f(i, a)) && if rank(a) == 0 then f(i, a) == a else rank(f(i, a)) < rank(a)
  }

  lemma {:induction false} TrailDescends(a: Action, ids: seq<Uuid>, n: nat, id: Uuid, f: (nat, Action) -> Action,
                                         good: Action -> bool, rank: Action -> nat)
    requires n <= |ids| && good(a) && Descends(f, good, rank)
    ensures var b := Trail(a, ids, n, id, f);
      && good(b) && rank(b) <= rank(a)
      && (rank(a) > 0 && id in ids[..n] ==> rank(b) < rank(a))
  {
    if n > 0 {
      TrailDescends(a, ids, n - 1, id, f, good, rank);
      assert ids[..n] == ids[..n - 1] + [ids[n - 1]];
    }
  }

  // ----- Passes that act on an action at most once -----

  /** `f` changes only the actions that satisfy `hit`, and none of them satisfies it afterwards. */
  ghost predicate Consumes(f: (nat, Action) -> Action, hit: Action -> bool) {
    forall i: nat, a: Action :: if hit(a) then !hit(f(i, a)) else f(i, a) == a
  }

  predicate HitsAt(store: Store, tenantId: Uuid, ids: seq<Uuid>, i: nat, f: (nat, Action) -> Action,
                   hit: Action -> bool)
    requires i < |ids|
  {
    var before := Sweep(store, tenantId, ids, i, f);
    Owned(before, tenantId, ids[i]) && hit(before[ids[i]])
  }

  /** The positions among the first `n` at which the pass acts. */
  function HitCount(store: Store, tenantId: Uuid, ids: seq<Uuid>, n: nat, f: (nat, Action) -> Action,
                    hit: Action -> bool): nat
    requires n <= |ids|
  {
    if n == 0 then 0
    else HitCount(store, tenantId, ids, n - 1, f, hit) + (if HitsAt(store, tenantId, ids, n - 1, f, hit) then 1 else 0)
  }

  /** The distinct listed actions of the tenant that satisfy `hit` at the start. */
  function Targets(store: Store, tenantId: Uuid, ids: seq<Uuid>, hit: Action -> bool): set<Uuid> {
    set id | id in ids && Owned(store, tenantId, id) && hit(store[id])
  }

  lemma {:induction false} TrailHits(a: Action, ids: seq<Uuid>, n: nat, id: Uuid, f: (nat, Action) -> Action,
                                     hit: Action -> bool)
    requires n <= |ids| && Consumes(f, hit)
    ensures hit(Trail(a, ids, n, id, f)) <==> hit(a) && id !in ids[..n]
    ensures !hit(a) ==> Trail(a, ids, n, id, f) == a
  {
    if n > 0 {
      TrailHits(a, ids, n - 1, id, f, hit);
      assert ids[..n] == ids[..n - 1] + [ids[n - 1]];
    }
  }

  /** The first listing makes the one step there is; later listings make none. */
  lemma {:induction false} TrailActsOnce(a: Action, ids: seq<Uuid>, n: nat, id: Uuid, f: (nat, Action) -> Action,
                                         hit: Action -> bool, i: nat)
    requires i < n <= |ids| && Consumes(f, hit) && hit(a)
    requires ids[i] == id && forall k :: 0 <= k < i ==> ids[k] != id
    ensures Trail(a, ids, n, id, f) == f(i, a)
  {
    if n == i + 1 {
      TrailUnlisted(a, ids, i, id, f);
    } else {
      TrailActsOnce(a, ids, n - 1, id, f, hit, i);
    }
  }

  /** However often an identifier is repeated, the pass acts once on each target and on nothing else. */
  lemma {:induction false} HitsAreTargets(store: Store, tenantId: Uuid, ids: seq<Uuid>, n: nat,
                                          f: (nat, Action) -> Action, hit: Action -> bool)
    requires n <= |ids| && KeepsTenant(f) && Consumes(f, hit)
    ensures HitCount(store, tenantId, ids, n, f, hit) == |Targets(store, tenantId, ids[..n], hit)|
  {
    if n == 0 {
      assert Targets(store, tenantId, ids[..n], hit) == {};
    } else {
      var id := ids[n - 1];
      HitsAreTargets(store, tenantId, ids, n - 1, f, hit);
      assert ids[..n] == ids[..n - 1] + [id];
      SweepIsTrail(store, tenantId, ids, n - 1, f, id);
      var before, after := Targets(store, tenantId, ids[..n - 1], hit), Targets(store, tenantId, ids[..n], hit);
      if id in store {
        TrailHits(store[id], ids, n - 1, id, f, hit);
      }
      assert after == before + (if HitsAt(store, tenantId, ids, n - 1, f, hit) then {id} else {});
    }
  }
}
