/** Hand-maintained secondary indexes over a primary table, and when they are exact. */
module Indexes {
  import opened Base
  import opened Sorting

  type Index<!K> = map<K, seq<Uuid>>

  function Lookup<K>(index: Index<K>, k: K): seq<Uuid> {
    if k in index then index[k] else []
  }

  function Push<K>(index: Index<K>, k: K, id: Uuid): Index<K> {
    index[k := Lookup(index, k) + [id]]
  }

  function OtherThan(id: Uuid): Uuid -> bool {
    (x: Uuid) => x != id
  }

  function Retain<K>(index: Index<K>, k: K, id: Uuid): Index<K> {
    if k in index then index[k := Filter(index[k], OtherThan(id))] else index
  }

  /** Under each key the index lists every matching row exactly once and nothing else. */
  ghost predicate ExactAt<K, V>(index: Index<K>, table: map<Uuid, V>, key: V -> K, k: K) {
    && Distinct(Lookup(index, k))
    && forall id :: id in Lookup(index, k) <==> id in table && key(table[id]) == k
  }

  ghost predicate Exact<K(!new), V>(index: Index<K>, table: map<Uuid, V>, key: V -> K) {
    forall k :: ExactAt(index, table, key, k)
  }

  /** Inserting a row keeps an index exact if and only if the row's identifier is new. */
  lemma PushExactIffNew<K(!new), V>(index: Index<K>, table: map<Uuid, V>, key: V -> K, id: Uuid, v: V)
    requires Exact(index, table, key)
    ensures Exact(Push(index, key(v), id), table[id := v], key) <==> id !in table
  {
    var index', table' := Push(index, key(v), id), table[id := v];
    if id !in table {
      forall k ensures ExactAt(index', table', key, k) {
        assert ExactAt(index, table, key, k);
        assert forall x :: x in Lookup(index', k) <==> x in Lookup(index, k) || (k == key(v) && x == id);
      }
    } else {
      var k0 := key(table[id]);
      assert ExactAt(index, table, key, k0);
      if k0 == key(v) {
        var l := Lookup(index, k0);
        var i :| 0 <= i < |l| && l[i] == id;
        assert Lookup(index', k0)[i] == Lookup(index', k0)[|l|];
        assert !ExactAt(index', table', key, k0);
      } else {
        assert id in Lookup(index', k0);
        assert !ExactAt(index', table', key, k0);
      }
    }
  }

  /** Rewriting a row and moving it from its old key's list to its new one's keeps the index exact. */
  lemma MoveKeepsExact<K(!new), V>(index: Index<K>, table: map<Uuid, V>, key: V -> K, id: Uuid, v: V)
    requires Exact(index, table, key) && id in table
    ensures Exact(Push(Retain(index, key(table[id]), id), key(v), id), table[id := v], key)
  {
    var k0 := key(table[id]);
    var kept := Retain(index, k0, id);
    var index', table' := Push(kept, key(v), id), table[id := v];
    forall k ensures ExactAt(index', table', key, k) {
      assert ExactAt(index, table, key, k);
      FilterDistinct(Lookup(index, k), OtherThan(id));
      forall x ensures x in Lookup(kept, k) <==> x in Lookup(index, k) && x != id {
        FilterMember(Lookup(index, k), OtherThan(id), x);
      }
      assert forall x :: x in Lookup(index', k) <==> x in Lookup(kept, k) || (k == key(v) && x == id);
    }
  }

  /** A rewrite that does not change a row's key needs no index maintenance. */
  lemma SameKeyKeepsExact<K(!new), V>(index: Index<K>, table: map<Uuid, V>, key: V -> K, id: Uuid, v: V)
    requires Exact(index, table, key) && id in table && key(v) == key(table[id])
    ensures Exact(index, table[id := v], key)
  {
    var table' := table[id := v];
    forall k ensures ExactAt(index, table', key, k) {
      assert ExactAt(index, table, key, k);
    }
  }

  // ----- Queries -----

  /** The rows an identifier list stands for, skipping identifiers the table does not hold. */
  function Resolve<V>(ids: seq<Uuid>, table: map<Uuid, V>): seq<V> {
    if ids == [] then []
    else
      var id := ids[|ids| - 1];
      Resolve(ids[..|ids| - 1], table) + (if id in table then [table[id]] else [])
  }

  ghost predicate KeyedBy<V>(table: map<Uuid, V>, idOf: V -> Uuid) {
    forall id :: id in table ==> idOf(table[id]) == id
  }

  /** `rows` is what scanning the whole table for `p` finds: each match once, nothing else. */
  ghost predicate IsScan<V(!new)>(rows: seq<V>, table: map<Uuid, V>, idOf: V -> Uuid, p: V -> bool) {
    && Distinct(rows)
    && forall v :: v in rows <==> idOf(v) in table && table[idOf(v)] == v && p(v)
  }

  lemma {:induction false} ResolveMembers<V>(ids: seq<Uuid>, table: map<Uuid, V>, idOf: V -> Uuid)
    requires KeyedBy(table, idOf) && Distinct(ids)
    ensures forall v :: v in Resolve(ids, table) <==> idOf(v) in ids && idOf(v) in table && table[idOf(v)] == v
    ensures Distinct(Resolve(ids, table))
  {
    if ids != [] {
      assert ids == ids[..|ids| - 1] + [ids[|ids| - 1]];
      ResolveMembers(ids[..|ids| - 1], table, idOf);
    }
  }

  lemma LookupIsScan<K(!new), V(!new)>(index: Index<K>, table: map<Uuid, V>, key: V -> K, k: K, idOf: V -> Uuid,
                                       p: V -> bool)
    requires Exact(index, table, key) && KeyedBy(table, idOf)
    requires forall v :: p(v) <==> key(v) == k
    ensures IsScan(Resolve(Lookup(index, k), table), table, idOf, p)
  {
    assert ExactAt(index, table, key, k);
    ResolveMembers(Lookup(index, k), table, idOf);
  }

  lemma FilterKeepsScan<V(!new)>(rows: seq<V>, table: map<Uuid, V>, idOf: V -> Uuid, p: V -> bool, q: V -> bool,
                                 both: V -> bool)
    requires IsScan(rows, table, idOf, p)
    requires forall v :: both(v) <==> p(v) && q(v)
    ensures IsScan(Filter(rows, q), table, idOf, both)
  {
    FilterDistinct(rows, q);
    forall v ensures v in Filter(rows, q) <==> v in rows && q(v) {
      FilterMember(rows, q, v);
    }
  }

  lemma SortKeepsScan<V(!new)>(rows: seq<V>, table: map<Uuid, V>, idOf: V -> Uuid, p: V -> bool, at: V -> Timestamp)
    requires IsScan(rows, table, idOf, p)
    ensures IsScan(NewestFirst(rows, at), table, idOf, p)
    ensures NewestOrdered(NewestFirst(rows, at), at)
  {
    NewestFirstSorts(rows, at);
    PermutationKeepsSet(rows, NewestFirst(rows, at));
  }

  lemma {:induction false} DistinctSize<T>(s: seq<T>)
    requires Distinct(s)
    ensures |set x | x in s| == |s|
  {
    if s != [] {
      var init, z := s[..|s| - 1], s[|s| - 1];
      DistinctSize(init);
      assert s == init + [z];
      assert (set x | x in s) == (set x | x in init) + {z};
    }
  }

  /** A scan has as many rows as the table has matches. */
  lemma ScanSize<V(!new)>(rows: seq<V>, table: map<Uuid, V>, idOf: V -> Uuid, p: V -> bool, matching: set<Uuid>)
    requires KeyedBy(table, idOf) && IsScan(rows, table, idOf, p)
    requires forall id :: id in matching <==> id in table && p(table[id])
    ensures |rows| == |matching|
  {
    var ids := seq(|rows|, i requires 0 <= i < |rows| => idOf(rows[i]));
    assert forall i :: 0 <= i < |rows| ==> rows[i] in rows && table[ids[i]] == rows[i];
    DistinctSize(ids);
    forall id ensures id in ids <==> id in table && p(table[id]) {
      if id in table && p(table[id]) {
        assert table[id] in rows;
        var i :| 0 <= i < |rows| && rows[i] == table[id];
        assert ids[i] == id;
      }
    }
    assert (set x | x in ids) == matching;
  }
}
