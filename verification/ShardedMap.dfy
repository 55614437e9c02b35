/** The sharded concurrent map and the actor registry on top of it. Each operation runs under one
    shard's lock and is one atomic step; a traversal locks one shard at a time. */
module ShardedMap {
  import opened Options

  const SHARD_COUNT := 32

  // ------------------------------------------------------------------ shards as one map

  /** Every key sits in the shard that its hash selects. */
  predicate Placed<K(!new), V>(shards: seq<map<K, V>>, shardOf: K -> nat) {
    forall i, k :: 0 <= i < |shards| && k in shards[i] ==> shardOf(k) == i
  }

  /** The map that the shards represent together. */
  function Union<K, V>(shards: seq<map<K, V>>): map<K, V> {
    if shards == [] then map[] else Union(shards[..|shards| - 1]) + shards[|shards| - 1]
  }

  lemma {:induction false} UnionAt<K(!new), V>(shards: seq<map<K, V>>, shardOf: K -> nat, k: K)
    requires Placed(shards, shardOf)
    ensures k in Union(shards) <==> shardOf(k) < |shards| && k in shards[shardOf(k)]
    ensures k in Union(shards) ==> Union(shards)[k] == shards[shardOf(k)][k]
  {
    if shards != [] {
      var rest := shards[..|shards| - 1];
      assert forall i :: 0 <= i < |rest| ==> rest[i] == shards[i];
      UnionAt(rest, shardOf, k);
    }
  }

  /** Replacing the shard of k changes the whole at k alone. */
  lemma UnionUpdate<K(!new), V>(shards: seq<map<K, V>>, shardOf: K -> nat, k: K, m: map<K, V>)
    requires Placed(shards, shardOf) && shardOf(k) < |shards|
    requires m - {k} == shards[shardOf(k)] - {k}
    ensures Placed(shards[shardOf(k) := m], shardOf)
    ensures Union(shards[shardOf(k) := m]) == if k in m then Union(shards)[k := m[k]] else Union(shards) - {k}
  {
    var i := shardOf(k);
    var after := shards[i := m];
    forall j, x | 0 <= j < |after| && x in after[j] ensures shardOf(x) == j {
      if j == i && x != k { assert x in m - {k}; }
    }
    var whole, want := Union(after), if k in m then Union(shards)[k := m[k]] else Union(shards) - {k};
    forall x ensures (x in whole <==> x in want) && (x in whole ==> whole[x] == want[x]) {
      UnionAt(after, shardOf, x);
      UnionAt(shards, shardOf, x);
      if x != k && shardOf(x) == i { assert (x in m - {k}) == (x in m) && (x in shards[i] - {k}) == (x in shards[i]); }
      if x != k && shardOf(x) == i && x in m { assert (m - {k})[x] == m[x] && (shards[i] - {k})[x] == shards[i][x]; }
    }
  }

  lemma UnionPrefixDisjoint<K(!new), V>(shards: seq<map<K, V>>, shardOf: K -> nat, n: nat)
    requires Placed(shards, shardOf) && n < |shards|
    ensures Placed(shards[..n], shardOf) && Union(shards[..n]).Keys !! shards[n].Keys
    ensures Union(shards[..n + 1]) == Union(shards[..n]) + shards[n]
  {
    forall k ensures !(k in Union(shards[..n]) && k in shards[n]) { UnionAt(shards[..n], shardOf, k); }
    assert shards[..n + 1][..n] == shards[..n];
  }

  lemma DisjointSum<K, V>(a: map<K, V>, b: map<K, V>)
    requires a.Keys !! b.Keys
    ensures |a + b| == |a| + |b|
  {
    assert (a + b).Keys == a.Keys + b.Keys;
    assert |(a + b).Keys| == |a + b| && |a.Keys| == |a| && |b.Keys| == |b|;
  }

  /** A traversal's record: every entry of m once, and nothing else. */
  ghost predicate ListsOnce<K, V>(entries: seq<(K, V)>, m: map<K, V>) {
    && (forall i :: 0 <= i < |entries| ==> entries[i].0 in m && m[entries[i].0] == entries[i].1)
    && (forall i, j :: 0 <= i < j < |entries| ==> entries[i].0 != entries[j].0)
    && |entries| == |m|
  }

  lemma ListsOnceConcat<K, V>(a: seq<(K, V)>, m: map<K, V>, b: seq<(K, V)>, n: map<K, V>)
    requires ListsOnce(a, m) && ListsOnce(b, n) && m.Keys !! n.Keys
    ensures ListsOnce(a + b, m + n)
  {
    DisjointSum(m, n);
    var c := a + b;
    forall i | 0 <= i < |c| ensures c[i].0 in m + n && (m + n)[c[i].0] == c[i].1 {
      if i < |a| { assert c[i].0 in m.Keys; }
    }
    forall i, j | 0 <= i < j < |c| ensures c[i].0 != c[j].0 {
      if i < |a| <= j { assert c[i].0 in m.Keys && c[j].0 in n.Keys; }
    }
  }

  lemma ListsOnceAppend<K, V>(entries: seq<(K, V)>, m: map<K, V>, k: K, v: V)
    requires ListsOnce(entries, m) && k !in m
    ensures ListsOnce(entries + [(k, v)], m[k := v])
  {
    assert m[k := v].Keys == m.Keys + {k};
    assert |m[k := v].Keys| == |m[k := v]| && |m.Keys| == |m|;
  }

  /** So the record holds every key of m. */
  lemma {:induction false} ListsOnceCovers<K, V>(entries: seq<(K, V)>, m: map<K, V>, k: K)
    requires ListsOnce(entries, m) && k in m
    ensures (k, m[k]) in entries
  {
    assert k in m.Keys && |m.Keys| == |m|;
    assert entries != [];
    var last := entries[|entries| - 1];
    if last.0 != k {
      var rest := m - {last.0};
      assert rest.Keys == m.Keys - {last.0};
      assert |rest.Keys| == |rest| && |m.Keys| == |m|;
      var init := entries[..|entries| - 1];
      assert forall i :: 0 <= i < |init| ==> init[i] == entries[i];
      ListsOnceCovers(init, rest, k);
      assert (k, m[k]) in init;
    }
  }

  // ------------------------------------------------------------------ the map

  lemma RemoveOne<K, V>(m: map<K, V>, k: K)
    requires k in m
    ensures (m - {k}).Keys == m.Keys - {k} && |m - {k}| < |m|
  {
    assert |(m - {k}).Keys| == |m - {k}| && |m.Keys| == |m|;
  }

  lemma MoveOne<K, V>(done: map<K, V>, todo: map<K, V>, k: K)
    requires done.Keys !! todo.Keys && k in todo
    ensures done[k := todo[k]] + (todo - {k}) == done + todo
  {
  }

  /** A range over one shard, in whatever order Go iterates. */
  method ShardEntries<K(==), V>(m: map<K, V>) returns (entries: seq<(K, V)>)
    ensures ListsOnce(entries, m)
  {
    entries := [];
    ghost var done: map<K, V> := map[];
    var todo := m;
    while todo != map[]
      invariant done.Keys !! todo.Keys && done + todo == m
      invariant ListsOnce(entries, done)
      decreases |todo|
    {
      var k :| k in todo;
      var v := todo[k];
      ListsOnceAppend(entries, done, k, v);
      entries := entries + [(k, v)];
      MoveOne(done, todo, k);
      RemoveOne(todo, k);
      done, todo := done[k := v], todo - {k};
    }
    assert done == m;
  }

  /** The loop of Count over the shards. */
  method CountShards<K(!new), V>(shards: seq<map<K, V>>, shardOf: K -> nat) returns (count: nat)
    requires Placed(shards, shardOf)
    ensures count == |Union(shards)|
  {
    count := 0;
    for i := 0 to |shards|
      invariant count == |Union(shards[..i])|
    {
      UnionPrefixDisjoint(shards, shardOf, i);
      DisjointSum(Union(shards[..i]), shards[i]);
      count := count + |shards[i]|;
    }
    assert shards[..|shards|] == shards;
  }

  /** The loop of IterCb over the shards. */
  method ReadShards<K(!new, ==), V>(shards: seq<map<K, V>>, shardOf: K -> nat) returns (entries: seq<(K, V)>)
    requires Placed(shards, shardOf)
    ensures ListsOnce(entries, Union(shards))
  {
    entries := [];
    for i := 0 to |shards|
      invariant ListsOnce(entries, Union(shards[..i]))
    {
      UnionPrefixDisjoint(shards, shardOf, i);
      var shard := ShardEntries(shards[i]);
      ListsOnceConcat(entries, Union(shards[..i]), shard, shards[i]);
      entries := entries + shard;
    }
    assert shards[..|shards|] == shards;
  }

  class ConcurrentMap<K(!new, ==), V> {
    const sharding: K -> nat
    var shards: array<map<K, V>>

    function ShardOf(k: K): nat { sharding(k) % SHARD_COUNT }

    ghost predicate Valid()
      reads this, shards
    {
      shards.Length == SHARD_COUNT && Placed(shards[..], k => sharding(k) % SHARD_COUNT)
    }

    ghost function View(): map<K, V>
      reads this, shards
    {
      Union(shards[..])
    }

    constructor (hash: K -> nat)
      ensures Valid() && fresh(shards) && View() == map[] && sharding == hash
    {
      sharding := hash;
      shards := new map<K, V>[SHARD_COUNT](_ => map[]);
      new;
      assert Placed(shards[..], k => sharding(k) % SHARD_COUNT);
      forall k ensures k !in View() { UnionAt(shards[..], x => sharding(x) % SHARD_COUNT, k); }
    }

    method Get(key: K) returns (r: Option<V>)
      requires Valid()
      ensures r == if key in View() then Some(View()[key]) else None
    {
      UnionAt(shards[..], k => sharding(k) % SHARD_COUNT, key);
      var shard := shards[ShardOf(key)];
      r := if key in shard then Some(shard[key]) else None;
    }

    /** The common tail of every update: write the shard of `key` back. */
    method Store(key: K, m: map<K, V>)
      requires Valid() && m - {key} == shards[ShardOf(key)] - {key}
      modifies shards
      ensures Valid() && View() == if key in m then old(View())[key := m[key]] else old(View()) - {key}
    {
      UnionUpdate(shards[..], k => sharding(k) % SHARD_COUNT, key, m);
      ghost var before := shards[..];
      shards[ShardOf(key)] := m;
      assert shards[..] == before[ShardOf(key) := m];
    }

    method Set(key: K, value: V) returns (was: Option<V>)
      requires Valid()
      modifies shards
      ensures Valid() && View() == old(View())[key := value]
      ensures was == if key in old(View()) then Some(old(View())[key]) else None
    {
      was := Get(key);
      Store(key, shards[ShardOf(key)][key := value]);
    }

    method SetIfNotExist(key: K, value: V) returns (was: Option<V>)
      requires Valid()
      modifies shards
      ensures Valid() && View() == if key in old(View()) then old(View()) else old(View())[key := value]
      ensures was == if key in old(View()) then Some(old(View())[key]) else None
    {
      was := Get(key);
      if was.None? { Store(key, shards[ShardOf(key)][key := value]); }
    }

    method Remove(key: K)
      requires Valid()
      modifies shards
      ensures Valid() && View() == old(View()) - {key}
    {
      Store(key, shards[ShardOf(key)] - {key});
    }

    /** The callback decides on the current value under the shard's lock; its answer is returned
        even when the key was absent. */
    method RemoveCb(key: K, cb: (K, Option<V>) -> bool) returns (answer: bool)
      requires Valid()
      modifies shards
      ensures Valid()
      ensures answer == cb(key, if key in old(View()) then Some(old(View())[key]) else None)
      ensures View() == if answer then old(View()) - {key} else old(View())
    {
      var v := Get(key);
      answer := cb(key, v);
      if answer && v.Some? { Store(key, shards[ShardOf(key)] - {key}); }
    }

    method Pop(key: K) returns (was: Option<V>)
      requires Valid()
      modifies shards
      ensures Valid() && View() == old(View()) - {key}
      ensures was == if key in old(View()) then Some(old(View())[key]) else None
    {
      was := Get(key);
      Store(key, shards[ShardOf(key)] - {key});
    }

    /** With no writer between two shards. */
    method Count() returns (count: nat)
      requires Valid()
      ensures count == |View()|
    {
      count := CountShards(shards[..], k => sharding(k) % SHARD_COUNT);
    }

    /** IterCb with a callback that appends, and no writer between two shards. */
    method Entries() returns (entries: seq<(K, V)>)
      requires Valid()
      ensures ListsOnce(entries, View())
    {
      entries := ReadShards(shards[..], k => sharding(k) % SHARD_COUNT);
    }
  }

  // ------------------------------------------------------------------ traversals among writers

  /** What a traversal sees when other goroutines write between two shards: shard i as it is in the
      i-th of the successive states of the map. */
  function Seen<K, V>(states: seq<seq<map<K, V>>>): (shards: seq<map<K, V>>)
    requires forall i :: 0 <= i < |states| ==> |states[i]| == |states|
    ensures |shards| == |states| && forall i :: 0 <= i < |states| ==> shards[i] == states[i][i]
  {
    seq(|states|, i requires 0 <= i < |states| => states[i][i])
  }

  ghost predicate StatesOk<K(!new), V>(states: seq<seq<map<K, V>>>, shardOf: K -> nat) {
    forall i :: 0 <= i < |states| ==> |states[i]| == |states| && Placed(states[i], shardOf)
  }

  lemma SeenIsPlaced<K(!new), V>(states: seq<seq<map<K, V>>>, shardOf: K -> nat)
    requires StatesOk(states, shardOf)
    ensures Placed(Seen(states), shardOf)
  {
    forall i, k | 0 <= i < |states| && k in Seen(states)[i] ensures shardOf(k) == i { assert Placed(states[i], shardOf); }
  }

  /** A key is seen exactly as it is at the moment its own shard is read. */
  lemma SeenAtItsMoment<K(!new), V>(states: seq<seq<map<K, V>>>, shardOf: K -> nat, k: K)
    requires StatesOk(states, shardOf) && shardOf(k) < |states|
    ensures var now := Union(states[shardOf(k)]);
            (k in Union(Seen(states)) <==> k in now) && (k in now ==> Union(Seen(states))[k] == now[k])
  {
    SeenIsPlaced(states, shardOf);
    UnionAt(Seen(states), shardOf, k);
    UnionAt(states[shardOf(k)], shardOf, k);
  }

  /** IterCb, and so the snapshot of rangeIt, among writers: every entry that is in the map with the
      same value throughout is listed; every listed entry was in the map when its shard was read; and
      no key is listed twice. */
  method IterAmongWriters<K(!new, ==), V>(states: seq<seq<map<K, V>>>, shardOf: K -> nat) returns (entries: seq<(K, V)>)
    requires StatesOk(states, shardOf) && forall k :: shardOf(k) < |states|
    ensures forall i, j :: 0 <= i < j < |entries| ==> entries[i].0 != entries[j].0
    ensures forall e :: e in entries ==> e.0 in Union(states[shardOf(e.0)]) && Union(states[shardOf(e.0)])[e.0] == e.1
    ensures forall k, v :: (forall i :: 0 <= i < |states| ==> k in Union(states[i]) && Union(states[i])[k] == v) ==> (k, v) in entries
  {
    SeenIsPlaced(states, shardOf);
    entries := ReadShards(Seen(states), shardOf);
    forall e | e in entries ensures e.0 in Union(states[shardOf(e.0)]) && Union(states[shardOf(e.0)])[e.0] == e.1 {
      SeenAtItsMoment(states, shardOf, e.0);
    }
    forall k, v | forall i :: 0 <= i < |states| ==> k in Union(states[i]) && Union(states[i])[k] == v
      ensures (k, v) in entries
    {
      SeenAtItsMoment(states, shardOf, k);
      ListsOnceCovers(entries, Union(Seen(states)), k);
    }
  }

  /** Count among writers: the number of keys that are in the map when their shard is read. */
  method CountAmongWriters<K(!new), V>(states: seq<seq<map<K, V>>>, shardOf: K -> nat) returns (count: nat)
    requires StatesOk(states, shardOf) && forall k :: shardOf(k) < |states|
    ensures exists seen: set<K> :: count == |seen| && forall k :: k in seen <==> k in Union(states[shardOf(k)])
  {
    SeenIsPlaced(states, shardOf);
    count := CountShards(Seen(states), shardOf);
    ghost var seen := Union(Seen(states)).Keys;
    forall k ensures k in seen <==> k in Union(states[shardOf(k)]) { SeenAtItsMoment(states, shardOf, k); }
    assert |seen| == |Union(Seen(states))|;
  }

  // ------------------------------------------------------------------ the registry

  /** The actor-id index; `P` identifies a processor object. */
  class Registry<P(!new, ==)> {
    const processes: ConcurrentMap<string, P>

    ghost predicate Valid()
      reads this, processes, processes.shards
    {
      processes.Valid()
    }

    ghost function View(): map<string, P>
      reads this, processes, processes.shards
    {
      processes.View()
    }

    constructor (hash: string -> nat)
      ensures Valid() && View() == map[] && fresh(processes) && fresh(processes.shards)
    {
      processes := new ConcurrentMap(hash);
    }

    method Lookup(id: string) returns (r: Option<P>)
      requires Valid()
      ensures r == if id in View() then Some(View()[id]) else None
    {
      r := processes.Get(id);
    }

    /** Publishes `proc` unless the id is taken; the id then maps to `actual` in either case. */
    method Register(id: string, proc: P) returns (actual: P, inserted: bool)
      requires Valid()
      modifies processes.shards
      ensures Valid() && inserted == (id !in old(View())) && id in View() && View()[id] == actual
      ensures View() == (if inserted then old(View())[id := proc] else old(View())) && (inserted ==> actual == proc)
    {
      var was := processes.SetIfNotExist(id, proc);
      if was.Some? { return was.value, false; }
      return proc, true;
    }

    /** Removes exactly the expected instance: a newer activation under the same id stays. */
    method Remove(id: string, expected: P)
      requires Valid()
      modifies processes.shards
      ensures Valid()
      ensures View() == if id in old(View()) && old(View())[id] == expected then old(View()) - {id} else old(View())
    {
      var answer := processes.RemoveCb(id, (_, v: Option<P>) => v == Some(expected));
    }

    /** The snapshot that rangeIt takes before it calls back. */
    method Snapshot() returns (entries: seq<(string, P)>)
      requires Valid()
      ensures ListsOnce(entries, View())
    {
      entries := processes.Entries();
    }
  }
}
