/**
  Cluster membership: the member keys in a revisioned store, the provider that loads them and then
  replays every later change, and the node ids claimed by create-only transactions.

  The store is its history of changes: a position in it is a revision boundary, and the watch
  delivers the changes under the member prefix from the first load's position on. Parsing of a
  member value is an arbitrary partial function.
*/
module Membership {
  import opened Options
  import opened Rendezvous

  type Key = string
  type Value = string
  type NodeMap = map<string, Node>
  type Parser = Value -> Option<Node>

  datatype Event = Put(key: Key, value: Value) | Delete(key: Key)

  function At<K, V>(m: map<K, V>, k: K): Option<V> { if k in m then Some(m[k]) else None }

  // ------------------------------------------------------------------ keys

  /** strings.LastIndexByte: the last position of c, or -1. */
  function LastIndexByte(s: string, c: char): (i: int)
    ensures -1 <= i < |s| && (i >= 0 ==> s[i] == c) && c !in s[i + 1..]
  {
    if s == "" then -1
    else if s[|s| - 1] == c then |s| - 1
    else
      var i := LastIndexByte(s[..|s| - 1], c);
      NotInLonger(s, c, i + 1);
      i
  }

  lemma NotInLonger(s: string, c: char, i: nat)
    requires i < |s| && s[|s| - 1] != c && c !in s[..|s| - 1][i..]
    ensures c !in s[i..]
  {
    assert s[i..] == s[..|s| - 1][i..] + [s[|s| - 1]];
  }

  /** The member id is the last path segment of its key. */
  function Segment(key: Key): string { key[LastIndexByte(key, '/') + 1..] }

  predicate IsPrefixPath(prefix: string) { prefix != "" && prefix[|prefix| - 1] == '/' }

  /** A member key with nothing nested below the prefix, as getMemberPath builds it. */
  predicate FlatKey(prefix: string, key: Key) { prefix <= key && '/' !in key[|prefix|..] }

  lemma SegmentOfFlat(prefix: string, id: string)
    requires IsPrefixPath(prefix) && '/' !in id
    ensures FlatKey(prefix, prefix + id) && Segment(prefix + id) == id
  {
    var key := prefix + id;
    var i, p := LastIndexByte(key, '/'), |prefix| - 1;
    assert key[p] == '/';
    forall k | i < k < |key| ensures key[k] != '/' { assert key[k] == key[i + 1..][k - i - 1]; }
    forall k | p < k < |key| ensures key[k] != '/' { assert key[k] == id[k - |prefix|]; }
    assert key[|prefix|..] == id;
  }

  lemma FlatSegment(prefix: string, key: Key)
    requires IsPrefixPath(prefix) && FlatKey(prefix, key)
    ensures key == prefix + Segment(key) && Segment(key) == key[|prefix|..]
  {
    assert key == prefix + key[|prefix|..];
    SegmentOfFlat(prefix, key[|prefix|..]);
  }

  // ------------------------------------------------------------------ store and node map

  function StoreStep(store: map<Key, Value>, e: Event): map<Key, Value> {
    match e
    case Put(key, value) => store[key := value]
    case Delete(key) => store - {key}
  }

  /** The store after a history of changes. */
  function StoreAfter(history: seq<Event>): map<Key, Value> {
    if history == [] then map[]
    else StoreStep(StoreAfter(history[..|history| - 1]), history[|history| - 1])
  }

  /** applyMemberLocked: a deleted or malformed member leaves the map. */
  function Applied(m: NodeMap, e: Event, parse: Parser): NodeMap {
    match e
    case Delete(key) => m - {Segment(key)}
    case Put(key, value) => if parse(value).None? then m - {Segment(key)} else m[Segment(key) := parse(value).value]
  }

  function AppliedAll(m: NodeMap, es: seq<Event>, parse: Parser): NodeMap {
    if es == [] then m else Applied(AppliedAll(m, es[..|es| - 1], parse), es[|es| - 1], parse)
  }

  /** The part of a history that a watch on the prefix delivers. */
  function Watched(prefix: string, es: seq<Event>): seq<Event> {
    if es == [] then []
    else Watched(prefix, es[..|es| - 1]) + (if prefix <= es[|es| - 1].key then [es[|es| - 1]] else [])
  }

  /** The node that the store holds under a member id, when its value parses. */
  function MemberAt(prefix: string, store: map<Key, Value>, id: string, parse: Parser): Option<Node> {
    if prefix + id in store then parse(store[prefix + id]) else None
  }

  /** The node map is the parsed member keys of the store: no more, no fewer, and the same values. */
  ghost predicate Converged(prefix: string, m: NodeMap, store: map<Key, Value>, parse: Parser) {
    forall id :: At(m, id) == MemberAt(prefix, store, id, parse)
  }

  ghost predicate AllFlat(prefix: string, es: seq<Event>) {
    forall i :: 0 <= i < |es| && prefix <= es[i].key ==> FlatKey(prefix, es[i].key)
  }

  ghost predicate Touched(prefix: string, es: seq<Event>, id: string) {
    exists i :: 0 <= i < |es| && es[i].key == prefix + id
  }

  // ------------------------------------------------------------------ loads and the self-insert

  /** What the provider does between its first load and the watch. */
  datatype Prep =
    | Load(at: nat, kvs: seq<(Key, Value)>)
    | SelfInsert(at: nat, key: Key, value: Value)

  /** The answer of a Get on the prefix. */
  ghost predicate Lists(kvs: seq<(Key, Value)>, prefix: string, store: map<Key, Value>) {
    && (forall i :: 0 <= i < |kvs| ==> prefix <= kvs[i].0 && kvs[i].0 in store && store[kvs[i].0] == kvs[i].1)
    && (forall k :: k in store && prefix <= k ==> (k, store[k]) in kvs)
  }

  /** A load at some revision from r to R, or the insertion of the own key that this node's
      transaction put between r and R. */
  ghost predicate PrepOk(p: Prep, prefix: string, history: seq<Event>, r: nat, R: nat)
    requires r <= R <= |history|
  {
    match p
    case Load(at, kvs) => r <= at <= R && Lists(kvs, prefix, StoreAfter(history[..at]))
    case SelfInsert(at, key, value) => r <= at < R && prefix <= key && history[at] == Put(key, value)
  }

  function Puts(kvs: seq<(Key, Value)>): seq<Event> {
    seq(|kvs|, i requires 0 <= i < |kvs| => Put(kvs[i].0, kvs[i].1))
  }

  function Prepared(m: NodeMap, p: Prep, parse: Parser): NodeMap {
    match p
    case Load(_, kvs) => AppliedAll(m, Puts(kvs), parse)
    case SelfInsert(_, key, value) => Applied(m, Put(key, value), parse)
  }

  function PreparedAll(m: NodeMap, ps: seq<Prep>, parse: Parser): NodeMap {
    if ps == [] then m else Prepared(PreparedAll(m, ps[..|ps| - 1], parse), ps[|ps| - 1], parse)
  }

  /** A change of one key moves the map at that key's segment alone. */
  lemma AppliedAt(m: NodeMap, e: Event, parse: Parser, id: string)
    ensures At(Applied(m, e, parse), id)
            == if Segment(e.key) != id then At(m, id) else if e.Put? then parse(e.value) else None
  {
  }

  lemma {:induction false} LoadAt(m: NodeMap, kvs: seq<(Key, Value)>, prefix: string, store: map<Key, Value>, id: string, parse: Parser)
    requires IsPrefixPath(prefix)
    requires forall i :: 0 <= i < |kvs| ==> FlatKey(prefix, kvs[i].0) && kvs[i].0 in store && store[kvs[i].0] == kvs[i].1
    ensures At(AppliedAll(m, Puts(kvs), parse), id)
            == if Touched(prefix, Puts(kvs), id) then MemberAt(prefix, store, id, parse) else At(m, id)
  {
    if kvs != [] {
      var n := |kvs| - 1;
      var init, e := Puts(kvs[..n]), Put(kvs[n].0, kvs[n].1);
      assert Puts(kvs)[..n] == init && Puts(kvs) == init + [e];
      LoadAt(m, kvs[..n], prefix, store, id, parse);
      FlatSegment(prefix, e.key);
      AppliedAt(AppliedAll(m, init, parse), e, parse, id);
      TouchedAppend(prefix, init, e, id);
    }
  }

  lemma {:induction false} StoreKeys(history: seq<Event>, prefix: string, key: Key)
    requires AllFlat(prefix, history) && key in StoreAfter(history) && prefix <= key
    ensures FlatKey(prefix, key)
  {
    var n := |history| - 1;
    if history[n].key != key { StoreKeys(history[..n], prefix, key); }
  }

  /** An untouched key has the same value at every revision of the range. */
  lemma {:induction false} StoreUntouched(history: seq<Event>, r: nat, at: nat, R: nat, prefix: string, id: string)
    requires r <= at <= R <= |history| && !Touched(prefix, history[r..R], id)
    ensures At(StoreAfter(history[..at]), prefix + id) == At(StoreAfter(history[..R]), prefix + id)
    decreases R
  {
    if at < R {
      assert history[..R][..R - 1] == history[..R - 1];
      var e := history[R - 1];
      assert history[r..R] == history[r..R - 1] + [e];
      TouchedAppend(prefix, history[r..R - 1], e, id);
      StoreUntouched(history, r, at, R - 1, prefix, id);
    }
  }

  /** A load gives an untouched id its final value when the store has the key. */
  lemma LoadSettles(m: NodeMap, p: Prep, history: seq<Event>, r: nat, R: nat, prefix: string, id: string, parse: Parser)
    requires IsPrefixPath(prefix) && r <= R <= |history| && AllFlat(prefix, history)
    requires p.Load? && PrepOk(p, prefix, history, r, R) && !Touched(prefix, history[r..R], id)
    ensures var store := StoreAfter(history[..R]);
            At(Prepared(m, p, parse), id) == if prefix + id in store then MemberAt(prefix, store, id, parse) else At(m, id)
  {
    var store := StoreAfter(history[..p.at]);
    forall i | 0 <= i < |p.kvs| ensures FlatKey(prefix, p.kvs[i].0) { StoreKeys(history[..p.at], prefix, p.kvs[i].0); }
    LoadAt(m, p.kvs, prefix, store, id, parse);
    StoreUntouched(history, r, p.at, R, prefix, id);
    if prefix + id in store {
      assert (prefix + id, store[prefix + id]) in p.kvs;
      var i :| 0 <= i < |p.kvs| && p.kvs[i] == (prefix + id, store[prefix + id]);
      assert Puts(p.kvs)[i].key == prefix + id;
    }
  }

  lemma PrepKeepsSettled(m: NodeMap, p: Prep, history: seq<Event>, r: nat, R: nat, prefix: string, id: string, parse: Parser)
    requires IsPrefixPath(prefix) && r <= R <= |history| && AllFlat(prefix, history)
    requires PrepOk(p, prefix, history, r, R) && !Touched(prefix, history[r..R], id)
    requires At(m, id) == MemberAt(prefix, StoreAfter(history[..R]), id, parse)
    ensures At(Prepared(m, p, parse), id) == At(m, id)
  {
    if p.Load? {
      LoadSettles(m, p, history, r, R, prefix, id, parse);
    } else {
      assert history[r..R][p.at - r] == history[p.at];
      FlatSegment(prefix, p.key);
      AppliedAt(m, Put(p.key, p.value), parse, id);
    }
  }

  lemma {:induction false} PreparedSettles(ps: seq<Prep>, history: seq<Event>, r: nat, R: nat, prefix: string, id: string, parse: Parser)
    requires IsPrefixPath(prefix) && r <= R <= |history| && AllFlat(prefix, history)
    requires ps != [] && ps[0].Load? && ps[0].at == r && forall i :: 0 <= i < |ps| ==> PrepOk(ps[i], prefix, history, r, R)
    requires !Touched(prefix, history[r..R], id)
    ensures At(PreparedAll(map[], ps, parse), id) == MemberAt(prefix, StoreAfter(history[..R]), id, parse)
    decreases |ps|
  {
    var n := |ps| - 1;
    if n == 0 {
      assert PreparedAll(map[], ps[..0], parse) == map[];
      LoadSettles(map[], ps[0], history, r, R, prefix, id, parse);
    } else {
      PreparedSettles(ps[..n], history, r, R, prefix, id, parse);
      PrepKeepsSettled(PreparedAll(map[], ps[..n], parse), ps[n], history, r, R, prefix, id, parse);
    }
  }

  // ------------------------------------------------------------------ replay

  /** Replaying the changes `es` that follow `before` puts the id, when touched, at its value in the
      store after them and otherwise leaves it. */
  ghost predicate ReplayRight(m: NodeMap, before: seq<Event>, es: seq<Event>, prefix: string, id: string, parse: Parser) {
    At(AppliedAll(m, Watched(prefix, es), parse), id)
    == if Touched(prefix, es, id) then MemberAt(prefix, StoreAfter(before + es), id, parse) else At(m, id)
  }

  lemma ReplayStep(m: NodeMap, before: seq<Event>, es: seq<Event>, e: Event, prefix: string, id: string, parse: Parser)
    requires IsPrefixPath(prefix) && (prefix <= e.key ==> FlatKey(prefix, e.key)) && ReplayRight(m, before, es, prefix, id, parse)
    ensures ReplayRight(m, before, es + [e], prefix, id, parse)
  {
    TouchedAppend(prefix, es, e, id);
    WatchedAppend(m, es, e, prefix, id, parse);
    StoreAppend(before + es, e, prefix, id, parse);
    assert before + (es + [e]) == before + es + [e];
  }

  lemma {:induction false} ReplayAt(m: NodeMap, before: seq<Event>, es: seq<Event>, prefix: string, id: string, parse: Parser)
    requires IsPrefixPath(prefix) && AllFlat(prefix, es)
    ensures ReplayRight(m, before, es, prefix, id, parse)
    decreases |es|
  {
    if es != [] {
      var init, e := es[..|es| - 1], es[|es| - 1];
      ReplayAt(m, before, init, prefix, id, parse);
      ReplayStep(m, before, init, e, prefix, id, parse);
      assert es == init + [e];
    }
  }

  lemma WatchedAppend(m: NodeMap, es: seq<Event>, e: Event, prefix: string, id: string, parse: Parser)
    requires IsPrefixPath(prefix) && (prefix <= e.key ==> FlatKey(prefix, e.key))
    ensures At(AppliedAll(m, Watched(prefix, es + [e]), parse), id)
            == if e.key != prefix + id then At(AppliedAll(m, Watched(prefix, es), parse), id)
               else if e.Put? then parse(e.value) else None
  {
    var w := Watched(prefix, es);
    assert (es + [e])[..|es|] == es;
    if prefix <= e.key {
      assert (w + [e])[..|w|] == w;
      FlatSegment(prefix, e.key);
      AppliedAt(AppliedAll(m, w, parse), e, parse, id);
    } else {
      assert w + [] == w;
      assert prefix <= prefix + id;
    }
  }

  lemma StoreAppend(history: seq<Event>, e: Event, prefix: string, id: string, parse: Parser)
    ensures MemberAt(prefix, StoreAfter(history + [e]), id, parse)
            == if e.key != prefix + id then MemberAt(prefix, StoreAfter(history), id, parse)
               else if e.Put? then parse(e.value) else None
  {
    assert (history + [e])[..|history|] == history;
  }

  lemma TouchedAppend(prefix: string, es: seq<Event>, e: Event, id: string)
    ensures Touched(prefix, es + [e], id) <==> Touched(prefix, es, id) || e.key == prefix + id
  {
    if i :| 0 <= i < |es| && es[i].key == prefix + id { assert (es + [e])[i].key == prefix + id; }
    if e.key == prefix + id { assert (es + [e])[|es|].key == prefix + id; }
  }

  /** Convergence: load at r, any number of later loads and self-inserts, then every watched change
      from r to a revision R at or beyond all of them leaves exactly the parsed members at R. */
  lemma MembershipConverges(ps: seq<Prep>, history: seq<Event>, r: nat, R: nat, prefix: string, parse: Parser)
    requires IsPrefixPath(prefix) && r <= R <= |history| && AllFlat(prefix, history)
    requires ps != [] && ps[0].Load? && ps[0].at == r && forall i :: 0 <= i < |ps| ==> PrepOk(ps[i], prefix, history, r, R)
    ensures Converged(prefix, AppliedAll(PreparedAll(map[], ps, parse), Watched(prefix, history[r..R]), parse),
                      StoreAfter(history[..R]), parse)
  {
    forall id ensures At(AppliedAll(PreparedAll(map[], ps, parse), Watched(prefix, history[r..R]), parse), id)
                      == MemberAt(prefix, StoreAfter(history[..R]), id, parse) {
      ConvergesAt(ps, history, r, R, prefix, id, parse);
    }
  }

  lemma ConvergesAt(ps: seq<Prep>, history: seq<Event>, r: nat, R: nat, prefix: string, id: string, parse: Parser)
    requires IsPrefixPath(prefix) && r <= R <= |history| && AllFlat(prefix, history)
    requires ps != [] && ps[0].Load? && ps[0].at == r && forall i :: 0 <= i < |ps| ==> PrepOk(ps[i], prefix, history, r, R)
    ensures At(AppliedAll(PreparedAll(map[], ps, parse), Watched(prefix, history[r..R]), parse), id)
            == MemberAt(prefix, StoreAfter(history[..R]), id, parse)
  {
    var es := history[r..R];
    assert history[..R] == history[..r] + es;
    ReplayAt(PreparedAll(map[], ps, parse), history[..r], es, prefix, id, parse);
    if !Touched(prefix, es, id) { PreparedSettles(ps, history, r, R, prefix, id, parse); }
  }

  /** Why flat keys matter: whatever key is nested below the prefix and whatever its value, putting it
      and deleting it again removes the member that shares its last segment. So a key is safe exactly
      when it is flat. */
  lemma NestedKeyEvicts(prefix: string, key: Key, w: Value, v: Value, node: Node, parse: Parser)
    requires IsPrefixPath(prefix) && prefix <= key && !FlatKey(prefix, key) && parse(v) == Some(node)
    ensures var es := [Put(key, w), Put(prefix + Segment(key), v), Delete(key)];
            && key in StoreAfter(es[..2])
            && !Converged(prefix, AppliedAll(map[], Watched(prefix, es), parse), StoreAfter(es), parse)
  {
    var id := Segment(key);
    var flat := prefix + id;
    SegmentOfFlat(prefix, id);
    assert key != flat && prefix <= flat;
    var es := [Put(key, w), Put(flat, v), Delete(key)];
    WatchedAll(prefix, es);
    StoreOfThree(key, w, flat, v);
    assert At(AppliedAll(map[], es, parse), id) == None by {
      AppliedAt(AppliedAll(map[], es[..2], parse), Delete(key), parse, id);
    }
    assert MemberAt(prefix, StoreAfter(es), id, parse) == Some(node);
  }

  lemma {:induction false} WatchedAll(prefix: string, es: seq<Event>)
    requires forall i :: 0 <= i < |es| ==> prefix <= es[i].key
    ensures Watched(prefix, es) == es
  {
    if es != [] {
      var init, e := es[..|es| - 1], es[|es| - 1];
      forall i | 0 <= i < |init| ensures prefix <= init[i].key { assert init[i] == es[i]; }
      WatchedAll(prefix, init);
      assert Watched(prefix, es) == init + [e] == es;
    }
  }

  lemma StoreOfThree(key: Key, w: Value, flat: Key, v: Value)
    requires key != flat
    ensures var es := [Put(key, w), Put(flat, v), Delete(key)];
            key in StoreAfter(es[..2]) && At(StoreAfter(es), flat) == Some(v)
  {
    var es := [Put(key, w), Put(flat, v), Delete(key)];
    var one, two := es[..1], es[..2];
    assert one[..0] == [] && two[..1] == one && es[..2] == two;
    assert StoreAfter(one) == map[key := w];
    assert StoreAfter(two) == map[key := w, flat := v];
  }

  /** During the replay a node may vanish from its own view: the id it claimed had been taken and
      released by another node after the first load. */
  lemma SelfVanishesDuringReplay(prefix: string, id: string, other: Value, mine: Value, node: Node, parse: Parser)
    requires IsPrefixPath(prefix) && '/' !in id && parse(mine) == Some(node)
    ensures var key := prefix + id; var history := [Put(key, other), Delete(key), Put(key, mine)];
            var m := PreparedAll(map[], [Load(0, []), SelfInsert(2, key, mine)], parse);
            && PrepOk(Load(0, []), prefix, history, 0, 3) && PrepOk(SelfInsert(2, key, mine), prefix, history, 0, 3)
            && At(m, id) == Some(node)
            && id !in AppliedAll(m, Watched(prefix, history[..2]), parse)
  {
    var key := prefix + id;
    var history := [Put(key, other), Delete(key), Put(key, mine)];
    SegmentOfFlat(prefix, id);
    var ps := [Load(0, []), SelfInsert(2, key, mine)];
    assert history[..0] == [];
    assert PreparedAll(map[], ps, parse) == map[id := node] by {
      var first := ps[..1];
      assert first[..0] == [] && Puts([]) == [];
      assert PreparedAll(map[], first, parse) == map[];
      assert Applied(map[], Put(key, mine), parse) == map[id := node];
    }
    var two := [Put(key, other), Delete(key)];
    assert history[..2] == two;
    WatchedAll(prefix, two);
    assert two[..1] == [Put(key, other)];
    AppliedAt(AppliedAll(map[id := node], two[..1], parse), Delete(key), parse, id);
  }
}
