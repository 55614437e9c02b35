/** The provider's own state: node map, version and published snapshot, all changed under its lock,
    and the registration of a node id. */
module Provider {
  import opened Options
  import opened Rendezvous
  import opened Membership
  import ActorId
  import RouteCache
  import Snowflake

  const REGISTER_ROUNDS := 16

  /** One round of register: which free id the random draw takes, whether the create-only
      transaction reported success, and what the reload after a failure returned. */
  datatype Round = Round(draw: nat, won: bool, reload: Option<seq<(Key, Value)>>)

  type Reloader = (NodeMap, Round) -> NodeMap

  datatype Outcome = Registered(id: nat) | AllTaken | LoadFailed | LostRaces

  // ------------------------------------------------------------------ free ids

  predicate IsFree(m: NodeMap, id: nat) { 1 <= id <= Snowflake.NODE_MAX && ActorId.FormatUint(id) !in m }

  function NodeIdRange(): (ids: seq<nat>)
    ensures |ids| == Snowflake.NODE_MAX && forall i :: 0 <= i < |ids| ==> ids[i] == i + 1
  {
    seq(Snowflake.NODE_MAX, i => i + 1)
  }

  predicate Ascending(ids: seq<nat>) { forall i, j :: 0 <= i < j < |ids| ==> ids[i] < ids[j] }

  function NotTaken(m: NodeMap, ids: seq<nat>): seq<nat> {
    if ids == [] then []
    else NotTaken(m, ids[..|ids| - 1]) + (if ActorId.FormatUint(ids[|ids| - 1]) in m then [] else [ids[|ids| - 1]])
  }

  lemma {:induction false} NotTakenIs(m: NodeMap, ids: seq<nat>)
    requires Ascending(ids)
    ensures forall id :: id in NotTaken(m, ids) <==> id in ids && ActorId.FormatUint(id) !in m
    ensures Ascending(NotTaken(m, ids))
  {
    if ids != [] {
      var init, last := ids[..|ids| - 1], ids[|ids| - 1];
      NotTakenIs(m, init);
      assert ids == init + [last];
      var before := NotTaken(m, init);
      forall i | 0 <= i < |before| ensures before[i] < last { assert before[i] in init; }
      assert ids[..|ids| - 1] == init;
      assert NotTaken(m, ids) == before + (if ActorId.FormatUint(last) in m then [] else [last]);
      forall id ensures id in NotTaken(m, ids) <==> id in ids && ActorId.FormatUint(id) !in m {
        assert id in ids <==> id in init || id == last;
      }
    }
  }

  lemma RangeHasAll()
    ensures forall id: nat :: id in NodeIdRange() <==> 1 <= id <= Snowflake.NODE_MAX
  {
    forall id: nat ensures id in NodeIdRange() <==> 1 <= id <= Snowflake.NODE_MAX {
      if 1 <= id <= Snowflake.NODE_MAX { assert NodeIdRange()[id - 1] == id; }
    }
  }

  /** freeNodeIds. */
  function FreeIds(m: NodeMap): seq<nat> { NotTaken(m, NodeIdRange()) }

  /** The list holds exactly the ids that the map does not show as taken, in ascending order. */
  lemma FreeIdsAre(m: NodeMap)
    ensures forall id :: id in FreeIds(m) <==> IsFree(m, id)
    ensures Ascending(FreeIds(m))
  {
    NotTakenIs(m, NodeIdRange());
    RangeHasAll();
  }

  // ------------------------------------------------------------------ register

  /** rand.IntN over the list: every position is possible, a draw outside it stands for the first. */
  function Drawn(free: seq<nat>, draw: nat): (id: nat)
    requires free != []
    ensures id in free
  {
    if draw < |free| then free[draw] else free[0]
  }

  function MemberKey(prefix: string, id: nat): Key { prefix + ActorId.FormatUint(id) }

  /** The node map after a lost round. */
  function Reloaded(m: NodeMap, r: Round, parse: Parser): NodeMap {
    if r.reload.None? then m else AppliedAll(m, Puts(r.reload.value), parse)
  }

  function Reload(parse: Parser): Reloader { (m, r) => Reloaded(m, r, parse) }

  /** How one round ends register, for any way to list free ids; None when it was lost and reloaded. */
  function RoundOutcome(m: NodeMap, r: Round, free: NodeMap -> seq<nat>): Option<Outcome> {
    if free(m) == [] then Some(AllTaken)
    else if r.won then Some(Registered(Drawn(free(m), r.draw)))
    else if r.reload.None? then Some(LoadFailed)
    else None
  }

  /** register from a given round on, for any way to list free ids and to reload: the outcome, and the
      node map in the round that decided it. */
  function Registering(m: NodeMap, rounds: seq<Round>, next: Reloader, free: NodeMap -> seq<nat>): (Outcome, NodeMap)
    decreases |rounds|
  {
    if rounds == [] then (LostRaces, m)
    else
      var out := RoundOutcome(m, rounds[0], free);
      if out.Some? then (out.value, m) else Registering(next(m, rounds[0]), rounds[1..], next, free)
  }

  /** A granted id is entered into the map at once, with the node's own parsed state; any other outcome
      leaves the map. */
  function Entered(out: Outcome, m: NodeMap, state: nat -> Value, parse: Parser): NodeMap {
    if !out.Registered? then m
    else WithOwn(m, ActorId.FormatUint(out.id), parse(state(out.id)))
  }

  function WithOwn(m: NodeMap, id: string, own: Option<Node>): NodeMap { if own.None? then m - {id} else m[id := own.value] }

  /** A granted id shows the node's own state in its map, and no other id changes. */
  lemma GrantedIsEntered(id: nat, m: NodeMap, state: nat -> Value, parse: Parser, other: string)
    ensures var m' := Entered(Registered(id), m, state, parse);
            At(m', other) == if other == ActorId.FormatUint(id) then parse(state(id)) else At(m, other)
  {
  }

  /** Every free id is one of the possible draws. */
  lemma EveryFreeIdIsDrawn(m: NodeMap, id: nat) returns (draw: nat)
    requires IsFree(m, id)
    ensures FreeIds(m) != [] && draw < |FreeIds(m)| && Drawn(FreeIds(m), draw) == id
  {
    FreeIdsAre(m);
    draw :| draw < |FreeIds(m)| && FreeIds(m)[draw] == id;
  }

  /** One round, from position i of the answers. */
  lemma RegisterRound(m: NodeMap, rounds: seq<Round>, i: nat, next: Reloader, free: NodeMap -> seq<nat>)
    requires i < |rounds|
    ensures var out := RoundOutcome(m, rounds[i], free);
            Registering(m, rounds[i..], next, free)
            == if out.Some? then (out.value, m) else Registering(next(m, rounds[i]), rounds[i + 1..], next, free)
  {
    assert rounds[i..][1..] == rounds[i + 1..];
  }

  lemma FormatHasNoSlash(n: nat)
    ensures '/' !in ActorId.FormatUint(n)
  {
  }

  /** The node map before round k: the reloads of the lost rounds applied in turn. */
  function MapBefore(m: NodeMap, rounds: seq<Round>, k: nat, next: Reloader): NodeMap
    requires k <= |rounds|
  {
    if k == 0 then m else next(MapBefore(m, rounds, k - 1, next), rounds[k - 1])
  }

  lemma {:induction false} MapBeforeTail(m: NodeMap, rounds: seq<Round>, k: nat, next: Reloader)
    requires 0 < k <= |rounds|
    ensures MapBefore(m, rounds, k, next) == MapBefore(next(m, rounds[0]), rounds[1..], k - 1, next)
    decreases k
  {
    if k == 1 {
      assert MapBefore(m, rounds, 0, next) == m;
    } else {
      MapBeforeTail(m, rounds, k - 1, next);
    }
  }

  /** Round k won, and every round before it lost and reloaded. */
  predicate WonAt(rounds: seq<Round>, k: nat) {
    k < |rounds| && rounds[k].won && forall j :: 0 <= j < k ==> !rounds[j].won && rounds[j].reload.Some?
  }

  lemma WonLater(rounds: seq<Round>, k: nat)
    requires rounds != [] && !rounds[0].won && rounds[0].reload.Some? && WonAt(rounds[1..], k)
    ensures WonAt(rounds, k + 1)
  {
    var rest := rounds[1..];
    forall j | 0 <= j < k + 1 ensures !rounds[j].won && rounds[j].reload.Some? { if j > 0 { assert rounds[j] == rest[j - 1]; } }
  }

  lemma {:induction false} RegisteredIdWasDrawn(m: NodeMap, rounds: seq<Round>, next: Reloader, free: NodeMap -> seq<nat>) returns (k: nat)
    requires Registering(m, rounds, next, free).0.Registered?
    ensures WonAt(rounds, k) && Registering(m, rounds, next, free).1 == MapBefore(m, rounds, k, next)
    ensures Registering(m, rounds, next, free).0.id in free(MapBefore(m, rounds, k, next))
    decreases |rounds|
  {
    if rounds[0].won {
      k := 0;
    } else {
      var j := RegisteredIdWasDrawn(next(m, rounds[0]), rounds[1..], next, free);
      WonLater(rounds, j);
      MapBeforeTail(m, rounds, j + 1, next);
      k := j + 1;
    }
  }

  /** What register promises about a granted id: some round k won after all earlier ones lost and
      reloaded, and the id was free in the map of that round. */
  lemma RegisteredIdWasFree(m: NodeMap, rounds: seq<Round>, parse: Parser) returns (k: nat)
    requires Registering(m, rounds, Reload(parse), FreeIds).0.Registered?
    ensures WonAt(rounds, k) && IsFree(MapBefore(m, rounds, k, Reload(parse)), Registering(m, rounds, Reload(parse), FreeIds).0.id)
  {
    k := RegisteredIdWasDrawn(m, rounds, Reload(parse), FreeIds);
    FreeIdsAre(MapBefore(m, rounds, k, Reload(parse)));
  }

  lemma {:induction false} AllTakenMeansNone(m: NodeMap, rounds: seq<Round>, next: Reloader, free: NodeMap -> seq<nat>)
    requires Registering(m, rounds, next, free).0.AllTaken?
    ensures free(Registering(m, rounds, next, free).1) == []
    decreases |rounds|
  {
    if free(m) != [] { AllTakenMeansNone(next(m, rounds[0]), rounds[1..], next, free); }
  }

  /** Exhaustion is reported only when every id of the range shows as taken. */
  lemma AllTakenMeansAll(m: NodeMap, rounds: seq<Round>, parse: Parser)
    requires Registering(m, rounds, Reload(parse), FreeIds).0.AllTaken?
    ensures forall id :: 1 <= id <= Snowflake.NODE_MAX ==> ActorId.FormatUint(id) in Registering(m, rounds, Reload(parse), FreeIds).1
  {
    var last := Registering(m, rounds, Reload(parse), FreeIds).1;
    AllTakenMeansNone(m, rounds, Reload(parse), FreeIds);
    FreeIdsAre(last);
    forall id | 1 <= id <= Snowflake.NODE_MAX ensures ActorId.FormatUint(id) in last { assert id !in FreeIds(last); }
  }

  // ------------------------------------------------------------------ the provider

  lemma AppliedNext(m: NodeMap, es: seq<Event>, i: nat, parse: Parser)
    requires i < |es|
    ensures AppliedAll(m, es[..i + 1], parse) == Applied(AppliedAll(m, es[..i], parse), es[i], parse)
  {
    assert es[..i + 1][..i] == es[..i];
  }

  /** The id of a member key: what follows the last slash, or the whole key. */
  method LastSegment(key: Key) returns (id: string)
    ensures id == Segment(key)
  {
    var i := LastIndexByte(key, '/');
    id := if i >= 0 then key[i + 1..] else key;
    assert i < 0 ==> key[0..] == key;
  }

  /** A node list holds exactly the nodes of the map, one entry per member. */
  ghost predicate ListsNodes(nodes: seq<Node>, m: NodeMap) {
    (forall n :: n in nodes <==> n in m.Values) && |nodes| == |m|
  }

  class Provider {
    const parse: Parser
    const prefix: string
    var nodeMap: NodeMap
    var version: nat
    var snapshot: Option<RouteCache.Snapshot>

    /** The snapshot belongs to the current version and lists exactly the current nodes. */
    ghost predicate Published()
      reads this
    {
      snapshot.Some? && snapshot.value.version == version && ListsNodes(snapshot.value.nodes, nodeMap)
    }

    /** At every moment: a snapshot is no newer than the version, and one of the current version lists
        the current nodes; before the first one there are no nodes. */
    ghost predicate Valid()
      reads this
    {
      if snapshot.Some? then snapshot.value.version <= version && (snapshot.value.version == version ==> Published())
      else nodeMap == map[]
    }

    constructor (parser: Parser, memberPrefix: string)
      ensures parse == parser && prefix == memberPrefix && version == 0 && snapshot == None && nodeMap == map[] && Valid()
    {
      parse, prefix, nodeMap, version, snapshot := parser, memberPrefix, map[], 0, None;
    }

    /** The locked part of start: version 1 with no nodes, published before anything can read it. */
    method Start()
      modifies this
      ensures version == 1 && nodeMap == map[] && Published()
    {
      version, nodeMap := 1, map[];
      Publish();
    }

    method ApplyMember(e: Event)
      modifies this`nodeMap, this`version
      ensures nodeMap == Applied(old(nodeMap), e, parse) && version == old(version) + 1
      ensures old(Valid()) && snapshot.Some? ==> Valid()
    {
      version := version + 1;
      var key := LastSegment(e.key);
      if e.Delete? {
        nodeMap := nodeMap - {key};
        return;
      }
      var a := parse(e.value);
      if a.None? {
        nodeMap := nodeMap - {key};
        return;
      }
      nodeMap := nodeMap[key := a.value];
    }

    method Publish()
      modifies this`snapshot
      ensures Published()
    {
      var nodes: seq<Node> := [];
      var todo := nodeMap;
      while todo != map[]
        invariant |nodes| + |todo| == |nodeMap|
        invariant forall k :: k in todo ==> k in nodeMap && todo[k] == nodeMap[k]
        invariant forall n :: n in nodes ==> n in nodeMap.Values
        invariant forall k :: k in nodeMap && k !in todo ==> nodeMap[k] in nodes
        decreases |todo|
      {
        var k :| k in todo;
        nodes := nodes + [todo[k]];
        assert (todo - {k}).Keys == todo.Keys - {k};
        assert |(todo - {k}).Keys| == |todo - {k}| && |todo.Keys| == |todo|;
        todo := todo - {k};
      }
      snapshot := Some(RouteCache.Snapshot(version, nodes));
    }

    method ParseWatch(e: Event)
      modifies this
      ensures nodeMap == Applied(old(nodeMap), e, parse) && version == old(version) + 1 && Published()
    {
      ApplyMember(e);
      Publish();
    }

    /** One answer of a Get, applied as a batch with a single publication. */
    method LoadMembers(kvs: seq<(Key, Value)>)
      modifies this
      ensures nodeMap == AppliedAll(old(nodeMap), Puts(kvs), parse) && version == old(version) + |kvs| && Published()
    {
      ghost var es := Puts(kvs);
      ghost var before := nodeMap;
      assert AppliedAll(before, es[..0], parse) == before;
      for i := 0 to |kvs|
        invariant nodeMap == AppliedAll(before, es[..i], parse) && version == old(version) + i
      {
        AppliedNext(before, es, i, parse);
        ApplyMember(Put(kvs[i].0, kvs[i].1));
      }
      assert es[..|kvs|] == es;
      Publish();
    }

    /** The watch loop over the changes it is delivered. */
    method WatchMembers(es: seq<Event>)
      modifies this
      ensures nodeMap == AppliedAll(old(nodeMap), es, parse) && version == old(version) + |es|
      ensures old(Published()) || es != [] ==> Published()
      ensures old(Valid()) ==> Valid()
    {
      ghost var before := nodeMap;
      assert AppliedAll(before, es[..0], parse) == before;
      for i := 0 to |es|
        invariant nodeMap == AppliedAll(before, es[..i], parse) && version == old(version) + i
        invariant old(Published()) || i > 0 ==> Published()
        invariant old(Valid()) ==> Valid()
      {
        AppliedNext(before, es, i, parse);
        ParseWatch(es[i]);
      }
      assert es[..|es|] == es;
    }

    method FreeNodeIds() returns (free: seq<nat>)
      ensures free == FreeIds(nodeMap)
    {
      ghost var ids := NodeIdRange();
      free := [];
      var id := 1;
      while id <= Snowflake.NODE_MAX
        invariant 1 <= id <= Snowflake.NODE_MAX + 1
        invariant free == NotTaken(nodeMap, ids[..id - 1])
      {
        assert ids[..id][..id - 1] == ids[..id - 1] && ids[..id][id - 1] == id;
        if ActorId.FormatUint(id) !in nodeMap { free := free + [id]; }
        id := id + 1;
      }
      assert ids[..Snowflake.NODE_MAX] == ids;
    }

    /** A won round: the node enters itself without waiting for its own watch event. */
    method EnterSelf(id: nat, state: nat -> Value)
      requires IsPrefixPath(prefix)
      modifies this
      ensures nodeMap == Entered(Registered(id), old(nodeMap), state, parse) && Published()
      ensures At(nodeMap, ActorId.FormatUint(id)) == parse(state(id))
    {
      FormatHasNoSlash(id);
      SegmentOfFlat(prefix, ActorId.FormatUint(id));
      ParseWatch(Put(MemberKey(prefix, id), state(id)));
    }

    /** A lost round: the member set is loaded again. */
    method LoseRound(r: Round)
      requires r.reload.Some?
      modifies this
      ensures nodeMap == Reload(parse)(old(nodeMap), r) && Published()
    {
      LoadMembers(r.reload.value);
    }

    /** One round: None to go on. */
    method TryRound(state: nat -> Value, r: Round) returns (out: Option<Outcome>)
      requires IsPrefixPath(prefix)
      modifies this
      ensures old(Valid()) ==> Valid()
      ensures out == RoundOutcome(old(nodeMap), r, FreeIds)
      ensures nodeMap == if out.None? then Reload(parse)(old(nodeMap), r) else Entered(out.value, old(nodeMap), state, parse)
      ensures out.Some? && out.value.Registered? ==> Published()
    {
      var free := FreeNodeIds();
      if |free| == 0 { return Some(AllTaken); }
      if r.won {
        var id := Drawn(free, r.draw);
        EnterSelf(id, state);
        return Some(Registered(id));
      }
      if r.reload.None? { return Some(LoadFailed); }
      LoseRound(r);
      out := None;
    }

    /** The retry loop of register against the store's answers: at most sixteen rounds. */
    method Register(state: nat -> Value, rounds: seq<Round>) returns (out: Outcome)
      requires |rounds| == REGISTER_ROUNDS && IsPrefixPath(prefix)
      modifies this
      ensures var (result, last) := Registering(old(nodeMap), rounds, Reload(parse), FreeIds);
              out == result && nodeMap == Entered(out, last, state, parse)
      ensures (out.Registered? ==> Published()) && (old(Valid()) ==> Valid())
      ensures out.Registered? ==> At(nodeMap, ActorId.FormatUint(out.id)) == parse(state(out.id))
    {
      ghost var start := nodeMap;
      for round := 0 to REGISTER_ROUNDS
        invariant Registering(nodeMap, rounds[round..], Reload(parse), FreeIds) == Registering(start, rounds, Reload(parse), FreeIds)
        invariant old(Valid()) ==> Valid()
      {
        RegisterRound(nodeMap, rounds, round, Reload(parse), FreeIds);
        var o := TryRound(state, rounds[round]);
        if o.Some? { return o.value; }
      }
      out := LostRaces;
    }

    /** What a caller may rely on when no other goroutine moves between the two loads: the pair is the one
        published last, which right after a publication is the current node set with the current version;
        before the first there is no node. The version is not ahead of the provider's, and when it is the
        provider's the list is the current node set. */
    method GetNodes() returns (nodes: seq<Node>, v: nat)
      requires Valid()
      ensures Published() ==> v == version && ListsNodes(nodes, nodeMap)
      ensures if snapshot.Some? then snapshot == Some(RouteCache.Snapshot(v, nodes)) else nodes == [] && v == version
      ensures v <= version && (v == version ==> ListsNodes(nodes, nodeMap))
    {
      if snapshot.Some? { return snapshot.value.nodes, snapshot.value.version; }
      return [], version;
    }
  }
}
