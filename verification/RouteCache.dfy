/**
  The versioned route cache: many systems, each with its provider and resolver, any number of
  shared references with a one-entry cache, and any number of concurrent `resolve` calls.

  Every atomic load and store, lock, unlock and stream-map operation is one step. The provider's
  mutations run under its own lock; a version bump and the publication that follows are separate
  steps, so the version hint may lead the published snapshot.
*/
module RouteCache {
  import opened Options
  import opened Rendezvous

  type Tid = nat

  /** One actor system; the identity stands for its resolver too. */
  datatype Sys = Sys(id: nat, addr: Bytes)

  datatype Target = Direct(address: Bytes) | Cluster(kind: Bytes, name: Bytes) | Unroutable

  datatype Ref = Ref(id: nat, target: Target, cached: bool)

  datatype Stream = Stream(sys: Sys, destination: Bytes)
  datatype Route = Route(address: Bytes, stream: Option<Stream>)

  /** What a node list means to routing: which address offers which kind. */
  datatype Offer = Offer(kind: Bytes, address: Bytes)
  type View = set<Offer>

  function Offers(nodes: seq<Node>): View {
    set n, k | n in nodes && k in n.kinds && n.address != [] :: Offer(k, n.address)
  }

  function Hosts(view: View, kind: Bytes): set<Bytes> {
    set o | o in view && o.kind == kind && o.address != [] :: o.address
  }

  lemma HostsOfOffers(nodes: seq<Node>, kind: Bytes)
    ensures Hosts(Offers(nodes), kind) == Eligible(nodes, kind)
  {
    forall n | n in nodes && kind in n.kinds && n.address != [] ensures n.address in Hosts(Offers(nodes), kind) {
      assert Offer(kind, n.address) in Offers(nodes);
    }
  }

  function StreamTo(sys: Sys, address: Bytes): Option<Stream> {
    if address == [] || address == sys.addr then None else Some(Stream(sys, address))
  }

  /** The uncached route: the owner for the view, and the local stream towards it. */
  ghost function RouteOn(sys: Sys, target: Target, view: View): Route {
    match target
    case Direct(a) => Route(a, if a == sys.addr then None else Some(Stream(sys, a)))
    case Cluster(kind, name) =>
      var owner := OwnerOf(Hosts(view, kind), name);
      Route(owner, StreamTo(sys, owner))
    case Unroutable => Route([], None)
  }

  // ------------------------------------------------------------------ state

  datatype Snapshot = Snapshot(version: nat, nodes: seq<Node>)
  datatype Generation = Generation(version: nat, nodes: seq<Node>)
  datatype Entry = Entry(sys: Sys, version: nat, route: Route)

  /** `pubs` lists the snapshots published so far, the last being the current pointer; `gens`
      likewise the generations stored. `truth[v]` is the view the provider held at version v. */
  datatype SysState = SysState(
    version: nat, truth: seq<View>, pubs: seq<Snapshot>,
    gens: seq<Generation>, mu: Option<Tid>, streams: map<(nat, Bytes), Stream>)

  datatype RefreshPC =
    | ReadHint
    | LoadGen(hint: nat)
    | WaitMu(hint: nat)
    | Recheck(hint: nat)
    | LoadSnap(cur: Option<nat>)
    | LoadVersion(cur: Option<nat>)
    | StoreGen(cur: Option<nat>, nodes: seq<Node>, version: nat)
    | UnlockMu(made: nat)

  datatype CachePC =
    | LoadEntry
    | WaitCache
    | RecheckEntry
    | StreamLoad(address: Bytes)
    | StreamStore(address: Bytes)
    | CheckEntry(route: Route)
    | PutEntry(route: Route)

  datatype PC =
    | Refresh(r: RefreshPC)
    | Cache(gen: nat, c: CachePC)
    | Release(route: Route)
    | Done(route: Route)

  /** `floor` is history: how many snapshots had been published when the call began. */
  datatype Call = Call(sys: Sys, ref: Ref, floor: nat, pc: PC)

  datatype State = State(
    systems: map<Sys, SysState>, entries: map<Ref, Entry>, locks: map<Ref, Tid>, calls: map<Tid, Call>)

  /** The cells that one call touches: its system, its reference's entry and entry lock. */
  datatype Cells = Cells(ss: SysState, entry: Option<Entry>, lock: Option<Tid>)
  datatype Effect = Effect(cells: Cells, pc: PC)

  function Last<T>(s: seq<T>): Option<nat> { if s == [] then None else Some(|s| - 1) }

  // ------------------------------------------------------------------ currentGeneration

  predicate Fresh(ss: SysState, cur: Option<nat>, version: nat) {
    cur.Some? && cur.value < |ss.gens| && ss.gens[cur.value].version >= version
  }

  predicate RefreshEnabled(ss: SysState, r: RefreshPC) { r.WaitMu? ==> ss.mu.None? }

  function RefreshStep(ss: SysState, t: Tid, r: RefreshPC): (SysState, PC) {
    match r
    case ReadHint => (ss, Refresh(LoadGen(ss.version)))
    case LoadGen(hint) =>
      var cur := Last(ss.gens);
      if Fresh(ss, cur, hint) then (ss, Cache(cur.value, LoadEntry)) else (ss, Refresh(WaitMu(hint)))
    case WaitMu(hint) => (ss.(mu := Some(t)), Refresh(Recheck(hint)))
    case Recheck(hint) =>
      var cur := Last(ss.gens);
      if Fresh(ss, cur, hint) then (ss, Refresh(UnlockMu(cur.value))) else (ss, Refresh(LoadSnap(cur)))
    case LoadSnap(cur) =>
      if ss.pubs != [] then
        var snap := ss.pubs[|ss.pubs| - 1];
        (ss, Refresh(StoreGen(cur, snap.nodes, snap.version)))
      else (ss, Refresh(LoadVersion(cur)))
    case LoadVersion(cur) => (ss, Refresh(StoreGen(cur, [], ss.version)))
    case StoreGen(cur, nodes, version) =>
      if Fresh(ss, cur, version) then (ss, Refresh(UnlockMu(cur.value)))
      else (ss.(gens := ss.gens + [Generation(version, nodes)]), Refresh(UnlockMu(|ss.gens|)))
    case UnlockMu(gen) => (ss.(mu := None), Cache(gen, LoadEntry))
  }

  // ------------------------------------------------------------------ resolve and resolveMiss

  /** The entry answers a call of this system for this version. */
  predicate Hit(e: Option<Entry>, sys: Sys, version: nat) {
    e.Some? && e.value.sys == sys && e.value.version == version
  }

  predicate CacheEnabled(lock: Option<Tid>, c: CachePC) { c.WaitCache? ==> lock.None? }

  /** After a route is known: store it when the reference has a cache, and return. */
  function WithRoute(ref: Ref, gen: nat, route: Route): PC {
    if ref.cached then Cache(gen, CheckEntry(route)) else Done(route)
  }

  /** A miss: choose the address, then look up its stream unless it is local or missing. */
  ghost function Miss(ss: SysState, sys: Sys, ref: Ref, gen: nat): PC
    requires gen < |ss.gens|
  {
    match ref.target
    case Unroutable => if ref.cached then Release(Route([], None)) else Done(Route([], None))
    case Direct(a) =>
      if a == sys.addr then WithRoute(ref, gen, Route(a, None)) else Cache(gen, StreamLoad(a))
    case Cluster(kind, name) =>
      var owner := OwnerOf(Eligible(ss.gens[gen].nodes, kind), name);
      if owner == [] || owner == sys.addr then WithRoute(ref, gen, Route(owner, None)) else Cache(gen, StreamLoad(owner))
  }

  ghost function CacheStep(x: Cells, t: Tid, sys: Sys, ref: Ref, gen: nat, c: CachePC): Effect
    requires gen < |x.ss.gens|
  {
    var version := x.ss.gens[gen].version;
    match c
    case LoadEntry =>
      if !ref.cached then Effect(x, Miss(x.ss, sys, ref, gen))
      else if Hit(x.entry, sys, version) then Effect(x, Done(x.entry.value.route))
      else Effect(x, Cache(gen, WaitCache))
    case WaitCache => Effect(x.(lock := Some(t)), Cache(gen, RecheckEntry))
    case RecheckEntry =>
      Effect(x, if Hit(x.entry, sys, version) then Release(x.entry.value.route) else Miss(x.ss, sys, ref, gen))
    case StreamLoad(a) =>
      if (gen, a) in x.ss.streams then Effect(x, WithRoute(ref, gen, Route(a, Some(x.ss.streams[(gen, a)]))))
      else Effect(x, Cache(gen, StreamStore(a)))
    case StreamStore(a) =>
      var streams := if (gen, a) in x.ss.streams then x.ss.streams else x.ss.streams[(gen, a) := Stream(sys, a)];
      Effect(x.(ss := x.ss.(streams := streams)), WithRoute(ref, gen, Route(a, Some(streams[(gen, a)]))))
    case CheckEntry(route) =>
      if x.entry.None? || x.entry.value.sys != sys || x.entry.value.version <= version
      then Effect(x, Cache(gen, PutEntry(route))) else Effect(x, Release(route))
    case PutEntry(route) => Effect(x.(entry := Some(Entry(sys, version, route))), Release(route))
  }

  predicate Enabled(x: Cells, pc: PC) {
    match pc
    case Refresh(r) => RefreshEnabled(x.ss, r)
    case Cache(gen, c) => gen < |x.ss.gens| && CacheEnabled(x.lock, c)
    case Release(_) => true
    case Done(_) => false
  }

  ghost function Advance(x: Cells, t: Tid, call: Call): Effect
    requires Enabled(x, call.pc)
  {
    match call.pc
    case Refresh(r) => var (ss, pc) := RefreshStep(x.ss, t, r); Effect(x.(ss := ss), pc)
    case Cache(gen, c) => CacheStep(x, t, call.sys, call.ref, gen, c)
    case Release(route) => Effect(x.(lock := None), Done(route))
  }

  /** A direct reference to the own address is answered without a generation. */
  function FirstPC(sys: Sys, ref: Ref): PC {
    if ref.target.Direct? && ref.target.address == sys.addr then Done(Route(sys.addr, None)) else Refresh(ReadHint)
  }

  // ------------------------------------------------------------------ runs

  datatype Action =
    | Start(sys: Sys)
    | Bump(sys: Sys, view: View)
    | Publish(sys: Sys, nodes: seq<Node>)
    | Begin(t: Tid, sys: Sys, ref: Ref)
    | Move(t: Tid)

  predicate ProviderEnabled(ss: SysState, a: Action) {
    match a
    case Start(_) => ss.version == 0
    // the first publication belongs to start, under the same lock
    case Bump(_, _) => ss.pubs != []
    case Publish(_, nodes) => ss.version >= 1 && |ss.truth| == ss.version + 1 && Offers(nodes) == ss.truth[ss.version]
    case _ => false
  }

  function ProviderStep(ss: SysState, a: Action): SysState
    requires ProviderEnabled(ss, a)
  {
    match a
    case Start(_) => ss.(version := 1, truth := ss.truth + [{}])
    case Bump(_, view) => ss.(version := ss.version + 1, truth := ss.truth + [view])
    case Publish(_, nodes) => ss.(pubs := ss.pubs + [Snapshot(ss.version, nodes)])
  }

  function At<K, V>(m: map<K, V>, k: K): Option<V> { if k in m then Some(m[k]) else None }
  function With<K, V>(m: map<K, V>, k: K, v: Option<V>): map<K, V> { if v.Some? then m[k := v.value] else m - {k} }

  function CellsOf(s: State, call: Call): Cells
    requires call.sys in s.systems
  {
    Cells(s.systems[call.sys], At(s.entries, call.ref), At(s.locks, call.ref))
  }

  predicate CanDo(s: State, a: Action) {
    match a
    case Begin(t, sys, _) => t !in s.calls && sys in s.systems
    case Move(t) =>
      && t in s.calls && s.calls[t].sys in s.systems
      && Enabled(CellsOf(s, s.calls[t]), s.calls[t].pc)
    case _ => a.sys in s.systems && ProviderEnabled(s.systems[a.sys], a)
  }

  /** The state with the cells and the program counter of call t replaced. */
  function Put(s: State, t: Tid, x: Cells, pc: PC): State
    requires t in s.calls
  {
    var call := s.calls[t];
    State(s.systems[call.sys := x.ss], With(s.entries, call.ref, x.entry), With(s.locks, call.ref, x.lock),
          s.calls[t := call.(pc := pc)])
  }

  ghost function MoveCall(s: State, t: Tid): State
    requires CanDo(s, Move(t))
  {
    var e := Advance(CellsOf(s, s.calls[t]), t, s.calls[t]);
    Put(s, t, e.cells, e.pc)
  }

  ghost function Do(s: State, a: Action): State
    requires CanDo(s, a)
  {
    match a
    case Begin(t, sys, ref) => s.(calls := s.calls[t := Call(sys, ref, |s.systems[sys].pubs|, FirstPC(sys, ref))])
    case Move(t) => MoveCall(s, t)
    case _ => s.(systems := s.systems[a.sys := ProviderStep(s.systems[a.sys], a)])
  }

  predicate Initial(s: State) {
    && (forall sys :: sys in s.systems ==> s.systems[sys] == SysState(0, [{}], [], [], None, map[]))
    && s.entries == map[] && s.locks == map[] && s.calls == map[]
  }

  /** The states of a run are `states`; the step from states[i] is actions[i]. */
  datatype Run = Run(states: seq<State>, actions: seq<Action>)

  ghost predicate StepOk(run: Run, i: nat)
    requires i + 1 < |run.states| && i < |run.actions|
  {
    CanDo(run.states[i], run.actions[i]) && run.states[i + 1] == Do(run.states[i], run.actions[i])
  }

  ghost predicate IsRun(run: Run) {
    && |run.states| == |run.actions| + 1 && Initial(run.states[0])
    && forall i :: 0 <= i < |run.actions| ==> StepOk(run, i)
  }
}
