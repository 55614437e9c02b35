/** In every run a route is the uncached calculation on one stored generation, no older than the call. */
module RouteCacheSafety {
  import opened Options
  import opened Rendezvous
  import opened RouteCache
  import opened RouteCacheOrder

  // ------------------------------------------------------------------ invariants

  ghost predicate ProviderOk(ss: SysState) {
    && |ss.truth| == ss.version + 1 && ss.truth[0] == {}
    && (ss.version >= 1 ==> ss.truth[1] == {}) && (ss.pubs == [] ==> ss.version <= 1) && (ss.pubs != [] ==> ss.pubs[0].version == 1)
    && (forall k :: 0 <= k < |ss.pubs| ==>
          1 <= ss.pubs[k].version <= ss.version && Offers(ss.pubs[k].nodes) == ss.truth[ss.pubs[k].version])
    && (forall i, k :: 0 <= i < k < |ss.pubs| ==> ss.pubs[i].version <= ss.pubs[k].version)
  }

  /** No generation claims a version that the provider has not reached. */
  predicate GensOk(ss: SysState) { forall g :: 0 <= g < |ss.gens| ==> ss.gens[g].version <= ss.version }

  ghost predicate SysOk(sys: Sys, ss: SysState) { ProviderOk(ss) && GensOk(ss) && SysOrder(sys, ss) }

  /** At least as new as the snapshot that was current when the call began. */
  ghost predicate NotOlder(ss: SysState, floor: nat, version: nat) {
    0 < floor <= |ss.pubs| ==> ss.pubs[floor - 1].version <= version
  }

  /** What a call should answer. */
  ghost predicate Answer(ss: SysState, call: Call, route: Route) {
    || (exists j :: call.floor - 1 <= j < |ss.pubs| && 0 <= j
          && route == RouteOn(call.sys, call.ref.target, Offers(ss.pubs[j].nodes)))
    || (call.floor == 0 && route == RouteOn(call.sys, call.ref.target, {}))
  }

  /** The uncached route on generation g, which is no older than the call. */
  ghost predicate FromGeneration(ss: SysState, floor: nat, sys: Sys, target: Target, route: Route, g: nat)
    requires g < |ss.gens|
  {
    NotOlder(ss, floor, ss.gens[g].version) && route == RouteOn(sys, target, Offers(ss.gens[g].nodes))
  }

  ghost predicate Resolved(ss: SysState, call: Call, route: Route) {
    Answer(ss, call, route) || exists g :: 0 <= g < |ss.gens| && FromGeneration(ss, call.floor, call.sys, call.ref.target, route, g)
  }

  ghost predicate RefreshOk(ss: SysState, floor: nat, r: RefreshPC) {
    match r
    case ReadHint => true
    case LoadGen(hint) => hint <= ss.version && NotOlder(ss, floor, hint)
    case WaitMu(hint) => hint <= ss.version && NotOlder(ss, floor, hint)
    case Recheck(hint) => hint <= ss.version && NotOlder(ss, floor, hint)
    case LoadSnap(cur) => cur.Some? ==> cur.value < |ss.gens|
    case LoadVersion(cur) => (cur.Some? ==> cur.value < |ss.gens|) && floor == 0 && !Fresh(ss, cur, 2)
    case StoreGen(_, _, version) => version <= ss.version && NotOlder(ss, floor, version)
    case UnlockMu(gen) => gen < |ss.gens| && NotOlder(ss, floor, ss.gens[gen].version)
  }

  ghost predicate CacheOk(ss: SysState, call: Call, gen: nat, c: CachePC) {
    && gen < |ss.gens| && NotOlder(ss, call.floor, ss.gens[gen].version)
    && var right := RouteOn(call.sys, call.ref.target, Offers(ss.gens[gen].nodes));
       match c
       case StreamLoad(a) => right == Route(a, Some(Stream(call.sys, a)))
       case StreamStore(a) => right == Route(a, Some(Stream(call.sys, a)))
       case CheckEntry(route) => route == right
       case PutEntry(route) => route == right
       case _ => true
  }

  ghost predicate CallOk(ss: SysState, call: Call) {
    && call.floor <= |ss.pubs|
    && match call.pc
       case Refresh(r) => RefreshOk(ss, call.floor, r)
       case Cache(gen, c) => CacheOk(ss, call, gen, c)
       case Release(route) => Resolved(ss, call, route)
       case Done(route) => Resolved(ss, call, route)
  }

  ghost predicate EntryOk(s: State, ref: Ref, e: Entry) {
    && e.sys in s.systems
    && EntryRight(s.systems[e.sys], ref, e)
  }

  /** The entry holds the uncached route on the generation of its version. */
  ghost predicate EntryRight(ss: SysState, ref: Ref, e: Entry) {
    exists g :: 0 <= g < |ss.gens| && EntryFrom(ss.gens[g], ref, e)
  }

  ghost predicate EntryFrom(gen: Generation, ref: Ref, e: Entry) {
    gen.version == e.version && e.route == RouteOn(e.sys, ref.target, Offers(gen.nodes))
  }

  /** On top of the order: every entry and every answer is the route on a generation. */
  ghost predicate Inv(s: State) {
    && OrderInv(s)
    && (forall sys :: sys in s.systems ==> SysOk(sys, s.systems[sys]))
    && (forall ref :: ref in s.entries ==> EntryOk(s, ref, s.entries[ref]))
    && (forall t :: t in s.calls ==> s.calls[t].sys in s.systems && CallOk(s.systems[s.calls[t].sys], s.calls[t]))
  }

  // ------------------------------------------------------------------ one system's cells only grow

  ghost predicate Grows(a: SysState, b: SysState) {
    && a.version <= b.version && IsPrefix(a.truth, b.truth) && IsPrefix(a.pubs, b.pubs) && IsPrefix(a.gens, b.gens)
    && |b.pubs| <= |a.pubs| + 1
    && (|b.pubs| > |a.pubs| ==> b.version == a.version && b.pubs[|a.pubs|].version == b.version)
  }

  lemma AnswerGrows(a: SysState, b: SysState, call: Call, route: Route)
    requires Answer(a, call, route) && Grows(a, b)
    ensures Answer(b, call, route)
  {
    if j :| call.floor - 1 <= j < |a.pubs| && 0 <= j && route == RouteOn(call.sys, call.ref.target, Offers(a.pubs[j].nodes)) {
      assert b.pubs[j] == a.pubs[j];
    }
  }

  lemma ResolvedGrows(a: SysState, b: SysState, call: Call, route: Route)
    requires Resolved(a, call, route) && Grows(a, b) && call.floor <= |a.pubs|
    ensures Resolved(b, call, route)
  {
    if Answer(a, call, route) {
      AnswerGrows(a, b, call, route);
    } else {
      var g :| 0 <= g < |a.gens| && FromGeneration(a, call.floor, call.sys, call.ref.target, route, g);
      assert b.gens[g] == a.gens[g] && (0 < call.floor ==> b.pubs[call.floor - 1] == a.pubs[call.floor - 1]);
      assert FromGeneration(b, call.floor, call.sys, call.ref.target, route, g);
    }
  }

  /** A step of another goroutine or of the provider keeps what a call knows. */
  lemma CallGrows(a: SysState, b: SysState, call: Call)
    requires CallOk(a, call) && Grows(a, b)
    ensures CallOk(b, call)
  {
    assert 0 < call.floor ==> b.pubs[call.floor - 1] == a.pubs[call.floor - 1];
    match call.pc
    case Refresh(r) =>
      if r.LoadVersion? && r.cur.Some? { assert b.gens[r.cur.value] == a.gens[r.cur.value]; }
      if r.UnlockMu? { assert b.gens[r.made] == a.gens[r.made]; }
    case Cache(gen, c) => assert b.gens[gen] == a.gens[gen];
    case Release(route) => ResolvedGrows(a, b, call, route);
    case Done(route) => ResolvedGrows(a, b, call, route);
  }

  // ------------------------------------------------------------------ steps of one system

  lemma ProviderKeeps(sys: Sys, ss: SysState, a: Action)
    requires SysOk(sys, ss) && ProviderEnabled(ss, a)
    ensures var b := ProviderStep(ss, a); SysOk(sys, b) && Grows(ss, b) && b.gens == ss.gens && b.mu == ss.mu
  {
    var b := ProviderStep(ss, a);
    assert ProviderOk(b) && Grows(ss, b);
  }

  lemma RefreshSys(sys: Sys, ss: SysState, t: Tid, call: Call)
    requires call.pc.Refresh? && SysOk(sys, ss) && CallOk(ss, call) && CallOrder(ss, call)
    ensures var b := RefreshStep(ss, t, call.pc.r).0; SysOk(sys, b) && Grows(ss, b)
  {
    RefreshKeepsOrder(sys, ss, t, call);
    RefreshGens(ss, t, call.pc.r);
  }

  /** A refresh leaves the provider alone and adds at most the generation it has read. */
  lemma RefreshGens(ss: SysState, t: Tid, r: RefreshPC)
    ensures var b := RefreshStep(ss, t, r).0;
            && b == ss.(gens := b.gens, mu := b.mu)
            && (b.gens == ss.gens || (r.StoreGen? && b.gens == ss.gens + [Generation(r.version, r.nodes)]))
  {
  }

  lemma RefreshLook(sys: Sys, ss: SysState, t: Tid, call: Call)
    requires call.pc.Refresh? && SysOk(sys, ss) && CallOk(ss, call)
    requires call.pc.r.ReadHint? || call.pc.r.LoadGen? || call.pc.r.WaitMu? || call.pc.r.Recheck?
    ensures var (b, pc) := RefreshStep(ss, t, call.pc.r); CallOk(b, call.(pc := pc))
  {
  }

  lemma RefreshCall(sys: Sys, ss: SysState, t: Tid, call: Call)
    requires call.pc.Refresh? && SysOk(sys, ss) && CallOk(ss, call)
    ensures var (b, pc) := RefreshStep(ss, t, call.pc.r); CallOk(b, call.(pc := pc))
  {
    match call.pc.r
    case LoadSnap(_) =>
    case LoadVersion(_) =>
    case StoreGen(_, _, _) =>
    case UnlockMu(_) =>
    case _ => RefreshLook(sys, ss, t, call);
  }

  /** A step of the cache part changes nothing of the system but the stream map. */
  lemma CacheStreams(x: Cells, t: Tid, sys: Sys, ref: Ref, gen: nat, c: CachePC)
    requires gen < |x.ss.gens|
    ensures var b := CacheStep(x, t, sys, ref, gen, c).cells.ss;
            b == x.ss || (c.StreamStore? && b == x.ss.(streams := x.ss.streams[(gen, c.address) := Stream(sys, c.address)]))
  {
  }

  lemma CacheSys(x: Cells, t: Tid, call: Call)
    requires call.pc.Cache? && SysOk(call.sys, x.ss) && call.pc.gen < |x.ss.gens|
    ensures var b := CacheStep(x, t, call.sys, call.ref, call.pc.gen, call.pc.c).cells.ss;
            SysOk(call.sys, b) && Grows(x.ss, b) && b == x.ss.(streams := b.streams)
  {
    CacheStreams(x, t, call.sys, call.ref, call.pc.gen, call.pc.c);
  }

  /** The route on the call's own generation is an answer. */
  lemma OwnGeneration(ss: SysState, call: Call)
    requires call.pc.Cache? && CallOk(ss, call)
    ensures Resolved(ss, call, RouteOn(call.sys, call.ref.target, Offers(ss.gens[call.pc.gen].nodes)))
  {
    var route := RouteOn(call.sys, call.ref.target, Offers(ss.gens[call.pc.gen].nodes));
    assert FromGeneration(ss, call.floor, call.sys, call.ref.target, route, call.pc.gen);
  }

  /** What a miss computes from the generation is the uncached route. */
  lemma MissCall(ss: SysState, call: Call)
    requires call.pc.Cache? && SysOk(call.sys, ss) && CallOk(ss, call)
    ensures CallOk(ss, call.(pc := Miss(ss, call.sys, call.ref, call.pc.gen)))
  {
    var gen := ss.gens[call.pc.gen];
    OwnGeneration(ss, call);
    if call.ref.target.Cluster? { HostsOfOffers(gen.nodes, call.ref.target.kind); }
  }

  /** Versions ascend, so an entry that hits is the route on the call's own generation. */
  lemma HitCall(ss: SysState, entry: Option<Entry>, call: Call)
    requires call.pc.Cache? && SysOk(call.sys, ss) && CallOk(ss, call)
    requires Hit(entry, call.sys, ss.gens[call.pc.gen].version) && EntryRight(ss, call.ref, entry.value)
    ensures Resolved(ss, call, entry.value.route)
  {
    var g :| 0 <= g < |ss.gens| && EntryFrom(ss.gens[g], call.ref, entry.value);
    assert g == call.pc.gen;
    OwnGeneration(ss, call);
  }

  lemma StreamCall(x: Cells, t: Tid, call: Call)
    requires call.pc.Cache? && SysOk(call.sys, x.ss) && CallOk(x.ss, call)
    requires call.pc.c.StreamLoad? || call.pc.c.StreamStore?
    ensures var e := CacheStep(x, t, call.sys, call.ref, call.pc.gen, call.pc.c); CallOk(e.cells.ss, call.(pc := e.pc))
  {
    var b := CacheStep(x, t, call.sys, call.ref, call.pc.gen, call.pc.c).cells.ss;
    CacheSys(x, t, call);
    CallGrows(x.ss, b, call);
    OwnGeneration(b, call);
  }

  lemma StoreCall(x: Cells, t: Tid, call: Call)
    requires call.pc.Cache? && SysOk(call.sys, x.ss) && CallOk(x.ss, call)
    requires call.pc.c.CheckEntry? || call.pc.c.PutEntry? || call.pc.c.WaitCache?
    ensures var e := CacheStep(x, t, call.sys, call.ref, call.pc.gen, call.pc.c); CallOk(e.cells.ss, call.(pc := e.pc))
  {
    OwnGeneration(x.ss, call);
  }

  lemma LookCall(x: Cells, t: Tid, call: Call)
    requires call.pc.Cache? && SysOk(call.sys, x.ss) && CallOk(x.ss, call)
    requires call.pc.c.LoadEntry? || call.pc.c.RecheckEntry?
    requires x.entry.Some? && x.entry.value.sys == call.sys ==> EntryRight(x.ss, call.ref, x.entry.value)
    ensures var e := CacheStep(x, t, call.sys, call.ref, call.pc.gen, call.pc.c); CallOk(e.cells.ss, call.(pc := e.pc))
  {
    MissCall(x.ss, call);
    if Hit(x.entry, call.sys, x.ss.gens[call.pc.gen].version) { HitCall(x.ss, x.entry, call); }
  }

  /** One step of a call keeps its system in order and the call's own knowledge right. */
  lemma AdvanceCall(x: Cells, t: Tid, call: Call)
    requires Enabled(x, call.pc) && SysOk(call.sys, x.ss) && CallOk(x.ss, call) && CallOrder(x.ss, call)
    requires x.entry.Some? && x.entry.value.sys == call.sys ==> EntryRight(x.ss, call.ref, x.entry.value)
    ensures var e := Advance(x, t, call);
            SysOk(call.sys, e.cells.ss) && Grows(x.ss, e.cells.ss) && CallOk(e.cells.ss, call.(pc := e.pc))
  {
    match call.pc
    case Refresh(r) => RefreshSys(call.sys, x.ss, t, call); RefreshCall(call.sys, x.ss, t, call);
    case Cache(gen, c) =>
      CacheSys(x, t, call);
      if c.StreamLoad? || c.StreamStore? { StreamCall(x, t, call); }
      else if c.LoadEntry? || c.RecheckEntry? { LookCall(x, t, call); }
      else { StoreCall(x, t, call); }
    case Release(route) =>
  }

  /** What is written into the shared entry is the route on the generation of its version. */
  lemma AdvanceEntryRight(x: Cells, t: Tid, call: Call)
    requires Enabled(x, call.pc) && SysOk(call.sys, x.ss) && CallOk(x.ss, call)
    ensures var y := Advance(x, t, call).cells;
            y.entry != x.entry ==> y.entry.Some? && y.entry.value.sys == call.sys && EntryRight(x.ss, call.ref, y.entry.value)
  {
    if call.pc.Cache? && call.pc.c.PutEntry? {
      assert EntryFrom(x.ss.gens[call.pc.gen], call.ref, Advance(x, t, call).cells.entry.value);
    }
  }

  // ------------------------------------------------------------------ steps of the whole

  lemma EntryGrows(a: SysState, b: SysState, ref: Ref, e: Entry)
    requires EntryRight(a, ref, e) && IsPrefix(a.gens, b.gens)
    ensures EntryRight(b, ref, e)
  {
    var g :| 0 <= g < |a.gens| && EntryFrom(a.gens[g], ref, e);
    assert b.gens[g] == a.gens[g];
  }

  lemma ProviderEntries(s: State, a: Action, ref: Ref)
    requires Inv(s) && CanDo(s, a) && !a.Begin? && !a.Move? && ref in s.entries
    ensures EntryOk(Do(s, a), ref, s.entries[ref])
  {
    assert EntryOk(s, ref, s.entries[ref]);
    var sys := s.entries[ref].sys;
    GensStep(s, a, sys);
    EntryGrows(s.systems[sys], Do(s, a).systems[sys], ref, s.entries[ref]);
  }

  lemma ProviderCalls(s: State, a: Action, t: Tid)
    requires Inv(s) && CanDo(s, a) && !a.Begin? && !a.Move? && t in s.calls
    ensures CallOk(Do(s, a).systems[s.calls[t].sys], s.calls[t])
  {
    var call := s.calls[t];
    var ss := s.systems[call.sys];
    assert CallOk(ss, call) && SysOk(call.sys, ss);
    if call.sys == a.sys {
      ProviderKeeps(a.sys, ss, a);
      CallGrows(ss, ProviderStep(ss, a), call);
    }
  }

  lemma ProviderSystems(s: State, a: Action, sys: Sys)
    requires Inv(s) && CanDo(s, a) && !a.Begin? && !a.Move? && sys in s.systems
    ensures SysOk(sys, Do(s, a).systems[sys])
  {
    assert SysOk(sys, s.systems[sys]);
    if sys == a.sys { ProviderKeeps(sys, s.systems[sys], a); }
  }

  lemma ProviderStepKeepsInv(s: State, a: Action)
    requires Inv(s) && CanDo(s, a) && !a.Begin? && !a.Move?
    ensures Inv(Do(s, a))
  {
    var s' := Do(s, a);
    assert OrderInv(s') by { StepKeepsOrder(s, a); }
    forall sys | sys in s'.systems ensures SysOk(sys, s'.systems[sys]) { ProviderSystems(s, a, sys); }
    forall ref | ref in s'.entries ensures EntryOk(s', ref, s'.entries[ref]) { ProviderEntries(s, a, ref); }
    forall t | t in s'.calls ensures CallOk(s'.systems[s'.calls[t].sys], s'.calls[t]) { ProviderCalls(s, a, t); }
  }

  lemma BeginOk(ss: SysState, sys: Sys, ref: Ref)
    ensures CallOk(ss, Call(sys, ref, |ss.pubs|, FirstPC(sys, ref)))
  {
    var call := Call(sys, ref, |ss.pubs|, FirstPC(sys, ref));
    if call.pc.Done? {
      var view := if ss.pubs == [] then {} else Offers(ss.pubs[|ss.pubs| - 1].nodes);
      assert call.pc.route == RouteOn(sys, ref.target, view);
    }
  }

  lemma BeginKeepsInv(s: State, t: Tid, sys: Sys, ref: Ref)
    requires Inv(s) && CanDo(s, Begin(t, sys, ref))
    ensures Inv(Do(s, Begin(t, sys, ref)))
  {
    var s' := Do(s, Begin(t, sys, ref));
    assert OrderInv(s') by { StepKeepsOrder(s, Begin(t, sys, ref)); }
    forall r | r in s'.entries ensures EntryOk(s', r, s'.entries[r]) { assert EntryOk(s, r, s.entries[r]); }
    BeginOk(s.systems[sys], sys, ref);
  }

  lemma OwnStep(s: State, t: Tid)
    requires Inv(s) && CanDo(s, Move(t))
    ensures var call := s.calls[t]; var x := CellsOf(s, call); var e := Advance(x, t, call); var y := e.cells;
            && SysOk(call.sys, y.ss) && Grows(x.ss, y.ss) && CallOk(y.ss, call.(pc := e.pc))
            && (y.entry != x.entry ==> y.entry.Some? && y.entry.value.sys == call.sys && EntryRight(x.ss, call.ref, y.entry.value))
  {
    var call := s.calls[t];
    var x := CellsOf(s, call);
    assert x.entry.Some? ==> EntryOk(s, call.ref, x.entry.value);
    assert CallOk(x.ss, call) && SysOk(call.sys, x.ss) && Orderly(x, t, call);
    AdvanceCall(x, t, call);
    AdvanceEntryRight(x, t, call);
  }

  lemma OtherStep(s: State, t: Tid, u: Tid)
    requires Inv(s) && CanDo(s, Move(t))
    requires u in s.calls && u != t
    ensures var s' := MoveCall(s, t); var other := s.calls[u];
            other.sys in s'.systems && CallOk(s'.systems[other.sys], other)
  {
    var call, other := s.calls[t], s.calls[u];
    assert CallOk(s.systems[other.sys], other) && SysOk(other.sys, s.systems[other.sys]);
    if other.sys == call.sys {
      OwnStep(s, t);
      CallGrows(s.systems[other.sys], Advance(CellsOf(s, call), t, call).cells.ss, other);
    }
  }

  /** The entry of a reference is written by the moving call, or stays. */
  lemma EntryMovedRight(s: State, t: Tid, ref: Ref)
    requires Inv(s) && CanDo(s, Move(t)) && ref in MoveCall(s, t).entries
    ensures EntryOk(s, ref, MoveCall(s, t).entries[ref])
  {
    var call := s.calls[t];
    var x := CellsOf(s, call);
    var e := Advance(x, t, call);
    OwnStep(s, t);
    PutEntries(s, t, e.cells, e.pc, ref);
    if !(ref == call.ref && e.cells.entry != x.entry) { assert EntryOk(s, ref, s.entries[ref]); }
  }

  lemma EntriesStep(s: State, t: Tid, ref: Ref)
    requires Inv(s) && CanDo(s, Move(t)) && ref in MoveCall(s, t).entries
    ensures EntryOk(MoveCall(s, t), ref, MoveCall(s, t).entries[ref])
  {
    var f := MoveCall(s, t).entries[ref];
    EntryMovedRight(s, t, ref);
    GensStep(s, Move(t), f.sys);
    EntryGrows(s.systems[f.sys], MoveCall(s, t).systems[f.sys], ref, f);
  }

  lemma SystemsStep(s: State, t: Tid)
    requires Inv(s) && CanDo(s, Move(t))
    ensures var s' := MoveCall(s, t); forall sys :: sys in s'.systems ==> SysOk(sys, s'.systems[sys])
  {
    var s' := MoveCall(s, t);
    OwnStep(s, t);
    forall sys | sys in s'.systems ensures SysOk(sys, s'.systems[sys]) {
      if sys != s.calls[t].sys { assert SysOk(sys, s.systems[sys]); }
    }
  }

  lemma CallsStep(s: State, t: Tid, u: Tid)
    requires Inv(s) && CanDo(s, Move(t)) && u in MoveCall(s, t).calls
    ensures var s' := MoveCall(s, t); s'.calls[u].sys in s'.systems && CallOk(s'.systems[s'.calls[u].sys], s'.calls[u])
  {
    if u != t { OtherStep(s, t, u); assert MoveCall(s, t).calls[u] == s.calls[u]; } else { OwnStep(s, t); }
  }

  lemma MoveKeepsInv(s: State, t: Tid)
    requires Inv(s) && CanDo(s, Move(t))
    ensures Inv(MoveCall(s, t))
  {
    var s' := MoveCall(s, t);
    assert OrderInv(s') by { MoveKeepsOrder(s, t); }
    SystemsStep(s, t);
    forall ref | ref in s'.entries ensures EntryOk(s', ref, s'.entries[ref]) { EntriesStep(s, t, ref); }
    forall u | u in s'.calls ensures s'.calls[u].sys in s'.systems && CallOk(s'.systems[s'.calls[u].sys], s'.calls[u]) {
      CallsStep(s, t, u);
    }
  }

  lemma StepKeepsInv(s: State, a: Action)
    requires Inv(s) && CanDo(s, a)
    ensures Inv(Do(s, a))
  {
    match a
    case Begin(t, sys, ref) => BeginKeepsInv(s, t, sys, ref);
    case Move(t) => MoveKeepsInv(s, t);
    case _ => ProviderStepKeepsInv(s, a);
  }

  lemma {:induction false} RunInv(run: Run, i: nat)
    requires IsRun(run) && i < |run.states|
    ensures Inv(run.states[i])
  {
    if i > 0 {
      RunInv(run, i - 1);
      assert StepOk(run, i - 1);
      StepKeepsInv(run.states[i - 1], run.actions[i - 1]);
    }
  }
}
