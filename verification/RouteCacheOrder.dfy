/**
  What the resolver's two locks keep in every run, whatever the provider publishes and whenever
  calls begin: generations ascend, a shared entry is never rolled back, and a route's stream belongs
  to the system that resolves.
*/
module RouteCacheOrder {
  import opened Options
  import opened Rendezvous
  import opened RouteCache

  // ------------------------------------------------------------------ invariant

  predicate IsPrefix<T(==)>(a: seq<T>, b: seq<T>) { |a| <= |b| && a == b[..|a|] }

  predicate Ascending(gens: seq<Generation>) {
    forall g, h :: 0 <= g < h < |gens| ==> gens[g].version < gens[h].version
  }

  ghost predicate StreamsOk(sys: Sys, ss: SysState) {
    forall k :: k in ss.streams ==> ss.streams[k] == Stream(sys, k.1)
  }

  ghost predicate SysOrder(sys: Sys, ss: SysState) { Ascending(ss.gens) && StreamsOk(sys, ss) }

  predicate OwnRoute(sys: Sys, route: Route) { route.stream.Some? ==> route.stream.value.sys == sys }

  predicate RefreshOrder(ss: SysState, r: RefreshPC) {
    match r
    case LoadSnap(cur) => cur == Last(ss.gens)
    case LoadVersion(cur) => cur == Last(ss.gens)
    case StoreGen(cur, _, _) => cur == Last(ss.gens)
    case UnlockMu(gen) => gen < |ss.gens|
    case _ => true
  }

  predicate CacheOrder(call: Call, c: CachePC) {
    match c
    case CheckEntry(route) => OwnRoute(call.sys, route) && call.ref.cached
    case PutEntry(route) => OwnRoute(call.sys, route) && call.ref.cached
    case WaitCache => call.ref.cached
    case RecheckEntry => call.ref.cached
    case _ => true
  }

  predicate CallOrder(ss: SysState, call: Call) {
    match call.pc
    case Refresh(r) => RefreshOrder(ss, r)
    case Cache(gen, c) => gen < |ss.gens| && CacheOrder(call, c)
    case Release(route) => OwnRoute(call.sys, route) && call.ref.cached
    case Done(route) => OwnRoute(call.sys, route)
  }

  predicate InRefresh(pc: PC) { pc.Refresh? && !pc.r.ReadHint? && !pc.r.LoadGen? && !pc.r.WaitMu? }
  predicate InCache(call: Call) {
    call.ref.cached && (call.pc.Release? || (call.pc.Cache? && !call.pc.c.LoadEntry? && !call.pc.c.WaitCache?))
  }

  /** Who holds the two locks. */
  predicate LocksOk(ss: SysState, lock: Option<Tid>, t: Tid, call: Call) {
    && (InRefresh(call.pc) ==> ss.mu == Some(t))
    && (InCache(call) ==> lock == Some(t))
  }

  /** The store that follows a check may not replace a later version of the same system. */
  predicate PutOk(ss: SysState, entry: Option<Entry>, call: Call) {
    call.pc.Cache? && call.pc.c.PutEntry? && call.pc.gen < |ss.gens| && entry.Some? && entry.value.sys == call.sys
    ==> entry.value.version <= ss.gens[call.pc.gen].version
  }

  /** What a call knows about the cells it touches. */
  predicate Orderly(x: Cells, t: Tid, call: Call) {
    CallOrder(x.ss, call) && LocksOk(x.ss, x.lock, t, call) && PutOk(x.ss, x.entry, call)
  }

  ghost predicate OrderInv(s: State) {
    && (forall sys :: sys in s.systems ==> SysOrder(sys, s.systems[sys]))
    && (forall ref :: ref in s.entries ==> OwnRoute(s.entries[ref].sys, s.entries[ref].route))
    && (forall t :: t in s.calls ==> s.calls[t].sys in s.systems && Orderly(CellsOf(s, s.calls[t]), t, s.calls[t]))
  }

  // ------------------------------------------------------------------ one step on its own cells

  lemma RefreshKeepsOrder(sys: Sys, ss: SysState, t: Tid, call: Call)
    requires call.pc.Refresh? && SysOrder(sys, ss) && CallOrder(ss, call)
    ensures var (b, pc) := RefreshStep(ss, t, call.pc.r);
            SysOrder(sys, b) && IsPrefix(ss.gens, b.gens) && CallOrder(b, call.(pc := pc))
  {
  }

  lemma CacheKeepsOrder(x: Cells, t: Tid, call: Call)
    requires call.pc.Cache? && SysOrder(call.sys, x.ss) && CallOrder(x.ss, call)
    requires x.entry.Some? ==> OwnRoute(x.entry.value.sys, x.entry.value.route)
    ensures var e := CacheStep(x, t, call.sys, call.ref, call.pc.gen, call.pc.c);
            SysOrder(call.sys, e.cells.ss) && e.cells.ss.gens == x.ss.gens && CallOrder(e.cells.ss, call.(pc := e.pc))
  {
  }

  lemma AdvanceKeepsOrder(x: Cells, t: Tid, call: Call)
    requires Enabled(x, call.pc) && SysOrder(call.sys, x.ss) && CallOrder(x.ss, call)
    requires x.entry.Some? ==> OwnRoute(x.entry.value.sys, x.entry.value.route)
    ensures var e := Advance(x, t, call);
            SysOrder(call.sys, e.cells.ss) && IsPrefix(x.ss.gens, e.cells.ss.gens) && CallOrder(e.cells.ss, call.(pc := e.pc))
  {
    match call.pc
    case Refresh(r) => RefreshKeepsOrder(call.sys, x.ss, t, call);
    case Cache(gen, c) => CacheKeepsOrder(x, t, call);
    case Release(route) =>
  }

  /** How a step of goroutine t may change the cells that another call touches. */
  predicate SysFrame(a: SysState, b: SysState, t: Option<Tid>) {
    && IsPrefix(a.gens, b.gens)
    && (a.gens != b.gens ==> t.Some? && a.mu == t)
    && (a.mu != b.mu ==> t.Some? && (a.mu.None? || a.mu == t))
  }

  predicate RefFrame(x: Cells, y: Cells, t: Option<Tid>) {
    && (y.lock != x.lock ==> t.Some? && (x.lock.None? || x.lock == t))
    && (y.entry != x.entry ==> t.Some? && x.lock == t)
  }

  lemma AdvanceLocks(x: Cells, t: Tid, call: Call)
    requires Enabled(x, call.pc) && CallOrder(x.ss, call) && LocksOk(x.ss, x.lock, t, call)
    ensures var e := Advance(x, t, call);
            && LocksOk(e.cells.ss, e.cells.lock, t, call.(pc := e.pc))
            && SysFrame(x.ss, e.cells.ss, Some(t)) && RefFrame(x, e.cells, Some(t))
  {
  }

  /** The entry is written only by its own route for its own version, and never rolled back. */
  predicate EntryMoved(x: Cells, y: Cells, call: Call) {
    y.entry != x.entry ==>
      && y.entry.Some? && y.entry.value.sys == call.sys && OwnRoute(call.sys, y.entry.value.route)
      && (x.entry.Some? && x.entry.value.sys == call.sys ==> x.entry.value.version <= y.entry.value.version)
  }

  lemma AdvanceEntry(x: Cells, t: Tid, call: Call)
    requires Enabled(x, call.pc) && CallOrder(x.ss, call) && PutOk(x.ss, x.entry, call)
    ensures var e := Advance(x, t, call); PutOk(e.cells.ss, e.cells.entry, call.(pc := e.pc)) && EntryMoved(x, e.cells, call)
  {
  }

  // ------------------------------------------------------------------ steps of the whole

  lemma FrameKeeps(x: Cells, y: Cells, t: Option<Tid>, u: Tid, call: Call)
    requires Orderly(x, u, call) && t != Some(u) && SysFrame(x.ss, y.ss, t) && RefFrame(x, y, t)
    ensures Orderly(y, u, call)
  {
    if call.pc.Cache? { assert y.ss.gens[call.pc.gen] == x.ss.gens[call.pc.gen]; }
  }

  lemma ProviderKeepsCells(ss: SysState, a: Action)
    requires ProviderEnabled(ss, a)
    ensures var b := ProviderStep(ss, a); b.gens == ss.gens && b.mu == ss.mu && b.streams == ss.streams
  {
  }

  lemma ProviderOrderly(s: State, a: Action, t: Tid)
    requires OrderInv(s) && CanDo(s, a) && !a.Begin? && !a.Move? && t in s.calls
    ensures Orderly(CellsOf(Do(s, a), s.calls[t]), t, s.calls[t])
  {
    var call := s.calls[t];
    assert Orderly(CellsOf(s, call), t, call);
    if call.sys == a.sys { ProviderKeepsCells(s.systems[a.sys], a); }
  }

  lemma ProviderKeepsOrder(s: State, a: Action)
    requires OrderInv(s) && CanDo(s, a) && !a.Begin? && !a.Move?
    ensures OrderInv(Do(s, a))
  {
    var s' := Do(s, a);
    ProviderKeepsCells(s.systems[a.sys], a);
    forall sys | sys in s'.systems ensures SysOrder(sys, s'.systems[sys]) { assert SysOrder(sys, s.systems[sys]); }
    forall t | t in s'.calls ensures Orderly(CellsOf(s', s'.calls[t]), t, s'.calls[t]) { ProviderOrderly(s, a, t); }
  }

  lemma BeginKeepsOrder(s: State, t: Tid, sys: Sys, ref: Ref)
    requires OrderInv(s) && CanDo(s, Begin(t, sys, ref))
    ensures OrderInv(Do(s, Begin(t, sys, ref)))
  {
    var s' := Do(s, Begin(t, sys, ref));
    forall u | u in s'.calls ensures s'.calls[u].sys in s'.systems && Orderly(CellsOf(s', s'.calls[u]), u, s'.calls[u]) {
      if u != t { assert Orderly(CellsOf(s, s.calls[u]), u, s.calls[u]); }
    }
  }

  /** The moving call's own cells, before and after. */
  lemma OwnCells(s: State, t: Tid)
    requires CanDo(s, Move(t))
    ensures var s' := MoveCall(s, t); var call := s.calls[t]; var e := Advance(CellsOf(s, call), t, call);
            && s'.calls[t] == call.(pc := e.pc) && CellsOf(s', s'.calls[t]) == e.cells && CellsOf(s', call) == e.cells
  {
  }

  lemma OwnOrder(s: State, t: Tid)
    requires OrderInv(s) && CanDo(s, Move(t))
    ensures var call := s.calls[t]; var x := CellsOf(s, call); var e := Advance(x, t, call); var y := e.cells;
            && SysOrder(call.sys, y.ss) && SysFrame(x.ss, y.ss, Some(t)) && RefFrame(x, y, Some(t))
            && Orderly(y, t, call.(pc := e.pc)) && EntryMoved(x, y, call)
  {
    var call := s.calls[t];
    var x := CellsOf(s, call);
    assert Orderly(x, t, call) && SysOrder(call.sys, x.ss);
    AdvanceKeepsOrder(x, t, call);
    AdvanceLocks(x, t, call);
    AdvanceEntry(x, t, call);
  }

  lemma OtherCells(s: State, t: Tid, other: Call)
    requires CanDo(s, Move(t)) && other.sys in s.systems
    ensures var s' := MoveCall(s, t); var call := s.calls[t];
            var x, y, x1, y1 := CellsOf(s, call), CellsOf(s', call), CellsOf(s, other), CellsOf(s', other);
            && other.sys in s'.systems
            && (if other.sys == call.sys then x1.ss == x.ss && y1.ss == y.ss else y1.ss == x1.ss)
            && (if other.ref == call.ref then x1.lock == x.lock && x1.entry == x.entry && y1.lock == y.lock && y1.entry == y.entry
                else x1.lock == y1.lock && x1.entry == y1.entry)
  {
  }

  lemma OtherFrame(s: State, t: Tid, other: Call)
    requires OrderInv(s) && CanDo(s, Move(t)) && other.sys in s.systems
    ensures var s' := MoveCall(s, t); var x, y := CellsOf(s, other), CellsOf(s', other);
            other.sys in s'.systems && SysFrame(x.ss, y.ss, Some(t)) && RefFrame(x, y, Some(t))
  {
    OwnCells(s, t);
    OwnOrder(s, t);
    OtherCells(s, t, other);
  }

  lemma OtherOrderly(s: State, t: Tid, u: Tid)
    requires OrderInv(s) && CanDo(s, Move(t)) && u in s.calls && u != t
    ensures var s' := MoveCall(s, t); var other := s.calls[u]; other.sys in s'.systems && Orderly(CellsOf(s', other), u, other)
  {
    var other := s.calls[u];
    assert Orderly(CellsOf(s, other), u, other);
    OtherFrame(s, t, other);
    FrameKeeps(CellsOf(s, other), CellsOf(MoveCall(s, t), other), Some(t), u, other);
  }

  lemma PutEntries(s: State, t: Tid, x: Cells, pc: PC, ref: Ref)
    requires t in s.calls
    ensures At(Put(s, t, x, pc).entries, ref) == if ref == s.calls[t].ref then x.entry else At(s.entries, ref)
  {
  }

  /** What a step does to the entry of any reference. */
  lemma EntryStep(s: State, t: Tid, ref: Ref)
    requires OrderInv(s) && CanDo(s, Move(t)) && ref in MoveCall(s, t).entries
    ensures var f := MoveCall(s, t).entries[ref];
            OwnRoute(f.sys, f.route) && (ref in s.entries && s.entries[ref].sys == f.sys ==> s.entries[ref].version <= f.version)
  {
    var call := s.calls[t];
    var e := Advance(CellsOf(s, call), t, call);
    PutEntries(s, t, e.cells, e.pc, ref);
    OwnOrder(s, t);
  }

  lemma EntryStays(s: State, t: Tid, ref: Ref)
    requires OrderInv(s) && CanDo(s, Move(t)) && ref in s.entries
    ensures ref in MoveCall(s, t).entries
  {
    var call := s.calls[t];
    var e := Advance(CellsOf(s, call), t, call);
    PutEntries(s, t, e.cells, e.pc, ref);
    OwnOrder(s, t);
  }

  lemma MoveKeepsOrder(s: State, t: Tid)
    requires OrderInv(s) && CanDo(s, Move(t))
    ensures OrderInv(MoveCall(s, t))
  {
    var s' := MoveCall(s, t);
    OwnCells(s, t);
    OwnOrder(s, t);
    forall sys | sys in s'.systems ensures SysOrder(sys, s'.systems[sys]) {
      if sys != s.calls[t].sys { assert SysOrder(sys, s.systems[sys]); }
    }
    forall ref | ref in s'.entries ensures OwnRoute(s'.entries[ref].sys, s'.entries[ref].route) { EntryStep(s, t, ref); }
    forall u | u in s'.calls ensures s'.calls[u].sys in s'.systems && Orderly(CellsOf(s', s'.calls[u]), u, s'.calls[u]) {
      if u != t { OtherOrderly(s, t, u); assert s'.calls[u] == s.calls[u]; }
    }
  }

  lemma StepKeepsOrder(s: State, a: Action)
    requires OrderInv(s) && CanDo(s, a)
    ensures OrderInv(Do(s, a))
  {
    match a
    case Begin(t, sys, ref) => BeginKeepsOrder(s, t, sys, ref);
    case Move(t) => MoveKeepsOrder(s, t);
    case _ => ProviderKeepsOrder(s, a);
  }

  lemma {:induction false} RunOrder(run: Run, i: nat)
    requires IsRun(run) && i < |run.states|
    ensures OrderInv(run.states[i])
  {
    if i > 0 {
      RunOrder(run, i - 1);
      assert StepOk(run, i - 1);
      StepKeepsOrder(run.states[i - 1], run.actions[i - 1]);
    }
  }

  // ------------------------------------------------------------------ what it means, in every run

  lemma GensStep(s: State, a: Action, sys: Sys)
    requires OrderInv(s) && CanDo(s, a) && sys in s.systems
    ensures sys in Do(s, a).systems && IsPrefix(s.systems[sys].gens, Do(s, a).systems[sys].gens)
  {
    match a
    case Begin(_, _, _) =>
    case Move(t) => if sys == s.calls[t].sys { OwnOrder(s, t); }
    case _ => if a.sys == sys { ProviderKeepsCells(s.systems[sys], a); }
  }

  lemma RunGens(run: Run, j: nat, sys: Sys)
    requires IsRun(run) && j < |run.actions| && sys in run.states[j].systems
    ensures sys in run.states[j + 1].systems && IsPrefix(run.states[j].systems[sys].gens, run.states[j + 1].systems[sys].gens)
  {
    RunOrder(run, j);
    assert StepOk(run, j);
    GensStep(run.states[j], run.actions[j], sys);
  }

  lemma RunAscending(run: Run, i: nat, sys: Sys)
    requires IsRun(run) && i < |run.states| && sys in run.states[i].systems
    ensures Ascending(run.states[i].systems[sys].gens)
  {
    RunOrder(run, i);
    assert SysOrder(sys, run.states[i].systems[sys]);
  }

  /** In every run a resolver's generations are only ever replaced by later ones. */
  lemma {:induction false} GenerationsNeverGoBack(run: Run, i: nat, j: nat, sys: Sys)
    requires IsRun(run) && i <= j < |run.states| && sys in run.states[i].systems
    ensures sys in run.states[j].systems
    ensures var a, b := run.states[i].systems[sys].gens, run.states[j].systems[sys].gens; IsPrefix(a, b) && Ascending(b)
    decreases j
  {
    if i < j {
      GenerationsNeverGoBack(run, i, j - 1, sys);
      RunGens(run, j - 1, sys);
    }
    RunAscending(run, j, sys);
  }

  lemma EntryNext(s: State, a: Action, ref: Ref)
    requires OrderInv(s) && CanDo(s, a) && ref in s.entries
    ensures ref in Do(s, a).entries
    ensures var e, f := s.entries[ref], Do(s, a).entries[ref]; e.sys == f.sys ==> e.version <= f.version
  {
    if a.Move? { EntryStays(s, a.t, ref); EntryStep(s, a.t, ref); }
  }

  /** In every run a slow resolution never replaces a later route of the same system in the shared
      entry. */
  lemma EntryNeverRollsBack(run: Run, i: nat, ref: Ref)
    requires IsRun(run) && i < |run.actions| && ref in run.states[i].entries
    ensures ref in run.states[i + 1].entries
    ensures var e, f := run.states[i].entries[ref], run.states[i + 1].entries[ref];
            e.sys == f.sys ==> e.version <= f.version
  {
    RunOrder(run, i);
    assert StepOk(run, i);
    EntryNext(run.states[i], run.actions[i], ref);
  }

  /** In every run a system sends only through streams of its own, although the entry that answers
      its call is shared with other systems. */
  lemma StreamIsOwn(run: Run, i: nat, t: Tid)
    requires IsRun(run) && i < |run.states| && t in run.states[i].calls && run.states[i].calls[t].pc.Done?
    ensures OwnRoute(run.states[i].calls[t].sys, run.states[i].calls[t].pc.route)
  {
    RunOrder(run, i);
    var s := run.states[i];
    assert Orderly(CellsOf(s, s.calls[t]), t, s.calls[t]);
  }
}
