/** Every `resolve` call comes to an end, nobody waits for a lock that is not given back, and a hit takes no lock. */
module RouteCacheProgress {
  import opened Options
  import opened Rendezvous
  import opened RouteCache
  import opened RouteCacheOrder
  import opened RouteCacheTheorems

  // ------------------------------------------------------------------ bounded steps

  function RefreshLeft(r: RefreshPC): nat {
    match r
    case ReadHint => 16
    case LoadGen(_) => 15
    case WaitMu(_) => 14
    case Recheck(_) => 13
    case LoadSnap(_) => 12
    case LoadVersion(_) => 11
    case StoreGen(_, _, _) => 10
    case UnlockMu(_) => 9
  }

  function CacheLeft(c: CachePC): nat {
    match c
    case LoadEntry => 8
    case WaitCache => 7
    case RecheckEntry => 6
    case StreamLoad(_) => 5
    case StreamStore(_) => 4
    case CheckEntry(_) => 3
    case PutEntry(_) => 2
  }

  /** How many steps a call has left at most. */
  function StepsLeft(pc: PC): nat {
    match pc
    case Refresh(r) => RefreshLeft(r)
    case Cache(_, c) => CacheLeft(c)
    case Release(_) => 1
    case Done(_) => 0
  }

  lemma AdvanceNearer(x: Cells, t: Tid, call: Call)
    requires Enabled(x, call.pc)
    ensures StepsLeft(Advance(x, t, call).pc) < StepsLeft(call.pc)
  {
  }

  /** Every step of a call brings it nearer to its answer, and no other step sets it back. */
  lemma ResolveAdvances(s: State, a: Action, t: Tid)
    requires CanDo(s, a) && t in s.calls
    ensures t in Do(s, a).calls
    ensures var pc, pc' := s.calls[t].pc, Do(s, a).calls[t].pc; if a == Move(t) then StepsLeft(pc') < StepsLeft(pc) else pc' == pc
  {
    if a == Move(t) { AdvanceNearer(CellsOf(s, s.calls[t]), t, s.calls[t]); }
  }

  // ------------------------------------------------------------------ locks are held by somebody

  ghost predicate MuHeld(s: State, sys: Sys)
    requires sys in s.systems
  {
    var mu := s.systems[sys].mu;
    mu.Some? ==> mu.value in s.calls && s.calls[mu.value].sys == sys && InRefresh(s.calls[mu.value].pc)
  }

  ghost predicate EntryLockHeld(s: State, ref: Ref)
    requires ref in s.locks
  {
    s.locks[ref] in s.calls && s.calls[s.locks[ref]].ref == ref && InCache(s.calls[s.locks[ref]])
  }

  ghost predicate HeldInv(s: State) {
    && (forall sys :: sys in s.systems ==> MuHeld(s, sys))
    && (forall ref :: ref in s.locks ==> EntryLockHeld(s, ref))
  }

  /** A call that holds a lock after its step is at a point where it gives it back. */
  predicate HoldsInside(x: Cells, t: Tid, call: Call) {
    (x.ss.mu == Some(t) ==> InRefresh(call.pc)) && (x.lock == Some(t) ==> InCache(call))
  }

  lemma AdvanceMu(x: Cells, t: Tid, call: Call)
    requires Enabled(x, call.pc) && HoldsInside(x, t, call)
    ensures var e := Advance(x, t, call);
            (e.cells.ss.mu == x.ss.mu || e.cells.ss.mu == None || e.cells.ss.mu == Some(t))
            && (e.cells.ss.mu == Some(t) ==> InRefresh(e.pc))
  {
  }

  lemma AdvanceLock(x: Cells, t: Tid, call: Call)
    requires Enabled(x, call.pc) && HoldsInside(x, t, call) && CallOrder(x.ss, call)
    ensures var e := Advance(x, t, call);
            (e.cells.lock == x.lock || e.cells.lock == None || e.cells.lock == Some(t))
            && (e.cells.lock == Some(t) ==> InCache(call.(pc := e.pc)))
  {
  }

  lemma OwnHolds(s: State, t: Tid)
    requires OrderInv(s) && HeldInv(s) && CanDo(s, Move(t))
    ensures HoldsInside(CellsOf(s, s.calls[t]), t, s.calls[t]) && CallOrder(s.systems[s.calls[t].sys], s.calls[t])
  {
    var call := s.calls[t];
    assert MuHeld(s, call.sys);
    if call.ref in s.locks { assert EntryLockHeld(s, call.ref); }
    assert Orderly(CellsOf(s, call), t, call);
  }

  lemma MoveMu(s: State, t: Tid, sys: Sys)
    requires OrderInv(s) && HeldInv(s) && CanDo(s, Move(t)) && sys in MoveCall(s, t).systems
    ensures MuHeld(MoveCall(s, t), sys)
  {
    var call := s.calls[t];
    OwnHolds(s, t);
    AdvanceMu(CellsOf(s, call), t, call);
    if sys in s.systems { assert MuHeld(s, sys); }
  }

  lemma MoveLock(s: State, t: Tid, ref: Ref)
    requires OrderInv(s) && HeldInv(s) && CanDo(s, Move(t)) && ref in MoveCall(s, t).locks
    ensures EntryLockHeld(MoveCall(s, t), ref)
  {
    var call := s.calls[t];
    OwnHolds(s, t);
    AdvanceLock(CellsOf(s, call), t, call);
    if ref in s.locks { assert EntryLockHeld(s, ref); }
  }

  lemma HeldStep(s: State, a: Action)
    requires OrderInv(s) && HeldInv(s) && CanDo(s, a)
    ensures HeldInv(Do(s, a))
  {
    var s' := Do(s, a);
    match a
    case Move(t) =>
      forall sys | sys in s'.systems ensures MuHeld(s', sys) { MoveMu(s, t, sys); }
      forall ref | ref in s'.locks ensures EntryLockHeld(s', ref) { MoveLock(s, t, ref); }
    case _ => OtherHeld(s, a);
  }

  lemma OtherHeld(s: State, a: Action)
    requires OrderInv(s) && HeldInv(s) && CanDo(s, a) && !a.Move?
    ensures HeldInv(Do(s, a))
  {
    var s' := Do(s, a);
    forall sys | sys in s'.systems ensures MuHeld(s', sys) {
      assert MuHeld(s, sys);
      if !a.Begin? && a.sys == sys { ProviderKeepsCells(s.systems[sys], a); }
    }
    forall ref | ref in s'.locks ensures EntryLockHeld(s', ref) { assert EntryLockHeld(s, ref); }
  }

  lemma {:induction false} RunHeld(run: Run, i: nat)
    requires IsRun(run) && i < |run.states|
    ensures OrderInv(run.states[i]) && HeldInv(run.states[i])
  {
    RunOrder(run, i);
    if i > 0 {
      RunHeld(run, i - 1);
      assert StepOk(run, i - 1);
      HeldStep(run.states[i - 1], run.actions[i - 1]);
    }
  }

  /** Whom a call waits for: the holder of the mutex or of the entry lock. */
  function Blocker(s: State, t: Tid): Tid
    requires t in s.calls && s.calls[t].sys in s.systems
  {
    var call := s.calls[t];
    if call.pc.Refresh? && s.systems[call.sys].mu.Some? then s.systems[call.sys].mu.value
    else if call.ref in s.locks then s.locks[call.ref]
    else t
  }

  lemma BlockerMoves(s: State, t: Tid)
    requires OrderInv(s) && HeldInv(s) && t in s.calls && !s.calls[t].pc.Done? && s.calls[t].sys in s.systems
    ensures CanDo(s, Move(t)) || CanDo(s, Move(Blocker(s, t)))
  {
    var call := s.calls[t];
    assert Orderly(CellsOf(s, call), t, call) && MuHeld(s, call.sys);
    if call.ref in s.locks { assert EntryLockHeld(s, call.ref); }
    var u := Blocker(s, t);
    assert Orderly(CellsOf(s, s.calls[u]), u, s.calls[u]);
  }

  /** In every run a call that has not answered can move, or the holder of the lock it waits for can: with
      the bound on steps every call is answered once all calls keep moving. */
  lemma NobodyIsStuck(run: Run, i: nat, t: Tid)
    requires IsRun(run) && i < |run.states| && t in run.states[i].calls && !run.states[i].calls[t].pc.Done?
    ensures run.states[i].calls[t].sys in run.states[i].systems
    ensures CanDo(run.states[i], Move(t)) || CanDo(run.states[i], Move(Blocker(run.states[i], t)))
  {
    RunHeld(run, i);
    BlockerMoves(run.states[i], t);
  }

  // ------------------------------------------------------------------ the fast path

  /** A call on a reference whose entry belongs to the current version answers from it in three steps, changing
      nothing and taking no lock. */
  lemma HitIsFast(x: Cells, t: Tid, call: Call)
    requires call.pc == Refresh(ReadHint) && call.ref.cached && x.ss.gens != []
    requires var v := x.ss.gens[|x.ss.gens| - 1].version; x.ss.version <= v && Hit(x.entry, call.sys, v)
    ensures Solo(x, t, call, 3) == Some((x, Done(x.entry.value.route)))
  {
    var g := |x.ss.gens| - 1;
    var c1, c2 := call.(pc := Refresh(LoadGen(x.ss.version))), call.(pc := Cache(g, LoadEntry));
    assert Advance(x, t, call) == Effect(x, c1.pc);
    assert Advance(x, t, c1) == Effect(x, c2.pc);
    assert Advance(x, t, c2) == Effect(x, Done(x.entry.value.route));
  }
}
