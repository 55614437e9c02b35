/** Where a resolver's generations come from, and which of them may be used. */
module RouteCacheSources {
  import opened Options
  import opened Rendezvous
  import opened RouteCache
  import opened RouteCacheOrder
  import opened RouteCacheSafety

  // ------------------------------------------------------------------ views that may be used

  /** A view that may be used for version v: it is the one the provider held at v, and whatever
      was published up to v has since been followed (or equalled) by a publication of this view. */
  ghost predicate Backed(ss: SysState, v: nat, view: View) {
    && v <= ss.version && v < |ss.truth| && view == ss.truth[v]
    && forall k :: 0 <= k < |ss.pubs| && ss.pubs[k].version <= v ==> PublishedFrom(ss.pubs, k, view)
  }

  ghost predicate PublishedFrom(pubs: seq<Snapshot>, k: nat, view: View) {
    exists j :: k <= j < |pubs| && Offers(pubs[j].nodes) == view
  }

  lemma PublishedFromGrows(a: seq<Snapshot>, b: seq<Snapshot>, k: nat, view: View)
    requires PublishedFrom(a, k, view) && IsPrefix(a, b)
    ensures PublishedFrom(b, k, view)
  {
    var j :| k <= j < |a| && Offers(a[j].nodes) == view;
    assert b[j] == a[j];
  }

  lemma BackedGrows(a: SysState, b: SysState, v: nat, view: View)
    requires Backed(a, v, view) && Grows(a, b) && ProviderOk(a) && ProviderOk(b)
    ensures Backed(b, v, view)
  {
    assert b.truth[v] == a.truth[v];
    forall k | 0 <= k < |b.pubs| && b.pubs[k].version <= v ensures PublishedFrom(b.pubs, k, view) {
      if k < |a.pubs| {
        assert b.pubs[k] == a.pubs[k];
        PublishedFromGrows(a.pubs, b.pubs, k, view);
      } else {
        assert k == |a.pubs| && b.pubs[k].version == b.version == v;
        assert Offers(b.pubs[k].nodes) == view;
      }
    }
  }

  /** A generation no older than the call's floor yields an admissible answer. */
  lemma BackedAnswers(ss: SysState, call: Call, v: nat, view: View)
    requires ProviderOk(ss) && Backed(ss, v, view) && NotOlder(ss, call.floor, v) && call.floor <= |ss.pubs|
    ensures Answer(ss, call, RouteOn(call.sys, call.ref.target, view))
  {
    if call.floor > 0 {
      assert PublishedFrom(ss.pubs, call.floor - 1, view);
    } else if ss.pubs != [] && ss.pubs[0].version <= v {
      assert PublishedFrom(ss.pubs, 0, view);
    } else {
      assert v <= 1;
    }
  }

  /** The branch of GetNodes that finds no snapshot pairs the empty list with the version it
      reads next. This is when that pair may be used. */
  ghost predicate NothingToMiss(ss: SysState) {
    && ss.version < |ss.truth| && ss.truth[ss.version] == {}
    && (ss.pubs != [] ==> Offers(ss.pubs[|ss.pubs| - 1].nodes) == {})
  }

  /** Exactly then: the pair is usable if and only if the provider holds no offer at that moment
      and the last publication, if any, had none. */
  lemma NilPairBacked(ss: SysState)
    requires ProviderOk(ss)
    ensures Backed(ss, ss.version, {}) <==> NothingToMiss(ss)
  {
    var last := |ss.pubs| - 1;
    if Backed(ss, ss.version, {}) && last >= 0 {
      assert PublishedFrom(ss.pubs, last, {});
    }
    if NothingToMiss(ss) {
      forall k | 0 <= k < |ss.pubs| && ss.pubs[k].version <= ss.version ensures PublishedFrom(ss.pubs, k, {}) {
        assert k <= last < |ss.pubs| && Offers(ss.pubs[last].nodes) == {};
      }
    }
  }

  lemma SnapshotBacked(ss: SysState)
    requires ProviderOk(ss) && ss.pubs != []
    ensures var p := ss.pubs[|ss.pubs| - 1]; Backed(ss, p.version, Offers(p.nodes))
  {
    var last := |ss.pubs| - 1;
    forall k | 0 <= k < |ss.pubs| ensures PublishedFrom(ss.pubs, k, Offers(ss.pubs[last].nodes)) {
      assert k <= last < |ss.pubs|;
    }
  }

  // ------------------------------------------------------------------ unclean reads

  /** The one step that goes wrong: a call of the system that found no snapshot reads version v although
      the provider holds offers by now, or has published some last. */
  ghost predicate UncleanRead(s: State, a: Action, sys: Sys, v: nat) {
    && a.Move? && a.t in s.calls && s.calls[a.t].sys == sys && sys in s.systems
    && s.calls[a.t].pc.Refresh? && s.calls[a.t].pc.r.LoadVersion?
    && v == s.systems[sys].version && !NothingToMiss(s.systems[sys])
  }

  /** The node list may be used for version v, or it is the empty one of an unclean read. */
  ghost predicate Sourced(ss: SysState, bad: iset<nat>, v: nat, nodes: seq<Node>) {
    Backed(ss, v, Offers(nodes)) || (nodes == [] && v in bad)
  }

  predicate StoresPair(call: Call, sys: Sys) { call.sys == sys && call.pc.Refresh? && call.pc.r.StoreGen? }

  ghost predicate GensSourced(ss: SysState, bad: iset<nat>) {
    forall g :: 0 <= g < |ss.gens| ==> Sourced(ss, bad, ss.gens[g].version, ss.gens[g].nodes)
  }

  ghost predicate PairsSourced(s: State, sys: Sys, bad: iset<nat>)
    requires sys in s.systems
  {
    forall t :: t in s.calls && StoresPair(s.calls[t], sys) ==>
      Sourced(s.systems[sys], bad, s.calls[t].pc.r.version, s.calls[t].pc.r.nodes)
  }

  lemma SystemGrows(s: State, a: Action, sys: Sys)
    requires Inv(s) && CanDo(s, a) && sys in s.systems
    ensures sys in Do(s, a).systems && Grows(s.systems[sys], Do(s, a).systems[sys])
  {
    match a
    case Begin(_, _, _) =>
    case Move(t) => MovedGrows(s, t, sys);
    case _ => ProviderGrows(s, a, sys);
  }

  lemma ProviderGrows(s: State, a: Action, sys: Sys)
    requires Inv(s) && CanDo(s, a) && !a.Begin? && !a.Move? && sys in s.systems
    ensures sys in Do(s, a).systems && Grows(s.systems[sys], Do(s, a).systems[sys])
  {
    ProvidedSystem(s, a, sys);
    if a.sys == sys {
      assert SysOk(sys, s.systems[sys]);
      ProviderKeeps(sys, s.systems[sys], a);
    }
  }

  lemma ProvidedSystem(s: State, a: Action, sys: Sys)
    requires CanDo(s, a) && !a.Begin? && !a.Move? && sys in s.systems
    ensures sys in Do(s, a).systems
    ensures Do(s, a).systems[sys] == if sys == a.sys then ProviderStep(s.systems[sys], a) else s.systems[sys]
  {
  }

  lemma MovedGrows(s: State, t: Tid, sys: Sys)
    requires Inv(s) && CanDo(s, Move(t)) && sys in s.systems
    ensures sys in MoveCall(s, t).systems && Grows(s.systems[sys], MoveCall(s, t).systems[sys])
  {
    MovedSystem(s, t, sys);
    if sys == s.calls[t].sys { OwnStep(s, t); }
  }

  lemma MovedSystem(s: State, t: Tid, sys: Sys)
    requires CanDo(s, Move(t)) && sys in s.systems
    ensures sys in MoveCall(s, t).systems
    ensures MoveCall(s, t).systems[sys]
            == if sys == s.calls[t].sys then Advance(CellsOf(s, s.calls[t]), t, s.calls[t]).cells.ss else s.systems[sys]
  {
  }

  lemma SourcedGrows(a: SysState, b: SysState, bad: iset<nat>, bad': iset<nat>, v: nat, nodes: seq<Node>)
    requires Sourced(a, bad, v, nodes) && bad <= bad' && Grows(a, b) && ProviderOk(a) && ProviderOk(b)
    ensures Sourced(b, bad', v, nodes)
  {
    if Backed(a, v, Offers(nodes)) { BackedGrows(a, b, v, Offers(nodes)); }
  }

  /** What a call reads to store is the last snapshot, or the empty list with the version it finds. */
  lemma JustRead(x: Cells, t: Tid, call: Call, bad: iset<nat>)
    requires Enabled(x, call.pc) && ProviderOk(x.ss)
    requires call.pc.Refresh? && call.pc.r.LoadVersion? && !NothingToMiss(x.ss) ==> x.ss.version in bad
    ensures var pc := Advance(x, t, call).pc; pc.Refresh? && pc.r.StoreGen? ==> Sourced(x.ss, bad, pc.r.version, pc.r.nodes)
  {
    PairOrigin(x, t, call);
    NilSourced(x.ss, bad);
    if x.ss.pubs != [] { SnapshotBacked(x.ss); }
  }

  lemma PairOrigin(x: Cells, t: Tid, call: Call)
    requires Enabled(x, call.pc)
    ensures var pc := Advance(x, t, call).pc; pc.Refresh? && pc.r.StoreGen? ==>
              || (x.ss.pubs != [] && var p := x.ss.pubs[|x.ss.pubs| - 1]; pc.r.version == p.version && pc.r.nodes == p.nodes)
              || (call.pc.Refresh? && call.pc.r.LoadVersion? && pc.r.version == x.ss.version && pc.r.nodes == [])
  {
  }

  lemma NilSourced(ss: SysState, bad: iset<nat>)
    requires ProviderOk(ss)
    ensures NothingToMiss(ss) || ss.version in bad ==> Sourced(ss, bad, ss.version, [])
  {
    assert Offers([]) == {};
    NilPairBacked(ss);
  }

  /** A new generation is the pair that the call was about to store. */
  lemma GensMoved(x: Cells, t: Tid, call: Call)
    requires Enabled(x, call.pc)
    ensures var b := Advance(x, t, call).cells.ss;
            || b.gens == x.ss.gens
            || (StoresPair(call, call.sys) && b.gens == x.ss.gens + [Generation(call.pc.r.version, call.pc.r.nodes)])
  {
  }

  lemma GensNext(s: State, a: Action, sys: Sys)
    requires CanDo(s, a) && sys in s.systems && sys in Do(s, a).systems
    ensures var gens, gens' := s.systems[sys].gens, Do(s, a).systems[sys].gens;
            || gens' == gens
            || (a.Move? && StoresPair(s.calls[a.t], sys)
                && gens' == gens + [Generation(s.calls[a.t].pc.r.version, s.calls[a.t].pc.r.nodes)])
  {
    match a
    case Begin(_, _, _) =>
    case Move(t) => if s.calls[t].sys == sys { GensMoved(CellsOf(s, s.calls[t]), t, s.calls[t]); }
    case _ => if a.sys == sys { ProviderKeepsCells(s.systems[sys], a); }
  }

  lemma GensStepSourced(s: State, a: Action, sys: Sys, bad: iset<nat>, bad': iset<nat>)
    requires Inv(s) && CanDo(s, a) && sys in s.systems && bad <= bad' && GensSourced(s.systems[sys], bad) && PairsSourced(s, sys, bad)
    ensures sys in Do(s, a).systems && GensSourced(Do(s, a).systems[sys], bad')
  {
    var ss, b := s.systems[sys], Do(s, a).systems[sys];
    SystemGrows(s, a, sys);
    SystemsOk(s, a, sys);
    GensNext(s, a, sys);
    forall g | 0 <= g < |b.gens| ensures Sourced(b, bad', b.gens[g].version, b.gens[g].nodes) {
      if g < |ss.gens| { assert b.gens[g] == ss.gens[g]; }
      SourcedGrows(ss, b, bad, bad', b.gens[g].version, b.gens[g].nodes);
    }
  }

  lemma SystemsOk(s: State, a: Action, sys: Sys)
    requires Inv(s) && CanDo(s, a) && sys in s.systems && sys in Do(s, a).systems
    ensures ProviderOk(s.systems[sys]) && ProviderOk(Do(s, a).systems[sys])
  {
    StepKeepsInv(s, a);
    assert SysOk(sys, s.systems[sys]) && SysOk(sys, Do(s, a).systems[sys]);
  }

  /** A pair that is about to be stored was so before, or was just read. */
  lemma PairMoved(s: State, a: Action, sys: Sys, bad: iset<nat>, bad': iset<nat>, t: Tid)
    requires Inv(s) && CanDo(s, a) && sys in s.systems && bad <= bad' && PairsSourced(s, sys, bad)
    requires forall v :: UncleanRead(s, a, sys, v) ==> v in bad'
    requires t in Do(s, a).calls && StoresPair(Do(s, a).calls[t], sys)
    ensures var r := Do(s, a).calls[t].pc.r; Sourced(s.systems[sys], bad', r.version, r.nodes)
  {
    if a == Move(t) {
      assert SysOk(sys, s.systems[sys]);
      assert UncleanRead(s, a, sys, s.systems[sys].version)
             <==> (s.calls[t].pc.Refresh? && s.calls[t].pc.r.LoadVersion? && !NothingToMiss(s.systems[sys]));
      JustRead(CellsOf(s, s.calls[t]), t, s.calls[t], bad');
    } else {
      assert t in s.calls && Do(s, a).calls[t] == s.calls[t];
    }
  }

  lemma PairsStepSourced(s: State, a: Action, sys: Sys, bad: iset<nat>, bad': iset<nat>)
    requires Inv(s) && CanDo(s, a) && sys in s.systems && bad <= bad' && PairsSourced(s, sys, bad)
    requires forall v :: UncleanRead(s, a, sys, v) ==> v in bad'
    ensures sys in Do(s, a).systems && PairsSourced(Do(s, a), sys, bad')
  {
    var s' := Do(s, a);
    SystemGrows(s, a, sys);
    SystemsOk(s, a, sys);
    forall t | t in s'.calls && StoresPair(s'.calls[t], sys)
      ensures Sourced(s'.systems[sys], bad', s'.calls[t].pc.r.version, s'.calls[t].pc.r.nodes)
    {
      PairMoved(s, a, sys, bad, bad', t);
      SourcedGrows(s.systems[sys], s'.systems[sys], bad', bad', s'.calls[t].pc.r.version, s'.calls[t].pc.r.nodes);
    }
  }

  // ------------------------------------------------------------------ over runs

  /** Some step before the n-th reads version v uncleanly. */
  ghost predicate ReadUncleanly(run: Run, n: nat, sys: Sys, v: nat)
    requires n <= |run.actions| <= |run.states|
  {
    exists k :: 0 <= k < n && UncleanRead(run.states[k], run.actions[k], sys, v)
  }

  ghost function UncleanVersions(run: Run, n: nat, sys: Sys): iset<nat>
    requires n <= |run.actions| <= |run.states|
  {
    iset v | ReadUncleanly(run, n, sys, v)
  }

  lemma SystemsStay(s: State, a: Action)
    requires Inv(s) && CanDo(s, a)
    ensures Do(s, a).systems.Keys == s.systems.Keys
  {
  }

  lemma {:induction false} RunSourced(run: Run, n: nat, sys: Sys)
    requires IsRun(run) && n < |run.states| && sys in run.states[n].systems
    ensures GensSourced(run.states[n].systems[sys], UncleanVersions(run, n, sys))
    ensures PairsSourced(run.states[n], sys, UncleanVersions(run, n, sys))
  {
    if n > 0 {
      assert StepOk(run, n - 1);
      RunInv(run, n - 1);
      var s, a := run.states[n - 1], run.actions[n - 1];
      SystemsStay(s, a);
      RunSourced(run, n - 1, sys);
      var bad, bad' := UncleanVersions(run, n - 1, sys), UncleanVersions(run, n, sys);
      GensStepSourced(s, a, sys, bad, bad');
      PairsStepSourced(s, a, sys, bad, bad');
    }
  }

  /** In every run a generation that may not be used is empty, and comes from an unclean read of its
      version by a call of its own system. */
  lemma UnbackedIsUncleanRead(run: Run, n: nat, sys: Sys, g: nat)
    requires IsRun(run) && n < |run.states| && sys in run.states[n].systems && g < |run.states[n].systems[sys].gens|
    ensures var ss := run.states[n].systems[sys]; var gen := ss.gens[g];
            !Backed(ss, gen.version, Offers(gen.nodes)) ==> gen.nodes == [] && ReadUncleanly(run, n, sys, gen.version)
  {
    RunSourced(run, n, sys);
    var ss := run.states[n].systems[sys];
    assert Sourced(ss, UncleanVersions(run, n, sys), ss.gens[g].version, ss.gens[g].nodes);
  }
}
