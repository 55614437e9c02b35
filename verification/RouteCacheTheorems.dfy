/** What `resolve` returns over whole runs, and the one interleaving in which it goes wrong. */
module RouteCacheTheorems {
  import opened Options
  import opened Rendezvous
  import opened RouteCache
  import opened RouteCacheOrder
  import opened RouteCacheSafety
  import opened RouteCacheSources

  /** In every run: an answer is the uncached owner and stream for one published snapshot, no older than
      the snapshot that was current when the call began (before the first publication it may be the
      answer for the empty view), or it is the route on a generation that may not be used. */
  lemma RouteOnGeneration(run: Run, i: nat, t: Tid)
    requires IsRun(run) && i < |run.states| && t in run.states[i].calls && run.states[i].calls[t].pc.Done?
    ensures run.states[i].calls[t].sys in run.states[i].systems
    ensures var call := run.states[i].calls[t]; var ss := run.states[i].systems[call.sys];
            Answer(ss, call, call.pc.route) || exists g :: 0 <= g < |ss.gens| && OnUnbacked(ss, call, g)
  {
    RunInv(run, i);
    var s := run.states[i];
    var call, ss := s.calls[t], s.systems[s.calls[t].sys];
    assert CallOk(ss, call) && SysOk(call.sys, ss);
    if g :| 0 <= g < |ss.gens| && FromGeneration(ss, call.floor, call.sys, call.ref.target, call.pc.route, g) {
      GenerationAnswers(ss, call, g);
    }
  }

  /** The answer is the route on generation g, which is no older than the call but may not be used. */
  ghost predicate OnUnbacked(ss: SysState, call: Call, g: nat)
    requires g < |ss.gens| && call.pc.Done?
  {
    && FromGeneration(ss, call.floor, call.sys, call.ref.target, call.pc.route, g)
    && !Backed(ss, ss.gens[g].version, Offers(ss.gens[g].nodes))
  }

  lemma GenerationAnswers(ss: SysState, call: Call, g: nat)
    requires ProviderOk(ss) && call.floor <= |ss.pubs| && g < |ss.gens| && call.pc.Done?
    requires FromGeneration(ss, call.floor, call.sys, call.ref.target, call.pc.route, g)
    ensures Answer(ss, call, call.pc.route) || OnUnbacked(ss, call, g)
  {
    var gen := ss.gens[g];
    if Backed(ss, gen.version, Offers(gen.nodes)) { BackedAnswers(ss, call, gen.version, Offers(gen.nodes)); }
  }

  /** In every run the only wrong answer is that for the empty view, and then some earlier step of the
      same system read uncleanly a version no older than the call. */
  lemma WrongAnswerIsUncleanRead(run: Run, i: nat, t: Tid)
    requires IsRun(run) && i < |run.states| && t in run.states[i].calls && run.states[i].calls[t].pc.Done?
    ensures run.states[i].calls[t].sys in run.states[i].systems
    ensures var call := run.states[i].calls[t]; var ss := run.states[i].systems[call.sys];
            || Answer(ss, call, call.pc.route)
            || (call.pc.route == RouteOn(call.sys, call.ref.target, {})
                && exists v: nat :: ReadUncleanly(run, i, call.sys, v) && NotOlder(ss, call.floor, v))
  {
    RouteOnGeneration(run, i, t);
    var call := run.states[i].calls[t];
    var ss := run.states[i].systems[call.sys];
    if !Answer(ss, call, call.pc.route) {
      var g :| 0 <= g < |ss.gens| && OnUnbacked(ss, call, g);
      UnbackedIsUncleanRead(run, i, call.sys, g);
      assert Offers([]) == {};
    }
  }

  /** Recovery: a call that begins when the snapshot of a later version is current answers right, whatever
      was read uncleanly before. */
  lemma NextVersionRecovers(run: Run, i: nat, t: Tid)
    requires IsRun(run) && i < |run.states| && t in run.states[i].calls && run.states[i].calls[t].pc.Done?
    requires var call := run.states[i].calls[t];
             call.sys in run.states[i].systems && 0 < call.floor <= |run.states[i].systems[call.sys].pubs|
    requires var call := run.states[i].calls[t]; var pubs := run.states[i].systems[call.sys].pubs;
             forall v: nat :: ReadUncleanly(run, i, call.sys, v) ==> v < pubs[call.floor - 1].version
    ensures var call := run.states[i].calls[t]; Answer(run.states[i].systems[call.sys], call, call.pc.route)
  {
    WrongAnswerIsUncleanRead(run, i, t);
  }

  /** No step of the system before the n-th reads uncleanly. */
  ghost predicate CleanFor(run: Run, n: nat, sys: Sys)
    requires n <= |run.actions| <= |run.states|
  {
    forall v: nat :: !ReadUncleanly(run, n, sys, v)
  }

  /** As long as its own system has read nothing uncleanly, every answer is right. */
  lemma RouteIsUncached(run: Run, i: nat, t: Tid)
    requires IsRun(run) && i < |run.states| && t in run.states[i].calls && run.states[i].calls[t].pc.Done?
    requires CleanFor(run, i, run.states[i].calls[t].sys)
    ensures var call := run.states[i].calls[t];
            call.sys in run.states[i].systems && Answer(run.states[i].systems[call.sys], call, call.pc.route)
  {
    WrongAnswerIsUncleanRead(run, i, t);
  }

  // ------------------------------------------------------------------ when a system reads cleanly

  ghost predicate BeginsAfterPublication(s: State, a: Action, sys: Sys) {
    a.Begin? && a.sys == sys && sys in s.systems ==> s.systems[sys].pubs != []
  }

  ghost predicate AllAfterPublication(s: State, sys: Sys) { forall t :: t in s.calls && s.calls[t].sys == sys ==> s.calls[t].floor > 0 }

  lemma FloorsKept(s: State, a: Action, sys: Sys)
    requires AllAfterPublication(s, sys) && CanDo(s, a) && BeginsAfterPublication(s, a, sys)
    ensures AllAfterPublication(Do(s, a), sys)
  {
  }

  lemma {:induction false} LateCallersFloors(run: Run, n: nat, sys: Sys)
    requires IsRun(run) && n < |run.states|
    requires forall k :: 0 <= k < n ==> BeginsAfterPublication(run.states[k], run.actions[k], sys)
    ensures AllAfterPublication(run.states[n], sys)
  {
    if n > 0 {
      LateCallersFloors(run, n - 1, sys);
      assert StepOk(run, n - 1);
      FloorsKept(run.states[n - 1], run.actions[n - 1], sys);
    }
  }

  /** A system whose calls begin after its first publication reads cleanly, whatever other systems do. */
  lemma LateCallersAreClean(run: Run, n: nat, sys: Sys)
    requires IsRun(run) && n < |run.states|
    requires forall k :: 0 <= k < n ==> BeginsAfterPublication(run.states[k], run.actions[k], sys)
    ensures CleanFor(run, n, sys)
  {
    forall k, v | 0 <= k < n ensures !UncleanRead(run.states[k], run.actions[k], sys, v) {
      LateCallersFloors(run, k, sys);
      RunInv(run, k);
      var s, a := run.states[k], run.actions[k];
      if a.Move? && a.t in s.calls && s.calls[a.t].sys == sys { assert CallOk(s.systems[sys], s.calls[a.t]); }
    }
  }

  // ------------------------------------------------------------------ the interleaving that goes wrong

  ghost predicate Follows(s: State, actions: seq<Action>, end: State)
    decreases |actions|
  {
    if actions == [] then end == s
    else CanDo(s, actions[0]) && Follows(Do(s, actions[0]), actions[1..], end)
  }

  lemma {:induction false} FollowsKeepsInv(s: State, actions: seq<Action>, end: State)
    requires Inv(s) && Follows(s, actions, end)
    ensures Inv(end)
    decreases |actions|
  {
    if actions != [] {
      StepKeepsInv(s, actions[0]);
      FollowsKeepsInv(Do(s, actions[0]), actions[1..], end);
    }
  }

  /** A call that found no snapshot is about to read the version, and by now the last snapshot
      lists an owner for the kind. */
  ghost predicate Straddles(s: State, t: Tid, kind: Bytes) {
    && t in s.calls && s.calls[t].sys in s.systems && s.calls[t].pc.Refresh? && s.calls[t].pc.r.LoadVersion?
    && var ss := s.systems[s.calls[t].sys];
       ss.pubs != [] && Hosts(Offers(ss.pubs[|ss.pubs| - 1].nodes), kind) != {}
  }

  function Moves(t: Tid, n: nat): seq<Action> { seq(n, _ => Move(t)) }

  /** n steps of one call with nobody else moving, on the cells it touches. */
  ghost function Solo(x: Cells, t: Tid, call: Call, n: nat): Option<(Cells, PC)>
    decreases n
  {
    if n == 0 then Some((x, call.pc))
    else if !Enabled(x, call.pc) then None
    else var e := Advance(x, t, call); Solo(e.cells, t, call.(pc := e.pc), n - 1)
  }

  lemma PutTwice(s: State, t: Tid, x: Cells, pc: PC, x': Cells, pc': PC)
    requires t in s.calls
    ensures Put(Put(s, t, x, pc), t, x', pc') == Put(s, t, x', pc')
  {
  }

  lemma FirstStep(s: State, t: Tid)
    requires t in s.calls && s.calls[t].sys in s.systems && Enabled(CellsOf(s, s.calls[t]), s.calls[t].pc)
    ensures var e := Advance(CellsOf(s, s.calls[t]), t, s.calls[t]); var s1 := Put(s, t, e.cells, e.pc);
            && CanDo(s, Move(t)) && Do(s, Move(t)) == s1
            && t in s1.calls && s1.calls[t] == s.calls[t].(pc := e.pc) && s1.calls[t].sys in s1.systems
            && CellsOf(s1, s1.calls[t]) == e.cells
  {
  }

  lemma FollowsFirst(s: State, t: Tid, n: nat, end: State)
    requires n > 0 && CanDo(s, Move(t)) && Follows(Do(s, Move(t)), Moves(t, n - 1), end)
    ensures Follows(s, Moves(t, n), end)
  {
    assert Moves(t, n)[1..] == Moves(t, n - 1) && Moves(t, n)[0] == Move(t);
  }

  lemma {:induction false} SoloRuns(s: State, t: Tid, n: nat)
    requires t in s.calls && s.calls[t].sys in s.systems
    requires Solo(CellsOf(s, s.calls[t]), t, s.calls[t], n).Some?
    ensures var r := Solo(CellsOf(s, s.calls[t]), t, s.calls[t], n).value; Follows(s, Moves(t, n), Put(s, t, r.0, r.1))
    decreases n
  {
    var call := s.calls[t];
    var x := CellsOf(s, call);
    var r := Solo(x, t, call, n).value;
    if n == 0 {
      assert Put(s, t, x, call.pc) == s;
    } else {
      var e := Advance(x, t, call);
      var s1 := Put(s, t, e.cells, e.pc);
      FirstStep(s, t);
      SoloRuns(s1, t, n - 1);
      PutTwice(s, t, e.cells, e.pc, r.0, r.1);
      FollowsFirst(s, t, n, Put(s, t, r.0, r.1));
    }
  }

  lemma {:induction false} FollowsConcat(s: State, xs: seq<Action>, mid: State, ys: seq<Action>, end: State)
    requires Follows(s, xs, mid) && Follows(mid, ys, end)
    ensures Follows(s, xs + ys, end)
    decreases |xs|
  {
    if xs == [] {
      assert xs + ys == ys;
    } else {
      FollowsConcat(Do(s, xs[0]), xs[1..], mid, ys, end);
      assert (xs + ys)[1..] == xs[1..] + ys;
    }
  }

  function EmptyStored(ss: SysState): SysState {
    ss.(gens := ss.gens + [Generation(ss.version, [])], mu := None)
  }

  /** The call stores an empty generation under the current version. */
  lemma StoresEmptyGeneration(x: Cells, t: Tid, call: Call)
    requires SysOk(call.sys, x.ss) && CallOk(x.ss, call) && x.ss.version >= 2
    requires call.pc.Refresh? && call.pc.r.LoadVersion?
    ensures Solo(x, t, call, 3) == Some((x.(ss := EmptyStored(x.ss)), Cache(|x.ss.gens|, LoadEntry)))
  {
    var gens := x.ss.gens;
    assert !Fresh(x.ss, call.pc.r.cur, x.ss.version);
    var e := Advance(x, t, call);
    assert e == Effect(x, Refresh(StoreGen(call.pc.r.cur, [], x.ss.version)));
    var c1 := call.(pc := e.pc);
    var x2 := x.(ss := x.ss.(gens := gens + [Generation(x.ss.version, [])]));
    assert Advance(x, t, c1) == Effect(x2, Refresh(UnlockMu(|gens|)));
    var c2 := c1.(pc := Refresh(UnlockMu(|gens|)));
    assert Advance(x2, t, c2) == Effect(x2.(ss := x2.ss.(mu := None)), Cache(|gens|, LoadEntry));
  }

  /** A call that begins next finds that generation current and answers "no owner". */
  lemma EmptyGenerationAnswers(x: Cells, u: Tid, call: Call)
    requires x.entry.None? && x.lock.None? && x.ss.gens != [] && call.ref.cached && call.ref.target.Cluster?
    requires x.ss.gens[|x.ss.gens| - 1] == Generation(x.ss.version, []) && call.pc == Refresh(ReadHint)
    ensures Solo(x, u, call, 8).Some? && Solo(x, u, call, 8).value.0.ss == x.ss
    ensures Solo(x, u, call, 8).value.1 == Done(Route([], None))
  {
    var g := |x.ss.gens| - 1;
    var none := Route([], None);
    assert Advance(x, u, call) == Effect(x, Refresh(LoadGen(x.ss.version)));
    var c1 := call.(pc := Refresh(LoadGen(x.ss.version)));
    assert Advance(x, u, c1) == Effect(x, Cache(g, LoadEntry));
    var c2 := c1.(pc := Cache(g, LoadEntry));
    assert Advance(x, u, c2) == Effect(x, Cache(g, WaitCache));
    var c3 := c2.(pc := Cache(g, WaitCache));
    var x4 := x.(lock := Some(u));
    assert Advance(x, u, c3) == Effect(x4, Cache(g, RecheckEntry));
    var c4 := c3.(pc := Cache(g, RecheckEntry));
    assert Eligible([], call.ref.target.kind) == {};
    assert Advance(x4, u, c4) == Effect(x4, Cache(g, CheckEntry(none)));
    var c5 := c4.(pc := Cache(g, CheckEntry(none)));
    assert Advance(x4, u, c5) == Effect(x4, Cache(g, PutEntry(none)));
    var c6 := c5.(pc := Cache(g, PutEntry(none)));
    var x7 := x4.(entry := Some(Entry(call.sys, x.ss.version, none)));
    assert Advance(x4, u, c6) == Effect(x7, Release(none));
    var c7 := c6.(pc := Release(none));
    assert Advance(x7, u, c7) == Effect(x7.(lock := None), Done(none));
    assert Solo(x4, u, c5, 3) == Some((x7.(lock := None), Done(none)));
    assert Solo(x, u, c2, 6) == Solo(x4, u, c5, 3);
  }

  /** Call u is over and what it returned is not the route for any snapshot it may have used. */
  ghost predicate AnsweredWrongly(s: State, u: Tid) {
    && u in s.calls && s.calls[u].sys in s.systems && s.calls[u].pc.Done? && s.calls[u].floor > 0
    && !Answer(s.systems[s.calls[u].sys], s.calls[u], s.calls[u].pc.route)
  }

  lemma NoOwnerIsWrong(ss: SysState, call: Call, kind: Bytes, name: Bytes)
    requires ss.pubs != [] && call.floor == |ss.pubs| && call.ref.target == Cluster(kind, name)
    requires Hosts(Offers(ss.pubs[|ss.pubs| - 1].nodes), kind) != {}
    ensures !Answer(ss, call, Route([], None))
  {
    var hosts := Hosts(Offers(ss.pubs[|ss.pubs| - 1].nodes), kind);
    assert OwnerOf(hosts, name) in hosts;
  }

  lemma WithAt<K, V>(m: map<K, V>, k: K)
    ensures With(m, k, At(m, k)) == m
  {
  }

  lemma StraddleSolo(s: State, t: Tid, kind: Bytes)
    requires Inv(s) && Straddles(s, t, kind)
    ensures var x := CellsOf(s, s.calls[t]);
            Solo(x, t, s.calls[t], 3) == Some((x.(ss := EmptyStored(x.ss)), Cache(|x.ss.gens|, LoadEntry)))
  {
    var call := s.calls[t];
    var x := CellsOf(s, call);
    assert CallOk(x.ss, call) && SysOk(call.sys, x.ss);
    assert x.ss.version >= 2 by { HostedIsLater(x.ss, kind); }
    StoresEmptyGeneration(x, t, call);
  }

  /** Nothing is offered at versions 0 and 1. */
  lemma HostedIsLater(ss: SysState, kind: Bytes)
    requires ProviderOk(ss) && ss.pubs != [] && Hosts(Offers(ss.pubs[|ss.pubs| - 1].nodes), kind) != {}
    ensures ss.version >= 2
  {
    assert Hosts({}, kind) == {};
  }

  lemma StraddleStores(s: State, t: Tid, kind: Bytes) returns (end: State)
    requires Straddles(s, t, kind)
    requires var x := CellsOf(s, s.calls[t]);
             Solo(x, t, s.calls[t], 3) == Some((x.(ss := EmptyStored(x.ss)), Cache(|x.ss.gens|, LoadEntry)))
    ensures Follows(s, Moves(t, 3), end)
    ensures s.calls[t].sys in end.systems && EmptyIsCurrent(end.systems[s.calls[t].sys], kind)
    ensures end.calls.Keys == s.calls.Keys && end.entries == s.entries && end.locks == s.locks
  {
    var x := CellsOf(s, s.calls[t]);
    var pc := Cache(|x.ss.gens|, LoadEntry);
    end := Put(s, t, x.(ss := EmptyStored(x.ss)), pc);
    SoloRuns(s, t, 3);
    PutSystem(s, t, EmptyStored(x.ss), pc);
  }

  lemma PutSystem(s: State, t: Tid, ss: SysState, pc: PC)
    requires t in s.calls && s.calls[t].sys in s.systems
    ensures var end := Put(s, t, CellsOf(s, s.calls[t]).(ss := ss), pc);
            && end.systems == s.systems[s.calls[t].sys := ss] && end.entries == s.entries && end.locks == s.locks
            && end.calls.Keys == s.calls.Keys
  {
    WithAt(s.entries, s.calls[t].ref);
    WithAt(s.locks, s.calls[t].ref);
  }

  /** The current generation is empty and claims the current version, though a host is published. */
  predicate EmptyIsCurrent(ss: SysState, kind: Bytes) {
    && ss.gens != [] && ss.gens[|ss.gens| - 1] == Generation(ss.version, [])
    && ss.pubs != [] && Hosts(Offers(ss.pubs[|ss.pubs| - 1].nodes), kind) != {}
  }

  lemma EmptyAnswerIsWrong(s: State, u: Tid, y: Cells)
    requires u in s.calls && s.calls[u].sys in s.systems && y.ss == s.systems[s.calls[u].sys]
    requires s.calls[u].ref.target.Cluster? && EmptyIsCurrent(y.ss, s.calls[u].ref.target.kind) && s.calls[u].floor == |y.ss.pubs|
    ensures AnsweredWrongly(Put(s, u, y, Done(Route([], None))), u)
  {
    var call := s.calls[u].(pc := Done(Route([], None)));
    NoOwnerIsWrong(y.ss, call, call.ref.target.kind, call.ref.target.name);
  }

  lemma LateCallRuns(s: State, u: Tid) returns (end: State)
    requires u in s.calls && s.calls[u].sys in s.systems && s.calls[u].pc == Refresh(ReadHint)
    requires var ref := s.calls[u].ref;
             ref !in s.entries && ref !in s.locks && ref.cached && ref.target.Cluster?
             && EmptyIsCurrent(s.systems[s.calls[u].sys], ref.target.kind)
    requires s.calls[u].floor == |s.systems[s.calls[u].sys].pubs|
    ensures Follows(s, Moves(u, 8), end) && AnsweredWrongly(end, u)
  {
    var call := s.calls[u];
    var x := CellsOf(s, call);
    EmptyGenerationAnswers(x, u, call);
    var r := Solo(x, u, call, 8).value;
    end := Put(s, u, r.0, r.1);
    assert Follows(s, Moves(u, 8), end) by { SoloRuns(s, u, 8); }
    EmptyAnswerIsWrong(s, u, r.0);
  }

  lemma LateCallAnswers(s: State, sys: Sys, u: Tid, ref: Ref) returns (end: State)
    requires sys in s.systems && u !in s.calls && ref !in s.entries && ref !in s.locks
    requires ref.cached && ref.target.Cluster? && EmptyIsCurrent(s.systems[sys], ref.target.kind)
    ensures Follows(s, [Begin(u, sys, ref)] + Moves(u, 8), end) && AnsweredWrongly(end, u)
  {
    var s1 := Do(s, Begin(u, sys, ref));
    end := LateCallRuns(s1, u);
    assert Follows(s, [Begin(u, sys, ref)], s1) by { assert Follows(s1, [], s1); }
    FollowsConcat(s, [Begin(u, sys, ref)], s1, Moves(u, 8), end);
  }

  /** The necessity half: from every state in which a call straddles the first publications, some
      continuation lets a call that begins after them answer wrongly. */
  lemma StraddleMisroutes(s: State, t: Tid, kind: Bytes, name: Bytes, u: Tid, ref: Ref) returns (actions: seq<Action>, end: State)
    requires Inv(s) && Straddles(s, t, kind) && u !in s.calls
    requires ref.cached && ref.target == Cluster(kind, name) && ref !in s.entries && ref !in s.locks
    ensures Follows(s, actions, end) && AnsweredWrongly(end, u)
  {
    var sys := s.calls[t].sys;
    StraddleSolo(s, t, kind);
    var s1 := StraddleStores(s, t, kind);
    end := LateCallAnswers(s1, sys, u, ref);
    var late := [Begin(u, sys, ref)] + Moves(u, 8);
    actions := Moves(t, 3) + late;
    FollowsConcat(s, Moves(t, 3), s1, late, end);
  }

  lemma OfferIsHosted(nodes: seq<Node>) returns (kind: Bytes)
    requires Offers(nodes) != {}
    ensures Hosts(Offers(nodes), kind) != {}
  {
    var o :| o in Offers(nodes);
    kind := o.kind;
    assert o.address in Hosts(Offers(nodes), kind);
  }

  lemma PublishStraddles(s: State, t: Tid, nodes: seq<Node>, kind: Bytes)
    requires CanDo(s, Move(t)) && s.calls[t].pc.Refresh? && s.calls[t].pc.r.LoadVersion?
    requires CanDo(s, Publish(s.calls[t].sys, nodes)) && Hosts(Offers(nodes), kind) != {}
    ensures Straddles(Do(s, Publish(s.calls[t].sys, nodes)), t, kind)
  {
  }

  /** Whenever the version is about to be read in an unclean state, the state straddles for some
      kind, at once or as soon as the provider publishes what it holds. */
  lemma UncleanStraddles(s: State, t: Tid, nodes: seq<Node>) returns (kind: Bytes)
    requires CanDo(s, Move(t)) && s.calls[t].pc.Refresh? && s.calls[t].pc.r.LoadVersion?
    requires !NothingToMiss(s.systems[s.calls[t].sys]) && CanDo(s, Publish(s.calls[t].sys, nodes))
    ensures Straddles(s, t, kind) || Straddles(Do(s, Publish(s.calls[t].sys, nodes)), t, kind)
  {
    var ss := s.systems[s.calls[t].sys];
    if ss.pubs != [] && Offers(ss.pubs[|ss.pubs| - 1].nodes) != {} {
      kind := OfferIsHosted(ss.pubs[|ss.pubs| - 1].nodes);
    } else {
      kind := OfferIsHosted(nodes);
      PublishStraddles(s, t, nodes, kind);
    }
  }

  // ------------------------------------------------------------------ such a state is reachable

  function AfterStart(sys: Sys, t: Tid, ref: Ref, ss: SysState): State {
    State(map[sys := ss], map[], map[], map[t := Call(sys, ref, 0, Refresh(LoadVersion(None)))])
  }

  lemma EarlyCallFindsNothing(s: State, sys: Sys, t: Tid, ref: Ref)
    requires Initial(s) && s.systems.Keys == {sys} && ref.target.Cluster?
    ensures Follows(s, [Begin(t, sys, ref)] + Moves(t, 5), AfterStart(sys, t, ref, SysState(0, [{}], [], [], Some(t), map[])))
  {
    var s1 := Do(s, Begin(t, sys, ref));
    var call := s1.calls[t];
    var x := CellsOf(s1, call);
    var x3 := x.(ss := x.ss.(mu := Some(t)));
    assert Advance(x, t, call) == Effect(x, Refresh(LoadGen(0)));
    assert Advance(x, t, call.(pc := Refresh(LoadGen(0)))) == Effect(x, Refresh(WaitMu(0)));
    assert Advance(x, t, call.(pc := Refresh(WaitMu(0)))) == Effect(x3, Refresh(Recheck(0)));
    assert Advance(x3, t, call.(pc := Refresh(Recheck(0)))) == Effect(x3, Refresh(LoadSnap(None)));
    assert Advance(x3, t, call.(pc := Refresh(LoadSnap(None)))) == Effect(x3, Refresh(LoadVersion(None)));
    assert Solo(x3, t, call.(pc := Refresh(Recheck(0))), 2) == Some((x3, Refresh(LoadVersion(None))));
    assert Solo(x, t, call, 5) == Some((x3, Refresh(LoadVersion(None))));
    SoloRuns(s1, t, 5);
    assert Put(s1, t, x3, Refresh(LoadVersion(None))) == AfterStart(sys, t, ref, x3.ss);
    assert Follows(s1, [], s1);
    assert Follows(s, [Begin(t, sys, ref)], s1);
    FollowsConcat(s, [Begin(t, sys, ref)], s1, Moves(t, 5), AfterStart(sys, t, ref, x3.ss));
  }

  lemma ProviderMoves(sys: Sys, t: Tid, ref: Ref, ss: SysState, a: Action)
    requires ProviderEnabled(ss, a) && !a.Begin? && !a.Move? && a.sys == sys
    ensures Follows(AfterStart(sys, t, ref, ss), [a], AfterStart(sys, t, ref, ProviderStep(ss, a)))
  {
    var s, s' := AfterStart(sys, t, ref, ss), AfterStart(sys, t, ref, ProviderStep(ss, a));
    assert Do(s, a) == s';
    assert Follows(s', [], s');
  }

  function Joined(t: Tid, node: Node): SysState {
    SysState(2, [{}, {}, Offers([node])], [Snapshot(1, []), Snapshot(2, [node])], [], Some(t), map[])
  }

  lemma ProviderMovesTwice(sys: Sys, t: Tid, ref: Ref, ss: SysState, a: Action, b: Action)
    requires ProviderEnabled(ss, a) && !a.Begin? && !a.Move? && a.sys == sys
    requires ProviderEnabled(ProviderStep(ss, a), b) && !b.Begin? && !b.Move? && b.sys == sys
    ensures Follows(AfterStart(sys, t, ref, ss), [a, b], AfterStart(sys, t, ref, ProviderStep(ProviderStep(ss, a), b)))
  {
    var s1 := ProviderStep(ss, a);
    ProviderMoves(sys, t, ref, ss, a);
    ProviderMoves(sys, t, ref, s1, b);
    FollowsConcat(AfterStart(sys, t, ref, ss), [a], AfterStart(sys, t, ref, s1), [b], AfterStart(sys, t, ref, ProviderStep(s1, b)));
    assert [a] + [b] == [a, b];
  }

  lemma MemberJoins(sys: Sys, t: Tid, ref: Ref, node: Node)
    ensures Follows(AfterStart(sys, t, ref, SysState(0, [{}], [], [], Some(t), map[])),
                    [Start(sys), Publish(sys, [])] + [Bump(sys, Offers([node])), Publish(sys, [node])],
                    AfterStart(sys, t, ref, Joined(t, node)))
  {
    var s0 := SysState(0, [{}], [], [], Some(t), map[]);
    var s2 := SysState(1, [{}, {}], [Snapshot(1, [])], [], Some(t), map[]);
    assert Offers([]) == {};
    assert ProviderStep(ProviderStep(s0, Start(sys)), Publish(sys, [])) == s2;
    ProviderMovesTwice(sys, t, ref, s0, Start(sys), Publish(sys, []));
    assert ProviderStep(ProviderStep(s2, Bump(sys, Offers([node]))), Publish(sys, [node])) == Joined(t, node);
    ProviderMovesTwice(sys, t, ref, s2, Bump(sys, Offers([node])), Publish(sys, [node]));
    FollowsConcat(AfterStart(sys, t, ref, s0), [Start(sys), Publish(sys, [])], AfterStart(sys, t, ref, s2),
                  [Bump(sys, Offers([node])), Publish(sys, [node])], AfterStart(sys, t, ref, Joined(t, node)));
  }

  /** A call that begins before start, and a member that joins before the call reads the version. */
  lemma StraddleIsReachable(s: State, sys: Sys, t: Tid, ref: Ref, node: Node, kind: Bytes) returns (actions: seq<Action>, end: State)
    requires Initial(s) && s.systems.Keys == {sys} && ref.target.Cluster? && node.address != [] && kind in node.kinds
    ensures Follows(s, actions, end) && Straddles(end, t, kind) && Inv(end)
  {
    var head := [Begin(t, sys, ref)] + Moves(t, 5);
    var join := [Start(sys), Publish(sys, [])] + [Bump(sys, Offers([node])), Publish(sys, [node])];
    end := AfterStart(sys, t, ref, Joined(t, node));
    actions := head + join;
    EarlyCallFindsNothing(s, sys, t, ref);
    MemberJoins(sys, t, ref, node);
    FollowsConcat(s, head, AfterStart(sys, t, ref, SysState(0, [{}], [], [], Some(t), map[])), join, end);
    JoinedStraddles(sys, t, ref, node, kind);
    InitialInv(s);
    FollowsKeepsInv(s, actions, end);
  }

  lemma JoinedStraddles(sys: Sys, t: Tid, ref: Ref, node: Node, kind: Bytes)
    requires node.address != [] && kind in node.kinds
    ensures Straddles(AfterStart(sys, t, ref, Joined(t, node)), t, kind)
  {
    assert Offer(kind, node.address) in Offers([node]) by { assert [node][0] == node; }
    assert node.address in Hosts(Offers([node]), kind);
  }

  lemma InitialInv(s: State)
    requires Initial(s)
    ensures Inv(s)
  {
  }
}
