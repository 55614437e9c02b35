/** What a creator returns and leaves behind, over every run, and that creators come to an end. */
module ProcessorCreationOutcomes {
  import opened Options
  import opened ProcessorCreation
  import opened ProcessorCreationSafety

  // ------------------------------------------------------------------ causes

  /** Creator t looks its id up and finds processor p registered. */
  predicate Hits(s: State, a: Action, t: Tid, p: Proc) {
    && a.Step? && a.t == t && t in s.threads && (s.threads[t].pc.FastLookup? || s.threads[t].pc.Lookup?)
    && s.threads[t].id in s.g.registry && s.g.registry[s.threads[t].id] == p
  }

  predicate Removes(a: Action, id: Id) { a.Remove? && a.id == id }

  /** What has happened so far: who found which processor, whose producer failed, and which ids a removal
      named. */
  datatype Past = Past(hits: iset<(Tid, Proc)>, failed: iset<Tid>, removed: iset<Id>)

  ghost predicate After(p: Past, s: State, a: Action, q: Past) {
    && q.hits == p.hits + (iset x: (Tid, Proc) | Hits(s, a, x.0, x.1))
    && q.failed == p.failed + (iset t | a == Step(t, Fail))
    && q.removed == p.removed + (iset id | Removes(a, id))
  }

  ghost predicate NoHit(p: Past, t: Tid) { forall x :: (t, x) !in p.hits }

  ghost predicate OnlyHit(p: Past, t: Tid, x: Proc) { (t, x) in p.hits && forall y :: (t, y) in p.hits ==> y == x }

  /** While nobody removed the id it stays bound to the processor. */
  ghost predicate Bound(g: Globals, p: Past, id: Id, proc: Proc) {
    id !in p.removed ==> id in g.registry && g.registry[id] == proc
  }

  ghost predicate OutcomeFrom(g: Globals, p: Past, t: Tid, e: Ending) {
    match e.out
    case Created(x) =>
      && x in g.builder && g.builder[x] == t && x in g.starts && g.starts[x] == 1
      && t !in p.failed && NoHit(p, t) && Bound(g, p, e.id, x)
    case Found(x) => e.policy == GetOrSpawn && OnlyHit(p, t, x) && x in g.starts && t !in p.failed && Bound(g, p, e.id, x)
    case Refused(x) => e.policy == SpawnNew && OnlyHit(p, t, x) && x in g.starts && t !in p.failed && Bound(g, p, e.id, x)
    case Failed => t in p.failed && NoHit(p, t)
  }

  ghost predicate ThreadFrom(g: Globals, p: Past, t: Tid, th: Thread) {
    match th.pc
    case UnlockSlot(_, out) => OutcomeFrom(g, p, t, Ending(th.id, th.policy, out))
    case DropSlot(_, out) => OutcomeFrom(g, p, t, Ending(th.id, th.policy, out))
    case Init(_, x) => t !in p.failed && NoHit(p, t) && Bound(g, p, th.id, x)
    case FastLookup => t !in p.failed && NoHit(p, t) && th.policy == GetOrSpawn
    case _ => t !in p.failed && NoHit(p, t)
  }

  ghost predicate Sourced(s: State, p: Past) {
    && (forall t :: t in s.threads ==> t < s.g.nextTid && ThreadFrom(s.g, p, t, s.threads[t]))
    && (forall t :: t in s.g.ends ==> t < s.g.nextTid && t !in s.threads && OutcomeFrom(s.g, p, t, s.g.ends[t]))
    && (forall x :: x in p.hits ==> x.0 < s.g.nextTid) && (forall t :: t in p.failed ==> t < s.g.nextTid)
  }

  // ------------------------------------------------------------------ one step

  /** A step binds only a free id, starts only a processor of its own, and forgets nothing. */
  ghost predicate Grows(g: Globals, h: Globals, t: Tid) {
    && (forall id :: id in g.registry ==> id in h.registry && h.registry[id] == g.registry[id])
    && (forall x :: x in g.builder ==> x in h.builder && (x < g.nextProc ==> h.builder[x] == g.builder[x]))
    && (forall x :: x in g.starts ==> x in h.starts && (x in g.builder && g.builder[x] != t ==> h.starts[x] == g.starts[x]))
  }

  lemma StepGrows(g: Globals, t: Tid, th: Thread, c: Choice)
    requires Local(g, t, th, c)
    ensures Grows(g, LocalStep(g, t, th, c).g, t)
  {
    if !Makes(th.pc) { MakesNothing(g, t, th, c); }
  }

  lemma OutcomeKept(g: Globals, h: Globals, p: Past, q: Past, s: State, a: Action, t: Tid, e: Ending)
    requires OutcomeFrom(g, p, t, e) && After(p, s, a, q) && a.Step? && a.t != t && ProcInv(g) && Grows(g, h, a.t)
    ensures OutcomeFrom(h, q, t, e)
  {
  }

  lemma ThreadKept(g: Globals, h: Globals, p: Past, q: Past, s: State, a: Action, t: Tid, th: Thread)
    requires ThreadFrom(g, p, t, th) && After(p, s, a, q) && a.Step? && a.t != t && ProcInv(g) && Grows(g, h, a.t)
    ensures ThreadFrom(h, q, t, th)
  {
    match th.pc
    case UnlockSlot(_, out) => OutcomeKept(g, h, p, q, s, a, t, Ending(th.id, th.policy, out));
    case DropSlot(_, out) => OutcomeKept(g, h, p, q, s, a, t, Ending(th.id, th.policy, out));
    case _ =>
  }

  /** The mover's own new point, or what it returns. */
  ghost predicate OwnFrom(t: Tid, th: Thread, e: Effect, q: Past) {
    if e.next.Some? then ThreadFrom(e.g, q, t, th.(pc := e.next.value))
    else t in e.g.ends && OutcomeFrom(e.g, q, t, e.g.ends[t])
  }

  lemma LookupFrom(s: State, t: Tid, c: Choice, p: Past, q: Past)
    requires t in s.threads && Local(s.g, t, s.threads[t], c) && ThreadFrom(s.g, p, t, s.threads[t]) && After(p, s, Step(t, c), q)
    requires s.threads[t].pc.FastLookup? || s.threads[t].pc.Lookup?
    ensures OwnFrom(t, s.threads[t], LocalStep(s.g, t, s.threads[t], c), q)
  {
    var th := s.threads[t];
    if th.id in s.g.registry { assert Hits(s, Step(t, c), t, s.g.registry[th.id]); }
  }

  lemma MakeFrom(s: State, t: Tid, c: Choice, p: Past, q: Past)
    requires t in s.threads && Local(s.g, t, s.threads[t], c) && ThreadFrom(s.g, p, t, s.threads[t]) && After(p, s, Step(t, c), q)
    requires s.threads[t].pc.Build? || s.threads[t].pc.Register? || s.threads[t].pc.Init?
    ensures OwnFrom(t, s.threads[t], LocalStep(s.g, t, s.threads[t], c), q)
  {
  }

  lemma LeaveFrom(s: State, t: Tid, c: Choice, p: Past, q: Past)
    requires t in s.threads && Local(s.g, t, s.threads[t], c) && ThreadFrom(s.g, p, t, s.threads[t]) && After(p, s, Step(t, c), q)
    requires s.threads[t].pc.TakeSlot? || s.threads[t].pc.LockSlot? || s.threads[t].pc.UnlockSlot? || s.threads[t].pc.DropSlot?
    ensures OwnFrom(t, s.threads[t], LocalStep(s.g, t, s.threads[t], c), q)
  {
  }

  lemma OwnStepFrom(s: State, t: Tid, c: Choice, p: Past, q: Past)
    requires Inv(s) && Enabled(s, Step(t, c)) && Sourced(s, p) && After(p, s, Step(t, c), q)
    ensures OwnFrom(t, s.threads[t], LocalStep(s.g, t, s.threads[t], c), q)
  {
    assert ThreadInv(s.g, t, s.threads[t]);
    match s.threads[t].pc
    case FastLookup => LookupFrom(s, t, c, p, q);
    case Lookup(_) => LookupFrom(s, t, c, p, q);
    case Build(_) => MakeFrom(s, t, c, p, q);
    case Register(_, _) => MakeFrom(s, t, c, p, q);
    case Init(_, _) => MakeFrom(s, t, c, p, q);
    case _ => LeaveFrom(s, t, c, p, q);
  }

  /** Only the mover's own ending is new. */
  lemma EndsStep(g: Globals, t: Tid, th: Thread, c: Choice)
    requires CanStep(g, th, c)
    ensures LocalStep(g, t, th, c).g.nextTid == g.nextTid
    ensures var e := LocalStep(g, t, th, c);
            forall u :: u in e.g.ends ==> (u == t && e.next.None?) || (u in g.ends && e.g.ends[u] == g.ends[u])
  {
    if Makes(th.pc) { MakesGoOn(g, t, th, c); }
  }

  lemma MakesGoOn(g: Globals, t: Tid, th: Thread, c: Choice)
    requires Makes(th.pc)
    ensures LocalStep(g, t, th, c).g.ends == g.ends && LocalStep(g, t, th, c).g.nextTid == g.nextTid
  {
  }

  lemma StepSourced(s: State, t: Tid, c: Choice, p: Past, q: Past)
    requires Inv(s) && Enabled(s, Step(t, c)) && Sourced(s, p) && After(p, s, Step(t, c), q)
    ensures Sourced(Next(s, Step(t, c)), q)
  {
    var th, s' := s.threads[t], Next(s, Step(t, c));
    assert ThreadInv(s.g, t, th);
    OwnStepFrom(s, t, c, p, q);
    EndsStep(s.g, t, th, c);
    StepGrows(s.g, t, th, c);
    forall u | u in s'.threads ensures ThreadFrom(s'.g, q, u, s'.threads[u]) {
      if u != t { ThreadKept(s.g, s'.g, p, q, s, Step(t, c), u, s.threads[u]); }
    }
    forall u | u in s'.g.ends ensures OutcomeFrom(s'.g, q, u, s'.g.ends[u]) {
      if u != t { OutcomeKept(s.g, s'.g, p, q, s, Step(t, c), u, s.g.ends[u]); }
    }
  }

  lemma OtherOutcome(s: State, a: Action, p: Past, q: Past, t: Tid, e: Ending)
    requires !a.Step? && OutcomeFrom(s.g, p, t, e) && After(p, s, a, q)
    ensures OutcomeFrom(Next(s, a).g, q, t, e)
  {
  }

  lemma OtherThread(s: State, a: Action, p: Past, q: Past, t: Tid, th: Thread)
    requires !a.Step? && ThreadFrom(s.g, p, t, th) && After(p, s, a, q)
    ensures ThreadFrom(Next(s, a).g, q, t, th)
  {
    match th.pc
    case UnlockSlot(_, out) => OtherOutcome(s, a, p, q, t, Ending(th.id, th.policy, out));
    case DropSlot(_, out) => OtherOutcome(s, a, p, q, t, Ending(th.id, th.policy, out));
    case _ =>
  }

  lemma OtherSourced(s: State, a: Action, p: Past, q: Past)
    requires Inv(s) && !a.Step? && Sourced(s, p) && After(p, s, a, q)
    ensures Sourced(Next(s, a), q)
  {
    var s' := Next(s, a);
    forall u | u in s'.threads ensures u < s'.g.nextTid && ThreadFrom(s'.g, q, u, s'.threads[u]) {
      if u in s.threads && s'.threads[u] == s.threads[u] { OtherThread(s, a, p, q, u, s.threads[u]); }
    }
    forall u | u in s'.g.ends ensures OutcomeFrom(s'.g, q, u, s'.g.ends[u]) { OtherOutcome(s, a, p, q, u, s.g.ends[u]); }
  }

  // ------------------------------------------------------------------ over runs

  ghost predicate HitBefore(run: seq<State>, acts: seq<Action>, n: nat, t: Tid, p: Proc)
    requires n <= |acts| <= |run|
  {
    exists i :: 0 <= i < n && Hits(run[i], acts[i], t, p)
  }

  ghost predicate RemovedBefore(acts: seq<Action>, n: nat, id: Id)
    requires n <= |acts|
  {
    exists i :: 0 <= i < n && Removes(acts[i], id)
  }

  ghost function PastOf(run: seq<State>, acts: seq<Action>, n: nat): Past
    requires n <= |acts| <= |run|
  {
    Past((iset x: (Tid, Proc) | HitBefore(run, acts, n, x.0, x.1)), (iset t | Step(t, Fail) in acts[..n]),
         (iset id | RemovedBefore(acts, n, id)))
  }

  lemma PastGrows(run: seq<State>, acts: seq<Action>, n: nat)
    requires 0 < n <= |acts| <= |run|
    ensures After(PastOf(run, acts, n - 1), run[n - 1], acts[n - 1], PastOf(run, acts, n))
  {
    assert acts[..n] == acts[..n - 1] + [acts[n - 1]];
  }

  lemma {:induction false} RunSourced(run: seq<State>, acts: seq<Action>, n: nat)
    requires IsRun(run, acts) && n <= |acts|
    ensures Sourced(run[n], PastOf(run, acts, n))
  {
    if n > 0 {
      RunSourced(run, acts, n - 1);
      RunInv(run, acts, n - 1);
      PastGrows(run, acts, n);
      NextSourced(run[n - 1], acts[n - 1], PastOf(run, acts, n - 1), PastOf(run, acts, n));
    }
  }

  lemma NextSourced(s: State, a: Action, p: Past, q: Past)
    requires Inv(s) && Enabled(s, a) && Sourced(s, p) && After(p, s, a, q)
    ensures Sourced(Next(s, a), q)
  {
    if a.Step? { StepSourced(s, a.t, a.c, p, q); } else { OtherSourced(s, a, p, q); }
  }

  /** What a creator returns, exactly: nothing if and only if its producer failed; an existing processor if
      and only if one of its lookups found that processor, and then the explicit spawn is a refusal; and
      otherwise the processor that it built itself, published and started once. */
  lemma OutcomeHasItsCause(run: seq<State>, acts: seq<Action>, n: nat, t: Tid)
    requires IsRun(run, acts) && n <= |acts| && t in run[n].g.ends
    ensures var g := run[n].g; var e := g.ends[t];
            && (e.out == Failed <==> Step(t, Fail) in acts[..n])
            && (forall p: Proc :: HitBefore(run, acts, n, t, p) <==> e.out == Existing(e.policy, p))
            && (e.out.Created? ==> e.out.p in g.builder && g.builder[e.out.p] == t && e.out.p in g.starts && g.starts[e.out.p] == 1)
  {
    RunSourced(run, acts, n);
    var past, e := PastOf(run, acts, n), run[n].g.ends[t];
    assert OutcomeFrom(run[n].g, past, t, e);
    forall p: Proc ensures HitBefore(run, acts, n, t, p) <==> e.out == Existing(e.policy, p) {
      assert HitBefore(run, acts, n, t, p) <==> (t, p) in past.hits;
    }
  }

  /** Spawning leaves the id registered: as long as nobody removed it, a creator whose producer did not fail
      returns a processor to which its id is bound, and once all creators are done that processor was
      started exactly once. */
  lemma SpawnLeavesRegistered(run: seq<State>, acts: seq<Action>, n: nat, t: Tid)
    requires IsRun(run, acts) && n <= |acts| && t in run[n].g.ends
    requires Step(t, Fail) !in acts[..n] && !RemovedBefore(acts, n, run[n].g.ends[t].id)
    ensures var g := run[n].g; var e := g.ends[t]; e.out != Failed && e.id in g.registry && g.registry[e.id] == e.out.p
    ensures run[n].threads == map[] ==> run[n].g.ends[t].out.p in run[n].g.starts && run[n].g.starts[run[n].g.ends[t].out.p] == 1
  {
    RunSourced(run, acts, n);
    RunInv(run, acts, n);
    var s, past := run[n], PastOf(run, acts, n);
    var e := s.g.ends[t];
    assert OutcomeFrom(s.g, past, t, e);
    assert e.id !in past.removed && t !in past.failed;
    assert s.g.starts[e.out.p] <= 1;
  }

  // ------------------------------------------------------------------ creators come to an end

  /** How many steps a creator has left at most. */
  function StepsLeft(pc: PC): nat {
    match pc
    case FastLookup => 8
    case TakeSlot => 7
    case LockSlot(_) => 6
    case Lookup(_) => 5
    case Build(_) => 4
    case Register(_, _) => 3
    case Init(_, _) => 2
    case UnlockSlot(_, _) => 1
    case DropSlot(_, _) => 0
  }

  /** Every step of a creator brings it nearer to its end. */
  lemma CreatorAdvances(g: Globals, t: Tid, th: Thread, c: Choice)
    ensures var e := LocalStep(g, t, th, c); e.next.Some? ==> StepsLeft(e.next.value) < StepsLeft(th.pc)
  {
  }

  /** A creator waits only for a slot that another creator of the same id holds, and that one can move: the
      others proceed, whatever the id. */
  lemma HolderMoves(s: State, t: Tid)
    requires Reachable(s) && t in s.threads && !Enabled(s, Step(t, Go))
    ensures exists u :: u in s.threads && Enabled(s, Step(u, Go)) && Inside(s.threads[u].pc) && s.threads[u].id == s.threads[t].id
  {
    ReachableInv(s);
    assert ThreadInv(s.g, t, s.threads[t]);
    var k := s.threads[t].pc.slot;
    var u := s.g.slots[k].locked;
    assert u in s.g.slots[k].who;
    assert ThreadInv(s.g, u, s.threads[u]);
  }

  // ------------------------------------------------------------------ hits and removals

  /** A hit takes no creation lock: getOrSpawn of a registered id returns it in one step and leaves the slots
      and the registry alone. */
  lemma HitTakesNoLock(s: State, id: Id)
    requires Reachable(s) && id in s.g.registry
    ensures var t := s.g.nextTid; Enabled(Next(s, NewCreator(id, GetOrSpawn)), Step(t, Go))
    ensures var t := s.g.nextTid; var end := Next(Next(s, NewCreator(id, GetOrSpawn)), Step(t, Go));
            && t !in end.threads && t in end.g.ends && end.g.ends[t].out == Found(s.g.registry[id])
            && end.g.slots == s.g.slots && end.g.active == s.g.active && end.g.registry == s.g.registry
  {
  }

  /** A stopping processor takes its own entry away, and never that of a later one under its id. */
  lemma RemovalIsItsOwn(s: State, id: Id, p: Proc, other: Id)
    ensures var r := Next(s, Remove(id, p)).g.registry;
            && (id in r ==> r[id] != p)
            && (other in s.g.registry && !(other == id && s.g.registry[other] == p) ==> other in r && r[other] == s.g.registry[other])
            && (other in r ==> other in s.g.registry)
  {
  }
}
