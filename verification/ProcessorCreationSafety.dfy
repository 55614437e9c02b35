/** The creation protocol keeps its invariant, and what follows for creators and processors. */
module ProcessorCreationSafety {
  import opened Options
  import opened ProcessorCreation

  ghost predicate Local(g: Globals, t: Tid, th: Thread, c: Choice) {
    GlobalInv(g) && ThreadInv(g, t, th) && CanStep(g, th, c)
  }

  /** A slot in use is the one the table holds for its id. */
  lemma UsedSlotIsActive(g: Globals, t: Tid, th: Thread)
    requires SlotInv(g) && SlotKnown(g, t, th) && !th.pc.FastLookup? && !th.pc.TakeSlot?
    ensures g.slots[th.pc.slot].users > 0 && th.id in g.active && g.active[th.id] == th.pc.slot
  {
    assert t in g.slots[th.pc.slot].who;
  }

  /** Two goroutines between lock and unlock of the same id are the same goroutine. */
  lemma InsideIsExclusive(g: Globals, t: Tid, th: Thread, u: Tid, thu: Thread)
    requires SlotInv(g) && SlotKnown(g, t, th) && SlotKnown(g, u, thu)
    requires Inside(th.pc) && Inside(thu.pc) && th.id == thu.id
    ensures t == u
  {
    UsedSlotIsActive(g, t, th);
    UsedSlotIsActive(g, u, thu);
  }

  lemma SlotsJoin(g: Globals, t: Tid, id: Id, policy: Policy)
    requires SlotInv(g) && SlotKnown(g, t, Thread(TakeSlot, id, policy)) && id in g.active
    ensures SlotInv(Take(g, t, id).0)
  {
  }

  lemma SlotsCreate(g: Globals, t: Tid, id: Id, policy: Policy)
    requires SlotInv(g) && SlotKnown(g, t, Thread(TakeSlot, id, policy)) && id !in g.active
    ensures SlotInv(Take(g, t, id).0)
  {
  }

  lemma SlotsDrop(g: Globals, t: Tid, th: Thread)
    requires SlotInv(g) && SlotKnown(g, t, th) && th.pc.DropSlot?
    ensures SlotInv(Drop(g, t, th.id, th.pc.slot))
  {
    var k := th.pc.slot;
    UsedSlotIsActive(g, t, th);
    assert |g.slots[k].who - {t}| == |g.slots[k].who| - 1;
  }

  lemma SlotsRelock(g: Globals, k: SlotRef, locked: Tid)
    requires SlotInv(g) && k in g.slots && (locked == 0 || locked in g.slots[k].who)
    ensures SlotInv(g.(slots := g.slots[k := g.slots[k].(locked := locked)]))
  {
  }

  lemma SlotsStep(g: Globals, t: Tid, th: Thread, c: Choice)
    requires Local(g, t, th, c)
    ensures SlotInv(LocalStep(g, t, th, c).g)
  {
    match th.pc {
      case TakeSlot => if th.id in g.active { SlotsJoin(g, t, th.id, th.policy); } else { SlotsCreate(g, t, th.id, th.policy); }
      case LockSlot(k) => SlotsRelock(g, k, t);
      case UnlockSlot(k, _) => SlotsRelock(g, k, 0);
      case DropSlot(k, _) => SlotsDrop(g, t, th);
      case _ => SlotsSame(g, t, th, c);
    }
  }

  lemma SlotsSame(g: Globals, t: Tid, th: Thread, c: Choice)
    requires Local(g, t, th, c) && !th.pc.TakeSlot? && !th.pc.LockSlot? && !th.pc.UnlockSlot? && !th.pc.DropSlot?
    ensures SlotInv(LocalStep(g, t, th, c).g)
  {
    var h := LocalStep(g, t, th, c).g;
    assert h.slots == g.slots && h.active == g.active && h.nextSlot == g.nextSlot && h.nextTid == g.nextTid;
  }

  lemma ProcsStep(g: Globals, t: Tid, th: Thread, c: Choice)
    requires Local(g, t, th, c)
    ensures ProcInv(LocalStep(g, t, th, c).g)
  {
    if !Makes(th.pc) { MakesNothing(g, t, th, c); }
  }

  /** The points at which a creator builds, publishes and starts. */
  predicate Makes(pc: PC) { pc.Build? || pc.Register? || pc.Init? }

  lemma MakesNothing(g: Globals, t: Tid, th: Thread, c: Choice)
    requires !Makes(th.pc)
    ensures var h := LocalStep(g, t, th, c).g;
            h.registry == g.registry && h.starts == g.starts && h.builder == g.builder && h.nextProc == g.nextProc
  {
    match th.pc
    case FastLookup =>
    case TakeSlot =>
    case DropSlot(_, _) =>
    case _ =>
  }

  lemma MakesKeepSlots(g: Globals, t: Tid, th: Thread, c: Choice)
    requires Makes(th.pc)
    ensures var e := LocalStep(g, t, th, c);
            && e.g.slots == g.slots && e.g.active == g.active && e.g.nextTid == g.nextTid && e.next.Some?
            && !e.next.value.FastLookup? && !e.next.value.TakeSlot? && e.next.value.slot == th.pc.slot && Inside(e.next.value)
  {
  }

  lemma SelfTake(g: Globals, t: Tid, th: Thread)
    requires Local(g, t, th, Go) && th.pc.TakeSlot?
    ensures var (h, k) := Take(g, t, th.id); SlotKnown(h, t, th.(pc := LockSlot(k)))
  {
  }

  lemma SelfSlot(g: Globals, t: Tid, th: Thread, c: Choice)
    requires SlotKnown(g, t, th) && CanStep(g, th, c) && !th.pc.TakeSlot?
    ensures var e := LocalStep(g, t, th, c); e.next.Some? ==> SlotKnown(e.g, t, th.(pc := e.next.value))
  {
    if Makes(th.pc) { MakesKeepSlots(g, t, th, c); }
  }

  lemma SelfProc(g: Globals, t: Tid, th: Thread, c: Choice)
    requires Local(g, t, th, c)
    ensures var e := LocalStep(g, t, th, c); e.next.Some? ==> ProcKnown(e.g, t, th.(pc := e.next.value))
  {
  }

  lemma OtherTake(g: Globals, t: Tid, id: Id, u: Tid, thu: Thread)
    requires SlotInv(g) && u != t && SlotKnown(g, u, thu)
    ensures SlotKnown(Take(g, t, id).0, u, thu)
  {
    if id in g.active { OtherJoin(g, t, id, u, thu); }
  }

  lemma OtherJoin(g: Globals, t: Tid, id: Id, u: Tid, thu: Thread)
    requires SlotInv(g) && u != t && SlotKnown(g, u, thu) && id in g.active
    ensures SlotKnown(Take(g, t, id).0, u, thu)
  {
  }

  lemma OtherDrop(g: Globals, t: Tid, id: Id, k: SlotRef, u: Tid, thu: Thread)
    requires k in g.slots && u != t && SlotKnown(g, u, thu)
    ensures SlotKnown(Drop(g, t, id, k), u, thu)
  {
  }

  lemma OtherRelock(g: Globals, k: SlotRef, locked: Tid, u: Tid, thu: Thread)
    requires k in g.slots && SlotKnown(g, u, thu) && locked != u && g.slots[k].locked != u
    ensures SlotKnown(g.(slots := g.slots[k := g.slots[k].(locked := locked)]), u, thu)
  {
  }

  lemma OtherSlot(g: Globals, t: Tid, th: Thread, c: Choice, u: Tid, thu: Thread)
    requires Local(g, t, th, c) && u != t && SlotKnown(g, u, thu)
    ensures SlotKnown(LocalStep(g, t, th, c).g, u, thu)
  {
    match th.pc {
      case TakeSlot => OtherTake(g, t, th.id, u, thu);
      case LockSlot(k) => OtherRelock(g, k, t, u, thu);
      case UnlockSlot(k, _) => OtherRelock(g, k, 0, u, thu);
      case DropSlot(k, _) => OtherDrop(g, t, th.id, k, u, thu);
      case _ =>
    }
  }

  lemma OtherProc(g: Globals, t: Tid, th: Thread, c: Choice, u: Tid, thu: Thread)
    requires Local(g, t, th, c) && u != t && ThreadInv(g, u, thu)
    ensures ProcKnown(LocalStep(g, t, th, c).g, u, thu)
  {
    if !Makes(th.pc) { MakesNothing(g, t, th, c); }
    if th.pc.Register? && Inside(thu.pc) && th.id == thu.id {
      InsideIsExclusive(g, t, th, u, thu);
    }
  }

  /** Only a goroutine that stays on uses a slot. */
  lemma UsersLocal(g: Globals, t: Tid, th: Thread, c: Choice, k: SlotRef, u: Tid)
    requires SlotInv(g) && SlotKnown(g, t, th) && CanStep(g, th, c)
    requires var h := LocalStep(g, t, th, c).g; k in h.slots && u in h.slots[k].who
    ensures if u == t then LocalStep(g, t, th, c).next.Some? else k in g.slots && u in g.slots[k].who
  {
    match th.pc
    case TakeSlot => if u != t { UsersTake(g, t, th.id, k, u); }
    case DropSlot(_, _) => UsersDrop(g, t, th, k, u);
    case _ => UsersSame(g, t, th, c, k, u);
  }

  lemma UsersTake(g: Globals, t: Tid, id: Id, k: SlotRef, u: Tid)
    requires k in Take(g, t, id).0.slots && u in Take(g, t, id).0.slots[k].who && u != t
    ensures k in g.slots && u in g.slots[k].who
  {
  }

  lemma UsersDrop(g: Globals, t: Tid, th: Thread, k: SlotRef, u: Tid)
    requires SlotKnown(g, t, th) && th.pc.DropSlot?
    requires var h := Drop(g, t, th.id, th.pc.slot); k in h.slots && u in h.slots[k].who
    ensures u != t && k in g.slots && u in g.slots[k].who
  {
  }

  lemma UsersSame(g: Globals, t: Tid, th: Thread, c: Choice, k: SlotRef, u: Tid)
    requires SlotKnown(g, t, th) && CanStep(g, th, c) && !th.pc.TakeSlot? && !th.pc.DropSlot?
    requires var h := LocalStep(g, t, th, c).g; k in h.slots && u in h.slots[k].who
    ensures k in g.slots && u in g.slots[k].who && (u == t ==> LocalStep(g, t, th, c).next.Some?)
  {
    if Makes(th.pc) { MakesKeepSlots(g, t, th, c); }
  }

  lemma UsersStep(s: State, t: Tid, c: Choice, k: SlotRef, u: Tid)
    requires Inv(s) && Enabled(s, Step(t, c))
    requires var h := Next(s, Step(t, c)).g; k in h.slots && u in h.slots[k].who
    ensures u in Next(s, Step(t, c)).threads
  {
    assert ThreadInv(s.g, t, s.threads[t]);
    UsersLocal(s.g, t, s.threads[t], c, k, u);
  }

  /** A published processor that is not started was that before, or was published by this step. */
  lemma StarterLocal(g: Globals, t: Tid, th: Thread, c: Choice, p: Proc)
    requires ProcInv(g) && ProcKnown(g, t, th)
    requires var h := LocalStep(g, t, th, c).g; p in h.starts && h.starts[p] == 0
    ensures var e := LocalStep(g, t, th, c);
            && p in e.g.builder
            && ((p in g.starts && g.starts[p] == 0 && e.g.builder[p] == g.builder[p] && !(th.pc.Init? && th.pc.p == p))
                || (e.next.Some? && e.next.value.Init? && e.next.value.p == p && e.g.builder[p] == t))
  {
    if !Makes(th.pc) { MakesNothing(g, t, th, c); }
  }

  lemma StarterStep(s: State, t: Tid, c: Choice, p: Proc)
    requires Inv(s) && Enabled(s, Step(t, c))
    requires var h := Next(s, Step(t, c)).g; p in h.starts && h.starts[p] == 0
    ensures var s' := Next(s, Step(t, c));
            p in s'.g.builder && s'.g.builder[p] in s'.threads
            && s'.threads[s'.g.builder[p]].pc.Init? && s'.threads[s'.g.builder[p]].pc.p == p
  {
    assert ThreadInv(s.g, t, s.threads[t]);
    StarterLocal(s.g, t, s.threads[t], c, p);
  }

  lemma PresentStep(s: State, t: Tid, c: Choice)
    requires Inv(s) && Enabled(s, Step(t, c))
    ensures PresentInv(Next(s, Step(t, c)))
  {
    var s' := Next(s, Step(t, c));
    forall k, u | k in s'.g.slots && u in s'.g.slots[k].who ensures u in s'.threads { UsersStep(s, t, c, k, u); }
    forall p | p in s'.g.starts && s'.g.starts[p] == 0
      ensures p in s'.g.builder && s'.g.builder[p] in s'.threads
      ensures s'.threads[s'.g.builder[p]].pc.Init? && s'.threads[s'.g.builder[p]].pc.p == p
    {
      StarterStep(s, t, c, p);
    }
  }

  lemma StepKeepsInv(s: State, t: Tid, c: Choice)
    requires Inv(s) && Enabled(s, Step(t, c))
    ensures Inv(Next(s, Step(t, c)))
  {
    var s', th := Next(s, Step(t, c)), s.threads[t];
    assert Local(s.g, t, th, c);
    SlotsStep(s.g, t, th, c);
    ProcsStep(s.g, t, th, c);
    if th.pc.TakeSlot? { SelfTake(s.g, t, th); } else { SelfSlot(s.g, t, th, c); }
    SelfProc(s.g, t, th, c);
    PresentStep(s, t, c);
    forall u | u in s'.threads ensures ThreadInv(s'.g, u, s'.threads[u]) {
      if u != t {
        OtherSlot(s.g, t, th, c, u, s.threads[u]);
        OtherProc(s.g, t, th, c, u, s.threads[u]);
      }
    }
  }

  lemma OtherActionKeepsInv(s: State, a: Action)
    requires Inv(s) && !a.Step?
    ensures Inv(Next(s, a))
  {
    var s', n := Next(s, a), s.g.nextTid;
    assert n in s.threads ==> ThreadInv(s.g, n, s.threads[n]);
    assert forall u :: u in s.threads ==> u in s'.threads && s'.threads[u] == s.threads[u];
    forall u | u in s'.threads ensures ThreadInv(s'.g, u, s'.threads[u]) {
      if u in s.threads { assert ThreadInv(s.g, u, s.threads[u]); }
    }
  }

  lemma {:induction false} RunInv(run: seq<State>, acts: seq<Action>, n: nat)
    requires IsRun(run, acts) && n <= |acts|
    ensures Inv(run[n])
  {
    if n > 0 {
      RunInv(run, acts, n - 1);
      var a := acts[n - 1];
      if a.Step? { StepKeepsInv(run[n - 1], a.t, a.c); } else { OtherActionKeepsInv(run[n - 1], a); }
    }
  }

  lemma ReachableInv(s: State)
    requires Reachable(s)
    ensures Inv(s)
  {
    var run, acts :| IsRun(run, acts) && run[|acts|] == s;
    RunInv(run, acts, |acts|);
  }

  // ------------------------------------------------------------------ what it means

  /** At most one creator per id is inside, across both policies and failing producers. */
  lemma OneCreatorPerId(s: State, t: Tid, u: Tid)
    requires Reachable(s) && t in s.threads && u in s.threads
    requires Inside(s.threads[t].pc) && Inside(s.threads[u].pc) && s.threads[t].id == s.threads[u].id
    ensures t == u
  {
    ReachableInv(s);
    assert ThreadInv(s.g, t, s.threads[t]) && ThreadInv(s.g, u, s.threads[u]);
    InsideIsExclusive(s.g, t, s.threads[t], u, s.threads[u]);
  }

  ghost function UsersOf(s: State, k: SlotRef): set<Tid> { set t | t in s.threads && Uses(s.threads[t].pc, k) }

  /** The table holds a slot exactly while some goroutine uses it, `users` counts those goroutines,
      and two slots for one id are never in use together. */
  lemma SlotLifetime(s: State, k: SlotRef)
    requires Reachable(s) && k in s.g.slots
    ensures s.g.slots[k].users == |UsersOf(s, k)|
    ensures (s.g.slots[k].id in s.g.active && s.g.active[s.g.slots[k].id] == k) <==> UsersOf(s, k) != {}
    ensures forall k' :: k' in s.g.slots && s.g.slots[k'].id == s.g.slots[k].id && UsersOf(s, k) != {} && UsersOf(s, k') != {}
                         ==> k' == k
  {
    ReachableInv(s);
    forall j | j in s.g.slots ensures UsersOf(s, j) == s.g.slots[j].who {
      forall t ensures t in UsersOf(s, j) <==> t in s.g.slots[j].who {
        assert t in s.threads ==> ThreadInv(s.g, t, s.threads[t]);
      }
    }
    forall j | j in s.g.slots && UsersOf(s, j) != {} ensures s.g.slots[j].users > 0 {
    }
  }

  /** Without creators the table is empty. */
  lemma NoCreatorsNoSlots(s: State)
    requires Reachable(s) && s.threads == map[]
    ensures s.g.active == map[]
  {
    ReachableInv(s);
    if id :| id in s.g.active {
      var who := s.g.slots[s.g.active[id]].who;
      assert forall t :: t in who ==> t in s.threads;
      assert false;
    }
  }

  /** The registration step always inserts: the branches for a lost race are never taken. */
  lemma RegisterAlwaysInserts(s: State, t: Tid)
    requires Reachable(s) && t in s.threads && s.threads[t].pc.Register?
    ensures s.threads[t].id !in s.g.registry
    ensures var s' := Next(s, Step(t, Go));
            s'.g.registry == s.g.registry[s.threads[t].id := s.threads[t].pc.p] && s'.threads[t].pc.Init?
  {
    ReachableInv(s);
    assert ThreadInv(s.g, t, s.threads[t]);
  }

  /** About to call init() on a processor it has published. */
  predicate Starting(s: State, t: Tid, p: Proc) {
    t in s.threads && s.threads[t].pc.Init? && s.threads[t].pc.p == p
  }

  /** Every published processor is started exactly once: it has been, or the one goroutine that
      published it is about to. Whatever is in the registry was published. */
  lemma PublishedIsStartedOnce(s: State, p: Proc)
    requires Reachable(s) && p in s.g.starts
    ensures s.g.starts[p] == 1
         || (s.g.starts[p] == 0 && exists t :: Starting(s, t, p))
    ensures forall t, u :: Starting(s, t, p) && Starting(s, u, p) ==> t == u && s.g.starts[p] == 0
    ensures forall id :: id in s.g.registry ==> s.g.registry[id] in s.g.starts
  {
    ReachableInv(s);
    if s.g.starts[p] == 0 {
      assert Starting(s, s.g.builder[p], p);
    }
    forall t, u | Starting(s, t, p) && Starting(s, u, p)
      ensures t == u && s.g.starts[p] == 0
    {
      assert ThreadInv(s.g, t, s.threads[t]) && ThreadInv(s.g, u, s.threads[u]);
    }
  }
}
