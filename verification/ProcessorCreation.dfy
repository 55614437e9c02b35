/**
  Creation of processors on one node: the per-id creation slots of processorCreator, both spawn
  policies, the registry, and processors that leave the registry at any time.

  A section under `processorCreator.mu`, a slot lock, a slot unlock and a registry operation are
  one step each. The user's producer may fail (panic or Goexit) instead of returning.
*/
module ProcessorCreation {
  import opened Options

  type Tid = nat
  type Id = nat      // actor id
  type SlotRef = nat // a processorCreationSlot object
  type Proc = nat    // a processor object

  /** `who` is auxiliary: the goroutines that use or wait for the slot. */
  datatype Slot = Slot(id: Id, users: nat, locked: Tid, who: set<Tid>)

  /** spawnNewProcessor refuses an existing id, getOrSpawnProcessor reuses it after a first lookup. */
  datatype Policy = SpawnNew | GetOrSpawn

  /** What a creator returns: the processor it made, the one that exists, the refusal because one exists, or
      nothing because the producer failed. */
  datatype Outcome = Created(p: Proc) | Found(p: Proc) | Refused(p: Proc) | Failed

  datatype PC =
    | FastLookup
    | TakeSlot
    | LockSlot(slot: SlotRef)
    | Lookup(slot: SlotRef)
    | Build(slot: SlotRef)
    | Register(slot: SlotRef, p: Proc)
    | Init(slot: SlotRef, p: Proc)
    | UnlockSlot(slot: SlotRef, out: Outcome)
    | DropSlot(slot: SlotRef, out: Outcome)

  datatype Thread = Thread(pc: PC, id: Id, policy: Policy)

  /** A creator that has returned. */
  datatype Ending = Ending(id: Id, policy: Policy, out: Outcome)

  /** `starts` counts init() per processor ever published; `builder` is who built a processor; `ends` is what
      each creator returned. History. */
  datatype Globals = Globals(
    active: map<Id, SlotRef>, slots: map<SlotRef, Slot>, registry: map<Id, Proc>,
    nextTid: Tid, nextSlot: SlotRef, nextProc: Proc,
    starts: map<Proc, nat>, builder: map<Proc, Tid>, ends: map<Tid, Ending>)

  datatype State = State(g: Globals, threads: map<Tid, Thread>)

  datatype Choice = Go | Fail
  datatype Effect = Effect(g: Globals, next: Option<PC>)

  // ------------------------------------------------------------------ steps

  predicate CanStep(g: Globals, th: Thread, c: Choice) {
    match th.pc
    case LockSlot(k) => c == Go && k in g.slots && g.slots[k].locked == 0
    case Build(_) => true
    case _ => c == Go
  }

  /** processorCreator.lock up to the slot's own mutex: find or make the slot, count this user. */
  function Take(g: Globals, t: Tid, id: Id): (Globals, SlotRef) {
    if id in g.active && g.active[id] in g.slots then
      var k := g.active[id];
      var slot := g.slots[k];
      (g.(slots := g.slots[k := slot.(users := slot.users + 1, who := slot.who + {t})]), k)
    else
      var k := g.nextSlot;
      (g.(active := g.active[id := k], slots := g.slots[k := Slot(id, 1, 0, {t})], nextSlot := k + 1), k)
  }

  /** The second half of processorCreator.unlock: the last user deletes the table entry. */
  function Drop(g: Globals, t: Tid, id: Id, k: SlotRef): Globals
    requires k in g.slots
  {
    var slot := g.slots[k];
    var users := if slot.users == 0 then 0 else slot.users - 1;
    g.(slots := g.slots[k := slot.(users := users, who := slot.who - {t})],
       active := if users == 0 then g.active - {id} else g.active)
  }

  /** An existing processor is refused or reused. */
  function Existing(policy: Policy, p: Proc): Outcome { if policy == SpawnNew then Refused(p) else Found(p) }

  function Return(g: Globals, t: Tid, th: Thread, out: Outcome): Effect {
    Effect(g.(ends := g.ends[t := Ending(th.id, th.policy, out)]), None)
  }

  function LocalStep(g: Globals, t: Tid, th: Thread, c: Choice): Effect {
    match th.pc
    case FastLookup =>
      if th.id in g.registry then Return(g, t, th, Existing(th.policy, g.registry[th.id])) else Effect(g, Some(TakeSlot))
    case TakeSlot => var (g', k) := Take(g, t, th.id); Effect(g', Some(LockSlot(k)))
    case LockSlot(k) =>
      if k in g.slots then Effect(g.(slots := g.slots[k := g.slots[k].(locked := t)]), Some(Lookup(k))) else Effect(g, None)
    case Lookup(k) =>
      if th.id in g.registry then Effect(g, Some(UnlockSlot(k, Existing(th.policy, g.registry[th.id]))))
      else Effect(g, Some(Build(k)))
    case Build(k) =>
      if c == Go then Effect(g.(nextProc := g.nextProc + 1, builder := g.builder[g.nextProc := t]), Some(Register(k, g.nextProc)))
      else Effect(g, Some(UnlockSlot(k, Failed)))
    case Register(k, p) =>
      if th.id in g.registry then Effect(g, Some(UnlockSlot(k, Existing(th.policy, g.registry[th.id]))))
      else Effect(g.(registry := g.registry[th.id := p], starts := g.starts[p := 0]), Some(Init(k, p)))
    case Init(k, p) =>
      Effect(g.(starts := if p in g.starts then g.starts[p := g.starts[p] + 1] else g.starts), Some(UnlockSlot(k, Created(p))))
    case UnlockSlot(k, out) =>
      if k in g.slots then Effect(g.(slots := g.slots[k := g.slots[k].(locked := 0)]), Some(DropSlot(k, out))) else Effect(g, None)
    case DropSlot(k, out) => if k in g.slots then Return(Drop(g, t, th.id, k), t, th, out) else Effect(g, None)
  }

  datatype Action =
    | Step(t: Tid, c: Choice)
    | NewCreator(id: Id, policy: Policy)
    | Remove(id: Id, p: Proc) // registry.remove by a stopping processor: compare-and-remove

  predicate Enabled(s: State, a: Action) {
    a.Step? ==> a.t in s.threads && CanStep(s.g, s.threads[a.t], a.c)
  }

  function Apply(s: State, t: Tid, e: Effect): State
    requires t in s.threads
  {
    State(e.g, if e.next.Some? then s.threads[t := s.threads[t].(pc := e.next.value)] else s.threads - {t})
  }

  function Next(s: State, a: Action): State
    requires Enabled(s, a)
  {
    match a
    case Step(t, c) => Apply(s, t, LocalStep(s.g, t, s.threads[t], c))
    case NewCreator(id, policy) =>
      State(s.g.(nextTid := s.g.nextTid + 1),
            s.threads[s.g.nextTid := Thread(if policy == GetOrSpawn then FastLookup else TakeSlot, id, policy)])
    case Remove(id, p) =>
      if id in s.g.registry && s.g.registry[id] == p
      then s.(g := s.g.(registry := s.g.registry - {id})) else s
  }

  const Initial := State(Globals(map[], map[], map[], 1, 0, 0, map[], map[], map[]), map[])

  ghost predicate IsRun(run: seq<State>, acts: seq<Action>) {
    && |run| == |acts| + 1 && run[0] == Initial
    && forall i :: 0 <= i < |acts| ==> Enabled(run[i], acts[i]) && run[i + 1] == Next(run[i], acts[i])
  }

  ghost predicate Reachable(s: State) { exists run, acts :: IsRun(run, acts) && run[|acts|] == s }

  // ------------------------------------------------------------------ invariant

  predicate Uses(pc: PC, k: SlotRef) { !pc.FastLookup? && !pc.TakeSlot? && pc.slot == k }

  /** Between taking and releasing the slot's mutex. */
  predicate Inside(pc: PC) { !pc.FastLookup? && !pc.TakeSlot? && !pc.LockSlot? && !pc.DropSlot? }

  /** What a goroutine knows about the slots. */
  ghost predicate SlotKnown(g: Globals, t: Tid, th: Thread) {
    && 0 < t < g.nextTid
    && (forall k :: k in g.slots ==> (Uses(th.pc, k) <==> t in g.slots[k].who))
    && (forall k :: k in g.slots ==> ((Inside(th.pc) && Uses(th.pc, k)) <==> g.slots[k].locked == t))
    && (th.pc.FastLookup? || th.pc.TakeSlot? || (th.pc.slot in g.slots && g.slots[th.pc.slot].id == th.id))
  }

  /** What it knows about the registry and its own processor. */
  predicate ProcKnown(g: Globals, t: Tid, th: Thread) {
    && (th.pc.Build? || th.pc.Register? ==> th.id !in g.registry)
    && (th.pc.Register? || th.pc.Init? ==> th.pc.p in g.builder && g.builder[th.pc.p] == t)
    && (th.pc.Register? ==> th.pc.p !in g.starts)
    && (th.pc.Init? ==> th.pc.p in g.starts && g.starts[th.pc.p] == 0)
  }

  ghost predicate ThreadInv(g: Globals, t: Tid, th: Thread) { SlotKnown(g, t, th) && ProcKnown(g, t, th) }

  /** A slot is in the table exactly while it has users. */
  ghost predicate SlotInv(g: Globals) {
    && g.nextTid > 0
    && (forall k :: k in g.slots ==> k < g.nextSlot && g.slots[k].users == |g.slots[k].who|)
    && (forall k :: k in g.slots && g.slots[k].locked != 0 ==> g.slots[k].locked in g.slots[k].who)
    && (forall id :: id in g.active ==> g.active[id] in g.slots && g.slots[g.active[id]].id == id && g.slots[g.active[id]].users > 0)
    && (forall k :: k in g.slots && g.slots[k].users > 0 ==> g.slots[k].id in g.active && g.active[g.slots[k].id] == k)
  }

  predicate ProcInv(g: Globals) {
    && (forall p :: p in g.builder ==> p < g.nextProc)
    && (forall p :: p in g.starts ==> p in g.builder && g.starts[p] <= 1)
    && (forall id :: id in g.registry ==> g.registry[id] in g.starts)
  }

  ghost predicate GlobalInv(g: Globals) { SlotInv(g) && ProcInv(g) }

  ghost predicate PresentInv(s: State) {
    && (forall k, t :: k in s.g.slots && t in s.g.slots[k].who ==> t in s.threads)
    && (forall p :: p in s.g.starts && s.g.starts[p] == 0 ==>
          p in s.g.builder && s.g.builder[p] in s.threads && s.threads[s.g.builder[p]].pc.Init?
          && s.threads[s.g.builder[p]].pc.p == p)
  }

  ghost predicate Inv(s: State) {
    GlobalInv(s.g) && PresentInv(s) && forall t :: t in s.threads ==> ThreadInv(s.g, t, s.threads[t])
  }
}
