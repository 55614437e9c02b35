/**
  The single-activation lock of cluster grains: a create-only transaction takes it, a
  compare-and-delete on the owner's address gives it back, and the node's lease bounds it.

  Nodes start, crash and restart on the same address; leases expire at any moment, also under a
  node that is still running. Every transaction may report an error, whether or not it committed,
  and a transaction whose call returned an error may still commit at any later time, also after its
  activation, its node or its lease is gone.
*/
module ClusterLocks {

  type Node = nat  // one process run
  type Lease = nat
  type Grain = nat // a cluster actor id of a kind the cluster hosts
  type Act = nat   // one activation

  const REGISTER_TIMES := 3

  datatype Process = Process(addr: nat, lease: Lease, alive: bool)

  /** `holder` is history: the activation whose transaction created the key. */
  datatype Lock = Lock(addr: nat, lease: Lease, holder: Act)

  /** From creation through lifecycle.start and stop to removal from the node's registry. */
  datatype Phase = Trying(attempt: nat) | Running | Unregistering | Abandoned | Unregistered | Removed

  datatype Activation = Activation(node: Node, grain: Grain, phase: Phase)

  /** A transaction that is under way although its call has returned an error. */
  datatype Txn = LateSet(a: Act, attempt: nat) | LateRemove(a: Act)

  /** Between a successful registration and the end of unregistration. */
  predicate Active(p: Phase) { p.Running? || p.Unregistering? }

  /** `lateSets`, `robbed` and `exposed` are history: how many late creations have committed, from which
      activations a late deletion took the lock while they were active, and for which grains one took a lock
      that a node which was up had yet to delete itself. */
  datatype State = State(
    locks: map<Grain, Lock>, leases: set<Lease>, nodes: map<Node, Process>,
    acts: map<Act, Activation>, registry: map<(Node, Grain), Act>, late: set<Txn>,
    nextNode: Node, nextLease: Lease, nextAct: Act, lateSets: nat, robbed: set<Act>, exposed: set<Grain>)

  /** Outcome of a transaction as the client sees it: answered, failed before it committed,
      committed with the answer lost, or failed and still under way. */
  datatype Answer = Answered | FailedBefore | FailedAfter | StillUnderWay

  datatype Action =
    | StartNode(addr: nat)
    | Crash(n: Node)
    | Expire(lease: Lease)
    | Activate(n: Node, grain: Grain)
    | TryRegister(a: Act, answer: Answer)
    | BeginStop(a: Act)
    | Unregister(a: Act, answer: Answer)
    | Forget(a: Act)
    | Late(txn: Txn)

  predicate Up(s: State, n: Node) { n in s.nodes && s.nodes[n].alive }

  predicate Known(s: State, a: Act) { a in s.acts && s.acts[a].node in s.nodes }

  predicate Moves(s: State, a: Act) { a in s.acts && Up(s, s.acts[a].node) }

  predicate Enabled(s: State, x: Action) {
    match x
    case StartNode(addr) => forall n :: n in s.nodes && s.nodes[n].alive ==> s.nodes[n].addr != addr
    case Crash(n) => Up(s, n)
    case Expire(l) => l in s.leases
    case Activate(n, grain) => Up(s, n) && (n, grain) !in s.registry
    case TryRegister(a, _) => Moves(s, a) && s.acts[a].phase.Trying?
    case BeginStop(a) => Moves(s, a) && s.acts[a].phase.Running?
    case Unregister(a, _) => Moves(s, a) && s.acts[a].phase.Unregistering?
    case Forget(a) => Moves(s, a) && (s.acts[a].phase.Abandoned? || s.acts[a].phase.Unregistered?)
    case Late(txn) => txn in s.late && Known(s, txn.a)
  }

  function SetPhase(s: State, a: Act, p: Phase): State
    requires a in s.acts
  {
    s.(acts := s.acts[a := s.acts[a].(phase := p)])
  }

  function LeaseOf(s: State, a: Act): Lease
    requires Known(s, a)
  {
    s.nodes[s.acts[a].node].lease
  }

  function AddrOf(s: State, a: Act): nat
    requires Known(s, a)
  {
    s.nodes[s.acts[a].node].addr
  }

  /** setTxn commits when the key is absent and the lease it binds to exists. */
  predicate CanCreate(s: State, a: Act)
    requires Known(s, a)
  {
    s.acts[a].grain !in s.locks && LeaseOf(s, a) in s.leases
  }

  function Create(s: State, a: Act): State
    requires Known(s, a)
  {
    s.(locks := s.locks[s.acts[a].grain := Lock(AddrOf(s, a), LeaseOf(s, a), a)])
  }

  function TryStep(s: State, a: Act, answer: Answer): State
    requires Moves(s, a) && s.acts[a].phase.Trying?
  {
    var attempt := s.acts[a].phase.attempt;
    var next := if attempt + 1 < REGISTER_TIMES then Trying(attempt + 1) else Abandoned;
    match answer
    case Answered => if CanCreate(s, a) then SetPhase(Create(s, a), a, Running) else SetPhase(s, a, next)
    case FailedBefore => SetPhase(s, a, next)
    case FailedAfter => SetPhase(if CanCreate(s, a) then Create(s, a) else s, a, next)
    case StillUnderWay => SetPhase(s, a, next).(late := s.late + {LateSet(a, attempt)})
  }

  /** removeTxn commits when the key holds this node's address. */
  predicate CanDelete(s: State, a: Act)
    requires Known(s, a)
  {
    s.acts[a].grain in s.locks && s.locks[s.acts[a].grain].addr == AddrOf(s, a)
  }

  function Delete(s: State, a: Act): State
    requires Known(s, a)
  {
    if CanDelete(s, a) then s.(locks := s.locks - {s.acts[a].grain}) else s
  }

  function UnregisterStep(s: State, a: Act, answer: Answer): State
    requires Moves(s, a)
  {
    match answer
    case FailedBefore => SetPhase(s, a, Unregistered)
    case StillUnderWay => SetPhase(s, a, Unregistered).(late := s.late + {LateRemove(a)})
    case _ => SetPhase(Delete(s, a), a, Unregistered)
  }

  /** A deletion by `a` would take the lock of an active activation. */
  predicate Steals(s: State, a: Act)
    requires Known(s, a)
  {
    && CanDelete(s, a)
    && var h := s.locks[s.acts[a].grain].holder; h in s.acts && Active(s.acts[h].phase)
  }

  /** A deletion by `a` would take the lock of another activation, on a node that is up, which is active
      or has its own deletion still under way. */
  predicate Exposes(s: State, a: Act)
    requires Known(s, a)
  {
    && CanDelete(s, a)
    && var h := s.locks[s.acts[a].grain].holder; h != a && Moves(s, h) && (Active(s.acts[h].phase) || LateRemove(h) in s.late)
  }

  function LateStep(s: State, txn: Txn): State
    requires Known(s, txn.a)
  {
    var g := s.acts[txn.a].grain;
    match txn
    case LateSet(a, _) =>
      if CanCreate(s, a) then Create(s, a).(late := s.late - {txn}, lateSets := s.lateSets + 1) else s.(late := s.late - {txn})
    case LateRemove(a) =>
      Delete(s, a).(late := s.late - {txn}, robbed := s.robbed + (if Steals(s, a) then {s.locks[g].holder} else {}),
                    exposed := s.exposed + (if Exposes(s, a) then {g} else {}))
  }

  function Next(s: State, x: Action): State
    requires Enabled(s, x)
  {
    match x
    case StartNode(addr) =>
      s.(nodes := s.nodes[s.nextNode := Process(addr, s.nextLease, true)], leases := s.leases + {s.nextLease},
         nextNode := s.nextNode + 1, nextLease := s.nextLease + 1)
    case Crash(n) => s.(nodes := s.nodes[n := s.nodes[n].(alive := false)])
    case Expire(l) => s.(leases := s.leases - {l}, locks := map g | g in s.locks && s.locks[g].lease != l :: s.locks[g])
    case Activate(n, grain) =>
      s.(acts := s.acts[s.nextAct := Activation(n, grain, Trying(0))],
         registry := s.registry[(n, grain) := s.nextAct], nextAct := s.nextAct + 1)
    case TryRegister(a, answer) => TryStep(s, a, answer)
    case BeginStop(a) => SetPhase(s, a, Unregistering)
    case Unregister(a, answer) => UnregisterStep(s, a, answer)
    case Forget(a) =>
      var act := s.acts[a];
      SetPhase(s, a, Removed).(registry := if (act.node, act.grain) in s.registry && s.registry[(act.node, act.grain)] == a
                                           then s.registry - {(act.node, act.grain)} else s.registry)
    case Late(txn) => LateStep(s, txn)
  }

  const Initial := State(map[], {}, map[], map[], map[], {}, 0, 0, 0, 0, {}, {})

  ghost predicate IsRun(run: seq<State>, acts: seq<Action>) {
    && |run| == |acts| + 1 && run[0] == Initial
    && forall i :: 0 <= i < |acts| ==> Enabled(run[i], acts[i]) && run[i + 1] == Next(run[i], acts[i])
  }

  ghost predicate Reachable(s: State) { exists run, acts :: IsRun(run, acts) && run[|acts|] == s }
}
