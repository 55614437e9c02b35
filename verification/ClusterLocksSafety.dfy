/** What the lock protocol keeps, when it excludes double activation, and when a lock is left behind. */
module ClusterLocksSafety {
  import opened ClusterLocks

  // ------------------------------------------------------------------ invariant

  ghost predicate NodesInv(s: State) {
    && (forall n :: n in s.nodes ==> n < s.nextNode && s.nodes[n].lease < s.nextLease)
    && (forall l :: l in s.leases ==> l < s.nextLease)
    && (forall n, m :: n in s.nodes && m in s.nodes && s.nodes[n].lease == s.nodes[m].lease ==> n == m)
    && (forall n, m :: Up(s, n) && Up(s, m) && s.nodes[n].addr == s.nodes[m].addr ==> n == m)
  }

  /** Until it is removed an activation is the registered one of its node and grain. */
  ghost predicate ActsInv(s: State) {
    && (forall a :: a in s.acts ==> a < s.nextAct && s.acts[a].node in s.nodes)
    && (forall k :: k in s.registry ==> k.0 in s.nodes && Entry(s, k.0, k.1))
    && (forall a :: a in s.acts && !s.acts[a].phase.Removed? ==> Registered(s, a))
  }

  /** A registry entry points at an activation of that node and grain that is not removed. */
  predicate Entry(s: State, n: Node, g: Grain)
    requires (n, g) in s.registry
  {
    var a := s.registry[(n, g)];
    a in s.acts && s.acts[a].node == n && s.acts[a].grain == g && !s.acts[a].phase.Removed?
  }

  predicate Registered(s: State, a: Act)
    requires a in s.acts
  {
    (s.acts[a].node, s.acts[a].grain) in s.registry && s.registry[(s.acts[a].node, s.acts[a].grain)] == a
  }

  /** A lock carries the address and the live lease of its holder's node. */
  predicate LockOk(s: State, g: Grain)
    requires g in s.locks
  {
    var l := s.locks[g];
    && l.lease in s.leases && Known(s, l.holder) && s.acts[l.holder].grain == g
    && l.addr == AddrOf(s, l.holder) && l.lease == LeaseOf(s, l.holder)
  }

  /** While its node is up, an active activation faces a lock with its address and another holder only
      after a late creation. */
  predicate FaceOk(s: State, a: Act)
    requires Known(s, a)
  {
    Active(s.acts[a].phase) && Up(s, s.acts[a].node) && CanDelete(s, a) && s.locks[s.acts[a].grain].holder != a ==> s.lateSets > 0
  }

  /** A deletion still under way belongs to an activation that is over. */
  predicate OverOk(s: State, b: Act)
    requires b in s.acts
  {
    s.acts[b].phase.Unregistered? || s.acts[b].phase.Removed?
  }

  /** An active activation that was not robbed holds its lock while its lease lives. */
  predicate HeldOk(s: State, a: Act)
    requires Known(s, a)
  {
    Active(s.acts[a].phase) && LeaseOf(s, a) in s.leases && a !in s.robbed ==>
      s.acts[a].grain in s.locks && s.locks[s.acts[a].grain].holder == a
  }

  /** While its node is up, another lock with its address that an active activation faces is not one
      that an active activation still relies on, unless that one was robbed. */
  predicate ForeignOk(s: State, a: Act)
    requires Known(s, a)
  {
    Active(s.acts[a].phase) && Up(s, s.acts[a].node) && CanDelete(s, a) && s.locks[s.acts[a].grain].holder != a ==>
      var h := s.locks[s.acts[a].grain].holder; h in s.acts && (!Active(s.acts[h].phase) || h in s.robbed)
  }

  /** To rob an activation on a node that is up exposes its grain. */
  predicate RobbedOk(s: State, a: Act) { Known(s, a) && (Up(s, s.acts[a].node) ==> s.acts[a].grain in s.exposed) }

  /** While its node is up with a live lease, the lock that a pending deletion is meant for is still its own. */
  predicate RemoveOk(s: State, b: Act)
    requires Known(s, b)
  {
    Up(s, s.acts[b].node) && LeaseOf(s, b) in s.leases ==> s.acts[b].grain in s.locks && s.locks[s.acts[b].grain].holder == b
  }

  /** No active activation on a node with a live lease has a late deletion of its own node against it. */
  predicate Apart(s: State, b: Act, a: Act)
    requires Known(s, b) && Known(s, a)
  {
    Active(s.acts[a].phase) && s.acts[a].node == s.acts[b].node && s.acts[a].grain == s.acts[b].grain
    ==> LeaseOf(s, a) !in s.leases
  }

  ghost predicate LocksInv(s: State) { forall g :: g in s.locks ==> LockOk(s, g) }

  ghost predicate LateInv(s: State) {
    && (forall t :: t in s.late ==> Known(s, t.a))
    && (forall b :: LateRemove(b) in s.late ==> b in s.acts && OverOk(s, b))
    && (forall a :: Known(s, a) ==> FaceOk(s, a))
  }

  /** What holds in every run. */
  ghost predicate Base(s: State) { NodesInv(s) && ActsInv(s) && LocksInv(s) && LateInv(s) }

  ghost predicate Holders(s: State) {
    && (forall a :: Known(s, a) ==> HeldOk(s, a) && ForeignOk(s, a))
    && (forall a :: a in s.robbed ==> RobbedOk(s, a))
  }

  /** What holds for a grain as long as no lock of it was exposed. */
  ghost predicate Parted(s: State, g: Grain) {
    && (forall b :: LateRemove(b) in s.late && Known(s, b) && s.acts[b].grain == g ==> RemoveOk(s, b))
    && (forall b, a :: LateRemove(b) in s.late && Known(s, b) && Known(s, a) && s.acts[b].grain == g ==> Apart(s, b, a))
  }

  ghost predicate Inv(s: State) {
    && Base(s) && Holders(s)
    && (forall g :: g !in s.exposed ==> Parted(s, g))
  }

  // ------------------------------------------------------------------ nodes and activations

  predicate OnNodes(x: Action) { x.StartNode? || x.Crash? || x.Expire? }

  lemma NodesSame(s: State, x: Action)
    requires Enabled(s, x) && !OnNodes(x)
    ensures var t := Next(s, x); t.nodes == s.nodes && t.leases == s.leases && t.nextNode == s.nextNode && t.nextLease == s.nextLease
  {
    match x
    case TryRegister(a, answer) => match answer { case Answered => case FailedBefore => case FailedAfter => case StillUnderWay => }
    case Unregister(a, answer) => match answer { case StillUnderWay => case FailedBefore => case _ => }
    case Late(txn) => match txn { case LateSet(_, _) => case LateRemove(_) => }
    case _ =>
  }

  lemma NodesStep(s: State, x: Action)
    requires NodesInv(s) && Enabled(s, x)
    ensures NodesInv(Next(s, x))
  {
    var t := Next(s, x);
    if !OnNodes(x) {
      NodesSame(s, x);
      assert forall n :: Up(t, n) == Up(s, n);
    } else {
      NodesChange(s, x);
    }
  }

  lemma NodesChange(s: State, x: Action)
    requires NodesInv(s) && Enabled(s, x) && OnNodes(x)
    ensures NodesInv(Next(s, x))
  {
    var t := Next(s, x);
    match x
    case StartNode(addr) =>
      forall n, m | Up(t, n) && Up(t, m) && t.nodes[n].addr == t.nodes[m].addr ensures n == m {
        if n != s.nextNode { assert Up(s, n); }
        if m != s.nextNode { assert Up(s, m); }
      }
    case Crash(k) => assert forall n :: Up(t, n) ==> Up(s, n) && t.nodes[n] == s.nodes[n];
    case Expire(_) => assert forall n :: Up(t, n) == Up(s, n);
  }

  /** An action changes the phase of at most the activation it names. */
  function Mover(x: Action): nat {
    match x case TryRegister(a, _) => a case BeginStop(a) => a case Unregister(a, _) => a case Forget(a) => a case _ => 0
  }

  predicate HasMover(x: Action) { x.TryRegister? || x.BeginStop? || x.Unregister? || x.Forget? }

  /** The mover's new phase, and nothing else of the activations and the registry but for Forget. */
  predicate Moved(s: State, t: State, a: Act, forget: bool) {
    && a in s.acts && a in t.acts && t.acts == s.acts[a := s.acts[a].(phase := t.acts[a].phase)] && t.nextAct == s.nextAct
    && !s.acts[a].phase.Removed? && (t.acts[a].phase.Removed? <==> forget)
    && (t.registry == s.registry || (forget && t.registry == s.registry - {(s.acts[a].node, s.acts[a].grain)}))
  }

  lemma TryMoved(s: State, a: Act, answer: Answer)
    requires Moves(s, a) && s.acts[a].phase.Trying?
    ensures Moved(s, TryStep(s, a, answer), a, false)
  {
  }

  lemma UnregisterMoved(s: State, a: Act, answer: Answer)
    requires Moves(s, a) && s.acts[a].phase.Unregistering?
    ensures Moved(s, UnregisterStep(s, a, answer), a, false)
  {
  }

  lemma ActsMoved(s: State, x: Action)
    requires Enabled(s, x) && HasMover(x)
    ensures Moved(s, Next(s, x), Mover(x), x.Forget?)
  {
    match x
    case TryRegister(a, answer) => TryMoved(s, a, answer);
    case Unregister(a, answer) => UnregisterMoved(s, a, answer);
    case _ =>
  }

  lemma ActsSame(s: State, x: Action)
    requires Enabled(s, x) && !HasMover(x) && !x.Activate?
    ensures var t := Next(s, x); t.acts == s.acts && t.registry == s.registry && t.nextAct == s.nextAct
  {
  }

  lemma NodesGrow(s: State, x: Action)
    requires NodesInv(s) && Enabled(s, x)
    ensures forall n :: n in s.nodes ==> n in Next(s, x).nodes && Next(s, x).nodes[n].addr == s.nodes[n].addr
                                         && Next(s, x).nodes[n].lease == s.nodes[n].lease
  {
    if !OnNodes(x) { NodesSame(s, x); }
  }

  lemma ActsStep(s: State, x: Action)
    requires NodesInv(s) && ActsInv(s) && Enabled(s, x)
    ensures ActsInv(Next(s, x))
  {
    if HasMover(x) { ActsMove(s, x); } else if x.Activate? { ActsNew(s, x.n, x.grain); } else { ActsStay(s, x); }
  }

  lemma ActsNew(s: State, n: Node, g: Grain)
    requires ActsInv(s) && Enabled(s, Activate(n, g))
    ensures ActsInv(Next(s, Activate(n, g)))
  {
    var t := Next(s, Activate(n, g));
    forall a | a in t.acts && !t.acts[a].phase.Removed? ensures Registered(t, a) {
      if a != s.nextAct { assert Registered(s, a); }
    }
    forall k | k in t.registry ensures k.0 in t.nodes && Entry(t, k.0, k.1) {
      if k != (n, g) { assert Entry(s, k.0, k.1); }
    }
  }

  lemma ActsStay(s: State, x: Action)
    requires NodesInv(s) && ActsInv(s) && Enabled(s, x) && !HasMover(x) && !x.Activate?
    ensures ActsInv(Next(s, x))
  {
    var t := Next(s, x);
    ActsSame(s, x);
    NodesGrow(s, x);
    forall a | a in t.acts && !t.acts[a].phase.Removed? ensures Registered(t, a) { assert Registered(s, a); }
    forall k | k in t.registry ensures k.0 in t.nodes && Entry(t, k.0, k.1) { assert Entry(s, k.0, k.1); }
  }

  lemma ActsMove(s: State, x: Action)
    requires ActsInv(s) && Enabled(s, x) && HasMover(x)
    ensures ActsInv(Next(s, x))
  {
    var t := Next(s, x);
    ActsMoved(s, x);
    NodesSame(s, x);
    forall a | a in t.acts && !t.acts[a].phase.Removed? ensures Registered(t, a) {
      assert Registered(s, a) && Registered(s, Mover(x));
    }
    ForgetUnlists(s, x);
    forall k | k in t.registry ensures k.0 in t.nodes && Entry(t, k.0, k.1) { assert Entry(s, k.0, k.1); }
  }

  lemma ForgetUnlists(s: State, x: Action)
    requires ActsInv(s) && Enabled(s, x)
    ensures x.Forget? ==> (s.acts[x.a].node, s.acts[x.a].grain) !in Next(s, x).registry
  {
    if x.Forget? { assert Registered(s, x.a); }
  }

  // ------------------------------------------------------------------ locks

  /** What an action other than an expiry does to the locks: nothing, a creation by `a`, or a deletion by `a`. */
  datatype LockMove = Kept | Made(a: Act) | Taken(a: Act)

  function MoveOf(s: State, x: Action): LockMove
    requires Enabled(s, x)
  {
    match x
    case TryRegister(a, answer) => if (answer == Answered || answer == FailedAfter) && CanCreate(s, a) then Made(a) else Kept
    case Unregister(a, answer) => if (answer == Answered || answer == FailedAfter) && CanDelete(s, a) then Taken(a) else Kept
    case Late(LateSet(a, _)) => if CanCreate(s, a) then Made(a) else Kept
    case Late(LateRemove(a)) => if CanDelete(s, a) then Taken(a) else Kept
    case _ => Kept
  }

  predicate Creates(s: State, x: Action, a: Act)
    requires Enabled(s, x)
  {
    MoveOf(s, x) == Made(a)
  }

  predicate Deletes(s: State, x: Action, a: Act)
    requires Enabled(s, x)
  {
    MoveOf(s, x) == Taken(a)
  }

  lemma LocksMoved(s: State, x: Action)
    requires Enabled(s, x) && !x.Expire?
    ensures match MoveOf(s, x)
            case Kept => Next(s, x).locks == s.locks
            case Made(a) => Known(s, a) && CanCreate(s, a) && Next(s, x).locks == Create(s, a).locks
            case Taken(a) => Known(s, a) && CanDelete(s, a) && Next(s, x).locks == s.locks - {s.acts[a].grain}
  {
  }

  lemma KnownStays(s: State, x: Action, a: Act)
    requires NodesInv(s) && ActsInv(s) && Enabled(s, x) && Known(s, a)
    ensures Known(Next(s, x), a) && Next(s, x).acts[a].grain == s.acts[a].grain && Next(s, x).acts[a].node == s.acts[a].node
    ensures AddrOf(Next(s, x), a) == AddrOf(s, a) && LeaseOf(Next(s, x), a) == LeaseOf(s, a)
  {
    NodesGrow(s, x);
    if HasMover(x) { ActsMoved(s, x); } else if !x.Activate? { ActsSame(s, x); }
  }

  ghost predicate Store(s: State) { NodesInv(s) && ActsInv(s) && LocksInv(s) }

  lemma LockStep(s: State, x: Action, g: Grain)
    requires Store(s) && Enabled(s, x) && g in Next(s, x).locks
    ensures LockOk(Next(s, x), g)
  {
    if x.Expire? {
      assert LockOk(s, g);
    } else {
      LocksMoved(s, x);
      LeasesStay(s, x);
      if MoveOf(s, x).Made? && g == s.acts[MoveOf(s, x).a].grain {
        KnownStays(s, x, MoveOf(s, x).a);
      } else {
        assert LockOk(s, g);
        KnownStays(s, x, s.locks[g].holder);
      }
    }
  }

  lemma LeasesStay(s: State, x: Action)
    requires Enabled(s, x) && !x.Expire?
    ensures s.leases <= Next(s, x).leases
  {
    if !OnNodes(x) { NodesSame(s, x); }
  }

  lemma StoreStep(s: State, x: Action)
    requires Store(s) && Enabled(s, x)
    ensures Store(Next(s, x))
  {
    NodesStep(s, x);
    ActsStep(s, x);
    forall g | g in Next(s, x).locks ensures LockOk(Next(s, x), g) { LockStep(s, x, g); }
  }

  // ------------------------------------------------------------------ who is active

  /** An activation becomes active only by creating its own lock on a node that is up. */
  lemma BecomesActive(s: State, x: Action, a: Act)
    requires NodesInv(s) && ActsInv(s) && Enabled(s, x) && a in s.acts && a in Next(s, x).acts
    requires !Active(s.acts[a].phase) && Active(Next(s, x).acts[a].phase)
    ensures x == TryRegister(a, Answered) && Moves(s, a) && CanCreate(s, a) && Next(s, x).locks == Create(s, a).locks
  {
    if HasMover(x) {
      ActsMoved(s, x);
      MoverRises(s, x);
    } else if !x.Activate? {
      ActsSame(s, x);
    }
  }

  lemma MoverRises(s: State, x: Action)
    requires Enabled(s, x) && HasMover(x) && !Active(s.acts[Mover(x)].phase) && Active(Next(s, x).acts[Mover(x)].phase)
    ensures x == TryRegister(Mover(x), Answered) && CanCreate(s, Mover(x)) && Next(s, x).locks == Create(s, Mover(x)).locks
  {
  }

  /** Two registered activations of one node and grain are one. */
  lemma OneRegistered(s: State, a: Act, b: Act)
    requires ActsInv(s) && a in s.acts && b in s.acts
    ensures (!s.acts[a].phase.Removed? && !s.acts[b].phase.Removed?
             && s.acts[a].node == s.acts[b].node && s.acts[a].grain == s.acts[b].grain) ==> a == b
  {
    assert !s.acts[a].phase.Removed? ==> Registered(s, a);
    assert !s.acts[b].phase.Removed? ==> Registered(s, b);
  }

  /** From s to t an activation keeps its place, and neither its node nor its lease is revived. */
  predicate Carried(s: State, t: State, a: Act) {
    && Known(s, a) && Known(t, a) && t.acts[a].grain == s.acts[a].grain && t.acts[a].node == s.acts[a].node
    && AddrOf(t, a) == AddrOf(s, a) && LeaseOf(t, a) == LeaseOf(s, a)
    && (LeaseOf(s, a) in t.leases ==> LeaseOf(s, a) in s.leases)
    && (Up(t, t.acts[a].node) ==> Up(s, s.acts[a].node))
    && s.lateSets <= t.lateSets
  }

  lemma Carries(s: State, x: Action, a: Act)
    requires NodesInv(s) && ActsInv(s) && Enabled(s, x) && Known(s, a)
    ensures Carried(s, Next(s, x), a)
  {
    KnownStays(s, x, a);
    NoRevival(s, x, a);
    LateSetsGrow(s, x);
  }

  /** Leases and nodes are never revived. */
  lemma NoRevival(s: State, x: Action, a: Act)
    requires NodesInv(s) && Enabled(s, x) && Known(s, a)
    ensures LeaseOf(s, a) in Next(s, x).leases ==> LeaseOf(s, a) in s.leases
    ensures Up(Next(s, x), s.acts[a].node) ==> Up(s, s.acts[a].node)
  {
    if !OnNodes(x) { NodesSame(s, x); }
  }

  lemma LateSetsGrow(s: State, x: Action)
    requires Enabled(s, x)
    ensures Next(s, x).lateSets == s.lateSets + if x.Late? && MoveOf(s, x).Made? then 1 else 0
  {
  }

  lemma NewIsTrying(s: State, x: Action, a: Act)
    requires Enabled(s, x) && a !in s.acts && a in Next(s, x).acts
    ensures x.Activate? && Next(s, x).acts[a].phase == Trying(0) && Next(s, x).late == s.late
  {
    if HasMover(x) { ActsMoved(s, x); } else if !x.Activate? { ActsSame(s, x); }
  }

  // ------------------------------------------------------------------ late transactions, and foreign locks

  lemma LateMoved(s: State, x: Action, txn: Txn)
    requires Enabled(s, x) && txn in Next(s, x).late && txn !in s.late
    ensures Mover(x) == txn.a && HasMover(x) && Moves(s, txn.a)
    ensures txn.LateRemove? ==> x == Unregister(txn.a, StillUnderWay) && Next(s, x).locks == s.locks
    ensures txn.LateSet? ==> x.TryRegister?
  {
  }

  lemma LateKnown(s: State, x: Action, txn: Txn)
    requires Base(s) && Enabled(s, x) && txn in Next(s, x).late
    ensures Known(Next(s, x), txn.a)
  {
    if txn !in s.late { LateMoved(s, x, txn); }
    KnownStays(s, x, txn.a);
  }

  /** An activation that is over stays over. */
  lemma OverStays(s: State, x: Action, b: Act)
    requires Enabled(s, x) && b in s.acts && OverOk(s, b) && s.nextAct !in s.acts
    ensures b in Next(s, x).acts && OverOk(Next(s, x), b)
  {
    if HasMover(x) { ActsMoved(s, x); } else if !x.Activate? { ActsSame(s, x); }
  }

  lemma OverStep(s: State, x: Action, b: Act)
    requires Base(s) && Enabled(s, x) && LateRemove(b) in Next(s, x).late
    ensures b in Next(s, x).acts && OverOk(Next(s, x), b)
  {
    if LateRemove(b) !in s.late {
      LateMoved(s, x, LateRemove(b));
      ActsMoved(s, x);
    } else {
      OverStays(s, x, b);
    }
  }

  /** A foreign lock that an active activation faces was there before, or is a late creation. */
  lemma FaceStep(s: State, x: Action, a: Act)
    requires Base(s) && Enabled(s, x) && Known(Next(s, x), a)
    ensures FaceOk(Next(s, x), a)
  {
    if a !in s.acts {
      NewIsTrying(s, x, a);
    } else if !Active(s.acts[a].phase) && Active(Next(s, x).acts[a].phase) {
      BecomesActive(s, x, a);
      KnownStays(s, x, a);
    } else if Active(Next(s, x).acts[a].phase) {
      Carries(s, x, a);
      FaceKept(s, x, a);
    }
  }

  lemma FaceKept(s: State, x: Action, a: Act)
    requires Base(s) && Enabled(s, x) && Carried(s, Next(s, x), a) && Active(s.acts[a].phase)
    ensures FaceOk(Next(s, x), a)
  {
    assert FaceOk(s, a);
    if !x.Expire? {
      LocksMoved(s, x);
      LateSetsGrow(s, x);
      if MoveOf(s, x).Made? && !x.Late? && s.acts[MoveOf(s, x).a].grain == s.acts[a].grain { FaceMade(s, x, a); }
    }
  }

  /** An activation of another name that creates the lock on time does not share its address. */
  lemma FaceMade(s: State, x: Action, a: Act)
    requires Base(s) && Enabled(s, x) && Known(s, a) && Active(s.acts[a].phase)
    requires MoveOf(s, x).Made? && !x.Late? && s.acts[MoveOf(s, x).a].grain == s.acts[a].grain
    ensures var h := MoveOf(s, x).a; h != a && Up(s, s.acts[a].node) ==> AddrOf(s, h) != AddrOf(s, a)
  {
    OneRegistered(s, a, MoveOf(s, x).a);
  }

  lemma BaseStep(s: State, x: Action)
    requires Base(s) && Enabled(s, x)
    ensures Base(Next(s, x))
  {
    var t := Next(s, x);
    StoreStep(s, x);
    forall txn | txn in t.late ensures Known(t, txn.a) { LateKnown(s, x, txn); }
    forall b | LateRemove(b) in t.late ensures b in t.acts && OverOk(t, b) { OverStep(s, x, b); }
    forall a | Known(t, a) ensures FaceOk(t, a) { FaceStep(s, x, a); }
  }

  // ------------------------------------------------------------------ holders

  /** The step takes the lock of an active activation. */
  predicate StealStep(s: State, x: Action) { x.Late? && x.txn.LateRemove? && Known(s, x.txn.a) && Steals(s, x.txn.a) }

  predicate ExposeStep(s: State, x: Action) { x.Late? && x.txn.LateRemove? && Known(s, x.txn.a) && Exposes(s, x.txn.a) }

  lemma HistoryMoved(s: State, x: Action)
    requires Enabled(s, x)
    ensures Next(s, x).robbed == s.robbed + if StealStep(s, x) then {s.locks[s.acts[x.txn.a].grain].holder} else {}
    ensures Next(s, x).exposed == s.exposed + if ExposeStep(s, x) then {s.acts[x.txn.a].grain} else {}
  {
  }

  /** A deletion takes no lock from an active activation, unless it robs it or it was robbed before. */
  lemma DeletionSpares(s: State, x: Action, b: Act, a: Act)
    requires Base(s) && Holders(s) && Enabled(s, x) && Known(s, b) && Deletes(s, x, b) && a != b
    requires Known(s, a) && Active(s.acts[a].phase) && s.acts[a].grain in s.locks && s.locks[s.acts[a].grain].holder == a
    requires a !in s.robbed && !(StealStep(s, x) && s.locks[s.acts[x.txn.a].grain].holder == a)
    ensures s.acts[b].grain != s.acts[a].grain
  {
    assert ForeignOk(s, b);
  }

  /** An activation that deletes its own lock is over. */
  lemma OwnDeletion(s: State, x: Action, a: Act)
    requires Base(s) && Enabled(s, x) && Known(s, a) && Deletes(s, x, a)
    ensures a in Next(s, x).acts && !Active(Next(s, x).acts[a].phase)
  {
    if x.Late? {
      ActsSame(s, x);
      assert OverOk(s, a);
    } else {
      ActsMoved(s, x);
    }
  }

  lemma HeldStep(s: State, x: Action, a: Act)
    requires Base(s) && Holders(s) && Enabled(s, x) && Known(Next(s, x), a)
    ensures HeldOk(Next(s, x), a)
  {
    var t := Next(s, x);
    HistoryMoved(s, x);
    if Active(t.acts[a].phase) && LeaseOf(t, a) in t.leases && a !in t.robbed {
      if a !in s.acts {
        NewIsTrying(s, x, a);
      } else if !Active(s.acts[a].phase) {
        BecomesActive(s, x, a);
      } else {
        Carries(s, x, a);
        HeldKept(s, x, a);
      }
    }
  }

  lemma HeldKept(s: State, x: Action, a: Act)
    requires Base(s) && Holders(s) && Enabled(s, x) && Carried(s, Next(s, x), a)
    requires Active(s.acts[a].phase) && Active(Next(s, x).acts[a].phase)
    requires LeaseOf(s, a) in Next(s, x).leases && a !in s.robbed && a !in Next(s, x).robbed
    ensures var g := s.acts[a].grain; g in Next(s, x).locks && Next(s, x).locks[g].holder == a
  {
    var g := s.acts[a].grain;
    assert HeldOk(s, a) && LockOk(s, g);
    if x.Expire? {
      ExpiryKeeps(s, x.lease, g);
    } else {
      LocksMoved(s, x);
      HistoryMoved(s, x);
      if MoveOf(s, x).Taken? { ActiveSpared(s, x, MoveOf(s, x).a, a); }
    }
  }

  lemma ActiveSpared(s: State, x: Action, b: Act, a: Act)
    requires Base(s) && Holders(s) && Enabled(s, x) && Known(s, b) && Deletes(s, x, b)
    requires Known(s, a) && s.acts[a].grain in s.locks && s.locks[s.acts[a].grain].holder == a
    requires Active(s.acts[a].phase) && a in Next(s, x).acts && Active(Next(s, x).acts[a].phase)
    requires a !in s.robbed && !(StealStep(s, x) && s.locks[s.acts[x.txn.a].grain].holder == a)
    ensures s.acts[b].grain != s.acts[a].grain
  {
    if b == a { OwnDeletion(s, x, a); } else { DeletionSpares(s, x, b, a); }
  }

  lemma ForeignStep(s: State, x: Action, a: Act)
    requires Base(s) && Holders(s) && Enabled(s, x) && Known(Next(s, x), a)
    ensures ForeignOk(Next(s, x), a)
  {
    var t := Next(s, x);
    if Active(t.acts[a].phase) && Up(t, t.acts[a].node) && CanDelete(t, a) && t.locks[t.acts[a].grain].holder != a {
      if a !in s.acts {
        NewIsTrying(s, x, a);
      } else if !Active(s.acts[a].phase) {
        BecomesActive(s, x, a);
      } else {
        Carries(s, x, a);
        ForeignKept(s, x, a);
      }
    }
  }

  /** A lock that an active activation faces was there before, or is a late creation of a robbed one. */
  lemma ForeignKept(s: State, x: Action, a: Act)
    requires Base(s) && Holders(s) && Enabled(s, x) && Carried(s, Next(s, x), a) && Active(s.acts[a].phase)
    requires Up(s, s.acts[a].node) && CanDelete(Next(s, x), a) && Next(s, x).locks[s.acts[a].grain].holder != a
    ensures var t := Next(s, x); var h := t.locks[s.acts[a].grain].holder; h in t.acts && (!Active(t.acts[h].phase) || h in t.robbed)
  {
    var g := s.acts[a].grain;
    HistoryMoved(s, x);
    LockFound(s, x, g);
    if !x.Expire? && MoveOf(s, x).Made? && s.acts[MoveOf(s, x).a].grain == g {
      LateIsRobbed(s, x, a, MoveOf(s, x).a);
    } else {
      assert LockOk(s, g) && ForeignOk(s, a);
      FacedStays(s, x, g);
    }
  }

  /** A lock that is there was made in this step, or was there before. */
  lemma LockFound(s: State, x: Action, g: Grain)
    requires Enabled(s, x) && g in Next(s, x).locks
    ensures !x.Expire? && MoveOf(s, x).Made? ==> Known(s, MoveOf(s, x).a) && CanCreate(s, MoveOf(s, x).a)
    ensures if !x.Expire? && MoveOf(s, x).Made? && s.acts[MoveOf(s, x).a].grain == g
            then Next(s, x).locks[g] == Create(s, MoveOf(s, x).a).locks[g]
            else g in s.locks && Next(s, x).locks[g] == s.locks[g]
  {
    if !x.Expire? { LocksMoved(s, x); }
  }

  /** The holder of a lock that is there does not become active. */
  lemma FacedStays(s: State, x: Action, g: Grain)
    requires Base(s) && Enabled(s, x) && g in s.locks && LockOk(s, g)
    ensures var h := s.locks[g].holder; h in Next(s, x).acts && (Active(Next(s, x).acts[h].phase) ==> Active(s.acts[h].phase))
  {
    var h := s.locks[g].holder;
    KnownStays(s, x, h);
    if !Active(s.acts[h].phase) && Active(Next(s, x).acts[h].phase) { BecomesActive(s, x, h); }
  }

  lemma LateIsRobbed(s: State, x: Action, a: Act, h: Act)
    requires Base(s) && Holders(s) && Enabled(s, x) && Known(s, a) && Active(s.acts[a].phase) && Up(s, s.acts[a].node)
    requires Known(s, h) && CanCreate(s, h) && Creates(s, x, h) && h != a && s.acts[h].grain == s.acts[a].grain
    requires AddrOf(s, h) == AddrOf(s, a)
    ensures h in Next(s, x).acts && (!Active(Next(s, x).acts[h].phase) || h in s.robbed)
  {
    assert HeldOk(s, h);
    if x.Late? { ActsSame(s, x); } else { FaceMade(s, x, a); }
  }

  lemma RobbedStep(s: State, x: Action, a: Act)
    requires Base(s) && Holders(s) && Enabled(s, x) && a in Next(s, x).robbed
    ensures RobbedOk(Next(s, x), a)
  {
    HistoryMoved(s, x);
    if a in s.robbed {
      assert RobbedOk(s, a);
    } else {
      var g := s.acts[x.txn.a].grain;
      assert LockOk(s, g) && OverOk(s, x.txn.a);
    }
    Carries(s, x, a);
  }

  lemma HoldersStep(s: State, x: Action)
    requires Base(s) && Holders(s) && Enabled(s, x)
    ensures Holders(Next(s, x))
  {
    var t := Next(s, x);
    forall a | Known(t, a) ensures HeldOk(t, a) && ForeignOk(t, a) { HeldStep(s, x, a); ForeignStep(s, x, a); }
    forall a | a in t.robbed ensures RobbedOk(t, a) { RobbedStep(s, x, a); }
  }

  lemma ExpiryKeeps(s: State, l: Lease, g: Grain)
    requires Enabled(s, Expire(l)) && g in s.locks && s.locks[g].lease in Next(s, Expire(l)).leases
    ensures g in Next(s, Expire(l)).locks && Next(s, Expire(l)).locks[g] == s.locks[g]
  {
  }

  // ------------------------------------------------------------------ pending deletions of one's own node

  /** A pending deletion's lock survives while its node is up with a live lease. */
  lemma PendingKeepsLock(s: State, x: Action, b: Act)
    requires Base(s) && Enabled(s, x) && Known(s, b) && Parted(s, s.acts[b].grain)
    requires ExposeStep(s, x) ==> s.acts[x.txn.a].grain != s.acts[b].grain
    requires LateRemove(b) in s.late && LateRemove(b) in Next(s, x).late
    requires Up(s, s.acts[b].node) && LeaseOf(s, b) in s.leases && LeaseOf(s, b) in Next(s, x).leases
    ensures var g := s.acts[b].grain; g in Next(s, x).locks && Next(s, x).locks[g].holder == b
  {
    var g := s.acts[b].grain;
    assert RemoveOk(s, b) && LockOk(s, g);
    if x.Expire? { ExpiryKeeps(s, x.lease, g); } else { PendingMoved(s, x, b); }
  }

  lemma PendingMoved(s: State, x: Action, b: Act)
    requires Base(s) && Enabled(s, x) && !x.Expire? && Known(s, b) && Parted(s, s.acts[b].grain)
    requires ExposeStep(s, x) ==> s.acts[x.txn.a].grain != s.acts[b].grain
    requires LateRemove(b) in s.late && LateRemove(b) in Next(s, x).late
    requires Up(s, s.acts[b].node) && LeaseOf(s, b) in s.leases && s.acts[b].grain in s.locks
    ensures var g := s.acts[b].grain; g in Next(s, x).locks && Next(s, x).locks[g] == s.locks[g]
  {
    LocksMoved(s, x);
    if MoveOf(s, x).Taken? { PendingSpared(s, x, b, MoveOf(s, x).a); }
  }

  lemma PendingSpared(s: State, x: Action, b: Act, c: Act)
    requires Base(s) && Enabled(s, x) && Known(s, b) && Parted(s, s.acts[b].grain) && Known(s, c) && Deletes(s, x, c)
    requires ExposeStep(s, x) ==> s.acts[x.txn.a].grain != s.acts[b].grain
    requires LateRemove(b) in s.late && LateRemove(b) in Next(s, x).late
    requires Up(s, s.acts[b].node) && LeaseOf(s, b) in s.leases
    ensures s.acts[c].grain != s.acts[b].grain
  {
    assert RemoveOk(s, b) && Apart(s, b, c);
    assert x.Late? ==> c != b;
  }

  lemma RemoveStep(s: State, x: Action, b: Act)
    requires Base(s) && Enabled(s, x) && LateRemove(b) in Next(s, x).late && Known(Next(s, x), b)
    requires ExposeStep(s, x) ==> s.acts[x.txn.a].grain != Next(s, x).acts[b].grain
    requires Holders(s) && Next(s, x).acts[b].grain !in s.exposed && Parted(s, Next(s, x).acts[b].grain)
    ensures RemoveOk(Next(s, x), b)
  {
    var t := Next(s, x);
    if LateRemove(b) !in s.late {
      LateMoved(s, x, LateRemove(b));
      ActsMoved(s, x);
      Carries(s, x, b);
      assert HeldOk(s, b) && (b in s.robbed ==> RobbedOk(s, b));
    } else {
      Carries(s, x, b);
      if Up(t, t.acts[b].node) && LeaseOf(t, b) in t.leases { PendingKeepsLock(s, x, b); }
    }
  }

  lemma ApartStep(s: State, x: Action, b: Act, a: Act)
    requires Base(s) && Enabled(s, x) && LateRemove(b) in Next(s, x).late
    requires Known(Next(s, x), b) && Known(Next(s, x), a) && Parted(s, Next(s, x).acts[b].grain)
    ensures Apart(Next(s, x), b, a)
  {
    var t := Next(s, x);
    if Active(t.acts[a].phase) && t.acts[a].node == t.acts[b].node && t.acts[a].grain == t.acts[b].grain {
      if a !in s.acts {
        NewIsTrying(s, x, a);
      } else {
        Carries(s, x, a);
        if LateRemove(b) in s.late { ApartOld(s, x, b, a); } else { ApartNew(s, x, b, a); }
      }
    }
  }

  lemma ApartOld(s: State, x: Action, b: Act, a: Act)
    requires Base(s) && Enabled(s, x) && LateRemove(b) in s.late && Carried(s, Next(s, x), a)
    requires Known(Next(s, x), b) && Active(Next(s, x).acts[a].phase) && Parted(s, Next(s, x).acts[b].grain)
    requires Next(s, x).acts[a].node == Next(s, x).acts[b].node && Next(s, x).acts[a].grain == Next(s, x).acts[b].grain
    ensures LeaseOf(s, a) !in Next(s, x).leases
  {
    assert Known(s, b);
    KnownStays(s, x, b);
    assert RemoveOk(s, b) && Apart(s, b, a);
    if !Active(s.acts[a].phase) { BecomesActive(s, x, a); }
  }

  lemma ApartNew(s: State, x: Action, b: Act, a: Act)
    requires Base(s) && Enabled(s, x) && LateRemove(b) in Next(s, x).late && LateRemove(b) !in s.late && Carried(s, Next(s, x), a)
    requires Known(Next(s, x), b)
    requires Next(s, x).acts[a].node == Next(s, x).acts[b].node && Next(s, x).acts[a].grain == Next(s, x).acts[b].grain
    ensures !Active(Next(s, x).acts[a].phase)
  {
    LateMoved(s, x, LateRemove(b));
    ActsMoved(s, x);
    OneRegistered(s, a, b);
  }

  lemma PartedStep(s: State, x: Action, g: Grain)
    requires Base(s) && Holders(s) && Enabled(s, x) && Parted(s, g) && g !in Next(s, x).exposed
    ensures Parted(Next(s, x), g)
  {
    var t := Next(s, x);
    HistoryMoved(s, x);
    forall b | LateRemove(b) in t.late && Known(t, b) && t.acts[b].grain == g ensures RemoveOk(t, b) { RemoveStep(s, x, b); }
    forall b, a | LateRemove(b) in t.late && Known(t, b) && Known(t, a) && t.acts[b].grain == g ensures Apart(t, b, a) {
      ApartStep(s, x, b, a);
    }
  }

  // ------------------------------------------------------------------ all of it

  lemma StepKeepsInv(s: State, x: Action)
    requires Inv(s) && Enabled(s, x)
    ensures Inv(Next(s, x))
  {
    var t := Next(s, x);
    assert Base(t) by { BaseStep(s, x); }
    HistoryMoved(s, x);
    assert Holders(t) by { HoldersStep(s, x); }
    forall g | g !in t.exposed ensures Parted(t, g) { PartedStep(s, x, g); }
  }

  lemma {:induction false} RunInv(run: seq<State>, acts: seq<Action>, n: nat)
    requires IsRun(run, acts) && n <= |acts|
    ensures Inv(run[n])
  {
    if n > 0 {
      RunInv(run, acts, n - 1);
      StepKeepsInv(run[n - 1], acts[n - 1]);
    }
  }

  lemma ReachableInv(s: State)
    requires Reachable(s)
    ensures Inv(s)
  {
    var run, acts :| IsRun(run, acts) && run[|acts|] == s;
    RunInv(run, acts, |acts|);
  }
}
