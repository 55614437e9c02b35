/** What the cluster lock promises over all runs, and exactly when. */
module ClusterLocksTheorems {
  import opened ClusterLocks
  import opened ClusterLocksSafety

  predicate LeaseLives(s: State, a: Act) { Known(s, a) && LeaseOf(s, a) in s.leases }

  // ------------------------------------------------------------------ single activation

  /** If it is active with a live lease, the activation holds its lock. */
  predicate Holds(s: State, a: Act) {
    LeaseLives(s, a) && Active(s.acts[a].phase) ==> s.acts[a].grain in s.locks && s.locks[s.acts[a].grain].holder == a
  }

  /** A deletion that was still under way takes the lock of activation a while it is active. */
  predicate Robs(s: State, x: Action, a: Act) { StealStep(s, x) && s.locks[s.acts[x.txn.a].grain].holder == a }

  ghost predicate SomeRobs(run: seq<State>, acts: seq<Action>, n: nat, a: Act)
    requires n <= |acts| <= |run|
  {
    exists i :: 0 <= i < n && Robs(run[i], acts[i], a)
  }

  lemma {:induction false} RobbedOverRuns(run: seq<State>, acts: seq<Action>, n: nat, a: Act)
    requires IsRun(run, acts) && n <= |acts|
    ensures a in run[n].robbed <==> SomeRobs(run, acts, n, a)
  {
    if n > 0 {
      RobbedOverRuns(run, acts, n - 1, a);
      HistoryMoved(run[n - 1], acts[n - 1]);
    }
  }

  lemma HoldsUnlessRobbed(run: seq<State>, acts: seq<Action>, n: nat, a: Act)
    requires IsRun(run, acts) && n <= |acts| && !SomeRobs(run, acts, n, a)
    ensures Holds(run[n], a)
  {
    RobbedOverRuns(run, acts, n, a);
    RunInv(run, acts, n);
    assert Known(run[n], a) ==> HeldOk(run[n], a);
  }

  lemma RobbingBreaks(s: State, x: Action, a: Act)
    requires Base(s) && Enabled(s, x) && Robs(s, x, a)
    ensures !Holds(Next(s, x), a)
  {
    assert LockOk(s, s.acts[x.txn.a].grain);
  }

  /** Exactly when: over every run and for every activation, it holds its lock in all states in which it is
      active with a live lease if and only if no deletion that was still under way took that lock. */
  lemma LockHeldExactly(run: seq<State>, acts: seq<Action>, a: Act)
    requires IsRun(run, acts)
    ensures (forall i :: 0 <= i <= |acts| ==> Holds(run[i], a)) <==> !SomeRobs(run, acts, |acts|, a)
  {
    if SomeRobs(run, acts, |acts|, a) {
      var i :| 0 <= i < |acts| && Robs(run[i], acts[i], a);
      RunInv(run, acts, i);
      RobbingBreaks(run[i], acts[i], a);
      assert !Holds(run[i + 1], a);
    } else {
      forall i | 0 <= i <= |acts| ensures Holds(run[i], a) { HoldsUnlessRobbed(run, acts, i, a); }
    }
  }

  /** Two active activations of one grain, both with live leases. */
  predicate Doubled(s: State, a: Act, b: Act) {
    && a != b && LeaseLives(s, a) && LeaseLives(s, b) && s.acts[a].grain == s.acts[b].grain
    && Active(s.acts[a].phase) && Active(s.acts[b].phase)
  }

  /** Across all nodes, at most one activation of a grain is between registration and unregistration
      while its node's lease lives, but for activations robbed of their locks: of two such, one was. */
  lemma SingleActivation(run: seq<State>, acts: seq<Action>, n: nat, a: Act, b: Act)
    requires IsRun(run, acts) && n <= |acts| && Doubled(run[n], a, b)
    ensures SomeRobs(run, acts, n, a) || SomeRobs(run, acts, n, b)
  {
    if !SomeRobs(run, acts, n, a) && !SomeRobs(run, acts, n, b) {
      HoldsUnlessRobbed(run, acts, n, a);
      HoldsUnlessRobbed(run, acts, n, b);
    }
  }

  /** And once a deletion may steal an active lock, a continuation of four steps activates the grain twice. */
  lemma StealDoubles(s: State, b: Act, addr: nat) returns (end: State)
    requires Reachable(s) && LateRemove(b) in s.late && Known(s, b) && Steals(s, b) && Enabled(s, StartNode(addr))
    ensures Reachable(end) && Doubled(end, s.locks[s.acts[b].grain].holder, s.nextAct)
  {
    ReachableInv(s);
    var g := s.acts[b].grain;
    assert LockOk(s, g);
    var s1 := Next(s, Late(LateRemove(b)));
    NextReaches(s, Late(LateRemove(b)));
    assert s1.nodes == s.nodes && s1.acts == s.acts && s1.leases == s.leases && g !in s1.locks;
    FreeGrainActivates(s1, s.locks[g].holder, addr);
    end := NewActivation(s1, g, addr);
  }

  function NewActivation(s: State, g: Grain, addr: nat): State {
    s.(nodes := s.nodes[s.nextNode := Process(addr, s.nextLease, true)], leases := s.leases + {s.nextLease},
       acts := s.acts[s.nextAct := Activation(s.nextNode, g, Running)], registry := s.registry[(s.nextNode, g) := s.nextAct],
       locks := s.locks[g := Lock(addr, s.nextLease, s.nextAct)],
       nextNode := s.nextNode + 1, nextLease := s.nextLease + 1, nextAct := s.nextAct + 1)
  }

  lemma FreeGrainActivates(s: State, c: Act, addr: nat)
    requires Reachable(s) && LeaseLives(s, c) && Active(s.acts[c].phase) && s.acts[c].grain !in s.locks
    requires Enabled(s, StartNode(addr))
    ensures Reachable(NewActivation(s, s.acts[c].grain, addr))
    ensures Doubled(NewActivation(s, s.acts[c].grain, addr), c, s.nextAct)
  {
    ReachableInv(s);
    NextReaches(s, StartNode(addr));
    NewNodeActivates(s, s.acts[c].grain, addr);
  }

  function NewTrying(s: State, g: Grain, addr: nat): State {
    NewActivation(s, g, addr).(acts := s.acts[s.nextAct := Activation(s.nextNode, g, Trying(0))], locks := s.locks)
  }

  lemma NewNodeActivates(s: State, g: Grain, addr: nat)
    requires NodesInv(s) && ActsInv(s) && Enabled(s, StartNode(addr)) && Reachable(Next(s, StartNode(addr))) && g !in s.locks
    ensures Reachable(NewActivation(s, g, addr))
  {
    var s1 := Next(s, StartNode(addr));
    NextReaches(s1, Activate(s.nextNode, g));
    assert Next(s1, Activate(s.nextNode, g)) == NewTrying(s, g, addr);
    NewTryingRegisters(s, g, addr);
  }

  lemma NewTryingRegisters(s: State, g: Grain, addr: nat)
    requires Reachable(NewTrying(s, g, addr)) && g !in s.locks
    ensures Reachable(NewActivation(s, g, addr))
  {
    var s2 := NewTrying(s, g, addr);
    NextReaches(s2, TryRegister(s.nextAct, Answered));
    assert Next(s2, TryRegister(s.nextAct, Answered)) == NewActivation(s, g, addr);
  }

  lemma NextReaches(s: State, x: Action)
    requires Reachable(s) && Enabled(s, x)
    ensures Reachable(Next(s, x))
  {
    var run, acts :| IsRun(run, acts) && run[|acts|] == s;
    assert IsRun(run + [Next(s, x)], acts + [x]);
  }

  // ------------------------------------------------------------------ such states are reachable

  /** One process on address `addr` with one activation of grain g, holding the given locks. */
  function Alone(addr: nat, g: Grain, locks: map<Grain, Lock>, phase: Phase, late: set<Txn>): State {
    State(locks, {0}, map[0 := Process(addr, 0, true)], map[0 := Activation(0, g, phase)], map[(0, g) := 0], late,
          1, 1, 1, 0, {}, {})
  }

  function Held(addr: nat, g: Grain): map<Grain, Lock> { map[g := Lock(addr, 0, 0)] }

  lemma TryingReachable(addr: nat, g: Grain)
    ensures Reachable(Alone(addr, g, map[], Trying(0), {}))
  {
    var none: seq<Action> := [];
    assert IsRun([Initial], none) && [Initial][|none|] == Initial;
    var s1 := Next(Initial, StartNode(addr));
    NextReaches(Initial, StartNode(addr));
    NextReaches(s1, Activate(0, g));
    assert Next(s1, Activate(0, g)) == Alone(addr, g, map[], Trying(0), {});
  }

  lemma StoppingReachable(addr: nat, g: Grain)
    ensures Reachable(Alone(addr, g, Held(addr, g), Unregistering, {}))
  {
    TryingReachable(addr, g);
    var s2, s3 := Alone(addr, g, map[], Trying(0), {}), Alone(addr, g, Held(addr, g), Running, {});
    NextReaches(s2, TryRegister(0, Answered));
    assert Next(s2, TryRegister(0, Answered)) == s3;
    NextReaches(s3, BeginStop(0));
    assert Next(s3, BeginStop(0)) == Alone(addr, g, Held(addr, g), Unregistering, {});
  }

  /** The activation is over, with the deletion of its lock still under way. */
  lemma LingeringReachable(addr: nat, g: Grain)
    ensures Reachable(Alone(addr, g, Held(addr, g), Unregistered, {LateRemove(0)}))
  {
    StoppingReachable(addr, g);
    var s4 := Alone(addr, g, Held(addr, g), Unregistering, {});
    NextReaches(s4, Unregister(0, StillUnderWay));
    assert Next(s4, Unregister(0, StillUnderWay)) == Alone(addr, g, Held(addr, g), Unregistered, {LateRemove(0)});
  }

  /** After a crash and the expiry of its lease, a process restarted on the same address has an
      activation of g, holding the lock or about to. */
  function Restarted(addr: nat, g: Grain, locks: map<Grain, Lock>, phase: Phase, late: set<Txn>): State {
    State(locks, {1}, map[0 := Process(addr, 0, false), 1 := Process(addr, 1, true)],
          map[0 := Activation(0, g, Unregistered), 1 := Activation(1, g, phase)],
          map[(0, g) := 0, (1, g) := 1], late, 2, 2, 2, 0, {}, {})
  }

  function HeldAgain(addr: nat, g: Grain): map<Grain, Lock> { map[g := Lock(addr, 1, 1)] }

  lemma RestartReachable(addr: nat, g: Grain)
    ensures Reachable(Restarted(addr, g, map[], Trying(0), {LateRemove(0)}))
  {
    LingeringReachable(addr, g);
    var s0 := Alone(addr, g, Held(addr, g), Unregistered, {LateRemove(0)});
    var s1 := Next(s0, Crash(0));
    NextReaches(s0, Crash(0));
    assert s1.nodes == map[0 := Process(addr, 0, false)];
    var s2 := Next(s1, Expire(0));
    NextReaches(s1, Expire(0));
    assert s2.locks == map[] && s2.leases == {};
    var s3 := Next(s2, StartNode(addr));
    NextReaches(s2, StartNode(addr));
    NextReaches(s3, Activate(1, g));
    assert Next(s3, Activate(1, g)) == Restarted(addr, g, map[], Trying(0), {LateRemove(0)});
  }

  /** A state in which an old deletion can steal is reachable: it compares addresses only, and the
      restarted process has the old one's address. */
  lemma StealIsReachable(addr: nat, g: Grain)
    ensures var s := Restarted(addr, g, HeldAgain(addr, g), Running, {LateRemove(0)}); Reachable(s) && Steals(s, 0)
  {
    RestartReachable(addr, g);
    var s4 := Restarted(addr, g, map[], Trying(0), {LateRemove(0)});
    NextReaches(s4, TryRegister(1, Answered));
    assert Next(s4, TryRegister(1, Answered)) == Restarted(addr, g, HeldAgain(addr, g), Running, {LateRemove(0)});
  }

  // ------------------------------------------------------------------ re-activation on one node

  /** A deletion that the node itself left under way can take the lock of its own active activation. */
  ghost predicate SelfThreat(s: State, g: Grain) {
    exists b :: LateRemove(b) in s.late && Known(s, b) && s.acts[b].grain == g && Steals(s, b)
                && s.acts[s.locks[g].holder].node == s.acts[b].node
  }

  /** A local re-activation cannot have its lock removed by the previous instance: a pending deletion that
      matches the lock of an active activation comes from another process on the address. This holds for
      every grain of which no lock was exposed before. */
  lemma ReactivationKeepsLock(s: State, g: Grain)
    requires Reachable(s) && g !in s.exposed
    ensures !SelfThreat(s, g)
  {
    ReachableInv(s);
    assert Parted(s, g);
    forall b | LateRemove(b) in s.late && Known(s, b) && s.acts[b].grain == g && Steals(s, b)
      ensures s.acts[s.locks[g].holder].node != s.acts[b].node
    {
      assert LockOk(s, g) && Apart(s, b, s.locks[g].holder);
    }
  }

  predicate ExposesOf(s: State, x: Action, g: Grain) { ExposeStep(s, x) && s.acts[x.txn.a].grain == g }

  /** The exposed grains are those of which a late deletion took a lock from another activation, on a node
      that was up, which was active or had its own deletion still under way. */
  lemma {:induction false} ExposedOverRuns(run: seq<State>, acts: seq<Action>, n: nat, g: Grain)
    requires IsRun(run, acts) && n <= |acts|
    ensures g in run[n].exposed <==> exists i :: 0 <= i < n && ExposesOf(run[i], acts[i], g)
  {
    if n > 0 {
      ExposedOverRuns(run, acts, n - 1, g);
      HistoryMoved(run[n - 1], acts[n - 1]);
    }
  }

  /** The condition is needed: whenever a late deletion takes a lock like that, the holder's node may
      activate the grain again, against its own pending deletion. */
  lemma ExposingThreatens(s: State, c: Act) returns (end: State)
    requires Reachable(s) && LateRemove(c) in s.late && Known(s, c) && Exposes(s, c)
    ensures Reachable(end) && SelfThreat(end, s.acts[c].grain)
  {
    ReachableInv(s);
    var g := s.acts[c].grain;
    var h := s.locks[g].holder;
    assert LockOk(s, g);
    var s1 := Next(s, Late(LateRemove(c)));
    NextReaches(s, Late(LateRemove(c)));
    assert s1.nodes == s.nodes && s1.acts == s.acts && s1.leases == s.leases && g !in s1.locks && s1.registry == s.registry;
    if LateRemove(h) in s.late {
      end := Reactivates(s1, h);
    } else {
      end := LeavesDeletion(s1, h);
    }
  }

  /** The node of b is up with a live lease and the lock of b's grain is absent. */
  predicate Vacant(s: State, b: Act) { Moves(s, b) && LeaseLives(s, b) && s.acts[b].grain !in s.locks }

  /** An active activation without its lock may stop and leave a deletion under way. */
  lemma LeavesDeletion(s: State, h: Act) returns (end: State)
    requires Reachable(s) && Vacant(s, h) && Active(s.acts[h].phase)
    ensures Reachable(end) && SelfThreat(end, s.acts[h].grain)
  {
    var s1 := if s.acts[h].phase.Running? then Next(s, BeginStop(h)) else s;
    if s.acts[h].phase.Running? { NextReaches(s, BeginStop(h)); }
    NextReaches(s1, Unregister(h, StillUnderWay));
    end := Reactivates(Next(s1, Unregister(h, StillUnderWay)), h);
  }

  function StepsLeft(p: Phase): nat {
    match p case Running => 3 case Unregistering => 2 case _ => 1
  }

  function Ahead(s: State, b: Act): nat
    requires b in s.acts
  {
    var k := (s.acts[b].node, s.acts[b].grain);
    if k in s.registry && s.registry[k] in s.acts then StepsLeft(s.acts[s.registry[k]].phase) else 0
  }

  /** The next step of an activation that has to leave the registry. */
  function OnTheWayOut(a: Act, p: Phase): Action {
    match p case Running => BeginStop(a) case Unregistering => Unregister(a, Answered) case _ => Forget(a)
  }

  /** A node that is up with a live lease can activate a grain whose lock is absent; the registered
      activation leaves first. */
  lemma Reactivates(s: State, b: Act) returns (end: State)
    requires Reachable(s) && LateRemove(b) in s.late && Vacant(s, b)
    ensures Reachable(end) && SelfThreat(end, s.acts[b].grain)
    decreases Ahead(s, b)
  {
    ReachableInv(s);
    var n, g := s.acts[b].node, s.acts[b].grain;
    if (n, g) !in s.registry {
      end := ActivatesHere(s, b);
    } else {
      var a := s.registry[(n, g)];
      assert Entry(s, n, g);
      if s.acts[a].phase.Trying? {
        end := RegistersHere(s, b, a);
      } else {
        var x := OnTheWayOut(a, s.acts[a].phase);
        NextReaches(s, x);
        WayOut(s, b, a);
        end := Reactivates(Next(s, x), b);
      }
    }
  }

  lemma WayOut(s: State, b: Act, a: Act)
    requires Vacant(s, b) && LateRemove(b) in s.late
    requires a in s.acts && s.acts[a].node == s.acts[b].node && s.acts[a].grain == s.acts[b].grain && Registered(s, a)
    requires !s.acts[a].phase.Trying? && !s.acts[a].phase.Removed?
    ensures Enabled(s, OnTheWayOut(a, s.acts[a].phase))
    ensures var t := Next(s, OnTheWayOut(a, s.acts[a].phase));
            LateRemove(b) in t.late && Vacant(t, b) && t.acts[b].grain == s.acts[b].grain && Ahead(t, b) < Ahead(s, b)
  {
  }

  lemma ActivatesHere(s: State, b: Act) returns (end: State)
    requires Reachable(s) && LateRemove(b) in s.late && Vacant(s, b) && (s.acts[b].node, s.acts[b].grain) !in s.registry
    ensures Reachable(end) && SelfThreat(end, s.acts[b].grain)
  {
    ReachableInv(s);
    var x := Activate(s.acts[b].node, s.acts[b].grain);
    var s1 := Next(s, x);
    NextReaches(s, x);
    KnownStays(s, x, b);
    end := RegistersHere(s1, b, s.nextAct);
  }

  lemma RegistersHere(s: State, b: Act, a: Act) returns (end: State)
    requires Reachable(s) && LateRemove(b) in s.late && Vacant(s, b)
    requires a in s.acts && s.acts[a].phase.Trying? && s.acts[a].node == s.acts[b].node && s.acts[a].grain == s.acts[b].grain
    ensures Reachable(end) && SelfThreat(end, s.acts[b].grain)
  {
    var x := TryRegister(a, Answered);
    NextReaches(s, x);
    end := Next(s, x);
    assert end.acts == s.acts[a := s.acts[a].(phase := Running)] && end.nodes == s.nodes && end.leases == s.leases && end.late == s.late;
    assert LateRemove(b) in end.late && Known(end, b) && Steals(end, b);
  }

  /** And such a deletion is reachable, not only by stealing: of two processes on one address each left one
      under way. */
  lemma ExposureIsReachable(addr: nat, g: Grain)
    ensures var s := Restarted(addr, g, HeldAgain(addr, g), Unregistered, {LateRemove(0), LateRemove(1)}); Reachable(s) && Exposes(s, 0)
  {
    StealIsReachable(addr, g);
    var late := {LateRemove(0)};
    var s5, s6 := Restarted(addr, g, HeldAgain(addr, g), Running, late), Restarted(addr, g, HeldAgain(addr, g), Unregistering, late);
    NextReaches(s5, BeginStop(1));
    assert Next(s5, BeginStop(1)) == s6;
    NextReaches(s6, Unregister(1, StillUnderWay));
    assert Next(s6, Unregister(1, StillUnderWay))
           == Restarted(addr, g, HeldAgain(addr, g), Unregistered, {LateRemove(0), LateRemove(1)});
  }

  // ------------------------------------------------------------------ who deletes a lock

  /** A matching compare-and-delete removes the lock of its own activation if and only if its node's
      lease lives, for an activation that was not robbed of its lock; and in every run it always does as
      long as no late creation has committed, even when the lease has expired or the address was used
      before. */
  lemma DeletesOnlyItsOwnLock(s: State, a: Act)
    requires Reachable(s) && Moves(s, a) && s.acts[a].phase.Unregistering? && CanDelete(s, a)
    ensures a !in s.robbed ==> (s.locks[s.acts[a].grain].holder == a <==> LeaseLives(s, a))
    ensures s.lateSets == 0 ==> s.locks[s.acts[a].grain].holder == a
  {
    ReachableInv(s);
    assert LockOk(s, s.acts[a].grain) && FaceOk(s, a);
    assert HeldOk(s, a);
  }

  /** A second process on the address of one that crashed with a creation under way. */
  function Overlapping(addr: nat, g: Grain, locks: map<Grain, Lock>, leases: set<Lease>, phase: Phase, late: set<Txn>, lateSets: nat): State {
    State(locks, leases, map[0 := Process(addr, 0, false), 1 := Process(addr, 1, true)],
          map[0 := Activation(0, g, Trying(1)), 1 := Activation(1, g, phase)],
          map[(0, g) := 0, (1, g) := 1], late, 2, 2, 2, lateSets, {}, {})
  }

  lemma OverlappingReachable(addr: nat, g: Grain)
    ensures Reachable(Overlapping(addr, g, map[], {0, 1}, Trying(0), {LateSet(0, 0)}, 0))
  {
    TryingReachable(addr, g);
    var s0, s1 := Alone(addr, g, map[], Trying(0), {}), Alone(addr, g, map[], Trying(1), {LateSet(0, 0)});
    NextReaches(s0, TryRegister(0, StillUnderWay));
    assert Next(s0, TryRegister(0, StillUnderWay)) == s1;
    var s2 := Next(s1, Crash(0));
    NextReaches(s1, Crash(0));
    assert s2.nodes == map[0 := Process(addr, 0, false)];
    var s3 := Next(s2, StartNode(addr));
    NextReaches(s2, StartNode(addr));
    NextReaches(s3, Activate(1, g));
    assert Next(s3, Activate(1, g)) == Overlapping(addr, g, map[], {0, 1}, Trying(0), {LateSet(0, 0)}, 0);
  }

  /** The condition is needed: after a late creation a stopping activation can delete another's lock. */
  lemma ForeignDeletionIsReachable(addr: nat, g: Grain)
    ensures var s := Overlapping(addr, g, Held(addr, g), {0}, Unregistering, {}, 1);
            Reachable(s) && Moves(s, 1) && CanDelete(s, 1) && s.locks[g].holder == 0
  {
    OverlappingReachable(addr, g);
    var late := {LateSet(0, 0)};
    var s4 := Overlapping(addr, g, map[], {0, 1}, Trying(0), late, 0);
    var s5 := Overlapping(addr, g, HeldAgain(addr, g), {0, 1}, Running, late, 0);
    NextReaches(s4, TryRegister(1, Answered));
    assert Next(s4, TryRegister(1, Answered)) == s5;
    var s6 := Overlapping(addr, g, map[], {0}, Running, late, 0);
    NextReaches(s5, Expire(1));
    assert Next(s5, Expire(1)) == s6;
    var s7 := Overlapping(addr, g, Held(addr, g), {0}, Running, {}, 1);
    NextReaches(s6, Late(LateSet(0, 0)));
    assert Next(s6, Late(LateSet(0, 0))) == s7;
    NextReaches(s7, BeginStop(1));
    assert Next(s7, BeginStop(1)) == Overlapping(addr, g, Held(addr, g), {0}, Unregistering, {}, 1);
  }

  /** The lock's address is that of a's process, and an active holder is on another process unless a lock
      of the grain was exposed before. */
  predicate LostToLate(s: State, a: Act, g: Grain) {
    && Known(s, a) && g in s.locks && AddrOf(s, a) == s.locks[g].addr
    && (g !in s.exposed && s.locks[g].holder in s.acts && Active(s.acts[s.locks[g].holder].phase) ==>
          s.acts[s.locks[g].holder].node != s.acts[a].node)
  }

  /** a's own unregistration, or that of another process's activation after a late creation. */
  predicate LostToStop(s: State, a: Act, g: Grain)
    requires g in s.locks
  {
    a == s.locks[g].holder || (s.lateSets > 0 && (a !in s.robbed ==> !LeaseLives(s, a)))
  }

  lemma LateTakes(s: State, b: Act)
    requires Reachable(s) && LateRemove(b) in s.late && Known(s, b) && CanDelete(s, b)
    ensures LostToLate(s, b, s.acts[b].grain)
  {
    if s.acts[b].grain !in s.exposed { ReactivationKeepsLock(s, s.acts[b].grain); }
  }

  lemma TakenBy(s: State, x: Action, g: Grain)
    requires Enabled(s, x) && !x.Expire? && g in s.locks && (g !in Next(s, x).locks || Next(s, x).locks[g] != s.locks[g])
    ensures x.Unregister? || (x.Late? && x.txn.LateRemove?)
    ensures var a := if x.Late? then x.txn.a else x.a; Known(s, a) && s.acts[a].grain == g && CanDelete(s, a)
  {
    LocksMoved(s, x);
  }

  /** In every run a lock disappears only with its lease, by its holder's unregistration, by that of
      another activation on the same address after a late creation, or by a deletion that was still
      under way; and the last does not take the lock of an active re-activation of the same process
      unless a lock of the grain was exposed before. */
  lemma LockLostOnlyByHolderOrLease(s: State, x: Action, g: Grain)
    requires Reachable(s) && Enabled(s, x) && g in s.locks && (g !in Next(s, x).locks || Next(s, x).locks[g] != s.locks[g])
    ensures || x == Expire(s.locks[g].lease)
            || (x.Unregister? && LostToStop(s, x.a, g))
            || (x.Late? && x.txn.LateRemove? && LostToLate(s, x.txn.a, g))
  {
    if !x.Expire? {
      TakenBy(s, x, g);
      if x.Unregister? { DeletesOnlyItsOwnLock(s, x.a); } else { LateTakes(s, x.txn.a); }
    }
  }

  /** On one node an earlier instance of a grain is gone from the registry, and takes no more steps,
      before a later one can be active. */
  lemma EarlierInstanceIsGone(s: State, a: Act, b: Act)
    requires Reachable(s) && a in s.acts && b in s.acts && a != b
    requires s.acts[a].node == s.acts[b].node && s.acts[a].grain == s.acts[b].grain
    ensures s.acts[a].phase.Removed? || s.acts[b].phase.Removed?
  {
    ReachableInv(s);
    OneRegistered(s, a, b);
  }

  /** An activation becomes active only in the step in which its own transaction created the lock. */
  lemma RunsOnlyWithTheLock(s: State, x: Action, a: Act)
    requires Reachable(s) && Enabled(s, x) && a in s.acts && a in Next(s, x).acts
    requires !Active(s.acts[a].phase) && Active(Next(s, x).acts[a].phase)
    ensures s.acts[a].grain !in s.locks
    ensures var l := Next(s, x).locks; s.acts[a].grain in l && l[s.acts[a].grain].holder == a
  {
    ReachableInv(s);
    BecomesActive(s, x, a);
  }

  // ------------------------------------------------------------------ locks left behind

  /** A lock whose holder is not active: nobody will give it back on purpose. */
  predicate Stranded(s: State, g: Grain) {
    g in s.locks && s.locks[g].holder in s.acts && !Active(s.acts[s.locks[g].holder].phase)
  }

  ghost predicate NoneStranded(s: State) { forall g :: !Stranded(s, g) }

  /** The steps that lose track of a lock: a creation that commits without being answered, on time or
      late, and a deletion of the own lock that does not commit now. */
  predicate Loses(s: State, x: Action)
    requires Enabled(s, x)
  {
    match x
    case TryRegister(a, answer) => answer == FailedAfter && CanCreate(s, a)
    case Unregister(a, answer) =>
      (answer == FailedBefore || answer == StillUnderWay) && CanDelete(s, a) && s.locks[s.acts[a].grain].holder == a
    case Late(LateSet(a, _)) => CanCreate(s, a) && !Active(s.acts[a].phase)
    case _ => false
  }

  lemma KeepsNoneStranded(s: State, x: Action, g: Grain)
    requires Base(s) && NoneStranded(s) && Enabled(s, x) && !Loses(s, x)
    ensures !Stranded(Next(s, x), g)
  {
    if g in Next(s, x).locks {
      if x.Expire? {
        assert g in s.locks && !Stranded(s, g);
        assert LockOk(s, g);
      } else {
        LocksMoved(s, x);
        if MoveOf(s, x).Made? && g == s.acts[MoveOf(s, x).a].grain {
          MadeIsActive(s, x);
        } else {
          assert LockOk(s, g) && !Stranded(s, g);
          HolderStaysActive(s, x, g);
        }
      }
    }
  }

  lemma MadeIsActive(s: State, x: Action)
    requires Base(s) && Enabled(s, x) && !x.Expire? && MoveOf(s, x).Made? && !Loses(s, x)
    ensures MoveOf(s, x).a in Next(s, x).acts && Active(Next(s, x).acts[MoveOf(s, x).a].phase)
  {
  }

  lemma HolderStaysActive(s: State, x: Action, g: Grain)
    requires Base(s) && Enabled(s, x) && !Loses(s, x) && g in s.locks && g in Next(s, x).locks && !x.Expire?
    requires LockOk(s, g) && Active(s.acts[s.locks[g].holder].phase)
    ensures s.locks[g].holder in Next(s, x).acts && Active(Next(s, x).acts[s.locks[g].holder].phase)
  {
    var h := s.locks[g].holder;
    KnownStays(s, x, h);
    if HasMover(x) {
      ActsMoved(s, x);
      if Mover(x) == h { MoverStaysActive(s, x, g); }
    } else if !x.Activate? {
      ActsSame(s, x);
    }
  }

  lemma MoverStaysActive(s: State, x: Action, g: Grain)
    requires Enabled(s, x) && HasMover(x) && !Loses(s, x) && g in s.locks && g in Next(s, x).locks
    requires LockOk(s, g) && Mover(x) == s.locks[g].holder && Active(s.acts[Mover(x)].phase)
    ensures Active(Next(s, x).acts[Mover(x)].phase)
  {
  }

  /** Every such step leaves a lock whose holder is not active. */
  lemma LosingStrands(s: State, x: Action)
    requires Base(s) && Enabled(s, x) && Loses(s, x)
    ensures exists g :: Stranded(Next(s, x), g)
  {
    var a := if x.Late? then x.txn.a else x.a;
    assert Stranded(Next(s, x), s.acts[a].grain);
  }

  /** Such a lock stays, with a holder that is not active, until its lease ends or a deletion by its address
      removes it: that of another activation after a late creation, or one that was still under way. */
  lemma StrandedStays(s: State, x: Action, g: Grain)
    requires Reachable(s) && Enabled(s, x) && Stranded(s, g)
    ensures || (Stranded(Next(s, x), g) && Next(s, x).locks[g] == s.locks[g])
            || x == Expire(s.locks[g].lease)
            || (x.Unregister? && s.lateSets > 0 && (x.a !in s.robbed ==> !LeaseLives(s, x.a)))
            || (x.Late? && x.txn.LateRemove? && Known(s, x.txn.a) && AddrOf(s, x.txn.a) == s.locks[g].addr)
  {
    ReachableInv(s);
    var h := s.locks[g].holder;
    assert LockOk(s, g);
    if g !in Next(s, x).locks || Next(s, x).locks[g] != s.locks[g] {
      LockLostOnlyByHolderOrLease(s, x, g);
    } else {
      KnownStays(s, x, h);
      StaysInactive(s, x, h);
    }
  }

  lemma StaysInactive(s: State, x: Action, h: Act)
    requires Base(s) && Enabled(s, x) && Known(s, h) && h in Next(s, x).acts && !Active(s.acts[h].phase) && s.acts[h].grain in s.locks
    ensures !Active(Next(s, x).acts[h].phase)
  {
    if Active(Next(s, x).acts[h].phase) { BecomesActive(s, x, h); assert false; }
  }

  ghost predicate SomeLoss(run: seq<State>, acts: seq<Action>, n: nat)
    requires IsRun(run, acts) && n <= |acts|
  {
    exists i :: 0 <= i < n && Loses(run[i], acts[i])
  }

  lemma {:induction false} NoLossNoneStranded(run: seq<State>, acts: seq<Action>, n: nat)
    requires IsRun(run, acts) && n <= |acts| && forall i :: 0 <= i < n ==> !Loses(run[i], acts[i])
    ensures NoneStranded(run[n])
  {
    if n > 0 {
      NoLossNoneStranded(run, acts, n - 1);
      RunInv(run, acts, n - 1);
      forall g ensures !Stranded(run[n], g) { KeepsNoneStranded(run[n - 1], acts[n - 1], g); }
    }
  }

  /** Both ways to lose a lock are reachable: a creation that committed with its answer lost, after
      which the activation gives up, and a deletion that failed. */
  lemma LossIsReachable(addr: nat, g: Grain) returns (s: State, t: State)
    ensures Reachable(s) && Stranded(s, g) && 0 in s.acts && s.acts[0].phase == Abandoned
    ensures Reachable(t) && Stranded(t, g) && 0 in t.acts && t.acts[0].phase == Unregistered
  {
    TryingReachable(addr, g);
    var s0 := Alone(addr, g, map[], Trying(0), {});
    var s1, s2 := Alone(addr, g, Held(addr, g), Trying(1), {}), Alone(addr, g, Held(addr, g), Trying(2), {});
    s := Alone(addr, g, Held(addr, g), Abandoned, {});
    NextReaches(s0, TryRegister(0, FailedAfter));
    assert Next(s0, TryRegister(0, FailedAfter)) == s1;
    NextReaches(s1, TryRegister(0, Answered));
    assert Next(s1, TryRegister(0, Answered)) == s2;
    NextReaches(s2, TryRegister(0, Answered));
    assert Next(s2, TryRegister(0, Answered)) == s;
    StoppingReachable(addr, g);
    var s4 := Alone(addr, g, Held(addr, g), Unregistering, {});
    t := Alone(addr, g, Held(addr, g), Unregistered, {});
    NextReaches(s4, Unregister(0, FailedBefore));
    assert Next(s4, Unregister(0, FailedBefore)) == t;
  }

  lemma LossStrands(run: seq<State>, acts: seq<Action>, i: nat)
    requires IsRun(run, acts) && i < |acts| && Loses(run[i], acts[i])
    ensures !NoneStranded(run[i + 1])
  {
    RunInv(run, acts, i);
    LosingStrands(run[i], acts[i]);
  }

  /** Exactly when: in every run no lock is ever left with a holder that is not active if and only if no
      step lost one. */
  lemma StrandedExactly(run: seq<State>, acts: seq<Action>)
    requires IsRun(run, acts)
    ensures (forall i :: 0 <= i <= |acts| ==> NoneStranded(run[i])) <==> !SomeLoss(run, acts, |acts|)
  {
    if !SomeLoss(run, acts, |acts|) {
      forall i | 0 <= i <= |acts| ensures NoneStranded(run[i]) { NoLossNoneStranded(run, acts, i); }
    } else {
      var i :| 0 <= i < |acts| && Loses(run[i], acts[i]);
      LossStrands(run, acts, i);
    }
  }
}
