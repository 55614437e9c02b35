/**
  Shutdown of one node: the draining flag, on-demand activation that checks it, the two polling
  phases of stopActors and the revocation of the lease.

  Only activations of cluster grains are modelled: they are what the lease's locks protect. An
  activation is in the registry from before it registers with the cluster until after it has
  unregistered. Checking the flag and entering the registry are separate steps; a poll reads the
  registry shard by shard.
*/
module Shutdown {

  type Tid = nat
  type Id = nat

  /** The registry's shards, the shard of an id, and whether its kind asked to be poisoned first. */
  datatype Config = Config(shards: nat, shardOf: Id -> nat, first: Id -> bool)

  /** ensureClusterKindActorExist: the check of the flag, then the spawn. */
  datatype Creator = Check(id: Id) | Spawn(id: Id)

  /** stopActors: set the flag, poll the first and then the second phase, decide. `ok` is the first
      phase's result. */
  datatype Closer = Running | Poll(second: bool, k: nat, left: set<Id>, ok: bool) | Done(drained: bool) | Left(revoked: bool)

  /** `late` is history: some creation was between its check and its insertion when the flag was set. */
  datatype State = State(
    cfg: Config, draining: bool, registry: set<Id>, creators: map<Tid, Creator>, closer: Closer, nextTid: Tid, late: bool)

  datatype Action =
    | NewCreator(id: Id)
    | Create(t: Tid)
    | Leave(id: Id)     // an activation has stopped and leaves the registry
    | Close             // the closer's next step
    | GiveUp            // a poll finds the deadline passed

  predicate InFlight(s: State) { exists t :: t in s.creators && s.creators[t].Spawn? }

  predicate Enabled(s: State, a: Action) {
    match a
    case NewCreator(_) => true
    case Create(t) => t in s.creators
    case Leave(id) => id in s.registry
    case Close => !s.closer.Left?
    case GiveUp => s.closer.Poll? && s.closer.k >= s.cfg.shards && s.closer.left != {}
  }

  function CreateStep(s: State, t: Tid): State
    requires t in s.creators
  {
    match s.creators[t]
    case Check(id) =>
      if s.draining || id in s.registry then s.(creators := s.creators - {t}) else s.(creators := s.creators[t := Spawn(id)])
    case Spawn(id) => s.(registry := s.registry + {id}, creators := s.creators - {t})
  }

  function PhaseEnds(s: State, second: bool, ok: bool, drained: bool): State {
    s.(closer := if second then Done(ok && drained) else Poll(true, 0, {}, drained))
  }

  ghost function CloseStep(s: State): State {
    match s.closer
    case Running => s.(draining := true, late := InFlight(s), closer := Poll(false, 0, {}, false))
    case Poll(second, k, left, ok) =>
      if k < s.cfg.shards then
        var here := set id | id in s.registry && s.cfg.shardOf(id) == k && (second || s.cfg.first(id));
        s.(closer := Poll(second, k + 1, left + here, ok))
      else if left == {} then PhaseEnds(s, second, ok, true)
      else s.(closer := Poll(second, 0, {}, ok))
    case Done(drained) => s.(closer := Left(drained))
    case Left(_) => s
  }

  ghost function Next(s: State, a: Action): State
    requires Enabled(s, a)
  {
    match a
    case NewCreator(id) => s.(creators := s.creators[s.nextTid := Check(id)], nextTid := s.nextTid + 1)
    case Create(t) => CreateStep(s, t)
    case Leave(id) => s.(registry := s.registry - {id})
    case Close => CloseStep(s)
    case GiveUp => PhaseEnds(s, s.closer.second, s.closer.ok, false)
  }

  ghost predicate IsInitial(s: State) {
    s == State(s.cfg, false, s.registry, map[], Running, 0, false)
  }

  /** A hash selects a shard of the table. */
  ghost predicate HashOk(s: State) { forall id :: s.cfg.shardOf(id) < s.cfg.shards }

  ghost predicate IsRun(run: seq<State>, acts: seq<Action>) {
    && |run| == |acts| + 1 && IsInitial(run[0]) && HashOk(run[0])
    && forall i :: 0 <= i < |acts| ==> Enabled(run[i], acts[i]) && run[i + 1] == Next(run[i], acts[i])
  }

  ghost predicate Reachable(s: State) { exists run, acts :: IsRun(run, acts) && run[|acts|] == s }

  // ------------------------------------------------------------------ invariant

  /** No activation that asked to be poisoned first is left. */
  ghost predicate NoFirst(s: State) { forall id :: id in s.registry ==> !s.cfg.first(id) }

  /** After the flag was set with no creation in flight: nobody is past the check, and what the second
      poll has passed over is in its list. */
  ghost predicate Inv(s: State) {
    && HashOk(s)
    && (s.closer.Running? <==> !s.draining)
    && (s.closer.Poll? && !s.closer.second ==> forall id :: id in s.closer.left ==> s.cfg.first(id))
    && (s.draining && !s.late ==>
          && !InFlight(s)
          && (s.closer.Poll? && s.closer.second ==>
                forall id :: id in s.registry && s.cfg.shardOf(id) < s.closer.k ==> id in s.closer.left)
          && (s.closer.Poll? && !s.closer.second ==>
                forall id :: id in s.registry && s.cfg.first(id) && s.cfg.shardOf(id) < s.closer.k ==> id in s.closer.left)
          && (s.closer.Poll? && s.closer.second && s.closer.ok ==> NoFirst(s))
          && ((s.closer.Done? && s.closer.drained) || (s.closer.Left? && s.closer.revoked) ==> s.registry == {}))
  }

  lemma CreateKeeps(s: State, t: Tid)
    requires Inv(s) && t in s.creators
    ensures Inv(CreateStep(s, t))
  {
    var s' := CreateStep(s, t);
    if s.draining && !s.late {
      assert s.creators[t].Check?;
      assert forall u :: u in s'.creators && s'.creators[u].Spawn? ==> u in s.creators && s.creators[u].Spawn?;
    }
  }

  lemma CloseKeeps(s: State)
    requires Inv(s)
    ensures Inv(CloseStep(s))
  {
    var s' := CloseStep(s);
    if s.closer.Running? {
      assert InFlight(s') == InFlight(s);
    } else if s.draining && !s.late {
      assert forall u :: u in s'.creators && s'.creators[u].Spawn? ==> u in s.creators && s.creators[u].Spawn?;
      if s.closer.Poll? && s.closer.second && s.closer.k >= s.cfg.shards && s.closer.left == {} {
        forall id ensures id !in s.registry { assert s.cfg.shardOf(id) < s.cfg.shards; }
      }
      if s.closer.Poll? && !s.closer.second && s.closer.k >= s.cfg.shards && s.closer.left == {} {
        forall id | id in s.registry ensures !s.cfg.first(id) { assert s.cfg.shardOf(id) < s.cfg.shards; }
      }
    }
  }

  lemma StepKeepsInv(s: State, a: Action)
    requires Inv(s) && Enabled(s, a)
    ensures Inv(Next(s, a))
  {
    var s' := Next(s, a);
    match a
    case Create(t) => CreateKeeps(s, t);
    case Close => CloseKeeps(s);
    case _ => assert forall u :: u in s'.creators && s'.creators[u].Spawn? ==> u in s.creators && s.creators[u].Spawn?;
  }

  lemma {:induction false} RunInv(run: seq<State>, acts: seq<Action>, n: nat)
    requires IsRun(run, acts) && n <= |acts|
    ensures Inv(run[n])
  {
    if n > 0 {
      RunInv(run, acts, n - 1);
      StepKeepsInv(run[n - 1], acts[n - 1]);
    }
  }

  // ------------------------------------------------------------------ what it means

  /** Drained implies safe: when no creation was in flight as the flag was set, the node gives its
      lease up only with no activation left, and none appears afterwards. */
  lemma DrainedIsSafe(run: seq<State>, acts: seq<Action>, i: nat, j: nat)
    requires IsRun(run, acts) && i <= j <= |acts|
    requires run[i].closer == Left(true) && !run[i].late
    ensures run[j].registry == {} && run[j].closer == Left(true)
  {
    LeftStays(run, acts, i, j);
    RunInv(run, acts, j);
  }

  lemma {:induction false} LeftStays(run: seq<State>, acts: seq<Action>, i: nat, j: nat)
    requires IsRun(run, acts) && i <= j <= |acts| && run[i].closer.Left?
    ensures run[j].closer == run[i].closer && run[j].late == run[i].late && run[j].draining
    decreases j
  {
    RunInv(run, acts, i);
    if i < j { LeftStays(run, acts, i, j - 1); }
  }

  /** The first phase waits for nobody but those that asked to be poisoned first. */
  lemma FirstPhaseWaitsForFirst(run: seq<State>, acts: seq<Action>, n: nat, id: Id)
    requires IsRun(run, acts) && n <= |acts| && run[n].closer.Poll? && !run[n].closer.second && id in run[n].closer.left
    ensures run[n].cfg.first(id)
  {
    RunInv(run, acts, n);
  }

  /** The phases are in order: when the first phase has drained, no activation that asked to be poisoned
      first is left while the second polls. */
  lemma FirstPhaseGoesFirst(run: seq<State>, acts: seq<Action>, n: nat)
    requires IsRun(run, acts) && n <= |acts| && run[n].closer.Poll? && run[n].closer.second && run[n].closer.ok && !run[n].late
    ensures NoFirst(run[n])
  {
    RunInv(run, acts, n);
  }

  /** What the closer remembers of a poll that gave up. */
  predicate Remembers(c: Closer, gaveUp: bool) {
    match c
    case Running => !gaveUp
    case Poll(second, _, _, ok) => if second then ok <==> !gaveUp else !gaveUp
    case Done(drained) => drained <==> !gaveUp
    case Left(revoked) => revoked <==> !gaveUp
  }

  lemma {:induction false} RunRemembers(run: seq<State>, acts: seq<Action>, n: nat)
    requires IsRun(run, acts) && n <= |acts|
    ensures Remembers(run[n].closer, GiveUp in acts[..n])
  {
    if n > 0 {
      RunRemembers(run, acts, n - 1);
      RemembersStep(run[n - 1], acts[n - 1], GiveUp in acts[..n - 1]);
      assert acts[..n] == acts[..n - 1] + [acts[n - 1]];
    }
  }

  lemma RemembersStep(s: State, a: Action, gaveUp: bool)
    requires Enabled(s, a) && Remembers(s.closer, gaveUp)
    ensures Remembers(Next(s, a).closer, gaveUp || a == GiveUp)
  {
  }

  /** Exactly when: the node leaves with its lease revoked if and only if no poll gave up, in either phase. */
  lemma RevokedExactly(run: seq<State>, acts: seq<Action>, n: nat)
    requires IsRun(run, acts) && n <= |acts| && run[n].closer.Left?
    ensures run[n].closer.revoked <==> GiveUp !in acts[..n]
  {
    RunRemembers(run, acts, n);
  }

  // ------------------------------------------------------------------ the condition is exact

  /** `end` is reached from s by the actions. */
  ghost predicate Leads(s: State, acts: seq<Action>, end: State)
    decreases |acts|
  {
    if acts == [] then end == s else Enabled(s, acts[0]) && Leads(Next(s, acts[0]), acts[1..], end)
  }

  lemma {:induction false} LeadsConcat(s: State, xs: seq<Action>, mid: State, ys: seq<Action>, end: State)
    requires Leads(s, xs, mid) && Leads(mid, ys, end)
    ensures Leads(s, xs + ys, end)
    decreases |xs|
  {
    if xs == [] {
      assert xs + ys == ys;
    } else {
      LeadsConcat(Next(s, xs[0]), xs[1..], mid, ys, end);
      assert (xs + ys)[1..] == xs[1..] + ys;
    }
  }

  lemma LeadsOne(s: State, a: Action)
    requires Enabled(s, a)
    ensures Leads(s, [a], Next(s, a))
  {
    assert Leads(Next(s, a), [], Next(s, a));
  }

  lemma {:induction false} LeadsKeepsInv(s: State, acts: seq<Action>, end: State)
    requires Inv(s) && s.draining && Leads(s, acts, end)
    ensures Inv(end) && end.draining && end.late == s.late
    decreases |acts|
  {
    if acts != [] {
      StepKeepsInv(s, acts[0]);
      LeadsKeepsInv(Next(s, acts[0]), acts[1..], end);
    }
  }

  /** All activations may stop and leave. */
  lemma {:induction false} AllLeave(s: State) returns (acts: seq<Action>)
    ensures Leads(s, acts, s.(registry := {}))
    decreases |s.registry|
  {
    if s.registry == {} {
      acts := [];
    } else {
      var id :| id in s.registry;
      var s1 := s.(registry := s.registry - {id});
      var rest := AllLeave(s1);
      LeadsOne(s, Leave(id));
      LeadsConcat(s, [Leave(id)], s1, rest, s.(registry := {}));
      acts := [Leave(id)] + rest;
    }
  }

  /** A poll of an empty registry ends its phase, whatever the number of shards. */
  lemma {:induction false} PollsNothing(s: State) returns (acts: seq<Action>)
    requires s.registry == {} && s.closer.Poll? && s.closer.left == {}
    ensures Leads(s, acts, PhaseEnds(s, s.closer.second, s.closer.ok, true))
    decreases if s.closer.k < s.cfg.shards then s.cfg.shards - s.closer.k else 0
  {
    LeadsOne(s, Close);
    if s.closer.k >= s.cfg.shards {
      acts := [Close];
    } else {
      var s1 := Next(s, Close);
      assert s1.closer.left == {};
      var rest := PollsNothing(s1);
      LeadsConcat(s, [Close], s1, rest, PhaseEnds(s, s.closer.second, s.closer.ok, true));
      acts := [Close] + rest;
    }
  }

  /** With a creation in flight as the flag is set, everything may drain, the lease be given up, and the
      activation appear afterwards. */
  lemma InFlightSlipsThrough(s: State, t: Tid) returns (acts: seq<Action>, end: State)
    requires s.closer.Running? && t in s.creators && s.creators[t].Spawn?
    ensures Leads(Next(s, Close), acts, end) && end.closer == Left(true) && s.creators[t].id in end.registry
  {
    var s1 := Next(s, Close);
    var s2 := s1.(registry := {});
    var leave := AllLeave(s1);
    var first := PollsNothing(s2);
    var s3 := s2.(closer := Poll(true, 0, {}, true));
    LeadsConcat(s1, leave, s2, first, s3);
    var second := PollsNothing(s3);
    var s4 := s3.(closer := Done(true));
    LeadsConcat(s1, leave + first, s3, second, s4);
    LeadsOne(s4, Close);
    var s5 := s4.(closer := Left(true));
    LeadsConcat(s1, leave + first + second, s4, [Close], s5);
    LeadsOne(s5, Create(t));
    end := Next(s5, Create(t));
    acts := leave + first + second + [Close] + [Create(t)];
    LeadsConcat(s1, leave + first + second + [Close], s5, [Create(t)], end);
  }

  /** The state once the flag is set from s may lead to a lease given up with an activation registered. */
  ghost predicate CanSlip(s: State)
    requires Enabled(s, Close)
  {
    exists acts, end :: Leads(Next(s, Close), acts, end) && end.closer == Left(true) && end.registry != {}
  }

  /** Exactly when: for every reachable state in which the flag is about to be set, the lease can end up
      revoked with an activation registered if and only if a creation is in flight. */
  lemma SafeExactlyIfNoneInFlight(s: State)
    requires Reachable(s) && s.closer.Running?
    ensures CanSlip(s) <==> InFlight(s)
  {
    var run, acts0 :| IsRun(run, acts0) && run[|acts0|] == s;
    RunInv(run, acts0, |acts0|);
    CloseKeeps(s);
    if InFlight(s) {
      var t :| t in s.creators && s.creators[t].Spawn?;
      var acts, end := InFlightSlipsThrough(s, t);
      assert Leads(Next(s, Close), acts, end);
    }
    if acts, end :| Leads(Next(s, Close), acts, end) && end.closer == Left(true) && end.registry != {} {
      LeadsKeepsInv(Next(s, Close), acts, end);
    }
  }

  lemma NextReaches(s: State, a: Action)
    requires Reachable(s) && Enabled(s, a)
    ensures Reachable(Next(s, a))
  {
    var run, acts :| IsRun(run, acts) && run[|acts|] == s;
    assert IsRun(run + [Next(s, a)], acts + [a]);
  }

  /** And a creation can be in flight then. */
  lemma InFlightIsReachable(cfg: Config, id: Id) returns (s: State)
    requires forall i :: cfg.shardOf(i) < cfg.shards
    ensures Reachable(s) && s.closer.Running? && s.creators == map[0 := Spawn(id)]
  {
    var s0 := State(cfg, false, {}, map[], Running, 0, false);
    var none: seq<Action> := [];
    assert IsRun([s0], none) && [s0][|none|] == s0;
    var s1 := Next(s0, NewCreator(id));
    NextReaches(s0, NewCreator(id));
    s := Next(s1, Create(0));
    NextReaches(s1, Create(0));
  }
}
