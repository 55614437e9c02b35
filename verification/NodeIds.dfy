/** Node ids over whole runs: leases, create-only claims and expiry. */
module NodeIds {
  import Snowflake

  type Lease = nat // one per started provider

  /** Who holds each id's member key, which leases live, which id each provider was granted, and the
      claims whose call returned an error while the transaction was still under way. */
  datatype State = State(keys: map<nat, Lease>, leases: set<Lease>, granted: map<Lease, nat>, late: set<(Lease, nat)>)

  /** What the client of a transaction sees: the answer, an error before it committed, an error after
      it committed, or an error while it may still commit. */
  datatype Answer = Answered | FailedBefore | FailedAfter | StillUnderWay

  datatype Action = Grant(l: Lease) | Claim(l: Lease, id: nat, answer: Answer) | Late(l: Lease, id: nat) | Expire(l: Lease)

  predicate Enabled(s: State, a: Action) {
    match a
    case Grant(l) => l !in s.leases && l !in s.granted && forall id :: id in s.keys ==> s.keys[id] != l
    case Claim(l, id, _) => l !in s.granted && 1 <= id <= Snowflake.NODE_MAX
    case Late(l, id) => (l, id) in s.late
    case Expire(l) => l in s.leases
  }

  function Next(s: State, a: Action): State
    requires Enabled(s, a)
  {
    match a
    case Grant(l) => s.(leases := s.leases + {l})
    case Claim(l, id, answer) =>
      if answer == StillUnderWay then s.(late := s.late + {(l, id)})
      else if id in s.keys || l !in s.leases || answer == FailedBefore then s
      else
        var s1 := s.(keys := s.keys[id := l]);
        if answer == Answered then s1.(granted := s1.granted[l := id]) else s1
    case Late(l, id) =>
      if id in s.keys || l !in s.leases then s.(late := s.late - {(l, id)})
      else s.(keys := s.keys[id := l], late := s.late - {(l, id)})
    case Expire(l) => s.(leases := s.leases - {l}, keys := map id | id in s.keys && s.keys[id] != l :: s.keys[id])
  }

  predicate Inv(s: State) {
    && (forall id :: id in s.keys ==> s.keys[id] in s.leases)
    && (forall l :: l in s.granted ==> 1 <= s.granted[l] <= Snowflake.NODE_MAX)
    && (forall l :: l in s.granted && l in s.leases ==> s.granted[l] in s.keys && s.keys[s.granted[l]] == l)
  }

  lemma StepKeepsInv(s: State, a: Action)
    requires Inv(s) && Enabled(s, a)
    ensures Inv(Next(s, a))
  {
  }

  /** A claim is granted exactly when it is answered, its lease lives and nobody holds the id. */
  lemma ClaimIsGrantedExactly(s: State, l: Lease, id: nat, answer: Answer)
    requires Enabled(s, Claim(l, id, answer))
    ensures var s' := Next(s, Claim(l, id, answer));
            (l in s'.granted && s'.granted[l] == id) <==> answer == Answered && l in s.leases && id !in s.keys
  {
  }

  /** An id comes back with its holder's lease: after that lease has expired another provider is granted it. */
  lemma IdComesBack(s: State, l: Lease, m: Lease, id: nat)
    requires Inv(s) && id in s.keys && s.keys[id] == l && m in s.leases && m != l && Enabled(s, Claim(m, id, Answered))
    ensures Enabled(Next(s, Expire(l)), Claim(m, id, Answered))
    ensures var s2 := Next(Next(s, Expire(l)), Claim(m, id, Answered));
            m in s2.granted && s2.granted[m] == id && id in s2.keys && s2.keys[id] == m
  {
  }

  predicate IsRun(run: seq<State>, actions: seq<Action>) {
    && |run| == |actions| + 1 && run[0] == State(map[], {}, map[], {})
    && forall i :: 0 <= i < |actions| ==> Enabled(run[i], actions[i]) && run[i + 1] == Next(run[i], actions[i])
  }

  lemma {:induction false} RunInv(run: seq<State>, actions: seq<Action>, i: nat)
    requires IsRun(run, actions) && i < |run|
    ensures Inv(run[i])
  {
    if i > 0 {
      RunInv(run, actions, i - 1);
      StepKeepsInv(run[i - 1], actions[i - 1]);
    }
  }

  /** No two live leases ever hold the same node id, so no two nodes with live leases generate the
      same id. */
  lemma NodeIdsAreUnique(run: seq<State>, actions: seq<Action>, i: nat, a: Lease, b: Lease)
    requires IsRun(run, actions) && i < |run|
    requires a in run[i].granted && b in run[i].granted && a in run[i].leases && b in run[i].leases && a != b
    ensures run[i].granted[a] != run[i].granted[b]
    ensures forall t1: nat, s1: nat, t2: nat, s2: nat :: s1 <= Snowflake.STEP_MAX && s2 <= Snowflake.STEP_MAX ==>
              Snowflake.Compose(t1, run[i].granted[a], s1) != Snowflake.Compose(t2, run[i].granted[b], s2)
  {
    RunInv(run, actions, i);
    var n1, n2 := run[i].granted[a], run[i].granted[b];
    forall t1: nat, s1: nat, t2: nat, s2: nat | s1 <= Snowflake.STEP_MAX && s2 <= Snowflake.STEP_MAX
      ensures Snowflake.Compose(t1, n1, s1) != Snowflake.Compose(t2, n2, s2)
    {
      Snowflake.NodesNeverCollide(t1, n1, s1, t2, n2, s2);
    }
  }
}
