/** An Ask over whole runs: whatever ends the wait, the handler goes on only after its entry is gone
    and with the permit. */
module ActorAsk {
  import opened Options
  import opened ActorModel
  import opened ActorInvariant
  import opened ActorPreservation
  import opened ActorSafety
  import opened ActorTheorems

  /** A request id in use was handed out. */
  ghost predicate IdsIssued(s: State) {
    forall t :: t in s.threads && AskOf(s.threads[t].pc).Some? ==> AskOf(s.threads[t].pc).value < s.g.asks.nextReq
  }

  /** The request that a goroutine has open after a step is the one it had, or the next id. */
  predicate SameOrNew(g: Globals, th: Thread, e: Effect) {
    && e.g.asks.nextReq >= g.asks.nextReq
    && (e.next.Some? && AskOf(e.next.value.pc).Some? ==>
          AskOf(e.next.value.pc) == AskOf(th.pc) || AskOf(e.next.value.pc).value == g.asks.nextReq < e.g.asks.nextReq)
  }

  lemma EdgeOpensNone(g: Globals, t: Tid, th: Thread, c: Choice)
    requires th.pc.Edge? || th.pc.Drain?
    ensures SameOrNew(g, th, LocalStep(g, t, th, c))
  {
    match th.pc {
      case Edge(pc) =>
      case Drain(pc) =>
    }
  }

  lemma StopOpensNone(g: Globals, t: Tid, th: Thread, c: Choice)
    requires th.pc.Stop?
    ensures SameOrNew(g, th, LocalStep(g, t, th, c))
  {
  }

  lemma CallOpensNone(g: Globals, t: Tid, th: Thread, c: Choice)
    requires th.pc.Call?
    ensures SameOrNew(g, th, LocalStep(g, t, th, c))
  {
  }

  lemma IdsLocal(g: Globals, t: Tid, th: Thread, c: Choice)
    ensures SameOrNew(g, th, LocalStep(g, t, th, c))
  {
    match th.pc {
      case Gate(pc) =>
      case Ask(pc) =>
      case Stop(_, _) => StopOpensNone(g, t, th, c);
      case Call(_) => CallOpensNone(g, t, th, c);
      case _ => EdgeOpensNone(g, t, th, c);
    }
  }

  lemma IdsStep(s: State, t: Tid, c: Choice)
    requires Inv(s) && IdsIssued(s) && Enabled(s, Step(t, c))
    ensures var s' := Next(s, Step(t, c)); IdsIssued(s') && s'.g.asks.nextReq >= s.g.asks.nextReq
  {
    FreshIsUnused(s);
    IdsLocal(s.g, t, s.threads[t], c);
  }

  lemma IdsNext(s: State, a: Action)
    requires Inv(s) && IdsIssued(s) && Enabled(s, a)
    ensures IdsIssued(Next(s, a)) && Next(s, a).g.asks.nextReq >= s.g.asks.nextReq
  {
    FreshIsUnused(s);
    if a.Step? { IdsStep(s, a.t, a.c); }
  }

  lemma {:induction false} RunIds(run: seq<State>, acts: seq<Action>, n: nat)
    requires IsRun(run, acts) && n <= |acts|
    ensures IdsIssued(run[n])
  {
    if n > 0 {
      RunIds(run, acts, n - 1);
      RunInv(run, acts, n - 1);
      IdsNext(run[n - 1], acts[n - 1]);
    }
  }

  predicate Waits(s: State, t: Tid, r: nat) {
    t in s.threads && (s.threads[t].pc == Ask(AWait(r)) || s.threads[t].pc == Ask(ACancel(r)))
  }

  /** Request r of goroutine t is still to be cancelled, or is gone from the table for good. */
  predicate WaitsOrGone(s: State, t: Tid, r: nat) {
    r < s.g.asks.nextReq && (Waits(s, t, r) || r !in s.g.asks.pending)
  }

  lemma WaitLocal(g: Globals, t: Tid, th: Thread, c: Choice, r: nat)
    ensures var e := LocalStep(g, t, th, c);
            && (th.pc == Ask(AWait(r)) ==> e.next.Some? && e.next.value.pc == Ask(ACancel(r)))
            && (th.pc == Ask(ACancel(r)) ==> r !in e.g.asks.pending)
            && (r < g.asks.nextReq && r !in g.asks.pending ==> r !in e.g.asks.pending)
            && e.g.asks.nextReq >= g.asks.nextReq
  {
    match th.pc {
      case Edge(pc) =>
      case Drain(pc) =>
      case Gate(pc) =>
      case Stop(_, pc) =>
      case Call(pc) =>
      case Ask(pc) =>
    }
  }

  lemma WaitNext(s: State, a: Action, t: Tid, r: nat)
    requires Inv(s) && Enabled(s, a) && WaitsOrGone(s, t, r)
    ensures WaitsOrGone(Next(s, a), t, r)
  {
    FreshIsUnused(s);
    if a.Step? { WaitLocal(s.g, a.t, s.threads[a.t], a.c, r); }
  }

  lemma {:induction false} WaitRun(run: seq<State>, acts: seq<Action>, i: nat, j: nat, t: Tid, r: nat)
    requires IsRun(run, acts) && i <= j <= |acts| && Waits(run[i], t, r)
    ensures WaitsOrGone(run[j], t, r)
    decreases j
  {
    if i == j {
      RunIds(run, acts, i);
    } else {
      WaitRun(run, acts, i, j - 1, t, r);
      RunInv(run, acts, j - 1);
      WaitNext(run[j - 1], acts[j - 1], t, r);
    }
  }

  /** Over every run: a goroutine that waited for request r, however its wait ended (reply, timeout,
      panic, Goexit), is back in user code only with r gone from the table, as the one permit holder
      and with its own record and id published. */
  lemma AskReturnsInOrder(run: seq<State>, acts: seq<Action>, i: nat, j: nat, t: Tid, r: nat)
    requires IsRun(run, acts) && i <= j <= |acts| && Waits(run[i], t, r)
    requires t in run[j].threads && run[j].threads[t].pc == Ask(IReceive)
    ensures r !in run[j].g.asks.pending
    ensures PermitHolders(run[j]) == {t} && run[j].g.c.ownerId == t && run[j].g.c.executing == t
  {
    WaitRun(run, acts, i, j, t, r);
    RunInv(run, acts, j);
    BackInOrder(run[j], t, r);
  }

  lemma BackInOrder(s: State, t: Tid, r: nat)
    requires Inv(s) && WaitsOrGone(s, t, r) && t in s.threads && s.threads[t].pc == Ask(IReceive)
    ensures r !in s.g.asks.pending && PermitHolders(s) == {t} && s.g.c.ownerId == t && s.g.c.executing == t
  {
    ShownIsHolder(s, t);
  }

  // ------------------------------------------------------------------ admission

  /** Program points at which code of the application runs on an actor's goroutine: Receive,
      Started, PreStop, the registration hooks and the dead-letter handler of the stop. */
  predicate UserCode(pc: PC) {
    match pc
    case Ask(IReceive) => true
    case Call(GStarted) => true
    case Call(GRegister) => true
    case Stop(_, LPreStop) => true
    case Stop(_, LUnreg) => true
    case Stop(_, LTell(_)) => true
    case Stop(_, LDead(_)) => true
    case _ => false
  }

  /** From the application's code on an actor's goroutine Ask is admitted exactly inside Receive;
      everywhere else in it the answer is NotRunning. A goroutine that is not the actor's, or has
      suspended, gets InvalidContext. */
  lemma AskAdmittedExactlyInReceive(s: State, goid: Tid)
    requires Reachable(s)
    ensures goid in s.threads && UserCode(s.threads[goid].pc) ==>
              AskAdmission(s, goid) == if s.threads[goid].pc == Ask(IReceive) then Admitted else NotRunning
    ensures goid !in s.threads || Table(s.threads[goid].pc).gate == Outside ==> AskAdmission(s, goid) == InvalidContext
  {
    ReachableInv(s);
    if goid in s.threads {
      assert Known(s.g, goid, s.threads[goid]);
    } else if s.g.c.ownerId != 0 {
      PublishedIdentity(s);
    }
  }
}
