/**
  The scheduler neither spins nor sticks. Left alone (no new send, Poison or Ask) its steps
  strictly decrease a well-founded measure, and when none is left the mailbox is empty and a
  requested stop has happened.
*/
module ActorTermination {
  import opened Options
  import opened ActorModel
  import opened ActorInvariant
  import opened ActorPreservation
  import opened ActorSafety

  /** A step that is not a push, a Poison or the start of an Ask. Replies, timeouts and
      resumptions of Asks under way are included. */
  predicate QuietStep(th: Thread, c: Choice) {
    match th.pc
    case Edge(SendPush(_)) => false
    case Edge(PoisonStore) => false
    case Ask(IReceive) => c != AskNow
    case _ => true
  }

  // ------------------------------------------------------------------ measure

  /** What a goroutine's remaining work depends on: messages queued, no call unfinished, a stop that
      could run, and whether the actor is stopped. None of the first three can turn true and the
      last cannot turn false while the number of unfinished messages stays the same. */
  datatype Env = Env(queued: bool, zero: bool, ready: bool, halted: bool)

  function EnvOf(g: Globals): Env {
    Env(|g.mail.queue| > 0, g.c.unfinished == 0, g.c.stopRequested && g.c.unfinished == 0, g.c.status == Halted)
  }

  predicate Below(a: Env, b: Env) {
    (a.queued ==> b.queued) && (a.zero ==> b.zero) && (a.ready ==> b.ready) && (b.halted ==> a.halted)
  }

  /** Parking will find work and start another drainer. */
  predicate Hot(v: Env) { !v.halted && (v.queued || v.ready) }

  const W: nat := 23 // a fresh drainer

  function Pick(b: bool, hi: nat, lo: nat): nat { if b then hi else lo }

  function EdgeWeight(v: Env, pc: EdgePC): nat {
    match pc
    case SendPush(_) => 0
    case PoisonStore => 0
    case RefuseTell(_, _) => 2
    case RefuseEmit(_, _) => 1
    case Schedule => W + 1
    case IAfter => W + 2
    case RUnf => Pick(v.zero, W + 2, 1)
    case RStop => Pick(v.ready, W + 3, 2)
    case RLen => Pick(v.queued || v.ready, W + 4, 3)
    case FCas => Pick(Hot(v), W + 5, 4)
  }

  function DrainWeight(v: Env, pc: DrainPC): nat {
    match pc
    case DLoad => W
    case DPop => 22
    case DStopReq => Pick(v.queued, W + 15, 21)
    case DUnfin => Pick(v.queued, W + 14, 20)
    case SStatus => Pick(v.queued, W + 10, 16)
    case SLen => Pick(v.queued, W + 9, 15)
    case SUnf => 14
  }

  function EntryWeight(v: Env, w: Entry, left: nat): nat {
    match w
    case ToStop => Pick(v.queued, W + 10, 16) + left
    case ToInvoke(_) => 16 + left
    case ToResume => 5 + left
  }

  function DepartureWeight(v: Env, d: Departure, left: nat): nat {
    match d
    case AfterStop => Pick(Hot(v), W + 5, 4) + left
    case AfterInvoke => 1 + left
    case AfterSuspend(_) => 10 + left
  }

  function GateWeight(v: Env, pc: GatePC): nat {
    match pc
    case EnterPermit(w) => EntryWeight(v, w, 3)
    case EnterPtr(w) => EntryWeight(v, w, 2)
    case EnterId(w) => EntryWeight(v, w, 1)
    case LeaveId(d) => DepartureWeight(v, d, 3)
    case LeavePtr(d) => DepartureWeight(v, d, 2)
    case LeavePermit(d) => DepartureWeight(v, d, 1)
  }

  function StopWeight(pc: StopPC): nat {
    match pc
    case LClose(_) => 13
    case LPreStop => 12
    case LUnreg => 11
    case LStore => 10
    case LRemove => 9
    case LTell(_) => 10
    case LDead(_) => 9
    case LDrain => 8
  }

  function CallWeight(pc: CallPC): nat {
    match pc
    case IAdd(_) => 20
    case IBegin(_) => 16
    case GRegister => 15
    case GStarted => 14
    case IPoisonStore => 6
    case IPoisonSched => 5
    case IDec => 1
  }

  function AskWeight(pc: AskPC): nat {
    match pc
    case IReceive => 5
    case AReg => W + 15
    case ASusp(_) => W + 14
    case AWait(_) => 10
    case ACancel(_) => 9
  }

  /** Steps a goroutine, and the drainers it will start, can still take before the next message finishes. */
  function Weight(v: Env, th: Thread): nat {
    match th.pc
    case Edge(pc) => EdgeWeight(v, pc)
    case Drain(pc) => DrainWeight(v, pc)
    case Gate(pc) => GateWeight(v, pc)
    case Stop(_, pc) => StopWeight(pc)
    case Call(pc) => CallWeight(pc)
    case Ask(pc) => AskWeight(pc)
  }

  function WeightIn(v: Env): Thread -> nat { th => Weight(v, th) }

  /** Popped and not yet finished. */
  function OpenWeight(th: Thread): nat {
    match th.pc
    case Edge(_) => 0
    case Drain(_) => 0
    case Gate(x) => if GateForStop(x) then 0 else 1
    case Stop(from, _) => if from == FromIdle then 0 else 1
    case Call(_) => 1
    case Ask(_) => 1
  }

  predicate GateForStop(x: GatePC) {
    match x
    case EnterPermit(w) => w == ToStop
    case EnterPtr(w) => w == ToStop
    case EnterId(w) => w == ToStop
    case LeaveId(d) => d == AfterStop
    case LeavePtr(d) => d == AfterStop
    case LeavePermit(d) => d == AfterStop
  }

  ghost function Unfinished(s: State): nat { |s.g.mail.queue| + Sum(s.threads, s.g.c.nextTid, OpenWeight) }

  ghost function Remaining(s: State): nat { Sum(s.threads, s.g.c.nextTid, WeightIn(EnvOf(s.g))) }

  ghost predicate Smaller(a: State, b: State) {
    Unfinished(a) < Unfinished(b) || (Unfinished(a) == Unfinished(b) && Remaining(a) < Remaining(b))
  }

  // ------------------------------------------------------------------ local decrease

  /** Steps that finish a message or drop one. */
  predicate Finishes(g: Globals, th: Thread) {
    th.pc == Call(IDec) || (th.pc.Stop? && th.pc.l == LDrain && |g.mail.queue| > 0)
  }

  function WeightOf(v: Env, e: Effect): nat {
    (if e.next.Some? then Weight(v, e.next.value) else 0) + (if e.spawn then W else 0)
  }

  function OpenOf(e: Effect): nat { if e.next.Some? then OpenWeight(e.next.value) else 0 }

  predicate Decreases(g: Globals, th: Thread, e: Effect) {
    && |e.g.mail.queue| + OpenOf(e) <= |g.mail.queue| + OpenWeight(th)
    && (Finishes(g, th) ==> |e.g.mail.queue| + OpenOf(e) < |g.mail.queue| + OpenWeight(th))
    && (!Finishes(g, th) ==> WeightOf(EnvOf(g), e) < Weight(EnvOf(g), th) && Below(EnvOf(e.g), EnvOf(g)))
  }

  lemma DecreaseEdge(g: Globals, t: Tid, th: Thread, pc: EdgePC)
    requires th.pc == Edge(pc) && Before(g, t, th, Go) && QuietStep(th, Go)
    ensures Decreases(g, th, StepEdge(g, t, th, pc))
  {
  }

  lemma DecreaseRecheck(g: Globals, t: Tid, th: Thread, pc: DrainPC)
    requires th.pc == Drain(pc) && (pc.SStatus? || pc.SLen? || pc.SUnf?) && Before(g, t, th, Go)
    ensures Decreases(g, th, StepDrain(g, th, pc))
  {
  }

  lemma DecreaseDrain(g: Globals, t: Tid, th: Thread, pc: DrainPC)
    requires th.pc == Drain(pc) && Before(g, t, th, Go)
    ensures Decreases(g, th, StepDrain(g, th, pc))
  {
    if pc.SStatus? || pc.SLen? || pc.SUnf? { DecreaseRecheck(g, t, th, pc); }
  }

  lemma DecreaseGate(g: Globals, t: Tid, th: Thread, pc: GatePC)
    requires th.pc == Gate(pc) && Before(g, t, th, Go)
    ensures Decreases(g, th, StepGate(g, t, th, pc))
  {
  }

  lemma DecreaseFinal(g: Globals, t: Tid, th: Thread, from: StopFrom, pc: StopPC, c: Choice)
    requires th.pc == Stop(from, pc) && (pc.LDrain? || pc.LTell? || pc.LDead?) && Before(g, t, th, c)
    ensures Decreases(g, th, StepStop(g, th, from, pc, c))
  {
  }

  lemma DecreaseStop(g: Globals, t: Tid, th: Thread, from: StopFrom, pc: StopPC, c: Choice)
    requires th.pc == Stop(from, pc) && Before(g, t, th, c)
    ensures Decreases(g, th, StepStop(g, th, from, pc, c))
  {
    if pc.LDrain? || pc.LTell? || pc.LDead? { DecreaseFinal(g, t, th, from, pc, c); }
  }

  lemma DecreaseCall(g: Globals, t: Tid, th: Thread, pc: CallPC, c: Choice)
    requires th.pc == Call(pc) && Before(g, t, th, c)
    ensures Decreases(g, th, StepCall(g, th, pc, c))
  {
  }

  lemma DecreaseAsk(g: Globals, t: Tid, th: Thread, pc: AskPC, c: Choice)
    requires th.pc == Ask(pc) && Before(g, t, th, c) && QuietStep(th, c)
    ensures Decreases(g, th, StepAsk(g, t, th, pc, c))
  {
  }

  lemma DecreaseStep(g: Globals, t: Tid, th: Thread, c: Choice)
    requires Before(g, t, th, c) && QuietStep(th, c)
    ensures Decreases(g, th, LocalStep(g, t, th, c))
  {
    match th.pc {
      case Edge(pc) => DecreaseEdge(g, t, th, pc);
      case Drain(pc) => DecreaseDrain(g, t, th, pc);
      case Gate(pc) => DecreaseGate(g, t, th, pc);
      case Stop(from, pc) => DecreaseStop(g, t, th, from, pc, c);
      case Call(pc) => DecreaseCall(g, t, th, pc, c);
      case Ask(pc) => DecreaseAsk(g, t, th, pc, c);
    }
  }

  lemma WeightMonotone(a: Env, b: Env, th: Thread)
    requires Below(a, b)
    ensures Weight(a, th) <= Weight(b, th)
  {
  }

  lemma {:induction false} SumMonotone(ts: map<Tid, Thread>, n: nat, a: Env, b: Env)
    requires Below(a, b)
    ensures Sum(ts, n, WeightIn(a)) <= Sum(ts, n, WeightIn(b))
  {
    if n > 0 {
      SumMonotone(ts, n - 1, a, b);
      if n - 1 in ts { WeightMonotone(a, b, ts[n - 1]); }
    }
  }

  /** Every quiet step makes the state smaller in a well-founded order. */
  lemma QuietStepDecreases(s: State, t: Tid, c: Choice)
    requires Inv(s) && Enabled(s, Step(t, c)) && QuietStep(s.threads[t], c)
    ensures Smaller(Next(s, Step(t, c)), s)
  {
    var th := s.threads[t];
    var e := LocalStep(s.g, t, th, c);
    var s' := Next(s, Step(t, c));
    BeforeStep(s, t, c);
    CellsStep(s.g, t, th, c);
    FreshIsUnused(s);
    DecreaseStep(s.g, t, th, c);
    SumStep(s, t, e, OpenWeight);
    if !Finishes(s.g, th) {
      SumStep(s, t, e, WeightIn(EnvOf(s.g)));
      SumMonotone(s'.threads, e.g.c.nextTid, EnvOf(e.g), EnvOf(s.g));
    }
  }

  // ------------------------------------------------------------------ no infinite quiet run

  ghost predicate QuietMove(s: State, s': State) {
    exists t, c :: Enabled(s, Step(t, c)) && QuietStep(s.threads[t], c) && s' == Next(s, Step(t, c))
  }

  lemma QuietMoveDecreases(s: State, s': State)
    requires Inv(s) && QuietMove(s, s')
    ensures Inv(s') && Smaller(s', s)
  {
    var t, c :| Enabled(s, Step(t, c)) && QuietStep(s.threads[t], c) && s' == Next(s, Step(t, c));
    QuietStepDecreases(s, t, c);
    StepKeepsInv(s, t, c);
  }

  lemma {:induction false} NoSpinFrom(f: nat -> State, n: nat)
    requires Inv(f(n))
    ensures exists i: nat :: i >= n && !QuietMove(f(i), f(i + 1))
    decreases Unfinished(f(n)), Remaining(f(n))
  {
    if QuietMove(f(n), f(n + 1)) {
      QuietMoveDecreases(f(n), f(n + 1));
      NoSpinFrom(f, n + 1);
    }
  }

  /** No infinite sequence of quiet steps starts in a reachable state: a requested stop with
      suspended calls parks instead of rescheduling forever. */
  lemma NoSpinning(f: nat -> State)
    requires Reachable(f(0))
    ensures exists i: nat :: !QuietMove(f(i), f(i + 1))
  {
    ReachableInv(f(0));
    NoSpinFrom(f, 0);
  }

  // ------------------------------------------------------------------ no deadlock

  /** A goroutine is blocked only on the permit, and then the holder can move. */
  lemma SomeoneMoves(s: State, t: Tid)
    requires Inv(s) && t in s.threads && QuietStep(s.threads[t], Go)
    ensures exists u :: u in s.threads && Enabled(s, Step(u, Go)) && QuietStep(s.threads[u], Go)
  {
    assert Known(s.g, t, s.threads[t]);
    if !Enabled(s, Step(t, Go)) {
      var h := s.g.c.holder;
      assert Known(s.g, h, s.threads[h]);
      assert h in s.threads && Enabled(s, Step(h, Go)) && QuietStep(s.threads[h], Go);
    }
  }

  /** Nothing is left to do but sends and Poisons not yet issued. */
  ghost predicate Quiescent(s: State) {
    && (forall t, c :: Enabled(s, Step(t, c)) ==> !QuietStep(s.threads[t], c))
    && (forall t :: t in s.threads ==> !(s.threads[t].pc.Edge? && (s.threads[t].pc.e.SendPush? || s.threads[t].pc.e.PoisonStore?)))
  }

  lemma {:induction false} SumOfNone(n: nat, w: Thread -> nat)
    ensures Sum(map[], n, w) == 0
  {
    if n > 0 { SumOfNone(n - 1, w); }
  }

  lemma RestHasNoThreads(s: State)
    requires Inv(s) && Quiescent(s)
    ensures s.threads == map[]
  {
    if t :| t in s.threads {
      SomeoneMoves(s, t);
      assert false;
    }
  }

  /** When the actor comes to rest every goroutine has ended, every accepted message was started,
      dead-lettered, lost or left behind, and some are left behind exactly when a dead-letter handler
      left the stop's final loop with messages queued; no Ask is pending and a requested stop is done. */
  lemma RestIsClean(s: State)
    requires Reachable(s) && Quiescent(s)
    ensures s.threads == map[] && s.g.asks.pending == map[]
    ensures s.g.mail.accepted == s.g.mail.started + s.g.mail.dead + s.g.mail.lost + s.g.mail.queue
    ensures s.g.mail.queue == [] <==> !s.g.mail.abandoned
    ensures s.g.c.unfinished == 0 && s.g.c.permits == 1
    ensures s.g.c.status != Running
    ensures s.g.c.stopRequested ==> s.g.c.status == Halted
  {
    ReachableInv(s);
    RestHasNoThreads(s);
    SumOfNone(s.g.c.nextTid, CountedWeight);
    assert s.g.c.role == 0 && s.g.c.holder == 0;
    assert forall r :: r !in s.g.asks.pending;
    assert !QueueWaits(s.g);
    RestMail(s.g.mail);
  }

  lemma RestMail(m: Mail)
    requires m.accepted == m.started + m.inflight + m.dead + m.lost + m.dying + m.queue && m.inflight == [] && m.dying == []
    ensures m.accepted == m.started + m.dead + m.lost + m.queue
  {
    assert m.started + [] + m.dead + m.lost + [] + m.queue == m.started + m.dead + m.lost + m.queue;
  }
}
