/** Every step of every goroutine keeps the invariant, group of program points by group. */
module ActorPreservation {
  import opened Options
  import opened ActorModel
  import opened ActorInvariant

  /** Before start-up began, its message is still in the mailbox or is the one being entered. */
  predicate BootFirst(g: Globals, th: Thread) {
    && (g.c.life == Initializing && th.pc == Drain(DPop) ==> |g.mail.queue| > 0)
    && (g.c.life == Initializing && th.pc.Call? && th.pc.i.IBegin? ==> th.pc.i.m.kind == Initialize)
  }

  predicate Before(g: Globals, t: Tid, th: Thread, c: Choice) {
    && ControlInv(g.c) && ThreadInv(g.c, t, th) && CanStep(g, th, c) && BootFirst(g, th)
    && (g.c.unfinished == 0 ==> !Counted(th.pc))
  }

  /** The shared cells after a step. */
  predicate CellsOk(g: Globals, t: Tid, e: Effect) {
    && e.g.cfg == g.cfg
    && ControlInv(e.g.c)
    && e.g.c.nextTid == g.c.nextTid + (if e.spawn then 1 else 0)
    && (e.next.None? ==> e.g.c.role != t && e.g.c.holder != t)
    && (e.spawn ==> e.g.c.role == g.c.nextTid && e.g.c.status == Running && e.g.c.life != Starting && e.g.c.life != Stopping)
    && (e.g.c.role == 0 || e.g.c.role == t || e.g.c.role == g.c.role || e.spawn)
    && (e.g.c.holder == 0 || e.g.c.holder == t || e.g.c.holder == g.c.holder)
  }

  /** The goroutine after its own step. */
  predicate NextOk(t: Tid, e: Effect) { e.next.Some? ==> Knows(e.g.c, t, Classify(e.next.value)) }

  /** Its record and its share of the counter. */
  predicate RecordOk(g: Globals, th: Thread, e: Effect) {
    && (e.next.Some? ==> Shape(e.next.value))
    && e.g.c.unfinished - g.c.unfinished == (if e.next.Some? then CountedWeight(e.next.value) else 0) - CountedWeight(th)
  }

  lemma CellsEdge(g: Globals, t: Tid, th: Thread, pc: EdgePC)
    requires th.pc == Edge(pc) && Before(g, t, th, Go)
    ensures CellsOk(g, t, StepEdge(g, t, th, pc))
  {
  }

  lemma NextEdge(g: Globals, t: Tid, th: Thread, pc: EdgePC)
    requires th.pc == Edge(pc) && Before(g, t, th, Go)
    ensures NextOk(t, StepEdge(g, t, th, pc))
  {
  }

  lemma RecordEdge(g: Globals, t: Tid, th: Thread, pc: EdgePC)
    requires th.pc == Edge(pc) && Shape(th)
    ensures RecordOk(g, th, StepEdge(g, t, th, pc))
  {
  }

  lemma CellsDrain(g: Globals, t: Tid, th: Thread, pc: DrainPC)
    requires th.pc == Drain(pc) && Before(g, t, th, Go)
    ensures CellsOk(g, t, StepDrain(g, th, pc))
  {
  }

  lemma NextDrain(g: Globals, t: Tid, th: Thread, pc: DrainPC)
    requires th.pc == Drain(pc) && Before(g, t, th, Go)
    ensures NextOk(t, StepDrain(g, th, pc))
  {
  }

  lemma RecordDrain(g: Globals, th: Thread, pc: DrainPC)
    requires th.pc == Drain(pc) && Shape(th)
    ensures RecordOk(g, th, StepDrain(g, th, pc))
  {
  }

  lemma CellsGate(g: Globals, t: Tid, th: Thread, pc: GatePC)
    requires th.pc == Gate(pc) && Before(g, t, th, Go)
    ensures CellsOk(g, t, StepGate(g, t, th, pc))
  {
  }

  lemma NextGate(g: Globals, t: Tid, th: Thread, pc: GatePC)
    requires th.pc == Gate(pc) && Before(g, t, th, Go)
    ensures NextOk(t, StepGate(g, t, th, pc))
  {
  }

  lemma RecordGate(g: Globals, t: Tid, th: Thread, pc: GatePC)
    requires th.pc == Gate(pc) && Shape(th)
    ensures RecordOk(g, th, StepGate(g, t, th, pc))
  {
  }

  lemma CellsStop(g: Globals, t: Tid, th: Thread, from: StopFrom, pc: StopPC, c: Choice)
    requires th.pc == Stop(from, pc) && Before(g, t, th, c)
    ensures CellsOk(g, t, StepStop(g, th, from, pc, c))
  {
  }

  lemma NextFinal(g: Globals, t: Tid, th: Thread, from: StopFrom, pc: StopPC, c: Choice)
    requires th.pc == Stop(from, pc) && (pc.LDrain? || pc.LTell? || pc.LDead?) && Before(g, t, th, c)
    ensures NextOk(t, StepStop(g, th, from, pc, c))
  {
  }

  lemma NextStop(g: Globals, t: Tid, th: Thread, from: StopFrom, pc: StopPC, c: Choice)
    requires th.pc == Stop(from, pc) && Before(g, t, th, c)
    ensures NextOk(t, StepStop(g, th, from, pc, c))
  {
    if pc.LDrain? || pc.LTell? || pc.LDead? { NextFinal(g, t, th, from, pc, c); }
  }

  lemma RecordStop(g: Globals, th: Thread, from: StopFrom, pc: StopPC, c: Choice)
    requires th.pc == Stop(from, pc) && Shape(th)
    ensures RecordOk(g, th, StepStop(g, th, from, pc, c))
  {
  }

  lemma CellsCall(g: Globals, t: Tid, th: Thread, pc: CallPC, c: Choice)
    requires th.pc == Call(pc) && Before(g, t, th, c)
    ensures CellsOk(g, t, StepCall(g, th, pc, c))
  {
  }

  lemma NextCall(g: Globals, t: Tid, th: Thread, pc: CallPC, c: Choice)
    requires th.pc == Call(pc) && Before(g, t, th, c)
    ensures NextOk(t, StepCall(g, th, pc, c))
  {
  }

  lemma RecordBegin(g: Globals, th: Thread, m: Msg, c: Choice)
    requires th.pc == Call(IBegin(m)) && Shape(th)
    ensures RecordOk(g, th, StepCall(g, th, IBegin(m), c))
  {
  }

  lemma RecordCall(g: Globals, th: Thread, pc: CallPC, c: Choice)
    requires th.pc == Call(pc) && Shape(th) && !pc.IBegin?
    ensures RecordOk(g, th, StepCall(g, th, pc, c))
  {
  }

  lemma CellsAsk(g: Globals, t: Tid, th: Thread, pc: AskPC, c: Choice)
    requires th.pc == Ask(pc) && Before(g, t, th, c)
    ensures CellsOk(g, t, StepAsk(g, t, th, pc, c))
  {
  }

  lemma NextAsk(g: Globals, t: Tid, th: Thread, pc: AskPC, c: Choice)
    requires th.pc == Ask(pc) && Before(g, t, th, c)
    ensures NextOk(t, StepAsk(g, t, th, pc, c))
  {
  }

  lemma RecordAsk(g: Globals, t: Tid, th: Thread, pc: AskPC, c: Choice)
    requires th.pc == Ask(pc) && Shape(th)
    ensures RecordOk(g, th, StepAsk(g, t, th, pc, c))
  {
  }

  /** Non-interference: what another goroutine knows survives this step. The only fact that is not
      local is that a stop which read zero unfinished calls leaves no counted call behind. */
  predicate Bystander(g: Globals, t: Tid, th: Thread, u: Tid, k: Class) {
    u != t && Knows(g.c, u, k) && (th.pc == Drain(SUnf) && g.c.unfinished == 0 ==> !k.row.counted)
  }

  lemma OtherEdge(g: Globals, t: Tid, th: Thread, pc: EdgePC, u: Tid, k: Class)
    requires th.pc == Edge(pc) && Before(g, t, th, Go) && Bystander(g, t, th, u, k)
    ensures Knows(StepEdge(g, t, th, pc).g.c, u, k)
  {
  }

  lemma OtherDrain(g: Globals, t: Tid, th: Thread, pc: DrainPC, u: Tid, k: Class)
    requires th.pc == Drain(pc) && Before(g, t, th, Go) && Bystander(g, t, th, u, k)
    ensures Knows(StepDrain(g, th, pc).g.c, u, k)
  {
  }

  lemma OtherGate(g: Globals, t: Tid, th: Thread, pc: GatePC, u: Tid, k: Class)
    requires th.pc == Gate(pc) && Before(g, t, th, Go) && Bystander(g, t, th, u, k)
    ensures Knows(StepGate(g, t, th, pc).g.c, u, k)
  {
  }

  lemma OtherStop(g: Globals, t: Tid, th: Thread, from: StopFrom, pc: StopPC, c: Choice, u: Tid, k: Class)
    requires th.pc == Stop(from, pc) && Before(g, t, th, c) && Bystander(g, t, th, u, k)
    ensures Knows(StepStop(g, th, from, pc, c).g.c, u, k)
  {
  }

  lemma OtherCall(g: Globals, t: Tid, th: Thread, pc: CallPC, c: Choice, u: Tid, k: Class)
    requires th.pc == Call(pc) && Before(g, t, th, c) && Bystander(g, t, th, u, k)
    ensures Knows(StepCall(g, th, pc, c).g.c, u, k)
  {
  }

  lemma OtherAsk(g: Globals, t: Tid, th: Thread, pc: AskPC, c: Choice, u: Tid, k: Class)
    requires th.pc == Ask(pc) && Before(g, t, th, c) && Bystander(g, t, th, u, k)
    ensures Knows(StepAsk(g, t, th, pc, c).g.c, u, k)
  {
  }


  // ------------------------------------------------------------------ wake-ups

  /** A waiting queue or stop is owed a wake-up by this goroutine, or was already owed one by another. */
  predicate WakeOk(g: Globals, th: Thread, e: Effect) {
    && (QueueWaits(e.g) ==> (e.next.Some? && OwesForQueue(e.next.value)) || (QueueWaits(g) && !OwesForQueue(th)))
    && (StopWaits(e.g) ==> (e.next.Some? && OwesForStop(e.next.value)) || (StopWaits(g) && !OwesForStop(th)))
  }

  lemma WakeEdge(g: Globals, t: Tid, th: Thread, pc: EdgePC)
    requires th.pc == Edge(pc) && Before(g, t, th, Go)
    ensures WakeOk(g, th, StepEdge(g, t, th, pc))
  {
  }

  lemma WakeDrain(g: Globals, t: Tid, th: Thread, pc: DrainPC)
    requires th.pc == Drain(pc) && Before(g, t, th, Go)
    ensures WakeOk(g, th, StepDrain(g, th, pc))
  {
  }

  lemma WakeGate(g: Globals, t: Tid, th: Thread, pc: GatePC)
    requires th.pc == Gate(pc) && Before(g, t, th, Go)
    ensures WakeOk(g, th, StepGate(g, t, th, pc))
  {
  }

  lemma WakeStop(g: Globals, t: Tid, th: Thread, from: StopFrom, pc: StopPC, c: Choice)
    requires th.pc == Stop(from, pc) && Before(g, t, th, c)
    ensures WakeOk(g, th, StepStop(g, th, from, pc, c))
  {
  }

  lemma WakeCall(g: Globals, t: Tid, th: Thread, pc: CallPC, c: Choice)
    requires th.pc == Call(pc) && Before(g, t, th, c)
    ensures WakeOk(g, th, StepCall(g, th, pc, c))
  {
  }

  lemma WakeAsk(g: Globals, t: Tid, th: Thread, pc: AskPC, c: Choice)
    requires th.pc == Ask(pc) && Before(g, t, th, c)
    ensures WakeOk(g, th, StepAsk(g, t, th, pc, c))
  {
  }

  // ------------------------------------------------------------------ messages

  /** The mailbox and its history after a step; only the role holder moves messages out of the queue. */
  predicate MailOk(g: Globals, th: Thread, e: Effect) {
    && MailInv(e.g)
    && (e.next.Some? ==> MailThread(e.g, e.next.value))
    && (e.spawn ==> MailThread(e.g, FreshDrainer))
    && (!Role(th) ==>
          && e.g.mail.inflight == g.mail.inflight && e.g.mail.dying == g.mail.dying && e.g.mail.abandoned == g.mail.abandoned
          && e.g.mail.lost == g.mail.lost
          && (g.c.status == Halted <==> e.g.c.status == Halted)
          && (g.c.status == Halted ==> e.g.mail.queue == g.mail.queue))
  }

  lemma MailPush(g: Globals, t: Tid, th: Thread, pc: EdgePC)
    requires th.pc == Edge(pc) && pc.SendPush? && Before(g, t, th, Go) && MailInv(g) && MailThread(g, th)
    ensures MailOk(g, th, StepEdge(g, t, th, pc))
  {
    var m := g.mail;
    assert m.accepted + [pc.m] == m.started + m.inflight + m.dead + m.lost + m.dying + (m.queue + [pc.m]);
  }

  lemma MailRefuse(g: Globals, t: Tid, th: Thread, pc: EdgePC)
    requires th.pc == Edge(pc) && (pc.RefuseTell? || pc.RefuseEmit?) && Before(g, t, th, Go) && MailInv(g) && MailThread(g, th)
    ensures MailOk(g, th, StepEdge(g, t, th, pc))
  {
  }

  lemma MailSchedule(g: Globals, t: Tid, th: Thread, pc: EdgePC)
    requires th.pc == Edge(pc) && (pc.PoisonStore? || pc.Schedule?) && Before(g, t, th, Go) && MailInv(g) && MailThread(g, th)
    ensures MailOk(g, th, StepEdge(g, t, th, pc))
  {
  }

  lemma MailEdge(g: Globals, t: Tid, th: Thread, pc: EdgePC)
    requires th.pc == Edge(pc) && !pc.SendPush? && Before(g, t, th, Go) && MailInv(g) && MailThread(g, th)
    ensures MailOk(g, th, StepEdge(g, t, th, pc))
  {
    if pc.RefuseTell? || pc.RefuseEmit? { MailRefuse(g, t, th, pc); }
    if pc.PoisonStore? || pc.Schedule? { MailSchedule(g, t, th, pc); }
  }

  lemma MailPop(g: Globals, t: Tid, th: Thread)
    requires th.pc == Drain(DPop) && Before(g, t, th, Go) && MailInv(g) && MailThread(g, th)
    ensures MailOk(g, th, StepDrain(g, th, DPop))
  {
    if |g.mail.queue| > 0 {
      var m := g.mail;
      assert m.accepted == m.started + [m.queue[0]] + m.dead + m.lost + m.dying + m.queue[1..];
    }
  }

  lemma MailDrain(g: Globals, t: Tid, th: Thread, pc: DrainPC)
    requires th.pc == Drain(pc) && Before(g, t, th, Go) && MailInv(g) && MailThread(g, th)
    ensures MailOk(g, th, StepDrain(g, th, pc))
  {
    if pc == DPop { MailPop(g, t, th); }
  }

  lemma MailGate(g: Globals, t: Tid, th: Thread, pc: GatePC)
    requires th.pc == Gate(pc) && Before(g, t, th, Go) && MailInv(g) && MailThread(g, th)
    ensures MailOk(g, th, StepGate(g, t, th, pc))
  {
  }

  lemma MailStop(g: Globals, t: Tid, th: Thread, from: StopFrom, pc: StopPC, c: Choice)
    requires th.pc == Stop(from, pc) && !pc.LDrain? && !pc.LTell? && !pc.LDead? && Before(g, t, th, c) && MailInv(g) && MailThread(g, th)
    ensures MailOk(g, th, StepStop(g, th, from, pc, c))
  {
  }

  lemma MailLast(g: Globals, t: Tid, th: Thread, from: StopFrom, pc: StopPC, c: Choice)
    requires th.pc == Stop(from, pc) && pc.LDrain? && Before(g, t, th, c) && MailInv(g) && MailThread(g, th)
    ensures MailOk(g, th, StepStop(g, th, from, pc, c))
  {
    var m := g.mail;
    if |m.queue| > 0 {
      assert m.accepted == m.started + m.inflight + m.dead + [] + [m.queue[0]] + m.queue[1..];
    }
  }

  lemma MailTell(g: Globals, t: Tid, th: Thread, from: StopFrom, pc: StopPC, c: Choice)
    requires th.pc == Stop(from, pc) && pc.LTell? && Before(g, t, th, c) && MailInv(g) && MailThread(g, th)
    ensures MailOk(g, th, StepStop(g, th, from, pc, c))
  {
    var m := g.mail;
    assert m.accepted == m.started + m.inflight + m.dead + [pc.m] + [] + m.queue;
  }

  lemma MailLetter(g: Globals, t: Tid, th: Thread, from: StopFrom, pc: StopPC, c: Choice)
    requires th.pc == Stop(from, pc) && pc.LDead? && Before(g, t, th, c) && MailInv(g) && MailThread(g, th)
    ensures MailOk(g, th, StepStop(g, th, from, pc, c))
  {
    var m := g.mail;
    assert m.accepted == m.started + m.inflight + (m.dead + [pc.m]) + [] + [] + m.queue;
  }

  lemma MailBegin(g: Globals, t: Tid, th: Thread, m: Msg, c: Choice)
    requires th.pc == Call(IBegin(m)) && Before(g, t, th, c) && MailInv(g) && MailThread(g, th)
    ensures MailOk(g, th, StepCall(g, th, IBegin(m), c))
  {
    assert g.mail.accepted == (g.mail.started + [m]) + [] + g.mail.dead + g.mail.lost + g.mail.dying + g.mail.queue;
  }

  lemma MailCall(g: Globals, t: Tid, th: Thread, pc: CallPC, c: Choice)
    requires th.pc == Call(pc) && !pc.IBegin? && Before(g, t, th, c) && MailInv(g) && MailThread(g, th)
    ensures MailOk(g, th, StepCall(g, th, pc, c))
  {
  }

  lemma MailAsk(g: Globals, t: Tid, th: Thread, pc: AskPC, c: Choice)
    requires th.pc == Ask(pc) && Before(g, t, th, c) && MailInv(g) && MailThread(g, th)
    ensures MailOk(g, th, StepAsk(g, t, th, pc, c))
  {
  }

  // ------------------------------------------------------------------ lifecycle log

  predicate LogOk(g: Globals, th: Thread, e: Effect) {
    && LogInv(e.g)
    && (e.next.Some? ==> LogThread(e.g, e.next.value))
    && (e.spawn ==> LogThread(e.g, FreshDrainer))
    && (!Role(th) ==> e.g.rec.life == g.rec.life && e.g.rec.owned == g.rec.owned)
  }

  lemma LogEdge(g: Globals, t: Tid, th: Thread, pc: EdgePC)
    requires th.pc == Edge(pc) && Before(g, t, th, Go) && LogInv(g) && LogThread(g, th)
    ensures LogOk(g, th, StepEdge(g, t, th, pc))
  {
  }

  lemma LogDrain(g: Globals, t: Tid, th: Thread, pc: DrainPC)
    requires th.pc == Drain(pc) && Before(g, t, th, Go) && LogInv(g) && LogThread(g, th)
    ensures LogOk(g, th, StepDrain(g, th, pc))
  {
  }

  lemma LogGate(g: Globals, t: Tid, th: Thread, pc: GatePC)
    requires th.pc == Gate(pc) && Before(g, t, th, Go) && LogInv(g) && LogThread(g, th)
    ensures LogOk(g, th, StepGate(g, t, th, pc))
  {
  }

  lemma LogStop(g: Globals, t: Tid, th: Thread, from: StopFrom, pc: StopPC, c: Choice)
    requires th.pc == Stop(from, pc) && Before(g, t, th, c) && LogInv(g) && LogThread(g, th)
    ensures LogOk(g, th, StepStop(g, th, from, pc, c))
  {
  }

  lemma LogCall(g: Globals, t: Tid, th: Thread, pc: CallPC, c: Choice)
    requires th.pc == Call(pc) && Before(g, t, th, c) && LogInv(g) && LogThread(g, th)
    ensures LogOk(g, th, StepCall(g, th, pc, c))
  {
  }

  lemma LogAsk(g: Globals, t: Tid, th: Thread, pc: AskPC, c: Choice)
    requires th.pc == Ask(pc) && Before(g, t, th, c) && LogInv(g) && LogThread(g, th)
    ensures LogOk(g, th, StepAsk(g, t, th, pc, c))
  {
  }

  lemma EmitRuns(r: Record, e: Event)
    requires RunLog(r.log) == r.life
    ensures RunLog(Emit(r, e).log) == Emit(r, e).life
  {
    assert (r.log + [e])[..|r.log|] == r.log;
  }

  predicate RunsOk(g: Globals, e: Effect) {
    RunLog(g.rec.log) == g.rec.life ==> RunLog(e.g.rec.log) == e.g.rec.life
  }

  lemma RunsStop(g: Globals, th: Thread, from: StopFrom, pc: StopPC, c: Choice)
    ensures RunsOk(g, StepStop(g, th, from, pc, c))
  {
    if RunLog(g.rec.log) == g.rec.life {
      if pc.LClose? { EmitRuns(g.rec, PreStopBegin); } else if pc == LUnreg { EmitRuns(g.rec, Unregistered); }
    }
  }

  lemma EmitBoth(rec: Record)
    requires RunLog(rec.log) == rec.life
    ensures var r := Emit(Emit(rec.(owned := true), Registered), StartedBegin); RunLog(r.log) == r.life
    ensures RunLog(Emit(rec, StartedBegin).log) == Emit(rec, StartedBegin).life
  {
    var r := rec.(owned := true);
    EmitRuns(r, Registered);
    EmitRuns(Emit(r, Registered), StartedBegin);
    EmitRuns(rec, StartedBegin);
  }

  lemma RunsCall(g: Globals, th: Thread, pc: CallPC, c: Choice)
    ensures RunsOk(g, StepCall(g, th, pc, c))
  {
    if RunLog(g.rec.log) == g.rec.life {
      match pc {
        case IBegin(m) => EmitRuns(g.rec, ReceiveBegin(m.id));
        case GStarted => EmitRuns(g.rec, StartedOk);
        case GRegister =>
          EmitBoth(g.rec);
          EmitRuns(g.rec, RegisterFailed);
        case _ =>
      }
    }
  }

  lemma RunsAsk(g: Globals, t: Tid, th: Thread, pc: AskPC, c: Choice)
    ensures RunsOk(g, StepAsk(g, t, th, pc, c))
  {
    if RunLog(g.rec.log) == g.rec.life && pc == IReceive { EmitRuns(g.rec, HandlerRan(t)); }
  }

  /** The recorded log state is the automaton's run over the log. */
  lemma RunsStep(g: Globals, t: Tid, th: Thread, c: Choice)
    ensures RunsOk(g, LocalStep(g, t, th, c))
  {
    match th.pc {
      case Stop(from, pc) => RunsStop(g, th, from, pc, c);
      case Call(pc) => RunsCall(g, th, pc, c);
      case Ask(pc) => RunsAsk(g, t, th, pc, c);
      case Edge(pc) => assert LocalStep(g, t, th, c).g.rec == g.rec;
      case Drain(pc) => assert LocalStep(g, t, th, c).g.rec == g.rec;
      case Gate(pc) => assert LocalStep(g, t, th, c).g.rec == g.rec;
    }
  }

  // ------------------------------------------------------------------ one step, all groups

  lemma CellsStep(g: Globals, t: Tid, th: Thread, c: Choice)
    requires Before(g, t, th, c)
    ensures CellsOk(g, t, LocalStep(g, t, th, c))
  {
    match th.pc {
      case Edge(pc) => CellsEdge(g, t, th, pc);
      case Drain(pc) => CellsDrain(g, t, th, pc);
      case Gate(pc) => CellsGate(g, t, th, pc);
      case Stop(from, pc) => CellsStop(g, t, th, from, pc, c);
      case Call(pc) => CellsCall(g, t, th, pc, c);
      case Ask(pc) => CellsAsk(g, t, th, pc, c);
    }
  }

  lemma NextStep(g: Globals, t: Tid, th: Thread, c: Choice)
    requires Before(g, t, th, c)
    ensures NextOk(t, LocalStep(g, t, th, c))
  {
    match th.pc {
      case Edge(pc) => NextEdge(g, t, th, pc);
      case Drain(pc) => NextDrain(g, t, th, pc);
      case Gate(pc) => NextGate(g, t, th, pc);
      case Stop(from, pc) => NextStop(g, t, th, from, pc, c);
      case Call(pc) => NextCall(g, t, th, pc, c);
      case Ask(pc) => NextAsk(g, t, th, pc, c);
    }
  }

  lemma RecordStep(g: Globals, t: Tid, th: Thread, c: Choice)
    requires Shape(th)
    ensures RecordOk(g, th, LocalStep(g, t, th, c))
  {
    match th.pc {
      case Edge(pc) => RecordEdge(g, t, th, pc);
      case Drain(pc) => RecordDrain(g, th, pc);
      case Gate(pc) => RecordGate(g, t, th, pc);
      case Stop(from, pc) => RecordStop(g, th, from, pc, c);
      case Call(pc) => if pc.IBegin? { RecordBegin(g, th, pc.m, c); } else { RecordCall(g, th, pc, c); }
      case Ask(pc) => RecordAsk(g, t, th, pc, c);
    }
  }

  lemma WakeStep(g: Globals, t: Tid, th: Thread, c: Choice)
    requires Before(g, t, th, c)
    ensures WakeOk(g, th, LocalStep(g, t, th, c))
  {
    match th.pc {
      case Edge(pc) => WakeEdge(g, t, th, pc);
      case Drain(pc) => WakeDrain(g, t, th, pc);
      case Gate(pc) => WakeGate(g, t, th, pc);
      case Stop(from, pc) => WakeStop(g, t, th, from, pc, c);
      case Call(pc) => WakeCall(g, t, th, pc, c);
      case Ask(pc) => WakeAsk(g, t, th, pc, c);
    }
  }

  lemma MailStep(g: Globals, t: Tid, th: Thread, c: Choice)
    requires Before(g, t, th, c) && MailInv(g) && MailThread(g, th)
    ensures MailOk(g, th, LocalStep(g, t, th, c))
  {
    match th.pc {
      case Edge(pc) => if pc.SendPush? { MailPush(g, t, th, pc); } else { MailEdge(g, t, th, pc); }
      case Drain(pc) => MailDrain(g, t, th, pc);
      case Gate(pc) => MailGate(g, t, th, pc);
      case Stop(from, pc) =>
        if pc.LDrain? {
          MailLast(g, t, th, from, pc, c);
        } else if pc.LTell? {
          MailTell(g, t, th, from, pc, c);
        } else if pc.LDead? {
          MailLetter(g, t, th, from, pc, c);
        } else {
          MailStop(g, t, th, from, pc, c);
        }
      case Call(pc) => if pc.IBegin? { MailBegin(g, t, th, pc.m, c); } else { MailCall(g, t, th, pc, c); }
      case Ask(pc) => MailAsk(g, t, th, pc, c);
    }
  }

  lemma LogStep(g: Globals, t: Tid, th: Thread, c: Choice)
    requires Before(g, t, th, c) && LogInv(g) && LogThread(g, th)
    ensures LogOk(g, th, LocalStep(g, t, th, c))
  {
    match th.pc {
      case Edge(pc) => LogEdge(g, t, th, pc);
      case Drain(pc) => LogDrain(g, t, th, pc);
      case Gate(pc) => LogGate(g, t, th, pc);
      case Stop(from, pc) => LogStop(g, t, th, from, pc, c);
      case Call(pc) => LogCall(g, t, th, pc, c);
      case Ask(pc) => LogAsk(g, t, th, pc, c);
    }
  }

  lemma OtherStep(g: Globals, t: Tid, th: Thread, c: Choice, u: Tid, k: Class)
    requires Before(g, t, th, c) && Bystander(g, t, th, u, k)
    ensures Knows(LocalStep(g, t, th, c).g.c, u, k)
  {
    match th.pc {
      case Edge(pc) => OtherEdge(g, t, th, pc, u, k);
      case Drain(pc) => OtherDrain(g, t, th, pc, u, k);
      case Gate(pc) => OtherGate(g, t, th, pc, u, k);
      case Stop(from, pc) => OtherStop(g, t, th, from, pc, c, u, k);
      case Call(pc) => OtherCall(g, t, th, pc, c, u, k);
      case Ask(pc) => OtherAsk(g, t, th, pc, c, u, k);
    }
  }
}
