/**
  One actor as a transition system: mailbox, drain role, execution gate, lifecycle and
  reentrant Ask, driven by an unbounded set of goroutines.

  Every atomic load, store, add and CAS, every channel operation and every mailbox call
  (each holds the ring's mutex) is one step. A step reads and writes only the shared cells
  (`Globals`) and the record of the goroutine that takes it (`Thread`), so the whole system
  is the interleaving of `LocalStep`.

  User code is arbitrary: a hook, handler or dead-letter handler may return, panic, call Goexit or,
  in Receive, Ask again. A send or a Poison issued by user code is an external goroutine that starts at
  any time, which allows every order the real one has and more.
*/
module ActorModel {
  import opened Options

  type Tid = nat // goroutine id; 0 is never a goroutine

  datatype DrainStatus = Idle | Running | Halted
  datatype Life = Initializing | Starting | Started | Stopping | Stopped
  datatype CallKind = CallStart | CallReceive | CallStop

  /** What the dispatch of `execution.invoke` sees: a framework message addressed to the actor
      itself, or anything else. `id` is the goroutine that sent it, so ids are unique; the
      start-up message has id 0. `tellExits` says how the error reply to the message's sender would
      end, should one be needed: an Ask from another node is answered through a stream's mailbox, and
      when that is full the user's dead-letter handler runs, which may call Goexit. */
  datatype MsgKind = Initialize | Poison | Ordinary
  datatype Msg = Msg(id: nat, kind: MsgKind, tellExits: bool)

  datatype Reason = Overflow | Closed
  datatype Refusal = Refusal(msg: Msg, reason: Reason)

  /** Who called `actorLifecycleState.stop`. */
  datatype StopFrom = FromIdle | FromStart

  /** Why a goroutine enters the gate, and what it does after leaving it. */
  datatype Entry = ToStop | ToInvoke(m: Msg) | ToResume
  datatype Departure = AfterStop | AfterInvoke | AfterSuspend(r: nat)

  /** Ends of goroutines: send, poison and schedule(), and finishDraining (park, then recheck). */
  datatype EdgePC = SendPush(m: Msg) | RefuseTell(m: Msg, reason: Reason) | RefuseEmit(m: Msg, reason: Reason)
                  | PoisonStore | Schedule
                  | FCas | RLen | RStop | RUnf | IAfter

  /** The drain loop, and the rechecks of stopIfIdle. */
  datatype DrainPC = DLoad | DPop | DStopReq | DUnfin | SStatus | SLen | SUnf

  /** gate.enter: receive the permit, write the pointer, store the owner id; gate.leave: clear the
      owner id, clear the pointer, send the permit back. */
  datatype GatePC = EnterPermit(why: Entry) | EnterPtr(why: Entry) | EnterId(why: Entry)
                  | LeaveId(after: Departure) | LeavePtr(after: Departure) | LeavePermit(after: Departure)

  /** lifecycle.stop and its deferred cleanup. */
  datatype StopPC = LClose(runPreStop: bool) | LPreStop | LUnreg | LStore | LRemove | LDrain | LTell(m: Msg) | LDead(m: Msg)

  /** invoke: count, dispatch, framework messages, lifecycle.start, deferred decrement. */
  datatype CallPC = IAdd(m: Msg) | IBegin(m: Msg) | IPoisonStore | IPoisonSched | GRegister | GStarted | IDec

  /** The user's Receive, and Ask inside it. */
  datatype AskPC = IReceive | AReg | ASusp(r: nat) | AWait(r: nat) | ACancel(r: nat)

  datatype PC = Edge(e: EdgePC) | Drain(d: DrainPC) | Gate(x: GatePC) | Stop(from: StopFrom, l: StopPC)
              | Call(i: CallPC) | Ask(a: AskPC)

  /** A goroutine with its `execution` record. `exiting` is set by Goexit and never cleared;
      `handoffs` counts the successors this goroutine has started. */
  datatype Thread = Thread(pc: PC, transferred: bool, kind: CallKind, exiting: bool, handoffs: nat)

  const FreshDrainer := Thread(Drain(DLoad), false, CallStart, false, 0)

  function External(pc: PC): Thread { Thread(pc, false, CallStart, false, 0) }

  /** Lifecycle events visible to the user and to the cluster. */
  datatype Event = Registered | RegisterFailed | StartedBegin | StartedOk | ReceiveBegin(id: nat) | HandlerRan(t: Tid)
                 | PreStopBegin | Unregistered

  /** The reference automaton for an actor's life, independent of the scheduler. */
  datatype Phase = Fresh | InStarted | Up | Down | Gone
  datatype LifeLog = LifeLog(registered: bool, phase: Phase) | Broken

  function Delta(l: LifeLog, e: Event): LifeLog {
    if l.Broken? then Broken else
    match e
    case Registered => if l.phase == Fresh && !l.registered then l.(registered := true) else Broken
    case RegisterFailed => if l.phase == Fresh && !l.registered then l.(phase := Down) else Broken
    case StartedBegin => if l.phase == Fresh then l.(phase := InStarted) else Broken
    case StartedOk => if l.phase == InStarted then l.(phase := Up) else Broken
    case ReceiveBegin(_) => if l.phase == Up then l else Broken
    case HandlerRan(_) => if l.phase == Up then l else Broken
    case PreStopBegin => if l.phase == Up then l.(phase := Down) else Broken
    case Unregistered => if l.registered && l.phase != Up && l.phase != Gone then l.(phase := Gone) else Broken
  }

  function RunLog(log: seq<Event>): LifeLog {
    if log == [] then LifeLog(false, Fresh) else Delta(RunLog(log[..|log| - 1]), log[|log| - 1])
  }

  // ------------------------------------------------------------------ shared cells

  datatype Config = Config(maxCap: nat, hasRegister: bool, hasUnregister: bool)

  /** Scheduler, gate and lifecycle cells. `role` and `holder` are auxiliary (who holds the drain
      role, who holds the permit; 0 for nobody): they are written, but no step depends on them. */
  datatype Control = Control(
    status: DrainStatus, unfinished: int, permits: int, ownerId: Tid, executing: Tid,
    stopRequested: bool, life: Life, closed: bool, nextTid: Tid, role: Tid, holder: Tid)

  /** The mailbox content, and history no step depends on: every message ever accepted, started,
      being entered, dead-lettered by the stop, lost by the stop before its letter, being
      dead-lettered, refused with a letter, refused and lost before the letter, and issued; and whether
      a handler left the stop's final loop with messages still queued. */
  datatype Mail = Mail(
    queue: seq<Msg>, accepted: seq<Msg>, started: seq<Msg>, inflight: seq<Msg>, dead: seq<Msg>, lost: seq<Msg>,
    dying: seq<Msg>, refused: seq<Refusal>, dropped: seq<Msg>, issued: map<nat, Msg>, abandoned: bool)

  /** Cluster registration and registry entry, with the event history. */
  datatype Record = Record(owned: bool, published: bool, log: seq<Event>, life: LifeLog)

  /** Pending-Ask table: request id -> the goroutine that waits for it. */
  datatype Asks = Asks(pending: map<nat, Tid>, nextReq: nat)

  datatype Globals = Globals(cfg: Config, c: Control, mail: Mail, rec: Record, asks: Asks)

  datatype State = State(g: Globals, threads: map<Tid, Thread>)

  /** How a step with a choice turned out: normal return, panic or error return, Goexit, or a
      handler that calls Ask. */
  datatype Choice = Go | Fail | Exit | AskNow

  /** Result of one step: new shared cells, the goroutine's new record or None when it ends,
      and whether it started a drainer (whose id is the old `nextTid`). */
  datatype Effect = Effect(g: Globals, next: Option<Thread>, spawn: bool)

  function Emit(r: Record, e: Event): Record { r.(log := r.log + [e], life := Delta(r.life, e)) }

  function SpawnDrainer(c: Control): Control { c.(role := c.nextTid, nextTid := c.nextTid + 1) }

  /** schedule(): CAS idle -> running, and on success start a drainer. */
  function Cas(g: Globals, next: Option<Thread>): Effect {
    if g.c.status == Idle
    then Effect(g.(c := SpawnDrainer(g.c.(status := Running))), next, true)
    else Effect(g, next, false)
  }

  function To(g: Globals, th: Thread, pc: PC): Effect { Effect(g, Some(th.(pc := pc)), false) }
  function Set(g: Globals, c: Control, th: Thread, pc: PC): Effect { Effect(g.(c := c), Some(th.(pc := pc)), false) }
  function End(g: Globals): Effect { Effect(g, None, false) }

  // ------------------------------------------------------------------ steps

  /** Blocking: receiving the permit needs one in the channel, returning it needs room for one. */
  predicate CanStep(g: Globals, th: Thread, c: Choice) {
    match th.pc
    case Gate(EnterPermit(_)) => c == Go && g.c.permits == 1
    case Gate(LeavePermit(_)) => c == Go && g.c.permits == 0
    case Call(GRegister) => c == Go || (g.cfg.hasRegister && c != AskNow)
    case Call(GStarted) => c != AskNow
    case Stop(_, LPreStop) => c != AskNow
    // the user's dead-letter handler: a panic is recovered inside, Goexit is not
    case Stop(_, LDead(_)) => c == Go || c == Exit
    case Stop(_, LUnreg) => c == Go || (g.rec.owned && g.cfg.hasUnregister && c != AskNow)
    case Ask(IReceive) => true
    case Ask(AReg) => c == Go || c == Fail
    case Ask(AWait(_)) => c != AskNow
    case _ => c == Go
  }

  function StepEdge(g: Globals, t: Tid, th: Thread, pc: EdgePC): Effect {
    match pc
    case SendPush(m) =>
      if g.c.closed then To(g, th, Edge(RefuseTell(m, Closed)))
      else if |g.mail.queue| >= g.cfg.maxCap then To(g, th, Edge(RefuseTell(m, Overflow)))
      else To(g.(mail := g.mail.(queue := g.mail.queue + [m], accepted := g.mail.accepted + [m])), th, Edge(Schedule))
    case RefuseTell(m, reason) =>
      if m.tellExits then End(g.(mail := g.mail.(dropped := g.mail.dropped + [m]))) else To(g, th, Edge(RefuseEmit(m, reason)))
    case RefuseEmit(m, reason) => End(g.(mail := g.mail.(refused := g.mail.refused + [Refusal(m, reason)])))
    case PoisonStore => Set(g, g.c.(stopRequested := true), th, Edge(Schedule))
    case Schedule => Cas(g, None)
    case FCas =>
      if g.c.status == Running then Set(g, g.c.(status := Idle, role := 0), th, Edge(RLen))
      else End(g.(c := g.c.(role := if g.c.role == t then 0 else g.c.role)))
    case RLen => if |g.mail.queue| > 0 then To(g, th, Edge(Schedule)) else To(g, th, Edge(RStop))
    case RStop => if g.c.stopRequested then To(g, th, Edge(RUnf)) else End(g)
    case RUnf => if g.c.unfinished == 0 then To(g, th, Edge(Schedule)) else End(g)
    case IAfter => if g.c.stopRequested then To(g, th, Edge(Schedule)) else End(g)
  }

  function StepDrain(g: Globals, th: Thread, pc: DrainPC): Effect {
    match pc
    case DLoad => if g.c.status == Halted then To(g, th, Edge(FCas)) else To(g, th, Drain(DPop))
    case DPop =>
      if |g.mail.queue| == 0 then To(g, th, Drain(DStopReq))
      else
        var m := g.mail.queue[0];
        To(g.(mail := g.mail.(queue := g.mail.queue[1..], inflight := [m])), th, Call(IAdd(m)))
    case DStopReq => if g.c.stopRequested then To(g, th, Drain(DUnfin)) else To(g, th, Edge(FCas))
    case DUnfin =>
      if g.c.unfinished == 0 then To(g, th.(kind := CallStop), Gate(EnterPermit(ToStop))) else To(g, th, Edge(FCas))
    case SStatus => if g.c.status == Halted then To(g, th, Back(FromIdle)) else To(g, th, Drain(SLen))
    case SLen => if |g.mail.queue| != 0 then To(g, th, Back(FromIdle)) else To(g, th, Drain(SUnf))
    case SUnf => if g.c.unfinished != 0 then To(g, th, Back(FromIdle)) else EnterStop(g, th, FromIdle)
  }

  /** executionGate.enter and leave, shared by invoke, stopIfIdle and Ask. */
  function StepGate(g: Globals, t: Tid, th: Thread, pc: GatePC): Effect {
    match pc
    case EnterPermit(w) => Set(g, g.c.(permits := 0, holder := t), th, Gate(EnterPtr(w)))
    case EnterPtr(w) => Set(g, g.c.(executing := t), th, Gate(EnterId(w)))
    case EnterId(w) => Set(g, g.c.(ownerId := t), th, Entered(w))
    case LeaveId(d) => Set(g, g.c.(ownerId := 0), th, Gate(LeavePtr(d)))
    case LeavePtr(d) => Set(g, g.c.(executing := 0), th, Gate(LeavePermit(d)))
    case LeavePermit(d) => Set(g, g.c.(permits := 1, holder := 0), th, Departed(d))
  }

  function Entered(w: Entry): PC {
    match w case ToStop => Drain(SStatus) case ToInvoke(m) => Call(IBegin(m)) case ToResume => Ask(IReceive)
  }

  function Departed(d: Departure): PC {
    match d case AfterStop => Edge(FCas) case AfterInvoke => Call(IDec) case AfterSuspend(r) => Ask(AWait(r))
  }

  /** Where lifecycle.stop and the rechecks return to: the release of the permit. */
  function Back(from: StopFrom): PC { Gate(LeaveId(if from == FromIdle then AfterStop else AfterInvoke)) }

  /** lifecycle.stop up to mailbox.Close: the early return, or the stopping phase. */
  function EnterStop(g: Globals, th: Thread, from: StopFrom): Effect {
    if g.c.life == Stopped || g.c.life == Stopping then To(g, th, Back(from))
    else Set(g, g.c.(life := Stopping), th.(kind := CallStop), Stop(from, LClose(g.c.life == Started)))
  }

  function Quit(th: Thread, c: Choice): Thread { if c == Exit then th.(exiting := true) else th }

  function StepStop(g: Globals, th: Thread, from: StopFrom, pc: StopPC, c: Choice): Effect {
    match pc
    case LClose(pre) =>
      if pre then Set(g.(rec := Emit(g.rec, PreStopBegin)), g.c.(closed := true), th, Stop(from, LPreStop))
      else Set(g, g.c.(closed := true), th, Stop(from, LUnreg))
    case LPreStop => To(g, Quit(th, c), Stop(from, LUnreg))
    case LUnreg =>
      if g.rec.owned && g.cfg.hasUnregister
      then To(g.(rec := Emit(g.rec, Unregistered)), Quit(th, c), Stop(from, LStore))
      else To(g, th, Stop(from, LStore))
    case LStore => Set(g, g.c.(life := Stopped, status := Halted), th, Stop(from, LRemove))
    case LRemove => To(g.(rec := g.rec.(published := false)), th, Stop(from, LDrain))
    case LDrain =>
      if |g.mail.queue| == 0 then To(g, th, Back(from))
      else
        var m := g.mail.queue[0];
        To(g.(mail := g.mail.(queue := g.mail.queue[1..], dying := [m])), th, Stop(from, LTell(m)))
    case LTell(m) =>
      if m.tellExits
      then To(g.(mail := g.mail.(lost := [m], dying := [], abandoned := |g.mail.queue| > 0)), Quit(th, Exit), Back(from))
      else To(g, th, Stop(from, LDead(m)))
    case LDead(m) =>
      var mail := g.mail.(dead := g.mail.dead + [m], dying := []);
      if c == Exit then To(g.(mail := mail.(abandoned := |mail.queue| > 0)), Quit(th, c), Back(from))
      else To(g.(mail := mail), th, Stop(from, LDrain))
  }

  function StepCall(g: Globals, th: Thread, pc: CallPC, c: Choice): Effect {
    match pc
    case IAdd(m) => Set(g, g.c.(unfinished := g.c.unfinished + 1), th, Gate(EnterPermit(ToInvoke(m))))
    case IBegin(m) => Dispatch(g.(mail := g.mail.(started := g.mail.started + [m], inflight := [])), th, m)
    case IPoisonStore => Set(g, g.c.(stopRequested := true), th, Call(IPoisonSched))
    case IPoisonSched => Cas(g, Some(th.(pc := Gate(LeaveId(AfterInvoke)))))
    case GRegister =>
      if c != Go then EnterStop(g.(rec := Emit(g.rec, RegisterFailed)), Quit(th, c), FromStart)
      else if g.cfg.hasRegister
      then To(g.(rec := Emit(Emit(g.rec.(owned := true), Registered), StartedBegin)), th, Call(GStarted))
      else To(g.(rec := Emit(g.rec, StartedBegin)), th, Call(GStarted))
    case GStarted =>
      if c != Go then EnterStop(g, Quit(th, c), FromStart)
      else Set(g.(rec := Emit(g.rec, StartedOk)), g.c.(life := Started), th, Gate(LeaveId(AfterInvoke)))
    case IDec =>
      var h := g.(c := g.c.(unfinished := g.c.unfinished - 1));
      if th.transferred then (if h.c.unfinished == 0 then To(h, th, Edge(IAfter)) else End(h))
      else if th.exiting then To(h, th, Edge(FCas)) else To(h, th, Drain(DLoad))
  }

  /** execution.invoke: framework messages are handled here, anything else is the user's Receive. */
  function Dispatch(g: Globals, th: Thread, m: Msg): Effect {
    match m.kind
    case Initialize =>
      if g.c.life == Initializing then Set(g, g.c.(life := Starting), th.(kind := CallStart), Call(GRegister))
      else To(g, th.(kind := CallStart), Gate(LeaveId(AfterInvoke)))
    case Poison => To(g, th, Call(IPoisonStore))
    case Ordinary => To(g.(rec := Emit(g.rec, ReceiveBegin(m.id))), th.(kind := CallReceive), Ask(IReceive))
  }

  function StepAsk(g: Globals, t: Tid, th: Thread, pc: AskPC, c: Choice): Effect {
    match pc
    case IReceive =>
      var h := g.(rec := Emit(g.rec, HandlerRan(t)));
      if c == AskNow then To(h, th, Ask(AReg)) else To(h, Quit(th, c), Gate(LeaveId(AfterInvoke)))
    case AReg =>
      if c == Go then
        var r := g.asks.nextReq;
        To(g.(asks := Asks(g.asks.pending[r := t], r + 1)), th, Ask(ASusp(r)))
      else To(g, th, Ask(IReceive))
    case ASusp(r) =>
      if th.transferred then To(g, th, Gate(LeaveId(AfterSuspend(r))))
      else Effect(g.(c := SpawnDrainer(g.c)),
                  Some(th.(pc := Gate(LeaveId(AfterSuspend(r))), transferred := true, handoffs := th.handoffs + 1)), true)
    case AWait(r) => To(g, Quit(th, c), Ask(ACancel(r)))
    case ACancel(r) => To(g.(asks := g.asks.(pending := g.asks.pending - {r})), th, Gate(EnterPermit(ToResume)))
  }

  function LocalStep(g: Globals, t: Tid, th: Thread, c: Choice): Effect {
    match th.pc
    case Edge(pc) => StepEdge(g, t, th, pc)
    case Drain(pc) => StepDrain(g, th, pc)
    case Gate(pc) => StepGate(g, t, th, pc)
    case Stop(from, pc) => StepStop(g, th, from, pc, c)
    case Call(pc) => StepCall(g, th, pc, c)
    case Ask(pc) => StepAsk(g, t, th, pc, c)
  }

  /** BaseActor.Ask's check: the published owner is this goroutine and its call is a Receive. */
  datatype Admission = InvalidContext | NotRunning | Admitted

  function AskAdmission(s: State, goid: Tid): Admission {
    if s.g.c.ownerId == 0 || s.g.c.ownerId != goid then InvalidContext
    else if s.g.c.executing in s.threads && s.threads[s.g.c.executing].kind == CallReceive then Admitted
    else NotRunning
  }

  // ------------------------------------------------------------------ the whole system

  datatype Action =
    | Step(t: Tid, c: Choice)
    | NewSender(kind: MsgKind, tellExits: bool)  // some goroutine calls send
    | NewPoisoner                                // some goroutine calls poison
    | Reply(r: nat)                              // deliverReply takes a pending entry

  predicate Enabled(s: State, a: Action) {
    match a
    case Step(t, c) => t in s.threads && CanStep(s.g, s.threads[t], c)
    case NewSender(_, _) => true
    case NewPoisoner => true
    case Reply(r) => r in s.g.asks.pending
  }

  function Apply(s: State, t: Tid, e: Effect): State {
    var ts := match e.next case Some(th) => s.threads[t := th] case None => s.threads - {t};
    State(e.g, if e.spawn then ts[s.g.c.nextTid := FreshDrainer] else ts)
  }

  function AddThread(s: State, mail: Mail, pc: PC): State {
    State(s.g.(c := s.g.c.(nextTid := s.g.c.nextTid + 1), mail := mail), s.threads[s.g.c.nextTid := External(pc)])
  }

  function Next(s: State, a: Action): State
    requires Enabled(s, a)
  {
    match a
    case Step(t, c) => Apply(s, t, LocalStep(s.g, t, s.threads[t], c))
    case NewSender(kind, tellExits) =>
      var m := Msg(s.g.c.nextTid, kind, tellExits);
      AddThread(s, s.g.mail.(issued := s.g.mail.issued[m.id := m]), Edge(SendPush(m)))
    case NewPoisoner => AddThread(s, s.g.mail, Edge(PoisonStore))
    case Reply(r) => s.(g := s.g.(asks := s.g.asks.(pending := s.g.asks.pending - {r})))
  }

  /** A freshly published processor: Initialize is queued, the spawner is about to call init().
      The ring holds at least one message whatever capacity was configured. */
  function Initial(cfg: Config): State {
    var boot := Msg(0, Initialize, false);
    State(
      Globals(cfg,
              Control(Idle, 0, 1, 0, 0, false, Initializing, false, 2, 0, 0),
              Mail([boot], [boot], [], [], [], [], [], [], [], map[], false),
              Record(false, true, [], LifeLog(false, Fresh)),
              Asks(map[], 0)),
      map[1 := External(Edge(Schedule))])
  }

  predicate IsInitial(s: State) { s.g.cfg.maxCap >= 1 && s == Initial(s.g.cfg) }

  /** A run: states joined by enabled actions. */
  ghost predicate IsRun(run: seq<State>, acts: seq<Action>) {
    && |run| == |acts| + 1
    && IsInitial(run[0])
    && forall i :: 0 <= i < |acts| ==> Enabled(run[i], acts[i]) && run[i + 1] == Next(run[i], acts[i])
  }

  ghost predicate Reachable(s: State) {
    exists run, acts :: IsRun(run, acts) && run[|acts|] == s
  }
}
