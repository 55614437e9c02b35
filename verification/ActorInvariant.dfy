/**
  The inductive invariant of the actor: what each goroutine knows about the shared cells at
  each program point, what the shared cells satisfy on their own, the counter as a sum over
  goroutines, and the wake-up that is owed whenever work waits.
*/
module ActorInvariant {
  import opened Options
  import opened ActorModel

  // ------------------------------------------------------------------ table of program points

  /** How far a goroutine is into the gate: outside, holding the permit, with the pointer written,
      with its id published. */
  datatype Depth = Outside | Held | Pointed | Shown

  /** What the role holder relies on at a program point. */
  datatype Need =
    | Settled       // between calls, or past the stop
    | Live          // not stopping
    | Ready         // Started has returned
    | InStart       // registration or Started is running
    | Opening       // stop begun, mailbox still open
    | Closing       // stop begun, mailbox closed
    | Finished      // status stored

  /** Whether a goroutine at this point has handed the drain role over. */
  datatype Handoff = Never | Maybe | Always

  /** One row of the table: is this a drainer's program point, is its message counted in
      `unfinishedCalls`, where in the gate is it, what does the role holder rely on, has the role
      been handed over, and which call kind (if fixed) does its execution record carry. */
  datatype Row = Row(drainer: bool, counted: bool, gate: Depth, need: Need, handoff: Handoff, kind: Option<CallKind>)

  function EnterRow(w: Entry, gate: Depth): Row {
    match w
    case ToStop => Row(true, false, gate, Ready, Never, Some(CallStop))
    case ToInvoke(_) => Row(true, true, gate, Live, Never, None)
    case ToResume => Row(true, true, gate, Ready, Always, Some(CallReceive))
  }

  function LeaveRow(d: Departure, gate: Depth): Row {
    match d
    case AfterStop => Row(true, false, gate, Settled, Never, None)
    case AfterInvoke => Row(true, true, gate, Settled, Maybe, None)
    case AfterSuspend(_) => Row(true, true, gate, Ready, Always, Some(CallReceive))
  }

  function OutRow(handoff: Handoff): Row { Row(false, false, Outside, Settled, handoff, None) }

  function EdgeRow(pc: EdgePC): Row {
    match pc
    case FCas => Row(true, false, Outside, Settled, Never, None)
    case Schedule => OutRow(Maybe)
    case IAfter => OutRow(Always)
    case _ => OutRow(Never)
  }

  function DrainRow(pc: DrainPC): Row {
    match pc
    case DLoad => Row(true, false, Outside, Settled, Never, None)
    case DPop => Row(true, false, Outside, Live, Never, None)
    case DStopReq => Row(true, false, Outside, Ready, Never, None)
    case DUnfin => Row(true, false, Outside, Ready, Never, None)
    case _ => Row(true, false, Shown, Ready, Never, Some(CallStop))
  }

  function GateRow(pc: GatePC): Row {
    match pc
    case EnterPermit(w) => EnterRow(w, Outside)
    case EnterPtr(w) => EnterRow(w, Held)
    case EnterId(w) => EnterRow(w, Pointed)
    case LeaveId(d) => LeaveRow(d, Shown)
    case LeavePtr(d) => LeaveRow(d, Pointed)
    case LeavePermit(d) => LeaveRow(d, Held)
  }

  function StopNeed(pc: StopPC): Need {
    match pc
    case LClose(_) => Opening
    case LPreStop => Closing
    case LUnreg => Closing
    case LStore => Closing
    case _ => Finished
  }

  function CallRow(pc: CallPC): Row {
    match pc
    case IAdd(_) => Row(true, false, Outside, Live, Never, None)
    case IBegin(_) => Row(true, true, Shown, Live, Never, None)
    case IPoisonStore => Row(true, true, Shown, Ready, Never, None)
    case IPoisonSched => Row(true, true, Shown, Ready, Never, None)
    case GRegister => Row(true, true, Shown, InStart, Never, Some(CallStart))
    case GStarted => Row(true, true, Shown, InStart, Never, Some(CallStart))
    case IDec => Row(true, true, Outside, Settled, Maybe, None)
  }

  function AskRow(pc: AskPC): Row {
    if pc.AWait? || pc.ACancel? then Row(true, true, Outside, Ready, Always, Some(CallReceive))
    else Row(true, true, Shown, Ready, Maybe, Some(CallReceive))
  }

  function Table(pc: PC): Row {
    match pc
    case Edge(e) => EdgeRow(e)
    case Drain(d) => DrainRow(d)
    case Gate(x) => GateRow(x)
    case Stop(from, l) => Row(true, from == FromStart, Shown, StopNeed(l), Never, Some(CallStop))
    case Call(i) => CallRow(i)
    case Ask(a) => AskRow(a)
  }

  /** Popped a message, counted it and not yet given it back. */
  predicate Counted(pc: PC) { Table(pc).counted }

  /** Holds the drain role: it may pop, park or stop the actor. */
  predicate Role(th: Thread) { Table(th.pc).drainer && !th.transferred }

  predicate NeedOk(c: Control, n: Need) {
    match n
    case Settled => (c.status == Running && (c.life == Initializing || c.life == Started)) || c.status == Halted
    case Live => c.status == Running && (c.life == Initializing || c.life == Started)
    case Ready => c.status == Running && c.life == Started
    case InStart => c.life == Starting
    case Opening => c.life == Stopping && !c.closed
    case Closing => c.life == Stopping && c.closed
    case Finished => c.status == Halted
  }

  /** Everything about a goroutine that another goroutine's step could disturb. */
  datatype Class = Class(row: Row, transferred: bool)

  function Classify(th: Thread): Class { Class(Table(th.pc), th.transferred) }

  /** In stopIfIdle, or in the stop it runs: after the counter was seen to be zero. */
  predicate SawZero(k: Class) { k.row.drainer && !k.transferred && k.row.kind == Some(CallStop) && !k.row.counted }

  predicate Knows(c: Control, t: Tid, k: Class) {
    && 0 < t < c.nextTid
    && (k.row.drainer && !k.transferred <==> c.role == t)
    && (k.row.gate != Outside <==> c.holder == t)
    && (k.row.gate == Pointed || k.row.gate == Shown <==> c.executing == t)
    && (k.row.gate == Shown <==> c.ownerId == t)
    && (k.row.drainer && !k.transferred ==> NeedOk(c, k.row.need))
    && (k.row.counted && k.transferred ==> c.life == Started)
    && (SawZero(k) ==> c.unfinished == 0)
  }

  /** Facts about a goroutine's own record that no other goroutine can touch. */
  predicate Shape(th: Thread) {
    var row := Table(th.pc);
    && (row.kind.Some? ==> th.kind == row.kind.value)
    && (row.handoff == Never ==> !th.transferred)
    && (row.handoff == Always ==> th.transferred)
    && th.handoffs == (if th.transferred then 1 else 0)
  }

  predicate ThreadInv(c: Control, t: Tid, th: Thread) { Knows(c, t, Classify(th)) && Shape(th) }

  // ------------------------------------------------------------------ shared cells

  predicate ControlInv(c: Control) {
    && c.unfinished >= 0 && c.nextTid >= 2 && c.role < c.nextTid && c.holder < c.nextTid
    && (c.status == Idle ==> c.role == 0)
    && (c.status == Running ==> c.role != 0)
    && (c.status == Halted <==> c.life == Stopped)
    && (c.life == Starting || c.life == Stopping ==> c.status == Running)
    && (c.permits == if c.holder == 0 then 1 else 0)
    && (c.executing == 0 || c.executing == c.holder)
    && (c.ownerId == 0 || c.ownerId == c.holder)
    && (c.closed ==> c.life == Stopping || c.life == Stopped)
    && (c.life == Stopped ==> c.closed)
  }

  // ------------------------------------------------------------------ messages

  function Entering(pc: PC): seq<Msg> {
    match pc
    case Call(IAdd(m)) => [m]
    case Call(IBegin(m)) => [m]
    case Gate(EnterPermit(ToInvoke(m))) => [m]
    case Gate(EnterPtr(ToInvoke(m))) => [m]
    case Gate(EnterId(ToInvoke(m))) => [m]
    case _ => []
  }

  function Dying(pc: PC): seq<Msg> { match pc case Stop(_, LTell(m)) => [m] case Stop(_, LDead(m)) => [m] case _ => [] }

  /** Acceptance order: accepted = started, then the one being entered, then the dead letters of
      the stop, then one that the stop lost, then the queue. Start-up is first, and is the only thing that can start first. */
  predicate MailInv(g: Globals) {
    && g.mail.accepted == g.mail.started + g.mail.inflight + g.mail.dead + g.mail.lost + g.mail.dying + g.mail.queue
    && |g.mail.accepted| > 0 && g.mail.accepted[0].kind == Initialize
    && |g.mail.queue| <= g.cfg.maxCap
    && (g.c.life == Initializing <==> |g.mail.started| == 0)
    && (g.c.life != Stopped ==> |g.mail.dead| == 0 && |g.mail.lost| == 0) && |g.mail.lost| <= 1
    && (g.c.role == 0 ==> g.mail.inflight == [] && g.mail.dying == [])
    && (g.c.role == 0 && g.c.status == Halted ==> |g.mail.queue| == 0 || g.mail.abandoned)
    && (g.mail.abandoned ==> g.c.status == Halted && |g.mail.queue| > 0)
  }

  predicate MailThread(g: Globals, th: Thread) {
    Role(th) ==>
      && g.mail.inflight == Entering(th.pc)
      && g.mail.dying == Dying(th.pc)
      && (g.c.status == Halted && !th.pc.Stop? ==> |g.mail.queue| == 0 || g.mail.abandoned)
      && (th.pc.Stop? ==> !g.mail.abandoned && g.mail.lost == [])
  }

  // ------------------------------------------------------------------ lifecycle log

  /** An owned registration has been given back. */
  predicate Released(g: Globals)
    requires g.rec.life.LifeLog?
  {
    g.rec.owned && g.cfg.hasUnregister ==> g.rec.life.phase == Gone
  }

  predicate LogInv(g: Globals) {
    && g.rec.life.LifeLog? && g.rec.life.registered == g.rec.owned
    && (g.c.life == Initializing ==> g.rec.life == LifeLog(false, Fresh))
    && (g.c.life == Started ==> g.rec.life.phase == Up)
    && (g.c.life == Stopped ==> Released(g))
  }

  /** What the role holder knows about the log. */
  predicate LogThread(g: Globals, th: Thread) {
    Role(th) && g.rec.life.LifeLog? ==>
      match th.pc
      case Call(GRegister) => g.rec.life == LifeLog(false, Fresh)
      case Call(GStarted) => g.rec.life.phase == InStarted
      case Stop(from, LClose(pre)) =>
        && (pre <==> from == FromIdle)
        && (if pre then g.rec.life.phase == Up else g.rec.life.phase == Down || g.rec.life.phase == InStarted)
      case Stop(from, LPreStop) => from == FromIdle && g.rec.life.phase == Down
      case Stop(_, LUnreg) => g.rec.life.phase != Up && g.rec.life.phase != Gone
      case Stop(_, LStore) => Released(g)
      case _ => true
  }

  // ------------------------------------------------------------------ counting goroutines

  ghost function Sum(ts: map<Tid, Thread>, n: nat, w: Thread -> nat): nat {
    if n == 0 then 0
    else Sum(ts, n - 1, w) + (if n - 1 in ts then w(ts[n - 1]) else 0)
  }

  function CountedWeight(th: Thread): nat { if Counted(th.pc) then 1 else 0 }

  ghost predicate CountInv(s: State) { s.g.c.unfinished == Sum(s.threads, s.g.c.nextTid, CountedWeight) }

  // ------------------------------------------------------------------ owed wake-ups

  /** About to run schedule(), or about to look at the mailbox after parking. */
  predicate OwesForQueue(th: Thread) { th.pc == Edge(Schedule) || th.pc == Edge(RLen) }

  /** As above, or about to look at the stop latch or the counter. */
  predicate OwesForStop(th: Thread) {
    OwesForQueue(th) || th.pc == Edge(RStop) || th.pc == Edge(RUnf) || th.pc == Edge(IAfter)
  }

  predicate QueueWaits(g: Globals) { g.c.status == Idle && |g.mail.queue| > 0 }
  predicate StopWaits(g: Globals) { g.c.status == Idle && g.c.stopRequested && g.c.unfinished == 0 }

  ghost predicate WakeInv(s: State) {
    && (QueueWaits(s.g) ==> exists t :: t in s.threads && OwesForQueue(s.threads[t]))
    && (StopWaits(s.g) ==> exists t :: t in s.threads && OwesForStop(s.threads[t]))
  }

  // ------------------------------------------------------------------ pending Asks

  /** The request a goroutine has registered and not yet cancelled. */
  function AskOf(pc: PC): Option<nat> {
    match pc
    case Ask(ASusp(r)) => Some(r)
    case Ask(AWait(r)) => Some(r)
    case Ask(ACancel(r)) => Some(r)
    case Gate(LeaveId(AfterSuspend(r))) => Some(r)
    case Gate(LeavePtr(AfterSuspend(r))) => Some(r)
    case Gate(LeavePermit(AfterSuspend(r))) => Some(r)
    case _ => None
  }

  ghost predicate AskInv(s: State) {
    forall r :: r in s.g.asks.pending ==>
      && r < s.g.asks.nextReq
      && s.g.asks.pending[r] in s.threads
      && AskOf(s.threads[s.g.asks.pending[r]].pc) == Some(r)
  }

  // ------------------------------------------------------------------ all of it

  /** What one goroutine knows. */
  predicate Known(g: Globals, t: Tid, th: Thread) { ThreadInv(g.c, t, th) && MailThread(g, th) && LogThread(g, th) }

  ghost predicate ThreadsInv(s: State) { forall t :: t in s.threads ==> Known(s.g, t, s.threads[t]) }

  /** Whoever holds the role or the permit is a live goroutine. */
  ghost predicate PresentInv(s: State) {
    && (s.g.c.role != 0 ==> s.g.c.role in s.threads)
    && (s.g.c.holder != 0 ==> s.g.c.holder in s.threads)
  }

  predicate SharedInv(g: Globals) {
    g.cfg.maxCap >= 1 && ControlInv(g.c) && MailInv(g) && LogInv(g) && RunLog(g.rec.log) == g.rec.life
  }

  ghost predicate Inv(s: State) {
    SharedInv(s.g) && ThreadsInv(s) && PresentInv(s) && CountInv(s) && WakeInv(s) && AskInv(s)
  }

  // ------------------------------------------------------------------ sums

  lemma {:induction false} SumSame(a: map<Tid, Thread>, b: map<Tid, Thread>, n: nat, w: Thread -> nat)
    requires forall t :: t < n ==> ((t in a <==> t in b) && (t in a ==> a[t] == b[t]))
    ensures Sum(a, n, w) == Sum(b, n, w)
  {
    if n > 0 { SumSame(a, b, n - 1, w); }
  }

  lemma {:induction false} SumRemove(a: map<Tid, Thread>, n: nat, t: Tid, w: Thread -> nat)
    requires t in a && t < n
    ensures Sum(a, n, w) == Sum(a - {t}, n, w) + w(a[t])
  {
    if t == n - 1 { SumSame(a, a - {t}, n - 1, w); } else { SumRemove(a, n - 1, t, w); }
  }

  lemma SumUpdate(a: map<Tid, Thread>, n: nat, t: Tid, th: Thread, w: Thread -> nat)
    requires t in a && t < n
    ensures Sum(a[t := th], n, w) + w(a[t]) == Sum(a, n, w) + w(th)
  {
    SumRemove(a, n, t, w);
    SumRemove(a[t := th], n, t, w);
    SumSame(a - {t}, a[t := th] - {t}, n, w);
  }

  lemma SumAdd(a: map<Tid, Thread>, n: nat, th: Thread, w: Thread -> nat)
    requires n !in a
    ensures Sum(a[n := th], n + 1, w) == Sum(a, n, w) + w(th)
  {
    SumSame(a, a[n := th], n, w);
  }

  /** Effect of one step on any weighted sum over goroutines. */
  lemma SumStep(s: State, t: Tid, e: Effect, w: Thread -> nat)
    requires t in s.threads && t < s.g.c.nextTid && s.g.c.nextTid !in s.threads
    requires e.g.c.nextTid == s.g.c.nextTid + (if e.spawn then 1 else 0)
    ensures Sum(Apply(s, t, e).threads, e.g.c.nextTid, w) + w(s.threads[t])
         == Sum(s.threads, s.g.c.nextTid, w)
            + (if e.next.Some? then w(e.next.value) else 0) + (if e.spawn then w(FreshDrainer) else 0)
  {
    var n := s.g.c.nextTid;
    var ts := match e.next case Some(th) => s.threads[t := th] case None => s.threads - {t};
    match e.next {
      case Some(th) => SumUpdate(s.threads, n, t, th, w);
      case None => SumRemove(s.threads, n, t, w);
    }
    if e.spawn { SumAdd(ts, n, FreshDrainer, w); }
  }
}
