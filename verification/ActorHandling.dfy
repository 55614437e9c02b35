/**
  What a started message makes the actor do: an ordinary one runs Receive, Initialize begins the start,
  a Poison asks for the stop. And what a failed start, a Goexit and an Ask lead to.
*/
module ActorHandling {
  import opened Options
  import opened ActorModel
  import opened ActorInvariant
  import opened ActorPreservation
  import opened ActorSafety
  import opened ActorTheorems
  import opened ActorTermination
  import opened ActorAsk

  // ------------------------------------------------------------------ ordinary messages

  /** The ids of the messages that Receive began on, in order. */
  function Receives(log: seq<Event>): seq<nat> {
    if log == [] then []
    else
      var e := log[|log| - 1];
      Receives(log[..|log| - 1]) + (if e.ReceiveBegin? then [e.id] else [])
  }

  /** The ids of the ordinary messages, in order. */
  function OrdinaryIds(ms: seq<Msg>): seq<nat> {
    if ms == [] then []
    else
      var m := ms[|ms| - 1];
      OrdinaryIds(ms[..|ms| - 1]) + (if m.kind == Ordinary then [m.id] else [])
  }

  lemma ReceivesAppend(log: seq<Event>, e: Event)
    ensures Receives(log + [e]) == Receives(log) + if e.ReceiveBegin? then [e.id] else []
  {
    assert (log + [e])[..|log|] == log;
  }

  lemma OrdinaryAppend(ms: seq<Msg>, m: Msg)
    ensures OrdinaryIds(ms + [m]) == OrdinaryIds(ms) + if m.kind == Ordinary then [m.id] else []
  {
    assert (ms + [m])[..|ms|] == ms;
  }

  predicate Handled(g: Globals) { Receives(g.rec.log) == OrdinaryIds(g.mail.started) }

  /** Besides the start of a message a step adds no Receive. */
  predicate Quiet(g: Globals, h: Globals) { h.mail.started == g.mail.started && Receives(h.rec.log) == Receives(g.rec.log) }

  lemma QuietOutside(g: Globals, t: Tid, th: Thread, c: Choice)
    requires th.pc.Edge? || th.pc.Drain? || th.pc.Gate?
    ensures LocalStep(g, t, th, c).g.rec == g.rec && LocalStep(g, t, th, c).g.mail.started == g.mail.started
  {
    match th.pc {
      case Edge(pc) =>
      case Drain(pc) =>
      case Gate(pc) =>
    }
  }

  lemma QuietStop(g: Globals, th: Thread, from: StopFrom, pc: StopPC, c: Choice)
    ensures Quiet(g, StepStop(g, th, from, pc, c).g)
  {
    ReceivesAppend(g.rec.log, PreStopBegin);
    ReceivesAppend(g.rec.log, Unregistered);
  }

  lemma QuietAsk(g: Globals, t: Tid, th: Thread, pc: AskPC, c: Choice)
    ensures Quiet(g, StepAsk(g, t, th, pc, c).g)
  {
    ReceivesAppend(g.rec.log, HandlerRan(t));
  }

  lemma QuietRegister(g: Globals, th: Thread, c: Choice)
    ensures Quiet(g, StepCall(g, th, GRegister, c).g)
  {
    var log := g.rec.log;
    if c != Go {
      ReceivesAppend(log, RegisterFailed);
      assert StepCall(g, th, GRegister, c).g.rec.log == log + [RegisterFailed];
    } else if g.cfg.hasRegister {
      ReceivesAppend(log, Registered);
      ReceivesAppend(log + [Registered], StartedBegin);
      assert StepCall(g, th, GRegister, c).g.rec.log == log + [Registered] + [StartedBegin];
    } else {
      ReceivesAppend(log, StartedBegin);
      assert StepCall(g, th, GRegister, c).g.rec.log == log + [StartedBegin];
    }
  }

  lemma QuietCall(g: Globals, th: Thread, pc: CallPC, c: Choice)
    requires !pc.IBegin?
    ensures Quiet(g, StepCall(g, th, pc, c).g)
  {
    if pc == GRegister { QuietRegister(g, th, c); } else { ReceivesAppend(g.rec.log, StartedOk); }
  }

  lemma BeginHandles(g: Globals, th: Thread, m: Msg, c: Choice)
    requires Handled(g)
    ensures Handled(StepCall(g, th, IBegin(m), c).g)
  {
    OrdinaryAppend(g.mail.started, m);
    ReceivesAppend(g.rec.log, ReceiveBegin(m.id));
  }

  lemma HandledLocal(g: Globals, t: Tid, th: Thread, c: Choice)
    requires Handled(g)
    ensures Handled(LocalStep(g, t, th, c).g)
  {
    match th.pc {
      case Stop(from, pc) => QuietStop(g, th, from, pc, c);
      case Ask(pc) => QuietAsk(g, t, th, pc, c);
      case Call(pc) => if pc.IBegin? { BeginHandles(g, th, pc.m, c); } else { QuietCall(g, th, pc, c); }
      case _ => QuietOutside(g, t, th, c);
    }
  }

  // ------------------------------------------------------------------ steps still to be taken

  /** Somebody stands at such a point. */
  ghost predicate SomeoneAt(s: State, at: PC -> bool) { exists t :: t in s.threads && at(s.threads[t].pc) }

  /** What is owed is done, or somebody stands where it is done next. */
  ghost predicate DoneOrNext(s: State, owed: Globals -> bool, at: PC -> bool) { owed(s.g) ==> SomeoneAt(s, at) }

  /** What a step leaves owing is owed at the mover's next point, or was already owed elsewhere. */
  predicate OwesOn(g: Globals, th: Thread, e: Effect, owed: Globals -> bool, at: PC -> bool) {
    owed(e.g) ==> (e.next.Some? && at(e.next.value.pc)) || (owed(g) && !at(th.pc))
  }

  lemma OwedStep(s: State, t: Tid, c: Choice, owed: Globals -> bool, at: PC -> bool)
    requires Inv(s) && Enabled(s, Step(t, c)) && DoneOrNext(s, owed, at)
    requires OwesOn(s.g, s.threads[t], LocalStep(s.g, t, s.threads[t], c), owed, at)
    ensures DoneOrNext(Next(s, Step(t, c)), owed, at)
  {
    var e := LocalStep(s.g, t, s.threads[t], c);
    var s' := Next(s, Step(t, c));
    if owed(e.g) {
      FreshIsUnused(s);
      if e.next.Some? && at(e.next.value.pc) {
        assert t in s'.threads && at(s'.threads[t].pc);
      } else {
        var u :| u in s.threads && at(s.threads[u].pc);
        Unmoved(s, t, e, u);
        assert u in s'.threads && at(s'.threads[u].pc);
      }
    }
  }

  // a started Poison that has not asked for the stop yet
  predicate PoisonOwed(g: Globals) { (exists m :: m in g.mail.started && m.kind == Poison) && !g.c.stopRequested }
  predicate AtPoison(pc: PC) { pc == Call(IPoisonStore) }

  // a started actor that has neither begun nor failed to start
  predicate StartOwed(g: Globals) { g.mail.started != [] && RegisterFailed !in g.rec.log && StartedBegin !in g.rec.log }
  predicate AtStart(pc: PC) { pc == Call(GRegister) }

  // a stopped actor that is still in the registry
  predicate RemoveOwed(g: Globals) { g.c.status == Halted && g.rec.published }
  predicate AtRemove(pc: PC) { pc.Stop? && pc.l == LRemove }

  /** The message list, the log and the latch only grow. */
  lemma OutsideOwes(g: Globals, t: Tid, th: Thread, c: Choice)
    requires th.pc.Edge? || th.pc.Drain? || th.pc.Gate?
    ensures var e := LocalStep(g, t, th, c);
            && OwesOn(g, th, e, PoisonOwed, AtPoison) && OwesOn(g, th, e, StartOwed, AtStart) && OwesOn(g, th, e, RemoveOwed, AtRemove)
  {
    var e := LocalStep(g, t, th, c);
    QuietOutside(g, t, th, c);
    LatchStays(g, t, th, c);
    assert e.g.c.status == Halted ==> g.c.status == Halted by {
      match th.pc {
        case Edge(pc) =>
        case Drain(pc) =>
        case Gate(pc) =>
      }
    }
  }

  lemma LatchStays(g: Globals, t: Tid, th: Thread, c: Choice)
    ensures g.c.stopRequested ==> LocalStep(g, t, th, c).g.c.stopRequested
  {
    match th.pc {
      case Edge(pc) =>
      case Drain(pc) =>
      case Gate(pc) =>
      case Stop(_, pc) =>
      case Call(pc) =>
      case Ask(pc) =>
    }
  }

  lemma FinalOwes(g: Globals, t: Tid, th: Thread, c: Choice)
    requires th.pc.Stop? && (th.pc.l.LDrain? || th.pc.l.LTell? || th.pc.l.LDead?)
    ensures var e := LocalStep(g, t, th, c);
            && OwesOn(g, th, e, PoisonOwed, AtPoison) && OwesOn(g, th, e, StartOwed, AtStart) && OwesOn(g, th, e, RemoveOwed, AtRemove)
  {
  }

  lemma StopOwes(g: Globals, t: Tid, th: Thread, c: Choice)
    requires th.pc.Stop?
    ensures var e := LocalStep(g, t, th, c);
            && OwesOn(g, th, e, PoisonOwed, AtPoison) && OwesOn(g, th, e, StartOwed, AtStart) && OwesOn(g, th, e, RemoveOwed, AtRemove)
  {
    if th.pc.l.LDrain? || th.pc.l.LTell? || th.pc.l.LDead? { FinalOwes(g, t, th, c); }
  }

  lemma AskOwes(g: Globals, t: Tid, th: Thread, c: Choice)
    requires th.pc.Ask?
    ensures var e := LocalStep(g, t, th, c);
            && OwesOn(g, th, e, PoisonOwed, AtPoison) && OwesOn(g, th, e, StartOwed, AtStart) && OwesOn(g, th, e, RemoveOwed, AtRemove)
  {
  }

  lemma RegisterOwes(g: Globals, t: Tid, th: Thread, c: Choice)
    requires th.pc == Call(GRegister)
    ensures var e := LocalStep(g, t, th, c);
            && OwesOn(g, th, e, PoisonOwed, AtPoison) && OwesOn(g, th, e, StartOwed, AtStart) && OwesOn(g, th, e, RemoveOwed, AtRemove)
  {
  }

  lemma CallOwes(g: Globals, t: Tid, th: Thread, c: Choice)
    requires th.pc.Call? && !th.pc.i.IBegin?
    ensures var e := LocalStep(g, t, th, c);
            && OwesOn(g, th, e, PoisonOwed, AtPoison) && OwesOn(g, th, e, StartOwed, AtStart) && OwesOn(g, th, e, RemoveOwed, AtRemove)
  {
    if th.pc == Call(GRegister) { RegisterOwes(g, t, th, c); }
  }

  /** The first message starts the actor, and a Poison goes on to set the latch. */
  lemma BeginOwes(g: Globals, t: Tid, th: Thread, c: Choice)
    requires th.pc.Call? && th.pc.i.IBegin? && MailInv(g) && BootFirst(g, th)
    ensures var e := LocalStep(g, t, th, c);
            && OwesOn(g, th, e, PoisonOwed, AtPoison) && OwesOn(g, th, e, StartOwed, AtStart) && OwesOn(g, th, e, RemoveOwed, AtRemove)
  {
  }

  lemma LocalOwes(g: Globals, t: Tid, th: Thread, c: Choice)
    requires MailInv(g) && BootFirst(g, th)
    ensures var e := LocalStep(g, t, th, c);
            && OwesOn(g, th, e, PoisonOwed, AtPoison) && OwesOn(g, th, e, StartOwed, AtStart) && OwesOn(g, th, e, RemoveOwed, AtRemove)
  {
    match th.pc {
      case Stop(_, _) => StopOwes(g, t, th, c);
      case Ask(_) => AskOwes(g, t, th, c);
      case Call(pc) => if pc.IBegin? { BeginOwes(g, t, th, c); } else { CallOwes(g, t, th, c); }
      case _ => OutsideOwes(g, t, th, c);
    }
  }

  // ------------------------------------------------------------------ registration and registry

  /** Started runs only after a successful registration where one is configured; and the registry entry is
      kept until the stop. */
  predicate RegistersFirst(g: Globals) {
    && (StartedBegin in g.rec.log && g.cfg.hasRegister ==> Registered in g.rec.log)
    && (Registered in g.rec.log || RegisterFailed in g.rec.log ==> g.cfg.hasRegister)
    && (g.c.status != Halted ==> g.rec.published)
  }

  lemma RegistersCall(g: Globals, th: Thread, pc: CallPC, c: Choice)
    requires RegistersFirst(g) && CanStep(g, th, c) && th.pc == Call(pc)
    ensures RegistersFirst(StepCall(g, th, pc, c).g)
  {
  }

  lemma RegistersStop(g: Globals, th: Thread, from: StopFrom, pc: StopPC, c: Choice)
    requires RegistersFirst(g) && (pc == LRemove ==> g.c.status == Halted)
    ensures RegistersFirst(StepStop(g, th, from, pc, c).g)
  {
  }

  lemma RegistersLocal(g: Globals, t: Tid, th: Thread, c: Choice)
    requires RegistersFirst(g) && CanStep(g, th, c) && ThreadInv(g.c, t, th) && LocalStep(g, t, th, c).g.cfg == g.cfg
    ensures RegistersFirst(LocalStep(g, t, th, c).g)
  {
    match th.pc {
      case Call(pc) => RegistersCall(g, th, pc, c);
      case Stop(from, pc) => RegistersStop(g, th, from, pc, c);
      case Ask(pc) =>
      case _ => RegistersOutside(g, t, th, c);
    }
  }

  lemma RegistersOutside(g: Globals, t: Tid, th: Thread, c: Choice)
    requires RegistersFirst(g) && (th.pc.Edge? || th.pc.Drain? || th.pc.Gate?) && LocalStep(g, t, th, c).g.cfg == g.cfg
    ensures RegistersFirst(LocalStep(g, t, th, c).g)
  {
    QuietOutside(g, t, th, c);
    if g.c.status == Halted { HaltedLocal(g, t, th, c); }
  }

  // ------------------------------------------------------------------ over runs

  ghost predicate HandlingInv(s: State) {
    && Handled(s.g) && RegistersFirst(s.g)
    && DoneOrNext(s, PoisonOwed, AtPoison) && DoneOrNext(s, StartOwed, AtStart) && DoneOrNext(s, RemoveOwed, AtRemove)
  }

  lemma HandlingStep(s: State, t: Tid, c: Choice)
    requires Inv(s) && HandlingInv(s) && Enabled(s, Step(t, c))
    ensures HandlingInv(Next(s, Step(t, c)))
  {
    var th := s.threads[t];
    assert Known(s.g, t, th);
    assert BootFirst(s.g, th) by { BootIsFirst(s, t); }
    assert LocalStep(s.g, t, th, c).g.cfg == s.g.cfg by { BeforeStep(s, t, c); CellsStep(s.g, t, th, c); }
    HandledLocal(s.g, t, th, c);
    RegistersLocal(s.g, t, th, c);
    LocalOwes(s.g, t, th, c);
    OwedStep(s, t, c, PoisonOwed, AtPoison);
    OwedStep(s, t, c, StartOwed, AtStart);
    OwedStep(s, t, c, RemoveOwed, AtRemove);
  }

  lemma SomeoneStays(s: State, a: Action, at: PC -> bool)
    requires Inv(s) && Enabled(s, a) && !a.Step? && SomeoneAt(s, at)
    ensures SomeoneAt(Next(s, a), at)
  {
    FreshIsUnused(s);
    var t :| t in s.threads && at(s.threads[t].pc);
    assert t in Next(s, a).threads && at(Next(s, a).threads[t].pc);
  }

  lemma HandlingNext(s: State, a: Action)
    requires Inv(s) && HandlingInv(s) && Enabled(s, a)
    ensures HandlingInv(Next(s, a))
  {
    if a.Step? {
      HandlingStep(s, a.t, a.c);
    } else {
      var h := Next(s, a).g;
      assert h.rec == s.g.rec && h.mail.started == s.g.mail.started && h.cfg == s.g.cfg;
      assert h.c.status == s.g.c.status && h.c.stopRequested == s.g.c.stopRequested;
      if PoisonOwed(h) { SomeoneStays(s, a, AtPoison); }
      if StartOwed(h) { SomeoneStays(s, a, AtStart); }
      if RemoveOwed(h) { SomeoneStays(s, a, AtRemove); }
    }
  }

  lemma {:induction false} RunHandling(run: seq<State>, acts: seq<Action>, n: nat)
    requires IsRun(run, acts) && n <= |acts|
    ensures HandlingInv(run[n])
  {
    if n > 0 {
      RunHandling(run, acts, n - 1);
      RunInv(run, acts, n - 1);
      HandlingNext(run[n - 1], acts[n - 1]);
    }
  }

  lemma ReachableHandling(s: State)
    requires Reachable(s)
    ensures Inv(s) && HandlingInv(s)
  {
    var run, acts :| IsRun(run, acts) && run[|acts|] == s;
    RunInv(run, acts, |acts|);
    RunHandling(run, acts, |acts|);
  }

  // ------------------------------------------------------------------ what it means for messages

  /** In every run Receive has begun on exactly the ordinary messages that were started, in that order. */
  lemma StartedIsReceived(s: State)
    requires Reachable(s)
    ensures Receives(s.g.rec.log) == OrdinaryIds(s.g.mail.started)
  {
    ReachableHandling(s);
  }

  /** The step that begins a Receive brings the goroutine into the handler. */
  lemma ReceiveRunsTheHandler(s: State, t: Tid, c: Choice, id: nat)
    requires Reachable(s) && Enabled(s, Step(t, c)) && Next(s, Step(t, c)).g.rec.log == s.g.rec.log + [ReceiveBegin(id)]
    ensures var s' := Next(s, Step(t, c)); t in s'.threads && s'.threads[t].pc == Ask(IReceive) && s'.threads[t].kind == CallReceive
  {
    ReachableInv(s);
    ReceiveStep(s, t, c, id);
  }

  lemma ReceiveStep(s: State, t: Tid, c: Choice, id: nat)
    requires Inv(s) && Enabled(s, Step(t, c)) && Next(s, Step(t, c)).g.rec.log == s.g.rec.log + [ReceiveBegin(id)]
    ensures var s' := Next(s, Step(t, c)); t in s'.threads && s'.threads[t].pc == Ask(IReceive) && s'.threads[t].kind == CallReceive
  {
    FreshIsUnused(s);
    ReceiveFrom(s.g, t, s.threads[t], c, id);
  }

  lemma ReceiveFrom(g: Globals, t: Tid, th: Thread, c: Choice, id: nat)
    requires LocalStep(g, t, th, c).g.rec.log == g.rec.log + [ReceiveBegin(id)]
    ensures var n := LocalStep(g, t, th, c).next; n.Some? && n.value.pc == Ask(IReceive) && n.value.kind == CallReceive
  {
    ReceivesAppend(g.rec.log, ReceiveBegin(id));
    match th.pc {
      case Stop(from, pc) => QuietStop(g, th, from, pc, c);
      case Ask(pc) => QuietAsk(g, t, th, pc, c);
      case Call(pc) => if !pc.IBegin? { QuietCall(g, th, pc, c); }
      case _ => QuietOutside(g, t, th, c);
    }
  }

  /** And there the handler's code runs, as the one permit holder, in its next step, however that ends. */
  lemma HandlerStep(s: State, t: Tid, c: Choice)
    requires Reachable(s) && t in s.threads && s.threads[t].pc == Ask(IReceive)
    ensures Enabled(s, Step(t, c)) && Next(s, Step(t, c)).g.rec.log == s.g.rec.log + [HandlerRan(t)]
    ensures PermitHolders(s) == {t}
  {
    ReachableInv(s);
    ShownIsHolder(s, t);
  }

  /** When an actor that is not stopped comes to rest, Receive has run on every ordinary message it ever
      accepted, once each and in acceptance order, and no stop was asked for. */
  lemma RestHasHandledAll(s: State)
    requires Reachable(s) && Quiescent(s) && s.g.c.status != Halted
    ensures Receives(s.g.rec.log) == OrdinaryIds(s.g.mail.accepted) && s.g.mail.accepted == s.g.mail.started
    ensures !s.g.c.stopRequested && forall m :: m in s.g.mail.accepted ==> m.kind != Poison
  {
    ReachableHandling(s);
    RestIsClean(s);
    assert s.g.c.life != Stopped;
    NothingLeft(s.g.mail);
    assert !PoisonOwed(s.g) by { assert !SomeoneAt(s, AtPoison); }
  }

  lemma NothingLeft(m: Mail)
    requires m.accepted == m.started + m.dead + m.lost + m.queue && |m.dead| == 0 && |m.lost| == 0 && m.queue == []
    ensures m.accepted == m.started
  {
    assert m.dead == [] && m.lost == [];
    assert m.started + [] + [] + [] == m.started;
  }

  /** When an actor that was given the start-up message comes to rest it has begun to start or failed to
      register; and Started has run only after a registration where one is configured. */
  lemma StartIsMade(s: State)
    requires Reachable(s) && Quiescent(s)
    ensures s.g.mail.started != [] ==> RegisterFailed in s.g.rec.log || StartedBegin in s.g.rec.log
    ensures StartedBegin in s.g.rec.log && s.g.cfg.hasRegister ==> Registered in s.g.rec.log
    ensures Registered in s.g.rec.log || RegisterFailed in s.g.rec.log ==> s.g.cfg.hasRegister
  {
    ReachableHandling(s);
    RestIsClean(s);
    assert !SomeoneAt(s, AtStart);
  }

  /** The registry entry is there until the stop stores its status, and gone when the stop is over. */
  lemma RemovedExactlyByStop(s: State)
    requires Reachable(s)
    ensures s.g.c.status != Halted ==> s.g.rec.published
    ensures s.g.c.status == Halted && RoleHolders(s) == {} ==> !s.g.rec.published
  {
    ReachableHandling(s);
    if s.g.c.status == Halted && s.g.rec.published {
      var t :| t in s.threads && AtRemove(s.threads[t].pc);
      assert Known(s.g, t, s.threads[t]);
      assert t in RoleHolders(s);
    }
  }

  // ------------------------------------------------------------------ a Poison is kept

  /** The poisoner has set the latch or is about to. */
  predicate PoisonKept(s: State, p: Tid) {
    s.g.c.stopRequested || (p in s.threads && s.threads[p].pc == Edge(PoisonStore))
  }

  lemma PoisonKeptNext(s: State, a: Action, p: Tid)
    requires Inv(s) && Enabled(s, a) && PoisonKept(s, p)
    ensures PoisonKept(Next(s, a), p)
  {
    FreshIsUnused(s);
    if a.Step? {
      LatchStays(s.g, a.t, s.threads[a.t], a.c);
      if p in s.threads && p != a.t { Unmoved(s, a.t, LocalStep(s.g, a.t, s.threads[a.t], a.c), p); }
    }
  }

  lemma {:induction false} PoisonKeptOver(run: seq<State>, acts: seq<Action>, i: nat, n: nat)
    requires IsRun(run, acts) && i < n <= |acts| && acts[i] == NewPoisoner
    ensures PoisonKept(run[n], run[i].g.c.nextTid)
    decreases n
  {
    var p := run[i].g.c.nextTid;
    if i + 1 < n {
      PoisonKeptOver(run, acts, i, n - 1);
      PoisonRunStep(run, acts, n - 1, p);
    } else {
      PoisonBegins(run[i]);
    }
  }

  lemma PoisonBegins(s: State)
    ensures PoisonKept(Next(s, NewPoisoner), s.g.c.nextTid)
  {
  }

  lemma PoisonRunStep(run: seq<State>, acts: seq<Action>, k: nat, p: Tid)
    requires IsRun(run, acts) && k < |acts| && PoisonKept(run[k], p)
    ensures PoisonKept(run[k + 1], p)
  {
    RunInv(run, acts, k);
    PoisonKeptNext(run[k], acts[k], p);
  }

  /** Whoever poisons an actor stops it: a run with a Poison, by call or by an accepted message, that comes
      to rest has the actor stopped. */
  lemma PoisonStops(run: seq<State>, acts: seq<Action>, n: nat)
    requires IsRun(run, acts) && n <= |acts| && Quiescent(run[n])
    requires NewPoisoner in acts[..n] || exists m :: m in run[n].g.mail.accepted && m.kind == Poison
    ensures run[n].g.c.status == Halted
  {
    assert IsRun(run[..n + 1], acts[..n]) && run[..n + 1][n] == run[n];
    assert Reachable(run[n]);
    RestIsClean(run[n]);
    if NewPoisoner in acts[..n] {
      var i :| 0 <= i < n && acts[..n][i] == NewPoisoner;
      PoisonKeptOver(run, acts, i, n);
    } else if run[n].g.c.status != Halted {
      RestHasHandledAll(run[n]);
    }
  }

  // ------------------------------------------------------------------ a failed start

  /** The actor is stopping or stopped and Started never returned. */
  predicate NeverUp(g: Globals) { (g.c.life == Stopping || g.c.life == Stopped) && StartedOk !in g.rec.log }

  lemma NeverUpInside(g: Globals, t: Tid, th: Thread, c: Choice)
    requires NeverUp(g) && Known(g, t, th) && (th.pc.Stop? || th.pc.Call? || th.pc.Ask?)
    ensures NeverUp(LocalStep(g, t, th, c).g)
  {
    match th.pc {
      case Stop(_, pc) =>
      case Call(pc) =>
      case Ask(pc) =>
    }
  }

  lemma NeverUpLocal(g: Globals, t: Tid, th: Thread, c: Choice)
    requires NeverUp(g) && Known(g, t, th)
    ensures NeverUp(LocalStep(g, t, th, c).g)
  {
    match th.pc {
      case Edge(pc) =>
      case Drain(pc) =>
      case Gate(pc) =>
      case _ => NeverUpInside(g, t, th, c);
    }
  }

  lemma NeverUpNext(s: State, a: Action)
    requires Inv(s) && Enabled(s, a) && NeverUp(s.g)
    ensures NeverUp(Next(s, a).g)
  {
    if a.Step? {
      assert Known(s.g, a.t, s.threads[a.t]);
      NeverUpLocal(s.g, a.t, s.threads[a.t], a.c);
    }
  }

  /** A hook of the start that does not return normally. */
  predicate FailsToStart(s: State, a: Action) {
    a.Step? && a.c != Go && a.t in s.threads && (s.threads[a.t].pc == Call(GRegister) || s.threads[a.t].pc == Call(GStarted))
  }

  lemma FailureStops(s: State, a: Action)
    requires Inv(s) && Enabled(s, a) && FailsToStart(s, a)
    ensures NeverUp(Next(s, a).g)
  {
    assert Known(s.g, a.t, s.threads[a.t]);
    RunSummary(s.g.rec.log);
  }

  /** Over every run: once registration or Started has failed, panicked or called Goexit, the actor is
      stopping or stopped for good and Started never counts as returned. */
  lemma {:induction false} FailedStartStops(run: seq<State>, acts: seq<Action>, i: nat, n: nat)
    requires IsRun(run, acts) && i < n <= |acts| && FailsToStart(run[i], acts[i])
    ensures NeverUp(run[n].g)
    decreases n
  {
    if i + 1 < n { FailedStartStops(run, acts, i, n - 1); }
    NeverUpRunStep(run, acts, n - 1);
  }

  lemma NeverUpRunStep(run: seq<State>, acts: seq<Action>, k: nat)
    requires IsRun(run, acts) && k < |acts| && (NeverUp(run[k].g) || FailsToStart(run[k], acts[k]))
    ensures NeverUp(run[k + 1].g)
  {
    RunInv(run, acts, k);
    if NeverUp(run[k].g) { NeverUpNext(run[k], acts[k]); } else { FailureStops(run[k], acts[k]); }
  }

  // ------------------------------------------------------------------ Goexit

  /** Not in the drain loop, nor on the way into it or into the recheck for a stop. */
  predicate OutOfLoop(pc: PC) {
    match pc
    case Drain(_) => false
    case Gate(EnterPermit(w)) => w != ToStop
    case Gate(EnterPtr(w)) => w != ToStop
    case Gate(EnterId(w)) => w != ToStop
    case _ => true
  }

  predicate Leaves(th: Thread) { th.exiting && OutOfLoop(th.pc) }

  lemma LeavesCall(g: Globals, t: Tid, th: Thread, c: Choice)
    requires (th.pc.Stop? || th.pc.Call?) && (th.exiting || (c == Exit && CanStep(g, th, c)))
    ensures var n := LocalStep(g, t, th, c).next; n.Some? ==> Leaves(n.value)
  {
    match th.pc {
      case Stop(_, pc) =>
      case Call(pc) =>
    }
  }

  lemma LeavesLocal(g: Globals, t: Tid, th: Thread, c: Choice)
    requires Leaves(th) || (c == Exit && CanStep(g, th, c))
    ensures var n := LocalStep(g, t, th, c).next; n.Some? ==> Leaves(n.value)
  {
    match th.pc {
      case Edge(pc) =>
      case Gate(pc) =>
      case Drain(pc) =>
      case Ask(pc) =>
      case _ => LeavesCall(g, t, th, c);
    }
  }

  lemma LeavesNext(s: State, a: Action, t: Tid)
    requires Inv(s) && Enabled(s, a) && t < s.g.c.nextTid && t in Next(s, a).threads
    requires (t in s.threads && Leaves(s.threads[t])) || a == Step(t, Exit)
    ensures Leaves(Next(s, a).threads[t])
  {
    if a.Step? && a.t == t { LeavesLocal(s.g, t, s.threads[t], a.c); }
  }

  lemma TidsGrow(s: State, a: Action)
    requires Inv(s) && Enabled(s, a)
    ensures Next(s, a).g.c.nextTid >= s.g.c.nextTid
  {
    if a.Step? {
      BeforeStep(s, a.t, a.c);
      CellsStep(s.g, a.t, s.threads[a.t], a.c);
    }
  }

  /** A goroutine that called Goexit and is still there is on its way out. */
  ghost predicate Going(s: State, t: Tid) { t < s.g.c.nextTid && (t in s.threads ==> Leaves(s.threads[t])) }

  lemma GoingNext(s: State, a: Action, t: Tid)
    requires Inv(s) && Enabled(s, a) && (Going(s, t) || a == Step(t, Exit))
    ensures Going(Next(s, a), t)
  {
    TidsGrow(s, a);
    if a == Step(t, Exit) { assert Known(s.g, t, s.threads[t]); }
    if t in Next(s, a).threads {
      FreshIsUnused(s);
      LeavesNext(s, a, t);
    }
  }

  /** Over every run: a goroutine that called Goexit finishes its call and never drains again. */
  lemma {:induction false} GoexitEndsDraining(run: seq<State>, acts: seq<Action>, i: nat, n: nat, t: Tid)
    requires IsRun(run, acts) && i < n <= |acts| && acts[i] == Step(t, Exit)
    ensures Going(run[n], t)
    decreases n
  {
    if i + 1 < n { GoexitEndsDraining(run, acts, i, n - 1, t); }
    GoingRunStep(run, acts, n - 1, t);
  }

  lemma GoingRunStep(run: seq<State>, acts: seq<Action>, k: nat, t: Tid)
    requires IsRun(run, acts) && k < |acts| && (Going(run[k], t) || acts[k] == Step(t, Exit))
    ensures Going(run[k + 1], t)
  {
    RunInv(run, acts, k);
    GoingNext(run[k], acts[k], t);
  }

  // ------------------------------------------------------------------ an Ask stays registered

  /** Each open request is its goroutine's own, in the table unless a reply took it. */
  ghost predicate AskHeld(s: State, replied: iset<nat>) {
    && IdsIssued(s)
    && AskApart(s.threads)
    && (forall t :: t in s.threads && AskOf(s.threads[t].pc).Some? ==> HeldOrReplied(s.g, t, AskOf(s.threads[t].pc).value, replied))
  }

  ghost predicate HeldOrReplied(g: Globals, t: Tid, r: nat, replied: iset<nat>) {
    (r in g.asks.pending && g.asks.pending[r] == t) || r in replied
  }

  /** A step opens only its own request and takes only its own entry away. */
  predicate HeldOn(g: Globals, t: Tid, th: Thread, e: Effect) {
    && (forall r :: r in g.asks.pending && AskOf(th.pc) != Some(r) && r < g.asks.nextReq ==>
          r in e.g.asks.pending && e.g.asks.pending[r] == g.asks.pending[r])
    && (e.next.Some? && AskOf(e.next.value.pc).Some? ==>
          var r := AskOf(e.next.value.pc).value;
          || (r in e.g.asks.pending && e.g.asks.pending[r] == t)
          || (AskOf(th.pc) == Some(r) && (r in g.asks.pending && g.asks.pending[r] == t ==> r in e.g.asks.pending && e.g.asks.pending[r] == t)))
  }

  lemma HeldGate(g: Globals, t: Tid, th: Thread, c: Choice)
    requires th.pc.Gate?
    ensures HeldOn(g, t, th, LocalStep(g, t, th, c))
  {
  }

  lemma HeldAsk(g: Globals, t: Tid, th: Thread, c: Choice)
    requires th.pc.Ask?
    ensures HeldOn(g, t, th, LocalStep(g, t, th, c))
  {
  }

  lemma HeldLocal(g: Globals, t: Tid, th: Thread, c: Choice)
    ensures HeldOn(g, t, th, LocalStep(g, t, th, c))
  {
    match th.pc {
      case Gate(_) => HeldGate(g, t, th, c);
      case Ask(_) => HeldAsk(g, t, th, c);
      case _ => HeldOutside(g, t, th, c);
    }
  }

  lemma HeldOutside(g: Globals, t: Tid, th: Thread, c: Choice)
    requires !th.pc.Gate? && !th.pc.Ask?
    ensures HeldOn(g, t, th, LocalStep(g, t, th, c))
  {
    AskOutside(g, t, th, c);
    IdsLocal(g, t, th, c);
  }

  /** No two goroutines share a request. */
  ghost predicate AskApart(ts: map<Tid, Thread>) {
    forall t, u :: t in ts && u in ts && AskOf(ts[t].pc).Some? && AskOf(ts[t].pc) == AskOf(ts[u].pc) ==> t == u
  }

  lemma ApartStep(s: State, t: Tid, c: Choice)
    requires Inv(s) && IdsIssued(s) && AskApart(s.threads) && Enabled(s, Step(t, c))
    ensures AskApart(Next(s, Step(t, c)).threads)
  {
    FreshIsUnused(s);
    IdsLocal(s.g, t, s.threads[t], c);
  }

  lemma HeldStep(s: State, t: Tid, c: Choice, replied: iset<nat>, u: Tid)
    requires Inv(s) && AskHeld(s, replied) && Enabled(s, Step(t, c))
    requires u in Next(s, Step(t, c)).threads && AskOf(Next(s, Step(t, c)).threads[u].pc).Some?
    ensures HeldOrReplied(Next(s, Step(t, c)).g, u, AskOf(Next(s, Step(t, c)).threads[u].pc).value, replied)
  {
    HeldLocal(s.g, t, s.threads[t], c);
    if u != t { HeldByOther(s, t, c, replied, u); } else {
      FreshIsUnused(s);
      if AskOf(s.threads[t].pc).Some? { assert HeldOrReplied(s.g, t, AskOf(s.threads[t].pc).value, replied); }
    }
  }

  lemma HeldByOther(s: State, t: Tid, c: Choice, replied: iset<nat>, u: Tid)
    requires Inv(s) && AskHeld(s, replied) && Enabled(s, Step(t, c)) && u != t
    requires HeldOn(s.g, t, s.threads[t], LocalStep(s.g, t, s.threads[t], c))
    requires u in Next(s, Step(t, c)).threads && AskOf(Next(s, Step(t, c)).threads[u].pc).Some?
    ensures HeldOrReplied(Next(s, Step(t, c)).g, u, AskOf(Next(s, Step(t, c)).threads[u].pc).value, replied)
  {
    assert u in s.threads && Next(s, Step(t, c)).threads[u] == s.threads[u];
    assert HeldOrReplied(s.g, u, AskOf(s.threads[u].pc).value, replied);
  }

  lemma AskHeldStep(s: State, t: Tid, c: Choice, replied: iset<nat>)
    requires Inv(s) && AskHeld(s, replied) && Enabled(s, Step(t, c))
    ensures AskHeld(Next(s, Step(t, c)), replied)
  {
    var s' := Next(s, Step(t, c));
    assert IdsIssued(s') by { IdsStep(s, t, c); }
    assert AskApart(s'.threads) by { ApartStep(s, t, c); }
    forall u | u in s'.threads && AskOf(s'.threads[u].pc).Some?
      ensures HeldOrReplied(s'.g, u, AskOf(s'.threads[u].pc).value, replied)
    {
      HeldStep(s, t, c, replied, u);
    }
  }

  lemma AskHeldNext(s: State, a: Action, replied: iset<nat>, replied': iset<nat>)
    requires Inv(s) && AskHeld(s, replied) && Enabled(s, a) && replied <= replied' && (a.Reply? ==> a.r in replied')
    ensures AskHeld(Next(s, a), replied')
  {
    if a.Step? {
      AskHeldStep(s, a.t, a.c, replied);
      AskHeldMore(Next(s, a), replied, replied');
    } else {
      AskHeldOther(s, a, replied, replied');
    }
  }

  lemma AskHeldMore(s: State, replied: iset<nat>, replied': iset<nat>)
    requires AskHeld(s, replied) && replied <= replied'
    ensures AskHeld(s, replied')
  {
  }

  lemma AskHeldOther(s: State, a: Action, replied: iset<nat>, replied': iset<nat>)
    requires Inv(s) && AskHeld(s, replied) && !a.Step? && Enabled(s, a) && replied <= replied' && (a.Reply? ==> a.r in replied')
    ensures AskHeld(Next(s, a), replied')
  {
    FreshIsUnused(s);
  }

  ghost function Replied(acts: seq<Action>, n: nat): iset<nat>
    requires n <= |acts|
  {
    iset r | Reply(r) in acts[..n]
  }

  lemma {:induction false} RunAskHeld(run: seq<State>, acts: seq<Action>, n: nat)
    requires IsRun(run, acts) && n <= |acts|
    ensures AskHeld(run[n], Replied(acts, n))
  {
    if n > 0 {
      RunAskHeld(run, acts, n - 1);
      RunInv(run, acts, n - 1);
      assert acts[..n] == acts[..n - 1] + [acts[n - 1]];
      AskHeldNext(run[n - 1], acts[n - 1], Replied(acts, n - 1), Replied(acts, n));
    }
  }

  /** Over every run: from registration to cancellation a handler's request is in the pending table as its
      own, unless a reply has taken it. */
  lemma AskStaysRegistered(run: seq<State>, acts: seq<Action>, n: nat, t: Tid, r: nat)
    requires IsRun(run, acts) && n <= |acts| && t in run[n].threads && AskOf(run[n].threads[t].pc) == Some(r)
    ensures (r in run[n].g.asks.pending && run[n].g.asks.pending[r] == t) || Reply(r) in acts[..n]
  {
    RunAskHeld(run, acts, n);
    assert HeldOrReplied(run[n].g, t, r, Replied(acts, n));
  }

  // ------------------------------------------------------------------ an Ask from the handler

  /** Where a goroutine is after its own steps with nobody else moving; None when one of them ends it or is
      not possible. */
  function Path(g: Globals, t: Tid, th: Thread, cs: seq<Choice>): Option<(Globals, Thread)>
    decreases |cs|
  {
    if cs == [] then Some((g, th))
    else if !CanStep(g, th, cs[0]) then None
    else
      var e := LocalStep(g, t, th, cs[0]);
      if e.next.None? then None else Path(e.g, t, e.next.value, cs[1..])
  }

  lemma PathNext(g: Globals, t: Tid, th: Thread, cs: seq<Choice>, c: Choice, rest: seq<Choice>)
    requires cs == [c] + rest && CanStep(g, th, c) && LocalStep(g, t, th, c).next.Some?
    ensures var e := LocalStep(g, t, th, c); Path(g, t, th, cs) == Path(e.g, t, e.next.value, rest)
  {
    assert cs[1..] == rest;
  }

  /** A handler's Ask, admitted: six steps later it waits for its own request with the permit given back
      and, on its first Ask, the drain role handed to a new drainer; the call stays counted. */
  lemma AskSuspends(g: Globals, t: Tid, th: Thread)
    requires th.pc == Ask(IReceive) && g.c.permits == 0
    ensures var r := g.asks.nextReq; var end := Path(g, t, th, [AskNow, Go, Go, Go, Go, Go]);
            && end.Some? && end.value.1 == th.(pc := Ask(AWait(r)), transferred := true, handoffs := th.handoffs + if th.transferred then 0 else 1)
            && r in end.value.0.asks.pending && end.value.0.asks.pending[r] == t
            && end.value.0.c.permits == 1 && end.value.0.c.ownerId == 0 && end.value.0.c.unfinished == g.c.unfinished
            && end.value.0.c.role == if th.transferred then g.c.role else g.c.nextTid
  {
    var r := g.asks.nextReq;
    var g2 := Opened(g, t);
    var th2 := th.(pc := Ask(ASusp(r)));
    AskOpens(g, t, th);
    PathNext(g2, t, th2, [Go, Go, Go, Go], Go, [Go, Go, Go]);
    var e := LocalStep(g2, t, th2, Go);
    LeavesGate(e.g, t, e.next.value, AfterSuspend(r));
  }

  /** The handler has called Ask and its request is registered. */
  function Opened(g: Globals, t: Tid): Globals {
    g.(rec := Emit(g.rec, HandlerRan(t)), asks := Asks(g.asks.pending[g.asks.nextReq := t], g.asks.nextReq + 1))
  }

  lemma AskOpens(g: Globals, t: Tid, th: Thread)
    requires th.pc == Ask(IReceive)
    ensures Path(g, t, th, [AskNow, Go, Go, Go, Go, Go]) == Path(Opened(g, t), t, th.(pc := Ask(ASusp(g.asks.nextReq))), [Go, Go, Go, Go])
  {
    var g1 := g.(rec := Emit(g.rec, HandlerRan(t)));
    PathNext(g, t, th, [AskNow, Go, Go, Go, Go, Go], AskNow, [Go, Go, Go, Go, Go]);
    PathNext(g1, t, th.(pc := Ask(AReg)), [Go, Go, Go, Go, Go], Go, [Go, Go, Go, Go]);
  }

  lemma LeavesGate(g: Globals, t: Tid, th: Thread, d: Departure)
    requires th.pc == Gate(LeaveId(d)) && g.c.permits == 0
    ensures Path(g, t, th, [Go, Go, Go])
            == Some((g.(c := g.c.(ownerId := 0, executing := 0, permits := 1, holder := 0)), th.(pc := Departed(d))))
  {
    var g1 := g.(c := g.c.(ownerId := 0));
    var g2 := g1.(c := g1.c.(executing := 0));
    PathNext(g, t, th, [Go, Go, Go], Go, [Go, Go]);
    PathNext(g1, t, th.(pc := Gate(LeavePtr(d))), [Go, Go], Go, [Go]);
    PathNext(g2, t, th.(pc := Gate(LeavePermit(d))), [Go], Go, []);
  }

  /** And however the wait ends, once the permit is free five more steps bring it back into the handler, with
      its request gone and its own id published. */
  lemma AskResumes(g: Globals, t: Tid, th: Thread, c: Choice, r: nat)
    requires th.pc == Ask(AWait(r)) && c != AskNow && g.c.permits == 1
    ensures var end := Path(g, t, th, [c, Go, Go, Go, Go]);
            && end.Some? && end.value.1 == Quit(th, c).(pc := Ask(IReceive)) && r !in end.value.0.asks.pending
            && end.value.0.c.permits == 0 && end.value.0.c.ownerId == t && end.value.0.c.executing == t
  {
    var th1 := Quit(th, c).(pc := Ask(ACancel(r)));
    var g2 := g.(asks := g.asks.(pending := g.asks.pending - {r}));
    PathNext(g, t, th, [c, Go, Go, Go, Go], c, [Go, Go, Go, Go]);
    PathNext(g, t, th1, [Go, Go, Go, Go], Go, [Go, Go, Go]);
    var g3 := g2.(c := g2.c.(permits := 0, holder := t));
    var g4 := g3.(c := g3.c.(executing := t));
    PathNext(g2, t, th1.(pc := Gate(EnterPermit(ToResume))), [Go, Go, Go], Go, [Go, Go]);
    PathNext(g3, t, th1.(pc := Gate(EnterPtr(ToResume))), [Go, Go], Go, [Go]);
    PathNext(g4, t, th1.(pc := Gate(EnterId(ToResume))), [Go], Go, []);
  }

  /** An Ask that is refused, because the node no longer registers any, returns to the handler at once with
      nothing changed. */
  lemma AskRefused(g: Globals, t: Tid, th: Thread)
    requires th.pc == Ask(IReceive)
    ensures Path(g, t, th, [AskNow, Fail]) == Some((g.(rec := Emit(g.rec, HandlerRan(t))), th))
  {
    PathNext(g, t, th, [AskNow, Fail], AskNow, [Fail]);
    PathNext(g.(rec := Emit(g.rec, HandlerRan(t))), t, th.(pc := Ask(AReg)), [Fail], Fail, []);
  }

  /** Request r was handed out and is in the table no more. */
  predicate Answered(g: Globals, r: nat) { r < g.asks.nextReq && r !in g.asks.pending }

  lemma AnsweredNext(s: State, a: Action, r: nat)
    requires Inv(s) && Enabled(s, a) && (Answered(s.g, r) || a == Reply(r))
    ensures Answered(Next(s, a).g, r)
  {
    if a.Step? { WaitLocal(s.g, a.t, s.threads[a.t], a.c, r); }
  }

  lemma AnsweredRunStep(run: seq<State>, acts: seq<Action>, k: nat, r: nat)
    requires IsRun(run, acts) && k < |acts| && (Answered(run[k].g, r) || acts[k] == Reply(r))
    ensures Answered(run[k + 1].g, r)
  {
    RunInv(run, acts, k);
    AnsweredNext(run[k], acts[k], r);
  }

  /** Over every run a reply takes the request for good: no second reply reaches it. */
  lemma {:induction false} RepliedOnce(run: seq<State>, acts: seq<Action>, i: nat, n: nat, r: nat)
    requires IsRun(run, acts) && i < n <= |acts| && acts[i] == Reply(r)
    ensures r !in run[n].g.asks.pending && r < run[n].g.asks.nextReq && !Enabled(run[n], Reply(r))
    decreases n
  {
    if i + 1 < n { RepliedOnce(run, acts, i, n - 1, r); }
    AnsweredRunStep(run, acts, n - 1, r);
  }

  // ------------------------------------------------------------------ the hooks run

  /** The step that begins PreStop brings the goroutine into the hook, and likewise for Started. */
  lemma HooksRun(s: State, t: Tid, c: Choice)
    requires Reachable(s) && Enabled(s, Step(t, c)) && |Next(s, Step(t, c)).g.rec.log| > |s.g.rec.log| && t in Next(s, Step(t, c)).threads
    ensures HookBegins(Next(s, Step(t, c)).g.rec.log, Next(s, Step(t, c)).threads[t].pc)
  {
    assert Inv(s) by { ReachableInv(s); }
    OwnNext(s, t, c);
    HooksLocal(s.g, t, s.threads[t], c);
  }

  /** After these events the goroutine is in the hook. */
  predicate HookBegins(log: seq<Event>, pc: PC)
    requires log != []
  {
    && (log[|log| - 1] == PreStopBegin ==> pc.Stop? && pc.l == LPreStop)
    && (log[|log| - 1] == StartedBegin ==> pc == Call(GStarted))
  }

  lemma OwnNext(s: State, t: Tid, c: Choice)
    requires Inv(s) && Enabled(s, Step(t, c)) && t in Next(s, Step(t, c)).threads
    ensures var e := LocalStep(s.g, t, s.threads[t], c); e.next.Some? && Next(s, Step(t, c)).threads[t] == e.next.value
  {
    FreshIsUnused(s);
  }

  /** What the last event of a step says about where it leads. */
  predicate HookOk(g: Globals, e: Effect) {
    |e.g.rec.log| > |g.rec.log| && e.next.Some? ==> HookBegins(e.g.rec.log, e.next.value.pc)
  }

  lemma HooksLocal(g: Globals, t: Tid, th: Thread, c: Choice)
    ensures HookOk(g, LocalStep(g, t, th, c))
  {
    match th.pc {
      case Stop(_, _) => HookStop(g, t, th, c);
      case Call(_) => HookCall(g, t, th, c);
      case Ask(_) => HookAsk(g, t, th, c);
      case _ => QuietOutside(g, t, th, c);
    }
  }

  lemma HookStop(g: Globals, t: Tid, th: Thread, c: Choice)
    requires th.pc.Stop?
    ensures HookOk(g, LocalStep(g, t, th, c))
  {
  }

  lemma HookCall(g: Globals, t: Tid, th: Thread, c: Choice)
    requires th.pc.Call?
    ensures HookOk(g, LocalStep(g, t, th, c))
  {
  }

  lemma HookAsk(g: Globals, t: Tid, th: Thread, c: Choice)
    requires th.pc.Ask?
    ensures HookOk(g, LocalStep(g, t, th, c))
  {
  }
}
