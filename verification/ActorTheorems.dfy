/** What the invariant says to a reader: the properties of every reachable state and every run. */
module ActorTheorems {
  import opened Options
  import opened ActorModel
  import opened ActorInvariant
  import opened ActorPreservation
  import opened ActorSafety

  // ------------------------------------------------------------------ wake-ups

  /** A goroutine that still owes the actor a look: a sender between Push and schedule, a poisoner
      between the latch and schedule, the spawner before init, a drainer in its recheck after
      parking, a handed-off call after its decrement. */
  predicate OwesSchedule(th: Thread) { OwesForStop(th) }

  /** No lost wake-up: an idle actor to which nobody owes a schedule has an empty mailbox and no
      stop that could run. */
  lemma NoLostWakeup(s: State)
    requires Reachable(s) && s.g.c.status == Idle
    requires forall t :: t in s.threads ==> !OwesSchedule(s.threads[t])
    ensures s.g.mail.queue == []
    ensures !(s.g.c.stopRequested && s.g.c.unfinished == 0)
  {
    ReachableInv(s);
    assert !QueueWaits(s.g) && !StopWaits(s.g);
  }

  // ------------------------------------------------------------------ drain role

  ghost function RoleHolders(s: State): set<Tid> { set t | t in s.threads && Role(s.threads[t]) }

  /** Exactly one goroutine holds the role while the status is running, none while it is idle, and
      at most the stopping one once it is stopped. */
  lemma UniqueDrainRole(s: State)
    requires Reachable(s)
    ensures s.g.c.status == Running ==> |RoleHolders(s)| == 1
    ensures s.g.c.status == Idle ==> RoleHolders(s) == {}
    ensures |RoleHolders(s)| <= 1
  {
    ReachableInv(s);
    forall t | t in RoleHolders(s) ensures t == s.g.c.role {
      assert Known(s.g, t, s.threads[t]);
    }
    if s.g.c.role != 0 {
      assert Known(s.g, s.g.c.role, s.threads[s.g.c.role]);
      assert RoleHolders(s) == {s.g.c.role};
    } else {
      assert RoleHolders(s) == {};
    }
  }

  /** Only the role holder takes messages out of the mailbox or raises the counter. */
  lemma OnlyRoleHolderPops(s: State, a: Action)
    requires Reachable(s) && Enabled(s, a)
    requires |Next(s, a).g.mail.queue| < |s.g.mail.queue| || Next(s, a).g.c.unfinished > s.g.c.unfinished
    ensures a.Step? && RoleHolders(s) == {a.t}
  {
    ReachableInv(s);
    assert a.Step?;
    assert Known(s.g, a.t, s.threads[a.t]);
    var th := s.threads[a.t];
    OnlyRolePops(s.g, a.t, th, a.c);
    forall t | t in RoleHolders(s) ensures t == a.t {
      assert Known(s.g, t, s.threads[t]);
    }
  }

  lemma OnlyRolePops(g: Globals, t: Tid, th: Thread, c: Choice)
    requires Shape(th)
    requires |LocalStep(g, t, th, c).g.mail.queue| < |g.mail.queue| || LocalStep(g, t, th, c).g.c.unfinished > g.c.unfinished
    ensures Role(th)
  {
    match th.pc {
      case Edge(pc) =>
      case Drain(pc) =>
      case Gate(pc) =>
      case Stop(_, pc) =>
      case Call(pc) =>
      case Ask(pc) =>
    }
  }

  /** The zero that stopReady saw is still there at every later check of stopIfIdle and throughout
      the stop it leads to, and then no goroutine is inside a call. */
  lemma ZeroSeenStays(s: State, t: Tid, u: Tid)
    requires Reachable(s) && t in s.threads && u in s.threads && SawZero(Classify(s.threads[t]))
    ensures s.g.c.unfinished == 0 && !Counted(s.threads[u].pc)
  {
    ReachableInv(s);
    assert Known(s.g, t, s.threads[t]);
    ZeroMeansNone(s, u);
  }

  lemma StoppedStays(s: State, a: Action)
    requires Inv(s) && Enabled(s, a) && s.g.c.status == Halted
    ensures Next(s, a).g.c.status == Halted
  {
    if a.Step? {
      assert Known(s.g, a.t, s.threads[a.t]);
      HaltedLocal(s.g, a.t, s.threads[a.t], a.c);
    }
  }

  lemma HaltedLocal(g: Globals, t: Tid, th: Thread, c: Choice)
    requires g.c.status == Halted
    ensures LocalStep(g, t, th, c).g.c.status == Halted
  {
    match th.pc {
      case Edge(pc) =>
      case Drain(pc) =>
      case Gate(pc) =>
      case Stop(_, pc) =>
      case Call(pc) =>
      case Ask(pc) =>
    }
  }

  /** Stopped is absorbing over whole runs. */
  lemma {:induction false} StoppedIsFinal(run: seq<State>, acts: seq<Action>, i: nat, j: nat)
    requires IsRun(run, acts) && i <= j <= |acts| && run[i].g.c.status == Halted
    ensures run[j].g.c.status == Halted
  {
    if i < j {
      StoppedIsFinal(run, acts, i, j - 1);
      RunInv(run, acts, j - 1);
      StoppedStays(run[j - 1], acts[j - 1]);
    }
  }

  // ------------------------------------------------------------------ order and conservation

  lemma OneBetween(s: State)
    requires Inv(s)
    ensures |s.g.mail.inflight| <= 1 && |s.g.mail.dying| <= 1
  {
    if s.g.c.role != 0 {
      var th := s.threads[s.g.c.role];
      assert Known(s.g, s.g.c.role, th);
      assert Role(th);
      assert |Entering(th.pc)| <= 1 && |Dying(th.pc)| <= 1;
    }
  }

  /** Accepted messages, in acceptance order, are the started ones, at most one being entered, the
      dead letters of the stop, at most one that the stop lost, at most one being dead-lettered, and
      the queue: nothing overtakes or repeats. */
  lemma AcceptedInOrder(s: State)
    requires Reachable(s)
    ensures var m := s.g.mail; m.accepted == m.started + m.inflight + m.dead + m.lost + m.dying + m.queue
    ensures |s.g.mail.inflight| <= 1 && |s.g.mail.lost| <= 1 && |s.g.mail.dying| <= 1 && |s.g.mail.queue| <= s.g.cfg.maxCap
    ensures s.g.mail.started != [] ==> s.g.mail.started[0].kind == Initialize
  {
    ReachableInv(s);
    OneBetween(s);
    if s.g.mail.started != [] { StartedFirst(s.g); }
  }

  lemma StartedFirst(g: Globals)
    requires MailInv(g) && g.mail.started != []
    ensures g.mail.started[0].kind == Initialize
  {
    assert g.mail.started[0] == g.mail.accepted[0];
  }

  lemma RoleIsHeld(s: State)
    requires Inv(s) && s.g.c.role != 0
    ensures s.g.c.role in RoleHolders(s)
  {
    assert Known(s.g, s.g.c.role, s.threads[s.g.c.role]);
  }

  lemma StoppedCells(g: Globals)
    requires MailInv(g) && g.c.role == 0 && g.c.status == Halted
    ensures g.mail.accepted == g.mail.started + g.mail.dead + g.mail.lost + g.mail.queue
    ensures g.mail.queue == [] <==> !g.mail.abandoned
  {
    var m := g.mail;
    assert m.started + [] + m.dead + m.lost + [] + m.queue == m.started + m.dead + m.lost + m.queue;
  }

  /** Once the stop has ended every accepted message was started, dead-lettered or lost, or is left in
      the closed mailbox; and some are left exactly when a handler left the final loop while messages
      were still queued. */
  lemma StoppedMailbox(s: State)
    requires Reachable(s) && s.g.c.status == Halted && RoleHolders(s) == {}
    ensures s.g.mail.accepted == s.g.mail.started + s.g.mail.dead + s.g.mail.lost + s.g.mail.queue
    ensures s.g.mail.queue == [] <==> !s.g.mail.abandoned
  {
    ReachableInv(s);
    assert s.g.c.role == 0 by { if s.g.c.role != 0 { RoleIsHeld(s); } }
    StoppedCells(s.g);
  }

  // ------------------------------------------------------------------ permit and identity

  ghost function PermitHolders(s: State): set<Tid> { set t | t in s.threads && Table(s.threads[t].pc).gate != Outside }

  lemma LeaveNeverBlocks(s: State, t: Tid)
    requires Inv(s) && t in s.threads && s.threads[t].pc.Gate? && s.threads[t].pc.x.LeavePermit?
    ensures Enabled(s, Step(t, Go))
  {
    assert Known(s.g, t, s.threads[t]);
  }

  lemma OnePermit(s: State)
    requires Inv(s)
    ensures s.g.c.permits + |PermitHolders(s)| == 1
  {
    forall t | t in PermitHolders(s) ensures t == s.g.c.holder {
      assert Known(s.g, t, s.threads[t]);
    }
    if s.g.c.holder != 0 {
      assert Known(s.g, s.g.c.holder, s.threads[s.g.c.holder]);
      assert PermitHolders(s) == {s.g.c.holder};
    } else {
      assert PermitHolders(s) == {};
    }
  }

  /** One permit in all: free permits plus holders is one, so returning it never blocks. */
  lemma PermitAccounting(s: State)
    requires Reachable(s)
    ensures s.g.c.permits + |PermitHolders(s)| == 1
    ensures forall t :: t in s.threads && s.threads[t].pc.Gate? && s.threads[t].pc.x.LeavePermit? ==> Enabled(s, Step(t, Go))
  {
    ReachableInv(s);
    OnePermit(s);
    forall t | t in s.threads && s.threads[t].pc.Gate? && s.threads[t].pc.x.LeavePermit? ensures Enabled(s, Step(t, Go)) {
      LeaveNeverBlocks(s, t);
    }
  }

  /** A published owner id names the permit holder, and the pointer is that goroutine's own record. */
  lemma PublishedIdentity(s: State)
    requires Reachable(s) && s.g.c.ownerId != 0
    ensures PermitHolders(s) == {s.g.c.ownerId} && s.g.c.executing == s.g.c.ownerId
  {
    ReachableInv(s);
    var o := s.g.c.ownerId;
    assert Known(s.g, o, s.threads[o]);
    forall t | t in PermitHolders(s) ensures t == o {
      assert Known(s.g, t, s.threads[t]);
    }
  }

  /** A goroutine whose Ask is admitted is the one permit holder, in a Receive call. */
  lemma AdmittedIsHolder(s: State, goid: Tid)
    requires Reachable(s) && AskAdmission(s, goid) == Admitted
    ensures PermitHolders(s) == {goid} && s.threads[goid].kind == CallReceive
  {
    ReachableInv(s);
    PublishedIdentity(s);
    assert Known(s.g, s.g.c.ownerId, s.threads[s.g.c.ownerId]);
  }

  /** A pending entry belongs to a goroutine between registration and cancellation; once a goroutine
      waits to resume, or runs its handler, it has none. A handler hands the role over at most once. */
  lemma AskBookkeeping(s: State, t: Tid)
    requires Reachable(s) && t in s.threads
    ensures AskOf(s.threads[t].pc) == None ==> forall r :: r in s.g.asks.pending ==> s.g.asks.pending[r] != t
    ensures s.threads[t].handoffs <= 1
    ensures s.threads[t].pc.Ask? && s.threads[t].pc.a.AWait? ==> s.threads[t].handoffs == 1
  {
    ReachableInv(s);
    assert Known(s.g, t, s.threads[t]);
  }

  lemma OnlyGateResumes(g: Globals, t: Tid, th: Thread, c: Choice)
    requires Shape(th) && th.transferred
    requires var n := LocalStep(g, t, th, c).next; n.Some? && n.value.pc == Ask(IReceive)
    ensures th.pc == Ask(AReg) || th.pc == Gate(EnterId(ToResume))
  {
    match th.pc {
      case Edge(pc) =>
      case Drain(pc) =>
      case Gate(pc) =>
      case Stop(_, pc) =>
      case Call(pc) =>
      case Ask(pc) =>
    }
  }

  lemma ShownIsHolder(s: State, t: Tid)
    requires Inv(s) && t in s.threads && Table(s.threads[t].pc).gate == Shown
    ensures PermitHolders(s) == {t} && s.g.c.ownerId == t && s.g.c.executing == t
  {
    assert Known(s.g, t, s.threads[t]);
    forall u | u in PermitHolders(s) ensures u == t { assert Known(s.g, u, s.threads[u]); }
  }

  lemma InGateIsHolder(s: State, t: Tid)
    requires Inv(s) && t in s.threads && Table(s.threads[t].pc).gate != Outside
    ensures PermitHolders(s) == {t}
  {
    assert Known(s.g, t, s.threads[t]);
    forall u | u in PermitHolders(s) ensures u == t { assert Known(s.g, u, s.threads[u]); }
  }

  /** A handler that has handed over runs user code again only with the permit, its own record and
      its own id published. */
  lemma ResumesWithPermit(s: State, t: Tid, c: Choice)
    requires Reachable(s) && Enabled(s, Step(t, c)) && s.threads[t].transferred
    requires var s' := Next(s, Step(t, c)); t in s'.threads && s'.threads[t].pc == Ask(IReceive)
    ensures var s' := Next(s, Step(t, c)); s'.g.c.holder == t && s'.g.c.executing == t && s'.g.c.ownerId == t
    ensures PermitHolders(s) == {t}
  {
    ReachableInv(s);
    ResumedKnows(s, t, c);
    ResumedFromGate(s, t, c);
    InGateIsHolder(s, t);
  }

  lemma ResumedKnows(s: State, t: Tid, c: Choice)
    requires Inv(s) && Enabled(s, Step(t, c))
    requires var s' := Next(s, Step(t, c)); t in s'.threads && s'.threads[t].pc == Ask(IReceive)
    ensures var s' := Next(s, Step(t, c)); s'.g.c.holder == t && s'.g.c.executing == t && s'.g.c.ownerId == t
  {
    assert ThreadsInv(Next(s, Step(t, c))) by { ThreadsStep(s, t, c); }
    assert Known(Next(s, Step(t, c)).g, t, Next(s, Step(t, c)).threads[t]);
  }

  lemma ResumedFromGate(s: State, t: Tid, c: Choice)
    requires Inv(s) && Enabled(s, Step(t, c)) && s.threads[t].transferred
    requires var s' := Next(s, Step(t, c)); t in s'.threads && s'.threads[t].pc == Ask(IReceive)
    ensures Table(s.threads[t].pc).gate != Outside
  {
    assert Known(s.g, t, s.threads[t]);
    FreshIsUnused(s);
    OnlyGateResumes(s.g, t, s.threads[t], c);
  }

  // ------------------------------------------------------------------ lifecycle

  /** When an event may follow a past: the order an actor author relies on. */
  predicate EventOk(past: seq<Event>, e: Event) {
    match e
    case Registered => Registered !in past && StartedBegin !in past
    case RegisterFailed => Registered !in past && RegisterFailed !in past && StartedBegin !in past
    case StartedBegin => StartedBegin !in past && RegisterFailed !in past && PreStopBegin !in past && Unregistered !in past
    case StartedOk => StartedBegin in past && StartedOk !in past
    case ReceiveBegin(_) => StartedOk in past && PreStopBegin !in past && Unregistered !in past
    case HandlerRan(_) => StartedOk in past && PreStopBegin !in past && Unregistered !in past
    case PreStopBegin => StartedOk in past && PreStopBegin !in past && Unregistered !in past
    case Unregistered => Registered in past && Unregistered !in past
  }

  /** What the automaton's state says about the past. */
  predicate Summary(log: seq<Event>, l: LifeLog) {
    && l.LifeLog?
    && (l.registered <==> Registered in log)
    && (l.phase == Fresh ==> StartedBegin !in log && RegisterFailed !in log)
    && (l.phase == InStarted ==> StartedBegin in log)
    && (l.phase == Fresh || l.phase == InStarted ==> StartedOk !in log)
    && (l.phase == Up ==> StartedOk in log)
    && (l.phase != Gone ==> Unregistered !in log)
    && (l.phase != Gone && l.phase != Down ==> PreStopBegin !in log)
  }

  lemma SummaryNext(log: seq<Event>, l: LifeLog, e: Event)
    requires Summary(log, l) && Delta(l, e).LifeLog?
    ensures Summary(log + [e], Delta(l, e)) && EventOk(log, e)
  {
    assert forall x :: x in log + [e] <==> x in log || x == e;
  }

  lemma {:induction false} RunSummary(log: seq<Event>)
    requires RunLog(log).LifeLog?
    ensures Summary(log, RunLog(log))
    ensures forall j :: 0 <= j < |log| ==> EventOk(log[..j], log[j])
  {
    if log != [] {
      var past, e := log[..|log| - 1], log[|log| - 1];
      RunSummary(past);
      SummaryNext(past, RunLog(past), e);
      assert past + [e] == log;
      forall j | 0 <= j < |log| ensures EventOk(log[..j], log[j]) {
        if j < |past| { assert log[..j] == past[..j] && log[j] == past[j]; }
      }
    }
  }

  /** Over every run, whatever hooks and handlers do: Started begins at most once and returns before
      any Receive; PreStop begins at most once, only after a successful Started, and no handler code
      runs after it; unregistration happens at most once and only after a registration. */
  lemma OrderlyLife(s: State)
    requires Reachable(s)
    ensures forall j :: 0 <= j < |s.g.rec.log| ==> EventOk(s.g.rec.log[..j], s.g.rec.log[j])
  {
    ReachableInv(s);
    RunSummary(s.g.rec.log);
  }

  /** PreStop runs with the permit and with no call suspended, waiting or running. */
  lemma PreStopAlone(s: State, t: Tid, u: Tid)
    requires Reachable(s) && t in s.threads && u in s.threads
    requires s.threads[t].pc.Stop? && s.threads[t].pc.l == LPreStop
    ensures s.g.c.unfinished == 0 && !Counted(s.threads[u].pc) && PermitHolders(s) == {t}
  {
    ReachableInv(s);
    assert Known(s.g, t, s.threads[t]);
    ZeroSeenStays(s, t, u);
    PublishedIdentity(s);
  }

  /** A stopped actor that had registered with the cluster has unregistered, exactly once. */
  lemma StoppedIsUnregistered(s: State)
    requires Reachable(s) && s.g.c.status == Halted && s.g.rec.owned && s.g.cfg.hasUnregister
    ensures Unregistered in s.g.rec.log && Registered in s.g.rec.log
    ensures forall i, j :: 0 <= i < j < |s.g.rec.log| ==> !(s.g.rec.log[i] == s.g.rec.log[j] == Unregistered)
  {
    ReachableInv(s);
    RunSummary(s.g.rec.log);
    GoneMeansUnregistered(s.g.rec.log);
    var log := s.g.rec.log;
    forall i, j | 0 <= i < j < |log| ensures !(log[i] == log[j] == Unregistered) {
      assert log[i] == log[..j][i];
      assert EventOk(log[..j], log[j]);
    }
  }

  lemma {:induction false} GoneMeansUnregistered(log: seq<Event>)
    requires RunLog(log).LifeLog? && RunLog(log).phase == Gone
    ensures Unregistered in log
  {
    var past, e := log[..|log| - 1], log[|log| - 1];
    if RunLog(past).phase == Gone { GoneMeansUnregistered(past); }
  }
}
