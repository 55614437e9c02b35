/** The invariant holds in every reachable state. */
module ActorSafety {
  import opened Options
  import opened ActorModel
  import opened ActorInvariant
  import opened ActorPreservation

  lemma BootIsFirst(s: State, t: Tid)
    requires Inv(s) && t in s.threads
    ensures BootFirst(s.g, s.threads[t])
  {
    var th, m := s.threads[t], s.g.mail;
    assert Known(s.g, t, th);
    if s.g.c.life == Initializing {
      assert |m.started| == 0 && |m.dead| == 0 && |m.lost| == 0;
      if th.pc == Drain(DPop) {
        assert Role(th);
        assert m.accepted == m.queue;
      } else if th.pc.Call? && th.pc.i.IBegin? {
        assert Role(th);
        assert m.inflight == [th.pc.i.m];
        assert m.accepted[0] == th.pc.i.m;
      }
    }
  }

  /** Zero unfinished calls means that no goroutine is inside a call. */
  lemma ZeroMeansNone(s: State, u: Tid)
    requires Inv(s) && s.g.c.unfinished == 0 && u in s.threads
    ensures !Counted(s.threads[u].pc)
  {
    assert Known(s.g, u, s.threads[u]);
    SumRemove(s.threads, s.g.c.nextTid, u, CountedWeight);
  }

  lemma BeforeStep(s: State, t: Tid, c: Choice)
    requires Inv(s) && Enabled(s, Step(t, c))
    ensures Before(s.g, t, s.threads[t], c)
  {
    BootIsFirst(s, t);
    assert Known(s.g, t, s.threads[t]);
    if s.g.c.unfinished == 0 { ZeroMeansNone(s, t); }
  }

  lemma BystanderMail(s: State, t: Tid, c: Choice, u: Tid)
    requires Inv(s) && Enabled(s, Step(t, c)) && u in s.threads && u != t
    ensures MailThread(LocalStep(s.g, t, s.threads[t], c).g, s.threads[u])
  {
    var th, thu := s.threads[t], s.threads[u];
    assert Known(s.g, u, thu) && Known(s.g, t, th);
    assert MailOk(s.g, th, LocalStep(s.g, t, th, c)) by { BeforeStep(s, t, c); MailStep(s.g, t, th, c); }
    assert Role(thu) ==> !Role(th);
  }

  lemma BystanderLog(s: State, t: Tid, c: Choice, u: Tid)
    requires Inv(s) && Enabled(s, Step(t, c)) && u in s.threads && u != t
    ensures LogThread(LocalStep(s.g, t, s.threads[t], c).g, s.threads[u])
  {
    var th, thu := s.threads[t], s.threads[u];
    assert Known(s.g, u, thu) && Known(s.g, t, th);
    assert LogOk(s.g, th, LocalStep(s.g, t, th, c)) by { BeforeStep(s, t, c); LogStep(s.g, t, th, c); }
    assert LocalStep(s.g, t, th, c).g.cfg == s.g.cfg by { BeforeStep(s, t, c); CellsStep(s.g, t, th, c); }
    LogKept(s.g, LocalStep(s.g, t, th, c).g, th, thu);
  }

  lemma LogKept(g: Globals, h: Globals, th: Thread, thu: Thread)
    requires LogThread(g, thu) && g.rec.life.LifeLog? && (Role(thu) ==> !Role(th)) && h.cfg == g.cfg
    requires !Role(th) ==> h.rec.life == g.rec.life && h.rec.owned == g.rec.owned
    ensures LogThread(h, thu)
  {
  }

  lemma BystanderStep(s: State, t: Tid, c: Choice, u: Tid)
    requires Inv(s) && Enabled(s, Step(t, c)) && u in s.threads && u != t
    ensures Known(LocalStep(s.g, t, s.threads[t], c).g, u, s.threads[u])
  {
    var th, thu := s.threads[t], s.threads[u];
    assert Before(s.g, t, th, c) by { BeforeStep(s, t, c); }
    assert Known(s.g, u, thu) && Known(s.g, t, th);
    if s.g.c.unfinished == 0 { ZeroMeansNone(s, u); }
    OtherStep(s.g, t, th, c, u, Classify(thu));
    BystanderMail(s, t, c, u);
    BystanderLog(s, t, c, u);
  }

  lemma FreshStep(g: Globals, t: Tid, e: Effect)
    requires ControlInv(g.c) && t < g.c.nextTid && CellsOk(g, t, e) && e.spawn
    ensures ThreadInv(e.g.c, g.c.nextTid, FreshDrainer)
  {
  }

  lemma OwnStep(s: State, t: Tid, c: Choice)
    requires Inv(s) && Enabled(s, Step(t, c))
    ensures var e := LocalStep(s.g, t, s.threads[t], c); e.next.Some? ==> Known(e.g, t, e.next.value)
  {
    var th := s.threads[t];
    BeforeStep(s, t, c);
    assert Known(s.g, t, th);
    NextStep(s.g, t, th, c);
    RecordStep(s.g, t, th, c);
    MailStep(s.g, t, th, c);
    LogStep(s.g, t, th, c);
  }

  lemma SpawnedStep(s: State, t: Tid, c: Choice)
    requires Inv(s) && Enabled(s, Step(t, c))
    ensures var e := LocalStep(s.g, t, s.threads[t], c); e.spawn ==> Known(e.g, s.g.c.nextTid, FreshDrainer)
  {
    var th := s.threads[t];
    BeforeStep(s, t, c);
    assert Known(s.g, t, th);
    CellsStep(s.g, t, th, c);
    var e := LocalStep(s.g, t, th, c);
    if e.spawn { FreshStep(s.g, t, e); }
    MailStep(s.g, t, th, c);
    LogStep(s.g, t, th, c);
  }

  lemma ThreadsStep(s: State, t: Tid, c: Choice)
    requires Inv(s) && Enabled(s, Step(t, c))
    ensures ThreadsInv(Next(s, Step(t, c)))
  {
    var s' := Next(s, Step(t, c));
    OwnStep(s, t, c);
    SpawnedStep(s, t, c);
    forall u | u in s'.threads
      ensures Known(s'.g, u, s'.threads[u])
    {
      if u in s.threads && u != t {
        FreshIsUnused(s);
        BystanderStep(s, t, c, u);
      }
    }
  }

  lemma SharedStep(s: State, t: Tid, c: Choice)
    requires Inv(s) && Enabled(s, Step(t, c))
    ensures SharedInv(LocalStep(s.g, t, s.threads[t], c).g)
  {
    var th := s.threads[t];
    var e := LocalStep(s.g, t, th, c);
    BeforeStep(s, t, c);
    assert Known(s.g, t, th);
    assert CellsOk(s.g, t, e) by { CellsStep(s.g, t, th, c); }
    assert MailOk(s.g, th, e) by { MailStep(s.g, t, th, c); }
    assert LogOk(s.g, th, e) by { LogStep(s.g, t, th, c); }
    assert RunsOk(s.g, e) by { RunsStep(s.g, t, th, c); }
  }

  lemma PresentStep(s: State, t: Tid, c: Choice)
    requires Inv(s) && Enabled(s, Step(t, c))
    ensures PresentInv(Next(s, Step(t, c)))
  {
    BeforeStep(s, t, c);
    CellsStep(s.g, t, s.threads[t], c);
    FreshIsUnused(s);
  }

  lemma CountStep(s: State, t: Tid, c: Choice)
    requires Inv(s) && Enabled(s, Step(t, c))
    ensures CountInv(Next(s, Step(t, c)))
  {
    var th := s.threads[t];
    BeforeStep(s, t, c);
    CellsStep(s.g, t, th, c);
    RecordStep(s.g, t, th, c);
    FreshIsUnused(s);
    SumStep(s, t, LocalStep(s.g, t, th, c), CountedWeight);
  }

  lemma FreshIsUnused(s: State)
    requires Inv(s)
    ensures s.g.c.nextTid !in s.threads
  {
    assert s.g.c.nextTid in s.threads ==> Known(s.g, s.g.c.nextTid, s.threads[s.g.c.nextTid]);
  }

  lemma Unmoved(s: State, t: Tid, e: Effect, u: Tid)
    requires Inv(s) && u in s.threads && u != t
    ensures u in Apply(s, t, e).threads && Apply(s, t, e).threads[u] == s.threads[u]
  {
    FreshIsUnused(s);
  }

  lemma QueueWakeStep(s: State, t: Tid, c: Choice)
    requires Inv(s) && Enabled(s, Step(t, c)) && QueueWaits(Next(s, Step(t, c)).g)
    ensures var ts := Next(s, Step(t, c)).threads; exists u :: u in ts && OwesForQueue(ts[u])
  {
    var e := LocalStep(s.g, t, s.threads[t], c);
    var s' := Apply(s, t, e);
    assert WakeOk(s.g, s.threads[t], e) by { BeforeStep(s, t, c); WakeStep(s.g, t, s.threads[t], c); }
    if e.next.Some? && OwesForQueue(e.next.value) {
      FreshIsUnused(s);
      assert t in s'.threads && OwesForQueue(s'.threads[t]);
    } else {
      var u :| u in s.threads && OwesForQueue(s.threads[u]);
      Unmoved(s, t, e, u);
      assert u in s'.threads && OwesForQueue(s'.threads[u]);
    }
  }

  lemma StopWakeStep(s: State, t: Tid, c: Choice)
    requires Inv(s) && Enabled(s, Step(t, c)) && StopWaits(Next(s, Step(t, c)).g)
    ensures var ts := Next(s, Step(t, c)).threads; exists u :: u in ts && OwesForStop(ts[u])
  {
    var e := LocalStep(s.g, t, s.threads[t], c);
    var s' := Apply(s, t, e);
    assert WakeOk(s.g, s.threads[t], e) by { BeforeStep(s, t, c); WakeStep(s.g, t, s.threads[t], c); }
    if e.next.Some? && OwesForStop(e.next.value) {
      FreshIsUnused(s);
      assert t in s'.threads && OwesForStop(s'.threads[t]);
    } else {
      var u :| u in s.threads && OwesForStop(s.threads[u]);
      Unmoved(s, t, e, u);
      assert u in s'.threads && OwesForStop(s'.threads[u]);
    }
  }

  lemma WakesStep(s: State, t: Tid, c: Choice)
    requires Inv(s) && Enabled(s, Step(t, c))
    ensures WakeInv(Next(s, Step(t, c)))
  {
    var s' := Next(s, Step(t, c));
    if QueueWaits(s'.g) { QueueWakeStep(s, t, c); }
    if StopWaits(s'.g) { StopWakeStep(s, t, c); }
  }

  predicate AskOk(g: Globals, t: Tid, th: Thread, e: Effect) {
    var p, p' := g.asks.pending, e.g.asks.pending;
    && e.g.asks.nextReq >= g.asks.nextReq
    && (forall r :: r in p' ==> (r in p && p'[r] == p[r]) || (p'[r] == t && r == g.asks.nextReq < e.g.asks.nextReq
                                                             && e.next.Some? && AskOf(e.next.value.pc) == Some(r)))
    && (forall r :: r in p' && AskOf(th.pc) == Some(r) ==> e.next.Some? && AskOf(e.next.value.pc) == Some(r))
  }

  /** Outside Ask and the gate no request is opened, closed or kept. */
  lemma AskOutside(g: Globals, t: Tid, th: Thread, c: Choice)
    requires !th.pc.Ask? && !th.pc.Gate?
    ensures LocalStep(g, t, th, c).g.asks == g.asks && AskOf(th.pc) == None
  {
    match th.pc {
      case Edge(pc) =>
      case Drain(pc) =>
      case Stop(_, pc) =>
      case Call(pc) =>
    }
  }

  lemma AskLocal(g: Globals, t: Tid, th: Thread, c: Choice)
    ensures AskOk(g, t, th, LocalStep(g, t, th, c))
  {
    match th.pc {
      case Gate(pc) =>
      case Ask(pc) =>
      case _ => AskOutside(g, t, th, c);
    }
  }

  lemma AskEntryStep(s: State, t: Tid, c: Choice, r: nat)
    requires Inv(s) && Enabled(s, Step(t, c)) && r in Next(s, Step(t, c)).g.asks.pending
    ensures var s' := Next(s, Step(t, c));
            && r < s'.g.asks.nextReq && s'.g.asks.pending[r] in s'.threads
            && AskOf(s'.threads[s'.g.asks.pending[r]].pc) == Some(r)
  {
    FreshIsUnused(s);
    AskLocal(s.g, t, s.threads[t], c);
    assert r in s.g.asks.pending ==> AskOf(s.threads[s.g.asks.pending[r]].pc) == Some(r);
  }

  lemma AsksStep(s: State, t: Tid, c: Choice)
    requires Inv(s) && Enabled(s, Step(t, c))
    ensures AskInv(Next(s, Step(t, c)))
  {
    var th := s.threads[t];
    var s' := Next(s, Step(t, c));
    FreshIsUnused(s);
    AskLocal(s.g, t, th, c);
    forall r | r in s'.g.asks.pending
      ensures r < s'.g.asks.nextReq && s'.g.asks.pending[r] in s'.threads
      ensures AskOf(s'.threads[s'.g.asks.pending[r]].pc) == Some(r)
    {
      AskEntryStep(s, t, c, r);
    }
  }

  lemma StepKeepsInv(s: State, t: Tid, c: Choice)
    requires Inv(s) && Enabled(s, Step(t, c))
    ensures Inv(Next(s, Step(t, c)))
  {
    SharedStep(s, t, c);
    ThreadsStep(s, t, c);
    PresentStep(s, t, c);
    CountStep(s, t, c);
    WakesStep(s, t, c);
    AsksStep(s, t, c);
  }

  lemma ExternalKnown(s: State, mail: Mail, pc: EdgePC)
    requires Inv(s) && mail == s.g.mail.(issued := mail.issued)
    requires pc.SendPush? || pc.PoisonStore?
    ensures ThreadsInv(AddThread(s, mail, Edge(pc)))
  {
    var s' := AddThread(s, mail, Edge(pc));
    forall u | u in s'.threads
      ensures Known(s'.g, u, s'.threads[u])
    {
      if u != s.g.c.nextTid { assert Known(s.g, u, s.threads[u]); }
    }
  }

  lemma ExternalRest(s: State, mail: Mail, pc: EdgePC)
    requires Inv(s) && mail == s.g.mail.(issued := mail.issued)
    requires pc.SendPush? || pc.PoisonStore?
    ensures var s' := AddThread(s, mail, Edge(pc)); PresentInv(s') && WakeInv(s') && AskInv(s')
  {
    var s' := AddThread(s, mail, Edge(pc));
    FreshIsUnused(s);
    assert forall u :: u in s.threads ==> u in s'.threads && s'.threads[u] == s.threads[u];
  }

  lemma ExternalKeepsInv(s: State, mail: Mail, pc: EdgePC)
    requires Inv(s) && mail == s.g.mail.(issued := mail.issued)
    requires pc.SendPush? || pc.PoisonStore?
    ensures Inv(AddThread(s, mail, Edge(pc)))
  {
    var s' := AddThread(s, mail, Edge(pc));
    assert CountInv(s') by {
      FreshIsUnused(s);
      SumAdd(s.threads, s.g.c.nextTid, External(Edge(pc)), CountedWeight);
    }
    assert ThreadsInv(s') by { ExternalKnown(s, mail, pc); }
    ExternalRest(s, mail, pc);
  }

  lemma ReplyKeepsInv(s: State, r: nat)
    requires Inv(s) && r in s.g.asks.pending
    ensures Inv(Next(s, Reply(r)))
  {
    forall u | u in s.threads ensures Known(Next(s, Reply(r)).g, u, s.threads[u]) {
      assert Known(s.g, u, s.threads[u]);
    }
  }

  lemma NextKeepsInv(s: State, a: Action)
    requires Inv(s) && Enabled(s, a)
    ensures Inv(Next(s, a))
  {
    match a {
      case Step(t, c) => StepKeepsInv(s, t, c);
      case NewSender(kind, tellExits) =>
        var m := Msg(s.g.c.nextTid, kind, tellExits);
        ExternalKeepsInv(s, s.g.mail.(issued := s.g.mail.issued[m.id := m]), SendPush(m));
      case NewPoisoner => ExternalKeepsInv(s, s.g.mail, PoisonStore);
      case Reply(r) => ReplyKeepsInv(s, r);
    }
  }

  lemma InitialInv(s: State)
    requires IsInitial(s)
    ensures Inv(s)
  {
    var ts := s.threads;
    assert Sum(ts, 2, CountedWeight) == Sum(ts, 1, CountedWeight) + CountedWeight(ts[1]);
    assert 1 in ts && OwesForQueue(ts[1]);
  }

  lemma {:induction false} RunInv(run: seq<State>, acts: seq<Action>, n: nat)
    requires IsRun(run, acts) && n <= |acts|
    ensures Inv(run[n])
  {
    if n == 0 { InitialInv(run[0]); } else {
      RunInv(run, acts, n - 1);
      NextKeepsInv(run[n - 1], acts[n - 1]);
    }
  }

  /** Every reachable state satisfies the invariant. */
  lemma ReachableInv(s: State)
    requires Reachable(s)
    ensures Inv(s)
  {
    var run, acts :| IsRun(run, acts) && run[|acts|] == s;
    RunInv(run, acts, |acts|);
  }
}
