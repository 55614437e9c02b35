/** The pending-Ask protocol keeps its invariant, and what follows for waiters and repliers. */
module PendingAsksSafety {
  import opened Options
  import opened PendingAsks

  ghost predicate Before(s: State, t: Tid, c: Choice) { Inv(s) && t in s.threads && CanStep(s.g, t, s.threads[t], c) }

  ghost predicate PresentBefore(s: State, t: Tid, c: Choice) {
    PresentInv(s) && t in s.threads && Local(s.g, t, s.threads[t], c)
  }

  ghost predicate Local(g: Globals, t: Tid, th: Thread, c: Choice) {
    GlobalInv(g) && ThreadInv(g, t, th) && CanStep(g, t, th, c)
  }

  lemma ValuesAsk(g: Globals, t: Tid, pc: AskPC, id: Id, c: Choice)
    requires Local(g, t, Asker(pc, id), c)
    ensures ValueInv(StepAsk(g, t, id, pc, c).g)
  {
  }

  lemma TableAsk(g: Globals, t: Tid, pc: AskPC, id: Id, c: Choice)
    requires Local(g, t, Asker(pc, id), c)
    ensures IdsInv(StepAsk(g, t, id, pc, c).g) && TableInv(StepAsk(g, t, id, pc, c).g)
  {
  }

  lemma SelfAsk(g: Globals, t: Tid, pc: AskPC, id: Id, c: Choice)
    requires Local(g, t, Asker(pc, id), c)
    ensures var e := StepAsk(g, t, id, pc, c); e.next.Some? ==> ThreadInv(e.g, t, e.next.value)
  {
  }

  lemma OtherAsk(g: Globals, t: Tid, pc: AskPC, id: Id, c: Choice, u: Tid, thu: Thread)
    requires Local(g, t, Asker(pc, id), c) && u != t && ThreadInv(g, u, thu)
    ensures ThreadInv(StepAsk(g, t, id, pc, c).g, u, thu)
  {
  }

  /** An asker touches only its own reader slot and its own table entry. */
  ghost predicate AskerMoved(s: State, t: Tid, id: Id, e: Effect) {
    && e.g.writer == s.g.writer && e.g.promise == s.g.promise
    && (e.next.Some? ==> e.next.value.Asker? && e.next.value.id == id)
    && (forall u :: u in e.g.readers ==> u in s.g.readers || u == t)
    && (forall i :: i in e.g.pending ==> (i in s.g.pending && e.g.pending[i] == s.g.pending[i]) || (i == id && e.g.pending[i] == t))
    && (e.next.None? ==> t !in e.g.readers && forall i :: i in e.g.pending ==> e.g.pending[i] != t)
  }

  lemma AskerMoves(s: State, t: Tid, pc: AskPC, id: Id, c: Choice)
    requires t in s.threads && s.threads[t] == Asker(pc, id) && Local(s.g, t, s.threads[t], c)
    ensures AskerMoved(s, t, id, StepAsk(s.g, t, id, pc, c))
  {
  }

  lemma AskerPresent(s: State, t: Tid, id: Id, e: Effect)
    requires PresentInv(s) && t in s.threads && s.threads[t].Asker? && s.threads[t].id == id && AskerMoved(s, t, id, e)
    ensures PresentInv(Apply(s, t, e))
  {
  }

  lemma PresentAsk(s: State, t: Tid, pc: AskPC, id: Id, c: Choice)
    requires PresentBefore(s, t, c) && s.threads[t] == Asker(pc, id)
    ensures PresentInv(Apply(s, t, StepAsk(s.g, t, id, pc, c)))
  {
    AskerMoves(s, t, pc, id, c);
    AskerPresent(s, t, id, StepAsk(s.g, t, id, pc, c));
  }

  lemma GlobalPop(g: Globals, t: Tid, id: Id, body: nat, c: Choice)
    requires Local(g, t, Replier(Pop(id, body)), c)
    ensures GlobalInv(StepReply(g, t, Pop(id, body)).g)
  {
  }

  lemma SelfPop(g: Globals, t: Tid, id: Id, body: nat, c: Choice)
    requires Local(g, t, Replier(Pop(id, body)), c)
    ensures var e := StepReply(g, t, Pop(id, body)); e.next.Some? ==> ThreadInv(e.g, t, e.next.value)
  {
  }

  lemma OtherPop(g: Globals, t: Tid, id: Id, body: nat, c: Choice, u: Tid, thu: Thread)
    requires Local(g, t, Replier(Pop(id, body)), c) && u != t && ThreadInv(g, u, thu)
    ensures ThreadInv(StepReply(g, t, Pop(id, body)).g, u, thu)
  {
  }

  lemma PresentPop(s: State, t: Tid, id: Id, body: nat, c: Choice)
    requires PresentBefore(s, t, c) && s.threads[t] == Replier(Pop(id, body))
    ensures PresentInv(Apply(s, t, StepReply(s.g, t, Pop(id, body))))
  {
  }

  lemma GlobalSend(g: Globals, t: Tid, ch: Tid, v: Value, c: Choice)
    requires Local(g, t, Replier(TrySend(ch, v)), c)
    ensures GlobalInv(StepReply(g, t, TrySend(ch, v)).g)
  {
  }

  lemma SelfSend(g: Globals, t: Tid, ch: Tid, v: Value, c: Choice)
    requires Local(g, t, Replier(TrySend(ch, v)), c)
    ensures var e := StepReply(g, t, TrySend(ch, v)); e.next.Some? ==> ThreadInv(e.g, t, e.next.value)
  {
  }

  lemma OtherSend(g: Globals, t: Tid, ch: Tid, v: Value, c: Choice, u: Tid, thu: Thread)
    requires Local(g, t, Replier(TrySend(ch, v)), c) && u != t && ThreadInv(g, u, thu)
    ensures ThreadInv(StepReply(g, t, TrySend(ch, v)).g, u, thu)
  {
  }

  lemma PresentSend(s: State, t: Tid, ch: Tid, v: Value, c: Choice)
    requires PresentBefore(s, t, c) && s.threads[t] == Replier(TrySend(ch, v))
    ensures PresentInv(Apply(s, t, StepReply(s.g, t, TrySend(ch, v))))
  {
  }

  lemma ValuesClose(g: Globals, t: Tid, pc: ClosePC, c: Choice)
    requires Local(g, t, Closer(pc), c)
    ensures ValueInv(StepClose(g, t, pc, c).g)
  {
  }

  lemma TableClose(g: Globals, t: Tid, pc: ClosePC, c: Choice)
    requires Local(g, t, Closer(pc), c)
    ensures IdsInv(StepClose(g, t, pc, c).g) && TableInv(StepClose(g, t, pc, c).g)
  {
  }

  lemma SelfClose(g: Globals, t: Tid, pc: ClosePC, c: Choice)
    requires Local(g, t, Closer(pc), c)
    ensures var e := StepClose(g, t, pc, c); e.next.Some? ==> ThreadInv(e.g, t, e.next.value)
  {
  }

  lemma OtherClose(g: Globals, t: Tid, pc: ClosePC, c: Choice, u: Tid, thu: Thread)
    requires Local(g, t, Closer(pc), c) && u != t && ThreadInv(g, u, thu)
    ensures ThreadInv(StepClose(g, t, pc, c).g, u, thu)
  {
  }

  /** A closer touches none of the cells that refer to goroutines but the writer. */
  predicate CloserMoved(s: State, t: Tid, e: Effect) {
    && e.g.readers == s.g.readers && e.g.promise == s.g.promise && e.g.pending == s.g.pending
    && (e.next.Some? ==> e.next.value.Closer?)
    && (e.g.writer == s.g.writer || e.g.writer == 0 || e.g.writer == t)
    && (e.next.None? ==> e.g.writer != t)
  }

  lemma CloserMoves(s: State, t: Tid, pc: ClosePC, c: Choice)
    requires t in s.threads && s.threads[t] == Closer(pc) && Local(s.g, t, s.threads[t], c)
    ensures CloserMoved(s, t, StepClose(s.g, t, pc, c))
  {
  }

  lemma CloserPresent(s: State, t: Tid, e: Effect)
    requires PresentInv(s) && t in s.threads && s.threads[t].Closer? && CloserMoved(s, t, e)
    ensures PresentInv(Apply(s, t, e))
  {
  }

  lemma PresentClose(s: State, t: Tid, pc: ClosePC, c: Choice)
    requires PresentBefore(s, t, c) && s.threads[t] == Closer(pc)
    ensures PresentInv(Apply(s, t, StepClose(s.g, t, pc, c)))
  {
    CloserMoves(s, t, pc, c);
    CloserPresent(s, t, StepClose(s.g, t, pc, c));
  }

  lemma GlobalStep(g: Globals, t: Tid, th: Thread, c: Choice)
    requires Local(g, t, th, c)
    ensures GlobalInv(LocalStep(g, t, th, c).g)
  {
    match th {
      case Asker(pc, id) => ValuesAsk(g, t, pc, id, c); TableAsk(g, t, pc, id, c);
      case Replier(Pop(id, body)) => GlobalPop(g, t, id, body, c);
      case Replier(TrySend(ch, v)) => GlobalSend(g, t, ch, v, c);
      case Closer(pc) => ValuesClose(g, t, pc, c); TableClose(g, t, pc, c);
    }
  }

  lemma SelfStep(g: Globals, t: Tid, th: Thread, c: Choice)
    requires Local(g, t, th, c)
    ensures var e := LocalStep(g, t, th, c); e.next.Some? ==> ThreadInv(e.g, t, e.next.value)
  {
    match th {
      case Asker(pc, id) => SelfAsk(g, t, pc, id, c);
      case Replier(Pop(id, body)) => SelfPop(g, t, id, body, c);
      case Replier(TrySend(ch, v)) => SelfSend(g, t, ch, v, c);
      case Closer(pc) => SelfClose(g, t, pc, c);
    }
  }

  lemma OtherStep(g: Globals, t: Tid, th: Thread, c: Choice, u: Tid, thu: Thread)
    requires Local(g, t, th, c) && u != t && ThreadInv(g, u, thu)
    ensures ThreadInv(LocalStep(g, t, th, c).g, u, thu)
  {
    match th {
      case Asker(pc, id) => OtherAsk(g, t, pc, id, c, u, thu);
      case Replier(Pop(id, body)) => OtherPop(g, t, id, body, c, u, thu);
      case Replier(TrySend(ch, v)) => OtherSend(g, t, ch, v, c, u, thu);
      case Closer(pc) => OtherClose(g, t, pc, c, u, thu);
    }
  }

  lemma PresentStep(s: State, t: Tid, c: Choice)
    requires Before(s, t, c)
    ensures PresentInv(Next(s, Step(t, c)))
  {
    assert ThreadInv(s.g, t, s.threads[t]);
    match s.threads[t] {
      case Asker(pc, id) => PresentAsk(s, t, pc, id, c);
      case Replier(Pop(id, body)) => PresentPop(s, t, id, body, c);
      case Replier(TrySend(ch, v)) => PresentSend(s, t, ch, v, c);
      case Closer(pc) => PresentClose(s, t, pc, c);
    }
  }

  lemma StepKeepsInv(s: State, t: Tid, c: Choice)
    requires Before(s, t, c)
    ensures Inv(Next(s, Step(t, c)))
  {
    var s', th := Next(s, Step(t, c)), s.threads[t];
    assert Local(s.g, t, th, c);
    GlobalStep(s.g, t, th, c);
    SelfStep(s.g, t, th, c);
    PresentStep(s, t, c);
    forall u | u in s'.threads ensures ThreadInv(s'.g, u, s'.threads[u]) {
      if u != t { OtherStep(s.g, t, th, c, u, s.threads[u]); }
    }
  }

  /** A newcomer disturbs nobody and knows nothing yet. */
  lemma ArrivalOther(s: State, a: Action, u: Tid)
    requires Inv(s) && !a.Step? && u in s.threads
    ensures u < s.g.nextTid && ThreadInv(Next(s, a).g, u, s.threads[u])
  {
    assert ThreadInv(s.g, u, s.threads[u]);
  }

  lemma ArrivalGlobal(s: State, a: Action)
    requires Inv(s) && !a.Step?
    ensures GlobalInv(Next(s, a).g)
  {
  }

  lemma ArrivalSelf(s: State, a: Action)
    requires Inv(s) && !a.Step?
    ensures var s' := Next(s, a); s.g.nextTid !in s.threads && ThreadInv(s'.g, s.g.nextTid, s'.threads[s.g.nextTid])
  {
    var n := s.g.nextTid;
    assert n in s.threads ==> ThreadInv(s.g, n, s.threads[n]);
    assert n !in s.g.readers && s.g.writer != n && n !in s.g.waiting;
  }

  lemma ArrivalKeepsInv(s: State, a: Action)
    requires Inv(s) && !a.Step?
    ensures Inv(Next(s, a))
  {
    var s' := Next(s, a);
    ArrivalGlobal(s, a);
    ArrivalSelf(s, a);
    forall u | u in s'.threads ensures ThreadInv(s'.g, u, s'.threads[u]) {
      if u != s.g.nextTid { ArrivalOther(s, a, u); }
    }
    assert PresentInv(s') by {
      assert forall u :: u in s.threads ==> u in s'.threads && s'.threads[u] == s.threads[u];
    }
  }

  lemma {:induction false} RunInv(run: seq<State>, acts: seq<Action>, n: nat)
    requires IsRun(run, acts) && n <= |acts|
    ensures Inv(run[n])
  {
    if n > 0 {
      RunInv(run, acts, n - 1);
      var a := acts[n - 1];
      if a.Step? { StepKeepsInv(run[n - 1], a.t, a.c); } else { ArrivalKeepsInv(run[n - 1], a); }
    }
  }

  lemma ReachableInv(s: State)
    requires Reachable(s)
    ensures Inv(s)
  {
    var run, acts :| IsRun(run, acts) && run[|acts|] == s;
    RunInv(run, acts, |acts|);
  }

  // ------------------------------------------------------------------ what it means

  /** Once registration is closed no request is admitted: the table only shrinks. */
  lemma NoAdmissionAfterClose(s: State, a: Action)
    requires Reachable(s) && Enabled(s, a) && s.g.closed
    ensures Next(s, a).g.closed && Next(s, a).g.pending.Keys <= s.g.pending.Keys
  {
    ReachableInv(s);
    if a.Step? {
      assert Local(s.g, a.t, s.threads[a.t], a.c);
      ClosedLocal(s.g, a.t, s.threads[a.t], a.c);
    }
  }

  predicate OnlyShrinks(g: Globals, h: Globals) { h.closed && forall id :: id in h.pending ==> id in g.pending }

  lemma ClosedAsker(g: Globals, t: Tid, pc: AskPC, id: Id, c: Choice)
    requires CanAsk(g, t, pc, c) && g.closed && !pc.Insert?
    ensures OnlyShrinks(g, StepAsk(g, t, id, pc, c).g)
  {
  }

  lemma ClosedCloser(g: Globals, t: Tid, pc: ClosePC, c: Choice)
    requires CanClose(g, pc, c) && g.closed
    ensures OnlyShrinks(g, StepClose(g, t, pc, c).g)
  {
  }

  lemma ClosedLocal(g: Globals, t: Tid, th: Thread, c: Choice)
    requires CanStep(g, t, th, c) && g.closed && !(th.Asker? && th.a.Insert?)
    ensures OnlyShrinks(g, LocalStep(g, t, th, c).g)
  {
    match th {
      case Asker(pc, id) => ClosedAsker(g, t, pc, id, c);
      case Replier(pc) =>
      case Closer(pc) => ClosedCloser(g, t, pc, c);
    }
  }

  ghost predicate Committed(s: State, r: Tid, t: Tid) {
    r in s.threads && s.threads[r].Replier? && s.threads[r].r.TrySend? && s.threads[r].r.ch == t
  }

  /** When a wake-up has ended, every admitted waiter that has not been cancelled has a value in its
      channel, or exactly one replier holds its channel and is about to send without blocking. */
  lemma WakeReachesEveryWaiter(s: State, t: Tid)
    requires Reachable(s) && s.g.awake && t in s.threads && s.threads[t].Asker? && s.threads[t].a.Await?
    ensures Enabled(s, Step(t, Go)) || exists r :: Committed(s, r, t)
    ensures forall r, r' :: Committed(s, r, t) && Committed(s, r', t) ==> r == r'
  {
    ReachableInv(s);
    var id := s.threads[t].id;
    assert ThreadInv(s.g, t, s.threads[t]);
    if !Filled(s.g, t) {
      assert t in s.g.promise;
      assert Committed(s, s.g.promise[t], t);
    }
    forall r, r' | Committed(s, r, t) && Committed(s, r', t) ensures r == r' {
      assert ThreadInv(s.g, r, s.threads[r]) && ThreadInv(s.g, r', s.threads[r']);
    }
  }

  /** Until it ends its wait, a waiter is always reachable: by its table entry, a buffered value or
      a committed replier. No reply or wake-up is lost by racing with another. */
  lemma WaiterIsReachable(s: State, t: Tid)
    requires Reachable(s) && t in s.threads && s.threads[t].Asker? && s.threads[t].a.Await?
    ensures IsEntry(s.g, s.threads[t].id, t) || Filled(s.g, t) || exists r :: Committed(s, r, t)
  {
    ReachableInv(s);
    assert ThreadInv(s.g, t, s.threads[t]);
    if t in s.g.promise { assert Committed(s, s.g.promise[t], t); }
  }

  /** Replying never blocks, and the default branch is harmless: a channel that a replier finds full
      holds the stopping error, never another reply. Otherwise the reply is delivered. */
  lemma RepliesNeverCollide(s: State, t: Tid, ch: Tid, v: Value)
    requires Reachable(s) && t in s.threads && s.threads[t] == Replier(TrySend(ch, v))
    ensures Enabled(s, Step(t, Go))
    ensures Filled(s.g, ch) ==> s.g.chans[ch] == Some(Stopping)
    ensures !Filled(s.g, ch) ==> ch in Next(s, Step(t, Go)).g.chans && Next(s, Step(t, Go)).g.chans[ch] == Some(v)
  {
    ReachableInv(s);
    assert ThreadInv(s.g, t, s.threads[t]);
  }

  /** A channel receives at most one reply: once it holds one, no table entry and no replier leads to it. */
  lemma OneReplyPerChannel(s: State, ch: Tid, r: Tid)
    requires Reachable(s) && Filled(s.g, ch) && s.g.chans[ch].value.Reply?
    ensures !Committed(s, r, ch) && forall id :: id in s.g.pending ==> s.g.pending[id] != ch
  {
    ReachableInv(s);
    assert r in s.threads ==> ThreadInv(s.g, r, s.threads[r]);
  }

  /** A waiter reads only a reply to its own request id, or the stopping error. */
  lemma WaiterReadsItsOwn(s: State, t: Tid)
    requires Reachable(s) && t in s.threads && s.threads[t].Asker?
    requires s.threads[t].a.Cancel? && s.threads[t].a.got.Some?
    ensures Mine(s.threads[t].a.got.value, s.threads[t].id)
  {
    ReachableInv(s);
    assert ThreadInv(s.g, t, s.threads[t]);
  }

  /** Every table entry belongs to a live request that will cancel it: nothing leaks. */
  lemma EntriesAreLive(s: State, id: Id)
    requires Reachable(s) && id in s.g.pending
    ensures var t := s.g.pending[id];
            t in s.threads && s.threads[t].Asker? && s.threads[t].id == id
            && (s.threads[t].a.Unlock? || s.threads[t].a.Await? || s.threads[t].a.Cancel?)
  {
    ReachableInv(s);
    assert ThreadInv(s.g, s.g.pending[id], s.threads[s.g.pending[id]]);
  }
}
