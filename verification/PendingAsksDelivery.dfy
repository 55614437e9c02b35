/** What an Ask returns: where its answer comes from, over every run. */
module PendingAsksDelivery {
  import opened Options
  import opened PendingAsks
  import opened PendingAsksSafety

  // ------------------------------------------------------------------ sources

  /** The wake-up loop treats channel ch. */
  predicate Wakes(s: State, a: Action, ch: Tid) {
    a.Step? && a.t in s.threads && s.threads[a.t].Closer? && s.threads[a.t].w.Wake? && a.c == Target(ch)
  }

  /** What has happened so far: the replies issued, the channels a wake-up treated, the waits whose timer
      fired, and whether a shutdown began. */
  datatype Past = Past(issued: iset<(Id, nat)>, woken: iset<Tid>, late: iset<Tid>, closing: bool)

  ghost predicate After(p: Past, s: State, a: Action, q: Past) {
    && q.issued == p.issued + (iset x: (Id, nat) | a == NewReplier(x.0, x.1))
    && q.woken == p.woken + (iset ch | Wakes(s, a, ch))
    && q.late == p.late + (iset t | a == Step(t, Timeout))
    && (q.closing <==> p.closing || a.NewCloser?)
  }

  /** A value in channel ch was put there by a wake-up, or is a reply that was issued. */
  ghost predicate ValueFrom(p: Past, v: Value, ch: Tid) { if v.Stopping? then ch in p.woken else (v.id, v.body) in p.issued }

  ghost predicate ThreadFrom(p: Past, t: Tid, th: Thread) {
    match th
    case Asker(Cancel(None), _) => t in p.late
    case Asker(Cancel(Some(v)), _) => ValueFrom(p, v, t) && t !in p.late
    case Asker(_, _) => t !in p.late
    case Replier(Pop(id, body)) => (id, body) in p.issued
    case Replier(TrySend(_, v)) => v.Reply? && (v.id, v.body) in p.issued
    case Closer(_) => p.closing
  }

  ghost predicate Sourced(s: State, p: Past) {
    && (forall ch :: Filled(s.g, ch) ==> ValueFrom(p, s.g.chans[ch].value, ch))
    && (forall t :: t in s.threads ==> ThreadFrom(p, t, s.threads[t]))
    && (forall t :: t in p.late ==> t < s.g.nextTid)
    && (s.g.closed ==> p.closing)
  }

  lemma ChannelStep(s: State, t: Tid, c: Choice, p: Past, q: Past, ch: Tid)
    requires Sourced(s, p) && Enabled(s, Step(t, c)) && After(p, s, Step(t, c), q) && Filled(Next(s, Step(t, c)).g, ch)
    ensures ValueFrom(q, Next(s, Step(t, c)).g.chans[ch].value, ch)
  {
    assert ThreadFrom(p, t, s.threads[t]);
    assert Filled(s.g, ch) ==> ValueFrom(p, s.g.chans[ch].value, ch);
    ChannelMoved(s.g, t, s.threads[t], c, ch);
  }

  /** A channel's value was there before, or is what a replier or a wake-up puts into it; and only the
      waiter takes one out. */
  predicate ChannelOk(g: Globals, t: Tid, th: Thread, c: Choice, h: Globals, ch: Tid) {
    && (Filled(h, ch) ==>
          || (Filled(g, ch) && h.chans[ch] == g.chans[ch])
          || (th.Replier? && th.r.TrySend? && h.chans[ch] == Some(th.r.v))
          || (th.Closer? && th.w.Wake? && c == Target(ch) && h.chans[ch] == Some(Stopping)))
    && (t != ch && Filled(g, ch) ==> Filled(h, ch) && h.chans[ch] == g.chans[ch])
  }

  lemma ChannelAsker(g: Globals, t: Tid, pc: AskPC, id: Id, c: Choice, ch: Tid)
    requires CanAsk(g, t, pc, c)
    ensures ChannelOk(g, t, Asker(pc, id), c, StepAsk(g, t, id, pc, c).g, ch)
  {
  }

  lemma ChannelReplier(g: Globals, t: Tid, pc: ReplyPC, c: Choice, ch: Tid)
    ensures ChannelOk(g, t, Replier(pc), c, StepReply(g, t, pc).g, ch)
  {
  }

  lemma ChannelCloser(g: Globals, t: Tid, pc: ClosePC, c: Choice, ch: Tid)
    requires CanClose(g, pc, c)
    ensures ChannelOk(g, t, Closer(pc), c, StepClose(g, t, pc, c).g, ch)
  {
  }

  lemma ChannelMoved(g: Globals, t: Tid, th: Thread, c: Choice, ch: Tid)
    requires CanStep(g, t, th, c)
    ensures ChannelOk(g, t, th, c, LocalStep(g, t, th, c).g, ch)
  {
    match th {
      case Asker(pc, id) => ChannelAsker(g, t, pc, id, c, ch);
      case Replier(pc) => ChannelReplier(g, t, pc, c, ch);
      case Closer(pc) => ChannelCloser(g, t, pc, c, ch);
    }
  }

  lemma MoverStep(s: State, t: Tid, c: Choice, p: Past, q: Past)
    requires Sourced(s, p) && Enabled(s, Step(t, c)) && After(p, s, Step(t, c), q) && t in Next(s, Step(t, c)).threads
    ensures ThreadFrom(q, t, Next(s, Step(t, c)).threads[t])
  {
    assert ThreadFrom(p, t, s.threads[t]);
    if Filled(s.g, t) { assert ValueFrom(p, s.g.chans[t].value, t); }
  }

  lemma OtherKept(p: Past, s: State, a: Action, q: Past, u: Tid, th: Thread)
    requires After(p, s, a, q) && ThreadFrom(p, u, th) && (a.Step? ==> a.t != u)
    ensures ThreadFrom(q, u, th)
  {
  }

  lemma StepSourced(s: State, t: Tid, c: Choice, p: Past, q: Past)
    requires Inv(s) && Sourced(s, p) && Enabled(s, Step(t, c)) && After(p, s, Step(t, c), q)
    ensures Sourced(Next(s, Step(t, c)), q)
  {
    var s' := Next(s, Step(t, c));
    assert ThreadInv(s.g, t, s.threads[t]) && ThreadFrom(p, t, s.threads[t]);
    forall ch | Filled(s'.g, ch) ensures ValueFrom(q, s'.g.chans[ch].value, ch) { ChannelStep(s, t, c, p, q, ch); }
    forall u | u in s'.threads ensures ThreadFrom(q, u, s'.threads[u]) {
      if u == t { MoverStep(s, t, c, p, q); } else { OtherKept(p, s, Step(t, c), q, u, s.threads[u]); }
    }
  }

  lemma ArrivalSourced(s: State, a: Action, p: Past, q: Past)
    requires Inv(s) && Sourced(s, p) && !a.Step? && After(p, s, a, q)
    ensures Sourced(Next(s, a), q)
  {
    var s' := Next(s, a);
    forall u | u in s'.threads ensures ThreadFrom(q, u, s'.threads[u]) {
      if u != s.g.nextTid { OtherKept(p, s, a, q, u, s.threads[u]); }
    }
  }

  // ------------------------------------------------------------------ over runs

  ghost predicate Issued(acts: seq<Action>, n: nat, id: Id, body: nat)
    requires n <= |acts|
  {
    NewReplier(id, body) in acts[..n]
  }

  ghost predicate TimedOut(acts: seq<Action>, n: nat, t: Tid)
    requires n <= |acts|
  {
    Step(t, Timeout) in acts[..n]
  }

  ghost predicate Woken(run: seq<State>, acts: seq<Action>, n: nat, ch: Tid)
    requires n <= |acts| <= |run|
  {
    exists i :: 0 <= i < n && Wakes(run[i], acts[i], ch)
  }

  ghost predicate ShutDown(acts: seq<Action>, n: nat)
    requires n <= |acts|
  {
    NewCloser in acts[..n]
  }

  ghost function PastOf(run: seq<State>, acts: seq<Action>, n: nat): Past
    requires n <= |acts| <= |run|
  {
    Past((iset x: (Id, nat) | Issued(acts, n, x.0, x.1)), (iset ch | Woken(run, acts, n, ch)),
         (iset t | TimedOut(acts, n, t)), ShutDown(acts, n))
  }

  lemma PastGrows(run: seq<State>, acts: seq<Action>, n: nat)
    requires 0 < n <= |acts| <= |run|
    ensures After(PastOf(run, acts, n - 1), run[n - 1], acts[n - 1], PastOf(run, acts, n))
  {
    assert acts[..n] == acts[..n - 1] + [acts[n - 1]];
  }

  lemma {:induction false} RunSourced(run: seq<State>, acts: seq<Action>, n: nat)
    requires IsRun(run, acts) && n <= |acts|
    ensures Sourced(run[n], PastOf(run, acts, n))
  {
    if n > 0 {
      RunSourced(run, acts, n - 1);
      RunInv(run, acts, n - 1);
      PastGrows(run, acts, n);
      var a, p, q := acts[n - 1], PastOf(run, acts, n - 1), PastOf(run, acts, n);
      if a.Step? { StepSourced(run[n - 1], a.t, a.c, p, q); } else { ArrivalSourced(run[n - 1], a, p, q); }
    }
  }

  /** What an Ask returns has its cause in the run: nothing exactly when its timer fired, the stopping error
      only when a wake-up treated its channel, and a reply only one that was issued to its own request
      with that content. */
  lemma AnswerHasItsCause(run: seq<State>, acts: seq<Action>, n: nat, t: Tid)
    requires IsRun(run, acts) && n <= |acts| && t in run[n].threads && run[n].threads[t].Asker? && run[n].threads[t].a.Cancel?
    ensures var got := run[n].threads[t].a.got;
            && (got == None <==> TimedOut(acts, n, t))
            && (got == Some(Stopping) ==> Woken(run, acts, n, t) && ShutDown(acts, n))
            && (got.Some? && got.value.Reply? ==>
                  got.value.id == run[n].threads[t].id && Issued(acts, n, got.value.id, got.value.body))
  {
    RunSourced(run, acts, n);
    RunInv(run, acts, n);
    assert ThreadFrom(PastOf(run, acts, n), t, run[n].threads[t]);
    assert ThreadInv(run[n].g, t, run[n].threads[t]);
    if i :| 0 <= i < n && Wakes(run[i], acts[i], t) { CloserFromShutdown(run, acts, i, n, acts[i].t); }
  }

  lemma CloserFromShutdown(run: seq<State>, acts: seq<Action>, i: nat, n: nat, c: Tid)
    requires IsRun(run, acts) && i <= n <= |acts| && c in run[i].threads && run[i].threads[c].Closer?
    ensures ShutDown(acts, n)
  {
    RunSourced(run, acts, i);
    assert ThreadFrom(PastOf(run, acts, i), c, run[i].threads[c]);
    assert NewCloser in acts[..i];
    var k :| 0 <= k < i && acts[..i][k] == NewCloser;
    assert acts[..n][k] == NewCloser;
  }

  /** Without a shutdown every Ask is admitted and none fails with the stopping error. */
  lemma NoShutdownNoStopping(run: seq<State>, acts: seq<Action>, n: nat, t: Tid)
    requires IsRun(run, acts) && n <= |acts| && !ShutDown(acts, n) && t in run[n].threads
    ensures !run[n].g.closed && (run[n].threads[t].Asker? ==> !run[n].threads[t].a.RefuseUnlock?)
    ensures run[n].threads[t].Asker? && run[n].threads[t].a.Cancel? ==> run[n].threads[t].a.got != Some(Stopping)
  {
    RunSourced(run, acts, n);
    RunInv(run, acts, n);
    assert ThreadInv(run[n].g, t, run[n].threads[t]);
    if run[n].threads[t].Asker? && run[n].threads[t].a.Cancel? { AnswerHasItsCause(run, acts, n, t); }
  }

  // ------------------------------------------------------------------ delivery

  /** A value in a waiter's channel stays there, whatever the others do, until the waiter moves. */
  lemma ValueStays(s: State, a: Action, t: Tid)
    requires Reachable(s) && Enabled(s, a) && t in s.threads && s.threads[t].Asker? && Filled(s.g, t)
    requires a.Step? ==> a.t != t
    ensures Filled(Next(s, a).g, t) && Next(s, a).g.chans[t] == s.g.chans[t]
  {
    ReachableInv(s);
    if a.Step? { ChannelMoved(s.g, a.t, s.threads[a.t], a.c, t); }
  }

  /** And then it is what the waiter returns, unless its timer fires first. */
  lemma WaiterReturnsTheValue(s: State, t: Tid)
    requires Reachable(s) && t in s.threads && s.threads[t].Asker? && s.threads[t].a.Await? && Filled(s.g, t)
    ensures Enabled(s, Step(t, Go)) && t in Next(s, Step(t, Go)).threads
    ensures Next(s, Step(t, Go)).threads[t] == Asker(Cancel(s.g.chans[t]), s.threads[t].id)
  {
  }

  lemma NextReaches(s: State, a: Action)
    requires Reachable(s) && Enabled(s, a)
    ensures Reachable(Next(s, a))
  {
    var run, acts :| IsRun(run, acts) && run[|acts|] == s;
    assert IsRun(run + [Next(s, a)], acts + [a]);
  }

  /** A reply to a waiting request arrives: the replier takes the entry and sends, and the waiter returns
      exactly that reply. */
  lemma ReplyArrives(s: State, r: Tid, t: Tid, id: Id, body: nat)
    requires Reachable(s) && r in s.threads && s.threads[r] == Replier(Pop(id, body)) && IsEntry(s.g, id, t)
    requires t in s.threads && s.threads[t] == Asker(Await, id) && !Filled(s.g, t)
    ensures Enabled(s, Step(r, Go)) && Enabled(Next(s, Step(r, Go)), Step(r, Go))
    ensures Enabled(Next(Next(s, Step(r, Go)), Step(r, Go)), Step(t, Go))
    ensures var end := Next(Next(Next(s, Step(r, Go)), Step(r, Go)), Step(t, Go));
            t in end.threads && end.threads[t] == Asker(Cancel(Some(Reply(id, body))), id)
  {
    ReachableInv(s);
    assert ThreadInv(s.g, t, s.threads[t]);
    var s1 := Next(s, Step(r, Go));
    NextReaches(s, Step(r, Go));
    RepliesNeverCollide(s1, r, t, Reply(id, body));
    NextReaches(s1, Step(r, Go));
    WaiterReturnsTheValue(Next(s1, Step(r, Go)), t);
  }
}
