/** Conservation of messages: every message ever issued is in exactly one place. */
module ActorDelivery {
  import opened Options
  import opened ActorModel
  import opened ActorInvariant
  import opened ActorPreservation
  import opened ActorSafety
  import RingBuffer

  ghost function Count(q: seq<Msg>, id: nat): nat {
    if q == [] then 0 else Count(q[..|q| - 1], id) + (if q[|q| - 1].id == id then 1 else 0)
  }

  ghost function Refusals(q: seq<Refusal>, id: nat): nat {
    if q == [] then 0 else Refusals(q[..|q| - 1], id) + (if q[|q| - 1].msg.id == id then 1 else 0)
  }

  lemma {:induction false} CountConcat(a: seq<Msg>, b: seq<Msg>, id: nat)
    ensures Count(a + b, id) == Count(a, id) + Count(b, id)
  {
    if b == [] { assert a + b == a; } else {
      assert (a + b)[..|a + b| - 1] == a + b[..|b| - 1];
      CountConcat(a, b[..|b| - 1], id);
    }
  }

  lemma RefusalsAppend(q: seq<Refusal>, r: Refusal, id: nat)
    ensures Refusals(q + [r], id) == Refusals(q, id) + (if r.msg.id == id then 1 else 0)
  {
    assert (q + [r])[..|q|] == q;
  }

  /** The message a sender still has in hand: before Push, or refused and not yet dead-lettered. */
  function InHand(pc: PC): Option<Msg> {
    match pc
    case Edge(SendPush(m)) => Some(m)
    case Edge(RefuseTell(m, _)) => Some(m)
    case Edge(RefuseEmit(m, _)) => Some(m)
    case _ => None
  }

  ghost function WithSender(s: State, id: nat): nat {
    if id in s.threads && InHand(s.threads[id].pc).Some? then 1 else 0
  }

  /** Where a message is that has left its sender's hands. */
  ghost function Settled(m: Mail, id: nat): nat { Count(m.accepted, id) + Refusals(m.refused, id) + Count(m.dropped, id) }

  ghost function Places(s: State, id: nat): nat { Settled(s.g.mail, id) + WithSender(s, id) }

  /** A sender's message carries the sender's own id. Issued messages are in one place, id 0 is
      start-up, any other id is nowhere. */
  ghost predicate PostInv(s: State) {
    && (forall t :: t in s.threads && InHand(s.threads[t].pc).Some? ==>
          InHand(s.threads[t].pc).value.id == t && t in s.g.mail.issued)
    && (forall id :: id in s.g.mail.issued ==> 0 < id < s.g.c.nextTid && Places(s, id) == 1)
    && (forall id :: id !in s.g.mail.issued ==> Places(s, id) == if id == 0 then 1 else 0)
  }

  // ------------------------------------------------------------------ steps

  /** Nothing is accepted, refused or dropped between m and n. */
  predicate Unsent(m: Mail, n: Mail) { n.accepted == m.accepted && n.refused == m.refused && n.dropped == m.dropped }

  predicate PostOk(g: Globals, th: Thread, e: Effect) {
    var h, h' := InHand(th.pc), if e.next.Some? then InHand(e.next.value.pc) else None;
    && e.g.mail.issued == g.mail.issued
    && (h.None? ==> h'.None? && Unsent(g.mail, e.g.mail))
    && (h.Some? ==>
          || (h' == h && Unsent(g.mail, e.g.mail))
          || (h'.None? && Unsent(g.mail.(accepted := g.mail.accepted + [h.value]), e.g.mail))
          || (h'.None? && Unsent(g.mail.(dropped := g.mail.dropped + [h.value]), e.g.mail))
          || (h'.None? && exists r :: Unsent(g.mail.(refused := g.mail.refused + [Refusal(h.value, r)]), e.g.mail)))
  }

  lemma PostEdge(g: Globals, t: Tid, th: Thread, pc: EdgePC)
    requires th.pc == Edge(pc)
    ensures PostOk(g, th, StepEdge(g, t, th, pc))
  {
    if pc.RefuseEmit? {
      assert Unsent(g.mail.(refused := g.mail.refused + [Refusal(pc.m, pc.reason)]), StepEdge(g, t, th, pc).g.mail);
    }
  }

  lemma PostDrain(g: Globals, t: Tid, th: Thread, c: Choice)
    requires th.pc.Drain? || th.pc.Gate? || th.pc.Ask?
    ensures PostOk(g, th, LocalStep(g, t, th, c))
  {
  }

  lemma PostLetter(g: Globals, t: Tid, th: Thread, c: Choice)
    requires th.pc.Stop? && (th.pc.l.LTell? || th.pc.l.LDead?)
    ensures PostOk(g, th, LocalStep(g, t, th, c))
  {
  }

  lemma PostStop(g: Globals, t: Tid, th: Thread, c: Choice)
    requires th.pc.Stop?
    ensures PostOk(g, th, LocalStep(g, t, th, c))
  {
    if th.pc.l.LTell? || th.pc.l.LDead? { PostLetter(g, t, th, c); }
  }

  lemma PostCall(g: Globals, t: Tid, th: Thread, c: Choice)
    requires th.pc.Call?
    ensures PostOk(g, th, LocalStep(g, t, th, c))
  {
  }

  lemma PostLocal(g: Globals, t: Tid, th: Thread, c: Choice)
    ensures PostOk(g, th, LocalStep(g, t, th, c))
  {
    match th.pc {
      case Edge(pc) => PostEdge(g, t, th, pc);
      case Drain(pc) => PostDrain(g, t, th, c);
      case Gate(pc) => PostDrain(g, t, th, c);
      case Ask(pc) => PostDrain(g, t, th, c);
      case Stop(_, pc) => PostStop(g, t, th, c);
      case Call(pc) => PostCall(g, t, th, c);
    }
  }

  /** Only the goroutine that moves can put a message in hand or take one out. */
  lemma SenderStep(s: State, t: Tid, c: Choice, id: nat)
    requires Inv(s) && Enabled(s, Step(t, c))
    ensures var e, s' := LocalStep(s.g, t, s.threads[t], c), Next(s, Step(t, c));
            WithSender(s', id) == if id != t then WithSender(s, id)
                                  else if e.next.Some? && InHand(e.next.value.pc).Some? then 1 else 0
  {
    FreshIsUnused(s);
  }

  lemma PlacesStep(s: State, t: Tid, c: Choice, id: nat)
    requires Inv(s) && PostInv(s) && Enabled(s, Step(t, c))
    ensures Places(Next(s, Step(t, c)), id) == Places(s, id)
  {
    var th := s.threads[t];
    var e := LocalStep(s.g, t, th, c);
    var gone := InHand(th.pc).Some? && InHand(th.pc).value.id == id && !(e.next.Some? && InHand(e.next.value.pc).Some?);
    assert Settled(e.g.mail, id) == Settled(s.g.mail, id) + (if gone then 1 else 0) by { SettledStep(s.g, t, th, c, id); }
    assert Next(s, Step(t, c)).g == e.g;
    HandMoves(s, t, c, id);
  }

  lemma HandMoves(s: State, t: Tid, c: Choice, id: nat)
    requires Inv(s) && PostInv(s) && Enabled(s, Step(t, c))
    ensures var th := s.threads[t]; var e := LocalStep(s.g, t, th, c);
            var gone := InHand(th.pc).Some? && InHand(th.pc).value.id == id && !(e.next.Some? && InHand(e.next.value.pc).Some?);
            WithSender(Next(s, Step(t, c)), id) + (if gone then 1 else 0) == WithSender(s, id)
  {
    SenderStep(s, t, c, id);
    PostLocal(s.g, t, s.threads[t], c);
  }

  lemma SettledSame(m: Mail, n: Mail, id: nat)
    requires Unsent(m, n)
    ensures Settled(m, id) == Settled(n, id)
  {
  }

  /** A message that leaves the hand arrives in one place. */
  lemma SettledStep(g: Globals, t: Tid, th: Thread, c: Choice, id: nat)
    ensures var e, h := LocalStep(g, t, th, c), InHand(th.pc);
            Settled(e.g.mail, id)
            == Settled(g.mail, id)
               + if h.Some? && h.value.id == id && !(e.next.Some? && InHand(e.next.value.pc).Some?) then 1 else 0
  {
    var m, n, h := g.mail, LocalStep(g, t, th, c).g.mail, InHand(th.pc);
    PostLocal(g, t, th, c);
    if Unsent(m, n) {
      SettledSame(m, n, id);
      if h.Some? { MovesOn(g, t, th, c); }
    } else if Unsent(m.(accepted := m.accepted + [h.value]), n) {
      CountConcat(m.accepted, [h.value], id);
    } else if Unsent(m.(dropped := m.dropped + [h.value]), n) {
      CountConcat(m.dropped, [h.value], id);
    } else {
      var r :| Unsent(m.(refused := m.refused + [Refusal(h.value, r)]), n);
      RefusalsAppend(m.refused, Refusal(h.value, r), id);
    }
  }

  /** A message that arrives nowhere is still in hand. */
  lemma MovesOn(g: Globals, t: Tid, th: Thread, c: Choice)
    requires InHand(th.pc).Some? && Unsent(g.mail, LocalStep(g, t, th, c).g.mail)
    ensures var e := LocalStep(g, t, th, c); e.next.Some? && InHand(e.next.value.pc).Some?
  {
    var m := g.mail;
    assert |m.accepted + [InHand(th.pc).value]| != |m.accepted| && |m.dropped + [InHand(th.pc).value]| != |m.dropped|;
    assert forall r :: |m.refused + [Refusal(InHand(th.pc).value, r)]| != |m.refused|;
  }

  lemma PostStep(s: State, t: Tid, c: Choice)
    requires Inv(s) && PostInv(s) && Enabled(s, Step(t, c))
    ensures PostInv(Next(s, Step(t, c)))
  {
    var s' := Next(s, Step(t, c));
    assert PostOk(s.g, s.threads[t], LocalStep(s.g, t, s.threads[t], c)) by { PostLocal(s.g, t, s.threads[t], c); }
    assert s'.g.c.nextTid >= s.g.c.nextTid by {
      BeforeStep(s, t, c);
      CellsStep(s.g, t, s.threads[t], c);
    }
    forall id ensures Places(s', id) == Places(s, id) { PlacesStep(s, t, c, id); }
    forall u | u in s'.threads && InHand(s'.threads[u].pc).Some?
      ensures InHand(s'.threads[u].pc).value.id == u && u in s'.g.mail.issued
    {
      HandStep(s, t, c, u);
    }
  }

  lemma HandStep(s: State, t: Tid, c: Choice, u: Tid)
    requires Inv(s) && PostInv(s) && Enabled(s, Step(t, c))
    requires var s' := Next(s, Step(t, c)); u in s'.threads && InHand(s'.threads[u].pc).Some?
    ensures var s' := Next(s, Step(t, c)); InHand(s'.threads[u].pc).value.id == u && u in s'.g.mail.issued
  {
    assert PostOk(s.g, s.threads[t], LocalStep(s.g, t, s.threads[t], c)) by { PostLocal(s.g, t, s.threads[t], c); }
    FreshIsUnused(s);
  }

  lemma PostAdd(s: State, mail: Mail, pc: EdgePC)
    requires Inv(s) && PostInv(s)
    requires (pc == PoisonStore && mail == s.g.mail)
          || (pc.SendPush? && pc.m.id == s.g.c.nextTid && mail == s.g.mail.(issued := s.g.mail.issued[pc.m.id := pc.m]))
    ensures PostInv(AddThread(s, mail, Edge(pc)))
  {
    var s' := AddThread(s, mail, Edge(pc));
    forall id ensures Places(s', id) == Places(s, id) + if pc.SendPush? && id == s.g.c.nextTid then 1 else 0 {
      PlacesAdd(s, mail, pc, id);
    }
    forall u | u in s'.threads && InHand(s'.threads[u].pc).Some?
      ensures InHand(s'.threads[u].pc).value.id == u && u in s'.g.mail.issued
    {
      HandAdd(s, mail, pc, u);
    }
  }

  lemma HandAdd(s: State, mail: Mail, pc: EdgePC, u: Tid)
    requires Inv(s) && PostInv(s)
    requires (pc == PoisonStore && mail == s.g.mail)
          || (pc.SendPush? && pc.m.id == s.g.c.nextTid && mail == s.g.mail.(issued := s.g.mail.issued[pc.m.id := pc.m]))
    requires var s' := AddThread(s, mail, Edge(pc)); u in s'.threads && InHand(s'.threads[u].pc).Some?
    ensures var s' := AddThread(s, mail, Edge(pc)); InHand(s'.threads[u].pc).value.id == u && u in s'.g.mail.issued
  {
    FreshIsUnused(s);
  }

  lemma PlacesAdd(s: State, mail: Mail, pc: EdgePC, id: nat)
    requires Inv(s)
    requires (pc == PoisonStore && mail == s.g.mail)
          || (pc.SendPush? && pc.m.id == s.g.c.nextTid && mail == s.g.mail.(issued := s.g.mail.issued[pc.m.id := pc.m]))
    ensures Places(AddThread(s, mail, Edge(pc)), id) == Places(s, id) + if pc.SendPush? && id == s.g.c.nextTid then 1 else 0
  {
    FreshIsUnused(s);
  }

  lemma PostNext(s: State, a: Action)
    requires Inv(s) && PostInv(s) && Enabled(s, a)
    ensures PostInv(Next(s, a))
  {
    match a {
      case Step(t, c) => PostStep(s, t, c);
      case NewSender(kind, tellExits) =>
        var m := Msg(s.g.c.nextTid, kind, tellExits);
        PostAdd(s, s.g.mail.(issued := s.g.mail.issued[m.id := m]), SendPush(m));
      case NewPoisoner => PostAdd(s, s.g.mail, PoisonStore);
      case Reply(r) => assert forall id :: Places(Next(s, a), id) == Places(s, id);
    }
  }

  lemma PostInitial(s: State)
    requires IsInitial(s)
    ensures PostInv(s)
  {
    forall id ensures Places(s, id) == if id == 0 then 1 else 0 {
      CountConcat([], [Msg(0, Initialize, false)], id);
      assert s.g.mail.accepted == [Msg(0, Initialize, false)];
      assert [Msg(0, Initialize, false)][..0] == [];
    }
  }

  lemma {:induction false} RunPost(run: seq<State>, acts: seq<Action>, n: nat)
    requires IsRun(run, acts) && n <= |acts|
    ensures PostInv(run[n])
  {
    if n == 0 { PostInitial(run[0]); } else {
      RunPost(run, acts, n - 1);
      RunInv(run, acts, n - 1);
      PostNext(run[n - 1], acts[n - 1]);
    }
  }

  /** Each message a goroutine ever sent is in exactly one place: still with its sender, refused with
      one dead letter, refused and dropped, queued, being entered, started, or dead-lettered or lost by
      the stop. In particular no handler starts twice. */
  lemma EveryMessageInOnePlace(s: State, id: nat)
    requires Reachable(s) && id in s.g.mail.issued
    ensures var m := s.g.mail;
            WithSender(s, id) + Refusals(m.refused, id) + Count(m.dropped, id) + Count(m.queue, id) + Count(m.inflight, id)
            + Count(m.started, id) + Count(m.dead, id) + Count(m.lost, id) + Count(m.dying, id) == 1
  {
    var run, acts :| IsRun(run, acts) && run[|acts|] == s;
    RunInv(run, acts, |acts|);
    RunPost(run, acts, |acts|);
    var m := s.g.mail;
    assert Places(s, id) == 1;
    CountConcat(m.started + m.inflight + m.dead + m.lost + m.dying, m.queue, id);
    CountConcat(m.started + m.inflight + m.dead + m.lost, m.dying, id);
    CountConcat(m.started + m.inflight + m.dead, m.lost, id);
    CountConcat(m.started + m.inflight, m.dead, id);
    CountConcat(m.started, m.inflight, id);
  }

  // ------------------------------------------------------------------ the mailbox is the ring's queue

  function MailQueue(g: Globals): RingBuffer.Queue<Msg> { RingBuffer.Queue(g.mail.queue, g.cfg.maxCap, g.c.closed) }

  /** The mailbox operation that a goroutine is about to perform, if any. */
  function MailOp(pc: PC): Option<RingBuffer.Op<Msg>> {
    match pc
    case Edge(SendPush(m)) => Some(RingBuffer.Push(m))
    case Drain(DPop) => Some(RingBuffer.Pop)
    case Stop(_, LDrain) => Some(RingBuffer.Pop)
    case Stop(_, LClose(_)) => Some(RingBuffer.Close)
    case _ => None
  }

  predicate MailMoved(g: Globals, h: Globals, pc: PC) {
    MailQueue(h) == if MailOp(pc).Some? then RingBuffer.Apply(MailQueue(g), MailOp(pc).value) else MailQueue(g)
  }

  lemma MailboxOutside(g: Globals, t: Tid, th: Thread, c: Choice)
    requires th.pc.Edge? || th.pc.Drain? || th.pc.Stop?
    ensures MailMoved(g, LocalStep(g, t, th, c).g, th.pc)
  {
    match th.pc {
      case Edge(pc) =>
      case Drain(pc) =>
      case Stop(_, pc) =>
    }
  }

  lemma MailboxHook(g: Globals, t: Tid, th: Thread, c: Choice)
    requires th.pc == Call(GRegister) || th.pc == Call(GStarted)
    ensures MailQueue(LocalStep(g, t, th, c).g) == MailQueue(g)
  {
  }

  lemma MailboxCall(g: Globals, t: Tid, th: Thread, c: Choice)
    requires th.pc.Call?
    ensures MailQueue(LocalStep(g, t, th, c).g) == MailQueue(g)
  {
    if th.pc == Call(GRegister) || th.pc == Call(GStarted) { MailboxHook(g, t, th, c); }
  }

  lemma MailboxInside(g: Globals, t: Tid, th: Thread, c: Choice)
    requires th.pc.Gate? || th.pc.Call? || th.pc.Ask?
    ensures MailQueue(LocalStep(g, t, th, c).g) == MailQueue(g)
  {
    match th.pc {
      case Gate(pc) =>
      case Call(_) => MailboxCall(g, t, th, c);
      case Ask(pc) =>
    }
  }

  /** Every step of the actor acts on its mailbox as one operation of the bounded queue that the ring
      refines, or not at all. */
  lemma MailboxIsBoundedQueue(g: Globals, t: Tid, th: Thread, c: Choice)
    ensures MailMoved(g, LocalStep(g, t, th, c).g, th.pc)
  {
    if th.pc.Edge? || th.pc.Drain? || th.pc.Stop? {
      MailboxOutside(g, t, th, c);
    } else {
      MailboxInside(g, t, th, c);
    }
  }

  /** A sender goes on as the result of its Push says. */
  lemma SendFollowsPush(g: Globals, t: Tid, th: Thread, c: Choice, m: Msg)
    requires th.pc == Edge(SendPush(m))
    ensures var next := LocalStep(g, t, th, c).next;
            && next.Some?
            && next.value.pc == match RingBuffer.Pushed(MailQueue(g), m).1
                                case PushOK => Edge(Schedule)
                                case PushOverflow => Edge(RefuseTell(m, Overflow))
                                case PushClosed => Edge(RefuseTell(m, Closed))
  {
  }
}
