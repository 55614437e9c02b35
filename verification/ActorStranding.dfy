/** When a stopped actor leaves messages behind: exactly when a dead-letter handler calls Goexit. */
module ActorStranding {
  import opened Options
  import opened ActorModel
  import opened ActorInvariant
  import opened ActorPreservation
  import opened ActorSafety
  import opened ActorTheorems

  /** A handler calls Goexit in the stop's final loop: in the error reply to the sender of the message at
      hand, or in that message's own letter. */
  predicate TellExits(s: State, a: Action) {
    && a.Step? && a.t in s.threads
    && s.threads[a.t].pc.Stop? && s.threads[a.t].pc.l.LTell? && s.threads[a.t].pc.l.m.tellExits
  }

  predicate LetterExits(s: State, a: Action) {
    && a.Step? && a.c == Exit && a.t in s.threads && s.threads[a.t].pc.Stop? && s.threads[a.t].pc.l.LDead?
  }

  /** Messages are still queued when a handler leaves the loop. */
  predicate Strands(s: State, a: Action) { (TellExits(s, a) || LetterExits(s, a)) && |s.g.mail.queue| > 0 }

  /** A message vanishes: the one at hand, or those still queued. */
  predicate Vanishes(s: State, a: Action) { TellExits(s, a) || (LetterExits(s, a) && |s.g.mail.queue| > 0) }

  predicate LosesAt(pc: PC) { pc.Stop? && pc.l.LTell? && pc.l.m.tellExits }

  predicate LeavesAt(pc: PC, c: Choice) { LosesAt(pc) || (pc.Stop? && pc.l.LDead? && c == Exit) }

  lemma AbandonedLocal(g: Globals, t: Tid, th: Thread, c: Choice)
    requires MailThread(g, th) && Shape(th)
    ensures var m := LocalStep(g, t, th, c).g.mail;
            && (m.abandoned <==> g.mail.abandoned || (LeavesAt(th.pc, c) && |g.mail.queue| > 0))
            && (m.lost != [] <==> g.mail.lost != [] || LosesAt(th.pc))
  {
    if !th.pc.Stop? { MarksSame(g, t, th, c); }
  }

  lemma MarksSame(g: Globals, t: Tid, th: Thread, c: Choice)
    requires !th.pc.Stop?
    ensures var m := LocalStep(g, t, th, c).g.mail; m.abandoned == g.mail.abandoned && m.lost == g.mail.lost && m.dead == g.mail.dead
  {
    match th.pc {
      case Edge(pc) =>
      case Drain(pc) =>
      case Gate(pc) =>
      case Call(pc) =>
      case Ask(pc) =>
    }
  }

  /** The two marks rise exactly in the steps in which a handler leaves the loop. */
  predicate FlagStep(before: State, a: Action, after: State) {
    && (after.g.mail.abandoned <==> before.g.mail.abandoned || Strands(before, a))
    && (after.g.mail.lost != [] <==> before.g.mail.lost != [] || TellExits(before, a))
  }

  lemma AbandonedNext(s: State, a: Action)
    requires Inv(s) && Enabled(s, a)
    ensures FlagStep(s, a, Next(s, a))
  {
    if a.Step? {
      assert Known(s.g, a.t, s.threads[a.t]);
      AbandonedLocal(s.g, a.t, s.threads[a.t], a.c);
    }
  }

  ghost predicate SomeStep(run: seq<State>, acts: seq<Action>, n: nat, what: (State, Action) -> bool)
    requires n <= |acts| <= |run|
  {
    exists i :: 0 <= i < n && what(run[i], acts[i])
  }

  lemma SomeNext(run: seq<State>, acts: seq<Action>, n: nat, what: (State, Action) -> bool)
    requires 0 < n <= |acts| <= |run|
    ensures SomeStep(run, acts, n, what) <==> SomeStep(run, acts, n - 1, what) || what(run[n - 1], acts[n - 1])
  {
  }

  lemma {:induction false} FlagsRecord(run: seq<State>, acts: seq<Action>, n: nat)
    requires n <= |acts| == |run| - 1 && !run[0].g.mail.abandoned && run[0].g.mail.lost == []
    requires forall i :: 0 <= i < n ==> FlagStep(run[i], acts[i], run[i + 1])
    ensures run[n].g.mail.abandoned <==> SomeStep(run, acts, n, Strands)
    ensures run[n].g.mail.lost != [] <==> SomeStep(run, acts, n, TellExits)
  {
    if n > 0 {
      FlagsRecord(run, acts, n - 1);
      assert FlagStep(run[n - 1], acts[n - 1], run[n - 1 + 1]);
      SomeNext(run, acts, n, Strands);
      SomeNext(run, acts, n, TellExits);
    }
  }

  lemma FlagRunStep(run: seq<State>, acts: seq<Action>, i: nat)
    requires IsRun(run, acts) && i < |acts|
    ensures FlagStep(run[i], acts[i], run[i + 1])
  {
    RunInv(run, acts, i);
    AbandonedNext(run[i], acts[i]);
  }

  lemma FlagsOverRuns(run: seq<State>, acts: seq<Action>, n: nat)
    requires IsRun(run, acts) && n <= |acts|
    ensures run[n].g.mail.abandoned <==> SomeStep(run, acts, n, Strands)
    ensures run[n].g.mail.lost != [] <==> SomeStep(run, acts, n, TellExits)
  {
    forall i | 0 <= i < n ensures FlagStep(run[i], acts[i], run[i + 1]) { FlagRunStep(run, acts, i); }
    FlagsRecord(run, acts, n);
  }

  lemma VanishesEither(run: seq<State>, acts: seq<Action>, n: nat)
    requires n <= |acts| <= |run|
    ensures SomeStep(run, acts, n, Vanishes) <==> SomeStep(run, acts, n, Strands) || SomeStep(run, acts, n, TellExits)
  {
    if i :| 0 <= i < n && Vanishes(run[i], acts[i]) { assert Strands(run[i], acts[i]) || TellExits(run[i], acts[i]); }
    if i :| 0 <= i < n && Strands(run[i], acts[i]) { assert Vanishes(run[i], acts[i]); }
    if i :| 0 <= i < n && TellExits(run[i], acts[i]) { assert Vanishes(run[i], acts[i]); }
  }

  lemma SplitTail(m: Mail)
    requires m.accepted == m.started + m.dead + m.lost + m.queue
    ensures m.accepted == m.started + m.dead <==> m.lost == [] && m.queue == []
  {
    assert m.accepted == (m.started + m.dead) + (m.lost + m.queue);
    assert |m.accepted| == |m.started + m.dead| + |m.lost| + |m.queue|;
  }

  /** Exactly when: over every run, once the stop has ended the mailbox is empty if and only if no
      handler called Goexit in the final loop with messages still queued; and every accepted message was
      started or dead-lettered if and only if, besides, none did so before the letter of the message at
      hand. */
  lemma StopEmptiesMailbox(run: seq<State>, acts: seq<Action>, n: nat)
    requires IsRun(run, acts) && n <= |acts| && run[n].g.c.status == Halted && RoleHolders(run[n]) == {}
    ensures run[n].g.mail.queue == [] <==> !SomeStep(run, acts, n, Strands)
    ensures run[n].g.mail.accepted == run[n].g.mail.started + run[n].g.mail.dead <==> !SomeStep(run, acts, n, Vanishes)
  {
    FlagsOverRuns(run, acts, n);
    VanishesEither(run, acts, n);
    PrefixReaches(run, acts, n);
    StoppedMailbox(run[n]);
    SplitTail(run[n].g.mail);
  }

  lemma PrefixReaches(run: seq<State>, acts: seq<Action>, n: nat)
    requires IsRun(run, acts) && n <= |acts|
    ensures Reachable(run[n])
  {
    assert IsRun(run[..n + 1], acts[..n]);
  }

  lemma LeftLocal(g: Globals, t: Tid, th: Thread, c: Choice)
    requires Known(g, t, th) && ControlInv(g.c) && g.mail.abandoned && g.c.status == Halted && g.c.closed
    ensures LocalStep(g, t, th, c).g.mail.queue == g.mail.queue
  {
    match th.pc {
      case Edge(pc) =>
      case Drain(pc) => assert pc == DPop ==> Role(th);
      case Gate(pc) =>
      case Stop(_, pc) =>
      case Call(pc) =>
      case Ask(pc) =>
    }
  }

  lemma LeftNext(s: State, a: Action)
    requires Inv(s) && Enabled(s, a) && s.g.mail.abandoned
    ensures Next(s, a).g.mail.abandoned && Next(s, a).g.mail.queue == s.g.mail.queue
  {
    AbandonedNext(s, a);
    if a.Step? {
      assert Known(s.g, a.t, s.threads[a.t]);
      LeftLocal(s.g, a.t, s.threads[a.t], a.c);
    }
  }

  /** What is left behind stays: it is never started, dead-lettered or answered. */
  lemma {:induction false} LeftForEver(run: seq<State>, acts: seq<Action>, i: nat, j: nat)
    requires IsRun(run, acts) && i <= j <= |acts| && run[i].g.mail.abandoned
    ensures run[j].g.mail.abandoned && run[j].g.mail.queue == run[i].g.mail.queue != []
    decreases j
  {
    if i == j {
      RunInv(run, acts, i);
    } else {
      LeftForEver(run, acts, i, j - 1);
      assert Inv(run[j - 1]) by { RunInv(run, acts, j - 1); }
      LeftNext(run[j - 1], acts[j - 1]);
    }
  }

  // ------------------------------------------------------------------ a run that leaves a message behind

  /** The steps of one goroutine with nobody else moving; none ends it or starts another. */
  ghost function Solo(g: Globals, t: Tid, th: Thread, cs: seq<Choice>): Option<(Globals, Thread)>
    decreases |cs|
  {
    if cs == [] then Some((g, th))
    else if !CanStep(g, th, cs[0]) then None
    else
      var e := LocalStep(g, t, th, cs[0]);
      if e.next.None? || e.spawn then None else Solo(e.g, t, e.next.value, cs[1..])
  }

  lemma {:induction false} SoloReaches(s: State, t: Tid, cs: seq<Choice>)
    requires Reachable(s) && t in s.threads && Solo(s.g, t, s.threads[t], cs).Some?
    ensures var r := Solo(s.g, t, s.threads[t], cs).value; Reachable(State(r.0, s.threads[t := r.1]))
    decreases |cs|
  {
    if cs == [] {
      assert s.threads[t := s.threads[t]] == s.threads;
    } else {
      var e := LocalStep(s.g, t, s.threads[t], cs[0]);
      var s1 := State(e.g, s.threads[t := e.next.value]);
      NextReaches(s, Step(t, cs[0]));
      SoloReaches(s1, t, cs[1..]);
      var r := Solo(s.g, t, s.threads[t], cs).value;
      assert s1.threads[t := r.1] == s.threads[t := r.1];
    }
  }

  lemma NextReaches(s: State, a: Action)
    requires Reachable(s) && Enabled(s, a)
    ensures Reachable(Next(s, a))
  {
    var run, acts :| IsRun(run, acts) && run[|acts|] == s;
    assert IsRun(run + [Next(s, a)], acts + [a]);
  }

  const CFG := Config(3, true, false)
  const BOOT := Msg(0, Initialize, false)
  const M3 := Msg(3, Ordinary, false)

  function M2(exits: bool): Msg { Msg(2, Ordinary, exits) }

  /** Two messages are accepted before the spawner starts the drainer, goroutine 4. */
  function TwoQueued(x: bool): State {
    var s := Initial(CFG);
    State(s.g.(c := s.g.c.(status := Running, role := 4, nextTid := 5),
               mail := s.g.mail.(queue := [BOOT, M2(x), M3], accepted := [BOOT, M2(x), M3], issued := map[2 := M2(x), 3 := M3])),
          map[2 := External(Edge(Schedule)), 3 := External(Edge(Schedule)), 4 := FreshDrainer])
  }

  function OneQueued(x: bool): State {
    var s := Initial(CFG);
    State(s.g.(c := s.g.c.(nextTid := 3), mail := s.g.mail.(queue := [BOOT, M2(x)], accepted := [BOOT, M2(x)], issued := map[2 := M2(x)])),
          map[1 := External(Edge(Schedule)), 2 := External(Edge(Schedule))])
  }

  lemma OneQueuedReachable(x: bool)
    ensures Reachable(OneQueued(x))
  {
    var s0 := Initial(CFG);
    var none: seq<Action> := [];
    assert IsRun([s0], none) && [s0][|none|] == s0;
    var s1 := Next(s0, NewSender(Ordinary, x));
    NextReaches(s0, NewSender(Ordinary, x));
    assert s1.threads == map[1 := External(Edge(Schedule)), 2 := External(Edge(SendPush(M2(x))))];
    FirstIsQueued(x, s1);
    NextReaches(s1, Step(2, Go));
  }

  lemma FirstIsQueued(x: bool, s: State)
    requires var s0 := Initial(CFG);
             s == State(s0.g.(c := s0.g.c.(nextTid := 3), mail := s0.g.mail.(issued := map[2 := M2(x)])),
                        map[1 := External(Edge(Schedule)), 2 := External(Edge(SendPush(M2(x))))])
    ensures Enabled(s, Step(2, Go)) && Next(s, Step(2, Go)) == OneQueued(x)
  {
    var s2 := Next(s, Step(2, Go));
    assert s2.threads == OneQueued(x).threads && s2.g.mail == OneQueued(x).g.mail;
  }

  function ThreeQueued(x: bool): State {
    var s := Initial(CFG);
    State(s.g.(c := s.g.c.(nextTid := 4),
               mail := s.g.mail.(queue := [BOOT, M2(x), M3], accepted := [BOOT, M2(x), M3], issued := map[2 := M2(x), 3 := M3])),
          map[1 := External(Edge(Schedule)), 2 := External(Edge(Schedule)), 3 := External(Edge(Schedule))])
  }

  lemma ThreeQueuedReachable(x: bool)
    ensures Reachable(ThreeQueued(x))
  {
    OneQueuedReachable(x);
    var s2 := OneQueued(x);
    var s3 := Next(s2, NewSender(Ordinary, false));
    NextReaches(s2, NewSender(Ordinary, false));
    assert s3.threads == s2.threads[3 := External(Edge(SendPush(M3)))];
    var s4 := Next(s3, Step(3, Go));
    NextReaches(s3, Step(3, Go));
    assert s4 == ThreeQueued(x) by { assert s4.threads == ThreeQueued(x).threads && s4.g.mail == ThreeQueued(x).g.mail; }
  }

  lemma TwoQueuedReachable(x: bool)
    ensures Reachable(TwoQueued(x))
  {
    ThreeQueuedReachable(x);
    var s4 := ThreeQueued(x);
    var s5 := Next(s4, Step(1, Go));
    NextReaches(s4, Step(1, Go));
    assert s5 == TwoQueued(x) by { assert s5.threads == TwoQueued(x).threads; }
  }

  function Entered6(x: bool, g: Globals): Globals {
    g.(c := g.c.(unfinished := 1, permits := 0, holder := 4, executing := 4, ownerId := 4),
       mail := g.mail.(queue := [M2(x), M3], inflight := [BOOT]))
  }

  /** The drainer pops the start-up message, counts it and passes the gate. */
  lemma DrainerEnters(x: bool, g: Globals)
    requires g == TwoQueued(x).g
    ensures Solo(g, 4, FreshDrainer, [Go, Go, Go, Go, Go, Go]) == Some((Entered6(x, g), FreshDrainer.(pc := Call(IBegin(BOOT)))))
  {
    var th := FreshDrainer;
    var g2 := g.(mail := g.mail.(queue := [M2(x), M3], inflight := [BOOT]));
    assert g.mail.queue[1..] == [M2(x), M3];
    assert LocalStep(g, 4, th, Go) == Effect(g, Some(th.(pc := Drain(DPop))), false);
    assert LocalStep(g, 4, th.(pc := Drain(DPop)), Go) == Effect(g2, Some(th.(pc := Call(IAdd(BOOT)))), false);
    var g3 := g2.(c := g2.c.(unfinished := 1));
    var gate := th.(pc := Gate(EnterPermit(ToInvoke(BOOT))));
    assert LocalStep(g2, 4, th.(pc := Call(IAdd(BOOT))), Go) == Effect(g3, Some(gate), false);
    assert Solo(g3, 4, gate, [Go, Go, Go]) == Some((Entered6(x, g), th.(pc := Call(IBegin(BOOT))))) by {
      assert [Go, Go, Go][1..] == [Go, Go] && [Go, Go][1..] == [Go] && [Go][1..] == [];
    }
    assert [Go, Go, Go, Go, Go, Go][1..] == [Go, Go, Go, Go, Go] && [Go, Go, Go, Go, Go][1..] == [Go, Go, Go, Go];
    assert [Go, Go, Go, Go][1..] == [Go, Go, Go];
  }

  /** Registration fails and the stop begins. */
  lemma StartFails(x: bool, g: Globals)
    requires g == TwoQueued(x).g
    ensures Solo(Entered6(x, g), 4, FreshDrainer.(pc := Call(IBegin(BOOT))), [Go, Fail])
            == Some((InStop(x, g), Thread(Stop(FromStart, LClose(false)), false, CallStop, false, 0)))
  {
    var g6, th := Entered6(x, g), FreshDrainer;
    assert g6.mail.started + [BOOT] == [BOOT];
    var g7 := g6.(c := g6.c.(life := Starting), mail := g6.mail.(started := [BOOT], inflight := []));
    assert LocalStep(g6, 4, th.(pc := Call(IBegin(BOOT))), Go) == Effect(g7, Some(th.(pc := Call(GRegister))), false);
    assert [Go, Fail][1..] == [Fail] && [Fail][1..] == [];
  }

  function InStop(x: bool, g: Globals): Globals {
    g.(c := g.c.(unfinished := 1, permits := 0, holder := 4, executing := 4, ownerId := 4, life := Stopping),
       rec := Emit(g.rec, RegisterFailed), mail := g.mail.(queue := [M2(x), M3], started := [BOOT], inflight := []))
  }

  /** The first half of the stop, up to the message at hand in the final loop. */
  lemma LoopTakes(x: bool, g: Globals, th: Thread)
    requires g == InStop(x, TwoQueued(x).g) && th == Thread(Stop(FromStart, LClose(false)), false, CallStop, false, 0)
    ensures Solo(g, 4, th, [Go, Go, Go, Go, Go]) == Some((InLoop(x, g), th.(pc := Stop(FromStart, LTell(M2(x))))))
  {
    var g1 := g.(c := g.c.(closed := true));
    var g3 := g1.(c := g1.c.(life := Stopped, status := Halted));
    var g4 := g3.(rec := g3.rec.(published := false));
    assert g4.mail.queue[1..] == [M3];
    assert LocalStep(g, 4, th, Go) == Effect(g1, Some(th.(pc := Stop(FromStart, LUnreg))), false);
    assert LocalStep(g1, 4, th.(pc := Stop(FromStart, LUnreg)), Go) == Effect(g1, Some(th.(pc := Stop(FromStart, LStore))), false);
    assert LocalStep(g1, 4, th.(pc := Stop(FromStart, LStore)), Go) == Effect(g3, Some(th.(pc := Stop(FromStart, LRemove))), false);
    assert LocalStep(g3, 4, th.(pc := Stop(FromStart, LRemove)), Go) == Effect(g4, Some(th.(pc := Stop(FromStart, LDrain))), false);
    assert Solo(g3, 4, th.(pc := Stop(FromStart, LRemove)), [Go, Go]) == Some((InLoop(x, g), th.(pc := Stop(FromStart, LTell(M2(x)))))) by {
      assert [Go, Go][1..] == [Go] && [Go][1..] == [];
    }
    assert [Go, Go, Go, Go, Go][1..] == [Go, Go, Go, Go] && [Go, Go, Go, Go][1..] == [Go, Go, Go] && [Go, Go, Go][1..] == [Go, Go];
  }

  function InLoop(x: bool, g: Globals): Globals {
    g.(c := g.c.(closed := true, life := Stopped, status := Halted), rec := g.rec.(published := false),
       mail := g.mail.(queue := [M3], dying := [M2(x)]))
  }

  /** The reply, or the letter, of M2 calls Goexit: M3 is left, and in the first case M2 is lost. */
  lemma HandlerLeaves(x: bool, g: Globals, th: Thread)
    requires g.mail.queue == [M3] && th.pc == Stop(FromStart, LTell(M2(x)))
    ensures var r := Solo(g, 4, th, if x then [Go] else [Go, Exit]);
            r.Some? && r.value.0.mail.abandoned && r.value.0.mail.queue == [M3] && (x ==> r.value.0.mail.lost == [M2(x)])
  {
    if x {
      assert [Go][1..] == [];
    } else {
      assert LocalStep(g, 4, th, Go) == Effect(g, Some(th.(pc := Stop(FromStart, LDead(M2(x))))), false);
      assert [Go, Exit][1..] == [Exit] && [Exit][1..] == [];
    }
  }

  /** Such runs exist: an accepted message that no step will ever start, dead-letter or answer is left in
      the mailbox, and in the first run another is lost on the way. */
  lemma MessageCanBeLeft(x: bool) returns (s: State)
    ensures Reachable(s) && s.g.mail.abandoned && s.g.mail.queue == [M3] && (x ==> s.g.mail.lost == [M2(x)])
  {
    TwoQueuedReachable(x);
    var s0 := TwoQueued(x);
    DrainerEnters(x, s0.g);
    SoloReaches(s0, 4, [Go, Go, Go, Go, Go, Go]);
    var s1 := State(Entered6(x, s0.g), s0.threads[4 := FreshDrainer.(pc := Call(IBegin(BOOT)))]);
    StartFails(x, s0.g);
    SoloReaches(s1, 4, [Go, Fail]);
    var th := Thread(Stop(FromStart, LClose(false)), false, CallStop, false, 0);
    var s2 := State(InStop(x, s0.g), s1.threads[4 := th]);
    LoopTakes(x, s2.g, th);
    SoloReaches(s2, 4, [Go, Go, Go, Go, Go]);
    var th3 := th.(pc := Stop(FromStart, LTell(M2(x))));
    var s3 := State(InLoop(x, s2.g), s2.threads[4 := th3]);
    HandlerLeaves(x, s3.g, th3);
    var cs := if x then [Go] else [Go, Exit];
    SoloReaches(s3, 4, cs);
    var q := Solo(s3.g, 4, th3, cs).value;
    s := State(q.0, s3.threads[4 := q.1]);
  }

  /** And a refused message can be dropped without a letter: its sender finds the mailbox full and its
      error reply calls Goexit. */
  lemma MessageCanBeDropped() returns (s: State)
    ensures Reachable(s) && s.g.mail.dropped == [Msg(4, Ordinary, true)] && s.g.mail.refused == []
  {
    ThreeQueuedReachable(false);
    var m := Msg(4, Ordinary, true);
    var s1 := Next(ThreeQueued(false), NewSender(Ordinary, true));
    NextReaches(ThreeQueued(false), NewSender(Ordinary, true));
    s := RefusedIsDropped(s1, 4, m);
  }

  lemma RefusedIsDropped(s: State, t: Tid, m: Msg) returns (end: State)
    requires Reachable(s) && t in s.threads && s.threads[t] == External(Edge(SendPush(m))) && m.tellExits
    requires s.g.cfg.maxCap <= |s.g.mail.queue|
    ensures Reachable(end) && end.g.mail == s.g.mail.(dropped := s.g.mail.dropped + [m])
  {
    var s1 := Next(s, Step(t, Go));
    NextReaches(s, Step(t, Go));
    assert s1.g == s.g && t in s1.threads && s1.threads[t].pc.Edge? && s1.threads[t].pc.e.RefuseTell?;
    end := Next(s1, Step(t, Go));
    NextReaches(s1, Step(t, Go));
  }

  // ------------------------------------------------------------------ who gets a letter

  /** A message with a letter is one whose error reply does not exit, a lost or dropped one is one whose
      reply does. */
  ghost predicate LettersOk(s: State) {
    && (forall m :: m in s.g.mail.dead ==> !m.tellExits) && (forall m :: m in s.g.mail.lost ==> m.tellExits)
    && (forall r :: r in s.g.mail.refused ==> !r.msg.tellExits) && (forall m :: m in s.g.mail.dropped ==> m.tellExits)
    && (forall t :: t in s.threads ==> AtLetter(s.threads[t].pc))
  }

  predicate AtLetter(pc: PC) {
    match pc
    case Edge(RefuseEmit(m, _)) => !m.tellExits
    case Stop(_, LDead(m)) => !m.tellExits
    case _ => true
  }

  /** Each list of letters grows by at most the message at hand. */
  predicate LettersMoved(m: Mail, n: Mail, pc: PC) {
    && (n.dead == m.dead || (pc.Stop? && pc.l.LDead? && n.dead == m.dead + [pc.l.m]))
    && (n.lost == m.lost || (LosesAt(pc) && n.lost == [pc.l.m]))
    && (n.refused == m.refused || (pc.Edge? && pc.e.RefuseEmit? && n.refused == m.refused + [Refusal(pc.e.m, pc.e.reason)]))
    && (n.dropped == m.dropped || (pc.Edge? && pc.e.RefuseTell? && pc.e.m.tellExits && n.dropped == m.dropped + [pc.e.m]))
  }

  lemma LettersEdge(g: Globals, t: Tid, th: Thread, c: Choice)
    requires (th.pc.Edge? || th.pc.Stop?) && AtLetter(th.pc)
    ensures var e := LocalStep(g, t, th, c);
            LettersMoved(g.mail, e.g.mail, th.pc) && (e.next.Some? ==> AtLetter(e.next.value.pc))
  {
    match th.pc {
      case Edge(pc) =>
      case Stop(_, pc) =>
    }
  }

  lemma LettersLocal(g: Globals, t: Tid, th: Thread, c: Choice)
    requires AtLetter(th.pc)
    ensures var e := LocalStep(g, t, th, c);
            LettersMoved(g.mail, e.g.mail, th.pc) && (e.next.Some? ==> AtLetter(e.next.value.pc))
  {
    if th.pc.Edge? || th.pc.Stop? {
      LettersEdge(g, t, th, c);
    } else {
      MarksSame(g, t, th, c);
      RefusalsSame(g, t, th, c);
      if th.pc.Call? { NoLetterCall(g, t, th, c); } else { NoLetterNext(g, t, th, c); }
    }
  }

  lemma RefusalsSame(g: Globals, t: Tid, th: Thread, c: Choice)
    requires !th.pc.Edge? && !th.pc.Stop?
    ensures var m := LocalStep(g, t, th, c).g.mail; m.refused == g.mail.refused && m.dropped == g.mail.dropped
  {
    match th.pc {
      case Drain(pc) =>
      case Gate(pc) =>
      case Call(pc) =>
      case Ask(pc) =>
    }
  }

  lemma NoLetterCall(g: Globals, t: Tid, th: Thread, c: Choice)
    requires th.pc.Call?
    ensures var next := LocalStep(g, t, th, c).next; next.Some? ==> AtLetter(next.value.pc)
  {
  }

  lemma NoLetterNext(g: Globals, t: Tid, th: Thread, c: Choice)
    requires th.pc.Drain? || th.pc.Gate? || th.pc.Ask?
    ensures var next := LocalStep(g, t, th, c).next; next.Some? ==> AtLetter(next.value.pc)
  {
    match th.pc {
      case Drain(pc) =>
      case Gate(pc) =>
      case Ask(pc) =>
    }
  }

  lemma LettersNext(s: State, a: Action)
    requires LettersOk(s) && Enabled(s, a)
    ensures LettersOk(Next(s, a))
  {
    if a.Step? { LettersLocal(s.g, a.t, s.threads[a.t], a.c); }
  }

  /** For messages refused or met by the stop: a dead letter exactly when the error reply does not exit. */
  lemma {:induction false} LettersExactly(run: seq<State>, acts: seq<Action>, n: nat)
    requires IsRun(run, acts) && n <= |acts|
    ensures LettersOk(run[n])
  {
    if n > 0 {
      LettersExactly(run, acts, n - 1);
      LettersNext(run[n - 1], acts[n - 1]);
    }
  }
}
