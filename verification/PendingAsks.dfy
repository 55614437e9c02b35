/**
  Request correlation and shutdown: the pending-Ask table, its admission lock, non-blocking reply
  delivery, cancellation and the shutdown wake-up, as an interleaving of any number of asking,
  replying and closing goroutines.

  Lock operations, map operations (each under its shard's lock), channel operations and plain
  accesses under the admission lock are one step each. The snapshot is taken shard by shard, as
  `IterCb` does, so replies and cancellations may fall between two shards.
*/
module PendingAsks {
  import opened Options

  type Tid = nat
  type Id = nat

  const SHARDS := 32
  const TWO64 := 0x1_0000_0000_0000_0000

  /** The shard hash of an integer key: eight rounds, low byte first. */
  function IntFnvRounds(h: bv32, u: bv64, n: nat): bv32
    decreases n
  {
    if n == 0 then h
    else IntFnvRounds((h * 16777619) ^ ((u & 0xff) as bv32), u >> 8, n - 1)
  }

  function Shard(id: Id): (k: nat)
    ensures k < SHARDS
  {
    (IntFnvRounds(2166136261, (id % TWO64) as bv64, 8) as nat) % SHARDS
  }

  /** The hash of some keys: 32-bit FNV-1 of their eight octets. */
  lemma HashVectors()
    ensures IntFnvRounds(2166136261, 0, 8) == 0x9be17165 && IntFnvRounds(2166136261, 1, 8) == 0x678c146a
    ensures IntFnvRounds(2166136261, 256, 8) == 0x9f8b796c && IntFnvRounds(2166136261, 0x8000_0000_0000_0005, 8) == 0x9636a0fe
  {
  }

  /** What can arrive in a waiter's channel. */
  datatype Value = Reply(id: Id, body: nat) | Stopping

  /** registerAsk, awaitReply, cancelAsk. */
  datatype AskPC = LockShared | CheckClosed | RefuseUnlock | Insert | Unlock | Await | Cancel(got: Option<Value>)
  /** deliverReply for any request id, known or not. */
  datatype ReplyPC = Pop(id: Id, body: nat) | TrySend(ch: Tid, v: Value)
  /** wakePendingAsks. */
  datatype ClosePC = Lock | SetClosed | Snapshot(k: nat, acc: set<Tid>) | Release(acc: set<Tid>) | Wake(acc: set<Tid>)

  datatype Thread = Asker(a: AskPC, id: Id) | Replier(r: ReplyPC) | Closer(w: ClosePC)

  /** `pending` maps a request id to its channel; a channel is named after the goroutine that made
      it and buffers at most one value. `owner`, `idOf`, `waiting`, `promise` and `awake` are auxiliary:
      who asked under which id, who is between insertion and the end of its wait, which replier has
      taken which channel, and whether a wake-up has ended. No step depends on them. */
  datatype Globals = Globals(
    readers: set<Tid>, writer: Tid, closed: bool,
    pending: map<Id, Tid>, chans: map<Tid, Option<Value>>,
    nextTid: Tid, nextId: Id,
    owner: map<Id, Tid>, idOf: map<Tid, Id>, waiting: set<Tid>, promise: map<Tid, Tid>, awake: bool)

  datatype State = State(g: Globals, threads: map<Tid, Thread>)

  /** `Go`; the timer fired first; or the channel the wake-up loop treats next. */
  datatype Choice = Go | Timeout | Target(ch: Tid)

  datatype Effect = Effect(g: Globals, next: Option<Thread>)

  // ------------------------------------------------------------------ steps

  predicate CanAsk(g: Globals, t: Tid, pc: AskPC, c: Choice) {
    match pc
    case LockShared => c == Go && g.writer == 0
    case Await => (c == Go && t in g.chans && g.chans[t].Some?) || c == Timeout
    case _ => c == Go
  }

  function StepAsk(g: Globals, t: Tid, id: Id, pc: AskPC, c: Choice): Effect
    requires CanAsk(g, t, pc, c)
  {
    match pc
    case LockShared => Effect(g.(readers := g.readers + {t}), Some(Asker(CheckClosed, id)))
    case CheckClosed => Effect(g, Some(Asker(if g.closed then RefuseUnlock else Insert, id)))
    case RefuseUnlock => Effect(g.(readers := g.readers - {t}), None)
    case Insert => Effect(g.(pending := g.pending[id := t], chans := g.chans[t := None], waiting := g.waiting + {t}),
                          Some(Asker(Unlock, id)))
    case Unlock => Effect(g.(readers := g.readers - {t}), Some(Asker(Await, id)))
    case Await =>
      if c == Timeout then Effect(g.(waiting := g.waiting - {t}), Some(Asker(Cancel(None), id)))
      else Effect(g.(chans := g.chans[t := None], waiting := g.waiting - {t}), Some(Asker(Cancel(g.chans[t]), id)))
    case Cancel(_) => Effect(g.(pending := g.pending - {id}), None)
  }

  /** A send to a full channel takes the default branch and drops the value. */
  function Offer(chans: map<Tid, Option<Value>>, ch: Tid, v: Value): map<Tid, Option<Value>> {
    if ch in chans && chans[ch].None? then chans[ch := Some(v)] else chans
  }

  function StepReply(g: Globals, t: Tid, pc: ReplyPC): Effect {
    match pc
    case Pop(id, body) =>
      if id in g.pending
      then Effect(g.(pending := g.pending - {id}, promise := g.promise[g.pending[id] := t]),
                  Some(Replier(TrySend(g.pending[id], Reply(id, body)))))
      else Effect(g, None)
    case TrySend(ch, v) => Effect(g.(chans := Offer(g.chans, ch, v), promise := g.promise - {ch}), None)
  }

  predicate CanClose(g: Globals, pc: ClosePC, c: Choice) {
    match pc
    case Lock => c == Go && g.writer == 0 && g.readers == {}
    case Wake(acc) => if acc == {} then c == Go else c.Target? && c.ch in acc
    case _ => c == Go
  }

  function StepClose(g: Globals, t: Tid, pc: ClosePC, c: Choice): Effect
    requires CanClose(g, pc, c)
  {
    match pc
    case Lock => Effect(g.(writer := t), Some(Closer(SetClosed)))
    case SetClosed => Effect(g.(closed := true), Some(Closer(Snapshot(0, {}))))
    case Snapshot(k, acc) =>
      if k < SHARDS
      then Effect(g, Some(Closer(Snapshot(k + 1, acc + set id | id in g.pending && Shard(id) == k :: g.pending[id]))))
      else Effect(g, Some(Closer(Release(acc))))
    case Release(acc) => Effect(g.(writer := 0), Some(Closer(Wake(acc))))
    case Wake(acc) =>
      if acc == {} then Effect(g.(awake := true), None)
      else Effect(g.(chans := Offer(g.chans, c.ch, Stopping)), Some(Closer(Wake(acc - {c.ch}))))
  }

  predicate CanStep(g: Globals, t: Tid, th: Thread, c: Choice) {
    match th
    case Asker(pc, _) => CanAsk(g, t, pc, c)
    case Replier(_) => c == Go
    case Closer(pc) => CanClose(g, pc, c)
  }

  function LocalStep(g: Globals, t: Tid, th: Thread, c: Choice): Effect
    requires CanStep(g, t, th, c)
  {
    match th
    case Asker(pc, id) => StepAsk(g, t, id, pc, c)
    case Replier(pc) => StepReply(g, t, pc)
    case Closer(pc) => StepClose(g, t, pc, c)
  }

  /** A goroutine asks (its request id is the next serial number), replies to any id, or shuts down. */
  datatype Action = Step(t: Tid, c: Choice) | NewAsker | NewReplier(id: Id, body: nat) | NewCloser

  predicate Enabled(s: State, a: Action) {
    a.Step? ==> a.t in s.threads && CanStep(s.g, a.t, s.threads[a.t], a.c)
  }

  function Apply(s: State, t: Tid, e: Effect): State {
    State(e.g, if e.next.Some? then s.threads[t := e.next.value] else s.threads - {t})
  }

  function Next(s: State, a: Action): State
    requires Enabled(s, a)
  {
    var t := s.g.nextTid;
    match a
    case Step(t, c) => Apply(s, t, LocalStep(s.g, t, s.threads[t], c))
    case NewAsker =>
      State(s.g.(nextTid := t + 1, nextId := s.g.nextId + 1, owner := s.g.owner[s.g.nextId := t],
               idOf := s.g.idOf[t := s.g.nextId]),
            s.threads[t := Asker(LockShared, s.g.nextId)])
    case NewReplier(id, body) => State(s.g.(nextTid := t + 1), s.threads[t := Replier(Pop(id, body))])
    case NewCloser => State(s.g.(nextTid := t + 1), s.threads[t := Closer(Lock)])
  }

  const Initial := State(Globals({}, 0, false, map[], map[], 1, 0, map[], map[], {}, map[], false), map[])

  ghost predicate IsRun(run: seq<State>, acts: seq<Action>) {
    && |run| == |acts| + 1 && run[0] == Initial
    && forall i :: 0 <= i < |acts| ==> Enabled(run[i], acts[i]) && run[i + 1] == Next(run[i], acts[i])
  }

  ghost predicate Reachable(s: State) { exists run, acts :: IsRun(run, acts) && run[|acts|] == s }

  // ------------------------------------------------------------------ invariant

  predicate IsEntry(g: Globals, id: Id, t: Tid) { id in g.pending && g.pending[id] == t }

  predicate Filled(g: Globals, t: Tid) { t in g.chans && g.chans[t].Some? }

  /** A waiter can still be reached: through the table, its buffer, or a replier that has its channel. */
  predicate Covered(g: Globals, t: Tid, id: Id) { IsEntry(g, id, t) || Filled(g, t) || t in g.promise }

  /** A value that a waiter under `id` may read. */
  predicate Mine(v: Value, id: Id) { v == Stopping || v.id == id }

  predicate AskInv(g: Globals, t: Tid, id: Id, pc: AskPC) {
    && id in g.owner && g.owner[id] == t
    && (t in g.readers <==> pc.CheckClosed? || pc.RefuseUnlock? || pc.Insert? || pc.Unlock?)
    && (t in g.waiting <==> pc.Unlock? || pc.Await?)
    && (pc.LockShared? || pc.CheckClosed? || pc.RefuseUnlock? || pc.Insert? ==> t !in g.chans && id !in g.pending)
    && (pc.Insert? ==> !g.closed) && (pc.RefuseUnlock? ==> g.closed)
    && (pc.Unlock? || pc.Await? ==> t in g.chans && Covered(g, t, id))
    && (pc.Cancel? && pc.got.Some? ==> Mine(pc.got.value, id))
  }

  /** Every waiter still in the table is in `acc` or already has a value. */
  ghost predicate Swept(g: Globals, acc: set<Tid>) {
    forall id :: id in g.pending && g.pending[id] in g.waiting ==> g.pending[id] in acc || Filled(g, g.pending[id])
  }

  ghost predicate CloseInv(g: Globals, t: Tid, pc: ClosePC) {
    && (g.writer == t <==> !pc.Lock? && !pc.Wake?)
    && (!pc.Lock? && !pc.SetClosed? ==> g.closed)
    && (pc.Snapshot? ==> pc.k <= SHARDS && forall id :: id in g.pending && Shard(id) < pc.k ==> g.pending[id] in pc.acc)
    && (pc.Release? ==> Swept(g, pc.acc))
    && (pc.Wake? ==> Swept(g, pc.acc))
    && (pc.Snapshot? || pc.Release? || pc.Wake? ==> forall ch :: ch in pc.acc ==> ch in g.chans)
  }

  ghost predicate ThreadInv(g: Globals, t: Tid, th: Thread) {
    && 0 < t < g.nextTid
    && (!th.Asker? ==> t !in g.readers && t !in g.waiting)
    && (!th.Closer? ==> g.writer != t)
    && match th
       case Asker(pc, id) => AskInv(g, t, id, pc)
       case Replier(Pop(_, _)) => true
       case Replier(TrySend(ch, v)) =>
         ch in g.promise && g.promise[ch] == t && ch in g.chans && v.Reply? && v.id in g.owner && g.owner[v.id] == ch
       case Closer(pc) => CloseInv(g, t, pc)
  }

  ghost predicate IdsInv(g: Globals) {
    && g.nextTid > 0
    && (g.writer != 0 ==> g.readers == {})
    && (forall id :: id in g.owner ==> id < g.nextId && g.owner[id] < g.nextTid)
    && (forall id :: id in g.owner ==> g.owner[id] in g.idOf && g.idOf[g.owner[id]] == id)
    && (forall t :: t in g.chans ==> t < g.nextTid)
    && (forall t :: t in g.waiting ==> t < g.nextTid)
  }

  ghost predicate TableInv(g: Globals) {
    && (forall id :: id in g.pending ==> id in g.owner && g.owner[id] == g.pending[id] && g.pending[id] in g.chans
                                         && g.pending[id] !in g.promise)
    && (forall ch :: ch in g.promise ==> ch in g.chans)
  }

  ghost predicate ValueInv(g: Globals) {
    && (forall t :: Filled(g, t) && g.chans[t].value.Reply? ==>
          g.chans[t].value.id in g.owner && g.owner[g.chans[t].value.id] == t)
    && (g.awake ==> g.closed && Swept(g, {}))
    && (forall id :: id in g.pending ==> NoReply(g, g.pending[id]))
    && (forall ch :: ch in g.promise ==> NoReply(g, ch))
  }

  /** No reply has been put into the channel yet. */
  predicate NoReply(g: Globals, ch: Tid) { Filled(g, ch) ==> g.chans[ch].value == Stopping }

  ghost predicate GlobalInv(g: Globals) { IdsInv(g) && TableInv(g) && ValueInv(g) }

  /** Auxiliary references point at live goroutines in the right place. */
  ghost predicate PresentInv(s: State) {
    && (s.g.writer != 0 ==> s.g.writer in s.threads && s.threads[s.g.writer].Closer?)
    && (forall t :: t in s.g.readers ==> t in s.threads && s.threads[t].Asker?)
    && (forall ch :: ch in s.g.promise ==>
          s.g.promise[ch] in s.threads && s.threads[s.g.promise[ch]].Replier?
          && s.threads[s.g.promise[ch]].r.TrySend? && s.threads[s.g.promise[ch]].r.ch == ch)
    && (forall id :: id in s.g.pending ==> s.g.pending[id] in s.threads && s.threads[s.g.pending[id]].Asker?
                                           && s.threads[s.g.pending[id]].id == id)
  }

  ghost predicate Inv(s: State) {
    GlobalInv(s.g) && PresentInv(s) && forall t :: t in s.threads ==> ThreadInv(s.g, t, s.threads[t])
  }
}
