# Grain, modelled and proved in Dafny

Grain is an actor framework for Go. This project models its concurrent and distributed core and
proves what its comments and documentation promise, for every input, every interleaving and every
reachable state. `dafny verify dfyconfig.toml` checks all of it.

The protocols are transition systems over unbounded sets of goroutines or nodes: one step is one
atomic operation, lock, channel operation, mutex-protected call or store transaction. User code is
nondeterministic (it returns, panics, calls Goexit, Asks or sends); timeouts and lease expiry are
steps that may happen at any time. Code that works on its own memory is a class or a method proved
against a specification function.

| files | part of the system |
|---|---|
| `ActorModel`, `ActorInvariant`, `ActorPreservation`, `ActorSafety` | one actor: mailbox, drain role, execution gate, life cycle, reentrant Ask; its inductive invariant |
| `ActorTheorems`, `ActorAsk`, `ActorDelivery`, `ActorHandling`, `ActorStranding`, `ActorTermination` | what the invariant means: wake-ups, roles, permits, order, conservation, what each message leads to, life cycle, Ask, termination |
| `PendingAsks`, `PendingAsksSafety`, `PendingAsksDelivery` | request correlation, the shutdown wake-up, and where an answer comes from |
| `ProcessorCreation`, `ProcessorCreationSafety`, `ProcessorCreationOutcomes` | the per-id creation lock, the two spawn policies and what a creator returns |
| `ClusterLocks`, `ClusterLocksSafety`, `ClusterLocksTheorems` | the single-activation lock over nodes, leases, restarts and late transactions |
| `Shutdown` | draining the actors before the lease is revoked |
| `Rendezvous`, `Forwarding` | ownership by rendezvous hashing; forwarding between divergent views |
| `RouteCache`, `RouteCacheOrder`, `RouteCacheSafety`, `RouteCacheSources`, `RouteCacheTheorems`, `RouteCacheProgress` | the versioned route cache: what holds in every run, and its agreement with the uncached calculation |
| `Membership`, `Provider`, `NodeIds` | member load and watch replay, the provider's own state, node ids |
| `RingBuffer`, `ShardedMap`, `Snowflake`, `ActorId` | mailbox ring, sharded map and registry, id generator, actor ids |
| `Options` | a value that may be missing |

Assumptions: atomics are sequentially consistent; a live goroutine has a unique non-zero id; nodes
that are up at the same time have different addresses; a lease id is never reused.

## Where the code does not meet its own claim

Each entry names the failing runs and the theorem that says exactly when the claim holds.

- `GetNodes` (provider_etcd.go:447-453) says that version and nodes are mutually consistent. Its
  branch without a snapshot loads the version after it found no snapshot. When the first members are
  published between the two loads, an empty node list is cached as the generation of a later version,
  and calls that begin after publication answer "no owner" until the next version.
  `RouteCacheTheorems.StraddleIsReachable` and `StraddleMisroutes` show the runs and
  `RouteCacheSources.NilPairBacked` gives the exact condition of a clean read. `WrongAnswerIsUncleanRead`
  says for every run that nothing else goes wrong, `NextVersionRecovers` that it ends with the next
  version, and `RouteIsUncached` holds as long as the call's own system has read cleanly, in particular
  (`LateCallersAreClean`) when its calls begin after its first publication. Generations, entries and
  streams stay in order in every run (`RouteCacheOrder`).
- lifecycle.stop says that no accepted message vanishes (processor_lifecycle.go:55-56). The user's
  dead-letter handler runs inside the deferred final loop, where a panic is recovered but Goexit is
  not: it leaves the loop, and what is still queued is never started, dead-lettered or answered. The
  error reply to an Ask sender comes before the letter (processor_mailbox.go:46-52) and can reach the
  same handler when the stream to a remote asker is full (system.go:237-248); Goexit there also loses
  the message at hand. `ActorStranding.StopEmptiesMailbox` says exactly when, `MessageCanBeLeft` shows
  a run for each, `LettersExactly` says who gets a letter.
- The lock's value is the node's address, and removeTxn compares nothing else. A deletion whose call
  timed out may still commit after the process was restarted on the same address, and then takes the
  new process's lock: `ClusterLocksTheorems.StealIsReachable`, `StealDoubles`. `LockHeldExactly` says
  for each activation that this is the only way to lose its lock under a live lease, and
  `SingleActivation` that of two concurrent activations one was robbed like that.
- For the same reason a re-activation on one node is safe from the earlier instance's late deletion
  (`ReactivationKeepsLock`) only as long as no other late deletion freed the lock before that node
  could: `ExposureIsReachable`, `ExposingThreatens`.
- Registration drops the difference between a lost race and an error, and unregistration is tried
  once. A creation that commits without being answered, and a deletion that fails, leave a lock that
  nobody gives back: `LossIsReachable` shows both, `StrandedExactly` and `StrandedStays` say when and
  for how long.
- Draining does not exclude an activation that passed its check before the flag was set:
  `Shutdown.InFlightIsReachable`, `InFlightSlipsThrough`; without one `DrainedIsSafe` holds, and
  `SafeExactlyIfNoneInFlight` states both.
- Forwarding without loops needs every forwarded-to node to see itself. `Forwarding.BlindNodesLoop`
  shows the loop otherwise, and `Membership.SelfVanishesDuringReplay` shows that the watch replay can
  hide a node from itself for a while although register inserts it at once.
- The node map is keyed by the last path segment, so convergence needs flat member keys:
  `Membership.MembershipConverges` for all histories of flat keys, `NestedKeyEvicts` for every other key.

## Model

| member | source | states |
|---|---|---|
| ActorSafety.NextKeepsInv | processor_scheduler.go:31-94 | every step of every goroutine (drainer, sender, poisoner, handler, Ask) and every arrival keeps the inductive invariant of the actor |
| ActorSafety.ReachableInv | processor_scheduler.go:31-94 | so the invariant holds in every reachable state, for any number of goroutines and hand-offs |
| ActorTheorems.NoLostWakeup | processor_scheduler.go:71-84 | when the status is idle and no goroutine still owes a schedule, the mailbox is empty and no requested stop with zero unfinished calls is left lying |
| ActorTheorems.UniqueDrainRole | processor_scheduler.go:31-54 | running: exactly one goroutine holds the drain role, a successor in transit included; idle: none; never two |
| ActorTheorems.OnlyRoleHolderPops | processor_scheduler.go:41-57 | a step that shortens the mailbox or raises the counter is taken by the one role holder |
| ActorTheorems.ZeroSeenStays | processor_scheduler.go:68-94 | the zero that stopReady saw still stands at every later check and throughout the stop, and no goroutine is inside a call |
| ActorTheorems.StoppedIsFinal | processor_lifecycle.go:58-61 | over whole runs the status stopped is never left |
| ActorTheorems.AcceptedInOrder | processor_lifecycle.go:57-69 | at every moment accepted == started + at most one being entered + dead letters of the stop + at most one lost in its error reply + at most one being dead-lettered + queue, in acceptance order; the first start is Initialize |
| ActorHandling.StartedIsReceived | execution.go:26-42 | over every run the Receive events name exactly the ordinary messages that were started, in that order |
| ActorHandling.ReceiveRunsTheHandler | execution.go:40-41 | the step that begins a Receive brings the goroutine into the handler |
| ActorHandling.HandlerStep | execution.go:40-41 | and there the handler runs in the next step, as the one permit holder, however it ends |
| ActorHandling.RestHasHandledAll | processor_scheduler.go:37-94 | when an actor that is not stopped comes to rest Receive has run on every ordinary message it ever accepted, once and in acceptance order |
| ActorHandling.StartIsMade | processor_lifecycle.go:23-49 | a started Initialize leads to Started or to a failed registration, and Started runs only after a registration where one is configured |
| ActorHandling.HooksRun | processor_lifecycle.go:45-80 | the steps that begin Started and PreStop bring the goroutine into those hooks |
| ActorHandling.FailedStartStops | processor_lifecycle.go:28-49 | over every run, once registration or Started has failed, panicked or called Goexit the actor stops for good and never counts as started |
| ActorHandling.PoisonStops | processor_mailbox.go:42-45 | a run with a Poison, by call or by an accepted message, that comes to rest has the actor stopped |
| ActorHandling.RemovedExactlyByStop | processor_lifecycle.go:58-61 | the registry entry is there until the stop stores its status and gone when the stop is over |
| ActorHandling.GoexitEndsDraining | processor_scheduler.go:37-66 | over every run a goroutine that called Goexit finishes its call and never drains again |
| ActorTheorems.StoppedMailbox | processor_lifecycle.go:58-69 | once the stop has ended, accepted == started + dead letters + at most one lost in its error reply + what is left in the closed mailbox |
| ActorStranding.StopEmptiesMailbox | processor_lifecycle.go:55-69 | over every run, after the stop: the mailbox is empty if and only if no handler called Goexit in the final loop with messages still queued; and every accepted message was started or dead-lettered if and only if, besides, none did so in the error reply to a sender |
| ActorStranding.LeftForEver | processor_lifecycle.go:62-68 | what such a handler leaves queued is never started, dead-lettered or answered |
| ActorStranding.MessageCanBeLeft | dead_letter.go:49-60 | both ways are reachable: Goexit in a letter leaves an accepted message queued, Goexit in the error reply loses the message at hand as well |
| ActorStranding.MessageCanBeDropped | processor_mailbox.go:32-52 | a refused message whose error reply exits is dropped without a letter, in a reachable run |
| ActorStranding.LettersExactly | processor_mailbox.go:46-52 | over every run, of the messages refused or met by the stop those get a dead letter whose error reply does not exit, and the others are recorded as dropped or lost |
| ActorTheorems.PermitAccounting | execution_gate.go:18-35 | free permits plus holders is one in every reachable state, and giving the permit back never blocks |
| ActorTheorems.PublishedIdentity | execution_gate.go:23-50 | a non-zero owner id names the one permit holder, and the pointer is that goroutine's own execution |
| ActorTheorems.AdmittedIsHolder | execution_gate.go:37-50 | a goroutine whose Ask is admitted is the one permit holder, in a Receive call |
| ActorAsk.AskAdmittedExactlyInReceive | baseactor.go:91-104 | from application code on an actor goroutine Ask is admitted exactly inside Receive, and every hook gets NotRunning; any goroutine without the permit gets InvalidContext |
| ActorAsk.AskReturnsInOrder | request_helper.go:23-41 | over every run: after a wait for request r, however it ended, the handler is back in user code only with r gone from the pending table, as the sole permit holder and with its own record and id published |
| ActorTheorems.AskBookkeeping | execution.go:57-67 | a goroutine outside register..cancel owns no pending entry; it hands the role over at most once however often it Asks |
| ActorHandling.AskStaysRegistered | request_helper.go:23-41 | over every run a request is in the pending table as its goroutine's own from registration to cancellation, unless a reply took it |
| ActorHandling.AskSuspends | execution.go:57-63 | an admitted Ask leads to a registered request, the permit given back and, the first time, the drain role handed on, with the call still counted |
| ActorHandling.AskResumes | execution.go:65-67 | however the wait ends, with the permit free the goroutine is back in the handler with its request gone and its id published |
| ActorHandling.AskRefused | request_helper.go:29-32 | an Ask that is refused returns to the handler at once with nothing changed |
| ActorHandling.RepliedOnce | system.go:277-289 | over every run a reply takes its request for good: no second one reaches it |
| ActorTheorems.ResumesWithPermit | execution.go:65-67 | a handler that handed over runs user code again only as the sole permit holder with its own record and id published |
| ActorTheorems.OrderlyLife | processor_lifecycle.go:23-80 | every event of every run is allowed by its past: one Started before any Receive, one PreStop after it and nothing after that, one unregistration and only after a registration |
| ActorTheorems.RunSummary | processor_lifecycle.go:23-80 | a log that the life-cycle automaton accepts satisfies the event rules at every position |
| ActorTheorems.PreStopAlone | processor_scheduler.go:85-94 | while PreStop runs no call is unfinished, suspended or running and its goroutine alone has the permit |
| ActorTheorems.StoppedIsUnregistered | processor_lifecycle.go:70-76 | a stopped actor that had registered has unregistered exactly once, also when hooks panic or Goexit |
| ActorTermination.QuietStepDecreases | processor_scheduler.go:37-94 | with no new send, stop or Ask every step strictly decreases a well-founded measure |
| ActorTermination.NoSpinning | processor_scheduler.go:79-83 | no reachable state starts an infinite sequence of such steps: a stop with suspended calls parks |
| ActorTermination.SomeoneMoves | execution_gate.go:24-35 | a blocked goroutine waits for the permit only, and then its holder can move: no deadlock |
| ActorTermination.RestIsClean | processor_scheduler.go:37-94 | at rest all goroutines have ended, every accepted message was started, dead-lettered, lost in its error reply or left behind, some are left behind exactly when a handler left the final loop early, no Ask is pending and a requested stop is done |
| ActorDelivery.EveryMessageInOnePlace | processor_mailbox.go:32-52 | every message ever sent is in exactly one place: with its sender, refused with one dead letter, dropped in the error reply to its sender, queued, being entered, started, dead-lettered by the stop or lost in its error reply |
| ActorDelivery.MailboxIsBoundedQueue | processor_mailbox.go:32-41 | each actor step acts on the mailbox as one operation of the bounded queue that the ring refines, or not at all |
| ActorDelivery.SendFollowsPush | processor_mailbox.go:32-41 | after Push the sender schedules, or replies with the error and goes on to the overflow or the stopped dead letter, as the queue's answer says |
| PendingAsksSafety.NoAdmissionAfterClose | system.go:263-272 | once registration is closed it stays closed and the pending table only shrinks, in every interleaving |
| PendingAsksSafety.WakeReachesEveryWaiter | system_life.go:133-145 | when a wake-up has ended each admitted waiter that was not cancelled can receive, or exactly one replier is committed to its channel |
| PendingAsksSafety.WaiterIsReachable | system.go:277-289 | a waiter always has its table entry, a buffered value or a committed replier: no race loses a reply |
| PendingAsksSafety.RepliesNeverCollide | system.go:277-284 | a replier can always send; a channel it finds full holds the stopping error, never another reply; otherwise its reply is delivered |
| PendingAsksSafety.OneReplyPerChannel | system.go:274-284 | once a channel holds a reply, no table entry and no replier leads to it any more |
| PendingAsksSafety.WaiterReadsItsOwn | system.go:277-284 | what a waiter reads is a reply to its own id or the stopping error (and which of them, AnswerHasItsCause) |
| PendingAsksDelivery.AnswerHasItsCause | request_helper.go:55-86 | over every run an Ask returns nothing exactly when its timer fired, the stopping error only when a wake-up treated its channel, and otherwise a reply that was issued to its own id with that content |
| PendingAsksDelivery.NoShutdownNoStopping | system.go:263-272 | in a run without a shutdown every Ask is admitted and none fails with the stopping error |
| PendingAsksDelivery.ValueStays | system.go:277-284 | a value in a waiter's channel stays there until the waiter moves |
| PendingAsksDelivery.WaiterReturnsTheValue | request_helper.go:65-76 | and is what the waiter returns |
| PendingAsksDelivery.ReplyArrives | system.go:277-284 | a reply to a waiting request is taken, sent and returned with its content, from every reachable state |
| PendingAsks.HashVectors | al/safemap/concurrentmap.go:350-361 | the shard hash of integer keys on given keys |
| PendingAsksSafety.EntriesAreLive | system.go:286-289 | every table entry belongs to a live request that will still cancel it |
| ProcessorCreationSafety.OneCreatorPerId | processor_spawn.go:22-86 | at most one creator per id is between lock and unlock, over both spawn policies and failing producers |
| ProcessorCreationSafety.SlotLifetime | processor_spawn.go:22-45 | a slot is in the table exactly while goroutines use it, its count is their number, and two slots of one id are never in use together |
| ProcessorCreationSafety.NoCreatorsNoSlots | processor_spawn.go:37-45 | with no creator left the table is empty |
| ProcessorCreationSafety.RegisterAlwaysInserts | processor_spawn.go:59-62 | registration under the lock finds the id free, so the lost-race branches are dead |
| ProcessorCreationSafety.PublishedIsStartedOnce | processor_spawn.go:80-86 | a published processor was started once, or the single goroutine that published it is about to start it |
| ProcessorCreationOutcomes.OutcomeHasItsCause | processor_spawn.go:49-86 | over every run a creator returns nothing exactly when its producer failed, an existing processor (explicit spawn: a refusal) exactly when a lookup found that one, and otherwise the processor it built, published and started once |
| ProcessorCreationOutcomes.SpawnLeavesRegistered | processor_spawn.go:49-86 | without a removal of the id and without a failing producer a finished creator leaves its id bound to what it returned, started once when all are done |
| ProcessorCreationOutcomes.CreatorAdvances | processor_spawn.go:22-86 | every step brings a creator nearer to its end |
| ProcessorCreationOutcomes.HolderMoves | processor_spawn.go:22-45 | a creator waits only for another creator of its id, and the one inside can move |
| ProcessorCreationOutcomes.HitTakesNoLock | processor_spawn.go:69-74 | getOrSpawn of a registered id returns it at once without a creation lock |
| ProcessorCreationOutcomes.RemovalIsItsOwn | registry.go:28-32 | a stopping processor removes its own entry and never a later one |
| ClusterLocksSafety.StepKeepsInv | kind_opts.go:28-57 | every step of nodes, leases and transactions, also of transactions that commit after their call failed, keeps the lock invariant |
| ClusterLocksTheorems.LockHeldExactly | kind_opts.go:28-57 | over every run of nodes, crashes, expiries and late transactions, and for every activation: it holds its lock in all states in which it is active with a live lease if and only if no deletion still under way committed on that lock |
| ClusterLocksTheorems.SingleActivation | kind_opts.go:28-57 | so in every run, of two activations of one grain that are both between registration and unregistration with live leases, at least one was robbed of its lock by such a deletion |
| ClusterLocksTheorems.RobbedOverRuns | provider_etcd.go:295-308 | the recorded robbed activations are exactly those from which a step of the run took the lock while they were active |
| ClusterLocksTheorems.StealDoubles | kind_opts.go:21-27 | the condition is needed for single activation too: from every state in which a pending deletion matches an active lock four steps activate the grain twice |
| ClusterLocksTheorems.StealIsReachable | kind_opts.go:46-56 | such a state is reachable: a process restarted on the same address while the old deletion is still under way |
| ClusterLocksTheorems.ReactivationKeepsLock | provider_etcd.go:295-308 | the lock of a local re-activation is never matched by a deletion that an earlier instance on the same node left under way, for every grain of which no lock was exposed: taken by a late deletion from another activation, on a node that is up, which is active or has its own deletion pending |
| ClusterLocksTheorems.ExposedOverRuns | provider_etcd.go:295-308 | the exposed grains are exactly those for which a step of the run was such a deletion |
| ClusterLocksTheorems.ExposingThreatens | kind_opts.go:46-56 | the condition is needed: from every state in which a pending deletion can expose a lock, that node can activate the grain again with the lock open to a deletion of its own earlier instance |
| ClusterLocksTheorems.ExposureIsReachable | kind_opts.go:46-56 | such a state is reachable without any active lock being stolen |
| ClusterLocksTheorems.DeletesOnlyItsOwnLock | provider_etcd.go:295-308 | a matching compare-and-delete of an unregistering activation removes its own lock if and only if its lease lives, for every activation that was not robbed; and in every run it always does while no late creation has committed, even after the lease expired or the address was reused |
| ClusterLocksTheorems.ForeignDeletionIsReachable | provider_etcd.go:295-308 | the condition is needed: after a late creation an unregistration can delete the lock of another activation on its address |
| ClusterLocksTheorems.LockLostOnlyByHolderOrLease | provider_etcd.go:277-308 | in every run a lock changes or vanishes only by its lease, its holder, another activation of the same address after a late creation, or a late deletion from its address; and the last takes no lock of an active re-activation of the same process unless the grain was exposed |
| ClusterLocksTheorems.EarlierInstanceIsGone | registry.go:28-32 | of two instances of a grain on one node one is out of the registry for good; what its late deletion may do is ReactivationKeepsLock |
| ClusterLocksTheorems.RunsOnlyWithTheLock | processor_lifecycle.go:36-44 | an activation becomes active only in the step in which its own transaction created the absent lock |
| ClusterLocksTheorems.StrandedExactly | kind_opts.go:34-56 | in every run no lock is ever left with a holder that is not active if and only if no step lost one: an unanswered creation that committed, on time or late, or a deletion of the own lock that did not commit |
| ClusterLocksTheorems.LosingStrands | kind_opts.go:34-56 | every such step leaves a lock whose holder is not active |
| ClusterLocksTheorems.StrandedStays | kind_opts.go:46-56 | in every run such a lock stays until its lease ends or a deletion by its address removes it |
| ClusterLocksTheorems.LossIsReachable | kind_opts.go:34-56 | both ways to lose a lock are reachable: a lost answer followed by giving up, and a failed deletion |
| Shutdown.DrainedIsSafe | system_life.go:66-126 | when no activation was between its draining check and its registration as the flag was set, the lease is given up only with no activation registered, and none appears later |
| Shutdown.RevokedExactly | system_life.go:108-126 | over every run the node leaves with its lease revoked if and only if no poll gave up in either phase |
| Shutdown.FirstPhaseWaitsForFirst | system_life.go:151-189 | the first phase waits only for activations that asked to be poisoned first |
| Shutdown.FirstPhaseGoesFirst | system_life.go:108-126 | once the first phase has drained none of those is left while the second polls |
| Shutdown.SafeExactlyIfNoneInFlight | system_life.go:66-126 | for every reachable state in which the flag is about to be set: some continuation ends with the lease given up and an activation registered if and only if an activation is between its check and its registration |
| Shutdown.InFlightSlipsThrough | system_cluster.go:29-44 | from every such state with an activation in flight all others may leave, both polls find nothing, the lease is revoked and the activation registers afterwards |
| Shutdown.InFlightIsReachable | system_life.go:151-189 | a state with an activation in flight as the flag is set is reachable |
| RouteCacheSafety.StepKeepsInv | routing_resolver.go:35-116 | every step of every run keeps: each cached entry and each answer is the uncached route on one stored generation, no older than the call |
| RouteCacheOrder.StepKeepsOrder | routing_resolver.go:35-116 | every step of every run keeps the order of locks, generations and entries, whatever the provider publishes |
| RouteCacheOrder.GenerationsNeverGoBack | routing_resolver.go:35-54 | in every run a resolver's generations are only ever followed by ones of a higher version |
| RouteCacheOrder.EntryNeverRollsBack | routing_resolver.go:100-106 | in every run a slow resolution never replaces a later route of the same system in the shared entry |
| RouteCacheOrder.StreamIsOwn | routing_resolver.go:67-75 | in every run a system sends only through its own streams, although entries are shared between systems |
| RouteCacheTheorems.RouteOnGeneration | routing_resolver.go:58-107 | in every run what resolve returns is the uncached owner and stream for one published snapshot no older than the one current when the call began, or the route on a generation no older than that which may not be used |
| RouteCacheSources.UnbackedIsUncleanRead | provider_etcd.go:447-453 | in every run a generation that may not be used is empty and comes from an unclean read of its version by a call of its own system |
| RouteCacheTheorems.WrongAnswerIsUncleanRead | routing_resolver.go:58-107 | in every run the only wrong answer is that for the empty view, after an unclean read, in the same system, of a version no older than the call |
| RouteCacheTheorems.NextVersionRecovers | routing_resolver.go:46-53 | a call that begins when the snapshot of a later version than all unclean reads of its system is current answers right |
| RouteCacheTheorems.RouteIsUncached | routing_resolver.go:58-107 | as long as its own system has read nothing uncleanly, every answer is the uncached owner and stream for one published snapshot no older than the one current when the call began |
| RouteCacheTheorems.LateCallersAreClean | provider_etcd.go:120-126 | a system whose calls begin after its first publication reads nothing uncleanly, whatever other systems do |
| RouteCacheProgress.ResolveAdvances | routing_resolver.go:58-107 | every step of a call brings it nearer to its answer, at most sixteen in all |
| RouteCacheProgress.NobodyIsStuck | routing_resolver.go:35-116 | in every run an unanswered call can move, or the holder of the lock it waits for can |
| RouteCacheProgress.HitIsFast | routing_resolver.go:58-66 | a hit on an entry of the current version answers from it in three steps without a lock |
| RouteCacheSources.NilPairBacked | provider_etcd.go:447-453 | the pair given by the branch without a snapshot may be used if and only if the provider then holds no offer and the last publication had none |
| RouteCacheTheorems.UncleanStraddles | provider_etcd.go:447-453 | whenever that condition fails, the last snapshot lists a host, at once or after the provider's next publication |
| RouteCacheTheorems.StraddleMisroutes | routing_resolver.go:46-53 | and then some continuation lets a call that began after publication answer "no owner" although every snapshot it may use has one |
| RouteCacheTheorems.StraddleIsReachable | provider_etcd.go:120-126 | such a state is reachable: a call that begins before start and a member that joins before it reads the version |
| Forwarding.ChainClimbs | system.go:167-193 | for any divergent views in which each forwarded-to node sees itself, addresses strictly climb the (score, smaller address) order after the first hop |
| Forwarding.NoNodeRepeats | system.go:167-193 | no node is forwarded to twice |
| Forwarding.NoNodeRepeatsFromStart | system.go:167-193 | when the first node sees itself too, the message never returns to it |
| Forwarding.ChainIsShort | system.go:167-193 | a message is handled by at most one node more than there are addresses in the views |
| Forwarding.AgreementDelivers | system.go:167-193 | nodes with the same eligible addresses forward a message at most once, and it ends where the actor is registered or on the owner |
| Forwarding.EndDelivers | system.go:167-193 | for any views in which forwarded-to nodes see themselves, a way that has ended was kept at a registered actor or at a node that takes itself for the owner; only a first node that knows nobody eligible has no owner |
| Forwarding.DecidesExactly | system.go:167-193 | a node keeps the message if and only if the actor is registered or it is the owner, has no owner if and only if nobody is eligible, and otherwise forwards to the owner |
| Forwarding.DirectTakesOneHop | system.go:160-166 | a direct reference is forwarded at most once and only to its address, which keeps it |
| Forwarding.BlindNodesLoop | system.go:167-193 | without self-visibility two nodes that list only each other forward a message any number of times |
| Rendezvous.FnvFromConcat | addr_hash.go:19-32 | resuming the hash after a prefix equals hashing the concatenation |
| Rendezvous.FnvFromIsFnv1a | addr_hash.go:26-32 | the loop's hash equals FNV-1a as section 2 of draft-eastlake-fnv defines it |
| Rendezvous.OctetIsXorThenMultiply | addr_hash.go:28-29 | one octet is the exclusive or of naturals followed by the product with 16777619 modulo 2^32 |
| Rendezvous.EmptyVector | addr_hash.go:19-24 | the published hash of the empty string |
| Rendezvous.LetterVector | addr_hash.go:19-32 | the published hash of "a" |
| Rendezvous.WordVector | addr_hash.go:19-32 | the published hash of "foobar" |
| Rendezvous.FmixVectors | addr_hash.go:43-50 | values of fmix32, that of 1 being the published murmur3 hash of the empty key with seed 1 |
| Rendezvous.ScoreVector | addr_hash.go:71-71 | one score worked out: hash, then finalizer |
| Rendezvous.Fnv32aAdd | addr_hash.go:26-32 | the loop computes the resumed hash |
| Rendezvous.Fnv32aTwo | addr_hash.go:34-37 | the two-part hash is FNV-1a of the concatenation |
| Rendezvous.UnmixUndoesFmix | addr_hash.go:43-50 | fmix32 has a left inverse |
| Rendezvous.FmixUndoesUnmix | addr_hash.go:43-50 | and the same function is its right inverse: a bijection on 32 bits |
| Rendezvous.Fmix32AddsNoTies | addr_hash.go:39-50 | two hashes tie after fmix32 exactly when they tied before |
| Rendezvous.BeatsIsStrictTotalOrder | addr_hash.go:70-76 | higher score, then smaller address, is irreflexive, transitive and total on addresses |
| Rendezvous.CalcAddrByKind8Name | addr_hash.go:55-81 | the single pass returns the address that beats every other eligible address, or none exactly when there is none |
| Rendezvous.OwnerIsUnique | addr_hash.go:55-81 | a candidate set has one owner only |
| Rendezvous.OwnerExists | addr_hash.go:55-81 | and it has one |
| Rendezvous.SameSetSameOwner | addr_hash.go:70-72 | slices with the same eligible addresses, in any order and with duplicates, give the same owner |
| Rendezvous.RemovalKeepsOwner | addr_hash.go:52-54 | removing an address that is not the owner moves nothing |
| Rendezvous.AdditionMovesOnlyToNewNode | addr_hash.go:52-54 | adding an address moves a grain only to that address |
| Membership.MembershipConverges | provider_etcd.go:153-171 | load at r, any later reloads and a self-insert, then every watched change up to any R beyond them leave exactly the parsed member keys at R |
| Membership.ReplayAt | provider_etcd.go:349-368 | replay puts each touched member at its value in the store after the replayed changes and leaves the others |
| Membership.LoadSettles | provider_etcd.go:332-346 | a load at any revision of the range gives an untouched member its final value |
| Membership.SegmentOfFlat | provider_etcd.go:404-407 | the last path segment of a member key is its id |
| Membership.NestedKeyEvicts | provider_etcd.go:404-411 | for every key nested below the prefix convergence fails: putting and deleting it evicts the member with the same last segment |
| Membership.SelfVanishesDuringReplay | provider_etcd.go:246-248 | a node can be absent from its own map during the replay although it inserted itself |
| Provider.Provider.Start | provider_etcd.go:120-126 | version 1, no nodes, published |
| Provider.Provider.ApplyMember | provider_etcd.go:402-420 | one version step and the node map changed at the key's last segment: a put that parses stores, anything else removes |
| Provider.Provider.Publish | provider_etcd.go:424-430 | the snapshot has the current version and lists exactly the current nodes, one entry per member |
| Provider.Provider.ParseWatch | provider_etcd.go:393-398 | one change applied and published with its version |
| Provider.Provider.LoadMembers | provider_etcd.go:332-346 | the batch applied in order, one version step per key, one publication at the end |
| Provider.Provider.WatchMembers | provider_etcd.go:349-368 | the delivered changes applied in order, with map and snapshot in step after each |
| Provider.Provider.FreeNodeIds | provider_etcd.go:261-272 | the loop returns the list of free ids |
| Provider.FreeIdsAre | provider_etcd.go:259-272 | that list holds exactly the ids of 1..1023 that the map does not show as taken, in strictly ascending order |
| Provider.Provider.Register | provider_etcd.go:227-257 | the retry loop against the store's answers: outcome and node map of the round-by-round specification, published on success |
| Provider.RegisteredIdWasFree | provider_etcd.go:227-257 | some round won after all earlier ones lost and reloaded, and the granted id lies in 1..1023 and was free in that round's map |
| Provider.EveryFreeIdIsDrawn | provider_etcd.go:229-236 | every free id is one of the possible draws |
| Provider.GrantedIsEntered | provider_etcd.go:246-248 | a granted id shows the node's own state in its map and no other id changes |
| Provider.Provider.EnterSelf | provider_etcd.go:246-248 | a granted id is in the node's own map at once, with its own parsed state, and published |
| Provider.AllTakenMeansAll | provider_etcd.go:229-234 | exhaustion is reported only when every id of the range shows as taken |
| Provider.Provider.GetNodes | provider_etcd.go:447-453 | the pair published last, which right after a publication is the current node set with the current version; nobody before the first; the version never leads and when it is the provider's the list is the current node set |
| NodeIds.NodeIdsAreUnique | provider_etcd.go:219-257 | over all runs of claims, lost answers and expiries no two live leases hold one node id, so no two nodes with live leases can generate one id |
| NodeIds.ClaimIsGrantedExactly | provider_etcd.go:274-292 | a claim is granted if and only if it is answered, its lease lives and nobody holds the id |
| NodeIds.IdComesBack | provider_etcd.go:219-257 | after the holder's lease has expired another provider is granted the id |
| RingBuffer.FirstInFirstOut | al/ringbuffer/ringbuffer.go:19-21 | for every history of pushes, pops and closes: popped + queued == initially queued + accepted |
| RingBuffer.ClosedAndBounded | al/ringbuffer/ringbuffer.go:97-102 | the queue never exceeds its limit and a closed queue accepts nothing more |
| RingBuffer.RingBuffer.constructor | al/ringbuffer/ringbuffer.go:35-47 | an empty queue with clamped capacities |
| RingBuffer.RingBuffer.Push | al/ringbuffer/ringbuffer.go:50-68 | append to the abstract queue, or overflow exactly at the maximum, or closed, contents intact; capacity stays within the maximum; elements copied so far at most twice the accepted pushes |
| RingBuffer.RingBuffer.Grow | al/ringbuffer/ringbuffer.go:86-95 | a full ring is unwrapped into min(2*cap, maxCap) slots with the contents unchanged |
| RingBuffer.RingBuffer.Pop | al/ringbuffer/ringbuffer.go:118-132 | drop-first on the abstract queue, zero value when empty, and the vacated slot is cleared |
| RingBuffer.RingBuffer.Close | al/ringbuffer/ringbuffer.go:98-102 | only the closed flag changes |
| RingBuffer.WindowPush | al/ringbuffer/ringbuffer.go:63-65 | writing the tail slot of a ring appends to its window |
| RingBuffer.WindowPop | al/ringbuffer/ringbuffer.go:125-129 | clearing the head slot drops the first element of the window |
| ShardedMap.UnionUpdate | al/safemap/concurrentmap.go:65-77 | replacing one shard changes the whole map at the key alone |
| ShardedMap.ConcurrentMap.Get | al/safemap/concurrentmap.go:118-124 | lookup in the whole map |
| ShardedMap.ConcurrentMap.Set | al/safemap/concurrentmap.go:70-77 | the whole map updated at the key; the previous value returned |
| ShardedMap.ConcurrentMap.SetIfNotExist | al/safemap/concurrentmap.go:80-89 | inserted only when absent; the old value returned |
| ShardedMap.ConcurrentMap.Remove | al/safemap/concurrentmap.go:145-150 | the key removed from the whole map and nothing else |
| ShardedMap.ConcurrentMap.RemoveCb | al/safemap/concurrentmap.go:157-167 | removed exactly when the callback accepts the current value; its answer returned |
| ShardedMap.ConcurrentMap.Pop | al/safemap/concurrentmap.go:169-176 | removed and returned |
| ShardedMap.ConcurrentMap.Count | al/safemap/concurrentmap.go:126-135 | with no writer between, the sum over shards is the size of the whole map |
| ShardedMap.ConcurrentMap.Entries | al/safemap/concurrentmap.go:265-274 | a traversal with no writer between lists every entry once and nothing else |
| ShardedMap.IterAmongWriters | al/safemap/concurrentmap.go:259-274 | a traversal among writers lists every entry that is there throughout, only entries that were there when their shard was read, and no key twice |
| ShardedMap.CountAmongWriters | al/safemap/concurrentmap.go:126-135 | a count among writers is the number of keys that are there when their shard is read |
| ShardedMap.SeenAtItsMoment | al/safemap/concurrentmap.go:259-274 | a traversal sees a key exactly as it is when its own shard is read |
| ShardedMap.ListsOnceCovers | al/safemap/concurrentmap.go:265-274 | such a list contains every key of the map |
| ShardedMap.Registry.Register | registry.go:19-25 | inserts exactly when the id is free; the id then maps to the returned instance |
| ShardedMap.Registry.Remove | registry.go:28-32 | removes the id exactly when it still maps to the expected instance |
| ShardedMap.Registry.Snapshot | registry.go:39-51 | with no writer between, the snapshot lists every registered process once |
| Snowflake.UUID.Advance | uuid/uuid.go:69-99 | the clamping, stepping and waiting code moves the stamp as the specification says, and returns exactly when that does |
| Snowflake.UUID.Generate | uuid/uuid.go:69-105 | the id composed from the new stamp |
| Snowflake.NewUUID | uuid/uuid.go:41-58 | a generator exactly for nodes that fit 10 bits |
| Snowflake.GeneratedIncreases | uuid/uuid.go:78-99 | one call strictly increases (timestamp, step) whatever the clock does and keeps the step in 12 bits |
| Snowflake.WaitsExactly | uuid/uuid.go:82-92 | a call does not return if and only if it has no reading, or its millisecond is used up and no reading is later |
| Snowflake.IdsIncreaseExactly | uuid/uuid.go:69-105 | over every run a later id of one generator is larger if and only if (elapsed time in 42 bits, step) is |
| Snowflake.IdsStrictlyIncrease | uuid/uuid.go:69-105 | successive ids of one generator strictly increase over every run in the 42-bit range, whatever the clock does |
| Snowflake.IdsWrap | uuid/uuid.go:100-100 | the order turns when the 42 bits wrap: a run with a smaller later id |
| Snowflake.NeverLeadsClock | uuid/uuid.go:85-99 | with one clock that never goes back every id carries the last reading its call took |
| Snowflake.ComposeIsSum | uuid/uuid.go:100-100 | the bitwise composition puts time, node and step side by side, dropping what exceeds 42 bits of time |
| Snowflake.NodesNeverCollide | uuid/uuid.go:100-100 | ids of two nodes differ for any times and steps |
| Snowflake.PartsRecovered | uuid/uuid_global.go:34-42 | ParseNode and ParseStep recover their parts always, ParseTime exactly when the time fits 42 bits |
| Snowflake.SortValDropsNode | uuid/uuid_global.go:31-33 | the sort value is the id composed without its node |
| Snowflake.AskRangesDisjoint | uuid/uuid_global.go:23-28 | correlation ids of two nodes stay apart, and inside 64 bits, for 2^54 Asks |
| Snowflake.AndMask | uuid/uuid.go:83-83 | masking with 2^k - 1 is the remainder modulo 2^k |
| ActorId.ParseIsSplit | actor_parse.go:21-49 | the index-search parser equals splitting on "/" and "@" on every string |
| ActorId.SplitJoin | actor_parse.go:21-49 | the reference split is the inverse of joining and its pieces hold no separator |
| ActorId.ClusterRoundTrip | actor_wrapper.go:23-30 | a cluster id parses back to its parts if and only if kind and name hold no "/" and the name no "@" |
| ActorId.DirectRoundTrip | actor_wrapper.go:14-21 | a direct id parses back to its parts if and only if no part holds "/" and neither name nor address holds "@" |
| ActorId.IdsAreInjective | actor_name.go:13-17 | for valid names ids are equal only if all parts are, and a direct id is never a cluster id |
| ActorId.ValidateActorName | actor_name.go:31-40 | no error exactly for non-empty names without separators; otherwise the first separator is reported |
| ActorId.FormatParse | actor_wrapper.go:61-66 | printing and parsing a correlation id keeps all 64 bits |
| ActorId.ReplyRoundTrip | reply_ref.go:28-36 | a reply reference that travels as a string keeps kind, address and correlation id if and only if the address holds no separator |

## Left out

- gRPC transport, the stream writer actor, protobuf encoding and generated code: a remote send is an opaque step.
- The real store client, lease timers, watch errors and JSON: the store is a history of changes with leases, and parsing a member value is an arbitrary partial function.
- Wall-clock durations: timeouts, back-off and polling intervals; only that a timeout or expiry may happen at any moment.
- The Go memory model and goroutine-id internals.
- Sends and Poisons issued by user code inside a handler are external goroutines that start at any time, which allows every real order and more.
- Whether the error reply to a sender calls Goexit is a mark of the message, chosen arbitrarily when it is sent, which allows every outcome.
- Decoding of a reply into the asked type: a reply is its request id and an arbitrary content, and error values are contents too.
- Plain accesses that the code makes only while it holds the permit or a lock are merged with a neighbouring step.
- Fairness: that a waiting goroutine gets the permit or a lock eventually.
- Wrap-around of the 32-bit unfinished-call counter, of the 64-bit correlation counter after 2^54 Asks, and of ring capacities near 2^63.
- Event streams, timers, configuration options, logging, signals and error codes: small members with no hard property.
- Evenness of the hash and the choice of the string shard hash; only that a key always selects the same shard.
- Shutdown.DrainedIsSafe: only activations of cluster grains are modelled, since only they hold locks; actors spawned by name are not.
- ShardedMap.ConcurrentMap.Count: states the case with no writer between two shards; among writers see `ShardedMap.CountAmongWriters`.
- ShardedMap.ConcurrentMap.Entries: states the case with no writer between two shards; among writers see `ShardedMap.IterAmongWriters`.
- ShardedMap.Registry.Snapshot: states the case with no writer between two shards; among writers see `ShardedMap.IterAmongWriters`.
- ShardedMap.ConcurrentMap: Upsert, SetIfAbsent, Keys, Items, Clear and the JSON methods would only repeat the pattern.
- Provider.Provider.GetNodes: as a method it is one atomic call; its two loads are separate steps in `RouteCache`.
- Snowflake.UUID.Generate: clock readings are a parameter; that nowMs never falls below the epoch rests on Go's monotonic clock.
- Rendezvous.CalcAddrByKind8Name: takes node lists by value, so sharing of the snapshot's backing array is not modelled.
