# Core/replica market-risk replication: a verified model

The repository runs one *core* and any number of *replicas*. The core collects bet-flow signals per market, and on
every tick prunes each market's rolling window, sums it and asks a circuit breaker for a verdict. Whenever a market
changes it assigns the next sequence number, persists an event, broadcasts it to the open streams and only then updates
its own map of markets. A stream session subscribes, replays the backlog from the log and then merges live events,
filling gaps from the log, which may be growing meanwhile. A replica bootstraps from a snapshot, reads a stream from the
number after its last one, drops duplicates by event id, commits dedupe row and checkpoint in one transaction, and only
then changes its memory; a gap sends it back to the snapshot.

This project models all of that and proves it end to end. The headline is `AgreementTheorems.ReplicaIsAFold`: in every
run of a core from an empty log whose failed inserts store nothing, over all interleavings, disconnects, evictions,
replica restarts, failed inserts and failed replica writes, a bootstrapped replica is the fold of the log prefix it has
applied. `AgreementTheorems.ReplicaAgreesWithLog` is the exact condition when failed inserts may store their row.

## How it is organised

Every operation is a function on values (`CoreState`, `ReplicaState`, `Stream`, `Hub.Offer`, `EventLog`). Two things are
built on the same functions:

- the **objects** of the program: `EventLog.EventStore`, `CoreService.Service`, `Hub.SSEHub`, `Stream.FrameWriter` with
  `HandleStream`, `ReplicaService.Store`, `ReplicaService.Service`. Their methods mutate fields in loops, as the source
  does, and each is proved to compute its function. What the world has in store for a call (ids, clock readings, what
  each read and write of the database does, what the network brings) is an argument, so a method cannot choose it; map
  iteration order is arbitrary;
- the **protocol** (`Protocol`): a transition system of one core, any number of sessions and any number of replicas. A
  core emission is split into persist, broadcast and assign, because sessions read the log without taking the mutex;
  snapshots and signals take it. A step that is not enabled does nothing, so a run is any sequence of steps.

Lemmas named `...Cases` (and `BreakerVerdict`, `SumConcat`, `KeepConcat`, `FromConcat`) say what the value functions
compute, for every input and without naming their parts.

`ProtocolSafety`, `ReplicaSafety` and `ProtocolHistory` prove what every step keeps; `ProtocolTheorems` and
`AgreementTheorems` state the consequences for every reachable state. `TickRuns`, `StreamRuns` and `ReplicaRuns` close
the circle: an atomic tick of the service object, a wake-up of the stream handler, and the frame loop, bootstrap and
refresh of the replica object are runs of the protocol's small steps (`StepMeanings` covers the steps that remain); and every session of every run has done what the
handler does on the very wake-ups that session had. `CatchUpRuns` says when an undisturbed round of a replica's main loop
brings it level with the core.

History variables (`CoreHistory.Trace`, `Node.base`, the hub's broadcast history) record the past and are never read by
an operation: the state each market was first given, which rows were reported as stored, the signals since the last
clear, the snapshot a replica was bootstrapped from, every broadcast, and, for each session, the log its backlog read
found, its live wake-ups with the log each could read, and the events its channel took.

## Faults

- An insert may succeed, fail cleanly, or **store its row and report failure**; the resync read after a failure may fail
  too; event ids may collide, and the unique key then rejects the insert.
- A replica write may happen, be lost, or **happen and report failure**; lookups may fail.
- Sessions can be evicted, cut or cancelled at any point; replicas can disconnect, lose a snapshot, or restart.
- The core can go down at any point, also between an insert and its broadcast, and come up again over its log, with the
  replicas it had.

## Where the repository's documentation and code disagree

`README.md:56` promises that if persistence fails, neither authoritative state nor `lastSeq` advances. The first half
holds: `ProtocolTheorems.FailedInsertMovesSequence` shows that a failed insert changes no market, in every reachable
state. The second half does not, because the code resyncs `lastSeq` from the log after a failure
(`internal/core/service.go:283-290`). The same lemma says exactly when: a failure moves `lastSeq`, by one, if and only
if the resync read works and either `lastSeq` was behind the log already or this insert stored its row although it
reported an error. Both cases occur:

- `FailureRuns.StoredFailureBreaksSnapshot`: the insert stores its row, the resync counts it, and the next snapshot
  carries a number whose log says something else;
- `FailureRuns.CleanFailureMovesSequence`: the row was stored by an earlier failure whose resync failed too, and a later
  insert that stores nothing moves `lastSeq` when its resync counts that row.

What this does to snapshots and replicas is exact as well. `AgreementTheorems.SnapshotAgreesWithLog`: a snapshot agrees
with the log it is numbered by on a market if and only if the market's last row was acknowledged.
`AgreementTheorems.ReplicaAgreesWithLog` is the same for replicas. Where failed inserts store nothing (`Honest` runs) the
condition always holds.

`README.md:41` promises that a gap refreshes from the snapshot and resumes. It does: `ProtocolTheorems.RefreshRealigns`
and `ReplicaRuns.GapIsRepaired` hold under every fault. A bootstrap after a replica restart can be refused, though:
`ProtocolTheorems.BootstrapSucceeds` shows that it succeeds if and only if the core's `lastSeq` is not behind the
replica's checkpoint, and `FailureRuns.BootstrapRefused` is a run in which it is. And a replica can fail to see that it is
behind: `CatchUpRuns.RoundCatchesUp` shows that an undisturbed round against an idle core leaves a replica level if and
only if it is not the case that the newest event is counted and the replica's commit of it took effect unreported; then
its redelivery is skipped as a duplicate (`internal/replica/service.go:336-344`) and there is no later frame to show the
gap. `FailureRuns.StuckReplicaStaysBehind` is such a run.

## Model

| member | source | states |
|---|---|---|
| AgreementTheorems.ReplicaIsAFold | internal/replica/service.go:183-380 | In every run from an empty log whose failed inserts store nothing, a bootstrapped replica at lastAppliedSeq = n holds every market the first n log events mention and agrees with their fold on each; any other market it holds is in its first-seen OPEN state |
| AgreementTheorems.ReplicaAgreesWithLog | internal/replica/service.go:327-380 | Under every fault, a replica agrees with the fold of its prefix on a market if and only if its snapshot's last row about the market was acknowledged or it applied an event about it since |
| AgreementTheorems.CaughtUpReplicaIsTheCore | internal/core/service.go:154-165 | A replica level with an idle core holds the core's own state of every market it knows; the core's other markets were never logged and are in their first-seen state |
| AgreementTheorems.SnapshotAgreesWithLog | internal/core/service.go:154-165 | Under every fault, a snapshot agrees with the log it is numbered by on a market if and only if that market's last row in it was acknowledged; every market of the log is in it |
| AgreementTheorems.HonestSnapshotIsTheLog | internal/core/service.go:272-299 | If failed inserts store nothing, LastSeq is the log length and Markets is the first-seen states overlaid with each market's latest payload, however many inserts of a tick fail |
| ProtocolTheorems.FailedInsertMovesSequence | internal/core/service.go:272-299 | In every reachable state: exactly when an insert fails; a failure changes no market, and moves lastSeq, by one, if and only if the resync read works and lastSeq was behind the log or this insert stored its row |
| FailureRuns.StoredFailureBreaksSnapshot | internal/core/service.go:283-290 | An input for the first case: one insert stores its row and reports failure, lastSeq advances, the market does not, and snapshot and log disagree |
| FailureRuns.CleanFailureMovesSequence | internal/core/service.go:283-290 | An input for the second case: an insert that stores nothing advances lastSeq past a row an earlier failure left |
| FailureRuns.BootstrapRefused | internal/replica/service.go:482-484 | A run in which a restarted replica is refused its bootstrap because its checkpoint is ahead of the snapshot |
| CatchUpRuns.RoundCatchesUp | internal/replica/service.go:124-168 | From any reachable state with an idle core, one fault-free round (stream, backlog, every frame, a gap refreshed) leaves a bootstrapped replica level with the core if and only if it is not stuck, that is, unless the newest event is counted and its commit took effect unreported; a stuck replica stays where it was |
| FailureRuns.StuckReplicaStaysBehind | internal/replica/service.go:336-344 | A run that leads to a stuck replica, which an undisturbed round leaves one event behind |
| AgreementTheorems.HonestTransitionsAlternate | internal/core/service.go:201-215 | If failed inserts store nothing, each market's logged transitions are SUSPENDED, REOPENED, SUSPENDED, ..., each reopening at least the cooldown after its suspension, and the logged state is what the last one left; no clock order assumed |
| AgreementTheorems.LoggedTransitionsAlternate | internal/domain/breaker.go:25-80 | Under every fault the same holds of the acknowledged transitions: between two suspensions there is a reopening, and every reopening ends an earlier suspension no sooner than its cooldown |
| AgreementTheorems.DeadlineNeverMoves | internal/domain/breaker.go:35-80 | Every acknowledged update inside a suspension keeps its status, deadline and transition time |
| ProtocolTheorems.LogIsGapFree | internal/core/service.go:265-300 | Under every fault and from every inherited log: seqs are exactly 1..n, ids distinct, lastSeq is n or n - 1, and every row passes the replica's envelope and payload validators |
| ProtocolTheorems.SequenceResyncs | internal/core/service.go:272-290 | After a successful insert, and after any emission whose resync read works, lastSeq is the log length; a failed one whose resync fails leaves it; an evaluation that emits nothing touches neither |
| ProtocolTheorems.SessionsWriteTheLog | internal/core/http.go:145-208 | In every interleaving a session opened at fromSeq has written exactly log events fromSeq, fromSeq + 1, ..., in order |
| ProtocolTheorems.NoEventLost | internal/core/http.go:145-167 | A session that was not evicted and has drained its channel has written every event broadcast so far that it asked for |
| ProtocolTheorems.FramesApplyOnce | internal/replica/service.go:252-380 | If commits happen or leave the tables alone, k frames read mean k events applied, and the next frame is never a gap or a duplicate |
| ProtocolTheorems.GapsComeFromUnreportedCommits | internal/replica/service.go:332-359 | Under every fault a frame is a gap if and only if the event before it was committed without being reported; dedupe never swallows an event beyond the checkpoint |
| ProtocolTheorems.RefreshRealigns | internal/replica/service.go:183-218 | Under every fault: dedupe rows name their log events and stay within the checkpoint; a bootstrapped replica waiting for a snapshot is behind the core, and the snapshot it is brought is always accepted and, once its number is stored, moves memory forward, level with the checkpoint, with every dedupe row behind |
| ProtocolTheorems.BootstrapSucceeds | internal/replica/service.go:478-484 | A bootstrap succeeds if and only if the core's lastSeq is not behind the checkpoint; it can be behind by one, and then nothing changes |
| ReplicaRuns.GapIsRepaired | internal/replica/service.go:143-154 | From any reachable state with an idle core, the frame that shows a gap, a snapshot taken then and its number stored leave the replica ahead of where it was, level with its checkpoint and holding the core's markets |
| ProtocolTheorems.CheckpointNeverFalls | internal/replica/store.go:76-125 | Over every run and every fault, restarts of replica and core included, a replica's durable checkpoint never goes back |
| ProtocolTheorems.MemoryIsAFold | internal/replica/service.go:327-380 | Under every fault and from every inherited log, a replica's markets are its snapshot with exactly the log events since then applied |
| ProtocolTheorems.HistoriesPartitionTheLog | internal/replica/service.go:361-369 | The per-market histories partition the log events since the snapshot: each ascending and about its market, together as many, and a market with a history is its last payload |
| ProtocolTheorems.SnapshotsAreAcceptable | internal/replica/service.go:478-503 | A snapshot of the core passes a replica's checks if and only if it is not behind what the replica applied |
| ReplicaSafety.RunsAreSafe | internal/core/service.go:185-300 | The inductive invariant of log, sessions and replicas holds in every state of every run |
| ReplicaSafety.DeliveredOutcome | internal/replica/service.go:327-380 | What a frame of the log does to a replica, outcome by outcome, in terms of the dedupe table, the last applied number and the two faults |
| ProtocolSafety.SessionStepKeeps | internal/core/http.go:145-208 | Every step of a session writes a contiguous stretch, loses nothing it was offered and never takes a frame back |
| ProtocolHistory.RunsAreFaithful | internal/core/service.go:185-300 | From an empty log, the core's markets, every snapshot in flight and every replica's base are accounted for by the acknowledged rows, in every state of every run |
| TickRuns.TickIsARun | internal/core/service.go:185-220 | A tick under the mutex, in any order and with any failures, is a run of the protocol's small steps: same core, the tick's announcements broadcast in order, every session offered them, replicas untouched |
| TickRuns.VerdictsReadTheWholeHistory | internal/core/service.go:223-262 | If the readings that successive critical sections act on never go back, every verdict of every run rests on the sums over the whole signal history since the last clear or core restart, restricted to the window |
| ReplicaRuns.ReadingIsARun | internal/replica/service.go:294-312 | The frame loop of a connection is a run of delivery steps, and what stopped it decides where the main loop goes |
| StreamRuns.WakeIsARun | internal/core/http.go:172-208 | What the stream handler does on a wake-up is a run of its session's steps |
| StreamRuns.BacklogIsARun | internal/core/http.go:145-167 | So is its backlog read |
| StreamRuns.SessionsRunTheHandler | internal/core/http.go:145-208 | In every run, a session's cursor and frames are those of the handler on the log its own backlog read found and its own wake-ups, which are plausible; the events of those wake-ups followed by its queue are exactly what its channel took: every broadcast since it subscribed while it is open, a prefix of them once it was evicted or ended |
| ReplicaRuns.RefreshIsARun | internal/replica/service.go:183-218 | Fetching and installing a snapshot while no tick is under way does to the replica what recovering from the core's own snapshot does, and nothing to anyone else |
| ReplicaRuns.BootstrapIsARun | internal/replica/service.go:171-180 | So does a bootstrap |
| StepMeanings.SignalsAreOperations | internal/core/service.go:117-151 | A signal or clear that finds the mutex free is the core's operation and nobody else notices; during a tick it waits |
| StepMeanings.CoreGoesDown | internal/core/service.go:76-98 | A core restart, from anywhere: same log, the memory of a new core over it, sessions ended with what they wrote, replicas untouched |
| StepMeanings.ReplicaGoesDown | internal/replica/service.go:110-165 | A replica restart, a broken connection and a lost snapshot, from anywhere |
| StepMeanings.SessionsOpen | internal/core/http.go:125-148 | A session opens at any number from 1 on, with an empty channel of 1024 places and nothing written |
| TickTheory.TickFollowsTheRule | internal/core/service.go:185-220 | After a tick over all the core knows whose inserts succeed, every known market follows the breaker's rule, field by field, on the sums of its points that are not older than the window, and shows those sums; a market that changes in any field gets a row with exactly its new state and the kind the rule gives, any other market none |
| TickTheory.TogetherTheySuspend | internal/core/service.go:197-233 | Signals count together: two stretches of an open market's window that reach the bet threshold between them suspend it, and market and row show both stretches' numbers |
| TickTheory.TickSettles | internal/core/service.go:185-220 | A tick whose inserts succeed settles each visited market on the verdict of the state before the tick and logs one event per market that changes, and nothing else |
| TickTheory.OrderDoesNotMatter | internal/core/service.go:189-216 | Any two iteration orders give the same markets and windows and log the same (type, market, payload) triples, one per market at most |
| TickTheory.RepeatedTickIsSilent | internal/core/service.go:189-216 | Ticking again at the same time without a new signal logs nothing and changes no market |
| TickTheory.OpenAfterTick | internal/core/service.go:197-215 | After such a tick a market is OPEN if and only if both sums are below threshold and it was OPEN or its deadline has passed |
| TickTheory.CalmMarketIsOpen | internal/domain/breaker.go:35-80 | With positive thresholds, a market whose signals have left the window and whose deadline has passed is OPEN after the tick |
| WindowHistory.DecideReadsHistory | internal/core/service.go:223-262 | While window and history agree on every later cutoff, a verdict on the pruned window is the verdict on the whole history |
| WindowHistory.IngestKeepsWindows | internal/core/service.go:117-137 | An ingest, with its stamping and pruning, keeps that agreement for late and future timestamps alike |
| BreakerHistory.SuspensionEpisode | internal/domain/breaker.go:25-80 | From a suspension to the reopening that ends it: no second suspension, the deadline stays put, the cooldown is waited out |
| Breaker.BreakerVerdict | internal/domain/breaker.go:25-80 | A verdict is the breaker's if and only if it follows the rule written out field by field: the three numbers are the metrics', and status, deadline, reason, transition time, kind and flag are fixed for a suspension, a reopening and neither |
| Breaker.BreakerIsIdempotent | internal/domain/breaker.go:25-52 | Evaluating twice at one time with the same sums changes nothing the second time, whatever the configuration |
| Breaker.BreakerTransitions | internal/domain/breaker.go:25-80 | Which event type a verdict publishes in terms of the two statuses, and what a market that keeps its status keeps with it |
| Breaker.SuspensionReason | internal/domain/breaker.go:55-64 | No reason exactly when both sums are below threshold; the bet rate is the reason exactly when its threshold is reached, liability exactly when only that one is |
| Domain.MarketState.IsEqual | internal/domain/state.go:30-39 | The test that decides whether a tick emits is equality of whole states |
| SignalWindow.SumConcat | internal/core/service.go:223-233 | The sums over two stretches of a window add up, field by field |
| SignalWindow.SumOne | internal/core/service.go:223-233 | The sums over one point are its three numbers, over none zero |
| SignalWindow.KeepConcat | internal/core/service.go:248-262 | A prune takes each stretch on its own and keeps the order |
| SignalWindow.KeepOne | internal/core/service.go:248-262 | A point is kept if and only if it is not before the cutoff |
| SignalWindow.KeepKeep | internal/core/service.go:248-262 | Pruning early never matters to a later cutoff |
| SignalWindow.KeepCounts | internal/core/service.go:248-262 | A prune drops exactly the points before the cutoff, each as often as it occurs |
| EventLog.InsertKeepsKeys | internal/core/event_store.go:43-59 | An insert that violates no key keeps the table ordered by seq with distinct ids |
| EventLog.FromIsSuffix | internal/core/event_store.go:73-101 | On a gap-free log a range read is a suffix of it |
| EventLog.FromConcat | internal/core/event_store.go:73-101 | A range read takes each stretch of rows on its own, in key order |
| EventLog.FromOne | internal/core/event_store.go:73-101 | A row is in it if and only if its number is not below the bound |
| EventLog.EventStore.Insert | internal/core/event_store.go:61-70 | Succeeds if and only if neither key is taken and the database does; adds exactly the row unless a key is taken or the failure is clean |
| EventLog.EventStore.EventsFromSeq | internal/core/event_store.go:73-101 | Returns the rows from a number on, in key order, if the log can be read, and fails otherwise |
| EventLog.EventStore.LastSeq | internal/core/event_store.go:104-113 | Returns the greatest number in the table, 0 if it is empty, if the log can be read, and fails otherwise |
| CoreState.EmitKeepsLog | internal/core/service.go:265-300 | An emission appends its one event or leaves the log alone, the log stays 1..n, and a success or a resync brings lastSeq to its length |
| CoreState.FailedEmit | internal/core/service.go:282-291 | Exactly when an emission fails, what it then stores, and when it moves lastSeq |
| CoreState.NewCoreLog | internal/core/service.go:76-93 | A core started over a gap-free log resumes at its length |
| CoreState.NewCoreCases | internal/core/service.go:76-98 | A new core knows its default market, open with zero numbers, has no signals, and goes on from the last row |
| CoreState.IngestCases | internal/core/service.go:117-137 | A signal enters the window of the market it names, or of the default market if it names none, behind what is there, stamped if it has no time and otherwise as it came, and the window is pruned; the market is known afterwards; no other window and no known market changes |
| CoreState.ClearCases | internal/core/service.go:140-151 | A clear empties the window of the market it names, or of the default market, and changes nothing else |
| CoreHistory.EvaluateKeepsHistory | internal/core/service.go:189-216 | One evaluation, whatever happens to its insert, keeps every market equal to its last acknowledged payload and every row one breaker step after it |
| CoreHistory.SnapshotAgreement | internal/core/service.go:154-165 | A snapshot is what the acknowledged rows up to its number say, and an unacknowledged last row always disagrees with it |
| CoreHistory.FoldAt | internal/replica/service.go:361-369 | Applying events to a map leaves each market at its last payload and the others alone |
| CoreService.Service.constructor | internal/core/service.go:47-99 | Defaults, the default market, the resumed number and empty windows |
| CoreService.NewService | internal/core/service.go:47-99 | No service exactly when the log cannot be read; otherwise one that resumes from it |
| CoreService.Normalize | internal/core/service.go:48-59 | A configured breaker, window or default market is kept, a missing one replaced by its default |
| CoreService.Service.IngestSignal | internal/core/service.go:117-137 | The object's new state is that of Ingest: default market, arrival stamp, append, prune |
| CoreService.Service.ClearSignals | internal/core/service.go:140-151 | The object's new state is that of Clear |
| CoreService.Service.PruneSignals | internal/core/service.go:248-262 | The filtering loop keeps exactly what Keep keeps and touches nothing else |
| CoreService.Service.Metrics | internal/core/service.go:223-233 | The accumulating loop computes the sums of the window |
| CoreService.Service.EmitEvent | internal/core/service.go:265-300 | Next number, persist, roll back and resync on failure; exactly on success every channel is offered the event, and nothing is received meanwhile |
| CoreService.Service.EvaluateAll | internal/core/service.go:185-220 | Visits every known market once, each with what the world has in store for it, and does what RunTick does for the order it took; every channel is offered exactly the acknowledged events, in order |
| Hub.SSEHub.Subscribe | internal/core/sse_hub.go:23-42 | A fresh open channel under a fresh key, nothing else changed |
| Hub.SSEHub.Unsubscribe | internal/core/sse_hub.go:33-40 | Closes exactly that channel if it is still registered; harmless when repeated or after an eviction, so no channel is closed twice |
| Hub.SSEHub.Broadcast | internal/core/sse_hub.go:45-57 | Every open channel takes the event or is evicted; no send to or second close of a closed channel; received plus buffered stays a gap-free prefix of the broadcasts since the subscription |
| Hub.OfferKeepsOrder | internal/core/sse_hub.go:45-57 | One broadcast keeps a channel in order and within capacity, whether it takes, evicts or was closed, and evicts exactly the open channels that are full |
| Hub.SSEHub.Receive | internal/core/http.go:181-184 | A subscriber takes the oldest event of its channel, which then holds the others |
| Stream.HandleStream | internal/core/http.go:124-210 | Exactly which response; a bad parameter touches nothing; otherwise exactly the frames of SessionFrames cut where the connection breaks, with a channel of 1024 places subscribed for the session and closed and gone when it ends, however it ends |
| Stream.MergeLive | internal/core/http.go:181-207 | A live event is skipped, written, or written after the gap before it, frame by frame |
| Stream.LiveCases | internal/core/http.go:185-207 | What a live event does whatever the log shows: skipped, written, or written after the gap fill unless the fill reached it, with the next number owed |
| Stream.WakeCases | internal/core/http.go:172-210 | A closed channel, a cancellation and a gap whose log cannot be read end the session and nothing later is written; a keepalive changes nothing; any other live event is merged |
| Stream.LiveContiguous | internal/core/http.go:185-207 | Merging a live event that is in the log opens no gap, repeats nothing and leaves the event written if it was asked for |
| Stream.CatchUp | internal/core/http.go:161-200 | Writing a log read from the cursor on reaches the end of the log without a gap |
| Stream.SessionWritesLog | internal/core/http.go:124-210 | Whatever wake-ups a session meets, however the log grows and wherever it is cut, its frames are a stretch of the log from fromSeq on |
| ReplicaState.ValidatorsAcceptWellFormed | internal/replica/service.go:505-559 | The validators accept an event if and only if it is consistent in the way the core writes events, and then decode its market; that consistency written out on the fields |
| ReplicaState.OutcomeCases | internal/replica/service.go:327-380 | For any event and any faults, exactly when the outcome is invalid, store failure, duplicate, gap or applied, with the conditions written out on the fields, and exactly when the frame loop goes on |
| ReplicaState.ProcessEventCases | internal/replica/service.go:327-389 | For any event and any faults, exactly what becomes of markets, histories, the three numbers, the dedupe table and the bootstrap flag |
| ReplicaState.PayloadCases | internal/replica/service.go:523-559 | Which payloads are rejected and for what; the first check that fails names the reason |
| ReplicaState.RecoverCases | internal/replica/service.go:183-218 | For any fetched snapshot or none and any write, exactly when a recovery succeeds, and what becomes of every field when it does and when it does not |
| ReplicaState.RestartCases | internal/replica/service.go:110-120 | A restart keeps the two tables and nothing else |
| ReplicaState.AppliesOnceInOrder | internal/replica/service.go:332-369 | Against any stream, with repeats and reorderings and under every fault, applied events carry consecutive numbers, and no id is applied twice |
| ReplicaState.HistoriesPartition | internal/replica/service.go:361-369 | The events about each market, over any enumeration of the markets, add up to all events |
| ReplicaService.ValidateSnapshot | internal/replica/service.go:478-503 | The loop accepts exactly the acceptable snapshots and then returns all their markets |
| ReplicaService.Store.CommitAppliedEvent | internal/replica/store.go:95-125 | Dedupe row and checkpoint move together or not at all, a known id moves neither, and the answer says whether the row is new |
| ReplicaService.NewService | internal/replica/service.go:69-121 | Fails without a core to follow or when the checkpoint cannot be read; otherwise starts at the stored checkpoint |
| ReplicaService.Service.constructor | internal/replica/service.go:110-120 | Memory starts empty at the checkpoint that was read, not bootstrapped |
| ReplicaService.Service.ProcessEvent | internal/replica/service.go:327-380 | State and outcome are those of ReplicaState.ProcessEvent for the faults given |
| ReplicaService.Service.RefreshFromSnapshot | internal/replica/service.go:183-218 | State and success are those of Refresh: rejected or unreported writes leave memory alone |
| ReplicaService.Service.ConsumeFrames | internal/replica/service.go:294-325 | Every frame up to the one that stops the loop is processed once, in order, and the end says why it stopped |
| ReplicaService.Service.Synchronize | internal/replica/service.go:124-180 | One round of the main loop: bootstrap first, stream from lastAppliedSeq + 1, refresh on a gap and on nothing else, stop only when cancelled, and after every failure but a repaired gap wait as the delay rule says for this round's attempt, which is 0 if the round opened a stream or bootstrapped |
| ReplicaService.Service.NextReconnectDelay | internal/replica/service.go:428-451 | Counts the attempt; the delay follows the rule written out: the smaller of the cap and initial * 2^attempt, times the clamped 0.5 + random without the fraction, cut to the maximum or raised to 1ms; within [1ms, max] when max is at least 1ms |
| Backoff.ExponentialBackoff | internal/replica/service.go:453-476 | min(cap, initial * 2^attempt) after normalising, at any attempt count, with every intermediate value in 64 bits |
| Backoff.DoubledIsProduct | internal/replica/service.go:453-476 | The repeated doubling is multiplication by a power of two |
| Backoff.IdealIsProduct | internal/replica/service.go:453-476 | The base delay is the smaller of the cap and initial * 2^attempt |
| Backoff.PowersMultiply | internal/replica/service.go:464-474 | The powers of two are those of arithmetic |
| Backoff.Normalize | internal/replica/service.go:79-87 | Configured delays are kept, missing ones replaced by their defaults, and the maximum is never below the first delay |
| Backoff.DelayMonotone | internal/replica/service.go:453-476 | More attempts never give a shorter base delay |
| Backoff.JitteredDelay | internal/replica/service.go:435-450 | The rule from a base delay to a wait, written out; within [1ms, max] when max is at least 1ms, whatever the conversion to 64 bits gives |
| Backoff.JitterBounds | internal/replica/service.go:435-443 | For every random draw the scaled delay is between 0 and twice the base |
| Backoff.JitterFits | internal/replica/service.go:443 | For every base delay below 2^62 ns the rule leaves one wait only, whatever the random draw |
| Framing.ReadConnection | internal/replica/service.go:291-308 | The scanning loop computes Read: data lines in order, stopped by a line that does not fit the buffer |
| Framing.ReaderCases | internal/replica/service.go:291-308 | The reader on any input, line by line: an overlong line stops it for good, any other gives its data, a last line without a newline counts |
| Framing.DataCases | internal/replica/service.go:300-303 | A line gives what follows "data: ", less one carriage return at its end, or nothing |
| Framing.WireFormat | internal/core/http.go:156-226 | The exact text of an event frame and of the two comments |
| Framing.WireOrder | internal/core/http.go:156-226 | Chunks follow one another on the wire, and the payloads written are those of the messages in order |
| Framing.RoundTrip | internal/core/http.go:213-226 | For payloads without line breaks that fit the scanner, reading a whole connection gives exactly the payloads written, amid any comments |
| Framing.CutAnywhere | internal/replica/service.go:291-308 | Cutting the bytes anywhere gives a prefix of the payloads, the last of them perhaps cut short, and nothing else |

## Left out

- HTTP routing and plumbing, JSON encoding, logging, environment parsing and the `cmd/` programs: I/O and library
  wrappers. The network is a step that delivers the next frame of a session or a snapshot the core really produced, or a
  disconnect. A payload is a decoded market or something that does not decode.
- SQLite itself: the two stores are tables with keys and atomic transactions that may fail.
- Tickers, timeouts, the idle monitor and context cancellation: each is a disconnect or a step at any time. The moment
  the core's clock is read is a parameter.
- Replica heartbeats and health classification, the read endpoints and the status document, the benchmark: short
  projections and thresholds that would only add easy members. The replica's `connected`, `lastError` and
  `lastSyncAtMs` fields feed only those.
- State-equals-log claims for a core restarted over a log that already has rows: the code does not rebuild `markets`
  (`internal/core/service.go:76-93`), so those theorems start from an empty log and allow no core restart. The theorems
  in `ProtocolTheorems` hold from any gap-free log of well-formed rows and across restarts of the core.
- A core that comes up with its log lost, as it does with the default in-memory database, while replicas still hold the
  old one: nothing in the code relates the two logs.
- Integer overflow of signal sums, timestamps and sequence numbers: nothing in the code bounds the inputs, so they are
  unbounded here. The 64-bit limit is modelled in `Backoff`, where the code guards it. Window and cooldown are in
  milliseconds, as the code converts them before use.
- Backoff.JitterBounds: floating-point rounding is not modelled; the jitter is a real number and the conversion back to a duration drops the fraction. A scaled delay that does not fit 64 bits converts to an arbitrary duration.
- TickRuns.VerdictsReadTheWholeHistory: says nothing when a critical section acts on an older reading than the one before
  it. That can happen although the clock never goes back, because an ingest reads the clock before it takes the mutex
  (`internal/core/service.go:118-127`) and a tick acts on the time of its ticker, which can come late.
- Unbuffered channels, where a send needs a waiting receiver: the stream handler always asks for 1024 places.
- Partial frames inside the protocol: a session's frames appear when it writes them and a replica takes them whole, at
  any later time. `Framing.CutAnywhere` says what a cut does to the bytes; characters stand for bytes.
- The flusher check of the stream handler, and the keepalive and connected comments outside `Framing`: they carry no
  event. A failed keepalive write ends a session like a cancellation.
- Sharing of memory between the fields of an object and its callers: maps and sequences are values here, so the copies
  that the source makes of its maps are not visible.
