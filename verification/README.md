# WTS agent service: a verified model

This project models the agent service of WTS, the Rust crate `crates/wts-app`, and proves what it
promises about its shared queue of agent requests, its logs, its streams, its ledger and its receipts.

`dafny verify dfyconfig.toml` checks everything.

## What is modelled

**The durable conversation queue** (`Conversations`, `ConversationEdits`, `QueueProtocol`, `QueueSafety`,
`QueueRuns`, `SharedDisk`, `SurvivorStory`, `QueuePump`, `EditEffects`, `PassOutcome`, `RequestTexts`,
`ConversationStore`, `TurnHistory`, `QueuePositions`, `PriorFeedback`). Several hosts share a directory of conversation files, a counter and lease files.
`QueueProtocol` is that system as a transition system: its state is the disk, who holds which lease, and
a history; its steps are what any host, crash, child process or lease event may do. `QueueSafety` proves
that every step keeps one inductive invariant, and `QueueRuns` draws from it what holds over whole runs:
order, mutual exclusion, at-most-once effects, reserved slots. A history there is any interleaving since the
directory was empty; `StepKeepsInv`, `InvAlongRun` and `RunMovesForward` hold from any other sound directory too. `ConversationStore` is one host as a class with the
source's loops and branches. Each of its methods is proved to be a run of protocol steps, so that a host may
stop at any point, and is given its exact effect on the files, for every input. What each effect is, in the fields of the
files before and after it and apart from the code, is said in `EditEffects` for single edits, in `PassOutcome` for a pass,
and in `RequestTexts` for the text of a request over whole runs.

**The event log** (`EventState`, `Latest`, `LogFacts`, `WorkTime`, `TurnPeriods`, `Lines`, `EventLog`, `Calendar`, `Timestamps`).
The record interpreter as a class that updates its fields, proved equal to a step function; invariants of every log;
what a whole log comes to, read off its records alone; conservation of work time and the exact periods of a turn; the resumable reader with its cache, proved to refine a read from the first byte; the
calendar formula and the timestamp parser.

**Output readers** (`StreamReaders`). The chunked loops over a stream that arrives in pieces of any size
with interruptions between them.

**The session ledger** (`SessionLedger`, `SessionRuns`) and **session details** (`SessionDetails`). Every operation on the
ledger file, when the file can still be opened afterwards, and when a session runs after any history.

**Turn receipts** (`TurnReceipt`, `TurnStorage`). The diff of two captures, the patch, the blobs and the
record that is meant to be written once.

Ids and path names are natural numbers of which only equality and order matter. The clock, random ids, file sizes,
the diff program, the record parser and the failures of the file system are parameters of the operations.

## Where the code does less than it says

- A turn lease is one file per workspace and repository. A process that outlives its finished turn therefore
  does not hold up a turn of the same workspace in another repository, although
  `docs/contextual-agent-feedback.md:48` says that the host waits for any surviving process of the workspace.
  `QueueRuns.SurvivorBlocksOnlyItsRepository` gives the exact condition,
  `SurvivorStory.SurvivorElsewhereDoesNotBlock` a history that leads there.
- If the last line of an event log is longer than the limit and still being written, the reader leaves its
  offset inside that line, and the next read takes the rest for a line of its own. Exact conditions:
  `EventLog.LeftOffIsABoundary`, `EventLog.TailDecidesResuming`; what is then read: `EventLog.RestOfLongLineIsRead`.
- A ledger with 4,096 live sessions accepts one more and can then not be opened; so does one whose clock went
  back before the start of a session it stamps. Exact condition: `SessionLedger.StaysReadable`;
  instances: `SessionLedger.FullLedgerBreaks`, `SessionLedger.ClockBackBreaks`.
- A completed turn receipt, even a ready one, is given up if the first look at it fails and the second one
  and the write succeed. Exact condition: `TurnStorage.TurnDirectory.FinishTurnCapture`; instance: `TurnStorage.ReadyReceiptIsLost`.
- The timestamp parser accepts days past the end of a month, second 60, and hours, minutes and seconds with a
  minus sign, and reads each as a moment that has other fields. What it accepts: `Timestamps.ParserTakesExactly`;
  exactly when the order of the times is that of the fields: `Timestamps.OrderIsRightExactlyForValid`; instances:
  `Timestamps.PastTheEndOfTheMonth`, `Timestamps.SignedHourIsTaken`, `Calendar.LeapSecondsCollide`.

## Model

| member | source | states |
|---|---|---|
| `QueueRuns.FirstInFirstOut` | crates/wts-app/src/agent_conversations.rs:1381-1528 | In any run of any number of hosts, with crashes anywhere, the messages that leave the queue of one workspace, started or refused, leave it in strictly increasing sequence. |
| `QueueRuns.NoOvertaking` | crates/wts-app/src/agent_conversations.rs:1221-1239 | If one request of a workspace was accepted before another, the earlier one no longer waits when the later one is claimed. |
| `QueueRuns.SequencesAreNeverReused` | crates/wts-app/src/agent_conversations.rs:1208-1239 | The counter is written before the message: a later accepted request always gets a larger sequence, also after a crash between the two writes. |
| `QueueRuns.RequestEnqueuedAtMostOnce` | crates/wts-app/src/agent_conversations.rs:1177-1187 | In any run a conversation queues a request id at most once. |
| `QueueRuns.MutationTakesEffectAtMostOnce` | crates/wts-app/src/agent_conversations.rs:1309-1358 | In any run an edit or cancel request takes effect at most once, whatever it says when it is sent again. |
| `QueueRuns.SettledMessagesNeverChange` | crates/wts-app/src/agent_conversations.rs:374-396 | Completed, failed, interrupted and cancelled messages stay exactly as they are for ever. |
| `QueueRuns.LateReportsAreIgnored` | crates/wts-app/src/agent_conversations.rs:1660-1748 | After a turn was recovered or finished, in every later store of the history: its session has no worker and is active in no conversation, it can make no report, and a report under it would change no conversation. |
| `QueueRuns.InvAlongRun` | crates/wts-app/src/agent_conversations.rs:1161-1748 | From any store that satisfies the invariant, every store of every run does. |
| `QueueRuns.RunMovesForward` | crates/wts-app/src/agent_conversations.rs:1464-1491 | Along any run no conversation or message is lost, reordered or revived; the counter, the issued sequences and the mutation receipts only grow. |
| `QueueRuns.OneWorkerPerWorkspace` | crates/wts-app/src/agent_conversations.rs:363-396 | Two live workers of one workspace are the same worker, its turn is the active one, and nobody can recover that turn from under it. |
| `QueueRuns.ClaimFindsTheWorkspaceFree` | crates/wts-app/src/agent_conversations.rs:1381-1445 | When a turn may be claimed, whoever still holds a lease of the workspace is no live worker, belongs to a turn that its worker ended, and holds the lease of another repository. |
| `QueueRuns.SurvivorBlocksOnlyItsRepository` | crates/wts-app/src/agent_conversations.rs:363-372 | A process that outlived its finished turn blocks a claim in its workspace if and only if the claim is for the same repository; no assumption on the store is needed. |
| `SurvivorStory.SurvivorElsewhereDoesNotBlock` | crates/wts-app/src/agent_conversations.rs:363-372 | A concrete reachable store, with its history, in which a turn may start while a process of the workspace's earlier turn survives in another repository. |
| `QueueRuns.OrphansHoldTheirTurn` | crates/wts-app/src/agent_conversations.rs:374-396 | A child that lost its host keeps its turn active and unrecoverable, and no turn at all can be claimed in its workspace. |
| `QueueRuns.SlotsStayReserved` | crates/wts-app/src/agent_conversations.rs:1189-1207 | In every reachable store messages plus queued messages stay below 256 per conversation, at most 1,024 mutation receipts are kept, and at most 64 messages wait per workspace: the two count limits of a read (lines 545-546) never reject a stored conversation. |
| `QueueRuns.QueueIsNeverStuck` | crates/wts-app/src/agent_conversations.rs:1381-1528 | When no lease is held, every workspace with a queued message has a step that recovers or claims a turn there. |
| `QueuePump.PassServesTheWorkspace` | crates/wts-app/src/agent_conversations.rs:1381-1528 | A pass with all leases of a workspace free and no deferral there takes exactly one message from its queue: the message runs, its worker holding the lease, or it has failed with the reason that stood in its way. |
| `QueuePump.QueueDrains` | crates/wts-app/src/agent_conversations.rs:1381-1528 | Successive passes of that kind, with nothing sent or cancelled between them, shorten the queue of the workspace by one message each until it is empty. |
| `PassOutcome.PumpedFare` | crates/wts-app/src/agent_conversations.rs:1381-1528 | Every outcome of a pass is what the message meets, in the order of the source, told of the store before the pass and the one after it. |
| `PassOutcome.WaitsForTheSurvivor` | crates/wts-app/src/agent_conversations.rs:1439-1446 | While a child that survived its turn holds the lease, a pass leaves the next message of that workspace and repository queued, next in line and unchanged, unless it meets an earlier obstacle. |
| `PassOutcome.StartsAfterTheSurvivor` | crates/wts-app/src/agent_conversations.rs:1439-1446 | The first pass after that child has exited starts the message, if nothing else stands in its way. |
| `RequestTexts.TextIsTheLatest` | crates/wts-app/src/agent_conversations.rs:1221-1236 | Over any history, an accepted request has the text it was sent with, or, if edits took effect since, that of the latest one. |
| `RequestTexts.CancelledIsNeverStarted` | crates/wts-app/src/agent_conversations.rs:1334-1345 | A message whose cancel took effect stays cancelled for ever, and no later step starts or fails it. |
| `RequestTexts.DispatchedTextIsTheLatest` | crates/wts-app/src/agent_conversations.rs:1936-1985 | The history that a claimed turn is dispatched with ends with the request id under which the text was sent, and that text, or that of the latest edit that took effect. |
| `QueueRuns.EveryReachableStoreIsSound` | crates/wts-app/src/agent_conversations.rs:254-300 | Every store of every history satisfies the whole invariant. |
| `QueueSafety.StepKeepsInv` | crates/wts-app/src/agent_conversations.rs:1161-1748 | Each of the fifteen kinds of step keeps the whole invariant: sound conversations, unique sequences, sessions and ids, one turn per workspace, workers that own their turn, exclusive leases, starts in order, bounded queues. |
| `QueueSafety.ClaimKeepsInv` | crates/wts-app/src/agent_conversations.rs:1464-1491 | A claim keeps the invariant; in particular no other conversation of the workspace runs a turn. |
| `QueueSafety.EnqueueKeepsInv` | crates/wts-app/src/agent_conversations.rs:1189-1239 | An accepted request keeps the invariant, including the bound on the workspace's queue. |
| `QueueSafety.RecoverKeepsInv` | crates/wts-app/src/agent_conversations.rs:374-396 | Recovery under a free lease keeps the invariant: no worker of that turn is left. |
| `QueueSafety.FinishKeepsInv` | crates/wts-app/src/agent_conversations.rs:1719-1748 | A worker's finish keeps the invariant while its surviving children may still hold the lease. |
| `ConversationEdits.RecoveredIsSound` | crates/wts-app/src/agent_conversations.rs:374-396 | Recovery leaves a sound conversation without an active turn, interrupts exactly the live messages and keeps the queue. |
| `ConversationEdits.ClaimedIsSound` | crates/wts-app/src/agent_conversations.rs:1464-1491 | A claim turns one queued message and a new reply into the two halves of the active turn and keeps everything else. |
| `ConversationEdits.EnqueuedIsSound` | crates/wts-app/src/agent_conversations.rs:1221-1239 | Appending a request with a larger sequence keeps ids, requests and sequences unique and ordered, and an active turn in place. |
| `ConversationEdits.FinishedTouchesOnlyTheTurn` | crates/wts-app/src/agent_conversations.rs:1719-1748 | A result changes exactly the two messages of its own turn. |
| `ConversationEdits.FinishedIsSound` | crates/wts-app/src/agent_conversations.rs:1719-1748 | A result ends the turn: no message is live, the queue is unchanged. |
| `ConversationEdits.ProgressedIsSound` | crates/wts-app/src/agent_conversations.rs:1660-1675 | Progress changes only the reply of its own turn and keeps the turn. |
| `ConversationEdits.MutatedIsSound` | crates/wts-app/src/agent_conversations.rs:1334-1358 | An edit or cancel that takes effect keeps the conversation sound and its turn untouched. |
| `ConversationEdits.MutationTakesEffectOnce` | crates/wts-app/src/agent_conversations.rs:1309-1325 | Once a mutation request took effect, no mutation under its id takes effect in any later version. |
| `ConversationEdits.ReplayIsTheLatestIdenticalRequest` | crates/wts-app/src/agent_conversations.rs:1309-1325 | A mutation is answered as a replay if and only if the identical request is on record and is still the latest on its message. |
| `ConversationEdits.ResendFindsTheOriginal` | crates/wts-app/src/agent_conversations.rs:1177-1187 | In any later version a request id finds the message it made, with the body it was submitted with. |
| `ConversationEdits.NotStartedIsSound` | crates/wts-app/src/agent_conversations.rs:1919-1934 | Failing a queued message settles that message only. |
| `EditEffects.MutateExactly` | crates/wts-app/src/agent_conversations.rs:1300-1350 | An edit or cancel takes effect if and only if the request is new, the message waits with the expected text and a receipt is left; it is a repetition if and only if it is on record and still the latest; and it leaves exactly the change, field by field. |
| `EditEffects.EnqueuedHasRequest` | crates/wts-app/src/agent_conversations.rs:1221-1236 | An accepted request adds one queued user message with the text, request id, sequence and time it was sent with, and no other field set. |
| `EditEffects.ClaimedHasStarted` | crates/wts-app/src/agent_conversations.rs:1464-1491 | A claim leaves the message running in the new session, with an empty reply to it behind, and every other message as it was. |
| `EditEffects.RecoveredHasRecovered` | crates/wts-app/src/agent_conversations.rs:374-396 | Recovery leaves every live message interrupted, saying that its host stopped, and every other message as it was. |
| `EditEffects.NotStartedHasFailed` | crates/wts-app/src/agent_conversations.rs:1919-1934 | A message that could not be started has failed with the reason, and all else is as it was. |
| `EditEffects.ProgressedHasProgress` | crates/wts-app/src/agent_conversations.rs:1660-1675 | Progress leaves the reply running with the update, and all else as it was. |
| `EditEffects.FinishedHasEnded` | crates/wts-app/src/agent_conversations.rs:1719-1748 | A result leaves both halves of the turn saying how it ended, and the reply with the text, the progress and the diagnostic, where they are not blank, and the error. |
| `ConversationStore.ConversationStore.Send` | crates/wts-app/src/agent_conversations.rs:1161-1245 | The exact answer, files and counter for every input. A refusal has one cause in the file as read: a bad text, a known request id with another text, a child that may not send, no room. An accepted request is one more queued user message with the text sent, its request id, the next sequence and the given time, and nothing else has changed. Every point at which the host may stop is a sound store. |
| `ConversationStore.ConversationStore.Decide` | crates/wts-app/src/agent_conversations.rs:1177-1237 | A known id is answered from the store; otherwise capacity, queue length, counter and file size refuse in this order. |
| `ConversationStore.ConversationStore.WriteRequest` | crates/wts-app/src/agent_conversations.rs:1238-1239 | Counter first, then message: two protocol steps, one new sequence. |
| `ConversationStore.ResendIsRecognised` | crates/wts-app/src/agent_conversations.rs:1177-1187 | At any later point of a run, whatever happened to the message, its request id with the original body is acknowledged and with any other body is a conflict. |
| `ConversationStore.ConversationStore.MutateQueuedMessage` | crates/wts-app/src/agent_conversations.rs:1278-1359 | The file changes if and only if the request is new, the message waits with the expected text, there is a receipt left and an edited file fits. A cancel then leaves it cancelled with its text, an edit leaves it queued with the new text, and all else is as it was. The four refusals and the repeated request are told apart by if-and-only-ifs; the view has the ranks of the workspace as positions. |
| `ConversationStore.ConversationStore.EditQueuedMessage` | crates/wts-app/src/agent_conversations.rs:1300-1350 | The in-place edit equals the specified one in every branch, and on a sound conversation takes effect, is a repetition or meets the limit exactly when the file says so, and leaves exactly the change. |
| `ConversationStore.ConversationStore.Progress` | crates/wts-app/src/agent_conversations.rs:1660-1675 | A report of a live worker changes on disk its own reply only, which runs and shows the update, if there is one. |
| `ConversationStore.ConversationStore.Finish` | crates/wts-app/src/agent_conversations.rs:1697-1748 | The lease is dropped whether or not the result can be stored. If it is stored, both halves of the turn say how it ended, stopped before failed before completed, the reply has the text, the progress and the diagnostic put out, blank ones left away, and the error; nothing else has changed. |
| `ConversationStore.ConversationStore.FinishTurn` | crates/wts-app/src/agent_conversations.rs:1719-1748 | The loops that settle the reply and the request compute the specified result. |
| `ConversationStore.ConversationStore.RecoverIfUnowned` | crates/wts-app/src/agent_conversations.rs:374-396 | The conversation is recovered exactly if it has an active turn whose lease is free: its live messages are then interrupted, with the reason, and nothing else has changed. |
| `ConversationStore.ConversationStore.TurnLease` | crates/wts-app/src/agent_conversations.rs:363-372 | The lease is obtained exactly if no worker, surviving child or other operation holds it. |
| `ConversationStore.ConversationStore.WorkConversations` | crates/wts-app/src/agent_conversations.rs:552-586 | The cached scan lists exactly the conversations with an active turn or a queued message, each once, for any history of writes by this or other hosts. |
| `ConversationStore.ConversationStore.ScanFile` | crates/wts-app/src/agent_conversations.rs:565-583 | A file is skipped only if it has no work, and the cache stays truthful. |
| `ConversationStore.ForeignMessageIsSeen` | crates/wts-app/src/agent_conversations.rs:552-586 | Two hosts on one disk: after one has scanned and cached, and the other has queued a message, the next cached scan of the first lists the conversation of that message and everything else with work. |
| `ConversationStore.ConversationStore.CountWorkspaceQueue` | crates/wts-app/src/agent_conversations.rs:1197-1207 | Counting over the scanned conversations counts the whole queue of the workspace. |
| `ConversationStore.ConversationStore.RecoverAll` | crates/wts-app/src/agent_conversations.rs:1388-1394 | Before dispatch every conversation that nobody owns is recovered, and busy holds exactly the workspaces that run a turn. |
| `ConversationStore.ConversationStore.CollectCandidates` | crates/wts-app/src/agent_conversations.rs:1395-1413 | The candidates are exactly the queued messages of the scanned conversations. |
| `ConversationStore.ConversationStore.AttemptTurn` | crates/wts-app/src/agent_conversations.rs:1419-1463 | The message still waits, and its file is unchanged, if and only if it was deferred or all was well up to a turn lease that is held; it has failed with a reason if and only if that reason is the first obstacle; it runs, its worker holding the lease, if and only if there is none. |
| `ConversationStore.ConversationStore.Pump` | crates/wts-app/src/agent_conversations.rs:1381-1528 | One pass, from the store before it: each file is recovered if its turn is owned by nobody; the next message of each workspace without a turn that goes on is still queued, failed or running by the first obstacle it meets, a held lease being one that leaves it queued; every other message is unchanged. |
| `ConversationStore.ConversationStore.FailQueuedMessage` | crates/wts-app/src/agent_conversations.rs:1919-1934 | A refused message is failed with its error and its workspace is done for this pass. |
| `ConversationStore.ConversationStore.View` | crates/wts-app/src/agent_conversations.rs:1894-1917 | What a reader sees: the conversation with every queue position equal to the rank in the workspace. |
| `ConversationStore.NextAttempt` | crates/wts-app/src/agent_conversations.rs:1414-1418 | The first candidate in sorted order of a workspace not yet dealt with is its least queued message. |
| `QueuePump.EligibleIsUnique` | crates/wts-app/src/agent_conversations.rs:1414-1418 | At most one message of a workspace is eligible. |
| `QueuePump.LaunchDispatches` | crates/wts-app/src/agent_conversations.rs:1447-1491 | A launch is a sound protocol step, settles its whole workspace and disturbs no other. |
| `QueuePump.RefusalDispatches` | crates/wts-app/src/agent_conversations.rs:1432-1446 | A refusal is a sound protocol step and settles its whole workspace. |
| `QueuePump.ClaimHoldsItsOwnLease` | crates/wts-app/src/agent_conversations.rs:1439-1446 | A launch takes the lease of its own workspace and repository and of no other. |
| `SharedDisk.ReachedStoresAreSound` | crates/wts-app/src/agent_conversations.rs:647-692 | Whatever steps lead from a sound store, the store they lead to is sound. |
| `SharedDisk.RunsConcatenate` | crates/wts-app/src/agent_conversations.rs:334-337 | Critical sections compose: a run followed by a run is a run. |
| `SharedDisk.ReachedStoresAreLater` | crates/wts-app/src/agent_conversations.rs:334-337 | What any steps lead to is a later version of the store they started from: nothing is lost, revived or reordered. |
| `TurnHistory.TurnSnapshot` | crates/wts-app/src/agent_conversations.rs:1936-1985 | The snapshot loops compute the specified history. |
| `TurnHistory.HistoryIsClosed` | crates/wts-app/src/agent_conversations.rs:1936-1985 | The history of a claimed message ends with it, everything before it is settled, a user message is in it if and only if it was not cancelled and was sent no later, and a reply if and only if it answers such a message. |
| `TurnHistory.SnapshotShowsExactly` | crates/wts-app/src/agent_conversations.rs:1936-1985 | A message of the conversation is shown, without its bookkeeping fields, if and only if it is a user message that was not cancelled and was sent no later, or answers an earlier such message, by request id or, without one, by session. |
| `TurnHistory.HistoryIsThreaded` | crates/wts-app/src/agent_conversations.rs:1936-1985 | Every other included message stands in the history before all later ones, with all its answers, and nothing else, right behind it. |
| `TurnHistory.RepliesInOrder` | crates/wts-app/src/agent_conversations.rs:1955-1975 | The answers of a message come in the order of the conversation. |
| `TurnHistory.SettledTurnsNeverChange` | crates/wts-app/src/agent_conversations.rs:475-490 | Along any run a message that has ended and whose answers have all ended keeps exactly these answers, unchanged: no later message becomes one. |
| `TurnHistory.DispatchedHistory` | crates/wts-app/src/agent_conversations.rs:2173-2182 | For every claim the snapshot succeeds and the last user entry, which the prompt takes as the latest request, is the claimed message. |
| `TurnHistory.ClaimsAreJustClaimed` | crates/wts-app/src/agent_conversations.rs:1395-1418 | After a claim every message that still waits in the conversation has a larger sequence. |
| `QueuePositions.SetQueuePositions` | crates/wts-app/src/agent_conversations.rs:1868-1892 | Every queued message gets one plus the number of queued messages of its workspace with a smaller (sequence, id); all others get none. |
| `QueuePositions.SetConversationQueuePositions` | crates/wts-app/src/agent_conversations.rs:1894-1917 | The single-conversation form assigns the ranks of the whole store's queue. |
| `QueuePositions.BothFormsAgree` | crates/wts-app/src/agent_conversations.rs:1868-1917 | The whole-store form and the single-conversation form give the same conversation. |
| `QueuePositions.OrderedIndexIsRank` | crates/wts-app/src/agent_conversations.rs:1881-1886 | In the sorted queue the index of a ticket is the number of tickets ahead of it. |
| `QueuePositions.PositionsFollowTheOrderSent` | crates/wts-app/src/agent_conversations.rs:1868-1892 | In one workspace, a message that was sent earlier has the smaller position, and positions run from one to the length of the queue. |
| `QueuePositions.TheNextIsFirst` | crates/wts-app/src/agent_conversations.rs:1868-1892 | The message that was sent first of all that wait in its workspace has position one. |
| `PriorFeedback.RecentTurns` | crates/wts-app/src/agent_conversations.rs:435-474 | The streaming set ends as the 32 greatest keys of all eligible turns, in whatever order the files are read, and the count is the number of eligible turns. |
| `PriorFeedback.Keep` | crates/wts-app/src/agent_conversations.rs:464-473 | Insert and drop the smallest keeps the greatest keys of the stream so far. |
| `PriorFeedback.NewestIsUnique` | crates/wts-app/src/agent_conversations.rs:464-473 | The set of the greatest keys is determined by the keys. |
| `PriorFeedback.SelectTurns` | crates/wts-app/src/agent_conversations.rs:475-518 | From the newest turn down every turn that still fits is taken, whole; included plus omitted is all; the serialized size is within 1 MiB though the omitted count loses digits. |
| `PriorFeedback.PriorTurns` | crates/wts-app/src/agent_conversations.rs:425-519 | The whole selection, while all hosts go on working between the scan of each file and its second read: whole turns of the 32 newest eligible ones in chronological order, none left out that fitted, nothing uncounted, within the byte limit; each turn begins with a message that may be shared, earlier than the latest and of another conversation of the same workspace, repository and provider, and they stand in the order of time. |
| `PriorFeedback.ReadAgainIsTheSame` | crates/wts-app/src/agent_conversations.rs:475-490 | A turn that the scan found eligible is, when its conversation is read again at any later point of the run, still there, whole and unchanged. |
| `PriorFeedback.SharedTurnsAreOver` | crates/wts-app/src/agent_conversations.rs:2128-2153 | Only finished work is shared: every message of an eligible turn is final and of another conversation. |
| `PriorFeedback.EligibleExactly` | crates/wts-app/src/agent_conversations.rs:435-463 | A turn is eligible if and only if it is of another conversation of the same workspace, repository and provider, came before the latest message, is not repeated in the current conversation, and is over, with a reply or an error to show. |
| `PriorFeedback.IsOver` | crates/wts-app/src/agent_conversations.rs:2128-2153 | The scan of the replies decides exactly whether the turn is over. |
| `EventState.Interpreter.Observe` | crates/wts-app/src/agent_observation.rs:664-924 | The in-place interpretation of one record equals the specified step; and what pends, which turn is active, how the last turn ended, what the agent is seen doing, its model and its last sign of life change exactly as the record alone says. |
| `EventState.Interpreter.CloseStarts` | crates/wts-app/src/agent_observation.rs:700-713 | Taking the open starts pushes a period for each that belongs to an active turn and does not end before it starts. |
| `EventState.StepKeepsWell` | crates/wts-app/src/agent_observation.rs:691-924 | After any record at all: at most one active turn, open starts belong to it, no period ends before it starts, at most 200 periods. |
| `EventState.EveryLogIsWellKept` | crates/wts-app/src/agent_observation.rs:638-924 | The same after any log whatsoever. |
| `LogFacts.LogDecides` | crates/wts-app/src/agent_observation.rs:664-924 | After any log, from its records alone: a key pends if and only if some record asked under it and no later one answered it, answered everything, or started or ended a turn; likewise which turn is active, how the last one ended, what the agent is seen doing, its model and its last sign of life. |
| `LogFacts.CompletionAddsThePeriod` | crates/wts-app/src/agent_observation.rs:715-759 | A completion adds the period from the open start, or the start in its payload if no question split the turn, to the end in the payload, the record's time or the duration, in this order, and none if they are unknown or out of order. |
| `TurnPeriods.PeriodsAreTheStretches` | crates/wts-app/src/agent_observation.rs:691-916 | The periods of a turn are, one by one, exactly the stretches of its time in which nothing was asked, in their order, but for those that would end before they begin; for any log that starts the turn when none is active, stays within it and ends it, with times in any order. |
| `TurnPeriods.StretchesCoverTheWork` | crates/wts-app/src/agent_observation.rs:691-916 | At every record of a turn, a moment before it lies in one of the stretches so far, the open one included, if and only if nothing was asked then. |
| `EventState.ReportIsOrdered` | crates/wts-app/src/agent_observation.rs:580-595 | The reported periods are in order, at most 200, none ends before it starts, and at most one is ongoing. |
| `WorkTime.EveryRecordAccounts` | crates/wts-app/src/agent_observation.rs:691-916 | Each record with a timestamp, whatever its payload, accounts for the time since the last one: it is work if a turn runs and nothing is asked, less what Lost names, plus Shift, by which times in the payload differ from those of the record. |
| `WorkTime.WorkIsConserved` | crates/wts-app/src/agent_observation.rs:638-924 | Over any log whose records carry timestamps, the periods add up to the time in which a turn was active and no input was pending, less what superseded, restarted or dropped turns give up, plus the shifts of payload times. |
| `WorkTime.TurnTimeExcludesWaiting` | crates/wts-app/src/agent_observation.rs:732-798 | The periods of a turn add up to its length, from its effective start to its effective end, each of which may come from the payload, less the time it waited for input, also when it ends while waiting. |
| `WorkTime.WholeTurnIsItsLengthLessWaiting` | crates/wts-app/src/agent_observation.rs:691-916 | The interpreter's account of a whole turn: the sum of its periods is its length less the time in which its own pending set was not empty. |
| `TurnPeriods.WholeTurnIsItsLengthLessAsking` | crates/wts-app/src/agent_observation.rs:691-916 | For a log in time order that starts a turn when none is active, stays within it and ends it: its periods add up to its length less the time in which, by the records alone, something was asked and not answered. |
| `WorkTime.TurnIsWorkOrWaiting` | crates/wts-app/src/agent_observation.rs:896-916 | While a turn is active every moment is either work or waiting, nothing is given up, and only its end record may shift the sum. |
| `WorkTime.LimitKeepsTheNewest` | crates/wts-app/src/agent_observation.rs:920-924 | The limited interpreter holds exactly the newest 200 of all periods, and otherwise the same state. |
| `WorkTime.ReportedTimeIsWorkTime` | crates/wts-app/src/agent_observation.rs:580-595 | With fewer than 200 periods, the report of a whole log with timestamps adds up to the work time of the log, less what was given up, plus the shifts of payload times. |
| `TurnPeriods.TimesOfALog` | crates/wts-app/src/agent_observation.rs:638-924 | The time that the interpreter takes for waiting and for work is, over any log, the time in which by the records something was asked and not answered, and in which a turn was active and nothing was asked. |
| `TurnPeriods.ReportOfALog` | crates/wts-app/src/agent_observation.rs:580-595 | The report of a log with timestamps adds up to the time in which, by its records, a turn was active and nothing was asked, less what was given up, plus the shifts of payload times. |
| `WorkTime.NothingRunsWhileWaiting` | crates/wts-app/src/agent_observation.rs:896-916 | If all records carry timestamps, no turn start is open while input is pending. |
| `EventLog.LogReader.Read` | crates/wts-app/src/agent_observation.rs:606-940 | For any sequence of reads of growing files: a read that resumes from the cache continues the cached state at the cached offset; its state is that of a read from the first byte unless an earlier read of the file since its last reset stopped in an over-long unfinished line; the cache stays right and bounded. |
| `EventLog.LogReader.Evict` | crates/wts-app/src/agent_observation.rs:926-928 | The cache drops entries only when it is full. |
| `EventLog.ReadLines` | crates/wts-app/src/agent_observation.rs:638-664 | The line loop comes to the replay of the complete lines and leaves off where LeftOff says. |
| `EventLog.ResumingAgrees` | crates/wts-app/src/agent_observation.rs:626-664 | Resuming where an earlier read left off equals replaying from the start, if the earlier read met no over-long unfinished line. |
| `EventLog.LeftOffIsABoundary` | crates/wts-app/src/agent_observation.rs:648-658 | A read leaves its offset at a line boundary if and only if the unfinished last line is not over-long. |
| `EventLog.RestOfLongLineIsRead` | crates/wts-app/src/agent_observation.rs:648-658 | After an over-long unfinished line the next read takes the rest of that line for a line of its own, while a read from the start skips it. |
| `EventLog.TailDecidesResuming` | crates/wts-app/src/agent_observation.rs:648-658 | Resuming gives the state of a read from the first byte, for every parser and every continuation of the file, if and only if the earlier read did not stop in an over-long unfinished line. |
| `EventLog.ReplayInTwoParts` | crates/wts-app/src/agent_observation.rs:638-664 | Replaying a then b is replaying a + b when a ends with a complete line. |
| `EventLog.ReplayIsTheRecords` | crates/wts-app/src/agent_observation.rs:638-664 | Reading a file comes to the interpretation, in order, of the records of its complete lines that are short enough and can be parsed. |
| `Calendar.ClosedFormCounts` | crates/wts-app/src/agent_observation.rs:1052-1062 | The closed formula is the recursively counted day number, for every year, month and day number. |
| `Calendar.NextDayIsOneMore` | crates/wts-app/src/agent_observation.rs:1052-1062 | The count is the calendar's: the epoch is day 0 and every next day, over month ends, leap years and eras, is one more. |
| `Calendar.DatesKeepTheirOrder` | crates/wts-app/src/agent_observation.rs:1052-1062 | Day numbers order valid dates as the calendar does and tell them apart. |
| `Calendar.InstantsKeepTheirOrder` | crates/wts-app/src/agent_observation.rs:1063-1064 | Milliseconds order valid instants exactly as their fields do, apart from leap seconds. |
| `Calendar.LeapSecondsCollide` | crates/wts-app/src/agent_observation.rs:1043-1050 | Second 60, which the parser lets through, is the same moment as the next minute's second 0. |
| `Calendar.ValidExactlyIfOrdered` | crates/wts-app/src/agent_observation.rs:1052-1064 | The milliseconds of some fields stand in the right order to those of all valid instants if and only if the fields are valid. |
| `Calendar.OneValidForm` | crates/wts-app/src/agent_observation.rs:1052-1064 | Every moment, before or after the epoch, has exactly one valid form. |
| `Timestamps.WrittenTimesParse` | crates/wts-app/src/agent_observation.rs:1027-1064 | Parsing a written timestamp gives the fields and the moment that were written, for all fields within the parser's bounds, signed ones and days and seconds over the end included. |
| `Timestamps.FractionIsThousandths` | crates/wts-app/src/agent_observation.rs:1051 | The digits after the point count as thousandths: one stands for hundreds, two for tens, and of more than three only the first three count. |
| `Timestamps.AnyFractionParses` | crates/wts-app/src/agent_observation.rs:1036-1064 | Any number of fraction digits is read, and none, as the moment of the whole second plus its thousandths. |
| `Timestamps.ParserTakesExactly` | crates/wts-app/src/agent_observation.rs:1028-1050 | Some text parses to given fields if and only if they are within the stated bounds: there is no lower bound on the clock fields but that of 64 bits. |
| `Timestamps.ParsedTimesKeepTheirOrder` | crates/wts-app/src/agent_observation.rs:1027-1064 | Times parsed from any two texts with valid fields, padded or not, are ordered exactly as their date and time fields. |
| `Timestamps.OrderIsRightExactlyForValid` | crates/wts-app/src/agent_observation.rs:1027-1064 | A parsed text is ordered rightly among the valid times if and only if its fields are valid. |
| `Timestamps.SignedHourIsTaken` | crates/wts-app/src/agent_observation.rs:1043-1050 | A text whose hour is -1 is let through, and read as 23:00 of the day before. |
| `Timestamps.PastTheEndOfTheMonth` | crates/wts-app/src/agent_observation.rs:1043-1050 | A day past the end of its month is let through and read as that many days into the next month. |
| `StreamReaders.ReadCappedLine` | crates/wts-app/src/adapter.rs:1201-1232 | Exactly one line is consumed, however it arrives; at most the maximum of it is kept, with its newline restored. |
| `StreamReaders.ReadTailLines` | crates/wts-app/src/adapter.rs:1167-1199 | The kept lines are the longest run of newest capped lines within 1 MiB and contain the last line; the observer gets every capped line until it hangs up. |
| `StreamReaders.PushLine` | crates/wts-app/src/adapter.rs:1186-1191 | Dropping from the front keeps the longest suffix within the limit. |
| `StreamReaders.ReadTail` | crates/wts-app/src/adapter.rs:1234-1255 | Exactly the last 1 MiB of the stream is kept, in any chunking and with any interruptions. |
| `StreamReaders.ReadBoundedLines` | crates/wts-app/src/adapter.rs:1130-1165 | In any chunking, with interruptions, read errors and an observer that hangs up: a result is the whole stream, which fits in 1 MiB, or says that it does not fit; the observer gets whole lines in order, as many as fit; if it hangs up there is no result at all. |
| `StreamReaders.BoundUtf8` | crates/wts-app/src/adapter.rs:1435-1445 | The longest prefix of whole characters within the byte limit. |
| `SessionLedger.StaysReadable` | crates/wts-app/src/agent_sessions.rs:604-627 | An operation leaves a readable ledger readable if and only if the clock has not gone back before the start of a session it stamps and, for a launch, there is room. |
| `SessionLedger.LedgerStaysReadable` | crates/wts-app/src/agent_sessions.rs:660-708 | Over any history with a clock that never goes back, in which every launch finds room, the ledger can always be opened. |
| `SessionLedger.FullLedgerBreaks` | crates/wts-app/src/agent_sessions.rs:845-864 | A concrete full ledger of live sessions, which one more launch makes unreadable. |
| `SessionLedger.ClockBackBreaks` | crates/wts-app/src/agent_sessions.rs:507-538 | A concrete session whose heartbeat, stamped before its start, makes the ledger unreadable. |
| `SessionLedger.RecordsContinue` | crates/wts-app/src/agent_sessions.rs:507-592 | No operation but a launch adds or removes a record; finished records are frozen and statuses only move on. |
| `SessionLedger.DoneExactly` | crates/wts-app/src/agent_sessions.rs:186-592 | Each operation can be done exactly when its session's status suits it, leaves exactly the ledger described field by field, and otherwise gives the refusal of its cause. |
| `SessionRuns.RunsExactlyIf` | crates/wts-app/src/agent_sessions.rs:231-592 | Over any history, with any clock and failing writes: a session runs if and only if it was launched running or its process was accepted, and since then nothing stopped, finished, failed or interrupted it, no operation gave it up as stale, and the ledger was not opened anew. |
| `SessionLedger.LaunchKeepsTheLiving` | crates/wts-app/src/agent_sessions.rs:231-262 | A launch appends its record and removes at most one, the oldest finished one of a full ledger, never one that is alive and not stale. |
| `SessionLedger.AgentSessionStore.Perform` | crates/wts-app/src/agent_sessions.rs:186-592 | An operation succeeds if and only if its session is there in a status that suits it, the proposals are valid and the file can be written; then its status, heartbeat, end, failure, input request and proposals are what the operation says, all else is as it was, and stale sessions are given up. Each refusal has its exact cause, and leaves the file but for the stale sessions given up. |
| `SessionLedger.AgentSessionStore.RecoverStaleSessions` | crates/wts-app/src/agent_sessions.rs:797-821 | Exactly the live sessions without a heartbeat for five minutes are interrupted. |
| `SessionLedger.AgentSessionStore.RecoverOrphanedSessions` | crates/wts-app/src/agent_sessions.rs:823-843 | On opening exactly the live sessions are interrupted. |
| `SessionLedger.AgentSessionStore.PruneTerminalSessions` | crates/wts-app/src/agent_sessions.rs:845-864 | A full ledger loses its oldest finished session. |
| `SessionLedger.EditedValidity` | crates/wts-app/src/agent_sessions.rs:660-708 | An edit keeps its record valid if and only if the time it stamps is not before the session's start. |
| `SessionLedger.AdoptedValidity` | crates/wts-app/src/agent_sessions.rs:823-843 | Recovery on opening keeps a record valid if and only if it is finished or the clock is not before its start. |
| `TurnReceipt.BuildChanges` | crates/wts-app/src/agent_turn_changes.rs:464-609 | The loop computes the specified list, omitted count, patch and state, or fails as a whole. |
| `TurnReceipt.ReadyIsComplete` | crates/wts-app/src/agent_turn_changes.rs:464-590 | A ready receipt lists, in path order, exactly the paths whose digest or mode differ. |
| `TurnReceipt.ReadyReceiptsTellAll` | crates/wts-app/src/agent_turn_changes.rs:489-521 | A ready receipt has, for exactly the paths that changed, in order: added if only the later capture holds the file, deleted if only the earlier one does, modified if both, the two digests, and whether the change was there before the turn. |
| `TurnReceipt.ReadyExactlyIfComparable` | crates/wts-app/src/agent_turn_changes.rs:464-590 | A receipt is ready if and only if both captures are stable and complete, with room for every path. |
| `TurnReceipt.ReadyReceiptsReplay` | crates/wts-app/src/agent_turn_changes.rs:464-590 | Applying a ready receipt to the tree before gives the tree after, and it is empty if and only if the two captures are the same tree. |
| `TurnReceipt.CompleteReplays` | crates/wts-app/src/agent_turn_changes.rs:489-521 | Applying the listed digests of a complete receipt to the tree before gives the tree after. |
| `TurnReceipt.PatchIsWholeSegments` | crates/wts-app/src/agent_turn_changes.rs:522-582 | The patch is whole segments of listed files within 1 MiB, and all of them if it is not marked truncated. |
| `TurnReceipt.ScanIsRight` | crates/wts-app/src/agent_turn_changes.rs:471-508 | The scan lists exactly the comparable paths that differ and counts every path that a full capture may hide. |
| `TurnStorage.TurnDirectory.FinishTurnCapture` | crates/wts-app/src/agent_turn_changes.rs:398-461 | A completed receipt changes if and only if the first look at it fails and the second look and its write succeed; an open one ends as specified or is given up. |
| `TurnStorage.TurnDirectory.FinishInner` | crates/wts-app/src/agent_turn_changes.rs:416-461 | The end of a turn: nothing is written if anything fails, and a completed receipt is left alone. |
| `TurnStorage.TurnDirectory.PersistCapture` | crates/wts-app/src/agent_turn_changes.rs:305-349 | Every captured content can be read back under its digest, no earlier blob changes and only digests of this capture are added; it succeeds whenever no write fails and no digest stands for two contents. |
| `TurnStorage.ReadyBytesAreCaptured` | crates/wts-app/src/agent_turn_changes.rs:274-349 | A ready receipt lists exactly the paths of the two captures that differ, and for every listed file the bytes before and after, read back under their digests, are those captured; a file that was not there has none. |
| `TurnStorage.TurnDirectory.BeginTurnCapture` | crates/wts-app/src/agent_turn_changes.rs:351-396 | The open record of a turn and its before capture are stored, or nothing is recorded; it succeeds whenever no access fails and no digest stands for two contents; the record is capturing, or unavailable without a capture, and lists nothing. |
| `TurnStorage.TurnDirectory.CaptureTurn` | crates/wts-app/src/agent_turn_changes.rs:351-461 | Over a whole turn, begun and finished with any faults: if the receipt ends up ready, it is complete, and every listed file's bytes before and after read back as captured. |
| `TurnStorage.ReadyReceiptIsLost` | crates/wts-app/src/agent_turn_changes.rs:398-414 | From an empty directory, a turn whose ready receipt lists a file, and a later finish whose first look at the record fails: the receipt is given up. |
| `SessionDetails.DetailStore.Record` | crates/wts-app/src/agent_session_details.rs:150-182 | Events are numbered without a gap, and the window is the start event with the newest 99 others. |
| `SessionDetails.DetailStore.Begin` | crates/wts-app/src/agent_session_details.rs:100-148 | Room is made only by forgetting the finished session with the oldest last event; without one the new session is not remembered. |
| `SessionDetails.WindowSlides` | crates/wts-app/src/agent_session_details.rs:163-180 | Dropping the second event of a full window and appending is the window of the longer history. |

## Left out

- QueueRuns.SlotsStayReserved: does not bound the bytes of a stored conversation (16 MiB at line 532), whose file size is a parameter.
- Revision numbers and update times of conversations, JSON, SHA-256 and UTF-8 decoding: no property here depends on them. A receipt of a mutation keeps its fields in place of their digest.
- I/O errors in the middle of a critical section: every prefix of a section's writes is a prefix of a protocol run, and sound by the invariant.
- The mutex and the disk lock: a critical section is one method call. Interleavings of sections are the runs of `QueueProtocol`.
- Thread start failure after a claim: it is the protocol step `Lose`, which drops the lease of a claimed turn.
- Unix file stamps: a write may get any stamp under which the file never stood for another answer to "has it work?".
- Queued messages without a sequence, which only records from before the queue could hold; `send` always sets one.
- The work-set check of `send` is a Boolean; work sets, restore, work-item integration and the operation lease are a Boolean or an error of an attempt. Their sources are not part of this model.
- `list_agent_conversations` drops work-item conversations before it computes positions; no agreement with the single form is claimed for workspaces that contain them.
- The list of conversations that a directory may hold (4,096) bounds the scan; creating more is not prevented in the model either.
- PriorFeedback.PriorTurns: does not model the source context of a turn, which is part of its abstract length.
- Prompts, error wording, provider output parsing, proposals' text checks and GitLab verification.
- Which tool calls ask for input, and the activity shown for a tool, are part of the record that the event interpreter is given.
- Text that the event interpreter only displays: the latest update and proposals. Model names are checked for length and characters elsewhere.
- Times outside 64 bits in the timestamp parser's arithmetic, which the source would overflow on for years far outside four digits.
- SessionDetails.DetailStore.Record: does not model the saturation of event numbers at 64 bits, which no session reaches.
- TurnStorage.TurnDirectory.PersistCapture: does not model that digests are checked for their textual form before a blob is read.
- `agent_models.rs`, `updater.rs`, `verification_summary.rs`, `process.rs`, the Tauri commands and the user interface: wiring and validation with easy members only.
