# The durable lease queue, modelled in Dafny

This project models the queue engine of Frankenqueue: messages are enqueued, handed
to consumers under leases that expire, acknowledged, retried or moved to a dead
letter list, and every change is first made durable in one write-ahead log that all
queues share. It proves what the engine is built for: nothing acknowledged is lost
by a crash at any point, recovery rebuilds what memory held, compaction does not
change what the log means, and consumers get the right messages in the right order.

`dafny verify dfyconfig.toml` checks all of it.

## How the model is built

There are two levels, tied together by contracts.

*The engine as objects.* `Heaps` (the binary heap with cached slots, its sift loops
written out), `Queues` (three heaps, the lease table, the dead letter list, the
counters), `Wal` (the log over an abstract file system of byte files) and `Managers`
(recovery, creation, compaction and replay over all queues) are classes that update
their fields in place as the Go code does. Every method of `Queues.Queue` keeps a
ghost run of model steps and proves that fields, heaps and log are exactly what that
run leads to. The log counts, in ghost fields, the operating system calls that failed
and the records that could not be encoded: no operation answers with an error unless
the log was latched before or one of these counts has moved.

*The engine as a state machine.* `Model` defines one queue's steps (one per loop round),
each with the time, the generated IDs and the fate of its append as part of the step. An
append ends in one of three ways: `Ok`; `NotWritten`; or `NotSynced`, where the bytes
are in the file but the fsync failed and the log is latched. The main theorems are about
every run of this machine: `Partition`, `Agreement`, `Restarts`, `Durability`,
`Refinement`, `Sequences`, `Counters`, `DeadLetters`, `Exclusivity`, `Wakeups`,
`Visibility`, `Burials`, `Origins`; `Outcomes` says what one step does to its message
without naming the step's definition. `Systems` puts many queues over one file, so that
its theorems are about every run of the whole process, with crashes, restarts and
compactions in it; `Processes` shows that what the objects do is such a run. There a
restart counts what it has read as durable; `PowerLoss` shows that the promises hold
without that. `LogRuns` and `Framing` do the same for the log and its bytes; `Recovery`
and `SharedLog` define the fold that recovery is; `Pump` and `Selection` say what the
pump and a receive must achieve.

What is taken as given: `newID` returns a value never returned before; the clock does
not go backwards, though a tick may bring a time read before the lock was taken; every
durable append is followed by its own fsync; JSON encoding yields text without control
characters, and decoding it gives the record back (the checksum is an arbitrary
function, nothing is claimed about detecting corruption). A Dafny `int` stands for
`int64` times and durations; sequence numbers are unbounded.

## What turned out not to hold

- A failed OpNack append takes the message out of memory while the log still has it
  (queue/queue.go:468-470). A later compaction then erases it for good, although its
  Enqueue succeeded. `Refinement.CompactionLosesDroppedMessage` is the run;
  `Refinement.CompactionKeepsUnlessDropped` says when exactly compaction loses a message.
- If the OpDLQ append fails in a Nack, the message goes back to ready but nobody is
  signalled, because the error return comes before the signal (queue/queue.go:379-385,
  451-455). `Wakeups.WakeUpLostOnDeadFault` is the run;
  `Wakeups.NackOwesExactlyOnDeadFault` is the exact condition.
- Replay checks the epoch and scans without a lock around both. A compaction in between
  makes it read the new file at an offset of the old one; where that falls between two
  frames it returns printed records that were not appended since.
  `Bookmarks.CompactionBetweenCheckAndScan` says so for any codec,
  `Bookmarks.ReplayFindsOldMessage` is a run, and `LogRuns.ReplayReadsWhatWasAppended`
  holds when nothing comes between, which `LogRuns.SameEpochSameFile` says the epoch
  itself would tell.
- Each message enqueued and not acked is in exactly one place only as long as no OpNack
  append fails; `Durability.ExactlyOnePlace` has the exact condition over all runs.
- Recovery does not always restore `VisibleAt`. ReplayDLQ sets it in memory without
  logging it (queue/queue.go:507, queue/manager.go:153-158), and so does a retry whose
  OpDLQ append fails (queue/queue.go:451-455). `Visibility.ReplayMovesVisibleAt` and
  `Visibility.DeadFaultMovesVisibleAt` are the runs, and
  `Visibility.VisibleAtIsLoggedUnlessMoved` says for every run when the two agree.
  Consumers see the field; what they are given and when does not depend on it, so
  recovery and compaction are compared by eligibility at every later time.
- A bookmark from before a restart passes the epoch check although the restart may have
  lost records behind it. `LogRuns.CutBelowBookmark` is the run, and
  `LogRuns.OldBookmarkReads` holds when no restart cuts the file below the bookmark.

## Model

| member | source | states |
|---|---|---|
| Durability.CrashKeepsPromises | queue/wal.go:153-187 | for every run of a queue and every prefix of its written records that covers the last fsync: it reads back under the queue's own config, holds no message whose Ack succeeded, holds a message whose Enqueue succeeded and whose ack was never written if and only if no compaction erased it after a failed OpNack append, and what it lacks of the acknowledged records are lease records, which can only lower attempts |
| Durability.HealthyRun | queue/queue.go:149-183 | with no failed append, through all restarts and compactions, the queue holds exactly the accepted messages that were not acked, and nothing is dropped, lost or latched |
| Durability.ExactlyOnePlace | queue/queue.go:83-117 | in every run, failed appends, restarts and compactions included: no message is in two of ready, delayed, inflight and dead letters, an acked one is in none, one enqueued and never ack-written is in exactly one if and only if no failed OpNack append of the run has dropped it (until the next restart) or a compaction erased it then, and receipts and inflight messages name each other |
| Durability.ExactlyOnePlaceUnlessNackFails | queue/queue.go:465-471 | as long as no OpNack append fails, whatever else does, each message enqueued and not acked is in exactly one place |
| Durability.BookIsRun | queue/queue.go:465-471 | which messages are dropped or erased can be read off the run: a failed OpNack append drops, a restart reads back, a compaction erases |
| Durability.KeptStep | queue/queue.go:446-473 | which messages memory or log still has after any step, failed appends, compactions and restarts included |
| Partition.RunKeeps | queue/queue.go:83-117 | over every run: no message is in two places, heaps are keyed by ID, leases and inflight messages are in bijection, and only generated IDs appear |
| Refinement.RecoveryRefinesMemory | queue/manager.go:78-192 | after any run with no failed append since the last restart, reading the whole log rebuilds the same config, sequence counter, dead letters and messages, inflight ones back in ready or delayed, all with equal contents and attempts and equal eligibility at every later time |
| Refinement.CompactionPreservesMeaning | queue/manager.go:329-355 | in any such state the compacted log and the old log recover to queues with the same config, dead letters and messages and the same eligibility at every later time, down to the sequence counter of a drained queue |
| Refinement.SameMeaningSameQueue | queue/manager.go:397-413 | logs of one meaning are restored at any later time to the same config and counter and, message by message, the same ready, delayed and dead letters |
| Refinement.CompactionKeepsUnlessDropped | queue/queue.go:465-471 | in every run, failures included, compaction keeps a message of the log if and only if no failed OpNack append has dropped it since the last restart |
| Refinement.CompactionLosesDroppedMessage | queue/queue.go:465-471 | a run in which an accepted, never acked message is gone from the compacted log |
| Visibility.VisibleAtIsLoggedUnlessMoved | queue/manager.go:123-158 | in every run, failures included, a message in memory is visible from the time ReplayDLQ or a failed OpDLQ append last gave it, unless a logged nack or expiry, a compaction or a restart came since, and from the logged time otherwise; so memory and log agree if and only if there is no such time or it equals the logged one |
| Visibility.ReplayMovesVisibleAt | queue/queue.go:492-516 | a run with a dead letter replay after which memory and log differ in VisibleAt |
| Visibility.DeadFaultMovesVisibleAt | queue/queue.go:451-455 | a run with a failed OpDLQ append and no replay after which they differ |
| Restarts.PrintoutReads | queue/manager.go:418-442 | reading a printout back gives exactly the config, counter, messages and dead letters that were printed |
| Restarts.TailLower | queue/manager.go:123-132 | dropping any part of the un-synced tail changes nothing but attempts, which can only be lower |
| Restarts.FullRun | queue/queue.go:149-516 | in every state of every run memory and log agree message by message, the un-synced tail is lease records with rising attempts, and an unacknowledged last record would do no harm |
| Origins.MessagesAreTheOnesSent | queue/queue.go:149-183 | in every run, a message in memory or in what any crash leaves of the log has the body, priority, sequence number and arrival time of its Enqueue event, and until it is nacked, expires or is replayed it is visible exactly from arrival plus the delay asked for |
| Sequences.SequenceNumbersAreFresh | queue/queue.go:157-177 | in every run the next Enqueue takes a number above every number and stamped counter in the file, acknowledged or not, and no crash leaves two messages with one number |
| Sequences.RestartIsPossible | queue/manager.go:163-191 | whatever prefix a crash leaves, the restart step is enabled, with the dead letters in sequence order |
| DeadLetters.AttemptsAreLimited | queue/queue.go:446-473 | in every run with a limit, no message has more attempts than MaxAttempts plus restarts plus failed OpDLQ appends, and those waiting have strictly fewer |
| DeadLetters.AttemptsAreDeliveries | queue/queue.go:294-302 | without restarts, attempts are the deliveries since the message was enqueued or last replayed, failed appends or not |
| DeadLetters.AtMostMaxDeliveries | queue/queue.go:446-456 | without restarts and failed OpDLQ appends, at most MaxAttempts deliveries between replays |
| Burials.DeadLettersHadAllAttempts | queue/queue.go:446-456 | the other half: in every run, failures, restarts and compactions included, a dead letter has at least MaxAttempts attempts, and with no limit there are no dead letters |
| Exclusivity.DeliveredTwiceReturnedBetween | queue/queue.go:294-387 | between two deliveries of a message in any run there is an expiry or nack of it, or a restart |
| Exclusivity.StaleForever | queue/queue.go:313-387 | a receipt that has left the lease table never leads to a message again, whatever happens later |
| Exclusivity.EndedIsStale | queue/queue.go:419-435 | an ack, nack, expiry or restart makes the receipt such a one |
| Counters.CountersAddUp | queue/queue.go:284-302 | in every state of every run, failures included: delivered = acked + nacked + expired + inflight, and enqueued + restored = held + acked + dropped |
| Wakeups.NoLostWakeUp | queue/queue.go:196-257 | a receiver that captured the wake channel, pumped, and found ready empty: at any later point of any run where no signal is owed, its channel was closed or ready is still empty |
| Wakeups.ParkedReceiverMissesNothing | queue/queue.go:196-257 | when every step that may fill ready is followed by a signal, as in all operations that succeed, a parked receiver whose captured channel is still open has nothing to miss, in any interleaving |
| Wakeups.NackOwesExactlyOnDeadFault | queue/queue.go:366-387 | a Nack leaves a signal owed if and only if the message is exhausted and its OpDLQ append failed; on an empty ready list that is exactly when ready is filled with the wake channel still open |
| Wakeups.WakeUpLostOnDeadFault | queue/queue.go:451-455 | a run in which a waiting receiver's channel stays open although ready holds a message |
| Wakeups.OwesOnlyBy | queue/queue.go:478-484 | only enqueue, promotion, expiry, nack and dead letter replay can make a signal owed |
| Pump.PumpedIsScanned | queue/queue.go:401-440 | moving only due messages until no root is due equals a full scan: delayed, inflight and ready are those of scanning everything, and the dead letters are the old ones followed by the exhausted expired messages, unchanged but for the wiped lease |
| Outcomes.EnqueueOutcome | queue/queue.go:149-183 | field by field: the accepted message, delayed if its delay is positive and ready otherwise, and the record that carries it |
| Outcomes.RetryOutcome | queue/queue.go:446-473 | a logged nack or expiry makes the message a dead letter if and only if MaxAttempts is positive and reached; otherwise it is ready or delayed again with its new time, and the record carries just that |
| Outcomes.AckOutcome | queue/queue.go:313-328 | after a logged ack the message is nowhere, the receipt void, and the record names the message |
| Outcomes.ReplayOutcome | queue/queue.go:492-516 | a replayed dead letter is ready at once with no attempts used, and the others keep their order |
| Outcomes.RestartOutcome | queue/manager.go:397-413 | after a restart each message of the log is a dead letter, delayed or ready by its time, with no lease, and there are no others |
| Selection.TakenIsPrefix | queue/heaps.go:77-87 | messages popped one by one are a prefix of every sorted listing of what the heap held |
| Selection.FirstOfSorted | queue/queue.go:245-254 | popping until n are out or none is left gives the first n of the sorted listing, or all of it |
| Selection.DrainedIsSorted | queue/heaps.go:77-87 | a drained heap yields a sorted listing, and there is only one |
| Selection.ReadyOrderIsTotal | queue/heaps.go:77-87 | with distinct sequence numbers the ready order is strict and total, for any mode string |
| Selection.TakenInOrder | queue/heaps.go:77-87 | of the messages popped, each has a higher priority than those popped later and those left behind, or the same priority and a lower sequence number (a higher one under LIFO) |
| SharedLog.QueuesDoNotInterfere | queue/manager.go:86-161 | for any log and any name, the one-pass recovery of all queues gives that queue what reading its own records alone gives |
| SharedLog.FirstCreateCounts | queue/manager.go:101-109 | recovery gives a queue the config of its first create record, and none without one |
| Systems.SystemIsGood | queue/manager.go:195-222 | over every run of the process with many queues, creations, compactions, failed appends and crashes, the file's records for a queue are exactly the log of that queue's own run, synced part and latch included, and every record has its queue |
| Systems.SystemKeepsPromises | queue/manager.go:78-192 | after any such run and any crash, recovery does not refuse, a restart follows, no queue is forgotten, each has its config and no message its consumers were told is gone, and a message its producers were told is durable and whose ack was never written is there if and only if no compaction erased it after a failed OpNack append |
| Systems.NeverRefused | queue/manager.go:163-173 | the unknown-queue refusal never fires on a file the system wrote, whatever the crash left of it |
| Systems.SystemCompactionPreservesMeaning | queue/manager.go:329-355 | the compacted file of all queues creates the same queues, and each one untouched by failed appends means what it meant |
| Systems.CrashDuringCompaction | queue/wal.go:305-379 | a crash at any step of compaction leaves a prefix of the old file or the whole new one; both create the same queues and, for each untouched by failed appends, mean the same but for attempts in lost lease records |
| PowerLoss.PowerLossIsCrash | queue/wal.go:193-201 | a loss of power after any number of restarts that flushed nothing, keeping any prefix that covers the last fsync, is a crash at an earlier moment of the run by which clients had been told all they were told |
| PowerLoss.PowerLossKeepsPromises | queue/manager.go:78-192 | recovery then does not refuse and keeps the promises of the whole run; a queue that is gone had no accepted message |
| Systems.RunTells | queue/manager.go:195-232 | what a queue's own run says its clients were told is what the system's run says |
| Processes.OperationIsSystemRun | queue/queue.go:149-516 | the steps of an operation on a queue object, taken by the system, lead to exactly the file the operation leaves, to a queue the object lags behind at most in fsyncs and latch, and change nothing for the others |
| Processes.CallIsSystemRun | queue/queue.go:149-516 | the same for an object that first has to learn of a latch it missed |
| Framing.FramingRoundTrip | queue/wal.go:207-294 | scanning the encodings of any records followed by a proper prefix of another one gives exactly those records and stops at exactly their length, for any checksum function |
| Framing.SurvivingRecords | queue/wal.go:207-278 | of any bytes that scan cleanly, however many survive, recovery reads the records that are whole in them and stops after the last, the next one being cut |
| Framing.RepairIsIdempotent | queue/wal.go:282-294 | repairing any byte string a second time changes nothing |
| Framing.TornExactly | queue/wal.go:233-262 | bytes are no record exactly when the header is short, the length zero or above the limit, the payload short, the checksum another, or the payload no JSON |
| Framing.ScanConcat | queue/wal.go:233-278 | clean bytes followed by any others scan as the two scans one after the other |
| Framing.TextIsNotRead | queue/wal.go:244-248 | bytes that start like JSON text are not taken for a record |
| Framing.Uint32RoundTrip | queue/wal.go:381-394 | the big-endian header fields read back for every 32-bit value |
| Framing.ScanLoop | queue/wal.go:233-278 | the offset-advancing loop computes the recursive scan, on all bytes |
| LogRuns.RunKeeps | queue/wal.go:305-379 | over every run of appends, failed fsyncs, compactions, lost handles and restarts, the epoch is the highest in the current file and never falls |
| LogRuns.OldBookmarksAreRefused | queue/manager.go:278-284 | over every run, restarts included, a nonzero bookmark fails a later epoch check if and only if a compaction has swapped the file since it was issued |
| LogRuns.CompactionsSwap | queue/wal.go:305-379 | a completed compaction swaps the file, and so does one that was renamed but not reopened once the process restarts |
| LogRuns.SnapshotStays | queue/wal.go:203-224 | whatever happens, an open file only grows at its end, and only while it is the current one |
| LogRuns.BookmarkedScan | queue/wal.go:398-402 | a scan from a bookmark of this process reads exactly the records appended since, up to the captured end, and they are still there through the captured handle after any later compactions |
| LogRuns.SameEpochSameFile | queue/manager.go:278-284 | within one process the epoch is unchanged if and only if no compaction has swapped the file |
| LogRuns.ReplayReadsWhatWasAppended | queue/manager.go:278-303 | for a nonzero bookmark of this process whose epoch check passes, the scan returns exactly the records appended since the bookmark, byte for byte, if no compaction comes between check and scan |
| LogRuns.OldBookmarkReads | queue/manager.go:278-303 | across restarts, if no compaction swaps the file and no restart cuts it below the bookmark, the check passes and the scan returns exactly the records behind the bookmark |
| LogRuns.CutBelowBookmark | queue/manager.go:278-303 | a run in which a restart loses a lease record, another record takes its place, and a bookmark behind the lost one still passes the check |
| LogRuns.CheckHoldsForScan | queue/manager.go:278-303 | the file scanned is the one the epoch check was about if and only if no compaction or restart came between |
| Bookmarks.CompactionBetweenCheckAndScan | queue/manager.go:278-303 | for any codec and records: a compaction between check and scan makes the scan return, where the old end falls on a frame boundary of the new file, the printed records from there on, although nothing was appended |
| Bookmarks.ReplayFindsOldMessage | queue/manager.go:278-303 | an instance from a run of the manager, at byte offsets: create, enqueue, bookmark, compact; the scan finds the message enqueued before the bookmark |
| Heaps.MsgHeap.Push | queue/heaps.go:31-41 | keeps heap order, cached slots and contents; exactly this message is added |
| Heaps.MsgHeap.Remove | queue/heaps.go:31-53 | removing at a cached slot detaches exactly that message and keeps heap order and every other slot's index |
| Heaps.MsgHeap.Pop | queue/heaps.go:43-53 | detaches a message that none of those held precedes |
| Heaps.MsgHeap.Fix | queue/queue.go:356-360 | after one message's key changed arbitrarily, order and slots are restored and nothing else changed |
| Heaps.MsgHeap.Peek | queue/heaps.go:56-61 | the root, null exactly when the heap is empty; no message held precedes it |
| HeapOrder.RootLeast | queue/heaps.go:15-61 | no element of a heap precedes its root |
| Wal.WAL.constructor | queue/wal.go:193-201 | opening on any bytes whatsoever reads the whole records, cuts the tail, learns the epoch and gives a valid log |
| Wal.WAL.Write | queue/wal.go:153-187 | the three outcomes of an append, on records and on bytes: it is durable if and only if no operating system call failed and the record could be encoded; bytes below the old end and all other files are untouched, the first size bytes still scan to exactly the records, and nothing beyond the end would be read as a record, unless a failed write came over bytes that an earlier failed one had left |
| Wal.WAL.CrashIsRestart | queue/wal.go:207-294 | of any number of bytes that covers the fsynced ones, recovery reads a prefix of the records that covers the synced ones, as long as nothing beyond the end is read; after a rename it reads the whole new file |
| Wal.WAL.ReadFrom | queue/wal.go:203-278 | a scan reads up to the captured end, reports a torn record with its offset, refuses a bad offset, and changes no byte |
| Wal.WAL.Compact | queue/wal.go:305-379 | the path names the old file or a whole new one that scans to the next epoch and the given records; it succeeds if and only if no operating system call failed and every record could be encoded; aborted, nothing changed; renamed but not reopened, the log is latched |
| Queues.Queue.Enqueue | queue/queue.go:149-183 | the priority refusal, and otherwise exactly the steps of one enqueue, which succeeds if and only if the log was not latched, no call failed and the record could be encoded; then the message returned is the one logged, and it is delayed or ready by its delay; durable first, visible and signalled only after success |
| Queues.Queue.TryReceive | queue/queue.go:238-310 | the first max of the messages that the pump left ready: higher priority first, then lower sequence number (higher under LIFO), among themselves and against all left behind; each leased until now plus the visibility timeout with one more attempt, none early; the pump's steps are in the run and, unless an expiry of this very call could not be logged, left all eligible messages (ready, due, expired with attempts left); the log refuses only for a cause, and then nothing is handed out and memory is as the pump left it |
| Queues.Queue.Ack | queue/queue.go:313-328 | a known receipt performs one ack step with the log's outcome, whatever the clock says: if the log was not latched, no call failed and the record could be encoded it is done, the receipt is gone and the message held nowhere; an unknown one changes nothing |
| Queues.Queue.Extend | queue/queue.go:343-361 | the lease of a known receipt now ends at the present time plus the visibility timeout, on the message itself; nothing is logged; an unknown one changes nothing |
| Queues.Queue.Nack | queue/queue.go:366-387 | one nack step: on success, a dead letter if and only if MaxAttempts is positive and reached, else ready or delayed by the delay, and a signal; an error has a cause in the log, and a signal stays owed exactly on a failed OpDLQ append |
| Queues.Queue.AdvanceLocked | queue/queue.go:401-440 | peeking at two roots leaves nothing due and, unless an expiry of this very call could not be logged, does what a full scan would; it logs to the shared file what it logs for this queue, and signals exactly when anything moved |
| Queues.Queue.Tick | queue/queue.go:393-399 | the same for a time that may lag behind the clock |
| Queues.Queue.Retry | queue/queue.go:446-473 | dead letter, retry or drop, by attempts and the append's outcome, which is bad only for a cause in the log |
| Queues.Queue.Put | queue/queue.go:478-484 | ready or delayed by the gate, heaps kept |
| Queues.Queue.ReplayDLQ | queue/queue.go:492-516 | dead letters return from the head on until the log refuses, which it does only for a cause; count, steps, each message brought back, remaining list and signal are right in both cases |
| Queues.Queue.SignalLocked | queue/queue.go:556-559 | a new wake generation, nothing owed |
| Queues.Queue.LiveRecords | queue/manager.go:418-442 | the printout of all messages held, each once |
| Queues.Queue.Restore | queue/manager.go:397-413 | any recovered lists are installed as they are, leases wiped; if they were read from a log that a run of the queue wrote, it is the restart step of that run |
| Queues.Queue.constructor | queue/queue.go:121-137 | an empty queue at the start of its run, with the documented defaults for what the config leaves out |
| Managers.ReadLog | queue/manager.go:100-161 | the record switch over mutable tables computes the fold over the whole log |
| Managers.SortBySeq | queue/manager.go:185-188 | a permutation in sequence order |
| Managers.Split | queue/manager.go:175-188 | every recovered message in exactly one of the two lists, each sorted, strictly where numbers are distinct |
| Managers.Prepare | queue/manager.go:78-192 | on any log whatsoever, recover refuses if and only if it holds messages for a queue whose create record is gone, and otherwise restores for every queue created in it exactly its messages, live and dead apart and in sequence order |
| Managers.Manager.Recover | queue/manager.go:78-192 | on any log, recover refuses if and only if it holds messages for a queue whose create record is gone, and otherwise every queue object holds exactly what was read for it; on a log that a crash of the system left it does not refuse and performs the crash step of the whole system, file and objects showing the system after the crash |
| Managers.Manager.CrashLeavesCut | queue/wal.go:207-294 | when the process dies and any number of bytes that covers the fsynced ones survives, what a scan reads is what a crash of the system leaves of its file |
| Managers.Open | queue/manager.go:49-70 | from any bytes the log is repaired and recovered as above; from the bytes a crash of the system left, a manager is opened that shows the system after the crash |
| Managers.Manager.Create | queue/manager.go:195-222 | which configs are refused and why; otherwise it is the create action of the system: the record is durable before the queue exists, and a failed append, which has a cause, leaves the table alone |
| Managers.Manager.Compact | queue/manager.go:329-355 | aborted, which has a cause, no file and no queue changes; otherwise the path names the next epoch and one printout per queue, every queue takes its compaction step, and a file that cannot be opened latches the log: the compaction action of the system, followed by a latch in the last case |
| Managers.Manager.Replay | queue/manager.go:272-317 | from any offset: not found, stale, bad scan, each exactly when; otherwise there are increasing positions in the scanned records, one per item found, with its body and priority, and a position is among them if and only if its record is an enqueue to this queue with a message, and since is zero or not after the arrival; these are published in order as new messages, the count is the number that are live, and the system follows |
| Managers.BoundaryScan | queue/wal.go:203-278 | from a frame boundary a scan reads exactly the records that follow and no epoch unknown to the log |

## Left out

- HTTP translation, flags, shutdown, the demo and the scripts (api.go, main.go, cmd/): no queue logic of their own.
- Group commit and the flusher goroutine: every durable append has its own fsync here; an fsync by anyone else is a step that may happen at any time.
- Long-poll timers, context cancellation and the 50 ms cap in Receive: only the wake-generation protocol is modelled.
- Stats, List, Err, Close and logging: reporting, nothing hard in them.
- The time stamp of a record (At), which nothing reads, and wrap-around of 64-bit sequence numbers and times.
- Lock acquisition: each operation is one run of steps under the queue lock, and the name order in which Compact takes the locks is any order here.
- Operating system behaviour beyond append, sync, truncate and atomic rename; directory fsync; closing retired handles.
- Managers.Manager.Compact: sorting the queues by name is not modelled; any order of the printouts is allowed.
- Wal.WAL.CrashIsRestart: asks that nothing beyond the tracked end is read as a record, which Wal.WAL.Write promises except after a failed partial write over the remains of an earlier one; there only the checksum stands against it, and nothing is claimed about checksums.
- LogRuns.RunKeeps: a scan from an offset that is no bookmark could read stray bytes as an epoch record and raise the epoch in memory; runs of the log do not contain such a scan, and Managers.BoundaryScan shows that no bookmark causes one.
- Wakeups.NoLostWakeUp: speaks of states where no signal is owed; Wakeups.ParkedReceiverMissesNothing derives that from the runs of operations that succeed, and the contracts of Enqueue, TryReceive, Tick, ReplayDLQ and Nack show that they leave none owed, but for the one case of Wakeups.NackOwesExactlyOnDeadFault.
