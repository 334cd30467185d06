# Durable queue engine and write-ahead log

A Dafny model of duraq's core: the multi-queue engine (`internal/queue`) and the
append-only log beneath it (`internal/wal`), with proofs that the three ways of
building the engine's state agree: running live, replaying the log, and
replaying a compacted log.

## How the model is built

| layer | files |
|---|---|
| bytes and records | `Utf8`, `Base64`, `Record`, `Framing`, `Wal` |
| shared definitions | `Wrappers`, `Errors`, `Sequences` |
| the state as a value, and its transitions | `Config`, `Ids`, `State`, `Steps` |
| replay, snapshots, sweeps | `Replay`, `ReplaySteps`, `Snapshot`, `Compaction`, `Sweeping`, `SweepLaws`, `QueueSweep`, `OrderlyLogs` |
| whole runs | `Runs`, `RunLaws`, `HistoryLaws`, `Agreement`, `CompactionLaws`, `Freshness`, `IdOrder`, `Limits`, `Stray`, `Durability`, `Order`, `Mirror`, `Journeys` |
| the engine in memory | `Message`, `Store`, `Loading`, `Collecting`, `Machine`, `Effects`, `Waiting`, `Engine`, `EngineLaws`, `Lifetimes` |

- `Steps` is the engine as a state machine. An `Action` is one atomic
  transition with the log record that commits it; a run (`Runs`) interleaves
  actions with restarts and compactions. `Inv` holds in every state of every
  run: the log always replays, to a state related to the live one.
- `Message`, `Store`, `Machine` and `Engine` are the imperative program: heap,
  maps and message fields updated in place, each operation with its rollback
  when an append fails. `Machine.w` is the state machine's world, and every
  operation ensures that its new world continues the run of the old one
  (`Runs.Continues`, in `Engine.Safe` and `Engine.Looked`), so that the results
  about runs hold of the program; `Lifetimes` joins operations, crashes and
  reopenings into one run.
- The contract of an operation says which actions it takes and, in the terms of
  `Effects`, which fields of which messages and queues that changes and that all
  else stays. `Journeys` follows one message through a whole run: what it
  carries, how long its lease lasts, and what can make it go.
- Failure of an append, clock readings and map iteration order are arbitrary
  choices. `Machine.Failures` counts the records the log refused: an operation
  reports a failed append, and a sweep leaves a message stuck, only when it
  grew. Times are whole milliseconds and 0 is the zero time. `World.clock` is
  the reading an operation works with; later readings within the operation only
  stamp records.
- `Wal.Disk.crashes` lists every content of the log file that a crash could
  leave behind. `Machine.Logs` keeps account of it: whatever a crash leaves in
  the middle of an operation reads as the log of a world that the run went
  through since the operation began (`Machine.Survives`).
- The JSON encoding is a pair of functions assumed `Faithful`: no raw newline,
  and decoding inverts encoding for the records that pass validation and whose
  body is valid UTF-8, which are the ones the engine writes. Bodies are bytes;
  UTF-8 validity follows section 4 of RFC 3629 and base64 section 4 of RFC 4648.

## Where the code differs from its documentation

- README.md:41 says order is by send sequence, always. Redriven and
  dead-lettered messages get new positions (`IdOrder.RedrivenRun`,
  `IdOrder.DeadLetteredRun`), and a compaction forgets them. It is by send
  sequence exactly until one of them arrives in a queue that holds a message
  sent later (`IdOrder.RunIdOrder`).
- docs/wal-format.md:60-62 calls a compacted log equivalent. It is, but for
  those positions and for the counter, which can drop, so that IDs and receipts
  are issued again (`Limits.CompactionDropsCounter`, `Limits.ReissuedRun`).
- docs/wal-format.md:53-56 says replay recomputes lease expiry from the
  deadline. After `max_receives` has been tightened it can dead-letter a message
  that the live engine holds ready (`Limits.TightenedRun`); the exact condition
  is `Agreement.NoneStale`, and `Limits.TighteningIsExact` says which changes of
  a configuration end it.
- internal/queue/message.go:80-83 wakes all waiters, but a redrive that fails
  after moving messages does not call it (`EngineLaws.RedriveAloneLosesWakeup`).
  The ghost field `lost` holds the channels it should have closed; nobody parked
  on any other channel misses a message.
- internal/wal/wal.go:101-102 says a record is committed only once Append
  returns nil. When fsync fails, the record is in the file all the same.
  `Stray.StrayHarmless` says exactly when the log is right again after the next
  record; when it is not, the log may not load (`Stray.StrayAck`), one ID may be
  in two queues (`Stray.StrayTwin`), or replay may file a message in the heap
  twice (`Stray.StrayReturnDoubles`).
- README.md:37 says every change is on disk before it is acknowledged. With
  `--no-fsync` it need not be: power loss can take any number of acknowledged
  records from the end of the log. What is left is the log as it once was
  (`Durability.UnsyncedCrash`). All other crash theorems are about the default.

## Model

| member | source | states |
|---|---|---|
| Utf8.ValidIffEncoding | internal/wal/record.go:50-56 | bytes pass the UTF-8 test exactly if they encode some sequence of Unicode scalar values |
| Utf8.ValidExamples | internal/wal/record.go:50-56 | the octet sequences of section 7 of RFC 3629 are UTF-8 |
| Utf8.InvalidExamples | internal/wal/record.go:50-56 | overlong forms, surrogates, code points past the last and characters cut short are no UTF-8 |
| Base64.RoundTrip | internal/wal/record.go:49-65 | base64 decodes what it encoded, and encodes to "" only the empty body |
| Base64.EncodedGroup | internal/wal/record.go:56-62 | every three octets are written as the four base-64 digits of their 24-bit number |
| Base64.EndOfOne | internal/wal/record.go:56-62 | one octet left over is written as if zeros followed, the symbols only those fill replaced by "==" |
| Base64.EndOfTwo | internal/wal/record.go:56-62 | two octets left over likewise, with "=" |
| Base64.SymbolIs | internal/wal/record.go:56-62 | the digits are those of the standard alphabet, in order |
| Record.BodyRoundTrip | internal/wal/record.go:49-65 | every body is read back as stored, and a non-empty base64 field marks exactly the bodies that are not UTF-8 |
| Record.InvalidRecords | internal/wal/record.go:70-95 | a record is refused exactly for an unknown type, a missing queue, message ID, deadline or target |
| Framing.ReadClassifies | internal/wal/wal.go:43-68 | any bytes are lines and a tail, and reading them fails exactly when a line before any torn stop is broken; otherwise the records are those of the lines read and torn says whether bytes remain |
| Framing.ReadablePartIsClean | internal/wal/wal.go:43-68 | the readable part alone reads back to the same records, untorn |
| Framing.CrashPrefix | internal/wal/wal.go:35-69 | a log of valid records cut at any byte reads as the records whose whole line lies within the cut, torn exactly when bytes remain |
| Framing.CutPoint | internal/wal/wal.go:35-69 | every cut falls within some record, so the crash theorem covers all cuts |
| Framing.AppendIsRead | internal/wal/wal.go:103-127 | appending a record to a clean log makes it read as those records and that one |
| Framing.PartialAppendIsTorn | internal/wal/wal.go:103-127 | any proper prefix of an append leaves the earlier records readable and nothing else |
| Wal.ReadAll | internal/wal/wal.go:35-69 | the loop computes the meaning of the bytes, or reports that the file could not be read |
| Wal.Open | internal/wal/wal.go:75-99 | opening keeps exactly the readable part, reports a torn tail, touches nothing when the log is corrupt, keeps every record when it fails at any of its steps, and survives a crash at any of them |
| Wal.Log.Append | internal/wal/wal.go:103-127 | on success the file holds one more line, on failure it is untouched, and whatever a crash leaves reads as the old records or with the new one |
| Wal.Log.Compact | internal/wal/wal.go:130-170 | whatever the records, a crash leaves the old file or the new one; on an error before the rename the log is unchanged, after it the handle is detached |
| Config.ConfigRoundTrip | internal/queue/config.go:100-121 | a logged configuration is read back unchanged exactly when its values are in range |
| Config.ParsedConfig | internal/queue/config.go:98-121 | a missing payload is 30 seconds without limit or dead-letter queue, a zero visibility is 30 seconds, and any other payload is kept if it is within 12 hours, has no negative limit and a well-formed target, and refused if not |
| Config.ValidNames | internal/queue/config.go:27-31 | a queue name is 1 to 120 of the 65 characters listed, the first neither dot, underscore nor hyphen |
| Config.LoosensIsExact | internal/queue/engine.go:373-375 | loosening a limit is exactly what exhausts no receive count that was not exhausted |
| Ids.IdRoundTrip | internal/queue/engine.go:101-118 | an ID or receipt gives back the number it was made from |
| Ids.SixteenDigits | internal/queue/engine.go:101-109 | identifiers have 16 digits exactly for numbers below 2^64 |
| Ids.IdDigits | internal/queue/engine.go:101-109 | an ID is the lower-case hexadecimal digits of its number, most significant first and at least 16, and a receipt is "r" and the same |
| Ids.DigitsRead | internal/queue/engine.go:111-118 | numbers are read from hexadecimal digits of either case and from nothing else |
| State.ReplaceSound | internal/queue/engine.go:296-324 | changing a message in place keeps the structural invariant |
| State.ArriveSound | internal/queue/engine.go:509-539 | moving a message to the back of another queue keeps it |
| Steps.EffectSound | internal/queue/engine.go:131-539 | every action keeps the invariant: one queue per message, unique positions and receipts, all numbers at most the counter |
| Steps.NextIdIsFresh | internal/queue/engine.go:101-104 | the next ID names no message of any queue |
| Steps.LoggedFields | internal/queue/engine.go:131-539 | the record of each action, field by field: type, queue, ID, time, receipt, deadline, count, target, due time and body |
| Effects.PostEnqueues | internal/queue/engine.go:224-243 | a send files one message under the next ID, with its body, time and place, due after its delay, and changes nothing else |
| Effects.SettleRemoves | internal/queue/engine.go:354-361 | an acknowledgement removes that message from all queues and changes nothing else |
| Effects.ReturnRequeues | internal/queue/engine.go:376-381 | a return makes the message ready with its count, body and place and changes nothing else |
| Effects.ProlongAlters | internal/queue/engine.go:398-407 | an extension changes the deadline of that message and nothing else |
| Effects.BuryInters | internal/queue/engine.go:509-539 | a message dead-lettered is at the back of its dead-letter queue, ready and with its count, or gone if there is none, and nothing else changes |
| Effects.ConfigurePrepares | internal/queue/engine.go:511-519 | a dead-letter queue made on the way leases for 30 seconds, has no limit and no dead-letter queue, and nothing else changes |
| Effects.HandingMore | internal/queue/engine.go:301-322 | what a row of leases hands out was ready, is delivered once more with its body and time of sending, and is leased under the receipt given until the time given |
| ReplaySteps.ReplayFollows | internal/queue/engine.go:553-645 | replaying the record of any action succeeds and leads to a state related to the live one |
| Replay.ReplayErrors | internal/queue/engine.go:553-645 | which records cannot be replayed in which states, and the error of each |
| Runs.DoKeepsInv | internal/queue/engine.go:131-539 | every action keeps the run invariant |
| Runs.CompactKeepsInv | internal/queue/engine.go:666-703 | so does compaction |
| Runs.RunInv | internal/queue/engine.go:544-551 | in every state of every run the log replays to a state related to the live one |
| RunLaws.ReplayRefines | internal/queue/engine.go:544-645 | the reloaded engine, swept when the live one has nothing due, holds the same queues, messages, leases and order exactly when no message is stale, and always if no limit was tightened |
| RunLaws.RunStaysFresh | internal/queue/engine.go:148-151 | without tightening no message ever becomes stale |
| Agreement.SweptReplayAgrees | internal/queue/engine.go:471-505 | the same equivalence for any live state and any state related to it |
| Mirror.ActionMirrored | internal/queue/engine.go:131-539 | of two engines that hold the same under different IDs and receipts, what one can do the other can, and they still hold the same, the newly issued ones translating each other |
| Mirror.RunsMirrored | internal/queue/engine.go:131-539 | so do any number of actions, no name changing its meaning on the way |
| Mirror.ReloadIsUnobservable | internal/queue/engine.go:544-551 | after a reload and a sweep, when no message is stale, whatever is done with the reloaded engine could be done with the old one and conversely, to the same effect but for newly issued IDs and receipts; all issued before mean the same to both |
| EngineLaws.AnswersMirrored | internal/queue/engine.go:327-344 | such engines accept or refuse every ID and receipt alike, with the same error, but for names that only one of them has issued |
| EngineLaws.AnswersAfterReload | internal/queue/engine.go:327-344 | right after a reload that is every ID and receipt whatever |
| HistoryLaws.Conservation | internal/queue/engine.go:159-172 | every message sent is in exactly one place: live in one queue, acknowledged, dropped as poison, or deleted with its queue |
| HistoryLaws.OnlyPostsAdd | internal/queue/engine.go:213-245 | only sending adds a message, under an ID never seen before |
| HistoryLaws.HistoryExactly | internal/queue/engine.go:347-361 | what each action records of the outcome of each message and of deliveries |
| HistoryLaws.OutcomesAreFinal | internal/queue/engine.go:347-361 | a message that is gone stays gone and no later action concerns it, across restarts |
| HistoryLaws.AtMostOneAck | internal/queue/engine.go:347-361 | after an acknowledgement there is no other one and no delivery of that message |
| HistoryLaws.ReceiptsDistinct | internal/queue/engine.go:106-109 | no two deliveries have the same receipt |
| HistoryLaws.OnlyLatestLease | internal/queue/engine.go:327-344 | ack, nack and extend work only on the latest lease and before its deadline, but for an exhausted lease waiting to be dead-lettered |
| HistoryLaws.ReceiveBound | internal/queue/engine.go:488-498 | under a constant limit k, in a queue nothing dead-letters into, a waiting message has been received fewer than k times and every delivery is the first to k-th |
| Journeys.WasSent | internal/queue/engine.go:213-245 | every message of every world of a run was sent earlier in the run |
| Journeys.CarriesWhatWasSent | internal/queue/engine.go:213-245 | it has the body and time of the last send that issued its ID, a count equal to the deliveries since then or since its last redrive, and waits until its delay is over |
| Journeys.NotBeforeDelay | internal/queue/engine.go:226-228 | no delivery comes before the delay asked for has passed since the send, restarts and compactions included |
| Journeys.LeaseLasts | internal/queue/engine.go:327-344 | a message delivered stays leased under the receipt it was delivered with, until the deadline last asked for, unless it is acknowledged, returned, buried or deleted with its queue |
| Journeys.BuryExactly | internal/queue/engine.go:488-498 | burying is possible exactly for a leased message received at least max_receives > 0 times |
| Journeys.BuriedWhenSpent | internal/queue/engine.go:488-498 | over runs, a message is buried only after at least max_receives > 0 deliveries, and exactly that many where ReceiveBound applies |
| Journeys.KeepsConfig | internal/queue/engine.go:131-155 | a queue keeps the configuration last given to it, through restarts and compactions |
| Journeys.NeverBuried | internal/queue/engine.go:509-539 | nothing is buried out of a queue made without a limit and not configured since, such as those dead-lettering makes |
| Journeys.DeadLettersStay | internal/queue/engine.go:509-539 | so a message in it stays until it is acknowledged or redriven or the queue is deleted |
| Journeys.NothingLost | internal/queue/engine.go:544-551 | a message that a run had and has no more was acknowledged, deleted with its queue, or dropped after max_receives deliveries for want of a dead-letter queue |
| Freshness.NextIdentifiersAreFresh | internal/queue/engine.go:111-118 | the next ID or receipt, before or after a restart, occurs in no record of the log |
| Snapshot.SnapshotLoads | internal/queue/engine.go:666-703 | loading a snapshot succeeds and gives the compacted state |
| Snapshot.NamesSorted | internal/queue/engine.go:669-673 | a snapshot takes the queues in strictly increasing order of names |
| Snapshot.NameLessExactly | internal/queue/engine.go:673-673 | a name is less than another if it is a proper prefix of it or the first characters that differ say so |
| Compaction.CompactedCounter | internal/queue/engine.go:579-604 | the counter of a compacted log is the largest number a live message or lease carries |
| CompactionLaws.CompactionPreserves | internal/queue/engine.go:666-703 | after compaction and a sweep nothing is lost or changed when no message is stale, and the order is kept where positions agree with IDs |
| CompactionLaws.CompactPossible | internal/queue/engine.go:666-703 | in every state of every run the log can be compacted, to the snapshot of what it replays to |
| CompactionLaws.ReachableCompact | internal/queue/engine.go:666-703 | so every run can go on with a compaction, and its records can all be written |
| CompactionLaws.CompactionIsIdempotent | internal/queue/engine.go:666-703 | compacting a compacted state changes nothing |
| CompactionLaws.SnapshotSize | internal/queue/engine.go:676-700 | a snapshot has one record per queue, one per message and one per lease |
| Limits.TightenedRun | internal/queue/engine.go:148-151 | a run after which replay would dead-letter a message the live engine has ready |
| Limits.StaleAfterConfigure | internal/queue/engine.go:148-151 | after a reconfiguration a message of that queue is stale exactly if it is ready and the new limit exhausts its replayed lease, and the others are as they were |
| Limits.TighteningIsExact | internal/queue/engine.go:148-151 | when nothing is stale, a reconfiguration keeps it so exactly if there is no such message |
| Limits.CompactionDropsCounter | internal/queue/engine.go:666-703 | compaction lowers the counter exactly when no live message or lease carries the last number issued |
| Limits.CompactionForgetsIds | internal/queue/engine.go:666-703 | compacting an engine without messages starts the numbers over |
| Limits.ReissuedRun | internal/queue/engine.go:579-604 | a run that sends a message, acknowledges it, and after a compaction sends another under the same ID |
| Stray.StrayRecord | internal/wal/wal.go:103-127 | if a failed append leaves its record in the file, the log with the next record loads exactly if that one does not ask for what the stray one took away |
| Stray.StrayHarmless | internal/wal/wal.go:103-127 | after such a failure and the next record, the log replays to a sound state related to the live one, filing no message twice, exactly if that record overwrites what the stray one says or it says nothing new; the condition is spelled out for each kind of record |
| Stray.RightFromThenOn | internal/queue/engine.go:544-551 | a log that is right stays right whatever is done next |
| Stray.StrayTwin | internal/queue/engine.go:213-245 | a send that failed so and the next one to another queue leave one ID in two queues after a restart |
| Stray.StrayReturnDoubles | internal/queue/engine.go:627-629 | a return that failed so and a second try make replay return a message that is ready already, which files it in the heap twice |
| Stray.StrayAck | internal/queue/engine.go:354-361 | acknowledging again after such a failure makes a log that does not load |
| Limits.ConfigMustBeInRange | internal/queue/engine.go:131-155 | a configuration record replays to that configuration exactly when its values are in range |
| IdOrder.OrderAfter | internal/queue/engine.go:412-539 | FIFO order stays the order of sending exactly through the actions that are no redrive and no dead-lettering into a queue that holds a message sent later |
| IdOrder.RestartOrder | internal/queue/engine.go:544-551 | a restart neither restores that order nor ends it |
| IdOrder.RunIdOrder | internal/queue/message.go:35-48 | in every run FIFO order is the order of sending up to any point exactly if no such redrive or dead-lettering came before it |
| IdOrder.RedrivenRun | internal/queue/engine.go:423-443 | a run in which a redrive ends that order |
| IdOrder.DeadLetteredRun | internal/queue/engine.go:509-539 | a run in which dead-lettering ends it |
| Limits.ShiftBreaksIdOrder | internal/queue/engine.go:435-436 | a redriven message stands behind messages with later IDs, whatever the order was |
| Durability.CrashRecovers | internal/queue/engine.go:80-91 | a crash at any byte of an append loses at most the action in flight, and reopening replays to a related state |
| Durability.AlwaysRecoverable | internal/queue/engine.go:80-91 | the same through any sequence of commits, crashes, reopenings and compactions |
| Durability.PrefixIsEarlier | internal/wal/wal.go:103-127 | every prefix of a run's log, down to where it stood at some point after the last compaction, is the log of a world of the run since then |
| Durability.UnsyncedCrash | internal/wal/wal.go:117-121 | without fsync, whatever bytes survive beyond those once on disk read as the log of an earlier world of the run and replay to a state related to it |
| Lifetimes.CrashedLifeIsRun | internal/queue/engine.go:80-91 | operations, a crash, reopening and more operations are one run, in which no record or time is taken back |
| Lifetimes.GoneForGood | internal/queue/engine.go:347-361 | what has become of a message that is gone is settled, through later operations, crashes and restarts |
| Lifetimes.AckedForGood | internal/queue/engine.go:347-361 | so an acknowledgement that succeeded stands |
| Lifetimes.DeliveriesDistinct | internal/queue/engine.go:106-109 | a receipt handed out once is never handed out again, through later operations, crashes and restarts |
| Lifetimes.CrashLeaves | internal/queue/engine.go:94-99 | what a crash in an operation leaves reads as the log of a world between its beginning and now, which meets all that opening it asks |
| Lifetimes.Reopened | internal/queue/engine.go:80-91 | opening that gives a working engine in the state that this log replays to |
| SweepLaws.SweepIsComplete | internal/queue/engine.go:471-505 | after a sweep all that is due are leases whose dead-letter append failed, unchanged |
| SweepLaws.SweptOutcome | internal/queue/engine.go:474-500 | what a sweep makes of one message, field by field: ready in place when due, moved or dropped when due, leased and received max_receives > 0 times, and else left alone |
| SweepLaws.SweptOutcomes | internal/queue/engine.go:456-539 | the same for all messages, and the queues a sweep has made lease for 30 seconds without a limit |
| SweepLaws.SweepIsOrderFree | internal/queue/engine.go:474-500 | two sweeps in different orders differ at most in the positions of the messages dead-lettered |
| SweepLaws.SweepsCompose | internal/queue/engine.go:471-539 | a sweep at t1 and one at t2 do what the one at t2 does alone, up to those positions |
| QueueSweep.LeasesHold | internal/queue/engine.go:327-344 | a lease still there after its queue was swept is in force, or exhausted and waiting to be dead-lettered |
| QueueSweep.AllQueuesSwept | internal/queue/engine.go:456-467 | sweeping every queue once visits every message |
| QueueSweep.NextRemains | internal/queue/engine.go:456-467 | the time a sweep returns is the least at which anything is still due, 0 exactly if nothing is pending |
| OrderlyLogs.LogsAreOrderly | internal/queue/engine.go:544-645 | the log of every run sends no message that exists and returns or extends only leases |
| Order.GrantAdvances | internal/queue/engine.go:301-315 | a lease takes the first message in line and leaves the others alone |
| Order.ShiftAdvances | internal/queue/engine.go:423-443 | a redriven message goes from the front of one line to the back of the other |
| Order.KeepsPlace | internal/queue/engine.go:366-384 | a message keeps its queue and position through any actions that do not redrive or dead-letter it, so one returned or expired stands where it stood |
| Messages.RootIsLeast | internal/queue/message.go:35-48 | the root of a heap is its least element |
| Messages.QueueState.Up | internal/queue/message.go:37-39 | sifting up restores the heap and permutes the slice |
| Messages.QueueState.Down | internal/queue/message.go:37-39 | sifting down does, or reports that the element may belong higher |
| Messages.QueueState.HeapPush | internal/queue/message.go:40 | pushing adds one message and keeps the heap |
| Messages.QueueState.HeapPop | internal/queue/message.go:41-48 | popping removes a message of least position and keeps the heap |
| Messages.QueueState.HeapRemove | internal/queue/engine.go:649-656 | removing at any index removes that message and keeps the heap |
| Messages.QueueState.PushReady | internal/queue/message.go:86-91 | the message becomes ready, without receipt or deadline, in the heap |
| Messages.QueueState.RemoveReady | internal/queue/engine.go:649-656 | a ready message leaves the heap, any other call changes nothing |
| Messages.QueueState.Broadcast | internal/queue/message.go:80-83 | the old channel is closed and a new one takes its place |
| Store.Store.Transfer | internal/queue/engine.go:524-537 | a pending message leaves its queue and joins the back of another |
| Store.Store.UndoLease | internal/queue/engine.go:311-316 | undoing a lease puts the message back with its count |
| Loading.Apply | internal/queue/engine.go:553-645 | replaying one record in memory gives the state the record leads to, or its error |
| Loading.Load | internal/queue/engine.go:544-551 | replaying a log does, stopping at the first error |
| Machine.Machine.DoPost | internal/queue/engine.go:224-243 | a send files the message, or restores the counter when the append fails; Effects.PostEnqueues says what is filed |
| Machine.Machine.DoGrant | internal/queue/engine.go:301-322 | the delivery has the body and time of sending, the count plus one and a new receipt; the lease is logged and pending or, when the append fails, undone but for the counter |
| Machine.Machine.DoSettle | internal/queue/engine.go:354-361 | an acknowledged message is deleted, or nothing happens |
| Machine.Machine.DoReturn | internal/queue/engine.go:376-381 | a returned message is ready again, or nothing happens |
| Machine.Machine.DoProlong | internal/queue/engine.go:398-407 | the deadline moves to a clock reading plus the visibility, or nothing happens |
| Machine.Machine.DoBury | internal/queue/engine.go:521-538 | a message is dropped or moved to its dead-letter queue, or nothing happens |
| Machine.Machine.DoShift | internal/queue/engine.go:428-442 | the first ready message moves to the back of the target, or goes back |
| Machine.Machine.DoDelete | internal/queue/engine.go:159-172 | the queue goes with its messages and its channel is closed, or nothing happens |
| Waiting.ActHeeded | internal/queue/engine.go:265-291 | an action can strand waiters only of the queue where it makes a message ready |
| Waiting.BroadcastHeeded | internal/queue/message.go:80-83 | a broadcast leaves no waiter of that queue stranded |
| Engine.Engine.DeadLetter | internal/queue/engine.go:509-539 | the message goes to the back of the dead-letter queue, made with 30 seconds and no limit if needed, or for good if there is none; a failed append undoes only its own step |
| Engine.Engine.Visit | internal/queue/engine.go:474-500 | settles one pending message as a sweep must: ready in place, gone if received max_receives > 0 times, left alone if not due or its append failed; goes on with the run |
| Engine.Engine.SweepQueue | internal/queue/engine.go:471-505 | does so with every pending message of a queue in any order, going on with the run, and returns the least later due time |
| Engine.Engine.Sweep | internal/queue/engine.go:456-467 | does so with every message of every queue, going on with the run, makes only default queues, and returns the least later due time |
| Engine.Engine.LookupLease | internal/queue/engine.go:327-344 | sweeps the queue, going on with the run, and finds the lease exactly if the message is there, leased, and under that receipt, with one error for each way to fail; a lease in force is found |
| Engine.Engine.Ack | internal/queue/engine.go:347-363 | exactly a message leased under that receipt is removed, unless the append fails, and nothing else changes; each other case has its error and changes nothing |
| Engine.Engine.Nack | internal/queue/engine.go:366-384 | exactly a message leased under that receipt is ready again with its count if that is below max_receives or there is no limit, and goes to its dead-letter queue or for good if not; with every error case |
| Engine.Engine.Extend | internal/queue/engine.go:388-409 | exactly a message leased under that receipt gets a new deadline, for up to 12 hours; with every error case |
| Engine.Engine.CreateQueue | internal/queue/engine.go:131-155 | gives the queue this configuration, its messages kept, and changes nothing else; refuses bad names and self dead-lettering |
| Engine.Engine.DeleteQueue | internal/queue/engine.go:159-172 | removes the queue with its messages and nothing else, and closes the channel its waiters are parked on |
| Engine.Engine.Send | internal/queue/engine.go:213-246 | files the body under the next ID at the back of the line, or to wait until the delay of up to 15 minutes is over, and changes nothing else; with every error case |
| Engine.Engine.Lease | internal/queue/engine.go:296-324 | leases one message after the other until max, none left, or a failed append, each handed out with its body, time, count and receipt and leased for the time given or the queue's own |
| Engine.Engine.Receive | internal/queue/engine.go:252-292 | one pass of a receive: sweep, hand out as Lease does, and park if there is nothing and the caller waits; with every error case |
| Engine.Engine.Redrive | internal/queue/engine.go:412-448 | moves one message after the other until max, none left, or a failed append |
| Machine.Machine.Append | internal/queue/engine.go:94-99 | the record is in the log or refused, and whatever a crash leaves meanwhile reads as the log of a world of this run since it was marked |
| Engine.Engine.CrashSafe | internal/queue/engine.go:94-99 | at any point of an operation the world continues the run it began in, and whatever a crash could have left meanwhile reads as the log of a world on the way; every operation's contract says so of its whole course |
| Engine.Engine.Snapshot | internal/queue/engine.go:666-703 | the loops over sorted queues and messages give exactly the snapshot of the state |
| Collecting.Collect | internal/queue/engine.go:666-703 | the same for the queues in memory |
| Engine.Engine.NoLostWakeup | internal/queue/engine.go:265-291 | a channel with parked waiters is closed or belongs to a queue with no ready message, but for the channels a redrive that failed midway did not close |
| EngineLaws.RedriveAloneLosesWakeup | internal/queue/engine.go:423-443 | after a redrive that moved messages and did not broadcast, whoever is parked at the target misses a message |
| Engine.Open | internal/queue/engine.go:80-91 | opening what a crash left gives an engine in the state the surviving records replay to, or an error that keeps every record; a crash meanwhile loses nothing |
| Engine.Compact | internal/cli/cli.go:177-204 | compacting a stopped server's log leaves a log that reopens as the compacted state; a crash or an error at any moment leaves a log that reads as the old one or that one |
| EngineLaws.ReceiveIsFifo | internal/queue/engine.go:296-324 | a receive leases exactly the first min(max, ready) messages in order and leaves every other alone |
| EngineLaws.RedriveIsSplice | internal/queue/engine.go:412-448 | a redrive takes the first min(max, ready) messages, in order, behind every ready message of the target, counts reset, at the next positions; after a failure exactly those moved so far |
| EngineLaws.ReadyLine | internal/queue/message.go:35-48 | the ready messages of a queue form a line by position |
| EngineLaws.DeliveredAsSent | internal/queue/engine.go:296-324 | over runs, a delivery hands out the body and the time of the send that issued its ID and its number among the deliveries since, and not before the delay is over |
| EngineLaws.LookSettles | internal/queue/engine.go:471-505 | the sweep an operation begins with settles every message of its queue, field by field, and leaves those of other queues alone |
| EngineLaws.ReceiptAccepted | internal/queue/engine.go:327-344 | over runs, the receipt of the latest delivery presented before its deadline names the lease, unless the message was acknowledged, returned, buried or deleted with its queue |

## Left out

- Counter wrap-around: the counter is unbounded; `Ids.SixteenDigits` says where 64 bits end.
- Times finer than a millisecond, and clocks that run backwards: the log floors times to milliseconds, so finer live times do not replay exactly.
- Wal.Log.Append: models a failed append as leaving the file alone, and an append that succeeded as being on disk; the code can also fail after bytes have reached the file, of which `Stray.StrayHarmless` says when a whole record does no harm, and with `--no-fsync` it need not be on disk, of which `Durability.UnsyncedCrash` says what is left. A write that fails midway leaves part of a record; the library's buffered writer then refuses all later ones, so that part is a torn tail.
- Engine.Engine.CreateQueue: requires a configuration within ParseConfig's ranges, which is what the server passes; the code itself does not check them, and `Limits.ConfigMustBeInRange` says that they are needed.
- Engine.Open: covers the logs that a run left behind, torn or not, and the corrupt ones that cannot be read at all.
- Engine.Compact: covers the same logs.
- Config.ConfigRoundTrip: leaves out the JSON text of a configuration and the printing of durations.
- Engine.Engine.Receive: models one pass under the lock; the loop around it, its timer and its context are not modelled, so waiters are the set of channels they are parked on.
- Loading.Load: covers logs the engine writes; hand-edited logs, such as ones that send an ID twice, are replayed by the value `Replay.Load` but not in memory.
- Record.BodyRoundTrip: `SetBody` returns the changed record where the code assigns fields of its receiver.
- JSON text, names matched by regular expression and the printing of durations are standard-library behaviour, represented by the codec and by `ValidName`.
- Collecting.Collect: sorts by repeatedly taking the least name and the oldest message; the code calls the library's sort, whose result is the same as the order is strict.
- Message counts and the totals of `Stats`, which compaction changes; histories of outcomes take their place.
- HTTP handlers, the command line, the sweeper goroutine and mutexes: every operation is one atomic call.
- The file system beyond byte sequences with append, truncate and atomic rename.
