# EntraShift, modelled and proved

EntraShift moves users' mailboxes and drives from one tenant to another. A control plane (a Worker over a D1
database) keeps one row per job and sends dispatch messages through a queue; one engine leases the messages, runs a
resumable migrator, reports status and checkpoints, and acks. This project models that system's logic in Dafny and
proves what it keeps over whole runs, and, where it does not keep what its comments promise, exactly when it does.

`dafny verify dfyconfig.toml` checks everything; it takes about two minutes.

## Layout

| files | what they model |
|---|---|
| `Wrappers`, `Jobs`, `JobTable` | the job row, its atomic updates, and the table whose rows are functions of their histories |
| `Protocol`, `ProtocolOutcomes`, `ProtocolStatuses` | dispatch, lease, status and ack as a step relation; when a cancellation stands and a dispatch is worked off; which status each exit writes |
| `Worker` | `_handle` as written, refining that relation |
| `Replies` | what can happen to a request: answered, failed (perhaps applied), or the process killed |
| `OneDrive`, `OneDriveProofs`, `OneDriveTree`, `OneDriveFates` | the drive migrator, resuming by file; completeness, counters, folder tree; what a failing file does to the run |
| `Exchange`, `ExchangeProofs`, `ExchangeResume`, `ExchangeLinks`, `ExchangeCounts` | the mailbox migrator, resuming by folder; item accounting, crash resume; whose folder link is kept; what records and bytes stand for |
| `Spacing`, `Throttle`, `Governor` | permits, the sliding window, the watermark controller, rate of adjustment |
| `GraphClient`, `ItemRetries` | the bounded retry loop and the import retry loop on top of it; the item loop of `Exchange` is that loop |
| `RateLimits`, `Completion` | request and progress floors; when the floor lets a finished pass be reported completed |
| `Budget` | the free-tier counters and their degrade flag |
| `Csv`, `CsvImport`, `CsvLines` | CSV text, import validation, and the lines of the file it reports |
| `Passwords`, `PasswordChoices`, `Audit` | unbiased shuffles and picks, and which passwords there are; paged export |

Code that changes state is a class or a method proved equal to a specification function; the properties are lemmas
about those functions and about every run built from them. The engine's environment (replies, stops, crashes, times)
is a parameter, so "for every script" is "whatever the outside world does". `Protocol` is a step relation because its
safety depends on interleavings; `Worker.EngineWorker` then runs the code of `_handle` in its own order and shows that
every request it makes is the step the relation allows there.

## Where the code and its promises part

Each of these is kept as the code has it and shown by a lemma, beside the lemma that says exactly when the promise holds.

- A failed last-resort status write is acked all the same, and the job is stranded (`Protocol.LostLastResortStrands`,
  exact condition `Protocol.LastResortExact`).
- A cancellation accepted while the engine works is overwritten by the next progress write and the job completes
  (`Protocol.CancelOverwritten`). It is lost exactly by a new dispatch or by an applied write for the job that says anything
  but cancelled (`ProtocolOutcomes.CancelStaysIff`). It is sure to stand until the next dispatch if and only if it was accepted
  while no message of the job was in hand past its fetch (`ProtocolOutcomes.CancelStandsIff`); every message claimed meanwhile
  is then acked as stale (`ProtocolOutcomes.CancelStands`). A poll that has seen it does not change this: the handling leaves
  the `try` normally only as cancelled (`ProtocolOutcomes.PolledCancelEnds`), and it ends so if and only if since the poll the
  engine did not die and no request of it raised or went unanswered (`ProtocolOutcomes.PolledCancelIff`); by another exit the
  job ends as failed or backs off, and reads whatever was written last (`ProtocolOutcomes.LastWriteDecides`).
- A dispatch can be swallowed: its message is acked as stale with no work done, after the ack of an older message failed
  (`Protocol.ReissueSwallowed`) or with every request succeeding (`Protocol.ReissueWhileWorking`). As long as the user then
  leaves the job to the engine, it is safe from that exactly if, at the UI write, no older message of the job is queued or owed
  and none is in hand for the last resort (`ProtocolOutcomes.ServedIffClear`). `dispatch_seq` makes every dispatch distinct
  (`Protocol.DispatchIsNew`), but nothing in the engine compares it.
- A graceful stop makes the drive migrator return COMPLETED with files left over (`OneDriveProofs.StoppedRunForgets`,
  exact set in `OneDriveProofs.CompletedAccountsExactly`) and persist the new delta link all the same, so that delta passes
  never see those files (`OneDriveProofs.StoppedLinkForgets`, exact condition `OneDriveProofs.LinkCoversIff`). It makes the
  mailbox migrator mark a half-done folder as done, and on a delta pass keep the link past its missed changes
  (`ExchangeResume.StoppedFolderForgotten`, exact condition `ExchangeProofs.FolderCompleteIff`).
- A mid-run drive checkpoint carries a stale `items_done` with fresh counters, so a crash re-copies and counts twice
  (`OneDriveProofs.UncleanRunRecopies`). From an exact checkpoint a handling leaves an exact one if and only if it copied
  nothing or some flush took effect after the list was written back (`OneDriveProofs.HandledExactIff`, over chains
  `OneDriveProofs.CleanChainIff`). `items_done` is also consulted in delta passes, so a changed file is not copied again
  (`OneDriveProofs.DoneNeverRecopied`).
- A mailbox checkpoint can be persisted without the item records of the folders it calls done: after a crash between the two
  flushes (`ExchangeResume.CrashLosesRecords`), and with every request answered after a stop seen between two mailboxes, whose
  running status skips the item flush (`ExchangeResume.StopLosesRecords`). One setting decides: whatever a handling of a full
  pass meets, but a stop inside a folder, it keeps the items of done folders imported or reported if and only if
  `item_log_flush_size` is one (`ExchangeResume.LosslessIff`), and a resumed pass that completes has dealt with every item if
  and only if it is (`ExchangeResume.ResumeCompletenessIff`); the default is 100. For larger sizes,
  `ExchangeResume.HandledDeliversIff` says which unsent records are the loss, and `ExchangeResume.UnsentIs`, for every way a
  run can end, which records are left unsent. A batch of records whose send fails is dropped
  (`OneDrive.Migrator.SendItems`, `Exchange.Migrator.SendItems`).
- control_plane.py:112-113 says that hitting the progress floor is no job failure, but nothing catches it inside a pass: a
  pass in which all else succeeds is reported completed if and only if both its forced reports get past the floor, and failed
  otherwise (`Completion.CompletedIff`, `Completion.MailCompletedIff`). They do so if and only if each keeps the minimal
  interval from every accepted report of the job before it, heartbeats included (`Completion.BothPassIff`). So a pass fails
  that closes too soon after its opening report or any accepted heartbeat, however long it lasted
  (`Completion.QuickPassFails`, `Completion.LateBeatFails`), or opens too soon after an earlier report
  (`Completion.QuickRestartFails`). A pass that closes right after a heartbeat can be reported completed only in a window as
  narrow as the difference of two request times (`Completion.ClosingAfterBeat`), and the engine's own floor does not even keep
  unforced reports from being refused (`Completion.FloorsDisagree`).
- One folder link is kept for all mailboxes of a job: that of the last one walked to its end, and none of a mailbox in which a
  stop was seen (`ExchangeLinks.LinkChangesIff`, exact value `ExchangeLinks.ReturnedLink`). So of a primary and an archive
  mailbox the link of the first is lost, and a delta pass begins both from the other's.
- `Retry-After` is capped by the maximal backoff (`GraphClient.RetryAfterCapped`, bounds in `GraphClient.SleepBounds`).
- The degrade flag is wrong for a day when a call straddles midnight (`Budget.MidnightFlagsWrongDay`): over any run the flags
  are sound if and only if no call writes its flag to a day whose counters reach no threshold (`Budget.SoundIff`). A flag once
  wrong can even end up clear over a threshold with no call in flight (`Budget.LeftUnflagged`, exact condition
  `Budget.CoveredIff`); without such a write it is exactly the threshold (`Budget.FlagExact`).
- The audit cursor skips rows that tie with the last row of a page (`Audit.ExportComplete` is an equivalence).
- `generateTempPassword` never ends for lengths beyond 256 (`Passwords.FinishesUpTo256` is an equivalence).
- CSV text that starts with U+FEFF, and rows without cells, do not survive a round trip (`Csv.RoundTrip` is an equivalence).
- The number of a rejected import row need not be its line of the file, whatever csv.ts:124 says
  (`CsvLines.BlankRowShifts`). It is if and only if no blank row and no line end inside quotes comes before the row
  (`CsvLines.RejectLineIff`).
- `retry` keeps the end stamp of the attempt before, so a running job can carry one (`JobTable.RetryKeepsEndStamp`), and a job
  created again keeps the phase text of its earlier life although db/jobs.ts:132 says stale run state is wiped
  (`JobTable.RecreateKeepsPhaseText`). `JobTable.RowIsHistory` says for each column what it holds after any writes.

## Model

| member | source | states |
|---|---|---|
| Protocol.StepKeepsInv | engine/entrashift_engine/worker.py:161-305 | every step of UI, queue and engine, except a lost last-resort write, keeps: no job stranded, and the message in hand still queued unless its job no longer needs it |
| Protocol.NoStrandedJob | engine/entrashift_engine/queue_consumer.py:12-18 | in every run whose last-resort writes reach the table, a job with a non-terminal status has an un-acked message or an owed send, through every crash, redelivery and interleaved UI request |
| Protocol.LastResortExact | engine/entrashift_engine/worker.py:291-301 | a failed last-resort write and the ack after it leave a job stranded if and only if the write was lost, the row was not terminal and the job has no other message |
| Protocol.LostLastResortStrands | engine/entrashift_engine/worker.py:291-305 | a reachable run in which one lost last-resort write strands a job |
| Protocol.DispatchIsNew | worker/src/routes/jobs.ts:69-88 | create, retry and delta each add exactly one owed message, different from every queued, owed or held one, in every run |
| Protocol.NormalExitStatus | engine/entrashift_engine/worker.py:226-252 | in every run the status written on the normal way out is CANCELLED if a cancellation was observed and COMPLETED otherwise, never a running one; that a running status is returned only after a stop or a cancellation was seen is `ExchangeProofs.StoppedIsSeen` |
| Protocol.EveryAckJustified | engine/entrashift_engine/worker.py:191-197 | every ack in the history of a run follows, in the same handling, a terminal status read, a terminal status write, or the attempt of the last resort |
| Protocol.RunKeepsBase | engine/entrashift_engine/job_context.py:91-114 | facts every run keeps with no assumption: stop and cancelled decide the returned status, messages never outrun the row's sequence number, queued and owed are disjoint |
| Protocol.CancelOverwritten | worker/src/routes/jobs.ts:116-122 | a reachable run in which an accepted cancellation is overwritten and the job completes |
| Protocol.ReissueSwallowed | worker/src/db/jobs.ts:124-153 | a reachable run in which a re-issued job ends as failed and its new message is acked as stale without any work |
| Protocol.ReissueWhileWorking | engine/entrashift_engine/worker.py:191-197 | the same with every request succeeding: a job issued again while the engine works on it ends as completed, and the new message is acked as stale |
| ProtocolOutcomes.CancelLostExactly | worker/src/db/jobs.ts:156-225 | a step takes the status away from cancelled if and only if it dispatches the job or is an applied write for it that says anything else |
| ProtocolOutcomes.CancelStaysIff | worker/src/routes/jobs.ts:116-122 | an accepted cancellation stays throughout a run if and only if no such step is in it |
| ProtocolOutcomes.SettledUntilDispatch | engine/entrashift_engine/worker.py:189-197 | a cancellation no engine in hand can overwrite stays so in each step, unless the job is dispatched |
| ProtocolOutcomes.CancelStands | engine/entrashift_engine/worker.py:189-197 | accepted while no message of the job is in hand past its fetch, it stays until the next dispatch, the engine writes the job no more, and messages claimed meanwhile are acked only as stale |
| ProtocolOutcomes.CancelStandsIff | worker/src/routes/jobs.ts:116-122 | no run without a dispatch of the job loses the cancellation if and only if no message of the job was in hand past its fetch when it was accepted |
| ProtocolOutcomes.PolledCancelEnds | engine/entrashift_engine/worker.py:231-235 | once a poll has seen the cancellation, that handling leaves the try normally only as cancelled: any status written on that way is CANCELLED, and a normal ack comes right after that write |
| ProtocolOutcomes.PolledCancelIff | engine/entrashift_engine/worker.py:226-305 | such a handling ends with that write and the answered normal ack if and only if since the poll the engine did not die and no request of it raised or went unanswered |
| ProtocolOutcomes.LastWriteDecides | worker/src/db/jobs.ts:156-225 | as long as the user leaves the job alone it reads the last status the engine wrote with effect, whatever exit that write belongs to |
| ProtocolOutcomes.OpenUntilExactly | worker/src/db/jobs.ts:156-178 | an open job is ended exactly by a cancel request or by an applied terminal write of an engine holding a message of it |
| ProtocolOutcomes.ClearIsServed | worker/src/routes/jobs.ts:69-88 | dispatched with no older message queued or owed and none in hand for the last resort, and then left to the engine, a message is never acked as stale before its own handling has ended the job |
| ProtocolOutcomes.SwallowedByOlder | engine/entrashift_engine/worker.py:191-197 | from any dispatch beside an older message, a run that acks the new one as stale without work |
| ProtocolOutcomes.SwallowedByLastResort | engine/entrashift_engine/worker.py:291-301 | the same from a dispatch while the engine is about to write FAILED for an older message |
| ProtocolOutcomes.ServedIffClear | worker/src/routes/jobs.ts:69-88 | no run swallows the dispatched message if and only if that condition holds at the UI write |
| ProtocolStatuses.RunningTellsPass | engine/entrashift_engine/worker.py:216-224 | over every run: where the history has `running` written for a job, the message claimed last before it is of that job and of a full pass, and where it has `delta_running`, of a delta pass |
| ProtocolStatuses.OwesPass | worker/src/routes/jobs.ts:69-122 | a message is owed only by a create, retry or delta request of its job, and its pass is delta exactly if it was a delta request |
| ProtocolStatuses.MessagesWereOwed | worker/src/routes/jobs.ts:69-122 | over every run each message queued, owed, in hand or ever claimed was owed by such a step |
| ProtocolStatuses.RunningWasAsked | engine/entrashift_engine/worker.py:216-224 | no job is ever reported `delta_running` without a delta request of it, nor `running` without a create or retry request |
| ProtocolStatuses.StatusByCause | engine/entrashift_engine/worker.py:219-305 | over every run, each write sets the status of its exit: the running status of the claimed pass, then cancelled or completed, while nothing went wrong; backing_off after throttling, the status of the Graph error after one, failed after anything else, a lost answer included |
| ProtocolStatuses.ErrorByCause | engine/entrashift_engine/worker.py:254-301 | the migrator's reports and the one before backing off keep the error columns and stamp the progress; every other write names an error exactly if something went wrong, and clears it otherwise |
| ProtocolStatuses.ThrottledHandsBack | engine/entrashift_engine/worker.py:254-265 | after throttling a handling ends only by releasing the lease of its own message, which stays queued, unless the process dies |
| ProtocolStatuses.DeferredIff | engine/entrashift_engine/worker.py:231-245 | after the final flush the job is left to a redelivery if and only if a stop is set, no cancellation was seen and the pass is not completed |
| ProtocolStatuses.OwnersUnique | worker/src/db/jobs.ts:124-153 | over every run no two rows are of one user and workload |
| ProtocolStatuses.OwnersStay | worker/src/db/jobs.ts:124-267 | no step changes whose row a row is, and a create request reaches the one of its user and workload |
| ProtocolStatuses.RetryableIff | worker/src/routes/jobs.ts:23-24 | a retry is accepted exactly for the terminal statuses but completed and cancelled, which are those a Graph error can leave, failed included |
| Worker.EngineWorker.Handle | engine/entrashift_engine/worker.py:161-305 | handling a message, whatever its requests are answered and others do meanwhile, is a part of a protocol run; it takes no other message off the queue, ends idle unless the process dies, and with every request answered its history is: the status read, then a stale ack alone, or the running writes, the end status and the ack, or a job left because of a stop; which running status that is, and the status of every exit, is `ProtocolStatuses.RunningTellsPass` and `ProtocolStatuses.StatusByCause` |
| Worker.EngineWorker.Work | engine/entrashift_engine/worker.py:219-252 | what is under the inner try ends idle with the job worked off or left because of a stop, or raises at exactly the point from which the protocol recovers from that exception |
| Worker.EngineWorker.Conclude | engine/entrashift_engine/worker.py:228-252 | after the flush: CANCELLED if a cancellation was observed, COMPLETED otherwise, written and then acked; nothing written and no ack only under a stop |
| Worker.EngineWorker.RunMigrator | engine/entrashift_engine/worker.py:307-323 | a migrator's reports, polls and end add nothing but running statuses of its job to the history, `delta_running` for a delta pass and `running` for a full one by `ProtocolStatuses.RunningTellsPass` |
| Worker.EngineWorker.Serve | engine/entrashift_engine/worker.py:189-305 | a terminal row is acked as stale and nothing else happens; otherwise the job is worked on and what it raises is recovered |
| Worker.EngineWorker.Recover | engine/entrashift_engine/worker.py:254-305 | each exception class takes its own exit with exactly that exit's writes and ack |
| Worker.EngineWorker.BackOff | engine/entrashift_engine/worker.py:254-265 | the throttle exit adds the backing_off write, if it takes effect, and no ack; no message leaves the queue |
| Worker.EngineWorker.Fail | engine/entrashift_engine/worker.py:267-289 | the Graph error exit writes its terminal status and acks if and only if that write was answered |
| Worker.EngineWorker.LastChance | engine/entrashift_engine/worker.py:291-305 | the generic exit tries its write and then acks, whatever became of the write, unless the process dies |
| Worker.EngineWorker.HandleAll | engine/entrashift_engine/worker.py:144-148 | the first n pulled messages are claimed in order, one at a time, and no other; the rest stay queued and are left only for a stop or a dead process; if every last-resort write lands, no job is stranded afterwards |
| Worker.EventsTell | engine/entrashift_engine/worker.py:267-305 | what a request adds to the history: a write what took effect, answered or not; an ack or a last-resort attempt even if refused |
| JobTable.RowIsHistory | worker/src/db/jobs.ts:124-267 | after any writes each field of a row is read off the history: the sequence number counts all dispatches, the others only what happened since the last create |
| JobTable.RetryKeepsEndStamp | worker/src/db/jobs.ts:242-253 | a failed, retried and running job still carries the end time of the failed attempt |
| JobTable.RecreateKeepsPhaseText | worker/src/db/jobs.ts:132-147 | a job created again still shows the phase text reported before |
| JobTable.Table.Find | worker/src/db/jobs.ts:129 | the conflict target: the one row of a user and workload is found if there is one |
| JobTable.Table.Create | worker/src/db/jobs.ts:124-153 | insert, or reset of the existing row, totals included, with the next sequence number; rows stay unique per user and workload and stay their history |
| JobTable.Table.UpdateStatus | worker/src/db/jobs.ts:156-178 | one row changes, the table stays its history |
| JobTable.Table.UpdateProgress | worker/src/db/jobs.ts:181-225 | of one row the status, the two counters and the stamps are set, and phase text, totals and delta token only if the request has them; the table stays its history |
| JobTable.Table.UpdateCheckpoint | worker/src/db/jobs.ts:228-239 | one row changes, the table stays its history |
| JobTable.Table.PrepareRetry | worker/src/db/jobs.ts:242-253 | the row is re-queued and the new sequence number returned, 0 for a missing job |
| JobTable.Table.PrepareDelta | worker/src/db/jobs.ts:256-267 | the row waits for a delta pass and the new sequence number is returned, 0 for a missing job |
| OneDrive.Migrator.constructor | engine/entrashift_engine/job_context.py:71-83 | a run starts from the persisted checkpoint alone, with an empty buffer |
| OneDrive.Migrator.SendItems | engine/entrashift_engine/job_context.py:178-184 | the buffer is emptied before the send, whatever becomes of the send |
| OneDrive.Migrator.FlushStore | engine/entrashift_engine/checkpoint.py:126-134 | the in-memory checkpoint becomes the persisted one if the write takes effect |
| OneDrive.Migrator.Beat | engine/entrashift_engine/job_context.py:188-203 | checkpoint, item records, cancel poll and progress in this order, cut short by the first that raises |
| OneDrive.Migrator.EnsureDestFolder | engine/entrashift_engine/onedrive/migrator.py:190-215 | a folder is created under the image of its parent, the root if the parent is unmapped, and mapped only on success |
| OneDrive.Migrator.CopyFileWithRetries | engine/entrashift_engine/onedrive/migrator.py:219-253 | tries until one succeeds, is fatal or the budget is spent; then a record, or AUTH_EXPIRED if the last try was a rejected token; the exact fate is `OneDriveFates.SettledFate` and `OneDriveFates.UnsettledFate` |
| OneDrive.Migrator.ApplyEnumeration | engine/entrashift_engine/onedrive/migrator.py:151-186 | folders shallow first, then files, each loop ended early by a stop |
| OneDrive.Migrator.RunPass | engine/entrashift_engine/onedrive/migrator.py:75-115 | the whole run, with the write-back of items_done on every way out but a kill |
| OneDriveProofs.ChainDurable | engine/entrashift_engine/onedrive/migrator.py:81-105 | after any chain of runs, persisted items_done names only files really copied, and progress_current is at least its size |
| OneDriveProofs.CompletedAccountsExactly | engine/entrashift_engine/onedrive/migrator.py:99-115 | a run that returns COMPLETED adds to the copied and recorded files exactly those it reached before the first stop |
| OneDriveProofs.ResumeCompleteness | engine/entrashift_engine/onedrive/migrator.py:75-115 | after any chain of runs however cut short, an unstopped COMPLETED run leaves every enumerated file copied or recorded as FAILED |
| OneDriveProofs.StoppedRunForgets | engine/entrashift_engine/onedrive/migrator.py:171-175 | a stopped run returns COMPLETED with a file neither copied nor recorded |
| OneDriveProofs.LinkCoversExactly | engine/entrashift_engine/onedrive/migrator.py:97-114 | whenever a handling, however it ended, changes the persisted delta link, it has accounted for exactly the files it reached before the first stop |
| OneDriveProofs.LinkCoversIff | engine/entrashift_engine/onedrive/migrator.py:97-114 | of new files the persisted link stands for all if and only if the pass reached them all |
| OneDriveProofs.StoppedLinkForgets | engine/entrashift_engine/onedrive/migrator.py:97-103 | a stopped pass persists its link with the file neither copied nor recorded |
| OneDriveProofs.CleanChainIff | engine/entrashift_engine/checkpoint.py:113-134 | over any chain of runs items_done stays exactly the copied files, progress_current their number and no file copied twice, if and only if every run copied nothing or flushed after the write-back |
| OneDriveProofs.HandledExactIff | engine/entrashift_engine/worker.py:226-289 | one handling keeps that exactness if and only if it copied nothing or a flush after the write-back took effect, whichever way it ended |
| OneDriveProofs.UncleanRunRecopies | engine/entrashift_engine/onedrive/migrator.py:104-105 | a run that flushes mid-way and then fails makes the next one copy the file again and count it twice |
| OneDriveProofs.DoneNeverRecopied | engine/entrashift_engine/onedrive/migrator.py:176-177 | a file in persisted items_done is never copied by any later run, delta passes included |
| OneDriveTree.ByDepthSorts | engine/entrashift_engine/onedrive/migrator.py:167 | the folder list is a permutation in order of depth |
| OneDriveTree.ChildIsDeeper | engine/entrashift_engine/onedrive/migrator.py:408-413 | one more path segment after root: is one more depth, so parents sort first |
| OneDriveTree.CopyFoldersTree | engine/entrashift_engine/onedrive/migrator.py:167-171 | the folder loop, however it ends, hangs every mapped folder below the image of its source parent |
| OneDriveTree.MappedHasImage | engine/entrashift_engine/onedrive/migrator.py:197-198 | a mapped folder's whole chain of ancestors matches the source up to the root |
| OneDriveTree.TreePreserved | engine/entrashift_engine/onedrive/migrator.py:190-215 | in every chain of runs the folder maps are images of the source tree and every copied file lies under the image of its source folder |
| OneDriveFates.SettledFate | engine/entrashift_engine/onedrive/migrator.py:219-235 | by the first try that is not repeated: a success is one upload under the image of the parent and the loop goes on; a revoked permission or a full quota raises its own error, anything else its own exit, with nothing uploaded and nothing recorded |
| OneDriveFates.UnsettledFate | engine/entrashift_engine/onedrive/migrator.py:236-253 | if all item_max_retries + 1 tries fail in a way worth retrying: AUTH_EXPIRED if the last was a rejected token, otherwise exactly one record |
| OneDriveFates.SettledOrNot | engine/entrashift_engine/onedrive/migrator.py:219-253 | one of the two is the case |
| OneDriveFates.FilesEnd | engine/entrashift_engine/onedrive/migrator.py:173-186 | the file loop raises a Graph error if and only if the file at which it ends, not done before, meets that fate |
| OneDriveFates.RunEndsIff | engine/entrashift_engine/onedrive/migrator.py:75-115 | so does the run, its write-back and closing requests notwithstanding |
| OneDriveFates.CompletedMetNone | engine/entrashift_engine/onedrive/migrator.py:75-115 | a run that returns COMPLETED met no fatal, unexpected or deadly try on any file it reached and had not done |
| OneDriveFates.FatalNamesStatus | engine/entrashift_engine/worker.py:267-289 | the handler takes such an error to its own exit, whose write gives the job the status of the error |
| OneDriveFates.CancelEnds | engine/entrashift_engine/job_context.py:91-114 | no file after one whose heartbeat saw a cancellation is looked at |
| OneDriveFates.WhyEnded | engine/entrashift_engine/onedrive/migrator.py:173-175 | a file loop that returns before its last file has seen a stop there or a cancellation before |
| OneDriveFates.LoopKeepsFewWaiting | engine/entrashift_engine/job_context.py:196-201 | between two files fewer item records wait than item_log_flush_size |
| OneDriveFates.RunBytes | engine/entrashift_engine/onedrive/migrator.py:176-186 | the byte counter of a run, however it ends, is the persisted one and the sizes of exactly the files it copied |
| Exchange.ExportItems | engine/entrashift_engine/exchange/exporter.py:56-117 | the response is split into items and errors in order; no ids are no request, too many are refused |
| Exchange.Migrator.LogErrors | engine/entrashift_engine/exchange/migrator.py:333-340 | one SKIPPED record for each export error, in order |
| Exchange.Migrator.SendItems | engine/entrashift_engine/job_context.py:178-184 | the buffer is emptied before the send, whatever becomes of the send |
| Exchange.Migrator.Beat | engine/entrashift_engine/job_context.py:188-203 | as for a drive |
| Exchange.Migrator.ImportWithRetries | engine/entrashift_engine/exchange/migrator.py:352-402 | tries until one succeeds, is fatal or the budget is spent; then a record, or AUTH_EXPIRED if the last try was a rejected token |
| Exchange.Migrator.ProcessExportBatch | engine/entrashift_engine/exchange/migrator.py:317-350 | export, errors logged, items imported one by one and counted on success only |
| Exchange.Migrator.MigrateChunks | engine/entrashift_engine/exchange/migrator.py:271-282 | chunk by chunk with a heartbeat after each, ended early by a stop |
| Exchange.Migrator.MigrateFolder | engine/entrashift_engine/exchange/migrator.py:174-197 | skip if done on a full pass, else create, migrate, mark done, beat |
| Exchange.Migrator.MigrateMailbox | engine/entrashift_engine/exchange/migrator.py:160-203 | the folders in feed order; the folder link is kept only if no stop was seen, exactly as `ExchangeLinks.OneMailboxLink` and `ExchangeLinks.LinkChangesIff` say |
| Exchange.Migrator.RunPass | engine/entrashift_engine/exchange/migrator.py:78-122 | the whole run: the running status on a stop between mailboxes, COMPLETED otherwise |
| ExchangeProofs.ChunksPartition | engine/entrashift_engine/exchange/exporter.py:120-123 | the chunks are the ids in order, none empty, all full but perhaps the last |
| ExchangeProofs.ChunkItemIdsPartition | engine/entrashift_engine/exchange/exporter.py:120-123 | for any positive size the chunks hold all ids in order, each as long as asked for but at most 20, only the last perhaps shorter; a size of zero is an error, and a negative one drops every id |
| ExchangeProofs.SplitKeeps | engine/entrashift_engine/exchange/exporter.py:77-117 | the split of a response loses no entry and invents none |
| ExchangeProofs.CompletedAccountsExactly | engine/entrashift_engine/exchange/migrator.py:252-286 | any COMPLETED run, stopped or not, imported or logged exactly the export entries it was answered, each once; its records were all sent in order, and progress grew by its imports alone |
| ExchangeProofs.RunSound | engine/entrashift_engine/job_context.py:178-184 | however a run ends, what it sent is what it logged first, in order, and unless a send failed the rest is in the buffer |
| ExchangeProofs.FolderCompleteIff | engine/entrashift_engine/exchange/migrator.py:174-197 | a folder pass that returns marks the folder done, on a full pass, and records the item delta link in any case; it dealt with all the items that link stands for if and only if no stop was seen before its last chunk |
| ExchangeProofs.FolderImportsLand | engine/entrashift_engine/exchange/migrator.py:227-277 | however a folder pass ends, all its imports went to the folder its source folder is mapped to, in the mode of the pass, and no folder is mapped anew |
| ExchangeProofs.StoppedIsSeen | engine/entrashift_engine/exchange/migrator.py:100-103 | a run that returns a running status has seen a stop request or a cancellation |
| ExchangeResume.UnstoppedRunAccounts | engine/entrashift_engine/exchange/migrator.py:160-203 | an unstopped COMPLETED run, given one export entry per id: items due = successes + sent records, item for item |
| ExchangeResume.LosslessIff | engine/entrashift_engine/config.py:67 | whatever a handling meets but a stop inside a folder, crashes and dropped sends included, items of done folders stay imported or reported: true for all sources and scripts if and only if the pass is a delta pass or item_log_flush_size is at most one |
| ExchangeResume.ResumeCompleteness | engine/entrashift_engine/exchange/migrator.py:171-178 | with that flush size, after any chain of handlings however they ended, an unstopped COMPLETED full pass leaves every item of every matched mailbox imported or its record delivered |
| ExchangeResume.ResumeCompletenessIff | engine/entrashift_engine/job_context.py:196-201 | that holds for all sources and chains if and only if item_log_flush_size is at most one |
| ExchangeResume.HandledDeliversIff | engine/entrashift_engine/job_context.py:178-203 | for any flush size, what a handling loses is accounted for by its unsent records: done folders stay dealt with if and only if each unsent record is of no folder persisted as done, or of an item dealt with anyway |
| ExchangeResume.UnsentIs | engine/entrashift_engine/worker.py:226-305 | the records left unsent, for every way a run can end: none after COMPLETED, the buffer after a stop and a throttle requeue, the same after a Graph error unless the item flush took effect, and after a kill or an exit through the last resort the buffer or the batch of the send that had no effect |
| ExchangeResume.ChainDeliversIff | engine/entrashift_engine/exchange/migrator.py:194-199 | the same equivalence at every point of a chain of handlings |
| ExchangeResume.StopLosesRecords | engine/entrashift_engine/exchange/migrator.py:100-103 | a stop between two mailboxes, every request answered: the next run completes with a failed item neither imported nor reported |
| ExchangeResume.StoppedFolderForgotten | engine/entrashift_engine/exchange/migrator.py:271-286 | a stop mid-folder: this run and the next return COMPLETED with an item neither imported nor recorded |
| ExchangeResume.CrashLosesRecords | engine/entrashift_engine/job_context.py:196-203 | a crash between checkpoint and item flush: the next run completes with a failed item neither imported nor reported |
| ExchangeLinks.StoppedIff | engine/entrashift_engine/exchange/migrator.py:173-175 | a folder loop is stopped if and only if it comes to some folder, the last included, under a stop or a cancellation seen |
| ExchangeLinks.OneMailboxLink | engine/entrashift_engine/exchange/migrator.py:160-203 | however a mailbox pass ends, the link in memory changes only if it returned unstopped with a link in its feed, and then to that; what it persists on the way is the link from before |
| ExchangeLinks.LinkIsLast | engine/entrashift_engine/exchange/migrator.py:201-203 | of the mailboxes walked to their end with a link in the feed, the last one's is kept |
| ExchangeLinks.ReturnedLink | engine/entrashift_engine/exchange/migrator.py:99-122 | a run that returns, stopped or not, has exactly that link in memory |
| ExchangeLinks.PersistedLink | engine/entrashift_engine/checkpoint.py:126-134 | whatever way a handling ends, crashes included, the persisted link is the one from before or that of the mailboxes walked so far at some point of the loop |
| ExchangeLinks.LinkChangesIff | engine/entrashift_engine/exchange/migrator.py:160-203 | a run that returns holds another link if and only if the last mailbox walked to its end without a stop or cancellation gave another; and however a handling ends, a changed persisted link is the feed link of such a mailbox |
| ExchangeCounts.ExportIff | engine/entrashift_engine/exchange/exporter.py:56-117 | an export goes through if and only if there are no ids, or at most 20, the request is answered and every good entry of the answer has an id; more than 20 ids are refused before any request |
| ExchangeCounts.RunAccounts | engine/entrashift_engine/exchange/migrator.py:317-402 | however a run ends: every import is of an entry some response gave as good; every record is SKIPPED for an entry that was not and FAILED for one that was; and if floor(3/4 of the length) lies between lo and hi for every good entry, n imports add between lo n and hi n to the persisted byte counter |
| ExchangeCounts.CompletedIff | engine/entrashift_engine/exchange/migrator.py:78-122 | COMPLETED is returned if and only if the requests before and after the mailboxes are answered and no mailbox stops or raises |
| ExchangeCounts.UnreportedEnd | engine/entrashift_engine/exchange/migrator.py:113-122 | a closing report that is not answered ends the run with its own error and the checkpoint is not written |
| ExchangeCounts.KilledInLastWrite | engine/entrashift_engine/checkpoint.py:126-134 | a process killed in its closing flush has persisted the pass if and only if that write took effect |
| Throttle.PermitsConserved | engine/entrashift_engine/graph/throttle.py:41-77 | in every interleaving free + parked + held = max, held <= effective, 1 <= effective <= max, and parked + effective = max when no resize is under way |
| Throttle.ParkAllExact | engine/entrashift_engine/graph/throttle.py:56-62 | a shrink gets through exactly if no more permits are held than its target, and otherwise has taken every free one |
| Throttle.SetEffectiveExact | engine/entrashift_engine/graph/throttle.py:52-69 | the closed form of set_effective is where its single steps lead; once blocked only a release moves it |
| Throttle.AdaptiveSemaphore.constructor | engine/entrashift_engine/graph/throttle.py:41-46 | at least one permit, all free |
| Throttle.AdaptiveSemaphore.Enter | engine/entrashift_engine/graph/throttle.py:71-73 | a slot is taken exactly if a permit is free |
| Throttle.AdaptiveSemaphore.Leave | engine/entrashift_engine/graph/throttle.py:76-77 | a slot is given back |
| Throttle.AdaptiveSemaphore.Set | engine/entrashift_engine/graph/throttle.py:52-69 | grows at once, or shrinks as far as free permits allow |
| Throttle.AdaptiveSemaphore.Resume | engine/entrashift_engine/graph/throttle.py:59-62 | a blocked shrink goes on after a release |
| Governor.ThrottleGovernor.RecordCall | engine/entrashift_engine/graph/throttle.py:137-184 | one outcome of one tenant: window and capacity change as specified, exactly as `Governor.CapacityMoves` says, other tenants not |
| Governor.Trimmed | engine/entrashift_engine/graph/throttle.py:142-148 | the two popping loops compute the trim |
| Governor.Adapt | engine/entrashift_engine/graph/throttle.py:156-184 | the controller's branches, rates compared by cross-multiplication; when they move the capacity is `Governor.CapacityMoves` |
| Governor.CountThrottles | engine/entrashift_engine/graph/throttle.py:161 | the number of throttled events in the window |
| Governor.TrimIsWindow | engine/entrashift_engine/graph/throttle.py:142-148 | trimming keeps the longest suffix of the full history with at most 200 events, none older than 60 s |
| Governor.WindowRefinesHistory | engine/entrashift_engine/graph/throttle.py:137-161 | after any calls in clock order the deque is that suffix, so its rate is the rate recomputed from history |
| Governor.RecordNeverBlocks | engine/entrashift_engine/worker.py:144-148 | with at most one slot held a record never waits; an adjustment is by one and at least 15 s after the last |
| Governor.AdjustmentRate | engine/entrashift_engine/graph/throttle.py:156-165 | any span T holds at most floor(T / 15) + 1 adjustments of a tenant |
| Governor.ThrottlesAreCounted | engine/entrashift_engine/graph/throttle.py:161 | the count behind the rate is the number of positions of the window that hold a throttled call |
| Governor.CapacityMoves | engine/entrashift_engine/graph/throttle.py:156-184 | a call takes one off the capacity if and only if 15 s have passed, ten calls are in the new window, a tenth of them or more were throttled and more than one is left; it adds one if and only if 15 s have passed, ten are in it, a fiftieth or fewer were, the cap is not reached and no fall is due; otherwise the capacity stays |
| Governor.FirstMove | engine/entrashift_engine/graph/throttle.py:107-157 | a new tenant starts at the cap with an empty window, free to move 15 s after the clock's zero |
| Governor.Decay | engine/entrashift_engine/graph/throttle.py:156-173 | over any run on windows at or above the high rate, k due calls bring the capacity from e to max(1, e - k) |
| Governor.StormIsHot | engine/entrashift_engine/graph/throttle.py:142-165 | while every call is throttled, every window is at that rate |
| Governor.Storm | engine/entrashift_engine/graph/throttle.py:137-184 | so a storm brings a new tenant from the cap c to max(1, c - k) with k due calls |
| Governor.CleanRecord | engine/entrashift_engine/graph/throttle.py:156-176 | a clean call on a clean window raises the capacity by one exactly if 15 s have passed, ten events are in the window and the cap is not reached |
| Governor.Recovery | engine/entrashift_engine/graph/throttle.py:174-176 | on a clean window each due call raises the capacity by one up to the cap and none lowers it; cap - 1 of them restore it |
| Governor.CleanAfter200 | engine/entrashift_engine/graph/throttle.py:85-91 | 200 clean calls leave a clean window whatever came before |
| GraphClient.Request | engine/entrashift_engine/graph/client.py:176-270 | the retry loop computes the specified trace of records, sleeps and reply |
| GraphClient.FromIs | engine/entrashift_engine/graph/client.py:200-270 | the verdict is that of the first try that is not throttled or the last allowed one, the sleeps are those of the tries before it |
| GraphClient.RequestBounds | engine/entrashift_engine/graph/client.py:200-270 | at most max_retries + 1 sends, one governor record each, throttled exactly if the try was; success is an expected status other than 429 and 503; giving up means the budget is spent |
| GraphClient.SleepBounds | engine/entrashift_engine/graph/client.py:272-281 | a sleep is at least min(Retry-After, maximum), less than one second longer, and never over the maximum |
| GraphClient.SleepSpreads | engine/entrashift_engine/graph/client.py:272-281 | without Retry-After a sleep is the drawn fraction of its ceiling; with one, that delay and the fraction of a second, capped |
| GraphClient.CeilingDoubles | engine/entrashift_engine/graph/client.py:278-281 | without Retry-After the longest sleep is a second at first, doubles from try to try, and stops at the maximum |
| GraphClient.TotalSleep | engine/entrashift_engine/graph/client.py:278-281 | k sleeps without Retry-After take at most 2^k - 1 seconds |
| GraphClient.RetryAfterCapped | engine/entrashift_engine/graph/client.py:274-281 | a Retry-After of an hour is followed after 300 s |
| GraphClient.ImportItem | engine/entrashift_engine/exchange/importer.py:82-120 | an import is a session request if none is live, whose failure is its reply, and otherwise an upload; it sends exactly what these two send, at most 2 (max_retries + 1) times |
| GraphClient.ImportWithRetries | engine/entrashift_engine/exchange/migrator.py:366-402 | at most 2 (item_max_retries + 1) (max_retries + 1) sends for an item, and its last try settles its fate |
| ItemRetries.SameFate | engine/entrashift_engine/exchange/migrator.py:366-402 | the item loop as `Exchange` has it, given the replies of the client's request loop, ends as the bounded retries over the client settle it |
| RateLimits.RateLimiter.Request | worker/src/middleware/ratelimit.ts:22-38 | the bucket of the key is opened or counted up, and the request admitted up to 120 |
| RateLimits.WindowBound | worker/src/middleware/ratelimit.ts:13-38 | no window admits more than 120 requests of a key |
| RateLimits.SpanBound240 | worker/src/middleware/ratelimit.ts:22-38 | no 60 s, ends included, admit more than 240 |
| RateLimits.AdmittedIff | worker/src/middleware/ratelimit.ts:22-38 | over any run of requests, one is admitted if and only if it is among the first 120 of its window |
| RateLimits.WindowIsOpen | worker/src/middleware/ratelimit.ts:22-38 | each request belongs to a window that began less than a minute before it |
| RateLimits.StartsAreRequests | worker/src/middleware/ratelimit.ts:22-30 | a window begins with a request, a minute or more after the one before |
| RateLimits.ProgressRow.Write | worker/src/middleware/budget.ts:39-55 | refused within the minimal interval, else stamped by the later row update |
| RateLimits.StampsSpaced | worker/src/db/jobs.ts:205-207 | stamps of serial accepted progress writes are at least the minimal interval apart |
| RateLimits.ProgressRate | worker/src/middleware/budget.ts:45-53 | any span T holds at most floor(T / min) + 1 of them |
| RateLimits.MinIntervalIs | worker/src/middleware/budget.ts:45 | the interval is the configured one; missing, unreadable and zero mean 30 s |
| RateLimits.ControlPlaneClient.SetMinPollInterval | engine/entrashift_engine/control_plane.py:75-79 | the interval is the server's, never below the local floor |
| RateLimits.ControlPlaneClient.UpdateProgress | engine/entrashift_engine/control_plane.py:164-188 | suppressed within the interval unless forced; only a delivered write is remembered |
| RateLimits.SuppressedIff | engine/entrashift_engine/control_plane.py:174-188 | a write is suppressed if and only if it is not forced and comes within the interval of the last delivered one |
| RateLimits.LargerFloor | engine/entrashift_engine/control_plane.py:75-79 | after a change of the server's minimum the interval is the larger of that and the local floor |
| RateLimits.UnforcedSpaced | engine/entrashift_engine/control_plane.py:174-188 | unforced writes keep the local floor however the server's minimum changes and forced writes fall between |
| Completion.CompletedIff | engine/entrashift_engine/onedrive/migrator.py:83-115 | a drive pass in which everything but the floor lets it succeed leaves its job COMPLETED if and only if its opening and its closing report pass the server's floor, and FAILED otherwise |
| Completion.MailCompletedIff | engine/entrashift_engine/exchange/migrator.py:84-122 | the same for a mailbox pass |
| Completion.PassesIff | worker/src/middleware/budget.ts:39-55 | a progress request passes the floor if and only if it comes at least the minimal interval after the stamp of every accepted request before it |
| Completion.BothPassIff | worker/src/middleware/budget.ts:39-55 | both forced reports of a pass pass if and only if each keeps that distance: the opening one from all earlier reports, the closing one from those, the opening one and the heartbeats |
| Completion.QuickPassFails | worker/src/middleware/budget.ts:39-55 | a pass that closes within the minimal interval of its opening report never passes both, whatever heartbeats come between |
| Completion.LateBeatFails | worker/src/middleware/budget.ts:39-55 | nor does one, however long, that closes within that interval after an accepted heartbeat |
| Completion.ClosingAfterBeat | engine/entrashift_engine/control_plane.py:174-188 | if the closing report follows a heartbeat and the engine's floor is no longer than the server's, it passes only if that heartbeat was suppressed and the closing request took longer to its check than the last report made took to its stamp |
| Completion.QuickRestartFails | worker/src/middleware/budget.ts:39-55 | nor does one that opens within that interval after an accepted earlier report |
| Completion.FirstPassIff | worker/src/middleware/budget.ts:45-53 | a first pass without heartbeats passes both if and only if it lasts the minimal interval |
| Completion.FloorsDisagree | engine/entrashift_engine/control_plane.py:174-188 | an unforced report the engine's own floor lets through after a full interval, refused by the server's |
| Spacing.SpanBound | engine/entrashift_engine/graph/throttle.py:156-159 | events a gap apart: at most floor(T / gap) + 1 in a span T |
| Budget.BudgetTable.Increment | worker/src/db/budget.ts:43-65 | the day's row grows by the deltas, is created if missing, and is returned |
| Budget.BudgetTable.SetDegraded | worker/src/db/budget.ts:68-73 | the flag of the day's row, if there is one |
| Budget.BudgetTable.RecordUsage | worker/src/lib/budget.ts:51-60 | alone, it leaves the flag equal to the soft threshold test |
| Budget.BudgetTable.IsPaused | worker/src/lib/budget.ts:79-84 | paused exactly if flagged or over a soft threshold |
| Budget.CountersConserved | worker/src/db/budget.ts:43-65 | over any run, whatever calls interleave, lose their flag write or straddle midnight, a day's counters are the sum of what was charged on it |
| Budget.ThresholdsAre | worker/src/lib/budget.ts:39-91 | unflagged usage pauses if and only if one counter is at its soft fraction, a flag always, and writes are refused if and only if one is at its limit |
| Budget.FlagSound | worker/src/lib/budget.ts:39-60 | in every interleaving without a call across midnight: the flag implies a soft threshold, false is never written, and paused is exactly the threshold |
| Budget.FlagComplete | worker/src/lib/budget.ts:51-60 | with no call in flight and no flag write lost, the flag is exactly the threshold |
| Budget.StraddleExact | worker/src/lib/budget.ts:51-60 | from sound flags a step leads to unsound ones if and only if it writes a flag to a day whose counters reach no threshold |
| Budget.SoundIff | worker/src/lib/budget.ts:51-60 | over any run, calls across midnight or not, the flags are sound throughout if and only if no such write happens |
| Budget.CoveredExact | worker/src/lib/budget.ts:51-60 | a reached threshold stays flagged, or about to be, through every step but a clearing write by a call that read a wrong flag while no other call will set it |
| Budget.CoveredIff | worker/src/lib/budget.ts:51-60 | over any run that holds throughout if and only if no such clearing write happens |
| Budget.FlagExact | worker/src/lib/budget.ts:51-60 | over any run that flags no day wrongly, once no call is in flight and no write was lost the flag is exactly the threshold |
| Budget.LeftUnflagged | worker/src/lib/budget.ts:55-58 | a run that leaves the flag clear over a threshold with no call in flight and no write lost |
| Budget.MidnightFlagsWrongDay | worker/src/lib/budget.ts:55-58 | a run in which a call across midnight flags a day far from any threshold |
| Budget.HardImpliesPaused | worker/src/lib/budget.ts:87-91 | for softFraction at most 1 the engine is paused no later than writes are refused |
| Csv.ParseCsv | worker/src/lib/csv.ts:20-62 | the loop over characters computes the scanner |
| Csv.ParseSerialized | worker/src/lib/csv.ts:65-72 | what parsing printed text gives, for every table |
| Csv.RoundTrip | worker/src/lib/csv.ts:20-72 | it is the table itself if and only if every row has a cell and the text does not start with U+FEFF, whatever the cells contain |
| Csv.SerializedBom | worker/src/lib/csv.ts:26 | the printed text starts with U+FEFF exactly if its unquoted first header does |
| Csv.QuotedIff | worker/src/lib/csv.ts:66-69 | a cell is printed as it is if and only if it holds no quote, comma or line end |
| Csv.NoFinalBreak | worker/src/lib/csv.ts:56-60 | for any table and last row, a text that ends without a line end gives its last row whole, last field included, and none if nothing is printed for it |
| CsvImport.ValidateImportCsv | worker/src/lib/csv.ts:106-179 | an empty file and a bad header are one rejection; otherwise the accepted and rejected rows are those the per-row rule names |
| CsvImport.Judge | worker/src/lib/csv.ts:123-176 | the loop with its growing set of seen addresses decides every row by the rule that looks at the file alone |
| CsvImport.EveryRowJudged | worker/src/lib/csv.ts:123-176 | each data row yields exactly one verdict |
| CsvImport.RejectsAscend | worker/src/lib/csv.ts:124-129 | rejections carry strictly increasing numbers, each of a row that is not accepted, with its reason |
| CsvImport.AcceptedDistinct | worker/src/lib/csv.ts:162-167 | accepted addresses, lower-cased, are new and pairwise distinct |
| CsvImport.FirstWins | worker/src/lib/csv.ts:162-167 | of the valid rows with one new address exactly the first is accepted |
| CsvImport.RowComesBack | worker/src/lib/csv.ts:125-175 | a sound row written into the template's cells is accepted with all five fields as they were |
| CsvImport.GoodCarries | worker/src/lib/csv.ts:131-175 | a good row carries exactly what its cells say: trimmed addresses, an empty target as none, and the three flags |
| CsvImport.ReasonIs | worker/src/lib/csv.ts:126-161 | each reason of a rejection, if and only if it is the first in the order of the checks that applies |
| CsvImport.EmailIff | worker/src/lib/csv.ts:93 | an address is a name, an at sign, a domain, a dot and an ending, none empty or with white space or a further at sign |
| CsvImport.FlagIs | worker/src/lib/csv.ts:95-100 | which words read as true, and which as false, an empty cell among them |
| CsvImport.HeaderIs | worker/src/lib/csv.ts:115-121 | the five names in their order, whatever case and white space, with any columns after them |
| CsvImport.AcceptedNotExisting | worker/src/lib/csv.ts:109-166 | no accepted address is one that exists already, in whatever case |
| CsvLines.RowsStartAtPlaces | worker/src/lib/csv.ts:20-62 | scanning the file from the offset noted for a row gives that row and all later ones |
| CsvLines.KeptIs | worker/src/lib/csv.ts:111 | the i-th row that is not blank stands i plus the blank rows before it |
| CsvLines.RejectLineIff | worker/src/lib/csv.ts:123-129 | a rejection's number is the line its row starts on if and only if no blank row and no line end inside quotes comes before it |
| CsvLines.BlankRowShifts | worker/src/lib/csv.ts:123-129 | a file whose only data row, on line 3 or later, is rejected as number 2 |
| Passwords.DrawBelow | worker/src/lib/crypto.ts:85-94 | rejection sampling over a tape of bytes: the first accepted byte modulo n |
| Passwords.ShuffleInPlace | worker/src/lib/crypto.ts:107-117 | the in-place loop makes exactly the specified exchanges |
| Passwords.GenerateTempPassword | worker/src/lib/crypto.ts:101-119 | the whole generator as a function of the random bytes; which passwords there are is `PasswordChoices.GeneratedIff`, how often each character is picked `PasswordChoices.PickUniform` |
| Passwords.PasswordComplex | worker/src/lib/crypto.ts:101-119 | every password has max(length, 8) allowed characters and one of each class |
| Passwords.Unbiased | worker/src/lib/crypto.ts:86-93 | for n up to 256 each residue has exactly floor(256 / n) accepted bytes |
| Passwords.FisherYatesExact | worker/src/lib/crypto.ts:107-117 | every permutation of distinct elements is reached by exactly one sequence of draws |
| Passwords.ShuffleInjective | worker/src/lib/crypto.ts:107-117 | different draws shuffle differently |
| Passwords.ShuffleOnto | worker/src/lib/crypto.ts:107-117 | every arrangement is reached |
| Passwords.TapeGivesDraws | worker/src/lib/crypto.ts:108-115 | whatever the bytes, the loop performs one of these shuffles |
| Passwords.RunsAre | worker/src/lib/crypto.ts:107-117 | a byte string of i bytes leads to an arrangement exactly if it is one of the counted runs |
| Passwords.EquallyLikely | worker/src/lib/crypto.ts:107-117 | every permutation has the same number of byte strings without rejection leading to it |
| Passwords.NothingAcceptedBeyond256 | worker/src/lib/crypto.ts:110-114 | above 256 every byte is rejected |
| Passwords.FinishesUpTo256 | worker/src/lib/crypto.ts:101-119 | some bytes let the generator finish if and only if the length is at most 256 |
| PasswordChoices.PickUniform | worker/src/lib/crypto.ts:85-94 | of an alphabet of n different characters, n up to 256, each is picked by exactly floor(256 / n) accepted bytes |
| PasswordChoices.ChoicesEquallyLikely | worker/src/lib/crypto.ts:101-105 | every choice of characters, one from the alphabet of each position, is made by the same number of byte strings without rejection |
| PasswordChoices.AlphabetsAre | worker/src/lib/crypto.ts:78-82 | letters and digits without the look-alikes, thirteen symbols, and all of them together |
| PasswordChoices.ShuffleReaches | worker/src/lib/crypto.ts:107-117 | some draws bring any characters, repeated ones too, into any order |
| PasswordChoices.EveryComplexPassword | worker/src/lib/crypto.ts:101-119 | every string of max(length, 8) characters, up to 256, over the alphabets and with one of each class is the password for some bytes |
| PasswordChoices.GeneratedIff | worker/src/lib/crypto.ts:101-119 | the passwords some bytes produce are exactly those strings |
| Audit.AuditLog.Insert | worker/src/db/audit.ts:25-33 | whatever its stamp, a new entry goes to its place, the log stays newest first and loses nothing |
| Audit.AuditLog.QueryPage | worker/src/db/audit.ts:45-81 | one page of the filtered selection, with a cursor exactly if more rows follow |
| Audit.Export | worker/src/routes/audit.ts:37-45 | the loop over at most 200 pages of 500 |
| Audit.ExportIsPages | worker/src/routes/audit.ts:40-45 | rows added between pages do not matter: the walk is over the rows present at the start |
| Audit.AddedInvisible | worker/src/db/audit.ts:65-68 | rows not older than the cursor do not show below it |
| Audit.SelectExact | worker/src/db/audit.ts:47-71 | the selection holds each row as often as the table does if it is of the actor and action asked for, within the two times, ends included, and older than the cursor, and no other row |
| Audit.SelectInOrder | worker/src/db/audit.ts:69-70 | and keeps their order |
| Audit.PageIs | worker/src/db/audit.ts:46-80 | a page is the first 1 to 500 rows of it, 100 unless asked otherwise; its cursor is the stamp of its last row, if and only if more rows follow |
| Audit.PagesExact | worker/src/db/audit.ts:65-81 | n pages are the whole list if and only if it is short enough and no page boundary cuts a tie |
| Audit.ExportComplete | worker/src/routes/audit.ts:37-45 | the export is the whole filtered list, newest first, if and only if there are at most 100000 rows and no page boundary cuts a tie |
| Audit.ExportSubsequence | worker/src/db/audit.ts:65-68 | whatever the ties, the export is a duplicate-free subsequence of the list |

## Left out

- HTTP, routing, the SQL text, and the internals of D1 and the queue: a row update is one atomic step, the queue
  delivers every un-acked message any number of times, and retention limits and dead letters are not modelled.
- What Graph answers is a parameter; token acquisition, discovery, provisioning and error classification are not modelled.
- Encryption, hashing, sessions, sign-in checks, the web interface, logging and redaction.
- Reports: the success count subtracts failures from a counter that already excludes them, so there is no law to state.
- Row deletion by cascade: job rows are never deleted in `Protocol` and `JobTable`.
- Protocol.StepKeepsInv: a pulled batch is a series of single claims; the lease id and its expiry are not told apart from
  redelivery, which may happen at any time; there is one engine; a write that times out is applied before it raises or
  never, not later.
- Worker.EngineWorker.RunMigrator: only the migrator's status writes, cancel polls and end are protocol steps; what it
  migrates is in `OneDrive` and `Exchange`.
- Loading a checkpoint: a missing, unreadable or outdated one is the empty one; the JSON round trip is not modelled.
- OneDrive.Migrator.CopyFileWithRetries: download, simple and session upload and metadata patch are one try with one outcome.
- OneDriveTree.TreePreserved: for a source that does not move or rename folders between passes, feeds in which every
  parent is enumerated, and a destination that answers with a folder of the parent it was asked for; name remediation and
  the collisions it can cause are not modelled.
- Exchange.Migrator.RunPass: pages of a feed are one list and the enumeration one request; which mailboxes match by type is
  given; delta passes enumerate what the stored links lead to, which is a parameter.
- ExchangeResume.LosslessIff: for handlings in which no stop is seen inside a folder (such a stop forgets items at any flush
  size, exactly those of `ExchangeProofs.FolderCompleteIff`) and every export is answered with one entry per id; it starts
  from a state in which the done folders are dealt with, a fresh row in particular.
- Completion.CompletedIff: the heartbeats' own reports are among what is let succeed; one refused raises at its place.
- The per-mailbox semaphore, cancellation of a waiting task, and fairness among waiting tasks.
- Time is a real or integer number, never a float; random draws are bytes of a tape or a fraction between 0 and 1.
- RateLimits.StampsSpaced: two progress requests of one job in flight at once can both pass the check; requests are serial.
- RateLimits.WindowBound: one isolate's buckets; the limiter is per isolate in the original too.
- Characters are UTF-16 code units; white space and lower-casing of the platform are parameters of `CsvImport`.
- Budget limits are fixed during a run; configuration changes mid-day are not modelled.
- Audit pruning, and what the export does with its rows besides `Csv`.
