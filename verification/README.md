# Verification of the sync manager

This project models the scheduler, the hashing, the command language and the file
publishing of the repository in Dafny, and proves what they promise for every
input and every run.

* **The scheduler.** `SyncManager` (net/sync_manager.cpp) is a protocol between a
  thread that starts and stops it, callers that enqueue, two pools of workers and
  a health monitor. `SyncCore` holds what each `mutex_` section computes,
  `SyncManagers` is the class whose methods are proved against those functions,
  and `Protocol` is the transition system whose actions are those sections and
  the steps threads make between them: waiting on and notifying `queue_cv_` and
  `idle_cv_`, each file operation of a download, calling back, time passing.
  `IsRun` is any finite interleaving. `Effects` says once what a step does to
  tasks, queues and hands; `Conservation`, `TaskLife`, `Timing`, `Wakeups`,
  `Callbacks`, `FailureReasons`, `RetryRules`, `Outcomes`, `Progress`,
  `Liveness`, `Completion`, `Shutdown`, `Pools` and `Publishing` prove what all
  runs keep.
  `AfterError`, `Attendance`, `Overflow` and `Conflicts` prove conditions exact,
  with runs built step by step (`Runs`) where they fail.
* **SHA-256.** `Fips180` is FIPS 180-4 on byte sequences, `Fips180Constants` and
  `Primes` tie its constants to the roots of the first primes, and
  `StreamingSha256` is the class of net/sha256.cpp, with its arrays and loops.
  `Fips180Examples` follows the examples that NIST publishes with the standard
  through every round, by the steps of `HashSteps`.
* **Commands.** `IpcCommand` is the tokenizer, `std::stoull`, the decoder and a
  printer that they invert. `CommandGrammar` is a grammar of command lines, which
  every text belongs to, and what it means.
* **Downloads and requests.** `Downloads` says what a download does to a map from
  paths to bytes, attempt by attempt and operation by operation; `Networks` is the
  class, with `http_download_file` and its call of `sha256_file`; `Admission`
  compares what `enqueue` and `is_retryable` accept with what a download does;
  `Reborn` is the request queue.

Threads take turns at the granularity of the source's locked sections. What the
environment decides is a parameter of an action or of a method: the bytes and the
status of a transfer, whether a file operation succeeds, whether a path resolves
and to what size, whether a health check succeeds, how far the clock moves, the
order in which an unordered map is gone through. Integers are unbounded except
where the source's width matters: `attempts` and the monitor's failure count are
taken modulo 2^32, the hash's bit count modulo 2^64, word arithmetic modulo 2^32.

## Assumptions

* Calls of `start` and `stop` are serialised, and callbacks neither block nor call
  `stop`.
* `steady_clock` never goes back, and `retry_delay` is not negative.
* Where a lemma says `BudgetFits`, `max_retries` is below 2^32 - 1.
  `TakesBoundedExactly` shows that the bound on takes fails otherwise.
* Where a lemma says `SoleWriter`, no other accepted download has this task's target
  or part file as its own target or part file. `SafeExactlyApart` shows that a
  Completed download can be without its bytes otherwise.
* `SourceWorld` is the world with the source's own admission, size classes, retry
  rule, file operations, error texts and hash. `World` leaves them open, and a lemma
  about any `World` is about that one too.

## Where the code differs from what one may expect

* A size is read by `std::stoull`, so a command with size `-1` is accepted and
  means 2^64 - 1 (`NegativeSizeIsAccepted`).
* `enqueue` tests its error argument for text after looking at the path, so a call
  that comes with an old error is refused (`Enqueue`).
* A URL is accepted when the text before its first colon is `http` or `https`; the
  bare word `http` is (`HttpUrlForm`).
* A download that cannot rename onto its target has already removed it
  (`FailureKeepsTarget` says exactly when the old content is lost).
* The attempts of a download are counted in an `unsigned int`, so with 2^32 - 1
  retries, and with no other number, the counter never ends the loop
  (`EndlessExactly`); the workers and the monitor use no retries.
* A task whose path is another task's path with `.part` appended can make the other
  publish its bytes (`SafeExactlyApart`).
* Once all workers of a class have left because of Error, a task accepted into it
  waits, and `wait_for_idle` with it, until `stop` or the next step into Error
  (`StrandedUntilSwept`). Such runs exist exactly when max_retries is below 2^32 - 1
  (`StrandsExactly`), and a waiting task is out of reach of all workers exactly when
  those of its class have left (`EndsExactlyWhenAttended`).
* Closed empty quotes yield no token, open ones do (`LineRead`, `OpenWordRead`).
* A front request that is not waiting would keep `processRequests` looping for ever
  (`DrainsExactlyWhenWaiting`); the class never holds one.

## Model

| member | source | states |
|---|---|---|
| SyncManagers.SyncManager.Start | net/sync_manager.cpp:103-132 | succeeds iff already started, or root and health URL are given, worker counts and timeout are positive and the root directory can be made; otherwise which error, and no change |
| SyncManagers.SyncManager.LockedStop | net/sync_manager.cpp:134-146 | cancels every Pending or Retry task, whose other fields stay, empties both queues, flips the flags; nothing if not started |
| SyncManagers.SyncManager.CancelWaiting | net/sync_manager.cpp:140-143 | whatever the order of the table, entry by entry, exactly the waiting tasks become Cancelled and keep their other fields |
| SyncManagers.SyncManager.Stop | net/sync_manager.cpp:134-149 | the locked part followed by the Stopping state |
| SyncManagers.SyncManager.Enqueue | net/sync_manager.cpp:208-233 | which of the refusals applies, in the order of the checks, with its text: a malformed task, a path that does not resolve, an upload without a readable size, an old error, not running, a known id; otherwise a Pending result and one item, ready now, in the large queue iff the declared size of a download, or the file size of an upload, reaches the threshold; a refusal changes nothing |
| SyncManagers.SyncManager.Admit | net/sync_manager.cpp:217-229 | the locked part of enqueue: refused with its text when not running or the id is known, else a Pending result and one item, ready now, at the end of the queue of the class |
| SyncManagers.AdmissibleClasses | net/sync_manager.cpp:156-171 | the classes enqueue can put a task in: a download's follows from its declared size, an upload's may be large, and small iff the threshold is positive |
| SyncManagers.SyncManager.EnqueueIpcCommand | net/sync_manager.cpp:235-296 | tokenizer, decoder and enqueue or stop together, for every command text, with the error string after each |
| SyncManagers.SyncManager.TakeTask | net/sync_manager.cpp:298-341 | one pass of the take loop: leave, wait for the service, for work or until the earliest item is ready, or take the first ready item |
| SyncManagers.FindReady | net/sync_manager.cpp:315-318 | the first item that is ready, or the end |
| SyncManagers.FindEarliest | net/sync_manager.cpp:334-337 | an item with the least ready time |
| SyncManagers.SyncManager.ReadForProcess | net/sync_manager.cpp:376-384 | the task and its attempts, unless the id is unknown |
| SyncManagers.SyncManager.CompleteTask | net/sync_manager.cpp:418-433 | state, error and status are stored and nothing else of the record, the counter, the snapshot for the callback and whether idle is notified |
| SyncManagers.SyncManager.RequeueTask | net/sync_manager.cpp:435-458 | error and status are stored; back to the end of the queue of its class, ready a delay later, or Cancelled while stopping, or Failed in Error |
| SyncManagers.SyncManager.CheckIdle | net/sync_manager.cpp:460-466 | the predicate waited for and the verdict, field by field |
| SyncManagers.SyncManager.SetServiceState | net/sync_manager.cpp:491-520 | entering Error, and nothing else, fails every waiting task, empties the queues, and leaves one snapshot for each failed task |
| SyncManagers.SyncManager.FailWaiting | net/sync_manager.cpp:499-510 | the loop over the table: entry by entry, exactly the waiting tasks fail, an error of their own stays and the others get the message, each snapshot once |
| Effects.StepShows | net/sync_manager.cpp:298-520 | every step of every thread has one of ten effects on results, queues and hands, and nothing else changes there |
| Conservation.TasksConserved | net/sync_manager.cpp:208-233 | in every reachable state: Pending or Retry iff the id is in exactly one slot of the two queues, InProgress iff exactly one worker holds it, unknown ids nowhere; the active counter is the number of holders and is positive while there is one; no lookup has missed |
| Conservation.HeldItem | net/sync_manager.cpp:418-430 | a worker that releases finds its task InProgress and the active counter positive, so the guard never skips |
| Conservation.QueuedItem | net/sync_manager.cpp:319-325 | an item taken from a queue has a result, which is Pending or Retry |
| Conservation.BasicStep | net/sync_manager.cpp:103-154 | conservation, the lifecycle of threads and flags, and the staffing of the pools survive every step |
| TaskLife.TerminalForEver | net/sync_manager.cpp:418-458 | Completed, Failed and Cancelled are never left and the whole record stays as it is; a task is never replaced |
| TaskLife.AttemptBounds | net/sync_manager.cpp:319-327 | Pending has 0 attempts, Retry 1 to max_retries, InProgress and Completed 1 to max_retries + 1; a worker's copies of task and attempts equal the stored ones while it holds the task |
| TaskLife.ListedRun | net/sync_manager.cpp:217-228 | the accepted ids are distinct and are exactly those with a result |
| Timing.AttemptAfterAcceptance | net/sync_manager.cpp:315-327 | the k-th take of a task comes no earlier than k - 1 delays after its acceptance, for every budget |
| Timing.AttemptsSpaced | net/sync_manager.cpp:447-449 | two takes of a task are at least one delay apart, and one more for each take between them |
| Timing.BoundedOvertaking | net/sync_manager.cpp:315-327 | a ready item at position p that stays queued moves up one place for every take from its queue and for nothing else, so at most p others overtake it |
| Timing.LeavesByTakeOrSweep | net/sync_manager.cpp:319-321 | an item leaves its queue only by being taken or when both queues are cleared |
| Wakeups.IdleStep | net/sync_manager.cpp:429-430 | every step that makes the idle predicate true wakes all sleepers, or is the locked part of stop, whose thread wakes them next |
| Wakeups.NoLostIdleWakeup | net/sync_manager.cpp:460-466 | in every reachable state nobody sleeps on a true idle predicate, except between the two parts of stop |
| Wakeups.SleepsExactly | net/sync_manager.cpp:460-465 | a caller goes to sleep exactly while there is work, the service is not in Error and nobody stops the manager |
| Wakeups.IdleSound | net/sync_manager.cpp:460-466 | a true verdict means that no worker holds a task and every accepted task is terminal |
| Wakeups.IdleVerdictStands | net/sync.cpp:158-161 | after a true verdict the results read later, whenever that is, are final |
| Wakeups.NoLostQueueWakeup | net/sync_manager.cpp:306-338 | a worker parked on the queue has nothing it could do before it wakes by itself, or a notification is still owed |
| Callbacks.SnapshotHistory | net/sync_manager.cpp:418-458 | the snapshots of a task are Retry after attempt 1, 2, ... and then at most one terminal one: exactly one when Completed, Failed, or Cancelled in a worker's hands, and none when stop cancelled it in a queue; a Completed after a attempts has a - 1 Retry ones before it |
| Callbacks.StepEmits | net/sync_manager.cpp:498-519 | what each locked section copies for the callback, task by task |
| Callbacks.DeliveredOnce | net/sync_manager.cpp:432-457 | at any time every snapshot taken has been delivered once or is still with the thread that took it |
| Callbacks.AllDelivered | net/sync_manager.cpp:134-154 | when stop has returned, exactly the snapshots taken have been delivered |
| FailureReasons.FailedForAReason | net/sync_manager.cpp:387-416 | each Failed task failed in a step of the run, by path resolution, a non-retryable outcome, attempts = max_retries + 1, or the service in Error, for every budget |
| FailureReasons.ErrorForAReason | net/sync_manager.cpp:348-374 | Error is entered only by a failed health check that ends at least max_retries + 1 failed ones in a row |
| RetryRules.MismatchPutBack | net/sync_manager.cpp:406-413 | in every run of the source's world, whatever other threads do meanwhile, an attempt that fails by a size or digest mismatch goes on to be put back while attempts are left, and else ends Failed with that text |
| RetryRules.UnopenedFails | net/sync_manager.cpp:406-415 | one whose part file could not be opened ends Failed with that text, however many attempts are left |
| RetryRules.StatusDecides | net/sync_manager.cpp:406-415 | one answered with an unexpected status, or with an error of the transfer that holds no deciding phrase, is put back iff the status is 0, 408, 425, 429 or at least 500 and attempts are left, with the service Disconnected iff it is 0 or at least 500, and else ends Failed with that status and text |
| Outcomes.CompletedForAReason | net/sync_manager.cpp:400-404 | each Completed task was recorded by a worker that held it and whose transfer had succeeded, with that status and no error |
| Outcomes.CompletedUpload | net/sync_manager.cpp:396-404 | a Completed upload goes back to an upload of that worker, for that task, that succeeded with the recorded status |
| Outcomes.CompletedTransfer | net/sync_manager.cpp:396-404 | a Completed download goes back to a transfer of that worker, for that task, with the recorded status |
| FailureReasons.ServiceAfter | net/sync_manager.cpp:406-408 | the service state after each step: what the health check says, Disconnected exactly when a worker retries after status 0 or at least 500, else unchanged |
| Progress.MeasureStep | net/sync_manager.cpp:298-458 | the measure falls on every take, completion and requeue, grows by 2 (max_retries + 1) on acceptance, and grows by nothing else |
| Progress.WorkBounded | net/sync_manager.cpp:376-416 | takes, completions and requeues of a run plus what is left never exceed 2 (max_retries + 1) for each accepted task |
| Progress.AttemptsAreTakes | net/sync_manager.cpp:322-325 | stored attempts are the takes of the task modulo 2^32, and exactly the takes when the budget fits |
| Progress.TakesOfTask | net/sync_manager.cpp:406-413 | a task is taken at most max_retries + 1 times |
| Progress.TakesBounded | net/sync_manager.cpp:298-341 | n accepted tasks cause at most n (max_retries + 1) takes |
| Progress.FineStep | net/sync_manager.cpp:376-416 | every step of a worker on a held task, and every take, lowers a finer measure that no step of a worker raises |
| Progress.AdvancesBounded | net/sync_manager.cpp:376-416 | between any two points of a run the takes and the steps on held tasks, plus what is left, are at most what was left, and a fixed amount for each task accepted meanwhile |
| Overflow.TakesBoundedExactly | net/sync_manager.cpp:324-324 | in a world that accepts a large upload and retries some status below 500, the bound on takes holds in all runs iff max_retries < 2^32 - 1 |
| Overflow.SourceTakesBounded | net/sync_manager.cpp:522-531 | the same in the source's world, whose own class and retry rules the unbounded run keeps, for every valid configuration: iff max_retries < 4294967295 |
| Overflow.Round | net/sync_manager.cpp:376-416 | with a wrapping counter, seven steps take a task and bring it back to where it was |
| Liveness.NoDeadlock | net/sync_manager.cpp:298-346 | without Error since the last start, while connected and a task is live, two steps that touch no task (the clock, an owed notification, a report, a wait that is over) lead to a worker step that lowers the finer measure |
| Liveness.StaysRun | net/sync_manager.cpp:301-304 | without Error since the last start no worker has left before stop |
| Completion.CanBecomeIdle | net/sync_manager.cpp:460-466 | from every state of a run without Error since the last start, while started, some continuation ends with a true idle verdict: no state is a trap |
| Completion.StuckIsIdle | net/sync_manager.cpp:298-346 | in such a run a connected manager in which, however long one waits, no worker and no owed notification has a step is idle |
| Shutdown.NothingTakenAfterStop | net/sync_manager.cpp:134-146 | from the locked part of stop until the next start both queues stay empty and nothing is taken |
| Shutdown.AllTerminalAfterStop | net/sync_manager.cpp:147-154 | when stop has returned there is no worker, nothing active, and every accepted task is terminal |
| Shutdown.FewStepsLeft | net/sync_manager.cpp:343-346 | once stop has set its flag each worker makes at most fifteen more steps |
| Shutdown.MonitorNearer | net/sync_manager.cpp:348-374 | while stopping, every step of the monitor brings it nearer to its end and no other step sets it back |
| Shutdown.JoinsProceed | net/sync_manager.cpp:147-152 | while stop waits for its threads, it can return or one of them has a step to make, without any spurious wake-up |
| Shutdown.StopIsBounded | net/sync_manager.cpp:134-154 | from the locked part of stop to its return all threads together make at most fifteen steps for each worker and those the monitor has left |
| Shutdown.StopCanReturn | net/sync_manager.cpp:147-154 | from every state in which stop is at work some continuation lets it return |
| AfterError.StrandedUntilSwept | net/sync_manager.cpp:302-304 | once every worker of its class has left, a waiting task keeps its record, and no idle verdict is true, until stop or another step into Error |
| AfterError.SomeRunStrands | net/sync_manager.cpp:348-374 | for every valid configuration with a budget that fits and every task that enqueue can let through, a run in which the service fails, all workers leave and the task is then accepted |
| AfterError.StrandsExactly | net/sync_manager.cpp:358-368 | a task can be stranded in some run iff max_retries < 2^32 - 1; otherwise the failure count never exceeds it and no worker leaves before stop |
| Attendance.EndsExactlyWhenAttended | net/sync_manager.cpp:298-346 | in every reachable state of a started manager, whatever the service went through, a waiting task can be brought to its end without a sweep iff some worker of its class has not left |
| Pools.AcceptedOnce | net/sync_manager.cpp:223-227 | no id is accepted twice |
| Pools.StaysInClass | net/sync_manager.cpp:447-449 | a task is only ever in the queue of the class it was accepted in, or with a worker of that class |
| Pools.PoolBound | net/sync_manager.cpp:125-128 | of the tasks accepted into a class, never more are in progress than it has workers |
| Publishing.PublishedSafely | net/sync_manager.cpp:396-402 | in every run, after every file operation of every worker, the path of a sole writer holds its first content, nothing, or validated bytes, and its part file what has been checked; validated bytes once the task is Completed |
| Publishing.CompletedDownload | net/sync_manager.cpp:396-402 | a Completed download has bytes of the expected size and FIPS 180-4 digest under its path, with the source's own retry rule, file operations and hash |
| Publishing.SuccessMeansPublished | net/sync.cpp:158-168 | a true idle verdict and then only Completed results: nothing was being worked on, and every accepted download with a sole writer has bytes of its size and digest under its path |
| Conflicts.SafeExactlyApart | net/network.cpp:136-174 | in the source's world two downloads publish safely in all runs iff neither path is the other or the other's part file; otherwise a run, in which each is queued in the class of its declared size, completes one without its bytes |
| Conflicts.PartNameConflicts | net/network.cpp:136-136 | `f` and `f.part` conflict, when paths resolve to themselves |
| Networks.Network.DownloadFile | net/network.cpp:131-189 | the attempt loop, with its 32-bit counter, computes the specified files, status and response; its history only grows, and all contents it passes through are safe |
| Networks.Network.MakeAttempt | net/network.cpp:139-186 | one attempt publishes iff transfer, status, size and digest are good and the rename succeeds |
| Networks.Network.Validate | net/network.cpp:153-172 | the comparisons pass iff size and SHA-256 of the part file are readable and as expected |
| Networks.EndlessExactly | net/network.cpp:139-139 | the 32-bit counter never ends the attempt loop iff there are 2^32 - 1 retries |
| Downloads.OperationIsSafe | net/network.cpp:140-186 | each file operation on checked files keeps the target old, absent or validated, and leads to checked files |
| Downloads.PlayIsFetch | net/network.cpp:139-189 | the operations of one attempt, played without interruption, are one turn of the loop, with its files, status and response |
| Downloads.DownloadGuarantee | net/network.cpp:131-189 | success means validated bytes under the target's name and no part file; in any case the target is old, absent or validated, and no other file changes; no part file stays when every attempt could open it and the last removal succeeds |
| Downloads.FailureKeepsTarget | net/network.cpp:173-180 | a failed download keeps the old target iff no attempt removed it and then failed to rename |
| Admission.PublishesExactly | net/network.cpp:139-186 | an attempt publishes its bytes iff the file opens, the transfer succeeds with status 0 or 200 to 299, the size is readable and as expected, the expected checksum, if any, is the FIPS 180-4 digest in any letter case, and the rename succeeds |
| Admission.ResponseExactly | net/network.cpp:140-186 | which response a single attempt leaves, in the order of the checks |
| Admission.LowerByLetter | net/network.cpp:165-167 | A to Z become a to z and every other character stays |
| Admission.MatchesInAnyCase | net/network.cpp:163-171 | lowering makes a checksum equal to a digest iff it is the digest with some letters as capitals |
| Admission.MatchingChecksumIsValid | net/sync_manager.cpp:83-86 | a checksum that matches any digest, in any letter case, is never refused |
| Admission.DigestMatchesItself | net/network.cpp:163-171 | a digest's own text is a valid checksum and matches it |
| Admission.HttpUrlForm | net/sync_manager.cpp:88-93 | the accepted URLs are exactly those that spell http or https, each letter in either case, at their end or before a colon |
| Admission.MismatchIsRetried | net/sync_manager.cpp:522-531 | the texts of a size or digest mismatch are retryable whatever the status |
| Admission.UnopenedIsNotRetried | net/sync_manager.cpp:522-531 | the text of an unopenable part file never is |
| Admission.StatusRetriedExactly | net/sync_manager.cpp:522-531 | the text of an unexpected status is retryable iff the status is 0, 408, 425, 429 or at least 500 |
| Admission.RefusedPhrases | net/sync_manager.cpp:523-528 | each of the four phrases anywhere in a text makes it not retryable, whatever the status |
| StreamingSha256.HashChunks | net/sha256.cpp:27-55 | for every message and every way to cut it into updates, finish gives the digest of the padded message, which below 2^61 bytes is that of FIPS 180-4 |
| Fips180Examples.AbcDigest | net/sha256.cpp:27-85 | the digest of the bytes 61 62 63 is the one that NIST publishes |
| Fips180Examples.LongerDigest | net/sha256.cpp:27-85 | so is that of the 56-byte example, whose padding takes a second block |
| StreamingSha256.Sha256.Update | net/sha256.cpp:29-38 | appends the input to the message, whatever was buffered |
| StreamingSha256.Sha256.Finish | net/sha256.cpp:40-55 | the lower-case hexadecimal FIPS 180-4 digest of everything given to update |
| StreamingSha256.Sha256.HashPadding | net/sha256.cpp:41-50 | one block more when at most 55 bytes are buffered, else two, and all that was hashed is the padded message of section 5.1.1 |
| StreamingSha256.Sha256.AppendLength | net/sha256.cpp:49-49 | the 64-bit length, most significant byte first |
| StreamingSha256.Sha256.Transform | net/sha256.cpp:58-85 | the compression of section 6.2.2 |
| StreamingSha256.Sha256.ExtendWords | net/sha256.cpp:66-70 | the message schedule, whose terms the code adds in another order |
| StreamingSha256.Sha256.MixRounds | net/sha256.cpp:72-82 | the 64 rounds |
| StreamingSha256.PadInjective | net/sha256.cpp:40-50 | two messages below 2^61 bytes with the same padded form are equal |
| StreamingSha256.PadBlockCount | net/sha256.cpp:43-48 | the padded message is the least number of whole blocks with room for marker and length, and which number that is |
| StreamingSha256.Sha256File | net/sha256.cpp:98-107 | a digest iff the file opened and read without error, and then that of its content |
| StreamingSha256.UpdateFromStream | net/sha256.cpp:103-105 | the 64 KiB read loop gives update the whole content, in order and once |
| Fips180Constants.RoundConstants | net/sha256.cpp:12-21 | the 64 constants are the first 32 bits of the fractional parts of the cube roots of the first 64 primes |
| Fips180Constants.InitialHash | net/sha256.cpp:88-91 | the initial hash value is that of the square roots of the first eight primes |
| Primes.FirstPrimes | net/sha256.cpp:12-21 | up to 311 a number is prime iff it is in the table those constants are checked against |
| Primes.EntriesAscend | net/sha256.cpp:12-21 | the table ascends, so it holds the first 64 primes in order |
| IpcCommand.ParseTokens | net/sync_manager.cpp:37-70 | the loop with its skipping index computes the tokens |
| IpcCommand.TokensCompose | net/sync_manager.cpp:42-69 | a prefix that ends outside quotes, a space and a suffix parse to the two parses in a row |
| CommandGrammar.LineRead | net/sync_manager.cpp:37-70 | a line of words, blanks, bare and quoted pieces, escapes and a quote left open is read as the grammar means it |
| CommandGrammar.EveryCommand | net/sync_manager.cpp:37-70 | every text is such a line, so this is all that parse_tokens does |
| CommandGrammar.BareWordsRead | net/sync_manager.cpp:56-64 | words without blanks and quotes, with spaces between them, are the tokens |
| CommandGrammar.MixedWordRead | net/sync_manager.cpp:44-64 | a bare part and a part in single or double quotes make one token |
| CommandGrammar.OpenWordRead | net/sync_manager.cpp:66-68 | a quote left open yields its text, even an empty one |
| CommandGrammar.StopIsRead | net/sync_manager.cpp:235-249 | the text STOP is the request to stop |
| IpcCommand.JoinReadBack | net/sync_manager.cpp:42-69 | every list of strings survives quoting, joining and parsing but for its empty ones |
| IpcCommand.CommandRoundTrip | net/sync_manager.cpp:235-296 | printing, tokenizing and decoding give a task back iff it is expressible |
| IpcCommand.DecodedExactly | net/sync_manager.cpp:242-296 | a token list stops the manager iff it is STOP alone, and submits a task iff it is DOWNLOAD with six tokens and a readable size or none, or UPLOAD with four, and which task |
| IpcCommand.RejectedExactly | net/sync_manager.cpp:236-293 | which of the four refusals every other list gets |
| IpcCommand.SizeExamples | net/sync_manager.cpp:265-277 | 1024 is read in base ten, and -1 as 18446744073709551615 |
| IpcCommand.SizeTextAccepted | net/sync_manager.cpp:265-277 | spaces, an optional sign and digits below 2^64 are accepted, with this value |
| IpcCommand.SizeTextComplete | net/sync_manager.cpp:265-277 | nothing else is |
| IpcCommand.NegativeSizeIsAccepted | net/sync_manager.cpp:265-277 | minus n is accepted as 2^64 - n |
| Reborn.DrainsExactlyWhenWaiting | include/reborn/reborn.cpp:104-115 | the loop empties the buffer iff every request in it is waiting |
| Reborn.Socket.EnqueueRequest | include/reborn/reborn.cpp:8-16 | appends a waiting request iff it is not empty |
| Reborn.Socket.SendRequest | include/reborn/reborn.cpp:95-101 | the same for a C string that may be absent |
| Reborn.Socket.ProcessNextRequest | include/reborn/reborn.cpp:25-42 | forwards and erases the front, and never takes the branch that leaves it |
| Reborn.Socket.ProcessRequests | include/reborn/reborn.cpp:104-115 | whatever other threads enqueue between its rounds, it terminates once they stop, forwards exactly what was queued and has arrived, in order, and returns OK iff it forwarded one |

## Left out

- libcurl, sockets, threads and real files: they are outcomes, atomic steps and a map from paths to bytes.
- `resolve_local_path` and `is_descendant_of`: they rest on the file system's normalisation and links; a path resolves to a path or to an error.
- Publishing.PublishedSafely: the bytes of a transfer are written in one operation, an open part file is known by its path, and a local path resolves to the same path throughout.
- Liveness.NoDeadlock: it needs a run without Error since the last start; what becomes of tasks after Error is in `AfterError` and `Attendance`.
- Networks.Network.DownloadFile: with 2^32 - 1 retries it speaks only of environments in which some attempt ends the loop; in the others the loop does not end (`EndlessExactly`).
- Shutdown.JoinsProceed: a callback that blocks, as the one in net/sync.cpp does on a mutex held across `stop`, is excluded.
- Callbacks.SnapshotHistory: it speaks of the order in which snapshots are taken; two threads may deliver snapshots of one task in another order.
- SyncManagers.SyncManager.Stop: no other thread comes between its two sections here; `Protocol` has them as two actions with any steps between.
- The timeout of `wait_for_idle` is a sleeper leaving at any time; its length is not modelled.
- `Network::perform`, the other HTTP wrappers, uploads beyond their outcome, logging, `result`, `results`, `service_state`, the environment parsing of net/sync.cpp, `include/rfs` and `include/kuse`: only easy facts.
