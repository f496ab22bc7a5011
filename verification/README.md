# A verified model of the SEC report service

The service turns `POST /reports` requests into PDF reports of SEC filings. A request is
deduplicated and admitted by the API, written to Redis as a task, and published on a Redis
stream. Workers take entries from the stream's consumer group, select a filing, produce the
artifact files, record the outcome, publish a pointer to the artifact and acknowledge the entry.
All workers share one sliding-window limiter for requests to the SEC.

This project models that protocol and the components it rests on, and proves what they promise.
`dafny verify dfyconfig.toml` checks everything.

## How it is modelled

**The protocol** is a step system. `Store` is the shared state: task records, pending pointers,
artifact pointers, the stream with its last-delivered id and pending-entries list, and the
artifact files. `Handler` and `Request` are the two kinds of process, as machines whose steps are
single Redis commands, file operations, or calls to the SEC or the renderer; the program counter
carries the in-memory task. `System` interleaves any number of both. Between any two operations a
process may crash, which loses its in-memory copy, and every write may raise without having been
applied, or raise after having been applied. A theorem about a run (`IsRun`) is about every
interleaving of any length from the empty service.

**The code as it is written** is in `Repository` (a mutable `Task` and the `ReportRepository`),
`Queue` (`ReportQueue`), `ArtifactWriter`, `Worker` (`ReportWorker`) and `Routes`
(`create_report`): classes and methods with the source's loops, early exits and exceptions. They run
in a `World` that gives each operation its turn: the shared state that other processes have left
there by then, and how the operation turns out. `Worker.ReportWorker.HandleMessage` and
`Routes.CreateReport` are proved to perform exactly the operations of the two machines (`Machine`),
and `Projection` ties both machines to the handlers and requests of any run of the system, so the
theorems about runs are theorems about these methods.

**The limiter, the retry loop and the SEC client** (`RateLimiter`, `Retry`, `SecClient`) have
their own histories; `Outcomes` adds up what a task may cost. **Identities, keys, references,
paths and filing selection** (`Identity`, `ArtifactStore`, `Submissions`, over `Strings`) are
functions on actual strings.

### What the theorems assume

Each assumption is a named predicate on runs, steps or calls, and is required only where it is
needed.

- `System.LeasesOutlast`: no claim takes an entry from a live handler. The service has no lease
  renewal, so a handler has to finish within the claim timeout. Required by
  `NoLoss.NoEnqueuedTaskIsLost`, `Leases.HandlersHoldLeases`, `CleanRuns` and the bounds of `Budget`
  and `Outcomes`; all other results on runs hold without it.
- `Serial.Serialised`: no handler is started while another one is acting on its task, where a handler
  that has only its acknowledgement left does not count, so a fresh entry may be taken up before the
  XACK of its predecessor. Required by the bounds of `Budget` and `Outcomes`, and by the corollary
  `Absorbing.SerialisedIsAbsorbing`. `Serial.StrictlySerialised` counts every live handler, and is required by
  `Outcomes.DeliveryOutcome` alone.
- `Deliverable.OneWriterAlways`: one writer at a time per artifact directory, since the temporary
  names are shared.
- `CleanRuns.Clean`: no handler crash and no Redis fault in a handler. `Outcomes.UntroubledFor`: no
  fault of the one handler concerned before it has acknowledged its entry. `Budget.FaultFree`: no
  such fault of any handler of the one task concerned; without it the bounds hold with the faults
  added.
- `Dedup.AtomicCreate`: `get_or_create_task` is one step, or fails before it takes effect. The laws
  of `Dedup` hold without it, command by command, with the reclaimed pointers counted; with it
  there are none.
- Limiter, one order of readings (`RateLimiter.GoodClocks`): clock readings do not decrease in the
  order in which Redis runs the scripts and, since the key expires, a script that runs two seconds
  or more after the last grant before it has a reading at least one second after that grant's.
- Limiter, real time (`RateLimiter.ClocksWithin`): each clock is within d ms of real time when it is
  read, and the script runs at most a given delay after the reading, since the client reads its
  clock before it sends the script. Members are unique, and Redis runs the scripts one at a time.
- A physical path stands for one file of the protocol model when the accession number contains no
  slash (`ArtifactStore.ValidKey`), which the code does not check when it stores a filing.

### Where the code does not do what it says

- A COMPLETED task can be undone: transitions check the in-memory copy, and saving overwrites. One step
  does so exactly when it applies a save by a handler whose in-memory task is not COMPLETED
  (`Absorbing.StepDemotes`), and COMPLETED is for good from a moment on exactly when no live handler of
  the task can still make such a save (`Absorbing.CompletedForGood`). `Stale.StaleHandlerSavesOver` has a
  task COMPLETED and later FAILED although no lease is taken from a live handler.
- When a lease is taken from a live handler, an accepted task can be lost (`Stale.LostWithoutLeases`).
- Printing and parsing an identity, and finding a written file by its reference, fail for quarters
  that are empty or contain slashes; the theorems give the exact condition. Redis keys do not
  separate a quarter ending in `+amended` from the policy suffix; `Identity.KeysEqualExactly`
  says exactly which keys coincide.
- `get_or_create_task` promises exactly one task for concurrent requests, but its commands are
  separate (`Scenarios.TwoTasksForOneKey`). A pointer changes its task exactly when a request that
  found no task behind it overwrites it while it is present (`Dedup.PointerChangesByReclaim`), and
  a second task under a pointer that was not removed takes such a reclaim.
- The limiter counts readings, not requests: a window of one second of real time can hold more than
  the limit, and a window is safe exactly up to 1000 ms less the greatest lateness and earliness of
  the scripts against their readings (`RateLimiter.WindowIsExact`). A delayed script counts like a
  wrong clock (`RateLimiter.DelayedCalls`), and a key that expires ahead of the readings is forgotten
  too early (`RateLimiter.ExpiryCanForget`). The set is right exactly when every call keeps up with the
  key of the last grant before it (`RateLimiter.RefinesExactly`, `RateLimiter.LimitOneIsExact`,
  `RateLimiter.ExpiryIsExact`).
- An error reply of XLEN counts as an empty queue, so each such reply at a full queue takes it one entry
  further past its maximum. With one producer the maximum holds exactly as long as there is no such
  reply (`Admission.OneProducerIsExact`); with P producers and b such replies the greatest length is the
  maximum + P - 1 + b (`Overshoot.OvershootIsExact`).

## Model

| member | source | states |
|---|---|---|
| `NoLoss.NoEnqueuedTaskIsLost` | app/workers/worker.py:122-194 | In every run with crashes and failed or ambiguous writes in which leases outlast handlers, once a task's XADD took effect it is from then on, in every state, persisted COMPLETED or FAILED, or has an entry that is undelivered, or pending and not held by a handler in its acknowledgement phase; also when the task has several entries. |
| `NoLoss.WorkKeepsCovered` | app/workers/worker.py:353-368 | One operation of a handler never takes away the last thing that stands for a task: a terminal record, or an entry not yet finished with. |
| `NoLoss.WorkIsDisciplined` | app/workers/worker.py:140-163 | A handler comes to its acknowledgement only after a terminal save, a fresh entry or finding a terminal record, and saves nothing afterwards. |
| `Stale.LostWithoutLeases` | app/queue/stream.py:116-140 | When an entry is claimed while its handler lives, a run leaves the task PROCESSING with no entry and no handler, for every identity. |
| `Absorbing.CompletedIsAbsorbing` | app/reports/repository.py:116-153 | In every run, however many handlers share a task: once it is persisted COMPLETED and no live handler of it threatens (is about to save another state, or does work whose failure could still be recorded), it stays COMPLETED in every later state, through crashes, parallel redeliveries, failure handlers, recovery and forced failure. |
| `Absorbing.CompletedForGood` | app/reports/repository.py:116-153 | In any consistent state, a COMPLETED task stays COMPLETED in every continuation if and only if no live handler of it threatens in that state. |
| `Absorbing.StepDemotes` | app/reports/repository.py:116-127 | A step takes a task out of COMPLETED if and only if it applies a save by a handler of it whose in-memory task is not COMPLETED. |
| `Absorbing.SerialisedIsAbsorbing` | app/reports/repository.py:116-153 | When no handler is started while another acts on its task, COMPLETED is absorbing from the moment it is persisted. |
| `Stale.StaleHandlerSavesOver` | app/reports/repository.py:116-127 | For every identity with a qualifying filing, a run in which leases outlast handlers has the task COMPLETED and then FAILED: a handler that had loaded it before saves its own copy. |
| `Absorbing.WorkNeverDemotes` | app/workers/worker.py:165-194 | Over a COMPLETED record an operation leaves another state exactly when it applies a save of an uncompleted task, and a handler that finds or has made its task COMPLETED, or was no threat, is none afterwards. |
| `Deliverable.CompletedMeansDeliverable` | app/workers/worker.py:243-324 | In every reachable state a COMPLETED task names an accession whose PDF is at the path of the task's identity, exists and begins with `%PDF-`; its year is the filing year. |
| `Deliverable.PublishedMeansDeliverable` | app/reports/repository.py:155-166 | So does every published artifact pointer, and it is filed under a year of at least 1. |
| `Deliverable.LatestIsNeverCached` | app/api/routes.py:68-81 | No pointer is ever found under a request for the latest filing, so such a request is never answered from the cache. |
| `Provenance.CompletedIsTheSelectedFiling` | app/workers/worker.py:223-316 | In every run a COMPLETED task names the first of the latest filings of the form, policy and year asked for, in a filing list returned to a handler of that task for the company its ticker resolved to, and its artifact is that filing's PDF. |
| `Provenance.PublishedIsTheSelectedFiling` | app/reports/repository.py:155-166 | A published pointer holds accession, path and company of such a completion, under the key of its report and policy. |
| `Provenance.FilesAreOfTheFiling` | app/workers/worker.py:266-300 | Each visible file is the document one handler downloaded, the PDF rendered from it, or its metadata, in the directory of that filing and under the extension of its document. |
| `Provenance.TaskKeepsItsRequest` | app/reports/repository.py:113-133 | Whatever overwrites whatever, a record stays in every later state for the same ticker, form, quarter and policy. |
| `Pointers.CompletionRemovesPointers` | app/workers/worker.py:311-324 | A handler that completes a task and then meets no error has, when it acknowledges, removed the pending pointer of the report as it was asked for and as it was resolved. |
| `Pointers.FailureRemovesPointer` | app/reports/repository.py:116-153 | A handler that saves its task FAILED, on a failure or out of attempts, removes the task's pending pointer in its next operation, and then acknowledges. |
| `Deliverable.WriteOk` | app/storage/artifact_store.py:140-159 | Each file operation of a writer leaves every visible file of others, and every visible PDF, in place. |
| `Artifacts.VisibleFilesAreComplete` | app/storage/artifact_store.py:155-159 | Whatever crashes, a file under its final name holds, whole, what some handler set out to write there. |
| `Artifacts.PdfHasSource` | app/storage/artifact_store.py:140-152 | A visible PDF begins with `%PDF-` and has its source file beside it. |
| `Artifacts.NoLaterProducer` | app/storage/artifact_store.py:135-138 | Once the PDF of an accession is visible, only handlers that were producing it by then ever produce it. |
| `Artifacts.WrittenOnce` | app/workers/worker.py:263-300 | Once the PDF is visible and nobody is producing it, no file in its directory changes again. |
| `Leases.StreamPartition` | app/queue/stream.py:89-114 | In every reachable state each entry is exactly one of undelivered, pending and inert, XLEN is the sum of the three, and leases are on delivered entries of the stream. |
| `Leases.HandlersHoldLeases` | app/queue/stream.py:89-114 | Where leases outlast handlers, each live handler before its XDEL holds the lease of its own entry, alone. |
| `Leases.AcknowledgedForGood` | app/queue/stream.py:107-114 | An acknowledged entry is never delivered or claimed again. |
| `Leases.HandoversAreApart` | app/queue/stream.py:128-140 | In every run a claim of an entry comes at least the required idle time after any earlier delivery or claim of it, whether or not its handler still lives. |
| `Leases.RacingClaimers` | app/queue/stream.py:128-140 | In every run with a positive idle time, of two claims of one entry the second is strictly later, so two live claimers never both get it at the same instant. |
| `Leases.ClaimedAgainAtOnce` | app/queue/stream.py:126-140 | An entry just claimed can be claimed again at that instant, its claimer live or dead, if and only if the required idle time is not positive. |
| `Leases.PersistedBeforePublished` | app/api/routes.py:93-104 | A task id in the stream has a persisted record, then and in every later state, that is not ACCEPTED. |
| `CleanRuns.DeliveriesFindQueued` | app/workers/worker.py:210-221 | In clean runs (SEC and file errors, a full queue and any trouble in requests allowed) every delivery loads its task as QUEUED, so the transition to PROCESSING is legal. |
| `CleanRuns.OneLiveEntryPerTask` | app/workers/worker.py:362-367 | In clean runs a task has at most one entry that is not finished with, and one waiting for delivery is that of a QUEUED task. |
| `CleanRuns.WorkIsClean` | app/reports/state.py:17-34 | In a clean handler the persisted state at each point is the one the next transition needs. |
| `Dedup.TasksAreConserved` | app/reports/repository.py:78-109 | In every run, command by command, and for every key: tasks created, plus requests that have set the pointer and still have to save, plus those that never will, equal effective removals of the pointer, plus one if it is present, plus the times it was overwritten while present. |
| `Dedup.SecondTaskNeedsReclaim` | app/reports/repository.py:93-100 | If more tasks were created under a key than its removals plus one allow, some step overwrote the pointer while it was present. |
| `Dedup.PointerChangesByReclaim` | app/reports/repository.py:98-100 | In any step a pointer that stays in place changes the task it names if and only if a request that found no task behind it overwrites it. |
| `Dedup.OneTaskBetweenReclaims` | app/reports/repository.py:90-100 | While a pointer stays in place and is not overwritten it names one task. |
| `Dedup.RequestsLearnOneTask` | app/reports/repository.py:90-106 | Two requests that read or set the pointer of one key with no removal and no overwriting in between learn the same task id. |
| `Dedup.AnswersAgree` | app/api/routes.py:83-104 | Any two answers for one key, command by command, are the same task, unless the pointer was removed or overwritten between the steps at which the two requests learnt theirs. |
| `Dedup.AnswersArePersisted` | app/reports/repository.py:95-106 | A task a request was answered with is persisted, then and in every later state. |
| `Dedup.AtomicConservation` | app/reports/repository.py:78-109 | When tasks are created in one step: tasks created under the key equal effective removals of its pointer, plus one if the pointer is present. |
| `Dedup.OneTaskBetweenRemovals` | app/reports/repository.py:90-100 | When tasks are created in one step, a pointer that stays in place names one task, and that task is persisted. |
| `Dedup.RequestsShareTheTask` | app/api/routes.py:83-104 | When tasks are created in one step, any two requests for one key answered with no removal in between get the same task. |
| `Dedup.StepLedger` | app/reports/repository.py:90-106 | What one step adds to the two sides of the conservation law is equal, for every operation, crash and expiry. |
| `Scenarios.TwoTasksForOneKey` | app/reports/repository.py:90-106 | With separate commands, two requests for any one report can each create a task although its pointer is never removed. |
| `Admission.OvershootBound` | app/queue/stream.py:79-85 | With at most P concurrent producers, stream length plus producers between depth check and XADD is at most the maximum depth + P - 1, plus the number of depth checks that an XLEN error reply let through at a full queue. |
| `Admission.OneProducerIsExact` | app/queue/stream.py:68-85 | With one producer at a time, stream length plus producers past the check stays within a positive maximum depth in all states of a run if and only if no depth check at a full queue was answered by an error reply. |
| `Overshoot.OvershootIsExact` | app/queue/stream.py:68-85 | For every positive maximum depth, P >= 1 and b: the runs with at most P concurrent producers and b checks let through blindly keep the stream within a bound if and only if the bound is at least the maximum depth + P - 1 + b. |
| `Scenarios.BlindChecksOvershoot` | app/queue/stream.py:68-85 | With one producer at a time and a maximum depth of 1, error replies of XLEN let the stream reach two entries. |
| `Budget.DeliveriesAreBounded` | app/workers/worker.py:165-194 | Where leases outlast handlers and a task's handlers act one at a time, whatever fails: it gets at most max(1, retry_max_attempts) deliveries, plus one for each of its own handlers that dies, or fails to read it, recover or send XACK, before its entry is acknowledged. |
| `Budget.FaultFreeDeliveries` | app/workers/worker.py:165-194 | Without such faults of its handlers a task gets at most max(1, retry_max_attempts) deliveries. |
| `Budget.StepSpends` | app/workers/worker.py:353-368 | Waiting entries plus the margin of the persisted attempts fall by one with each delivery, rise by at most one with a fault of one of the task's handlers, and never grow otherwise. |
| `Budget.WorkPays` | app/workers/worker.py:165-194 | Each operation of a handler that adds or gives back an entry is paid for by a persisted attempt, except one entry for a failed read, recovery or XACK. |
| `Outcomes.DeliveryOutcome` | app/workers/worker.py:122-194 | A delivery whose handler meets no fault of its own ends with its entry acknowledged and the task terminal, or QUEUED with one more attempt and a fresh entry waiting; or with its entry pending after recovery persisted one attempt more than it read, which is two more than it loaded exactly when the failure had been persisted before a later operation failed. |
| `Outcomes.CallsWithinDeliveries` | app/workers/worker.py:223-278 | A task costs at most two SEC calls a delivery, counting those a handler died in and those its acting handler may still make. |
| `Outcomes.AttemptsAreBounded` | app/sec/retry.py:64-94 | With the same limit n on task attempts and on one call's attempts, a task makes at most 2 n (n + f) HTTP attempts, those of a call in which the handler died included, where f counts the faults of its own handlers, whatever the SEC answers. |
| `Outcomes.FaultFreeAttempts` | app/sec/retry.py:64-94 | Without such faults, at most 2 n^2. |
| `Failures.WorkRoutesRight` | app/workers/worker.py:329-368 | Each operation of the work leads where its outcome belongs: an unknown ticker, no qualifying filing, a permanent error or a result without PDF header to a FAILED save with the attempts unchanged; any other error to one attempt more and a RETRYING save, or FAILED at the maximum; a success onward; and to recovery where the transition would be illegal. |
| `Failures.NextSaveAfterFailure` | app/workers/worker.py:348-368 | In every run, when the work on a PROCESSING task fails, the handler's next applied save is exactly that record: FAILED with the same attempts after a failure for good, RETRYING with one more after any other, or FAILED once they reach the maximum. |
| `Failures.FailedForAReason` | app/workers/worker.py:165-194 | In every run a task is first persisted FAILED by a handler whose in-memory attempts have reached the maximum, or one of whose earlier operations failed for good. |
| `Invariant.StepKeepsInv` | app/workers/worker.py:122-163 | Every step keeps leases, handlers, records and requests consistent: leases are on delivered entries, entries and handlers have persisted tasks and agree on them, and a live request's task is nobody else's. |
| `Invariant.StepKeepsLeased` | app/workers/worker.py:122-163 | A step that takes no lease from a live handler keeps each handler, until its XACK, the only holder of the lease on its entry. |
| `System.WorkHasShape` | app/workers/worker.py:122-194 | A handler saves its own in-memory task, re-enqueues only its own task, and acknowledges before it deletes, each on its own entry. |
| `System.ApiHasShape` | app/api/routes.py:83-104 | A request saves only its own task, first ACCEPTED and then QUEUED, and appends it only after that save. |
| `Worker.ReportWorker.HandleMessage` | app/workers/worker.py:122-163 | Under any interference and any failures the method's effects are those of the handler machine, and when it returns, raises or dies the machine has ended or has no turn left; a message without a task is acknowledged and deleted. |
| `Worker.ReportWorker.ProcessTask` | app/workers/worker.py:196-346 | From a loaded task: returns when the machine is at the acknowledgement, raises when it is at recovery with the same in-memory task. |
| `Worker.ReportWorker.ChooseFiling` | app/workers/worker.py:222-262 | Resolving, listing and selecting end where the machine does: at the existence check with the same job, or at the failure handler the exception leads to. |
| `Worker.ReportWorker.ProduceArtifact` | app/workers/worker.py:263-300 | Skips work for an existing PDF; otherwise downloads, renders, checks and stores it, operation for operation; gives up for good only on a permanent error or a result without PDF header. |
| `Worker.ReportWorker.StoreArtifact` | app/storage/artifact_store.py:140-152 | Stores source, PDF and metadata in this order, each as the machine does. |
| `Worker.ReportWorker.RecordSuccess` | app/workers/worker.py:302-327 | Records the completion under the resolved identity; a failing save goes to the transient handler, bookkeeping errors are swallowed. |
| `Worker.ReportWorker.FailPermanently` | app/workers/worker.py:348-351 | Fails the task if that is legal, otherwise raises with nothing changed. |
| `Worker.ReportWorker.FailTransiently` | app/workers/worker.py:353-368 | Counts the attempt in memory, then gives up, or persists RETRYING and QUEUED and re-enqueues; every error goes to recovery with the in-memory task as it is then. |
| `Worker.ReportWorker.RecoverFromUnhandled` | app/workers/worker.py:165-194 | Works on the re-read task: leaves a COMPLETED one alone, fails one that is out of attempts, else persists the raised attempts and leaves the entry pending. |
| `Projection.RunsFollowTheWorker` | app/workers/worker.py:122-163 | In every run of the system a handler does what the machine, and so `HandleMessage`, does when given the same turns. |
| `Projection.RunsFollowCreateReport` | app/api/routes.py:50-112 | In every run of the system a request does what the machine, and so `CreateReport`, does when given the same turns. |
| `Projection.CachedAnswerIsServed` | app/api/routes.py:66-81 | In every run a cached answer names a PDF that exists, under the report's own ticker, form and year, and its reference resolves to that file (for an accession of the usual form and at most one quarter segment). |
| `Repository.ReportRepository.GetTask` | app/reports/repository.py:67-69 | Returns the record found at its own turn, or none. |
| `Repository.ReportRepository.Transition` | app/reports/repository.py:116-127 | An illegal transition raises and changes nothing; a legal one updates the object and then saves it and, for a terminal state, clears its pointer, stopping at the first failure. |
| `Repository.ReportRepository.SaveAttempts` | app/reports/repository.py:129-133 | Saves the record as it is, in one write. |
| `Repository.ReportRepository.ForceFail` | app/reports/repository.py:135-153 | Leaves a COMPLETED task alone; otherwise makes it FAILED, saves it and clears its pointer. |
| `Repository.ReportRepository.PublishArtifact` | app/reports/repository.py:155-166 | Raises without an artifact; otherwise writes the pointer under the logical key of the task's identity and policy. |
| `Repository.ReportRepository.ClearPending` | app/reports/repository.py:108-109 | Removes the pointer of the path and policy, in one write. |
| `Queue.ReportQueue.Depth` | app/queue/stream.py:59-72 | The number of entries, or 0 for an error reply; other errors raise. |
| `Queue.ReportQueue.HasCapacity` | app/queue/stream.py:74-75 | Admits exactly as the machine's depth check does. |
| `Queue.ReportQueue.Enqueue` | app/queue/stream.py:79-85 | Appends exactly when the depth check admits, and tells a full queue from an error. |
| `Queue.ReportQueue.AckAndRemove` | app/queue/stream.py:107-114 | XACK, and XDEL only after it succeeded. |
| `Queue.ReportQueue.ClaimAbandoned` | app/queue/stream.py:116-140 | Tries each listed entry that was idle long enough, in order, at one turn each; if a claim raises or the process dies, returns what the earlier ones obtained. When nothing raises, it returns exactly the entries that are among the hundred oldest pending ones and idle long enough at the listing, and in the stream, pending and idle long enough at their own turn, oldest first. |
| `Queue.ListingIsOldest` | app/queue/stream.py:125-127 | Where leases are on delivered entries, a listing holds min(n, 100) of n pending entries: those with fewer than a hundred older ones. |
| `Queue.AbandonedAreIdle` | app/queue/stream.py:129-131 | The entries tried are exactly the listed ones idle for at least the claim timeout, each once, oldest first. |
| `Queue.ObtainedAreClaimed` | app/queue/stream.py:132-139 | An entry tried is returned if and only if it is still pending and idle long enough at its own XCLAIM. |
| `ArtifactWriter.AtomicWrite` | app/storage/artifact_store.py:155-159 | Creates the temporary file, fills it in any number of pieces and renames it only once it is whole, stopping at the first failure. |
| `Routes.CreateReport` | app/api/routes.py:50-112 | Refuses unknown tickers and invalid identities untouched. Answers from the cache if and only if the lookup succeeds and finds the logical key, with that pointer's accession and reference, and writes nothing. Otherwise its effects are those of the request machine: a task found behind the pending pointer is answered with its state; the new task is answered, QUEUED, if and only if its entry was just appended; a refusal if and only if its pointer was just cleared; an error answer only after an operation that failed. |
| `Routes.GetOrCreateTask` | app/reports/repository.py:78-106 | SET NX, then the existing task, or reclaiming the pointer and saving a new one, command for command; attaches if and only if a task with a record is found behind the key. |
| `RateLimiter.DecidesByFullHistory` | app/sec/rate_limiter.py:23-38 | When readings do not decrease (and, with key expiry, each call keeps up with the last grant before it), whenever the scripts run: a call is granted if and only if fewer than `limit` grants of the complete history have a reading within the last second. |
| `RateLimiter.ExpiryIsInvisible` | app/sec/rate_limiter.py:31-35 | Under the same clocks, expiring the key after two windows changes no decision. |
| `RateLimiter.RefinesExactly` | app/sec/rate_limiter.py:23-38 | For readings that do not decrease and any limit: after every prefix of the calls the expiring set is the recent part of the complete history if and only if every call keeps up with the last grant before it. |
| `RateLimiter.NextDecision` | app/sec/rate_limiter.py:23-38 | As long as earlier calls kept up, a decision is the one the history gives if and only if the call keeps up or the limit is not used up. |
| `RateLimiter.LimitOneIsExact` | app/sec/rate_limiter.py:23-38 | At a limit of 1 every decision is the one the history gives if and only if every call keeps up. |
| `RateLimiter.ExpiryIsExact` | app/sec/rate_limiter.py:23-38 | At any limit every call keeps up if and only if every decision is the one the history gives, also with any burst of other callers put in the place of any call. |
| `RateLimiter.ExpiryCanForget` | app/sec/rate_limiter.py:31-35 | A key that expires ahead of the readings lets through a call that the history would refuse. |
| `RateLimiter.ReadingWindowBound` | app/sec/rate_limiter.py:23-38 | Under the same clocks any one-second window of readings holds at most `limit` grants. |
| `RateLimiter.ReadingIntervalBound` | app/sec/rate_limiter.py:23-38 | Any half-open interval of L ms of readings holds at most limit * ceiling(L / 1000) grants. |
| `RateLimiter.WindowBound` | app/sec/rate_limiter.py:23-38 | When scripts run at most `late` ms after and `ahead` ms before their readings, any half-open real-time window of 1000 - late - ahead ms holds at most `limit` grants, for any number of callers, with or without key expiry. |
| `RateLimiter.SkewTolerantBound` | app/sec/rate_limiter.py:56-62 | With every clock within d ms of real time when read, and every script run at most l ms after the reading, 2d + l < 1000, any half-open real-time window of 1000 - 2d - l ms holds at most `limit` grants. |
| `RateLimiter.WindowIsExact` | app/sec/rate_limiter.py:23-38 | All real-time windows of a width hold at most `limit` grants, for all such callers, if and only if the width is at most 1000 - late - ahead. |
| `RateLimiter.DelayedCalls` | app/sec/rate_limiter.py:56-62 | With clocks exact when read and a limit of 1, a script delayed by two seconds lets two grants fall within 1 ms. |
| `RateLimiter.IntervalBound` | app/sec/rate_limiter.py:23-38 | Any half-open real-time interval of L ms holds at most limit * ceiling(L / (1000 - late - ahead)) grants. |
| `RateLimiter.GlobalSecRateLimiter.TryAcquire` | app/sec/rate_limiter.py:56-62 | One script evaluation: the set stays that of the calls so far, and the history grows by this call if and only if it is granted. |
| `RateLimiter.GlobalSecRateLimiter.Acquire` | app/sec/rate_limiter.py:64-77 | The polling loop stops at the first round that is granted or past the timeout: with exactly one new grant in the first case, and with none in the second; it polls on in no other. |
| `Retry.RetryPolicy.Run` | app/sec/retry.py:64-94 | For n >= 1: between 1 and n calls, all but the last answered by 429, 500, 502, 503, 504 or a network error; it returns a response, raises a permanent error for any other status and a transient one, with its Retry-After, if all n calls failed in passing. Each sleep is the Retry-After capped by max_delay, or else from the capped backoff to 1.5 times it; k - 1 sleeps add up to at most 1.5 (k - 1) max_delay and, without Retry-After, at most 1.5 base (2^(k - 1) - 1). |
| `Retry.TotalSleepBound` | app/sec/retry.py:57-62 | Any m delays in a row add up to at most 1.5 m max_delay. |
| `Retry.ExponentialSleepBound` | app/sec/retry.py:57-62 | Without Retry-After they add up to at most 1.5 base (2^m - 1). |
| `SecClient.NoRequestWithoutGrant` | app/sec/client.py:80-90 | In every prefix of every interleaving the GETs sent, retries included, use pairwise different grants, so they are at most the grants. |
| `SecClient.PermitsPerWindow` | app/sec/client.py:80-81 | With clocks within d ms when read and scripts delayed by at most l ms, at most `limit` GETs go out on permits granted in any half-open real-time window of 1000 - 2d - l ms. |
| `SecClient.EachGetIsBounded` | app/sec/client.py:70-90 | Each call sends at most max_attempts GETs, and when it is finished its answers and its outcome are those of one retry loop: all but the last may pass, and the last decides. |
| `SecClient.Fetcher.FetchUrl` | app/sec/client.py:70-90 | The method form: each GET uses up one new grant of the limiter and is answered in turn; the loop ends as the retry policy says, and is unfinished only while the limiter has neither granted nor timed out. |
| `Submissions.ParseSubmissions` | app/sec/submissions.py:60-87 | Succeeds if and only if a CIK is present and the accessions cover the dated rows; the records are the dated rows in order, field by field: form, date, accession, document (or empty past the column) and company name of that row, and the CIK padded with zeros to ten characters. |
| `Submissions.SelectLatestIsCorrect` | app/sec/submissions.py:90-114 | The selected filing qualifies, no qualifying one is later, and it is the first of equals. |
| `Submissions.ParseThenSelect` | app/sec/submissions.py:60-114 | The chosen record is, field by field, one row of the columns, the first among the latest rows that are dated, of the form asked for (or its amendment), of the year asked for, and name a document. |
| `Submissions.ParseThenSelectRaises` | app/sec/submissions.py:108-113 | Selection raises if and only if no row qualifies. |
| `Submissions.AmendmentsNeverOlder` | app/sec/submissions.py:51-57 | Including amendments never finds nothing where there was something, nor an older filing. |
| `Submissions.BeforeIsEarlier` | app/sec/submissions.py:114 | On calendar dates the order used is the order of the days. |
| `Identity.ParseUndoesLogicalPath` | app/reports/identity.py:60-77 | For a valid identity of any integer year, parsing its path gives it back if and only if the quarter is absent or one non-empty path segment. |
| `Identity.CaseDoesNotMatter` | app/reports/identity.py:50-58 | A ticker and form that are valid in upper case are accepted in any case, and kept in upper case. |
| `Identity.TickerGrammar` | app/reports/identity.py:13 | A ticker is a letter and up to nine letters, dots or dashes. |
| `Identity.FormGrammar` | app/reports/identity.py:14 | A form is one alphanumeric run, or two with a dash between them, possibly followed by `/A`. |
| `Identity.KeysAreApart` | app/reports/repository.py:41-52 | No artifact key is a pending key, and both are prefix, path and policy suffix. |
| `Identity.KeysEqualExactly` | app/reports/repository.py:27-52 | Two Redis keys are equal if and only if ticker, form and year agree and either quarter (an empty one counts as none) and policy agree too, or the policies differ and the quarter asked for without amendments is the other one followed by `+amended`. |
| `Identity.KeysInjective` | app/reports/repository.py:27-52 | For quarters that are absent, or non-empty and not another quarter followed by `+amended`, keys determine identity and policy. |
| `Identity.AmendedQuarterCollides` | app/reports/repository.py:27-52 | A quarter ending in `+amended` has the key of the shorter quarter under the other policy. |
| `ArtifactStore.ParseRefUndoesRefFor` | app/storage/artifact_store.py:64-103 | A reference parses back to its identity and accession if and only if the quarter is absent or one non-empty path segment. |
| `ArtifactStore.AcceptedRefReprints` | app/storage/artifact_store.py:84-103 | Any accepted reference re-prints to one that parses to the same pair. |
| `ArtifactStore.RefFindsWrittenFile` | app/storage/artifact_store.py:105-133 | The advertised reference resolves to the PDF path that was written, whatever the source extension, if and only if the quarter contributes at most one path segment. |
| `ArtifactStore.ExtensionIsLast` | app/workers/worker.py:263-267 | The source extension is what the last dot of the last path component starts, if something other than dots precedes it there, and `.html` otherwise. |
| `ArtifactStore.PhysicalInjective` | app/storage/artifact_store.py:115-133 | Under one storage root different (ticker, form, year, accession), file and temporary name are different paths. |
| `ArtifactStore.KeysAreThePaths` | app/storage/artifact_store.py:124-133 | The structured file keys of the protocol model stand for the paths of `paths_for`. |

## Left out

- PDF rendering (app/conversion/pdf.py) and the SEC's answers: any result, or a permanent, transient or other error. A submissions answer reaches the protocol model already parsed; `Submissions` covers the parsing.
- HTTP, FastAPI routing, response schemas, conditional requests, and the read-only endpoints (app/api/routes.py:115-224): plumbing over functions modelled here.
- CIK mapping refresh and persistence (app/companies/cik_mapping.py): resolving a ticker gives a CIK or fails. The refresh does not go through `SecClient`, so the rate results exclude it.
- JSON of task records, their timestamps, error texts and source URLs: records are stored values with the remaining fields.
- The run loop of the worker, batches, stop requests and `ensure_group` (app/workers/worker.py:75-120, app/queue/stream.py:39-55): the consumer group exists from the start, `read` delivers one entry a step, and several entries read or claimed together are several steps.
- Stream entries without a `task_id` field: the service itself never writes one.
- Random jitter, uuids and Redis entry ids: jitter is any value in its range; ids are fresh, entry ids grow.
- Writer threads that outlive their cancelled task, and directory creation, which is part of opening a file.
- Python details: `str.upper` and digits beyond ASCII, spaces and underscores accepted by `int`, a trailing newline accepted by `$`, zeros put after a sign by `zfill`. Retry delays and Retry-After are real numbers; a NaN is not modelled.
- Queue.ReportQueue.ClaimAbandoned: an XCLAIM that raises may or may not have leased its entry; such an entry, like those claimed before it, stays leased until it is idle again.
