# Verified model of the Telegram phone-number checker's job engine

The program imports phone numbers into jobs and lets workers check them one by one over a Telegram account. Several
workers, managers, recoveries and operators share three tables (`jobs`, `account_worker_state`, `check_items`) and
coordinate only through guarded SQL statements: a worker leases a job and an account, renews both leases, takes one
due item with a fresh processing token, sends one request, and stores an outcome that is guarded by the token and by
the lease. Workers stall, crash, lose their leases, are taken over and are recovered. This project models that engine
and proves what it relies on, over every interleaving, every input and every run.

`dafny verify dfyconfig.toml` checks the whole project.

## How the model is built

* **Tables and statements.** `Tables.dfy` holds the rows and the predicates the SQL guards share; `Statements.dfy`
  gives the effect of every statement as a function of the tables and of the second the statement runs in.
* **The protocol.** `Protocol.dfy` runs those statements as events of a state machine over any number of workers. One
  guarded statement is one atomic event, a claim is a SELECT and later an UPDATE that trusts the clock the SELECT read,
  and recovery appears both as one step and as its unguarded writes at arbitrary moments. A run is any finite sequence
  of events, so a lemma about all sequences is a lemma about all interleavings. `Invariant.dfy` has the inductive
  invariant; `ItemHistory.dfy`, `LeaseSafety.dfy`, `Exclusivity.dfy`, `Commands.dfy`, `Surroundings.dfy` and
  `Validation.dfy` have the theorems.
* **The objects.** `Repositories.dfy`, `Worker.dfy`, `JobManager.dfy`, `JobRun.dfy`, `RateLimiter.dfy`,
  `LeaseKeeper.dfy`, `Transactions.dfy`, `Distribution.dfy`, `JobCreation.dfy`, `Accounting.dfy` and `Validation.dfy`
  hold the imperative code in its own shape: classes that update their fields, loops with invariants. Every repository
  method is proved to have exactly the effect `Statements.dfy` gives it, so the protocol theorems speak about those
  methods.
* **Time.** The tables hold whole seconds. `Timestamps.dfy` proves that comparing the stored ISO texts is comparing
  those seconds (date-time of sections 5.1 and 5.6 of RFC 3339), so the text guards in SQL and the epoch guards in
  Python are one predicate here. The limiter, the keeper and the processing loop use milliseconds.
* **A worker's surroundings.** At every await, and between the statements of a turn, `Outside.dfy` lets the clock move
  and everybody else act, bounded by one predicate, `Tables.Rely`: ownership is only ever lost, settled rows stay, and
  while both leases are held all of the job's rows do. `Surroundings.OthersKeepRely` proves that bound for every run of
  the protocol in which the worker's own loop does nothing, between requests and with a request in flight. Rows of other jobs may change, come and go.

## Where the code does less than one might expect

Each is proved, with its exact condition, and with a concrete run where one shows how it comes about.

* A stored PAUSE or CANCEL can be lost. A worker polls and clears the job's command before it checks that it still owns
  the job (`telegram_phone_number_checker/worker.py:238-267`), so a stale worker can swallow the PAUSE meant for its
  successor (`Commands.StaleWorkerSwallowsPause`). And `mark_started_if_owned` resets the command
  (`telegram_phone_number_checker/repositories/job_repository.py:455-466`), so a CANCEL stored between a worker's claim
  and its start, or before the claim, is cleared by that start (`Commands.StartLosesCancel`). In both runs the worker
  keeps sending requests. `Commands.ClearedExactlyBy` lists the writes that remove a stop command in any state, each
  with its guard; `Commands.SwallowedExactlyBy` the four that can take it from the owner that has not read it; and
  `Commands.StopsAfterCommand` proves at most one more request, from the SELECT of the claim on, in every run in which
  none of them comes.
* A PAUSE that a worker hears is acknowledged, which drops its job lease, and only then its manager finalises
  (`telegram_phone_number_checker/job_manager.py:303-355`). If every item is settled by then, the guarded COMPLETED mark
  no longer matches and `run` raises a lost-ownership error instead; if the worker last met a rate limit, `run` returns
  RATE_LIMITED while the row says PAUSED. `JobRuns.WindUp` gives the result and the row for every ending.
* Two statements, and only these, can leave a job with one worker and its account with another: a late account claim
  after the job has changed hands, and a job claim over an expired row while the account is still leased live for that
  job. `Exclusivity.SplitExactlyBy` gives the guards, `Exclusivity.UnsplitExactly` the equivalence over whole runs,
  `Commands.CutClaimSplitsOwnership` and `Commands.JobClaimSplitsOwnership` a run of each kind. An uninterrupted
  `Worker.claim` meets neither guard (`Exclusivity.OwnershipNeverSplit`). The takeover grace is checked only in the
  SELECT of a claim, so it is not part of any theorem about the UPDATE.
* `Database.transaction` catches `Exception`, so a `KeyboardInterrupt` or `CancelledError` leaves the depth counter
  raised, and no later `commit()` or block on that connection commits anything (`Transactions.DepthRestored`,
  `Transactions.LeakedDepthNeverCommits`). A rollback also takes with it whatever was pending before the block
  (`Transactions.RollbackIsExact`).
* The heartbeat loop fails closed in time if and only if the failures it allows fit into the lease:
  `allowed * interval <= 1000 * (lease - 1)` milliseconds, where a failure limit below one allows one failure
  (`LeaseKeeper.FitIsExact`). Every configuration with a limit of at most three and a lease of at least four seconds
  does; the configuration is not checked, so others can be set. The worker's documentation
  (`telegram_phone_number_checker/worker.py:49`) speaks of renewing every third of the lease; the code renews every
  quarter, between 0.25 and 10 seconds.
* `get_next_retry_at` looks for RATE_LIMITED rows and `next_due_item` does not
  (`telegram_phone_number_checker/repositories/result_repository.py:324-382`), so such a row would keep its job waiting
  for ever (`Selection.WakesButNeverDue`). No worker writes that status to a row.
* `claim_worker` renews without looking at the expiry when the row already names the caller, so it revives an expired
  lease of that caller (`Repositories.JobRepository.ClaimWorker`). Worker ids are fresh and claim once, so no claim of
  the protocol takes that branch.

## Model

| member | source | states |
|---|---|---|
| Repositories.ResultRepository.MarkProcessing | telegram_phone_number_checker/repositories/result_repository.py:69-108 | claims a selectable row under a fresh token, guarded by the caller's live job lease, and returns the token exactly when the row was claimed; everything else is untouched |
| Repositories.ResultRepository.SaveResult | telegram_phone_number_checker/repositories/result_repository.py:110-189 | writes the outcome, clearing token and recovery time, exactly when token and lease guards hold; reports whether it did |
| Repositories.ResultRepository.MarkRetry | telegram_phone_number_checker/repositories/result_repository.py:223-244 | is the save of a RETRY_REQUIRED outcome under the same guards |
| Repositories.ResultRepository.MarkInFlightUnknown | telegram_phone_number_checker/repositories/result_repository.py:191-221 | quarantines the row fenced by the token, without any lease guard, and nothing else |
| Repositories.ResultRepository.RecoverInterrupted | telegram_phone_number_checker/repositories/result_repository.py:384-411 | the scan quarantines every PROCESSING row of the job and no other row, leaves none in flight, and returns how many there were |
| Repositories.ResultRepository.NextDueItem | telegram_phone_number_checker/repositories/result_repository.py:366-382 | finds the first selectable row by id, and none exactly when none is selectable |
| Repositories.ResultRepository.GetNextRetryAt | telegram_phone_number_checker/repositories/result_repository.py:324-349 | the earlier of the two minima over retry times and recovery times |
| Repositories.ResultRepository.HasUnfinishedItems | telegram_phone_number_checker/repositories/result_repository.py:307-322 | the count of non-terminal rows is positive exactly when some row of the job is not terminal |
| Repositories.ResultRepository.CountPendingAllStatuses | telegram_phone_number_checker/repositories/result_repository.py:351-364 | counts the selectable rows; positive exactly when one is due |
| Repositories.JobRepository.ClaimWorker | telegram_phone_number_checker/repositories/job_repository.py:119-178 | an uninterrupted claim succeeds exactly when the caller is on the row already, or no other lease is inside its grace and the row is free or expired; only then the lease is written, whatever the two clock reads say |
| Repositories.JobRepository.RenewWorker | telegram_phone_number_checker/repositories/job_repository.py:180-195 | extends a lease only for its live owner; an expired lease is never revived |
| Repositories.JobRepository.IsJobOwnedBy | telegram_phone_number_checker/repositories/job_repository.py:197-213 | true exactly for the named worker with an unexpired lease |
| Repositories.JobRepository.ReleaseWorker | telegram_phone_number_checker/repositories/job_repository.py:215-227 | clears the lease only if the row names the caller |
| Repositories.JobRepository.ClearWorkerOwnership | telegram_phone_number_checker/repositories/job_repository.py:229-241 | clears the lease whoever holds it |
| Repositories.JobRepository.ClaimAccount | telegram_phone_number_checker/repositories/job_repository.py:245-294 | the account claim, creating the row if needed: guard and expiry come from two clock reads, and no same-worker shortcut exists |
| Repositories.JobRepository.RenewAccount | telegram_phone_number_checker/repositories/job_repository.py:296-314 | extends the account lease only for worker and job that hold it live |
| Repositories.JobRepository.IsAccountOwnedBy | telegram_phone_number_checker/repositories/job_repository.py:316-339 | true exactly for worker and job of an unexpired account lease |
| Repositories.JobRepository.ReleaseAccount | telegram_phone_number_checker/repositories/job_repository.py:341-357 | clears the account row only if it names worker and job |
| Repositories.JobRepository.HasLiveAccountLeaseForJob | telegram_phone_number_checker/repositories/job_repository.py:359-368 | the search over the account rows finds a live lease for the job exactly when one exists |
| Repositories.JobRepository.HasLiveWorkerLease | telegram_phone_number_checker/repositories/job_repository.py:577-586 | true exactly when some worker holds the job live |
| Repositories.JobRepository.UpdateStatus | telegram_phone_number_checker/repositories/job_repository.py:69-74 | sets the status and nothing else |
| Repositories.JobRepository.UpdateStatusIfOwned | telegram_phone_number_checker/repositories/job_repository.py:76-89 | sets the status for the live owner only, and reports it |
| Repositories.JobRepository.MarkStarted | telegram_phone_number_checker/repositories/job_repository.py:443-453 | sets RUNNING, start time and clears the command |
| Repositories.JobRepository.MarkStartedIfOwned | telegram_phone_number_checker/repositories/job_repository.py:455-466 | starts the job for the live owner only |
| Repositories.JobRepository.MarkFinishedIfOwned | telegram_phone_number_checker/repositories/job_repository.py:475-485 | writes COMPLETED for the live owner only |
| Repositories.JobRepository.MarkCancelledIfOwned | telegram_phone_number_checker/repositories/job_repository.py:487-499 | writes CANCELLED and clears command and pause state for the live owner only |
| Repositories.JobRepository.MarkCancelledIfUnowned | telegram_phone_number_checker/repositories/job_repository.py:501-514 | writes CANCELLED exactly when nobody holds the job live, and reports it |
| Repositories.JobRepository.AcknowledgePause | telegram_phone_number_checker/repositories/job_repository.py:596-607 | writes PAUSED and drops the lease unless another worker is on the row |
| Repositories.JobRepository.SetPauseRequested | telegram_phone_number_checker/repositories/job_repository.py:588-594 | stores PAUSE with its time, status untouched |
| Repositories.JobRepository.ClearPauseState | telegram_phone_number_checker/repositories/job_repository.py:609-615 | clears both pause times |
| Repositories.JobRepository.GetRequestedCommand | telegram_phone_number_checker/repositories/job_repository.py:98-102 | the stored command, NONE for a missing job |
| Repositories.JobRepository.SetRequestedCommand | telegram_phone_number_checker/repositories/job_repository.py:91-96 | stores the command and nothing else |
| Protocol.FirstDue | telegram_phone_number_checker/repositories/result_repository.py:366-382 | the item a worker reads before it waits for the limiter: the first selectable row of its job |
| Invariant.InitialInv | telegram_phone_number_checker/main.py:342-357 | freshly created tables satisfy the engine's invariant |
| Invariant.ClaimAtOnceIsItsStatements | telegram_phone_number_checker/worker.py:112-176 | claiming in one step equals the claim's statements with nothing in between |
| Invariant.RecoveryIsItsStatements | telegram_phone_number_checker/job_manager.py:77-99 | recovering in one step equals recovery's writes with nothing in between |
| Invariant.CommitMeetsItsSnapshot | telegram_phone_number_checker/worker.py:503-576 | when a guarded outcome write succeeds, attempt count and limit are the ones read before the claim, and the attempt is within the limit |
| Invariant.FinishInv | telegram_phone_number_checker/job_manager.py:331-341 | marking COMPLETED some time after the unfinished-items check keeps "COMPLETED implies all terminal" |
| Invariant.StepInv | telegram_phone_number_checker/worker.py:232-317 | every event of every worker, manager, recovery and controller keeps the invariant, split recovery included |
| ItemHistory.RunInv | telegram_phone_number_checker/worker.py:232-317 | the invariant survives every run |
| ItemHistory.EventRowStep | telegram_phone_number_checker/repositories/result_repository.py:69-221 | in one event a row stays, is claimed, is quarantined, or is answered with exactly one more attempt; nothing else can happen to it |
| ItemHistory.OwnStepsTakeEffect | telegram_phone_number_checker/repositories/result_repository.py:69-221 | a claim that meets its guard puts the row in flight under its token, a quarantine by the token's holder takes it out, and a recovery leaves nothing of the job in flight |
| ItemHistory.NoLostUpdate | telegram_phone_number_checker/worker.py:364-576 | no lost update: a successful commit adds exactly one to the attempt count the row still has from the worker's early read, never beyond the limit, and the row says what the response said (FOUND stays FOUND, an exhausted retry is PERMANENT_ERROR), under every interleaving and a split recovery |
| ItemHistory.ClaimsConserved | telegram_phone_number_checker/repositories/result_repository.py:69-221 | over every run, claims are balanced by attempts, quarantines and the request in flight |
| ItemHistory.ClaimsAccountedFor | telegram_phone_number_checker/retry_queue.py:72-123 | from creation on: successful claims = attempts + quarantines + one if PROCESSING; attempts never exceed the limit and stay below it while the item is unfinished |
| ItemHistory.TokenStep | telegram_phone_number_checker/repositories/result_repository.py:69-108 | a row comes to carry a token only by the claim that issued it |
| ItemHistory.UniqueRun | telegram_phone_number_checker/repositories/result_repository.py:69-108 | in every run no two rows carry the same token |
| ItemHistory.TokenNeverReturns | telegram_phone_number_checker/repositories/result_repository.py:137-148 | a token that has left its row never comes back to any row |
| ItemHistory.TokenResolvedOnce | telegram_phone_number_checker/repositories/result_repository.py:137-221 | every token is resolved by at most one step of the run, on one item |
| ItemHistory.UntouchedUntilClaimed | telegram_phone_number_checker/repositories/result_repository.py:91-108 | a row that is not in flight does not change at all until its next claim |
| ItemHistory.BetweenTwoClaims | telegram_phone_number_checker/repositories/result_repository.py:91-221 | between two consecutive claims of an item exactly one step resolves the first, and the second comes no earlier than the retry or recovery time that step wrote |
| ItemHistory.QuarantineHolds | telegram_phone_number_checker/repositories/result_repository.py:384-411 | after a quarantine at q no claim of the item happens before q + grace, by anybody |
| ItemHistory.TerminalForever | telegram_phone_number_checker/repositories/result_repository.py:97-103 | a settled row is never written again |
| ItemHistory.SettledByAnswer | telegram_phone_number_checker/worker.py:483-576 | over every run from creation: a settled number was settled by an answer committed to its row, and the row still says what that answer said, so it is FOUND or NOT_DISCOVERABLE only because the service answered that |
| ItemHistory.CompletedMeansDone | telegram_phone_number_checker/job_manager.py:331-341 | in every reachable state a COMPLETED job has only terminal items, although check and mark are separate |
| ItemHistory.WakeUpIsClaimable | telegram_phone_number_checker/repositories/result_repository.py:324-382 | in every reachable state, with nothing in flight or due, the next wake-up lies in the future and from then on one and the same row passes the claim guard of whoever owns the job; nothing is due before |
| LeaseSafety.JobLeaseMoves | telegram_phone_number_checker/repositories/job_repository.py:119-241 | the only ways a job lease changes in one event: renewal by its live owner, release by its holder, force-release, or a claim over a dead lease |
| LeaseSafety.AccountLeaseMoves | telegram_phone_number_checker/repositories/job_repository.py:245-357 | the same for account leases |
| LeaseSafety.HeartbeatExtends | telegram_phone_number_checker/repositories/job_repository.py:180-314 | a heartbeat of a live owner carries job and account on for exactly the lease time; one that comes too late changes nothing |
| LeaseSafety.OwnerWrites | telegram_phone_number_checker/repositories/job_repository.py:76-485 | start, status and finish of a live owner reach its job's row, those of anybody else reach none |
| LeaseSafety.ManagerHolds | telegram_phone_number_checker/webapi/account_manager.py:134-150 | an account manager's claim of a free account holds it for the lease time, five minutes at least, and its release gives it back |
| LeaseSafety.LiveJobLeaseStays | telegram_phone_number_checker/repositories/job_repository.py:141-176 | no claim displaces a live job lease, though its UPDATE trusts the clock its SELECT read; only the holder's release or a force-release ends it |
| LeaseSafety.LiveAccountLeaseStays | telegram_phone_number_checker/repositories/job_repository.py:254-294 | no claim displaces a live account lease |
| LeaseSafety.OwnershipEnds | telegram_phone_number_checker/repositories/job_repository.py:180-227 | over runs without force-release, ownership ends only by expiry or by the owner's own release |
| LeaseSafety.LostForever | telegram_phone_number_checker/repositories/job_repository.py:197-213 | once a worker past its claim does not own its job, it never does again |
| LeaseSafety.AccountLostForever | telegram_phone_number_checker/repositories/job_repository.py:316-339 | the same for its account |
| LeaseSafety.StaleWorkerIsMute | telegram_phone_number_checker/repositories/job_repository.py:76-89 | after ownership is lost, no guarded statement of that worker changes any table in any continuation |
| LeaseSafety.OwnedRowsAreFenced | telegram_phone_number_checker/repositories/result_repository.py:114-221 | while a worker owns a job, nobody else's event changes a row of it, except a quarantine by the worker whose token the row still carries |
| LeaseSafety.CleanupSparesOthers | telegram_phone_number_checker/worker.py:185-230 | pause acknowledgement, rollback and releases never change a lease that names another worker |
| LeaseSafety.CleanupReleases | telegram_phone_number_checker/worker.py:185-230 | after both releases neither row names the worker |
| Exclusivity.ClaimAllOrNothing | telegram_phone_number_checker/worker.py:112-176 | an uninterrupted claim yields both leases, over dead ones only, or leaves the worker on neither row and tells which lease was busy |
| Exclusivity.SplitExactlyBy | telegram_phone_number_checker/repositories/job_repository.py:141-294 | one event splits an account from its job if and only if it is a late account claim or a job claim under a live account lease, each given by a guard on the state before it |
| Exclusivity.UnsplitExactly | telegram_phone_number_checker/database_validation.py:157-189 | over every run from an unsplit state: job and account name the same worker in every state if and only if no event of the run meets one of the two guards |
| Exclusivity.OwnershipNeverSplit | telegram_phone_number_checker/database_validation.py:157-189 | with uninterrupted claims, a live account lease for a job and a worker on that job's row always name the same worker |
| Exclusivity.AtMostOneInFlight | telegram_phone_number_checker/job_manager.py:58-100 | in particular, with recovery and claim as one step, a job never has two items in flight |
| Exclusivity.SingleRun | telegram_phone_number_checker/repositories/job_repository.py:164-176 | over every run, split claims and split recoveries included, in which each claim that wins the job finds no row of it in flight: never two items of the job in flight, and an owner between requests has left none |
| Commands.StopsAfterCommand | telegram_phone_number_checker/worker.py:232-265 | after PAUSE or CANCEL is stored, a worker anywhere from the SELECT of its claim to its next look at the command starts at most one more request, and none once it has to read the command first, in every run in which no event meets a guard that takes the command away while the worker may still own its job and has not read it |
| Commands.LostSendsNothing | telegram_phone_number_checker/worker.py:364-400 | a worker that does not own its job sends no request in any continuation |
| Commands.ClearedExactlyBy | telegram_phone_number_checker/repositories/job_repository.py:91-96 | in every state a stored stop command disappears if and only if one of seven writes meets its guard: withdrawn, forced start, forced cancel, cleared by a worker that polled, reset by an owner's start, acknowledged, or cancelled by the owner |
| Commands.SwallowedExactlyBy | telegram_phone_number_checker/worker.py:329-335 | while a worker owns its job and has not read its command, wherever it stands between claim and poll, the command disappears exactly when a controller withdraws it or starts the job, a worker of the job that polled something clears it, or the owner's own start does |
| Commands.CommandCarriedOut | telegram_phone_number_checker/worker.py:238-303 | a stop command that is heard is carried out: it is taken off the row and the loop is left; PAUSE leaves the job paused and nobody's unless it is somebody else's, CANCEL leaves the job of its live owner CANCELLED |
| Commands.StaleWorkerSwallowsPause | telegram_phone_number_checker/worker.py:238-265 | a concrete run in which a stale worker's poll makes the successor send two requests after PAUSE |
| Commands.StartLosesCancel | telegram_phone_number_checker/job_manager.py:202-207 | a concrete run in which a CANCEL stored between claim and start is cleared by the start, and the owner sends two requests after it |
| Commands.CutClaimSplitsOwnership | telegram_phone_number_checker/worker.py:112-160 | a concrete interrupted claim whose late account claim splits job and account |
| Commands.JobClaimSplitsOwnership | telegram_phone_number_checker/repositories/job_repository.py:164-176 | a concrete run in which a newcomer's job claim splits them while the account is still leased live |
| Selection.CountDueAgrees | telegram_phone_number_checker/repositories/result_repository.py:351-382 | the pending count is positive exactly when a due item exists |
| Selection.NoLostWakeUp | telegram_phone_number_checker/repositories/result_repository.py:307-382 | unfinished items, none in flight, none due: the wake-up is in the future, an item is due at t exactly when t has reached it, and one row stays selectable from then on |
| Selection.WakesButNeverDue | telegram_phone_number_checker/repositories/result_repository.py:324-382 | any row with a wake-up of its own is selectable from then on, except a RATE_LIMITED one, which never is |
| Selection.OnlyProcessingNeverWakes | telegram_phone_number_checker/repositories/result_repository.py:324-349 | there is no wake-up, ever, exactly when every unfinished row is in flight |
| Outside.World.Sleep | telegram_phone_number_checker/worker.py:357-362 | a sleep never ends early; meanwhile the others keep within Tables.Rely |
| Surroundings.OthersKeepRely | telegram_phone_number_checker/worker.py:401-432 | every run of the protocol without a step of the worker's own loop, and without a recovery torn apart, keeps Tables.Rely: job and account ownership are only lost, settled rows stay, and while both leases are held all of the job's rows do, with or without a request in flight |
| Surroundings.ReachableHeldOnce | telegram_phone_number_checker/repositories/result_repository.py:69-108 | in every reachable state two requests in flight carry different tokens |
| RetryQueue.CalculateNextRetryDelay | telegram_phone_number_checker/retry_queue.py:14-33 | the server's positive delay verbatim; otherwise the capped exponential backoff, or with jitter its product with the draw cut to whole seconds, which lies between half and all of it |
| RetryQueue.BackoffGrows | telegram_phone_number_checker/retry_queue.py:36-49 | backoff starts at the base, doubles with every attempt and stays at the cap once it is reached |
| Budgets.BudgetUpdate | telegram_phone_number_checker/retry_queue.py:83-101 | changing one row changes the job's remaining attempts by that row's share |
| Workers.Worker.ScheduleRetry | telegram_phone_number_checker/retry_queue.py:72-123 | stores PERMANENT_ERROR with RETRY_EXHAUSTED at the item's own limit or the configured one, otherwise RETRY_REQUIRED after the server's positive delay verbatim or between half and all of the backoff |
| Workers.Worker.HandleResponse | telegram_phone_number_checker/worker.py:483-576 | under token and lease guards the row says what the response said: FOUND and NOT_DISCOVERABLE as they came, PERMANENT_ERROR with its error, anything else exhausted or to be retried after the delay it asks for, a flood wait without one counting as a minute; one attempt more in each case; only a flood wait touches the limiter |
| Workers.Worker.QuarantineInFlight | telegram_phone_number_checker/worker.py:465-481 | writes the token-fenced quarantine with the recovery grace |
| Workers.Worker.AwaitResponse | telegram_phone_number_checker/worker.py:401-451 | an answer counts only while both leases are held before and after it; without them the item is quarantined under its token; every answer paces the limiter |
| Workers.Worker.AwaitAndCommit | telegram_phone_number_checker/worker.py:401-455 | the row is answered, or no longer in flight under its token; it stays in flight only if the request raised, or the guards refused the outcome. A stored outcome costs budget and touches no other row of the job |
| Workers.Worker.AcquireAndRunOne | telegram_phone_number_checker/worker.py:364-463 | sends at most one request, and only with budget left; while owned it attempts exactly this item, once |
| Workers.Worker.PollPersistedCommand | telegram_phone_number_checker/worker.py:329-335 | the stored command replaces one given to the worker directly, and none is left behind on the row |
| Workers.Worker.Obey | telegram_phone_number_checker/worker.py:238-303 | the loop is left by CANCEL or PAUSE exactly when that is what the worker was asked; a PAUSE is acknowledged |
| Workers.Worker.WaitForNextRetry | telegram_phone_number_checker/worker.py:341-355 | waits until the next wake-up or for five seconds, a moment even when the wake-up has just gone by, unless the worker is cancelled |
| Workers.Worker.WaitOrStop | telegram_phone_number_checker/worker.py:284-293 | with nothing due, the loop stops only when nothing is unfinished; otherwise, while owned and not cancelled, the next wake-up has come strictly nearer |
| Workers.Worker.WaitForRateRelease | telegram_phone_number_checker/worker.py:337-339 | waits until the block ends or for five seconds, a second even when it has just ended, and marks the worker rate-limited |
| Workers.Worker.Work | telegram_phone_number_checker/worker.py:267-295 | blocked: waits and sends nothing; otherwise, with an item due, attempts the first one by id and no other; otherwise waits, or stops when nothing is unfinished |
| Workers.Worker.Turn | telegram_phone_number_checker/worker.py:237-303 | one turn is ended by CANCEL or PAUSE exactly when the worker was asked that, at once and without a request; otherwise it ends the loop or makes progress in the order of ownership, attempts left, time to the next wake-up, attempting the first due item of the job and never before the limiter's block is over |
| Workers.Worker.Process | telegram_phone_number_checker/worker.py:232-317 | the loop terminates in every world; it ends by a command exactly when it has heard one that asks it to stop, and leaves a PAUSE acknowledged; it sends at most the attempts left over the unfinished items, and when nobody interferes ends with every item of the job terminal |
| JobManagement.ClaimBoth | telegram_phone_number_checker/worker.py:112-176 | an uninterrupted claim is refused exactly when a lease of the job, or else of the account, has not run out together with the takeover grace (its own account lease without it); it writes both leases for the configured time, leaves the job nobody's when the account is refused, and is the one-step claim of the protocol |
| JobManagement.RecoverJob | telegram_phone_number_checker/job_manager.py:58-100 | a live lease on the job or on an account for it, and nothing is touched; otherwise a running job is PAUSED and nobody's, the account row naming its worker is cleared, and exactly the rows in flight are quarantined; it is the one-step recovery of the protocol |
| JobManagement.StaleMeansNotLive | telegram_phone_number_checker/job_manager.py:385-407 | the staleness check on fractional seconds agrees with the guards on whole seconds |
| JobManagement.Finalise | telegram_phone_number_checker/job_manager.py:303-355 | a cancel comes first, then a rate limit, then completion; CANCELLED and COMPLETED need the lease, COMPLETED every item settled, anything else is PAUSED; the owned row says what is returned, a disowned one gets its recounted totals only |
| JobManagement.Pause | telegram_phone_number_checker/job_manager.py:450-466 | a running job gets a PAUSE request with its time and keeps status and lease; any other is PAUSED at once with both pause times cleared; COMPLETED and unknown jobs are refused untouched |
| JobManagement.Resume | telegram_phone_number_checker/job_manager.py:468-486 | succeeds exactly for a known, uncompleted job without a live worker, and clears command and both pause times |
| JobRuns.Release | telegram_phone_number_checker/worker.py:185-230 | afterwards neither lease names the worker, and leases of others are as before |
| JobRuns.GrantedAfterRecovery | telegram_phone_number_checker/job_manager.py:152-199 | a claim granted right after recovery holds both leases and finds no row of the job in flight |
| JobRuns.Enter | telegram_phone_number_checker/job_manager.py:127-210 | turns a job down for exactly the stated reasons, in their order: unknown, live, paused (by its operator or by this recovery) without auto-resume, job busy, account busy; a refused run holds no lease, a paused one is left as recovery left it |
| JobRuns.FreshWorkerMayRun | telegram_phone_number_checker/job_manager.py:127-199 | a fresh worker id may start a run in every reachable state |
| JobRuns.WindUp | telegram_phone_number_checker/job_manager.py:253-355 | how the worker ended decides result and row, case by case: a crashed request leaves FAILED and a shutdown PAUSED if the job is still owned, a worker that lost it leaves the tables alone |
| JobRuns.Conclude | telegram_phone_number_checker/job_manager.py:230-383 | with others acting at the last poll and at disconnect: a job whose worker heard CANCEL ends CANCELLED if still owned; after PAUSE it was acknowledged, is not owned and is not marked COMPLETED; COMPLETED means every item settled, then and at the end |
| JobRuns.Drive | telegram_phone_number_checker/job_manager.py:202-383 | the same from start over connect and processing, with others acting at every await; undisturbed it ends COMPLETED |
| JobRuns.Run | telegram_phone_number_checker/job_manager.py:127-383 | a job is turned down for the reasons of Enter and no others, a stale running one without auto-resume being left PAUSED and nobody's; a run whose worker hears CANCEL ends CANCELLED if the job is still owned; COMPLETED means all items terminal on return; no lease names the worker afterwards; undisturbed, a run that is not turned down completes the job |
| RateLimiter.RateLimitManager.ReloadFromDb | telegram_phone_number_checker/rate_limiter.py:52-74 | adopts a stored deadline in the future, never drops a live block in memory |
| RateLimiter.RateLimitManager.IsBlocked | telegram_phone_number_checker/rate_limiter.py:76-83 | true exactly before the deadline; past it the block is cleared in memory and in the row, otherwise nothing changes |
| RateLimiter.RateLimitManager.RemainingBlock | telegram_phone_number_checker/rate_limiter.py:90-94 | the time left, never negative |
| RateLimiter.RateLimitManager.Acquire | telegram_phone_number_checker/rate_limiter.py:96-115 | returns no earlier than the block's end and the minimum interval after the last success, terminating |
| RateLimiter.RateLimitManager.RegisterSuccess | telegram_phone_number_checker/rate_limiter.py:117-118 | records the request time and nothing else |
| RateLimiter.RateLimitManager.RegisterRateLimit | telegram_phone_number_checker/rate_limiter.py:120-165 | sets the deadline and stores it truncated to seconds |
| RateLimiter.FloodWaitSurvives | telegram_phone_number_checker/rate_limiter.py:48-165 | after the last flood wait, however the limiter is used, dropped and rebuilt, no acquire returns before the stored deadline |
| RateLimiter.ReloadedDeadline | telegram_phone_number_checker/rate_limiter.py:52-74 | a restarted limiter reloads that deadline: never later than the real one and less than a second earlier |
| RateLimiter.MinIntervalHolds | telegram_phone_number_checker/rate_limiter.py:110-118 | without a restart no request starts within the minimum interval of the last success |
| LeaseKeeper.DocumentedConfigurationsFit | telegram_phone_number_checker/lease_keeper.py:51-58 | with a limit of at most three and a lease of four seconds or more the allowed failures fit into the lease |
| LeaseKeeper.FitIsExact | telegram_phone_number_checker/lease_keeper.py:134-197 | for every lease and every failure limit: the heartbeat loop, started at any instant and whatever its ticks, gives up before either lease expires if and only if the allowed failures fit |
| LeaseKeeper.LostBeforeExpiry | telegram_phone_number_checker/lease_keeper.py:134-197 | whatever pattern of refused and raising renewals, both leases are live up to and at the moment the loop marks ownership lost |
| LeaseKeeper.NeverRevived | telegram_phone_number_checker/repositories/job_repository.py:180-195 | an expired lease stays as it is, whatever ticks follow |
| LeaseKeeper.Interval | telegram_phone_number_checker/lease_keeper.py:48-58 | a quarter of the lease, between a quarter of a second and ten seconds |
| LeaseKeeper.GivesUpExactly | telegram_phone_number_checker/lease_keeper.py:134-185 | for every pattern of ticks, while the allowed failures fit: the loop gives up if and only if that many renewals in a row fail |
| LeaseKeeper.Heartbeat.RenewOnce | telegram_phone_number_checker/lease_keeper.py:187-197 | renews each lease only while live, both needed for success; an exception skips the rest |
| LeaseKeeper.Heartbeat.HeartbeatLoop | telegram_phone_number_checker/lease_keeper.py:134-185 | the loop is the keeper's turns: failures count up, a success resets, the limit marks ownership lost |
| Transactions.Database.ExecuteMany | telegram_phone_number_checker/database.py:584-606 | every row of the batch arrives and the last value of a key counts; outside a block other connections see the batch at once, inside one they see nothing of it |
| Transactions.Database.DoCommit | telegram_phone_number_checker/database.py:608-621 | outside a block everything pending becomes visible to other connections, inside one nothing does |
| Transactions.Database.Run | telegram_phone_number_checker/database.py:623-639 | the depth-counting implementation behaves as the program semantics for every program |
| Transactions.ExecEnds | telegram_phone_number_checker/database.py:623-639 | how a program ends and what depth it leaves does not depend on the connection |
| Transactions.InsideBlock | telegram_phone_number_checker/database.py:608-639 | inside a block nothing is committed or rolled back: exactly the program's writes are pending |
| Transactions.WithoutBlocks | telegram_phone_number_checker/database.py:571-639 | outside any block a connection sees each of its writes at once and none is taken back |
| Transactions.CommitPublishes | telegram_phone_number_checker/database.py:608-621 | for every program that ends normally: commit() after it outside a block publishes all it wrote; inside a block the same statements publish nothing |
| Transactions.OutermostIsAtomic | telegram_phone_number_checker/database.py:623-639 | the outermost block applies all its writes or none, whatever it nests, commits, raises and catches |
| Transactions.RollbackIsExact | telegram_phone_number_checker/database.py:631-635 | a block left by an exception restores the connection if and only if nothing was pending at its entry |
| Transactions.ErasureSound | telegram_phone_number_checker/database.py:608-639 | erasing inner blocks and deferred commits never changes the result |
| Transactions.DepthRestored | telegram_phone_number_checker/database.py:623-639 | a block restores the depth if and only if no BaseException leaves it |
| Transactions.LeakedDepthNeverCommits | telegram_phone_number_checker/database.py:608-639 | after such a leak no later program on the connection commits anything |
| Timestamps.ParseEncode | telegram_phone_number_checker/models.py:160-178 | parsing inverts the encoding for all times of years 1 to 9999 |
| Timestamps.EncodeParse | telegram_phone_number_checker/models.py:168-178 | every text of the stored shape that is accepted is the encoding of what it is read as |
| Timestamps.TextOrderIsTimeOrder | telegram_phone_number_checker/models.py:160-165 | texts compare lexicographically exactly as the instants compare, and are equal exactly together |
| Timestamps.FromSeconds | telegram_phone_number_checker/models.py:205-210 | every instant in range has a valid civil time with that many seconds |
| Timestamps.YearsInClosedForm | telegram_phone_number_checker/models.py:168-178 | the days before a year, by the Gregorian rule |
| Timestamps.MonthsInClosedForm | telegram_phone_number_checker/models.py:168-178 | the days before a month, the leap day counted from March on |
| Timestamps.InstantInClosedForm | telegram_phone_number_checker/models.py:168-203 | the instant of a civil time, counted from the epoch of 1970 |
| Timestamps.GuardsAgree | telegram_phone_number_checker/repositories/job_repository.py:7-11 | text guards in SQL and epoch guards on parsed texts give the same answer, which is the comparison of the instants cut to seconds |
| Distribution.UniqueDistributionInputs | telegram_phone_number_checker/webapi/routers/jobs.py:280-298 | the loop over a set of seen keys keeps exactly the uploads that are the first with their key, in upload order: the number in normal form, or an invalid entry as it was typed without blanks around it |
| Distribution.SameTarget | telegram_phone_number_checker/webapi/routers/jobs.py:284-293 | two uploads are one target exactly when they normalise to the same number, or neither does and they differ in surrounding blanks and case only |
| Distribution.FirstsAreFirst | telegram_phone_number_checker/webapi/routers/jobs.py:280-298 | those positions increase, each is the first with its key, and every key of the upload has one |
| Distribution.OutputKeepsKey | telegram_phone_number_checker/webapi/routers/jobs.py:284-293 | what is passed on to a branch has the key of the upload it came from |
| Distribution.UniqueAndComplete | telegram_phone_number_checker/webapi/routers/jobs.py:280-298 | the deduplicated list has pairwise distinct keys and exactly the upload's keys |
| Distribution.Deal | telegram_phone_number_checker/webapi/routers/jobs.py:308-311 | value i lies at position i / k of bucket i mod k, and nothing else is in any bucket |
| Distribution.BucketIsSlice | telegram_phone_number_checker/webapi/routers/jobs.py:308-311 | position m of bucket b is value m * k + b: interleaving the buckets rebuilds the list |
| Distribution.Balanced | telegram_phone_number_checker/webapi/routers/jobs.py:308-311 | buckets are non-empty and differ in size by at most one |
| Distribution.NoKeyInTwoBranches | telegram_phone_number_checker/webapi/routers/jobs.py:301-311 | no key is dealt to two branches or twice to one |
| Distribution.DistinctIds | telegram_phone_number_checker/webapi/routers/jobs.py:302-302 | the loop keeps the first occurrence of every account, in order |
| Distribution.FirstIdsDistinct | telegram_phone_number_checker/webapi/routers/jobs.py:302-302 | those accounts are pairwise distinct, none is lost, and they come in the order in which they first turn up |
| Distribution.PlanBranches | telegram_phone_number_checker/webapi/routers/jobs.py:301-311 | too few accounts or targets, or min(accounts, targets) buckets of the deduplicated upload for the first accounts selected: non-empty, sizes within one, no key twice |
| Accounting.TallyPartitions | telegram_phone_number_checker/repositories/job_repository.py:551-575 | on any table, processed = found + not discoverable + failed + retry, and the statuses partition the total |
| Accounting.ReachableTally | telegram_phone_number_checker/repositories/job_repository.py:551-575 | on sound tables total = processed + pending + processing + in-flight-unknown, and everything is processed with no retry left exactly when no item is unfinished |
| Accounting.ReconcileStats | telegram_phone_number_checker/repositories/job_repository.py:551-575 | one pass over the rows computes the six aggregates, which are the recount of the job, and stores them in its row only |
| JobCreation.PositionsAreExact | telegram_phone_number_checker/main.py:325-336 | the kept positions are exactly the first tokens with their normal form and exactly the invalid tokens, each once and in order |
| JobCreation.NumbersAreDistinctAndComplete | telegram_phone_number_checker/main.py:325-336 | the kept numbers have pairwise distinct normal forms, and every normal form of the input is among them |
| JobCreation.SplitTokens | telegram_phone_number_checker/main.py:325-336 | the loop over a set of seen normal forms picks the tokens at exactly those positions |
| JobCreation.InsertRows | telegram_phone_number_checker/main.py:351-354 | one pending row per number, then one settled row per invalid token |
| JobCreation.BudgetCreated | telegram_phone_number_checker/main.py:351-354 | the attempts a new job may spend: the configured number for each number, none for an invalid token |
| JobCreation.CreationKeepsFresh | telegram_phone_number_checker/main.py:342-357 | creation after creation, the tables are the ones the engine's runs start from |
| JobCreation.CreateJob | telegram_phone_number_checker/main.py:313-358 | the phone columns are the picked tokens and their normal forms; the new rows are fresh, pending with the configured number of attempts exactly where there is a number, settled as invalid elsewhere; so the job's budget of requests is that number times its distinct numbers; the new job is nobody's and asks nothing, every other row stays, and the totals written are the ones a recount gives |
| Validation.CheckJobs | telegram_phone_number_checker/database_validation.py:50-77 | the job-row rules: every violation of every job, once |
| Validation.CheckPausedJobs | telegram_phone_number_checker/database_validation.py:79-98 | reports a PAUSED job exactly when the first account row that names it is leased live |
| Validation.CheckItems | telegram_phone_number_checker/database_validation.py:100-121 | reports exactly the rows that break an item rule |
| Validation.CheckUnfinished | telegram_phone_number_checker/database_validation.py:123-140 | reports exactly the COMPLETED jobs with unfinished items |
| Validation.CheckClosed | telegram_phone_number_checker/database_validation.py:142-157 | reports exactly the closed jobs that still hold ownership |
| Validation.CheckAccounts | telegram_phone_number_checker/database_validation.py:159-200 | reports exactly the account rows that are split or leased live for a closed job |
| Validation.CheckDuplicates | telegram_phone_number_checker/database_validation.py:202-215 | reports exactly the workers with more than one active job, with their number |
| Validation.ValidateDatabaseState | telegram_phone_number_checker/database_validation.py:44-217 | exactly the findings the rules describe, each once and section after section |
| Validation.CleanExactly | telegram_phone_number_checker/database_validation.py:44-217 | the validator has nothing to report if and only if every job, item, account and worker is consistent, stated status by status |
| Validation.EngineKeepsValidator | telegram_phone_number_checker/database_validation.py:100-215 | in every reachable state the item rules, the unfinished-COMPLETED rule and the duplicate-worker rule have nothing to report |
| Validation.SplitRuleIsExact | telegram_phone_number_checker/database_validation.py:165-189 | the split-ownership rule reports exactly the accounts whose job names another worker |
| Validation.SplitRuleSilent | telegram_phone_number_checker/database_validation.py:165-189 | that rule stays silent in every run whose events meet neither splitting guard |

## Left out

- Telegram itself: `check_phone` is an arbitrary response or an exception; sessions, proxies, QR and OTP login are not modelled.
- Web API, SSE, UI, CLI, exporters, logging, encryption, password hashing and web sessions: plumbing around the engine.
- Tables other than those creation leaves: runs start unclaimed with `max_attempts` of at least one, and items are inserted only by the creation of their job.
- SQL text, schema, migrations, reconnects and the retry of `executemany` on a lost connection: each statement is its effect on the tables.
- `phonenumbers`, `strip` and `casefold`: parameters; normalisation is a partial function that maps its own outputs to themselves.
- Comma and newline splitting of uploads: `JobCreation.CreateJob` starts from the list of tokens, and "no key in two branches" is about the dealt buckets, that is, for inputs without those characters.
- Columns that take no part in any guard (profile fields, messages, `updated_at`) and the touch-only heartbeat.
- Parent jobs, status aggregation over branches and deletion of jobs.
- COMPLETED and CANCELLED as absorbing job states: `run` does not refuse such jobs.
- Cross-instance cooldown claims: `is_blocked` and `acquire` clear the stored cooldown from one instance's own memory, so the limiter theorems are about one limiter with restarts; floating-point rounding of its clock is not modelled.
- Limiters without a database and jobs without an account key: nothing is persisted or leased there.
- Exceptions out of the database itself: the statement that raises and what follows it are not modelled, except that Protocol's `Crash` may end a worker at any point.
- The manager's two-second status polling and `recover_all_stale`: their writes are events of Protocol (`OwnerStatus`, `RecoverAtOnce`) rather than a loop.
- Protocol lets a worker send and commit without its in-memory ownership gate, which only removes runs; the gate is in Workers.
- Workers.Worker.Process: a command handed to the worker directly counts if it is there when the loop starts; nothing in the program hands one over later.
- JobRuns.Run: does not promise that the row still says COMPLETED, CANCELLED or PAUSED on return, because others may rewrite the row's status while the account disconnects, nor how late a sleep may end.
- Protocol's claims and renewals use one clock read for guard and expiry; the repositories take the two reads apart.
- Outside.World.Sleep: others act at every await of the loop and between the statements of a turn where it matters, not between every two statements of one repository call sequence; a recovery torn apart into its statements may write an owned job's rows and is excluded there, as Surroundings.OthersKeepRely says.
- Timestamps.EncodeParse: is about the stored shape; `parse_iso` also accepts offsets, fractions and other ISO forms, which the program never stores and for which the text is not recovered.
- Validation.ValidateDatabaseState: the wording of the findings and the severity each rule prints with it are not modelled, nor the order of rows within one section.
