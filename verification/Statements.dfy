// The effect of each SQL statement on the tables, as a function of the tables and of the statement's own
// "now". The repository classes are proved to have exactly these effects, and the protocol runs on them.

module Statements {
  import opened Options
  import opened Tables

  datatype Owner = Owner(jobId: JobId, workerId: WorkerId)

  // ---- check_items -----------------------------------------------------------------------------

  predicate OwnerGuard(db: Db, id: nat, owner: Option<Owner>, now: Seconds)
    requires id < |db.items|
  {
    owner.Some? ==>
      && db.items[id].jobId == owner.value.jobId
      && OwnsJob(db, owner.value.jobId, owner.value.workerId, now)
  }

  predicate ClaimGuard(db: Db, id: nat, owner: Option<Owner>, now: Seconds) {
    id < |db.items| && Selectable(db.items[id], now) && OwnerGuard(db, id, owner, now)
  }

  function ClaimedRow(r: Item, now: Seconds, token: Token): Item {
    r.(status := Processing, startedAt := Some(now), ownershipLostAt := None, recoveryAfter := None,
       token := Some(token))
  }

  function MarkProcessing(db: Db, id: nat, owner: Option<Owner>, now: Seconds, token: Token): Db {
    if ClaimGuard(db, id, owner, now) then db.(items := db.items[id := ClaimedRow(db.items[id], now, token)])
    else db
  }

  // What a worker asks save_result to store.
  datatype Outcome = Outcome(
    status: CheckStatus, attemptCount: Option<nat>, nextRetryAt: Option<Seconds>, error: Option<ErrorType>,
    completed: bool)

  predicate SaveGuard(db: Db, id: nat, token: Option<Token>, owner: Option<Owner>, now: Seconds) {
    && id < |db.items|
    && (token.Some? ==> db.items[id].status == Processing && db.items[id].token == token)
    && OwnerGuard(db, id, owner, now)
  }

  function SavedRow(r: Item, o: Outcome, now: Seconds): Item {
    r.(status := o.status,
       attemptCount := if o.attemptCount.Some? then o.attemptCount.value else r.attemptCount,
       nextRetryAt := o.nextRetryAt,
       lastError := o.error,
       completedAt := if o.completed then Some(now) else None,
       token := None,
       recoveryAfter := None)
  }

  function SaveResult(db: Db, id: nat, o: Outcome, token: Option<Token>, owner: Option<Owner>, now: Seconds): Db {
    if SaveGuard(db, id, token, owner, now) then db.(items := db.items[id := SavedRow(db.items[id], o, now)])
    else db
  }

  function QuarantinedRow(r: Item, now: Seconds, recoveryAfter: Seconds): Item {
    r.(status := InFlightUnknown, ownershipLostAt := Some(now), recoveryAfter := Some(recoveryAfter),
       nextRetryAt := None, token := None, lastError := Some(WorkerInterrupted))
  }

  predicate QuarantineGuard(db: Db, id: nat, token: Token) {
    id < |db.items| && db.items[id].status == Processing && db.items[id].token == Some(token)
  }

  function MarkInFlightUnknown(db: Db, id: nat, token: Token, recoveryAfter: Seconds, now: Seconds): Db {
    if QuarantineGuard(db, id, token)
    then db.(items := db.items[id := QuarantinedRow(db.items[id], now, recoveryAfter)])
    else db
  }

  function RecoveredRow(r: Item, j: JobId, now: Seconds, recoveryAfter: Seconds): Item {
    if r.jobId == j && r.status == Processing then QuarantinedRow(r, now, recoveryAfter) else r
  }

  function RecoverInterrupted(db: Db, j: JobId, recoveryAfter: Seconds, now: Seconds): (r: Db)
    ensures |r.items| == |db.items|
  {
    db.(items := seq(|db.items|, i requires 0 <= i < |db.items| => RecoveredRow(db.items[i], j, now, recoveryAfter)))
  }

  // ---- jobs ------------------------------------------------------------------------------------

  // The SELECT of claim_worker: another worker's lease has not expired past the takeover grace.
  predicate JobBusy(db: Db, j: JobId, w: WorkerId, now: Seconds, grace: nat) {
    && j in db.jobs && db.jobs[j].workerId.Some? && db.jobs[j].workerId != Some(w)
    && db.jobs[j].leaseUntil.Some? && db.jobs[j].leaseUntil.value + grace > now
  }

  // The guard of claim_worker's UPDATE. It knows nothing of the grace.
  predicate JobTakeable(db: Db, j: JobId, now: Seconds) {
    j in db.jobs && (db.jobs[j].workerId.None? || db.jobs[j].leaseUntil.None? || db.jobs[j].leaseUntil.value <= now)
  }

  // claim_worker's shortcut: the worker is on the row already.
  predicate OnJob(db: Db, j: JobId, w: WorkerId) {
    j in db.jobs && db.jobs[j].workerId == Some(w)
  }

  function LeaseJob(db: Db, j: JobId, w: WorkerId, now: Seconds, until: Seconds): Db
    requires j in db.jobs
  {
    db.(jobs := db.jobs[j := db.jobs[j].(workerId := Some(w), heartbeatAt := Some(now), leaseUntil := Some(until))])
  }

  function TakeJob(db: Db, j: JobId, w: WorkerId, now: Seconds, until: Seconds): Db {
    if JobTakeable(db, j, now) then LeaseJob(db, j, w, now, until) else db
  }

  function RenewJob(db: Db, j: JobId, w: WorkerId, now: Seconds, until: Seconds): Db {
    if OwnsJob(db, j, w, now) then LeaseJob(db, j, w, now, until) else db
  }

  function UnleasedJob(r: Job): Job {
    r.(workerId := None, heartbeatAt := None, leaseUntil := None)
  }

  function ReleaseJob(db: Db, j: JobId, w: WorkerId): Db {
    if j in db.jobs && db.jobs[j].workerId == Some(w) then db.(jobs := db.jobs[j := UnleasedJob(db.jobs[j])]) else db
  }

  function ClearJob(db: Db, j: JobId): Db {
    if j in db.jobs then db.(jobs := db.jobs[j := UnleasedJob(db.jobs[j])]) else db
  }

  function SetStatus(db: Db, j: JobId, st: JobStatus): Db {
    if j in db.jobs then db.(jobs := db.jobs[j := db.jobs[j].(status := st)]) else db
  }

  function SetStatusIfOwned(db: Db, j: JobId, w: WorkerId, st: JobStatus, now: Seconds): Db {
    if OwnsJob(db, j, w, now) then SetStatus(db, j, st) else db
  }

  function SetCommand(db: Db, j: JobId, c: Command): Db {
    if j in db.jobs then db.(jobs := db.jobs[j := db.jobs[j].(command := c)]) else db
  }

  function RequestPause(db: Db, j: JobId, now: Seconds): Db {
    if j in db.jobs
    then db.(jobs := db.jobs[j := db.jobs[j].(command := PauseCommand, pauseRequestedAt := Some(now))])
    else db
  }

  function ClearPauseState(db: Db, j: JobId): Db {
    if j in db.jobs then db.(jobs := db.jobs[j := db.jobs[j].(pauseRequestedAt := None, pausedAt := None)]) else db
  }

  function MarkStarted(db: Db, j: JobId, now: Seconds): Db {
    if j in db.jobs
    then db.(jobs := db.jobs[j := db.jobs[j].(status := Running, command := NoCommand, startedAt := Some(now))])
    else db
  }

  function MarkStartedIfOwned(db: Db, j: JobId, w: WorkerId, now: Seconds): Db {
    if OwnsJob(db, j, w, now) then MarkStarted(db, j, now) else db
  }

  function MarkFinishedIfOwned(db: Db, j: JobId, w: WorkerId, now: Seconds): Db {
    if OwnsJob(db, j, w, now)
    then db.(jobs := db.jobs[j := db.jobs[j].(status := JobCompleted, finishedAt := Some(now))])
    else db
  }

  function CancelledJob(r: Job, now: Seconds): Job {
    r.(status := Cancelled, command := NoCommand, pauseRequestedAt := None, pausedAt := None, finishedAt := Some(now))
  }

  function MarkCancelledIfOwned(db: Db, j: JobId, w: WorkerId, now: Seconds): Db {
    if OwnsJob(db, j, w, now) then db.(jobs := db.jobs[j := CancelledJob(db.jobs[j], now)]) else db
  }

  function MarkCancelledIfUnowned(db: Db, j: JobId, now: Seconds): Db {
    if JobTakeable(db, j, now) then db.(jobs := db.jobs[j := CancelledJob(db.jobs[j], now)]) else db
  }

  predicate AckGuard(db: Db, j: JobId, w: WorkerId) {
    j in db.jobs && (db.jobs[j].workerId.None? || db.jobs[j].workerId == Some(w))
  }

  function AcknowledgePause(db: Db, j: JobId, w: WorkerId, now: Seconds): Db {
    if AckGuard(db, j, w)
    then db.(jobs := db.jobs[j := UnleasedJob(db.jobs[j]).(status := Paused, command := NoCommand,
                                                           pausedAt := Some(now))])
    else db
  }

  // ---- account_worker_state --------------------------------------------------------------------

  predicate AccountBusy(db: Db, k: AccountKey, w: WorkerId, now: Seconds, grace: nat) {
    && k in db.accounts && db.accounts[k].workerId.Some? && db.accounts[k].workerId != Some(w)
    && db.accounts[k].leaseUntil.Some? && db.accounts[k].leaseUntil.value + grace > now
  }

  predicate AccountTakeable(db: Db, k: AccountKey, now: Seconds) {
    k in db.accounts ==>
      db.accounts[k].workerId.None? || db.accounts[k].leaseUntil.None? || db.accounts[k].leaseUntil.value <= now
  }

  function TakeAccount(db: Db, k: AccountKey, w: WorkerId, j: JobId, now: Seconds, until: Seconds): Db {
    if AccountTakeable(db, k, now)
    then db.(accounts := db.accounts[k := AccountLease(Some(w), Some(now), Some(until), Some(j))])
    else db
  }

  function RenewAccount(db: Db, k: AccountKey, w: WorkerId, j: JobId, now: Seconds, until: Seconds): Db {
    if OwnsAccount(db, k, w, j, now)
    then db.(accounts := db.accounts[k := db.accounts[k].(heartbeatAt := Some(now), leaseUntil := Some(until))])
    else db
  }

  predicate AccountNamed(db: Db, k: AccountKey, w: WorkerId, j: JobId) {
    k in db.accounts && db.accounts[k].workerId == Some(w) && db.accounts[k].jobId == Some(j)
  }

  function ReleaseAccount(db: Db, k: AccountKey, w: WorkerId, j: JobId): Db {
    if AccountNamed(db, k, w, j) then db.(accounts := db.accounts[k := AccountLease(None, None, None, None)]) else db
  }

  predicate LiveAccountForJob(db: Db, j: JobId, now: Seconds) {
    exists k :: k in db.accounts && db.accounts[k].jobId == Some(j) && LiveAccount(db, k, now)
  }

  // ---- composite operations whose statements all read the same clock ----------------------------

  datatype Config = Config(leaseSeconds: nat, takeoverGrace: nat, recoveryGrace: nat)

  datatype ClaimVerdict = ClaimGranted | ClaimJobBusy | ClaimAccountBusy

  // Worker.claim by a worker that has never claimed before.
  function Claim(db: Db, j: JobId, k: AccountKey, w: WorkerId, now: Seconds, cfg: Config): (Db, ClaimVerdict) {
    if JobBusy(db, j, w, now, cfg.takeoverGrace) || !JobTakeable(db, j, now) then
      (db, ClaimJobBusy)
    else
      var db1 := TakeJob(db, j, w, now, now + cfg.leaseSeconds);
      if AccountBusy(db1, k, w, now, cfg.takeoverGrace) || !AccountTakeable(db1, k, now) then
        (ReleaseJob(db1, j, w), ClaimAccountBusy)
      else
        (TakeAccount(db1, k, w, j, now, now + cfg.leaseSeconds), ClaimGranted)
  }

  // JobManager.recover when nothing else runs between its reads and its writes.
  function Recover(db: Db, j: JobId, now: Seconds, cfg: Config): Db {
    if j !in db.jobs || LiveJob(db, j, now) || LiveAccountForJob(db, j, now) then db
    else
      var row := db.jobs[j];
      var db1 :=
        if row.status == Running || row.status == JobRateLimited then
          var released :=
            if row.workerId.Some? then ReleaseAccount(db, row.accountKey, row.workerId.value, j) else db;
          SetStatus(ClearJob(released, j), j, Paused)
        else db;
      RecoverInterrupted(db1, j, now + cfg.recoveryGrace, now)
  }
}
