// The rows of the three tables the job engine works on, and the predicates its SQL guards share.

module Options {
  datatype Option<+T> = None | Some(value: T)
}

module Tables {
  import opened Options

  // uuid4 hex strings in the program; only equality between them matters.
  type JobId = nat
  type WorkerId = nat
  type AccountKey = nat
  type Token = nat

  // Timestamps are ISO texts of whole seconds in the program. Module Timestamps proves that comparing
  // the texts is comparing the seconds, so the tables hold the seconds.
  type Seconds = int

  datatype CheckStatus =
    | Pending
    | Processing
    | InFlightUnknown
    | Found
    | NotDiscoverable
    | RetryRequired
    | RateLimited
    | TemporaryError
    | PermanentError
    | Completed

  datatype JobStatus = Created | Running | Paused | JobRateLimited | JobCompleted | Failed | Cancelled

  datatype Command = NoCommand | PauseCommand | ResumeCommand | CancelCommand

  datatype ErrorType = WorkerInterrupted | RetryExhausted | InvalidPhone | ServiceError(code: nat)

  // One row of check_items. The row's id is its position in the table.
  datatype Item = Item(
    jobId: JobId,
    status: CheckStatus,
    attemptCount: nat,
    maxAttempts: nat,
    nextRetryAt: Option<Seconds>,
    recoveryAfter: Option<Seconds>,
    token: Option<Token>,
    completedAt: Option<Seconds>,
    startedAt: Option<Seconds>,
    ownershipLostAt: Option<Seconds>,
    lastError: Option<ErrorType>)

  datatype Totals = Totals(total: nat, processed: nat, found: nat, retry: nat, failed: nat, notDiscoverable: nat)

  datatype Job = Job(
    accountKey: AccountKey,
    status: JobStatus,
    command: Command,
    workerId: Option<WorkerId>,
    heartbeatAt: Option<Seconds>,
    leaseUntil: Option<Seconds>,
    pauseRequestedAt: Option<Seconds>,
    pausedAt: Option<Seconds>,
    startedAt: Option<Seconds>,
    finishedAt: Option<Seconds>,
    totals: Totals)

  // One row of account_worker_state. jobId is a job, or the operation id of an account manager.
  datatype AccountLease = AccountLease(
    workerId: Option<WorkerId>,
    heartbeatAt: Option<Seconds>,
    leaseUntil: Option<Seconds>,
    jobId: Option<JobId>)

  datatype Db = Db(jobs: map<JobId, Job>, accounts: map<AccountKey, AccountLease>, items: seq<Item>)

  predicate Terminal(s: CheckStatus) {
    s == Found || s == NotDiscoverable || s == PermanentError
  }

  predicate RetryStatus(s: CheckStatus) {
    s == RetryRequired || s == TemporaryError || s == RateLimited
  }

  predicate Active(st: JobStatus) { st == Running || st == JobRateLimited }

  predicate Reached(at: Option<Seconds>, now: Seconds) {
    at.Some? && at.value <= now
  }

  predicate InFuture(at: Option<Seconds>, now: Seconds) {
    at.Some? && at.value > now
  }

  // The selection condition shared by mark_processing, next_due_item and count_pending_all_statuses.
  predicate Selectable(r: Item, now: Seconds) {
    || ((r.status == Pending || r.status == RetryRequired || r.status == TemporaryError)
        && (r.nextRetryAt.None? || r.nextRetryAt.value <= now))
    || (r.status == InFlightUnknown && Reached(r.recoveryAfter, now))
  }

  predicate ItemOf(items: seq<Item>, i: nat, j: JobId) {
    i < |items| && items[i].jobId == j
  }

  ghost predicate SameIds(before: seq<Item>, after: seq<Item>, j: JobId) {
    forall i: nat :: ItemOf(before, i, j) <==> ItemOf(after, i, j)
  }

  // The same rows of one job at the same ids; other jobs' rows may come, go and change.
  ghost predicate SameRows(before: seq<Item>, after: seq<Item>, j: JobId) {
    && SameIds(before, after, j)
    && forall i: nat :: ItemOf(before, i, j) && ItemOf(after, i, j) ==> after[i] == before[i]
  }

  predicate HasUnfinished(items: seq<Item>, j: JobId) {
    exists i :: 0 <= i < |items| && items[i].jobId == j && !Terminal(items[i].status)
  }

  predicate AllTerminal(items: seq<Item>, j: JobId) {
    forall i :: 0 <= i < |items| && items[i].jobId == j ==> Terminal(items[i].status)
  }

  // What the repository's writers keep true of every row they touch.
  predicate RowOk(r: Item) {
    && r.maxAttempts >= 1
    && r.attemptCount <= r.maxAttempts
    && (!Terminal(r.status) ==> r.attemptCount < r.maxAttempts)
    && (r.status == Processing <==> r.token.Some?)
    && (r.status == InFlightUnknown <==> r.recoveryAfter.Some?)
    && (Terminal(r.status) <==> r.completedAt.Some?)
    && (r.status == Pending ==> r.nextRetryAt.None?)
    && (r.status == RetryRequired ==> r.nextRetryAt.Some?)
    && r.status != RateLimited && r.status != TemporaryError && r.status != Completed
  }

  predicate RowsOk(items: seq<Item>) {
    forall i :: 0 <= i < |items| ==> RowOk(items[i])
  }

  // A job or account lease held by some worker and not yet expired.
  predicate LiveJob(db: Db, j: JobId, now: Seconds) {
    j in db.jobs && db.jobs[j].workerId.Some? && InFuture(db.jobs[j].leaseUntil, now)
  }

  predicate LiveAccount(db: Db, k: AccountKey, now: Seconds) {
    k in db.accounts && db.accounts[k].workerId.Some? && InFuture(db.accounts[k].leaseUntil, now)
  }

  // is_job_owned_by, and the guard of every "if owned" statement.
  predicate OwnsJob(db: Db, j: JobId, w: WorkerId, now: Seconds) {
    j in db.jobs && db.jobs[j].workerId == Some(w) && InFuture(db.jobs[j].leaseUntil, now)
  }

  // is_account_owned_by.
  predicate OwnsAccount(db: Db, k: AccountKey, w: WorkerId, j: JobId, now: Seconds) {
    && k in db.accounts && db.accounts[k].workerId == Some(w) && db.accounts[k].jobId == Some(j)
    && InFuture(db.accounts[k].leaseUntil, now)
  }

  // What a row says once a request has been answered: r was in flight, r' is the row after the answer was stored
  // at now. A settling status is kept as it came; any other answer waits for another try, or gives up when
  // the last allowed attempt is spent.
  ghost predicate AnsweredAs(r: Item, r': Item, status: CheckStatus, error: Option<ErrorType>, attempts: nat,
                             limit: nat, now: Seconds, delay: nat)
  {
    && r'.jobId == r.jobId && r'.maxAttempts == r.maxAttempts && r'.startedAt == r.startedAt
    && r'.ownershipLostAt == r.ownershipLostAt
    && r'.attemptCount == attempts + 1 && r'.token.None? && r'.recoveryAfter.None?
    && match status {
         case Found =>
           r'.status == Found && r'.completedAt == Some(now) && r'.nextRetryAt.None? && r'.lastError.None?
         case NotDiscoverable =>
           r'.status == NotDiscoverable && r'.completedAt == Some(now) && r'.nextRetryAt.None? && r'.lastError.None?
         case PermanentError =>
           r'.status == PermanentError && r'.completedAt == Some(now) && r'.nextRetryAt.None? && r'.lastError == error
         case _ =>
           if attempts + 1 >= limit then
             && r'.status == PermanentError && r'.completedAt == Some(now) && r'.nextRetryAt.None?
             && r'.lastError == Some(RetryExhausted)
           else
             && r'.status == RetryRequired && r'.completedAt.None? && r'.nextRetryAt == Some(now + delay)
             && r'.lastError == error
       }
  }

  // Row id was answered like this, and nothing else happened to the table.
  ghost predicate RowAnsweredAs(items: seq<Item>, items': seq<Item>, id: nat, status: CheckStatus,
                                error: Option<ErrorType>, attempts: nat, limit: nat, now: Seconds, delay: nat)
  {
    && id < |items| && |items'| == |items| && items' == items[id := items'[id]]
    && AnsweredAs(items[id], items'[id], status, error, attempts, limit, now, delay)
  }

  // A worker that has acknowledged a PAUSE leaves the job paused and nobody's, unless it is somebody else's.
  ghost predicate PauseAcknowledged(db: Db, j: JobId, w: WorkerId) {
    j in db.jobs ==>
      var r := db.jobs[j];
      || (r.workerId.Some? && r.workerId != Some(w))
      || (r.status == Paused && r.command == NoCommand && r.pausedAt.Some?
          && r.workerId.None? && r.heartbeatAt.None? && r.leaseUntil.None?)
  }

  // The job keeps its rows, and its settled rows are never written again.
  ghost predicate SettledKept(before: seq<Item>, after: seq<Item>, j: JobId) {
    && SameIds(before, after, j)
    && forall i: nat :: ItemOf(before, i, j) && ItemOf(after, i, j) && Terminal(before[i].status) ==>
         after[i] == before[i]
  }

  // What worker w of job j and account k may count on between two moments, whatever everybody else does:
  // ownership is only ever lost, the job keeps its rows and settled ones stay as they are, and while both leases
  // are its own all of them do.
  ghost predicate Rely(before: Db, t: Seconds, after: Db, t': Seconds, j: JobId, k: AccountKey, w: WorkerId) {
    && t <= t'
    && (OwnsJob(after, j, w, t') ==> OwnsJob(before, j, w, t))
    && (OwnsAccount(after, k, w, j, t') ==> OwnsAccount(before, k, w, j, t))
    && SettledKept(before.items, after.items, j)
    && (OwnsJob(after, j, w, t') && OwnsAccount(after, k, w, j, t') ==> SameRows(before.items, after.items, j))
  }
}
