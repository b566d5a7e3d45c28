// The concurrent job engine as a state machine. Any number of workers, managers, recoveries and controllers
// interleave, one SQL statement at a time; an event whose guard fails leaves the tables alone, exactly like
// an UPDATE that matches no row. A run is any finite sequence of events, so a lemma about all event
// sequences is a lemma about every interleaving.

module Protocol {
  import opened Options
  import opened Tables
  import opened Statements

  // Where a worker (and the manager that drives it) stands between two statements.
  datatype Phase =
    | JobSelected(readAt: Seconds)               // claim_worker: SELECT passed, UPDATE pending
    | JobWon                                     // job lease written, account not yet read
    | AccountSelected(readAt: Seconds)           // claim_account: SELECT passed, UPSERT pending
    | AccountRefused                             // account busy, job claim to be rolled back
    | Claimed                                    // both leases written
    | Polling                                    // head of the processing loop
    | Clearing(command: Command)                 // command read, clear_requested_command pending
    | Polled                                     // no command pending, about to look for work
    | Holding(id: nat, attempts: nat, limit: nat)               // row read, waiting for the limiter
    | InFlight(id: nat, attempts: nat, limit: nat, token: Token) // request sent
    | Pausing                                    // left the loop on PAUSE, acknowledgement pending
    | Ended                                      // loop left
    | Finalising                                 // manager saw no unfinished item
    | Releasing                                  // cleanup
    | Stopped
    | Managing                                   // an account manager's own claim

  // jobId is the job, or the operation id of an account manager.
  datatype Agent = Agent(jobId: JobId, phase: Phase)

  datatype Sys = Sys(clock: Seconds, cfg: Config, db: Db, agents: map<WorkerId, Agent>, tokens: set<Token>)

  datatype Response = Response(status: CheckStatus, error: Option<ErrorType>)

  datatype Event =
    | Tick(d: nat)
    // claim, one statement at a time
    | SelectJob(w: WorkerId, j: JobId)
    | UpdateJob(w: WorkerId)
    | SelectAccount(w: WorkerId)
    | UpsertAccount(w: WorkerId)
    | RollBackClaim(w: WorkerId)
    // claim with nothing in between, alone or right after recovery
    | ClaimAtOnce(w: WorkerId, j: JobId)
    | RecoverAndClaim(w: WorkerId, j: JobId)
    // heartbeat
    | HeartbeatJob(w: WorkerId)
    | HeartbeatAccount(w: WorkerId)
    // processing loop
    | Start(w: WorkerId)
    | ReadCommand(w: WorkerId)
    | ClearCommand(w: WorkerId)
    | BlockedByRate(w: WorkerId)
    | ReadDueItem(w: WorkerId)
    | SendRequest(w: WorkerId, token: Token)
    | Commit(w: WorkerId, response: Response, delay: nat)
    | Quarantine(w: WorkerId)
    | LeaveLoop(w: WorkerId)
    | AckPause(w: WorkerId)
    // manager
    | OwnerStatus(w: WorkerId, status: JobStatus)
    | OwnerCancel(w: WorkerId)
    | CheckFinished(w: WorkerId)
    | Finish(w: WorkerId)
    | Abandon(w: WorkerId)
    | DropAccount(w: WorkerId)
    | DropJob(w: WorkerId)
    | Crash(w: WorkerId)
    // recovery at once, and its unguarded writes at arbitrary moments
    | RecoverAtOnce(j: JobId)
    | RecoverAccount(j: JobId, seen: WorkerId)
    | RecoverLease(j: JobId)
    | RecoverItems(j: JobId)
    // controllers
    | StoreCommand(j: JobId, command: Command)
    | ForceStatus(j: JobId, status: JobStatus)
    | ForceStart(j: JobId)
    | ForceCancel(j: JobId)
    // account manager
    | ManagerClaim(w: WorkerId, k: AccountKey, op: JobId)
    | ManagerRelease(w: WorkerId, k: AccountKey)

  predicate At(s: Sys, w: WorkerId) { w in s.agents }

  function PhaseOf(s: Sys, w: WorkerId): Phase
    requires At(s, w)
  { s.agents[w].phase }

  function JobOf(s: Sys, w: WorkerId): JobId
    requires At(s, w)
  { s.agents[w].jobId }

  function KeyOf(s: Sys, j: JobId): AccountKey {
    if j in s.db.jobs then s.db.jobs[j].accountKey else 0
  }

  function Go(s: Sys, w: WorkerId, j: JobId, p: Phase): Sys {
    s.(agents := s.agents[w := Agent(j, p)])
  }

  // ---- claim -------------------------------------------------------------------------------------

  function DoSelectJob(s: Sys, w: WorkerId, j: JobId): Sys {
    if w in s.agents || j !in s.db.jobs then s
    else if JobBusy(s.db, j, w, s.clock, s.cfg.takeoverGrace) then Go(s, w, j, Stopped)
    else Go(s, w, j, JobSelected(s.clock))
  }

  function DoUpdateJob(s: Sys, w: WorkerId): Sys {
    if !At(s, w) || !PhaseOf(s, w).JobSelected? then s
    else
      var j, t := JobOf(s, w), PhaseOf(s, w).readAt;
      if JobTakeable(s.db, j, t) then Go(s.(db := TakeJob(s.db, j, w, t, t + s.cfg.leaseSeconds)), w, j, JobWon)
      else Go(s, w, j, Stopped)
  }

  function DoSelectAccount(s: Sys, w: WorkerId): Sys {
    if !At(s, w) || !PhaseOf(s, w).JobWon? then s
    else
      var j := JobOf(s, w);
      if AccountBusy(s.db, KeyOf(s, j), w, s.clock, s.cfg.takeoverGrace) then Go(s, w, j, AccountRefused)
      else Go(s, w, j, AccountSelected(s.clock))
  }

  function DoUpsertAccount(s: Sys, w: WorkerId): Sys {
    if !At(s, w) || !PhaseOf(s, w).AccountSelected? then s
    else
      var j, t := JobOf(s, w), PhaseOf(s, w).readAt;
      if AccountTakeable(s.db, KeyOf(s, j), t)
      then Go(s.(db := TakeAccount(s.db, KeyOf(s, j), w, j, t, t + s.cfg.leaseSeconds)), w, j, Claimed)
      else Go(s, w, j, AccountRefused)
  }

  function DoRollBackClaim(s: Sys, w: WorkerId): Sys {
    if !At(s, w) || !PhaseOf(s, w).AccountRefused? then s
    else Go(s.(db := ReleaseJob(s.db, JobOf(s, w), w)), w, JobOf(s, w), Stopped)
  }

  function DoClaimAtOnce(s: Sys, w: WorkerId, j: JobId): Sys {
    if w in s.agents || j !in s.db.jobs then s
    else
      var (db, verdict) := Claim(s.db, j, KeyOf(s, j), w, s.clock, s.cfg);
      Go(s.(db := db), w, j, if verdict.ClaimGranted? then Claimed else Stopped)
  }

  function DoRecoverAtOnce(s: Sys, j: JobId): Sys {
    s.(db := Recover(s.db, j, s.clock, s.cfg))
  }

  // The writes of a recovery, each on its own and without any guard.
  function DoRecoverAccount(s: Sys, j: JobId, seen: WorkerId): Sys {
    s.(db := ReleaseAccount(s.db, KeyOf(s, j), seen, j))
  }

  function DoRecoverLease(s: Sys, j: JobId): Sys { s.(db := ClearJob(s.db, j)) }

  function DoForceStatus(s: Sys, j: JobId, st: JobStatus): Sys {
    if st == JobCompleted then s else s.(db := Statements.SetStatus(s.db, j, st))
  }

  function DoRecoverItems(s: Sys, j: JobId): Sys {
    s.(db := RecoverInterrupted(s.db, j, s.clock + s.cfg.recoveryGrace, s.clock))
  }

  // ---- processing loop ---------------------------------------------------------------------------

  function DoStart(s: Sys, w: WorkerId): Sys {
    if !At(s, w) || !PhaseOf(s, w).Claimed? then s
    else
      var j := JobOf(s, w);
      Go(s.(db := MarkStartedIfOwned(s.db, j, w, s.clock)), w, j,
         if OwnsJob(s.db, j, w, s.clock) then Polling else Releasing)
  }

  function DoReadCommand(s: Sys, w: WorkerId): Sys {
    if !At(s, w) || !PhaseOf(s, w).Polling? || JobOf(s, w) !in s.db.jobs then s
    else
      var c := s.db.jobs[JobOf(s, w)].command;
      Go(s, w, JobOf(s, w), if c == NoCommand then Polled else Clearing(c))
  }

  function DoClearCommand(s: Sys, w: WorkerId): Sys {
    if !At(s, w) || !PhaseOf(s, w).Clearing? then s
    else
      var c := PhaseOf(s, w).command;
      Go(s.(db := SetCommand(s.db, JobOf(s, w), NoCommand)), w, JobOf(s, w),
         if c == PauseCommand then Pausing else if c == CancelCommand then Ended else Polled)
  }

  // The limiter is blocked: the worker waits, looks for no work, and polls again.
  function DoBlockedByRate(s: Sys, w: WorkerId): Sys {
    if !At(s, w) || !PhaseOf(s, w).Polled? then s else Go(s, w, JobOf(s, w), Polling)
  }

  // ORDER BY id LIMIT 1: the position of the first selectable row of the job, or the table's length.
  function FirstDue(items: seq<Item>, j: JobId, now: Seconds, from: nat): (id: nat)
    requires from <= |items|
    ensures from <= id <= |items|
    ensures id < |items| ==> items[id].jobId == j && Selectable(items[id], now)
    ensures forall i :: from <= i < id ==> items[i].jobId != j || !Selectable(items[i], now)
    decreases |items| - from
  {
    if from == |items| || (items[from].jobId == j && Selectable(items[from], now)) then from
    else FirstDue(items, j, now, from + 1)
  }

  function DoReadDueItem(s: Sys, w: WorkerId): Sys {
    if !At(s, w) || !PhaseOf(s, w).Polled? then s
    else
      var id := FirstDue(s.db.items, JobOf(s, w), s.clock, 0);
      Go(s, w, JobOf(s, w),
         if id < |s.db.items| then Holding(id, s.db.items[id].attemptCount, s.db.items[id].maxAttempts) else Polling)
  }

  function OwnerOf(s: Sys, w: WorkerId): Option<Owner>
    requires At(s, w)
  { Some(Owner(JobOf(s, w), w)) }

  predicate SendOk(s: Sys, w: WorkerId, token: Token) {
    At(s, w) && PhaseOf(s, w).Holding? && token !in s.tokens &&
    ClaimGuard(s.db, PhaseOf(s, w).id, OwnerOf(s, w), s.clock)
  }

  function DoSendRequest(s: Sys, w: WorkerId, token: Token): Sys {
    if !At(s, w) || !PhaseOf(s, w).Holding? || token in s.tokens then s
    else
      var p := PhaseOf(s, w);
      var s' := s.(tokens := s.tokens + {token},
                   db := Statements.MarkProcessing(s.db, p.id, OwnerOf(s, w), s.clock, token));
      Go(s', w, JobOf(s, w),
         if SendOk(s, w, token) then InFlight(p.id, p.attempts, p.limit, token) else Polling)
  }

  // _handle_response and RetryQueue.schedule_retry: what a response asks to store, from the row the worker
  // read before it claimed the item.
  function OutcomeFor(r: Response, attempts: nat, limit: nat, now: Seconds, delay: nat): Outcome {
    if Terminal(r.status) then
      Outcome(r.status, Some(attempts + 1), None, if r.status == PermanentError then r.error else None, true)
    else if attempts + 1 >= limit then
      Outcome(PermanentError, Some(attempts + 1), None, Some(RetryExhausted), true)
    else
      Outcome(RetryRequired, Some(attempts + 1), Some(now + delay), r.error, false)
  }

  predicate CommitOk(s: Sys, w: WorkerId) {
    At(s, w) && PhaseOf(s, w).InFlight? &&
    SaveGuard(s.db, PhaseOf(s, w).id, Some(PhaseOf(s, w).token), OwnerOf(s, w), s.clock)
  }

  function DoCommit(s: Sys, w: WorkerId, r: Response, delay: nat): Sys {
    if !At(s, w) || !PhaseOf(s, w).InFlight? then s
    else
      var p := PhaseOf(s, w);
      var o := OutcomeFor(r, p.attempts, p.limit, s.clock, delay);
      Go(s.(db := SaveResult(s.db, p.id, o, Some(p.token), OwnerOf(s, w), s.clock)), w, JobOf(s, w),
         if CommitOk(s, w) then Polling else Releasing)
  }

  function DoQuarantine(s: Sys, w: WorkerId): Sys {
    if !At(s, w) || !PhaseOf(s, w).InFlight? then s
    else
      var p := PhaseOf(s, w);
      Go(s.(db := MarkInFlightUnknown(s.db, p.id, p.token, s.clock + s.cfg.recoveryGrace, s.clock)), w, JobOf(s, w),
         Releasing)
  }

  // The cancel event, an exception before a request, or the end of the queue.
  function DoLeaveLoop(s: Sys, w: WorkerId): Sys {
    if !At(s, w) || !(PhaseOf(s, w).Polling? || PhaseOf(s, w).Polled? || PhaseOf(s, w).Holding?) then s
    else Go(s, w, JobOf(s, w), Ended)
  }

  function DoAckPause(s: Sys, w: WorkerId): Sys {
    if !At(s, w) || !PhaseOf(s, w).Pausing? then s
    else Go(s.(db := AcknowledgePause(s.db, JobOf(s, w), w, s.clock)), w, JobOf(s, w), Ended)
  }

  // ---- manager -----------------------------------------------------------------------------------

  function DoCheckFinished(s: Sys, w: WorkerId): Sys {
    if !At(s, w) || !PhaseOf(s, w).Ended? then s
    else Go(s, w, JobOf(s, w), if HasUnfinished(s.db.items, JobOf(s, w)) then Releasing else Finalising)
  }

  function DoFinish(s: Sys, w: WorkerId): Sys {
    if !At(s, w) || !PhaseOf(s, w).Finalising? then s
    else Go(s.(db := MarkFinishedIfOwned(s.db, JobOf(s, w), w, s.clock)), w, JobOf(s, w), Releasing)
  }

  // An exception, a shutdown or a rate limit ended the run: the leases go without any look at the items.
  function DoAbandon(s: Sys, w: WorkerId): Sys {
    if !At(s, w) || !(PhaseOf(s, w).Ended? || PhaseOf(s, w).Finalising?) then s
    else Go(s, w, JobOf(s, w), Releasing)
  }

  // The manager's status writes while its worker runs: anything but COMPLETED, which only Finish writes.
  function DoOwnerStatus(s: Sys, w: WorkerId, st: JobStatus): Sys {
    if !At(s, w) || st == JobCompleted then s
    else s.(db := SetStatusIfOwned(s.db, JobOf(s, w), w, st, s.clock))
  }

  function DoOwnerCancel(s: Sys, w: WorkerId): Sys {
    if !At(s, w) || !PhaseOf(s, w).Ended? then s
    else Go(s.(db := MarkCancelledIfOwned(s.db, JobOf(s, w), w, s.clock)), w, JobOf(s, w), Releasing)
  }

  function DoDropAccount(s: Sys, w: WorkerId): Sys {
    if !At(s, w) || !PhaseOf(s, w).Releasing? then s
    else s.(db := ReleaseAccount(s.db, KeyOf(s, JobOf(s, w)), w, JobOf(s, w)))
  }

  function DoDropJob(s: Sys, w: WorkerId): Sys {
    if !At(s, w) || !PhaseOf(s, w).Releasing? then s
    else s.(db := ReleaseJob(s.db, JobOf(s, w), w))
  }

  // The process dies, or an exception leaves the request unresolved: nothing is written.
  function DoCrash(s: Sys, w: WorkerId): Sys {
    if !At(s, w) || PhaseOf(s, w).Managing? then s
    else Go(s, w, JobOf(s, w), if PhaseOf(s, w).InFlight? then Releasing else Stopped)
  }

  function DoHeartbeatJob(s: Sys, w: WorkerId): Sys {
    if !At(s, w) then s else s.(db := RenewJob(s.db, JobOf(s, w), w, s.clock, s.clock + s.cfg.leaseSeconds))
  }

  function DoHeartbeatAccount(s: Sys, w: WorkerId): Sys {
    if !At(s, w) then s
    else s.(db := RenewAccount(s.db, KeyOf(s, JobOf(s, w)), w, JobOf(s, w), s.clock, s.clock + s.cfg.leaseSeconds))
  }

  // ---- account manager ---------------------------------------------------------------------------

  // A manager holds its account for five minutes at least.
  function ManagerLease(cfg: Config): nat { if cfg.leaseSeconds > 300 then cfg.leaseSeconds else 300 }

  function DoManagerClaim(s: Sys, w: WorkerId, k: AccountKey, op: JobId): Sys {
    if w in s.agents || op in s.db.jobs || AccountBusy(s.db, k, w, s.clock, s.cfg.takeoverGrace) then s
    else Go(s.(db := TakeAccount(s.db, k, w, op, s.clock, s.clock + ManagerLease(s.cfg))), w, op, Managing)
  }

  function DoManagerRelease(s: Sys, w: WorkerId, k: AccountKey): Sys {
    if !At(s, w) || !PhaseOf(s, w).Managing? then s
    else s.(db := ReleaseAccount(s.db, k, w, JobOf(s, w)))
  }

  // ---- all events --------------------------------------------------------------------------------

  function Apply(s: Sys, e: Event): Sys {
    match e
    case Tick(d) => s.(clock := s.clock + d)
    case SelectJob(w, j) => DoSelectJob(s, w, j)
    case UpdateJob(w) => DoUpdateJob(s, w)
    case SelectAccount(w) => DoSelectAccount(s, w)
    case UpsertAccount(w) => DoUpsertAccount(s, w)
    case RollBackClaim(w) => DoRollBackClaim(s, w)
    case ClaimAtOnce(w, j) => DoClaimAtOnce(s, w, j)
    case RecoverAndClaim(w, j) => DoClaimAtOnce(DoRecoverAtOnce(s, j), w, j)
    case HeartbeatJob(w) => DoHeartbeatJob(s, w)
    case HeartbeatAccount(w) => DoHeartbeatAccount(s, w)
    case Start(w) => DoStart(s, w)
    case ReadCommand(w) => DoReadCommand(s, w)
    case ClearCommand(w) => DoClearCommand(s, w)
    case BlockedByRate(w) => DoBlockedByRate(s, w)
    case ReadDueItem(w) => DoReadDueItem(s, w)
    case SendRequest(w, token) => DoSendRequest(s, w, token)
    case Commit(w, r, delay) => DoCommit(s, w, r, delay)
    case Quarantine(w) => DoQuarantine(s, w)
    case LeaveLoop(w) => DoLeaveLoop(s, w)
    case AckPause(w) => DoAckPause(s, w)
    case OwnerStatus(w, st) => DoOwnerStatus(s, w, st)
    case OwnerCancel(w) => DoOwnerCancel(s, w)
    case CheckFinished(w) => DoCheckFinished(s, w)
    case Finish(w) => DoFinish(s, w)
    case Abandon(w) => DoAbandon(s, w)
    case DropAccount(w) => DoDropAccount(s, w)
    case DropJob(w) => DoDropJob(s, w)
    case Crash(w) => DoCrash(s, w)
    case RecoverAtOnce(j) => DoRecoverAtOnce(s, j)
    case RecoverAccount(j, seen) => DoRecoverAccount(s, j, seen)
    case RecoverLease(j) => DoRecoverLease(s, j)
    case RecoverItems(j) => DoRecoverItems(s, j)
    case StoreCommand(j, c) => s.(db := SetCommand(s.db, j, c))
    case ForceStatus(j, st) => DoForceStatus(s, j, st)
    case ForceStart(j) => s.(db := MarkStarted(s.db, j, s.clock))
    case ForceCancel(j) => s.(db := MarkCancelledIfUnowned(s.db, j, s.clock))
    case ManagerClaim(w, k, op) => DoManagerClaim(s, w, k, op)
    case ManagerRelease(w, k) => DoManagerRelease(s, w, k)
  }

  function Run(s: Sys, es: seq<Event>): Sys
    decreases |es|
  {
    if es == [] then s else Run(Apply(s, es[0]), es[1..])
  }

  // Jobs and items as their creating transaction leaves them: nothing claimed, no attempt made.
  predicate FreshItem(r: Item) {
    && RowOk(r) && r.attemptCount == 0 && (r.status == Pending || r.status == PermanentError)
  }

  predicate FreshTables(db: Db) {
    && db.accounts == map[]
    && (forall i :: 0 <= i < |db.items| ==> FreshItem(db.items[i]))
    && (forall j :: j in db.jobs ==>
          && db.jobs[j].status == Created && db.jobs[j].command == NoCommand
          && db.jobs[j].workerId.None? && db.jobs[j].leaseUntil.None? && db.jobs[j].heartbeatAt.None?)
  }

  predicate Initial(s: Sys) { s.agents == map[] && s.tokens == {} && FreshTables(s.db) }

  ghost predicate Reachable(s: Sys) {
    exists s0, es: seq<Event> :: Initial(s0) && Run(s0, es) == s
  }
}
