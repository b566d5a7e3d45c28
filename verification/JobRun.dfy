// JobManager.run from end to end: recover, claim, start, process, finalise, release.

module JobRuns {
  import opened Options
  import opened Tables
  import opened Statements
  import opened Selection
  import opened Repositories
  import opened JobManagement
  import opened Outside
  import opened RateLimiter
  import opened Workers
  import ItemHistory
  import Budgets
  import Invariant
  import Protocol

  datatype RunError =
    | NoSuchJob | AlreadyRunning | PausedJob | ClaimFailed(verdict: ClaimVerdict)
    | Ownerless | NotConnected | Crashed | Shutdown

  datatype RunResult = Ended(status: JobStatus) | Refused(error: RunError)

  // Of a run: the commands its worker acted on, the tables when the worker left its loop, and the tables and the
  // time when the last status was written.
  datatype RunLog = RunLog(heard: seq<Command>, left: Db, final: Db, at: Seconds)

  // Worker.release: the account, then the job, each only if it still names this worker.
  method Release(jobs: JobRepository, j: JobId, k: AccountKey, w: WorkerId)
    modifies jobs.db`jobs, jobs.db`accounts
    ensures jobs.db.View() == ReleaseJob(Statements.ReleaseAccount(old(jobs.db.View()), k, w, j), j, w)
    ensures !AccountNamed(jobs.db.View(), k, w, j) && (j in jobs.db.jobs ==> jobs.db.jobs[j].workerId != Some(w))
  {
    jobs.ReleaseAccount(k, w, j);
    jobs.ReleaseWorker(j, w);
  }

  // Only the job's own account is ever leased for it (Invariant.AccountRowOk).
  ghost predicate OneAccount(db: Db, j: JobId, k: AccountKey) {
    forall k' :: k' in db.accounts && db.accounts[k'].jobId == Some(j) && db.accounts[k'].workerId.Some? ==> k' == k
  }

  // Both leases are held for their whole time, and no row of the job is in flight.
  ghost predicate ReadyToDrive(before: Db, db: Db, j: JobId, k: AccountKey, w: WorkerId, now: Seconds, cfg: Config) {
    && JobRowsOk(db.items, j) && NoneProcessing(db.items, j) && SameIds(before.items, db.items, j)
    && (forall t :: t < now + cfg.leaseSeconds ==> OwnsJob(db, j, w, t) && OwnsAccount(db, k, w, j, t))
  }

  // A granted claim follows a recovery that left nothing of the job in flight.
  lemma GrantedAfterRecovery(db: Db, j: JobId, k: AccountKey, w: WorkerId, now: Seconds, cfg: Config)
    requires j in db.jobs && db.jobs[j].accountKey == k && db.jobs[j].workerId != Some(w)
    requires JobRowsOk(db.items, j) && OneAccount(db, j, k)
    ensures var (db', verdict) := Claim(Recover(db, j, now, cfg), j, k, w, now, cfg);
            verdict.ClaimGranted? ==> ReadyToDrive(db, db', j, k, w, now, cfg)
  {
  }

  // Why run() turns a job down, in the order it looks: the job as recovery leaves it, then the two claims.
  ghost function Refusal(db: Db, j: JobId, k: AccountKey, w: WorkerId, start: int, cfg: Config, autoResume: bool)
    : Option<RunError>
  {
    if j !in db.jobs then Some(NoSuchJob)
    else
      var r, now := db.jobs[j], Sec(start);
      var recovered := Recoverable(db, j, now) && Active(r.status);
      var holder := if recovered then r.workerId else None;
      if Active(r.status) && InFuture(r.leaseUntil, now) then Some(AlreadyRunning)
      else if (r.status == Paused || recovered) && !autoResume then Some(PausedJob)
      else if !recovered && !Free(r.workerId, r.leaseUntil, w, now, cfg.takeoverGrace) then
        Some(ClaimFailed(ClaimJobBusy))
      else if k in db.accounts && !(holder.Some? && AccountNamed(db, k, holder.value, j))
              && !Free(db.accounts[k].workerId, db.accounts[k].leaseUntil, w, now, cfg.takeoverGrace) then
        Some(ClaimFailed(ClaimAccountBusy))
      else None
  }

  predicate NamedNowhere(db: Db, j: JobId, k: AccountKey, w: WorkerId) {
    !AccountNamed(db, k, w, j) && (j in db.jobs ==> db.jobs[j].workerId != Some(w))
  }

  // Everything before the worker's lease keeper starts.
  method Enter(jobs: JobRepository, results: ResultRepository, rate: RateLimitManager, j: JobId, k: AccountKey,
               w: WorkerId, cfg: Config, autoResume: bool, start: int) returns (refusal: Option<RunError>)
    requires jobs.db == results.db && NamedNowhere(jobs.db.View(), j, k, w)
    requires j in jobs.db.jobs ==> jobs.db.jobs[j].accountKey == k
    modifies jobs.db, rate`blockedUntil
    ensures refusal == Refusal(old(jobs.db.View()), j, k, w, start, cfg, autoResume)
    // a refused job is left alone, or as recovery left it, and no refusal leaves a lease behind
    ensures refusal == Some(NoSuchJob) || refusal == Some(AlreadyRunning) ==> jobs.db.View() == old(jobs.db.View())
    ensures refusal == Some(PausedJob) ==>
              Recovered(old(jobs.db.View()), jobs.db.View(), j, Sec(start), cfg.recoveryGrace)
    ensures refusal.Some? ==> NamedNowhere(jobs.db.View(), j, k, w)
    ensures refusal.None? ==>
              && (jobs.db.View(), ClaimGranted)
                 == Claim(Recover(old(jobs.db.View()), j, Sec(start), cfg), j, k, w, Sec(start), cfg)
              && rate.View() == Reloaded(old(rate.View()), start)
  {
    if j !in jobs.db.jobs { return Some(NoSuchJob); }
    var status := jobs.db.jobs[j].status;
    if (status == Running || status == JobRateLimited) && !IsStale(jobs.db.jobs[j], start) {
      return Some(AlreadyRunning);
    }
    RecoverJob(jobs, results, j, Sec(start), cfg);
    rate.ReloadFromDb(start);
    if jobs.db.jobs[j].status == Paused && !autoResume { return Some(PausedJob); }
    var verdict := ClaimBoth(jobs, j, k, w, Sec(start), cfg);
    refusal := if verdict.ClaimGranted? then None else Some(ClaimFailed(verdict));
  }

  lemma StaysSettled(before: seq<Item>, after: seq<Item>, j: JobId)
    requires SettledKept(before, after, j) && AllTerminal(before, j)
    ensures AllTerminal(after, j)
  {
    forall i: nat | i < |after| && after[i].jobId == j ensures Terminal(after[i].status) {
      assert ItemOf(after, i, j);
      assert ItemOf(before, i, j);
    }
  }

  // telegram.connect() with its login dialogue: time passes, others act, and it may raise.
  method Connect(world: World) returns (ok: bool)
    requires world.Calm()
    modifies world, world.db
    ensures world.Calm() && world.Since() && (world.calm ==> ok)
  {
    world.Sleep(0);
    ok := true;
    if !world.calm { ok := *; }
  }

  // The except and else branches around the worker's task: a worker that lost its job leaves the tables alone,
  // a crashed one leaves FAILED and an interrupted one PAUSED if the job is still its own.
  method WindUp(jobs: JobRepository, results: ResultRepository, j: JobId, w: WorkerId, now: Seconds, stop: LoopEnd,
                pausedOnRateLimit: bool) returns (end: RunResult)
    requires jobs.db == results.db
    modifies jobs.db`jobs
    ensures var owned := OwnsJob(old(jobs.db.View()), j, w, now);
            end == match stop
                   case RequestFailed => Refused(Crashed)
                   case Interrupted => Refused(Shutdown)
                   case LostOwnershipError => Refused(Ownerless)
                   case CancelEvent => Refused(Ownerless)
                   case CancelledByCommand => if owned then Ended(Cancelled) else Refused(Ownerless)
                   case _ =>
                     if pausedOnRateLimit then Ended(JobRateLimited)
                     else if !AllTerminal(jobs.db.items, j) then Ended(Paused)
                     else if owned then Ended(JobCompleted)
                     else Refused(Ownerless)
    ensures j in jobs.db.jobs <==> j in old(jobs.db.jobs)
    ensures j in jobs.db.jobs ==>
              var r, r', owned := old(jobs.db.jobs[j]), jobs.db.jobs[j], OwnsJob(old(jobs.db.View()), j, w, now);
              match stop
              case RequestFailed => r' == if owned then r.(status := Failed) else r
              case Interrupted => r' == if owned then r.(status := Paused) else r
              case LostOwnershipError => r' == r
              case CancelEvent => r' == r
              case _ => Finalised(r, r', if end.Ended? then Returned(end.status) else LostOwnership, owned, now)
    ensures stop.LostOwnershipError? || stop.CancelEvent? ==> jobs.db.View() == old(jobs.db.View())
  {
    match stop
    case RequestFailed =>
      var ok := jobs.UpdateStatusIfOwned(j, w, Failed, now);
      end := Refused(Crashed);
    case Interrupted =>
      var ok := jobs.UpdateStatusIfOwned(j, w, Paused, now);
      end := Refused(Shutdown);
    case LostOwnershipError => end := Refused(Ownerless);
    case CancelEvent => end := Refused(Ownerless);
    case _ =>
      var last := Finalise(jobs, results, j, w, now, stop.CancelledByCommand?, pausedOnRateLimit);
      end := if last.Returned? then Ended(last.status) else Refused(Ownerless);
  }

  // What a run may promise about its end, whatever the others do at its awaits. A stop command that was heard
  // decides it: after CANCEL a job still owned is CANCELLED and said to be, after PAUSE it is acknowledged and
  // nobody's, so that a finished one is not marked COMPLETED any more. COMPLETED means that every item is settled.
  ghost predicate EndedWell(end: RunResult, log: RunLog, j: JobId, w: WorkerId) {
    var owned := OwnsJob(log.final, j, w, log.at);
    && (CancelCommand in log.heard && owned ==>
          end == Ended(Cancelled) && log.final.jobs[j].status == Cancelled && log.final.jobs[j].command == NoCommand)
    && (CancelCommand in log.heard && !owned ==> end == Refused(Ownerless))
    && (end == Ended(Cancelled) ==> CancelCommand in log.heard)
    && (PauseCommand in log.heard ==>
          && PauseAcknowledged(log.left, j, w) && !owned
          && (end == Ended(Paused) || end == Ended(JobRateLimited)
              || (end == Refused(Ownerless) && AllTerminal(log.final.items, j))))
    && (end == Ended(JobCompleted) ==>
          && AllTerminal(log.final.items, j)
          && owned && log.final.jobs[j].status == JobCompleted)
  }

  lemma RefusedWell(error: RunError, log: RunLog, j: JobId, w: WorkerId)
    requires log.heard == []
    ensures EndedWell(Refused(error), log, j, w)
  {
  }

  // The end of a run, from the moment its worker has left the loop: the last poll, the last status, disconnect.
  method Conclude(world: World, jobs: JobRepository, results: ResultRepository, stop: LoopEnd, pausedOnRateLimit: bool,
                  ghost heard: seq<Command>)
    returns (end: RunResult, ghost log: RunLog)
    requires jobs.db == results.db == world.db && world.Calm()
    requires stop.NoMoreItems? ==> AllTerminal(jobs.db.items, world.job)
    requires stop.CancelledByCommand? <==> CancelCommand in heard
    requires stop.PausedByCommand? <==> PauseCommand in heard
    requires stop.PausedByCommand? ==> PauseAcknowledged(jobs.db.View(), world.job, world.me)
    modifies world, world.db
    ensures EndedWell(end, log, world.job, world.me) && log.heard == heard
    ensures end == Ended(JobCompleted) ==> AllTerminal(jobs.db.items, world.job)
    ensures world.calm ==> SameIds(old(jobs.db.items), jobs.db.items, world.job)
    ensures world.calm && stop.NoMoreItems? && !pausedOnRateLimit ==> end == Ended(JobCompleted)
  {
    ghost var left := jobs.db.View();
    world.Sleep(0);
    if stop.NoMoreItems? { StaysSettled(left.items, jobs.db.items, world.job); }
    end := WindUp(jobs, results, world.job, world.me, Sec(world.now), stop, pausedOnRateLimit);
    log := RunLog(heard, left, jobs.db.View(), Sec(world.now));
    world.Sleep(0);
    if end == Ended(JobCompleted) { StaysSettled(log.final.items, jobs.db.items, world.job); }
  }

  // Everything after: start, connect, process, poll, finalise, disconnect, with others acting at every await. The
  // leases are released by the caller in every case. Others may rewrite the row while the account disconnects.
  method Drive(jobs: JobRepository, results: ResultRepository, rate: RateLimitManager, j: JobId, k: AccountKey,
               w: WorkerId, cfg: Config, maxAttempts: nat, baseDelay: nat, maxDelay: nat, began: int, calm: bool)
    returns (end: RunResult, ghost log: RunLog)
    requires jobs.db == results.db && JobRowsOk(jobs.db.items, j) && NoneProcessing(jobs.db.items, j)
    requires calm ==> OwnsJob(jobs.db.View(), j, w, Sec(began)) && OwnsAccount(jobs.db.View(), k, w, j, Sec(began))
    modifies jobs.db, rate, rate.row
    ensures EndedWell(end, log, j, w) && (end == Ended(JobCompleted) ==> AllTerminal(jobs.db.items, j))
    ensures calm ==> end == Ended(JobCompleted) && SameIds(old(jobs.db.items), jobs.db.items, j)
  {
    hide PauseAcknowledged, Budgets.Budget, NextWake;
    log := RunLog([], jobs.db.View(), jobs.db.View(), Sec(began));
    var started := jobs.MarkStartedIfOwned(j, w, Sec(began));
    if !started { return Refused(Ownerless), log; }
    var world := new World(jobs.db, w, j, k, calm, began);
    var worker := new Worker(world, results, jobs, rate, cfg.recoveryGrace, maxAttempts, baseDelay, maxDelay);
    var connected := Connect(world);
    if !connected { return Refused(NotConnected), log; }
    worker.WaitingPays(old(jobs.db.items));
    var stop := worker.Process();
    end, log := Conclude(world, jobs, results, stop, worker.pausedOnRateLimit, worker.heard);
  }

  // What Run asks of its caller holds in every state the engine can reach, for a worker id not used before.
  lemma FreshWorkerMayRun(s: Protocol.Sys, j: JobId, w: WorkerId)
    requires Protocol.Reachable(s) && j in s.db.jobs && w !in s.agents
    ensures NamedNowhere(s.db, j, s.db.jobs[j].accountKey, w)
    ensures JobRowsOk(s.db.items, j) && OneAccount(s.db, j, s.db.jobs[j].accountKey)
  {
    ItemHistory.ReachableInv(s);
    assert Invariant.JobRowOk(s, j);
    assert forall k :: k in s.db.accounts ==> Invariant.AccountRowOk(s, k);
  }

  // run(). It reads the clock at start and, once both leases are won, at began. A job is turned down for the
  // reasons of Refusal and no others; one that is not ends as EndedWell says, and COMPLETED still means on return
  // that every item is settled. The worker's name is on neither lease afterwards. When nobody interferes, run()
  // either turns the job down or completes it.
  method Run(jobs: JobRepository, results: ResultRepository, rate: RateLimitManager, j: JobId, k: AccountKey,
             w: WorkerId, cfg: Config, maxAttempts: nat, baseDelay: nat, maxDelay: nat, autoResume: bool,
             start: int, began: int, calm: bool)
    returns (end: RunResult, ghost log: RunLog)
    requires jobs.db == results.db && start <= began && (calm ==> Sec(began) < Sec(start) + cfg.leaseSeconds)
    requires NamedNowhere(jobs.db.View(), j, k, w) && (j in jobs.db.jobs ==> jobs.db.jobs[j].accountKey == k)
    requires JobRowsOk(jobs.db.items, j) && OneAccount(jobs.db.View(), j, k)
    modifies jobs.db, rate, rate.row
    ensures EndedWell(end, log, j, w) && (end == Ended(JobCompleted) ==> AllTerminal(jobs.db.items, j))
    ensures NamedNowhere(jobs.db.View(), j, k, w)
    ensures var refusal := Refusal(old(jobs.db.View()), j, k, w, start, cfg, autoResume);
            && (refusal.Some? ==> end == Refused(refusal.value) && log.heard == [])
            && (refusal == Some(PausedJob) ==>
                  Recovered(old(jobs.db.View()), jobs.db.View(), j, Sec(start), cfg.recoveryGrace))
            && (refusal.None? && calm ==>
                  end == Ended(JobCompleted) && SameIds(old(jobs.db.items), jobs.db.items, j))
  {
    hide Recovered, EndedWell, Recover, Claim, JobRowsOk, NoneProcessing, ReleaseJob, Statements.ReleaseAccount;
    ghost var before := jobs.db.View();
    var refusal := Enter(jobs, results, rate, j, k, w, cfg, autoResume, start);
    if refusal.Some? {
      log := RunLog([], jobs.db.View(), jobs.db.View(), Sec(start));
      RefusedWell(refusal.value, log, j, w);
      return Refused(refusal.value), log;
    }
    GrantedAfterRecovery(before, j, k, w, Sec(start), cfg);
    hide Refusal;
    end, log := Drive(jobs, results, rate, j, k, w, cfg, maxAttempts, baseDelay, maxDelay, began, calm);
    Release(jobs, j, k, w);
  }
}
