// job_manager.py and Worker.claim: the operations made of several statements, run without interruption.
// Module Protocol runs the same statements one at a time.

module JobManagement {
  import opened Options
  import opened Tables
  import opened Statements
  import opened Repositories
  import opened Outside
  import opened Accounting
  import opened Selection
  import ItemHistory

  // Nobody else's lease stands in the way of worker w: there is none, or it has run out, and the takeover grace
  // with it unless it was w's own.
  predicate Free(holder: Option<WorkerId>, until: Option<Seconds>, w: WorkerId, now: Seconds, grace: nat) {
    || holder.None? || until.None?
    || (if holder == Some(w) then until.value <= now else until.value + grace <= now)
  }

  // Worker.claim: both leases in turn, the first given back when the second is refused.
  method ClaimBoth(repo: JobRepository, j: JobId, k: AccountKey, w: WorkerId, now: Seconds, cfg: Config)
    returns (verdict: ClaimVerdict)
    requires j in repo.db.jobs ==> repo.db.jobs[j].workerId != Some(w)
    modifies repo.db`jobs, repo.db`accounts
    ensures (repo.db.View(), verdict) == Claim(old(repo.db.View()), j, k, w, now, cfg)
    // which lease is refused, if any
    ensures verdict.ClaimJobBusy? <==>
              j in old(repo.db.jobs) ==> var r := old(repo.db.jobs[j]);
                                         !Free(r.workerId, r.leaseUntil, w, now, cfg.takeoverGrace)
    ensures verdict.ClaimAccountBusy? <==>
              && !verdict.ClaimJobBusy? && k in old(repo.db.accounts)
              && var r := old(repo.db.accounts[k]); !Free(r.workerId, r.leaseUntil, w, now, cfg.takeoverGrace)
    // both rows on success; a refused account leaves the job nobody's, a refused job leaves everything
    ensures verdict.ClaimGranted? ==>
              var r, until := old(repo.db.jobs[j]), now + cfg.leaseSeconds;
              && repo.db.jobs == old(repo.db.jobs)[j := r.(workerId := Some(w), heartbeatAt := Some(now),
                                                           leaseUntil := Some(until))]
              && repo.db.accounts == old(repo.db.accounts)[k := AccountLease(Some(w), Some(now), Some(until), Some(j))]
    ensures verdict.ClaimAccountBusy? ==>
              var r := old(repo.db.jobs[j]);
              && repo.db.accounts == old(repo.db.accounts)
              && repo.db.jobs == old(repo.db.jobs)[j := r.(workerId := None, heartbeatAt := None, leaseUntil := None)]
    ensures verdict.ClaimJobBusy? ==> repo.db.View() == old(repo.db.View())
  {
    var won := repo.ClaimWorker(j, w, now, now + cfg.leaseSeconds, cfg.takeoverGrace);
    if !won { return ClaimJobBusy; }
    won := repo.ClaimAccount(k, w, j, now, now + cfg.leaseSeconds, cfg.takeoverGrace);
    if !won {
      repo.ReleaseWorker(j, w);
      return ClaimAccountBusy;
    }
    return ClaimGranted;
  }

  // A known job without a live lease on its row or on any account.
  predicate Recoverable(db: Db, j: JobId, now: Seconds) {
    j in db.jobs && !LiveJob(db, j, now) && !LiveAccountForJob(db, j, now)
  }

  // Every row of the job that was in flight is quarantined; every other row stays.
  ghost predicate InFlightQuarantined(items: seq<Item>, items': seq<Item>, j: JobId, now: Seconds, grace: nat) {
    && |items'| == |items| && NoneProcessing(items', j)
    && forall i :: 0 <= i < |items| ==>
         if items[i].jobId == j && items[i].status == Processing
         then ItemHistory.RowQuarantined(items[i], items'[i], now, grace)
         else items'[i] == items[i]
  }

  // The tables before and after a recovery. A live lease on either row, and nothing is touched. Otherwise a job
  // that was running is paused and nobody's, its account is given back, and nothing of it is in flight.
  ghost predicate Recovered(db: Db, db': Db, j: JobId, now: Seconds, grace: nat) {
    if !Recoverable(db, j, now) then db' == db
    else
      var r := db.jobs[j];
      && InFlightQuarantined(db.items, db'.items, j, now, grace)
      && if Active(r.status) then
           && db'.jobs == db.jobs[j := r.(status := Paused, workerId := None, heartbeatAt := None, leaseUntil := None)]
           && db'.accounts == if r.workerId.Some? && AccountNamed(db, r.accountKey, r.workerId.value, j)
                              then db.accounts[r.accountKey := AccountLease(None, None, None, None)]
                              else db.accounts
         else db'.jobs == db.jobs && db'.accounts == db.accounts
  }

  lemma RecoverySets(db: Db, j: JobId, now: Seconds, cfg: Config)
    ensures Recovered(db, Recover(db, j, now, cfg), j, now, cfg.recoveryGrace)
  {
  }

  // JobManager.recover with nothing running between its reads and its writes.
  method RecoverJob(jobs: JobRepository, results: ResultRepository, j: JobId, now: Seconds, cfg: Config)
    requires jobs.db == results.db
    modifies jobs.db
    ensures jobs.db.View() == Recover(old(jobs.db.View()), j, now, cfg)
    ensures Recovered(old(jobs.db.View()), jobs.db.View(), j, now, cfg.recoveryGrace)
  {
    var db := jobs.db;
    RecoverySets(db.View(), j, now, cfg);
    hide Recovered;
    if j !in db.jobs { return; }
    var job := db.jobs[j];
    var live := jobs.HasLiveWorkerLease(j, now);
    if live { return; }
    live := jobs.HasLiveAccountLeaseForJob(j, now);
    if live { return; }
    if job.status == Running || job.status == JobRateLimited {
      if job.workerId.Some? { jobs.ReleaseAccount(job.accountKey, job.workerId.value, j); }
      jobs.ClearWorkerOwnership(j);
      jobs.UpdateStatus(j, Paused);
    }
    var recovered := results.RecoverInterrupted(j, now + cfg.recoveryGrace, now);
  }

  // JobManager._is_stale, in milliseconds: the residual of the lease, cut off at zero.
  function IsStale(row: Job, ms: int): bool {
    row.leaseUntil.None? || (var left := row.leaseUntil.value * 1000 - ms; (if left > 0 then left else 0) <= 0)
  }

  // The check on the clock's fraction of a second agrees with the guards on whole seconds.
  lemma StaleMeansNotLive(row: Job, ms: int)
    ensures IsStale(row, ms) <==> !InFuture(row.leaseUntil, Sec(ms))
  {
  }

  datatype RunEnd = Returned(status: JobStatus) | LostOwnership

  // A job's row before and after its run was finalised. No lease is touched.
  ghost predicate Finalised(r: Job, r': Job, end: RunEnd, owned: bool, now: Seconds) {
    r' == if !owned || end.LostOwnership? then r.(totals := r'.totals)
          else if end.status == Cancelled then
            r.(status := Cancelled, command := NoCommand, pauseRequestedAt := None, pausedAt := None,
               finishedAt := Some(now), totals := r'.totals)
          else if end.status == JobCompleted then
            r.(status := JobCompleted, finishedAt := Some(now), totals := r'.totals)
          else r.(status := end.status, totals := r'.totals)
  }

  // The end of JobManager.run after its worker stopped normally.
  method Finalise(jobs: JobRepository, results: ResultRepository, j: JobId, w: WorkerId, now: Seconds,
                  cancelledByCommand: bool, pausedOnRateLimit: bool)
    returns (end: RunEnd)
    requires jobs.db == results.db
    modifies jobs.db`jobs
    ensures j in jobs.db.jobs <==> j in old(jobs.db.jobs)
    // a cancel comes first, then a rate limit; COMPLETED needs every item settled, and both need the lease
    ensures var owned := OwnsJob(old(jobs.db.View()), j, w, now);
            end == if cancelledByCommand then (if owned then Returned(Cancelled) else LostOwnership)
                   else if pausedOnRateLimit then Returned(JobRateLimited)
                   else if AllTerminal(jobs.db.items, j) then (if owned then Returned(JobCompleted) else LostOwnership)
                   else Returned(Paused)
    // the owned row says what is returned, a disowned one gets its totals only
    ensures j in jobs.db.jobs ==>
              Finalised(old(jobs.db.jobs[j]), jobs.db.jobs[j], end, OwnsJob(old(jobs.db.View()), j, w, now), now)
              && jobs.db.jobs[j].totals == Tally(jobs.db.items, j)
    ensures forall i :: i in jobs.db.jobs && i != j ==>
              i in old(jobs.db.jobs) && jobs.db.jobs[i] == old(jobs.db.jobs)[i]
  {
    ReconcileStats(jobs.db, j);
    var unfinished := results.HasUnfinishedItems(j);
    var ok;
    if cancelledByCommand {
      ok := jobs.MarkCancelledIfOwned(j, w, now);
      return if ok then Returned(Cancelled) else LostOwnership;
    } else if pausedOnRateLimit {
      ok := jobs.UpdateStatusIfOwned(j, w, JobRateLimited, now);
      return Returned(JobRateLimited);
    } else if !unfinished {
      ok := jobs.MarkFinishedIfOwned(j, w, now);
      return if ok then Returned(JobCompleted) else LostOwnership;
    } else {
      if j !in jobs.db.jobs || jobs.db.jobs[j].status != Paused { ok := jobs.UpdateStatusIfOwned(j, w, Paused, now); }
      return Returned(Paused);
    }
  }

  datatype ControlError = UnknownJob | AlreadyCompleted | JobBusy

  // JobController.pause: a running job keeps its status until its worker acknowledges.
  method Pause(jobs: JobRepository, j: JobId, now: Seconds) returns (error: Option<ControlError>)
    modifies jobs.db`jobs
    ensures error == if j !in old(jobs.db.jobs) then Some(UnknownJob)
                     else if old(jobs.db.jobs[j].status) == JobCompleted then Some(AlreadyCompleted) else None
    ensures error.Some? ==> jobs.db.jobs == old(jobs.db.jobs)
    ensures error.None? ==>
              && j in jobs.db.jobs && jobs.db.jobs == old(jobs.db.jobs)[j := jobs.db.jobs[j]]
              && jobs.db.jobs[j].workerId == old(jobs.db.jobs[j].workerId)
              && jobs.db.jobs[j].leaseUntil == old(jobs.db.jobs[j].leaseUntil)
              && if old(jobs.db.jobs[j].status) == Running || old(jobs.db.jobs[j].status) == JobRateLimited
                 then
                   && jobs.db.jobs[j].status == old(jobs.db.jobs[j].status) && jobs.db.jobs[j].command == PauseCommand
                   && jobs.db.jobs[j].pauseRequestedAt == Some(now)
                   && jobs.db.jobs[j].pausedAt == old(jobs.db.jobs[j].pausedAt)
                 else
                   && jobs.db.jobs[j].status == Paused && jobs.db.jobs[j].command == old(jobs.db.jobs[j].command)
                   && jobs.db.jobs[j].pauseRequestedAt.None? && jobs.db.jobs[j].pausedAt.None?
  {
    if j !in jobs.db.jobs { return Some(UnknownJob); }
    var status := jobs.db.jobs[j].status;
    if status == JobCompleted { return Some(AlreadyCompleted); }
    if status == Running || status == JobRateLimited {
      jobs.SetPauseRequested(j, now);
    } else {
      jobs.UpdateStatus(j, Paused);
      jobs.ClearPauseState(j);
    }
    error := None;
  }

  // JobController.resume: refused while the old worker may still be finishing a request.
  method Resume(jobs: JobRepository, j: JobId, now: Seconds) returns (error: Option<ControlError>)
    modifies jobs.db`jobs
    ensures error == if j !in old(jobs.db.jobs) then Some(UnknownJob)
                     else if old(jobs.db.jobs[j].status) == JobCompleted then Some(AlreadyCompleted)
                     else if LiveJob(old(jobs.db.View()), j, now) then Some(JobBusy)
                     else None
    ensures error.Some? ==> jobs.db.jobs == old(jobs.db.jobs)
    ensures error.None? ==>
              && j in jobs.db.jobs && jobs.db.jobs == old(jobs.db.jobs)[j := jobs.db.jobs[j]]
              && jobs.db.jobs[j].status == Running && jobs.db.jobs[j].command == NoCommand
              && jobs.db.jobs[j].pausedAt.None? && jobs.db.jobs[j].pauseRequestedAt.None?
              && jobs.db.jobs[j].workerId == old(jobs.db.jobs[j].workerId)
              && jobs.db.jobs[j].leaseUntil == old(jobs.db.jobs[j].leaseUntil)
              && jobs.db.jobs[j].startedAt == Some(now)
  {
    if j !in jobs.db.jobs { return Some(UnknownJob); }
    if jobs.db.jobs[j].status == JobCompleted { return Some(AlreadyCompleted); }
    var live := jobs.HasLiveWorkerLease(j, now);
    if live { return Some(JobBusy); }
    jobs.ClearPauseState(j);
    jobs.SetRequestedCommand(j, NoCommand);
    jobs.MarkStarted(j, now);
    error := None;
  }
}
