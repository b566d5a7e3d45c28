// result_repository.py and job_repository.py: objects over a shared store whose methods are single SQL
// statements. Every method is proved to have the effect Statements gives it, which is the effect the
// protocol lemmas are about. The clock a statement reads is an argument.

module Repositories {
  import opened Options
  import opened Tables
  import opened Statements
  import opened Storage
  import opened Selection
  import Protocol

  class ResultRepository {
    const db: Store

    constructor (db: Store)
      ensures this.db == db
    {
      this.db := db;
    }

    method MarkProcessing(id: nat, owner: Option<Owner>, now: Seconds, token: Token) returns (claimed: Option<Token>)
      modifies db`items
      ensures db.View() == Statements.MarkProcessing(old(db.View()), id, owner, now, token)
      ensures claimed == if ClaimGuard(old(db.View()), id, owner, now) then Some(token) else None
    {
      claimed := None;
      if id < |db.items| {
        var row := db.items[id];
        var mine := true;
        if owner.Some? {
          var o := owner.value;
          mine := row.jobId == o.jobId && o.jobId in db.jobs && db.jobs[o.jobId].workerId == Some(o.workerId)
                  && InFuture(db.jobs[o.jobId].leaseUntil, now);
        }
        if Selectable(row, now) && mine {
          row := row.(status := Processing, startedAt := Some(now));
          row := row.(ownershipLostAt := None, recoveryAfter := None, token := Some(token));
          db.items := db.items[id := row];
          claimed := Some(token);
        }
      }
    }

    method SaveResult(id: nat, o: Outcome, token: Option<Token>, owner: Option<Owner>, now: Seconds)
      returns (written: bool)
      modifies db`items
      ensures db.View() == Statements.SaveResult(old(db.View()), id, o, token, owner, now)
      ensures written == SaveGuard(old(db.View()), id, token, owner, now)
    {
      written := SaveGuard(db.View(), id, token, owner, now);
      if written {
        var row := db.items[id].(status := o.status, nextRetryAt := o.nextRetryAt, lastError := o.error);
        if o.attemptCount.Some? { row := row.(attemptCount := o.attemptCount.value); }
        row := row.(completedAt := if o.completed then Some(now) else None);
        db.items := db.items[id := row.(token := None, recoveryAfter := None)];
      }
    }

    method MarkRetry(id: nat, attempts: nat, nextRetryAt: Seconds, error: Option<ErrorType>, token: Option<Token>,
                     owner: Option<Owner>, now: Seconds) returns (written: bool)
      modifies db`items
      ensures db.View() == Statements.SaveResult(old(db.View()), id,
                             Outcome(RetryRequired, Some(attempts), Some(nextRetryAt), error, false), token, owner, now)
      ensures written == SaveGuard(old(db.View()), id, token, owner, now)
    {
      written := SaveResult(id, Outcome(RetryRequired, Some(attempts), Some(nextRetryAt), error, false), token, owner,
                            now);
    }

    method MarkInFlightUnknown(id: nat, token: Token, recoveryAfter: Seconds, now: Seconds) returns (written: bool)
      modifies db`items
      ensures db.View() == Statements.MarkInFlightUnknown(old(db.View()), id, token, recoveryAfter, now)
      ensures written == QuarantineGuard(old(db.View()), id, token)
    {
      written := false;
      if id < |db.items| && db.items[id].status == Processing && db.items[id].token == Some(token) {
        var row := db.items[id].(status := InFlightUnknown, ownershipLostAt := Some(now),
                                 recoveryAfter := Some(recoveryAfter));
        db.items := db.items[id := row.(nextRetryAt := None, token := None, lastError := Some(WorkerInterrupted))];
        written := true;
      }
    }

    // Returns how many rows were in flight; none is afterwards.
    method RecoverInterrupted(j: JobId, recoveryAfter: Seconds, now: Seconds) returns (count: nat)
      modifies db`items
      ensures db.View() == Statements.RecoverInterrupted(old(db.View()), j, recoveryAfter, now)
      ensures count == CountStatus(old(db.items), j, Processing) && NoneProcessing(db.items, j)
    {
      var rows := db.items;
      count := 0;
      for i := 0 to |rows|
        invariant |db.items| == |rows| && count == CountStatus(rows[..i], j, Processing)
        invariant forall n :: 0 <= n < i ==> db.items[n] == RecoveredRow(rows[n], j, now, recoveryAfter)
        invariant forall n :: i <= n < |rows| ==> db.items[n] == rows[n]
      {
        assert rows[..i + 1][..i] == rows[..i];
        if rows[i].jobId == j && rows[i].status == Processing {
          var row := rows[i].(status := InFlightUnknown, lastError := Some(WorkerInterrupted), nextRetryAt := None);
          row := row.(ownershipLostAt := Some(now), recoveryAfter := Some(recoveryAfter), token := None);
          db.items := db.items[i := row];
          count := count + 1;
        }
      }
      assert rows[..|rows|] == rows;
    }

    // SELECT ... ORDER BY id LIMIT 1: the first selectable row, by id.
    method NextDueItem(j: JobId, now: Seconds) returns (id: Option<nat>)
      ensures id.None? <==> !Due(db.items, j, now)
      ensures id.Some? ==> id.value < |db.items| && db.items[id.value].jobId == j && Selectable(db.items[id.value], now)
                           && forall i :: 0 <= i < id.value ==>
                               !(db.items[i].jobId == j && Selectable(db.items[i], now))
    {
      var first := Protocol.FirstDue(db.items, j, now, 0);
      id := if first < |db.items| then Some(first) else None;
    }

    method GetNextRetryAt(j: JobId) returns (at: Option<Seconds>)
      ensures at == NextWake(db.items, j)
    {
      var retry := MinRetry(db.items, j);
      var recovery := MinRecovery(db.items, j);
      if retry.None? { at := recovery; }
      else if recovery.None? { at := retry; }
      else { at := Some(if retry.value <= recovery.value then retry.value else recovery.value); }
    }

    method HasUnfinishedItems(j: JobId) returns (b: bool)
      ensures b == HasUnfinished(db.items, j)
    {
      var count := 0;
      for i := 0 to |db.items|
        invariant count > 0 <==> HasUnfinished(db.items[..i], j)
      {
        UnfinishedNext(db.items, i, j);
        if db.items[i].jobId == j && !Terminal(db.items[i].status) { count := count + 1; }
      }
      assert db.items[..|db.items|] == db.items;
      b := count > 0;
    }

    method CountPendingAllStatuses(j: JobId, now: Seconds) returns (n: nat)
      ensures n > 0 <==> Due(db.items, j, now)
      ensures n == CountDue(db.items, j, now)
    {
      n := CountDue(db.items, j, now);
      CountDueAgrees(db.items, j, now);
    }
  }

  class JobRepository {
    const db: Store

    constructor (db: Store)
      ensures this.db == db
    {
      this.db := db;
    }

    // The SELECT and the UPDATE of claim_worker with nothing in between; now and until come from two reads of
    // the clock. A worker that already is on the row renews without any look at the expiry.
    method ClaimWorker(j: JobId, w: WorkerId, now: Seconds, until: Seconds, grace: nat) returns (won: bool)
      modifies db`jobs
      ensures won == (|| OnJob(old(db.View()), j, w)
                      || (!JobBusy(old(db.View()), j, w, now, grace) && JobTakeable(old(db.View()), j, now)))
      ensures db.View() == if won then LeaseJob(old(db.View()), j, w, now, until) else old(db.View())
    {
      if j !in db.jobs { return false; }
      var row := db.jobs[j];
      if row.workerId.Some? && row.workerId != Some(w) && row.leaseUntil.Some? && row.leaseUntil.value + grace > now {
        return false;
      }
      if row.workerId == Some(w) {
        db.jobs := db.jobs[j := row.(heartbeatAt := Some(now), leaseUntil := Some(until))];
        return true;
      }
      if row.workerId.None? || row.leaseUntil.None? || row.leaseUntil.value <= now {
        db.jobs := db.jobs[j := row.(workerId := Some(w), heartbeatAt := Some(now), leaseUntil := Some(until))];
        return true;
      }
      return false;
    }

    method RenewWorker(j: JobId, w: WorkerId, now: Seconds, until: Seconds) returns (ok: bool)
      modifies db`jobs
      ensures db.View() == RenewJob(old(db.View()), j, w, now, until) && ok == OwnsJob(old(db.View()), j, w, now)
      ensures ok ==> db.jobs[j] == old(db.jobs[j]).(heartbeatAt := Some(now), leaseUntil := Some(until))
    {
      ok := IsJobOwnedBy(j, w, now);
      if ok {
        db.jobs := db.jobs[j := db.jobs[j].(heartbeatAt := Some(now), leaseUntil := Some(until))];
      }
    }

    method IsJobOwnedBy(j: JobId, w: WorkerId, now: Seconds) returns (owned: bool)
      ensures owned == OwnsJob(db.View(), j, w, now)
    {
      if j !in db.jobs || db.jobs[j].workerId != Some(w) { return false; }
      var until := db.jobs[j].leaseUntil;
      return until.Some? && until.value > now;
    }

    method ReleaseWorker(j: JobId, w: WorkerId)
      modifies db`jobs
      ensures db.View() == ReleaseJob(old(db.View()), j, w)
    {
      if j in db.jobs && db.jobs[j].workerId == Some(w) {
        db.jobs := db.jobs[j := db.jobs[j].(workerId := None, heartbeatAt := None, leaseUntil := None)];
      }
    }

    method ClearWorkerOwnership(j: JobId)
      modifies db`jobs
      ensures db.View() == ClearJob(old(db.View()), j)
    {
      if j in db.jobs {
        db.jobs := db.jobs[j := db.jobs[j].(workerId := None, heartbeatAt := None, leaseUntil := None)];
      }
    }

    method ClaimAccount(k: AccountKey, w: WorkerId, j: JobId, now: Seconds, until: Seconds, grace: nat)
      returns (won: bool)
      modifies db`accounts
      ensures won == (!AccountBusy(old(db.View()), k, w, now, grace) && AccountTakeable(old(db.View()), k, now))
      ensures db.View() == if won then TakeAccount(old(db.View()), k, w, j, now, until) else old(db.View())
    {
      if k in db.accounts {
        var row := db.accounts[k];
        if row.workerId.Some? && row.workerId != Some(w) && row.leaseUntil.Some? && row.leaseUntil.value + grace > now {
          return false;
        }
        if !(row.workerId.None? || row.leaseUntil.None? || row.leaseUntil.value <= now) { return false; }
      }
      db.accounts := db.accounts[k := AccountLease(Some(w), Some(now), Some(until), Some(j))];
      return true;
    }

    method RenewAccount(k: AccountKey, w: WorkerId, j: JobId, now: Seconds, until: Seconds) returns (ok: bool)
      modifies db`accounts
      ensures db.View() == Statements.RenewAccount(old(db.View()), k, w, j, now, until)
      ensures ok == OwnsAccount(old(db.View()), k, w, j, now)
      ensures ok ==> db.accounts[k] == AccountLease(Some(w), Some(now), Some(until), Some(j))
    {
      ok := IsAccountOwnedBy(k, w, j, now);
      if ok {
        db.accounts := db.accounts[k := db.accounts[k].(heartbeatAt := Some(now), leaseUntil := Some(until))];
      }
    }

    method IsAccountOwnedBy(k: AccountKey, w: WorkerId, j: JobId, now: Seconds) returns (owned: bool)
      ensures owned == OwnsAccount(db.View(), k, w, j, now)
    {
      if k !in db.accounts { return false; }
      var row := db.accounts[k];
      if row.workerId != Some(w) || row.jobId != Some(j) { return false; }
      return row.leaseUntil.Some? && row.leaseUntil.value > now;
    }

    method ReleaseAccount(k: AccountKey, w: WorkerId, j: JobId)
      modifies db`accounts
      ensures db.View() == Statements.ReleaseAccount(old(db.View()), k, w, j)
    {
      if k in db.accounts && db.accounts[k].workerId == Some(w) && db.accounts[k].jobId == Some(j) {
        db.accounts := db.accounts[k := AccountLease(None, None, None, None)];
      }
    }

    method HasLiveWorkerLease(j: JobId, now: Seconds) returns (live: bool)
      ensures live == LiveJob(db.View(), j, now)
    {
      if j !in db.jobs || db.jobs[j].workerId.None? { return false; }
      return db.jobs[j].leaseUntil.Some? && db.jobs[j].leaseUntil.value > now;
    }

    method HasLiveAccountLeaseForJob(j: JobId, now: Seconds) returns (live: bool)
      ensures live == LiveAccountForJob(db.View(), j, now)
    {
      var keys := db.accounts.Keys;
      live := false;
      while keys != {} && !live
        invariant keys <= db.accounts.Keys
        invariant live ==> LiveAccountForJob(db.View(), j, now)
        invariant !live ==> forall k :: k in db.accounts.Keys - keys ==>
                    !(db.accounts[k].jobId == Some(j) && LiveAccount(db.View(), k, now))
        decreases |keys|
      {
        var k :| k in keys;
        keys := keys - {k};
        var row := db.accounts[k];
        live := row.jobId == Some(j) && row.workerId.Some? && row.leaseUntil.Some? && row.leaseUntil.value > now;
      }
    }

    method UpdateStatusIfOwned(j: JobId, w: WorkerId, st: JobStatus, now: Seconds) returns (ok: bool)
      modifies db`jobs
      ensures db.View() == SetStatusIfOwned(old(db.View()), j, w, st, now) && ok == OwnsJob(old(db.View()), j, w, now)
    {
      ok := IsJobOwnedBy(j, w, now);
      if ok { UpdateStatus(j, st); }
    }

    method UpdateStatus(j: JobId, st: JobStatus)
      modifies db`jobs
      ensures db.View() == Statements.SetStatus(old(db.View()), j, st)
    {
      if j in db.jobs { db.jobs := db.jobs[j := db.jobs[j].(status := st)]; }
    }

    method MarkStartedIfOwned(j: JobId, w: WorkerId, now: Seconds) returns (ok: bool)
      modifies db`jobs
      ensures db.View() == Statements.MarkStartedIfOwned(old(db.View()), j, w, now)
          && ok == OwnsJob(old(db.View()), j, w, now)
      ensures ok ==> db.jobs[j] == old(db.jobs[j]).(status := Running, command := NoCommand, startedAt := Some(now))
    {
      ok := IsJobOwnedBy(j, w, now);
      if ok { db.jobs := db.jobs[j := db.jobs[j].(status := Running, command := NoCommand, startedAt := Some(now))]; }
    }

    method MarkFinishedIfOwned(j: JobId, w: WorkerId, now: Seconds) returns (ok: bool)
      modifies db`jobs
      ensures db.View() == Statements.MarkFinishedIfOwned(old(db.View()), j, w, now)
          && ok == OwnsJob(old(db.View()), j, w, now)
    {
      ok := IsJobOwnedBy(j, w, now);
      if ok { db.jobs := db.jobs[j := db.jobs[j].(status := JobCompleted, finishedAt := Some(now))]; }
    }

    method MarkCancelledIfOwned(j: JobId, w: WorkerId, now: Seconds) returns (ok: bool)
      modifies db`jobs
      ensures db.View() == Statements.MarkCancelledIfOwned(old(db.View()), j, w, now)
          && ok == OwnsJob(old(db.View()), j, w, now)
    {
      ok := IsJobOwnedBy(j, w, now);
      if ok {
        var row := db.jobs[j].(status := Cancelled, command := NoCommand);
        db.jobs := db.jobs[j := row.(pauseRequestedAt := None, pausedAt := None, finishedAt := Some(now))];
      }
    }

    method MarkCancelledIfUnowned(j: JobId, now: Seconds) returns (ok: bool)
      modifies db`jobs
      ensures db.View() == Statements.MarkCancelledIfUnowned(old(db.View()), j, now)
          && ok == JobTakeable(old(db.View()), j, now)
    {
      if j !in db.jobs { return false; }
      var row := db.jobs[j];
      ok := row.workerId.None? || row.leaseUntil.None? || row.leaseUntil.value <= now;
      if ok {
        row := row.(status := Cancelled, command := NoCommand);
        db.jobs := db.jobs[j := row.(pauseRequestedAt := None, pausedAt := None, finishedAt := Some(now))];
      }
    }

    method AcknowledgePause(j: JobId, w: WorkerId, now: Seconds)
      modifies db`jobs
      ensures db.View() == Statements.AcknowledgePause(old(db.View()), j, w, now)
      ensures if j in old(db.jobs) && (old(db.jobs[j].workerId).None? || old(db.jobs[j].workerId) == Some(w))
              then db.jobs == old(db.jobs)[j := old(db.jobs[j]).(status := Paused, command := NoCommand,
                                                                 pausedAt := Some(now), workerId := None,
                                                                 heartbeatAt := None, leaseUntil := None)]
              else db.jobs == old(db.jobs)
    {
      if j in db.jobs && (db.jobs[j].workerId.None? || db.jobs[j].workerId == Some(w)) {
        var row := db.jobs[j].(status := Paused, command := NoCommand, pausedAt := Some(now));
        db.jobs := db.jobs[j := row.(workerId := None, heartbeatAt := None, leaseUntil := None)];
      }
    }

    method SetPauseRequested(j: JobId, now: Seconds)
      modifies db`jobs
      ensures db.View() == RequestPause(old(db.View()), j, now)
    {
      if j in db.jobs {
        db.jobs := db.jobs[j := db.jobs[j].(command := PauseCommand, pauseRequestedAt := Some(now))];
      }
    }

    method ClearPauseState(j: JobId)
      modifies db`jobs
      ensures db.View() == Statements.ClearPauseState(old(db.View()), j)
    {
      if j in db.jobs { db.jobs := db.jobs[j := db.jobs[j].(pauseRequestedAt := None, pausedAt := None)]; }
    }

    method MarkStarted(j: JobId, now: Seconds)
      modifies db`jobs
      ensures db.View() == Statements.MarkStarted(old(db.View()), j, now)
      ensures j in db.jobs ==> db.jobs[j] == old(db.jobs[j]).(status := Running, command := NoCommand,
                                                              startedAt := Some(now))
    {
      if j in db.jobs {
        db.jobs := db.jobs[j := db.jobs[j].(status := Running, command := NoCommand, startedAt := Some(now))];
      }
    }

    method GetRequestedCommand(j: JobId) returns (c: Command)
      ensures c == if j in db.jobs then db.jobs[j].command else NoCommand
    {
      if j in db.jobs { c := db.jobs[j].command; } else { c := NoCommand; }
    }

    method SetRequestedCommand(j: JobId, c: Command)
      modifies db`jobs
      ensures db.View() == Statements.SetCommand(old(db.View()), j, c)
    {
      if j in db.jobs { db.jobs := db.jobs[j := db.jobs[j].(command := c)]; }
    }
  }
}
