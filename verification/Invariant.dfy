// The inductive invariant of the job engine: it holds initially and every event keeps it, including the
// unguarded writes of recovery at arbitrary moments.

module Invariant {
  import opened Options
  import opened Tables
  import opened Statements
  import opened Protocol

  // What the engine knows about one worker.
  predicate AgentOk(s: Sys, w: WorkerId, a: Agent) {
    && (a.phase.Managing? <==> a.jobId !in s.db.jobs)
    && match a.phase
       case JobSelected(t) => t <= s.clock
       case AccountSelected(t) => t <= s.clock
       case Holding(id, attempts, limit) =>
         && id < |s.db.items| && s.db.items[id].jobId == a.jobId && s.db.items[id].maxAttempts == limit
         && (s.db.jobs[a.jobId].workerId == Some(w) ==> s.db.items[id].attemptCount == attempts)
       case InFlight(id, attempts, limit, token) =>
         && id < |s.db.items| && s.db.items[id].jobId == a.jobId && s.db.items[id].maxAttempts == limit
         && token in s.tokens
         && (s.db.items[id].token == Some(token) ==> s.db.items[id].attemptCount == attempts)
       case Finalising => AllTerminal(s.db.items, a.jobId)
       case _ => true
  }

  ghost predicate AgentsOk(s: Sys) {
    forall w :: w in s.agents ==> AgentOk(s, w, s.agents[w])
  }

  ghost predicate TokensOk(s: Sys) {
    forall i :: 0 <= i < |s.db.items| && s.db.items[i].token.Some? ==> s.db.items[i].token.value in s.tokens
  }

  // A job row names only a worker that claimed this job, and claimed it once.
  predicate JobRowOk(s: Sys, j: JobId)
    requires j in s.db.jobs
  {
    var row := s.db.jobs[j];
    && (row.workerId.Some? ==>
          && row.workerId.value in s.agents && s.agents[row.workerId.value].jobId == j
          && !s.agents[row.workerId.value].phase.JobSelected?)
    && (row.status == JobCompleted ==> AllTerminal(s.db.items, j))
  }

  ghost predicate JobTableOk(s: Sys) {
    forall j :: j in s.db.jobs ==> JobRowOk(s, j)
  }

  predicate BeforeAccount(p: Phase) {
    p.JobSelected? || p.JobWon? || p.AccountSelected? || p.AccountRefused?
  }

  predicate AccountRowOk(s: Sys, k: AccountKey)
    requires k in s.db.accounts
  {
    var row := s.db.accounts[k];
    row.workerId.Some? ==>
      && row.workerId.value in s.agents
      && row.jobId == Some(s.agents[row.workerId.value].jobId)
      && !BeforeAccount(s.agents[row.workerId.value].phase)
      && (row.jobId.value in s.db.jobs ==> k == s.db.jobs[row.jobId.value].accountKey)
  }

  ghost predicate AccountTableOk(s: Sys) {
    forall k :: k in s.db.accounts ==> AccountRowOk(s, k)
  }

  ghost predicate Inv(s: Sys) {
    RowsOk(s.db.items) && TokensOk(s) && AgentsOk(s) && JobTableOk(s) && AccountTableOk(s)
  }

  lemma InitialInv(s: Sys)
    requires Initial(s)
    ensures Inv(s)
  {
  }

  // ---- the four kinds of change an event is made of ------------------------------------------------

  // A worker moves to another phase of the same job, or appears.
  lemma MoveInv(s: Sys, w: WorkerId, j: JobId, p: Phase)
    requires Inv(s) && AgentOk(s, w, Agent(j, p))
    requires w in s.agents ==>
               && s.agents[w].jobId == j && (p.JobSelected? ==> s.agents[w].phase.JobSelected?)
               && (BeforeAccount(p) ==> BeforeAccount(s.agents[w].phase))
    ensures Inv(Go(s, w, j, p))
  {
  }

  ghost predicate JobRowAllowed(s: Sys, j: JobId, row: Job)
    requires j in s.db.jobs
  {
    && row.accountKey == s.db.jobs[j].accountKey
    && (row.workerId.Some? && row.workerId != s.db.jobs[j].workerId ==>
          && row.workerId.value in s.agents && s.agents[row.workerId.value].jobId == j
          && s.agents[row.workerId.value].phase.JobWon?)
    && (row.status == JobCompleted && s.db.jobs[j].status != JobCompleted ==> AllTerminal(s.db.items, j))
  }

  lemma JobInv(s: Sys, j: JobId, row: Job)
    requires Inv(s) && j in s.db.jobs && JobRowAllowed(s, j, row)
    ensures Inv(s.(db := s.db.(jobs := s.db.jobs[j := row])))
  {
  }

  // A fresh token is stamped on a row: no snapshot in flight carries it.
  lemma StampInv(s: Sys, i: nat, r: Item, token: Token)
    requires Inv(s) && i < |s.db.items| && token !in s.tokens
    requires RowOk(r) && r == s.db.items[i].(status := r.status, startedAt := r.startedAt,
                        ownershipLostAt := r.ownershipLostAt, recoveryAfter := r.recoveryAfter, token := Some(token))
    requires !Terminal(s.db.items[i].status)
    ensures Inv(s.(tokens := s.tokens + {token}, db := s.db.(items := s.db.items[i := r])))
  {
  }

  // The owner of the job stores an outcome: nobody else's snapshot of that row is still usable.
  lemma OutcomeInv(s: Sys, w: WorkerId, i: nat, r: Item)
    requires Inv(s) && i < |s.db.items| && w in s.agents && s.agents[w].phase.InFlight? && s.agents[w].phase.id == i
    requires s.agents[w].jobId in s.db.jobs && s.db.jobs[s.agents[w].jobId].workerId == Some(w)
    requires RowOk(r) && r.jobId == s.db.items[i].jobId && r.maxAttempts == s.db.items[i].maxAttempts && r.token.None?
    requires !Terminal(s.db.items[i].status)
    ensures Inv(s.(db := s.db.(items := s.db.items[i := r])))
  {
  }

  // ---- events ----------------------------------------------------------------------------------------

  lemma TickInv(s: Sys, d: nat)
    requires Inv(s)
    ensures Inv(s.(clock := s.clock + d))
  {
  }

  lemma SelectJobInv(s: Sys, w: WorkerId, j: JobId)
    requires Inv(s)
    ensures Inv(DoSelectJob(s, w, j))
  {
  }

  lemma UpdateJobInv(s: Sys, w: WorkerId)
    requires Inv(s)
    ensures Inv(DoUpdateJob(s, w))
  {
    if At(s, w) && PhaseOf(s, w).JobSelected? {
      var j, t := JobOf(s, w), PhaseOf(s, w).readAt;
      assert AgentOk(s, w, s.agents[w]);
      if JobTakeable(s.db, j, t) {
        MoveInv(s, w, j, JobWon);
        var s1 := Go(s, w, j, JobWon);
        var row := TakeJob(s.db, j, w, t, t + s.cfg.leaseSeconds).jobs[j];
        JobInv(s1, j, row);
        assert DoUpdateJob(s, w) == s1.(db := s1.db.(jobs := s1.db.jobs[j := row]));
      } else {
        MoveInv(s, w, j, Stopped);
      }
    }
  }

  lemma SelectAccountInv(s: Sys, w: WorkerId)
    requires Inv(s)
    ensures Inv(DoSelectAccount(s, w))
  {
  }

  lemma TakeAccountInv(s: Sys, w: WorkerId, k: AccountKey, t: Seconds)
    requires Inv(s) && w in s.agents && !BeforeAccount(s.agents[w].phase)
    requires s.agents[w].jobId in s.db.jobs ==> k == s.db.jobs[s.agents[w].jobId].accountKey
    ensures Inv(s.(db := TakeAccount(s.db, k, w, s.agents[w].jobId, t, t + s.cfg.leaseSeconds)))
  {
  }

  lemma UpsertAccountInv(s: Sys, w: WorkerId)
    requires Inv(s)
    ensures Inv(DoUpsertAccount(s, w))
  {
    if At(s, w) && PhaseOf(s, w).AccountSelected? {
      var j, t := JobOf(s, w), PhaseOf(s, w).readAt;
      assert AgentOk(s, w, s.agents[w]);
      if AccountTakeable(s.db, KeyOf(s, j), t) {
        MoveInv(s, w, j, Claimed);
        TakeAccountInv(Go(s, w, j, Claimed), w, KeyOf(s, j), t);
      } else {
        MoveInv(s, w, j, AccountRefused);
      }
    }
  }

  lemma ReleaseJobInv(s: Sys, j: JobId, w: WorkerId)
    requires Inv(s)
    ensures Inv(s.(db := ReleaseJob(s.db, j, w))) && Inv(s.(db := ClearJob(s.db, j)))
  {
  }

  lemma ReleaseAccountInv(s: Sys, k: AccountKey, w: WorkerId, j: JobId)
    requires Inv(s)
    ensures Inv(s.(db := ReleaseAccount(s.db, k, w, j)))
  {
  }

  lemma RollBackInv(s: Sys, w: WorkerId)
    requires Inv(s)
    ensures Inv(DoRollBackClaim(s, w))
  {
    if At(s, w) && PhaseOf(s, w).AccountRefused? {
      assert AgentOk(s, w, s.agents[w]);
      ReleaseJobInv(s, JobOf(s, w), w);
      MoveInv(s.(db := ReleaseJob(s.db, JobOf(s, w), w)), w, JobOf(s, w), Stopped);
      hide Inv;
    }
  }

  lemma ManagerClaimInv(s: Sys, w: WorkerId, k: AccountKey, op: JobId)
    requires Inv(s)
    ensures Inv(DoManagerClaim(s, w, k, op))
  {
  }

  lemma ManagerReleaseInv(s: Sys, w: WorkerId, k: AccountKey)
    requires Inv(s)
    ensures Inv(DoManagerRelease(s, w, k))
  {
  }

  lemma DropInv(s: Sys, w: WorkerId)
    requires Inv(s)
    ensures Inv(DoDropAccount(s, w)) && Inv(DoDropJob(s, w))
  {
    hide Inv;
    if At(s, w) {
      ReleaseAccountInv(s, KeyOf(s, JobOf(s, w)), w, JobOf(s, w));
      ReleaseJobInv(s, JobOf(s, w), w);
    }
  }

  lemma JobHalf(s: Sys, w: WorkerId, j: JobId)
    requires w !in s.agents && j in s.db.jobs
    ensures DoUpdateJob(DoSelectJob(s, w, j), w) ==
            if JobBusy(s.db, j, w, s.clock, s.cfg.takeoverGrace) || !JobTakeable(s.db, j, s.clock)
            then Go(s, w, j, Stopped)
            else Go(s.(db := TakeJob(s.db, j, w, s.clock, s.clock + s.cfg.leaseSeconds)), w, j, JobWon)
  {
    hide TakeJob, JobBusy, JobTakeable;
  }

  lemma AccountHalf(s: Sys, w: WorkerId, j: JobId)
    requires w in s.agents && s.agents[w] == Agent(j, JobWon)
    ensures DoRollBackClaim(DoUpsertAccount(DoSelectAccount(s, w), w), w) ==
            if AccountBusy(s.db, KeyOf(s, j), w, s.clock, s.cfg.takeoverGrace)
                || !AccountTakeable(s.db, KeyOf(s, j), s.clock)
            then Go(s.(db := ReleaseJob(s.db, j, w)), w, j, Stopped)
            else Go(s.(db := TakeAccount(s.db, KeyOf(s, j), w, j, s.clock, s.clock + s.cfg.leaseSeconds)), w, j,
                    Claimed)
  {
    hide TakeAccount, AccountBusy, AccountTakeable, ReleaseJob;
  }

  // Claiming at once is claiming statement by statement with nothing in between.
  lemma ClaimAtOnceIsItsStatements(s: Sys, w: WorkerId, j: JobId)
    requires w !in s.agents
    ensures DoClaimAtOnce(s, w, j) ==
            DoRollBackClaim(DoUpsertAccount(DoSelectAccount(DoUpdateJob(DoSelectJob(s, w, j), w), w), w), w)
  {
    if j in s.db.jobs {
      JobHalf(s, w, j);
      var s2 := DoUpdateJob(DoSelectJob(s, w, j), w);
      if s2.agents[w].phase.JobWon? {
        hide DoUpdateJob, DoSelectJob, DoRollBackClaim, DoUpsertAccount, DoSelectAccount, JobBusy, JobTakeable;
        AccountHalf(s2, w, j);
      }
    }
  }

  lemma ClaimAtOnceInv(s: Sys, w: WorkerId, j: JobId)
    requires Inv(s)
    ensures Inv(DoClaimAtOnce(s, w, j))
  {
    if w !in s.agents {
      hide Inv;
      ClaimAtOnceIsItsStatements(s, w, j);
      SelectJobInv(s, w, j);
      UpdateJobInv(DoSelectJob(s, w, j), w);
      SelectAccountInv(DoUpdateJob(DoSelectJob(s, w, j), w), w);
      UpsertAccountInv(DoSelectAccount(DoUpdateJob(DoSelectJob(s, w, j), w), w), w);
      RollBackInv(DoUpsertAccount(DoSelectAccount(DoUpdateJob(DoSelectJob(s, w, j), w), w), w), w);
    }
  }

  // Recovering at once, where recovery does anything, is its writes with nothing in between.
  lemma RecoveryIsItsStatements(s: Sys, j: JobId)
    requires j in s.db.jobs && !LiveJob(s.db, j, s.clock) && !LiveAccountForJob(s.db, j, s.clock)
    ensures var row := s.db.jobs[j];
            DoRecoverAtOnce(s, j) ==
              if row.status == Running || row.status == JobRateLimited then
                var s1 := if row.workerId.Some? then DoRecoverAccount(s, j, row.workerId.value) else s;
                DoRecoverItems(DoForceStatus(DoRecoverLease(s1, j), j, Paused), j)
              else DoRecoverItems(s, j)
  {
    hide RecoverInterrupted;
  }

  // The controllers' writes leave who owns the job alone.
  lemma StoreCommandInv(s: Sys, j: JobId, c: Command)
    requires Inv(s)
    ensures Inv(s.(db := SetCommand(s.db, j, c)))
  {
  }

  lemma ForceStatusInv(s: Sys, j: JobId, st: JobStatus)
    requires Inv(s) && st != JobCompleted
    ensures Inv(s.(db := Statements.SetStatus(s.db, j, st)))
  {
  }

  lemma ForceStartInv(s: Sys, j: JobId)
    requires Inv(s)
    ensures Inv(s.(db := MarkStarted(s.db, j, s.clock)))
  {
  }

  lemma ForceCancelInv(s: Sys, j: JobId)
    requires Inv(s)
    ensures Inv(s.(db := MarkCancelledIfUnowned(s.db, j, s.clock)))
  {
  }

  lemma RecoverInterruptedInv(s: Sys, j: JobId)
    requires Inv(s)
    ensures Inv(s.(db := RecoverInterrupted(s.db, j, s.clock + s.cfg.recoveryGrace, s.clock)))
  {
  }

  lemma RecoverAtOnceInv(s: Sys, j: JobId)
    requires Inv(s)
    ensures Inv(DoRecoverAtOnce(s, j))
  {
    hide Inv;
    if j in s.db.jobs && !LiveJob(s.db, j, s.clock) && !LiveAccountForJob(s.db, j, s.clock) {
      var row := s.db.jobs[j];
      var s1, s2 := s, s;
      if row.status == Running || row.status == JobRateLimited {
        if row.workerId.Some? {
          ReleaseAccountInv(s, row.accountKey, row.workerId.value, j);
          s1 := s.(db := ReleaseAccount(s.db, row.accountKey, row.workerId.value, j));
        }
        ReleaseJobInv(s1, j, 0);
        ForceStatusInv(s1.(db := ClearJob(s1.db, j)), j, Paused);
        s2 := s.(db := Statements.SetStatus(ClearJob(s1.db, j), j, Paused));
      }
      RecoverInterruptedInv(s2, j);
      assert DoRecoverAtOnce(s, j) == s2.(db := RecoverInterrupted(s2.db, j, s.clock + s.cfg.recoveryGrace, s.clock));
    }
  }

  lemma SendRequestInv(s: Sys, w: WorkerId, token: Token)
    requires Inv(s)
    ensures Inv(DoSendRequest(s, w, token))
  {
    if At(s, w) && PhaseOf(s, w).Holding? && token !in s.tokens {
      var p := PhaseOf(s, w);
      assert AgentOk(s, w, s.agents[w]);
      if SendOk(s, w, token) {
        assert RowOk(s.db.items[p.id]);
        var r := ClaimedRow(s.db.items[p.id], s.clock, token);
        StampInv(s, p.id, r, token);
        MoveInv(s.(tokens := s.tokens + {token}, db := s.db.(items := s.db.items[p.id := r])), w, JobOf(s, w),
                InFlight(p.id, p.attempts, p.limit, token));
      } else {
        var s1 := s.(tokens := s.tokens + {token});
        assert Inv(s1) by {
          forall w' | w' in s1.agents ensures AgentOk(s1, w', s1.agents[w']) {
            assert AgentOk(s, w', s.agents[w']);
          }
          forall j | j in s1.db.jobs ensures JobRowOk(s1, j) { assert JobRowOk(s, j); }
          forall k | k in s1.db.accounts ensures AccountRowOk(s1, k) { assert AccountRowOk(s, k); }
        }
        MoveInv(s1, w, JobOf(s, w), Polling);
      }
    }
  }

  // No lost update, and no attempt beyond the budget: when a guarded outcome write succeeds, the attempt
  // count the worker read before it claimed the item is still the row's.
  lemma CommitMeetsItsSnapshot(s: Sys, w: WorkerId)
    requires Inv(s) && CommitOk(s, w)
    ensures var p := PhaseOf(s, w);
            && s.db.items[p.id].attemptCount == p.attempts && s.db.items[p.id].maxAttempts == p.limit
            && p.attempts < p.limit && s.db.items[p.id].status == Processing
            && JobOf(s, w) in s.db.jobs && s.db.jobs[JobOf(s, w)].workerId == Some(w)
  {
  }

  lemma CommitInv(s: Sys, w: WorkerId, r: Response, delay: nat)
    requires Inv(s)
    ensures Inv(DoCommit(s, w, r, delay))
  {
    if At(s, w) && PhaseOf(s, w).InFlight? {
      var p := PhaseOf(s, w);
      assert AgentOk(s, w, s.agents[w]);
      if CommitOk(s, w) {
        CommitMeetsItsSnapshot(s, w);
        var row := SavedRow(s.db.items[p.id], OutcomeFor(r, p.attempts, p.limit, s.clock, delay), s.clock);
        assert RowOk(s.db.items[p.id]);
        OutcomeInv(s, w, p.id, row);
        MoveInv(s.(db := s.db.(items := s.db.items[p.id := row])), w, JobOf(s, w), Polling);
      } else {
        MoveInv(s, w, JobOf(s, w), Releasing);
      }
    }
  }

  lemma MoveOutInv(s: Sys, w: WorkerId)
    requires Inv(s) && w in s.agents && s.agents[w].phase.InFlight?
    ensures Inv(Go(s, w, JobOf(s, w), Releasing))
  {
  }

  lemma QuarantinedRowsInv(s: Sys, id: nat, token: Token, recoveryAfter: Seconds)
    requires Inv(s)
    ensures Inv(s.(db := MarkInFlightUnknown(s.db, id, token, recoveryAfter, s.clock)))
  {
  }

  lemma QuarantineInv(s: Sys, w: WorkerId)
    requires Inv(s)
    ensures Inv(DoQuarantine(s, w))
  {
    hide Inv, MarkInFlightUnknown, Go;
    if At(s, w) && PhaseOf(s, w).InFlight? {
      var p := PhaseOf(s, w);
      var s1 := s.(db := MarkInFlightUnknown(s.db, p.id, p.token, s.clock + s.cfg.recoveryGrace, s.clock));
      assert DoQuarantine(s, w) == Go(s1, w, JobOf(s, w), Releasing);
      QuarantinedRowsInv(s, p.id, p.token, s.clock + s.cfg.recoveryGrace);
      assert JobOf(s1, w) == JobOf(s, w);
      hide DoQuarantine;
      MoveOutInv(s1, w);
    }
  }

  // A worker rewrites its job's row without touching who owns it, then moves on.
  lemma RewriteAndMoveInv(s: Sys, w: WorkerId, row: Job, p: Phase)
    requires Inv(s) && w in s.agents && JobOf(s, w) in s.db.jobs && JobRowAllowed(s, JobOf(s, w), row)
    requires row.workerId == s.db.jobs[JobOf(s, w)].workerId || row.workerId.None?
    requires p == Polling || p == Polled || p == Pausing || p == Ended || p == Releasing
    ensures Inv(Go(s.(db := s.db.(jobs := s.db.jobs[JobOf(s, w) := row])), w, JobOf(s, w), p))
  {
    JobInv(s, JobOf(s, w), row);
    MoveInv(s.(db := s.db.(jobs := s.db.jobs[JobOf(s, w) := row])), w, JobOf(s, w), p);
  }

  // A worker moves on and writes nothing.
  lemma StepOnInv(s: Sys, w: WorkerId, p: Phase)
    requires Inv(s) && w in s.agents && !s.agents[w].phase.Managing? && !BeforeAccount(p)
    requires AgentOk(s, w, Agent(JobOf(s, w), p))
    ensures Inv(Go(s, w, JobOf(s, w), p))
  {
  }

  lemma StartInv(s: Sys, w: WorkerId)
    requires Inv(s)
    ensures Inv(DoStart(s, w))
  {
    if At(s, w) && PhaseOf(s, w).Claimed? {
      var j := JobOf(s, w);
      assert AgentOk(s, w, s.agents[w]);
      if OwnsJob(s.db, j, w, s.clock) {
        RewriteAndMoveInv(s, w, MarkStarted(s.db, j, s.clock).jobs[j], Polling);
      } else {
        StepOnInv(s, w, Releasing);
      }
    }
  }

  lemma ReadCommandInv(s: Sys, w: WorkerId)
    requires Inv(s)
    ensures Inv(DoReadCommand(s, w))
  {
  }

  lemma ClearCommandInv(s: Sys, w: WorkerId)
    requires Inv(s)
    ensures Inv(DoClearCommand(s, w))
  {
    if At(s, w) && PhaseOf(s, w).Clearing? {
      assert AgentOk(s, w, s.agents[w]);
      RewriteAndMoveInv(s, w, s.db.jobs[JobOf(s, w)].(command := NoCommand), PhaseOf(DoClearCommand(s, w), w));
    }
  }

  lemma BlockedByRateInv(s: Sys, w: WorkerId)
    requires Inv(s)
    ensures Inv(DoBlockedByRate(s, w))
  {
    if At(s, w) && PhaseOf(s, w).Polled? {
      assert AgentOk(s, w, s.agents[w]);
      StepOnInv(s, w, Polling);
    }
  }

  lemma ReadDueItemInv(s: Sys, w: WorkerId)
    requires Inv(s)
    ensures Inv(DoReadDueItem(s, w))
  {
    if At(s, w) && PhaseOf(s, w).Polled? {
      assert AgentOk(s, w, s.agents[w]);
      StepOnInv(s, w, PhaseOf(DoReadDueItem(s, w), w));
    }
  }

  lemma AckPauseInv(s: Sys, w: WorkerId)
    requires Inv(s)
    ensures Inv(DoAckPause(s, w))
  {
    if At(s, w) && PhaseOf(s, w).Pausing? {
      assert AgentOk(s, w, s.agents[w]);
      if AckGuard(s.db, JobOf(s, w), w) {
        RewriteAndMoveInv(s, w, AcknowledgePause(s.db, JobOf(s, w), w, s.clock).jobs[JobOf(s, w)], Ended);
      } else {
        StepOnInv(s, w, Ended);
      }
    }
  }

  lemma OwnerCancelInv(s: Sys, w: WorkerId)
    requires Inv(s)
    ensures Inv(DoOwnerCancel(s, w))
  {
    if At(s, w) && PhaseOf(s, w).Ended? {
      assert AgentOk(s, w, s.agents[w]);
      if OwnsJob(s.db, JobOf(s, w), w, s.clock) {
        RewriteAndMoveInv(s, w, CancelledJob(s.db.jobs[JobOf(s, w)], s.clock), Releasing);
      } else {
        StepOnInv(s, w, Releasing);
      }
    }
  }

  lemma CheckFinishedInv(s: Sys, w: WorkerId)
    requires Inv(s)
    ensures Inv(DoCheckFinished(s, w))
  {
  }

  // COMPLETED is written some time after the check that found no unfinished item; terminal rows stay terminal.
  lemma FinishInv(s: Sys, w: WorkerId)
    requires Inv(s)
    ensures Inv(DoFinish(s, w))
  {
    if At(s, w) && PhaseOf(s, w).Finalising? {
      assert AgentOk(s, w, s.agents[w]);
      if OwnsJob(s.db, JobOf(s, w), w, s.clock) {
        RewriteAndMoveInv(s, w, MarkFinishedIfOwned(s.db, JobOf(s, w), w, s.clock).jobs[JobOf(s, w)], Releasing);
      } else {
        StepOnInv(s, w, Releasing);
      }
    }
  }

  lemma StopInv(s: Sys, w: WorkerId)
    requires Inv(s)
    ensures Inv(DoLeaveLoop(s, w)) && Inv(DoCrash(s, w))
  {
    if At(s, w) && !PhaseOf(s, w).Managing? {
      assert AgentOk(s, w, s.agents[w]);
      StepOnInv(s, w, Ended);
      StepOnInv(s, w, Releasing);
      StepOnInv(s, w, Stopped);
    }
  }

  lemma AbandonInv(s: Sys, w: WorkerId)
    requires Inv(s)
    ensures Inv(DoAbandon(s, w))
  {
    if At(s, w) && !PhaseOf(s, w).Managing? {
      assert AgentOk(s, w, s.agents[w]);
      StepOnInv(s, w, Releasing);
    }
  }

  lemma OwnerStatusInv(s: Sys, w: WorkerId, st: JobStatus)
    requires Inv(s)
    ensures Inv(DoOwnerStatus(s, w, st))
  {
  }

  lemma HeartbeatInv(s: Sys, w: WorkerId)
    requires Inv(s)
    ensures Inv(DoHeartbeatJob(s, w)) && Inv(DoHeartbeatAccount(s, w))
  {
  }

  predicate ClaimEvent(e: Event) {
    || e.SelectJob? || e.UpdateJob? || e.SelectAccount? || e.UpsertAccount? || e.RollBackClaim? || e.ClaimAtOnce?
    || e.RecoverAndClaim? || e.ManagerClaim?
  }

  predicate LoopEvent(e: Event) {
    || e.Start? || e.ReadCommand? || e.ClearCommand? || e.BlockedByRate? || e.ReadDueItem? || e.SendRequest?
    || e.Commit? || e.Quarantine? || e.LeaveLoop? || e.AckPause?
  }

  predicate ManagerEvent(e: Event) {
    || e.OwnerStatus? || e.OwnerCancel? || e.CheckFinished? || e.Finish? || e.Abandon? || e.DropAccount? || e.DropJob?
    || e.Crash? || e.HeartbeatJob? || e.HeartbeatAccount? || e.ManagerRelease?
  }

  lemma ClaimEventInv(s: Sys, e: Event)
    requires Inv(s) && ClaimEvent(e)
    ensures Inv(Apply(s, e))
  {
    hide Inv, DoSelectJob, DoUpdateJob, DoSelectAccount, DoUpsertAccount, DoRollBackClaim, DoClaimAtOnce,
         DoRecoverAtOnce, DoManagerClaim;
    match e
    case SelectJob(w, j) => SelectJobInv(s, w, j);
    case UpdateJob(w) => UpdateJobInv(s, w);
    case SelectAccount(w) => SelectAccountInv(s, w);
    case UpsertAccount(w) => UpsertAccountInv(s, w);
    case RollBackClaim(w) => RollBackInv(s, w);
    case ClaimAtOnce(w, j) => ClaimAtOnceInv(s, w, j);
    case RecoverAndClaim(w, j) => RecoverAtOnceInv(s, j); ClaimAtOnceInv(DoRecoverAtOnce(s, j), w, j);
    case ManagerClaim(w, k, op) => ManagerClaimInv(s, w, k, op);
  }

  lemma LoopEventInv(s: Sys, e: Event)
    requires Inv(s) && LoopEvent(e)
    ensures Inv(Apply(s, e))
  {
    hide Inv, DoStart, DoReadCommand, DoClearCommand, DoBlockedByRate, DoReadDueItem, DoSendRequest, DoCommit,
         DoQuarantine, DoLeaveLoop, DoAckPause;
    match e
    case Start(w) => StartInv(s, w);
    case ReadCommand(w) => ReadCommandInv(s, w);
    case ClearCommand(w) => ClearCommandInv(s, w);
    case BlockedByRate(w) => BlockedByRateInv(s, w);
    case ReadDueItem(w) => ReadDueItemInv(s, w);
    case SendRequest(w, token) => SendRequestInv(s, w, token);
    case Commit(w, r, delay) => CommitInv(s, w, r, delay);
    case Quarantine(w) => QuarantineInv(s, w);
    case LeaveLoop(w) => StopInv(s, w);
    case AckPause(w) => AckPauseInv(s, w);
  }

  lemma ManagerEventInv(s: Sys, e: Event)
    requires Inv(s) && ManagerEvent(e)
    ensures Inv(Apply(s, e))
  {
    hide Inv, DoOwnerStatus, DoOwnerCancel, DoCheckFinished, DoFinish, DoAbandon, DoDropAccount, DoDropJob,
         DoCrash, DoHeartbeatJob, DoHeartbeatAccount, DoManagerRelease;
    match e
    case OwnerStatus(w, st) => OwnerStatusInv(s, w, st);
    case OwnerCancel(w) => OwnerCancelInv(s, w);
    case CheckFinished(w) => CheckFinishedInv(s, w);
    case Finish(w) => FinishInv(s, w);
    case Abandon(w) => AbandonInv(s, w);
    case DropAccount(w) => DropInv(s, w);
    case DropJob(w) => DropInv(s, w);
    case Crash(w) => StopInv(s, w);
    case HeartbeatJob(w) => HeartbeatInv(s, w);
    case HeartbeatAccount(w) => HeartbeatInv(s, w);
    case ManagerRelease(w, k) => ManagerReleaseInv(s, w, k);
  }

  lemma OutsideEventInv(s: Sys, e: Event)
    requires Inv(s) && !ClaimEvent(e) && !LoopEvent(e) && !ManagerEvent(e)
    ensures Inv(Apply(s, e))
  {
    hide Inv, DoRecoverAtOnce, ReleaseAccount, ClearJob, RecoverInterrupted, SetCommand, Statements.SetStatus,
         MarkStarted, MarkCancelledIfUnowned;
    match e
    case Tick(d) => TickInv(s, d);
    case RecoverAtOnce(j) => RecoverAtOnceInv(s, j);
    case RecoverAccount(j, seen) => ReleaseAccountInv(s, KeyOf(s, j), seen, j);
    case RecoverLease(j) => ReleaseJobInv(s, j, 0);
    case RecoverItems(j) => RecoverInterruptedInv(s, j);
    case StoreCommand(j, c) => StoreCommandInv(s, j, c);
    case ForceStatus(j, st) => if st != JobCompleted { ForceStatusInv(s, j, st); }
    case ForceStart(j) => ForceStartInv(s, j);
    case ForceCancel(j) => ForceCancelInv(s, j);
  }

  // Every event keeps the invariant.
  lemma StepInv(s: Sys, e: Event)
    requires Inv(s)
    ensures Inv(Apply(s, e))
  {
    hide Inv, Apply;
    if ClaimEvent(e) { ClaimEventInv(s, e); }
    else if LoopEvent(e) { LoopEventInv(s, e); }
    else if ManagerEvent(e) { ManagerEventInv(s, e); }
    else { OutsideEventInv(s, e); }
  }
}
