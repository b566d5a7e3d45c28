// Who may hold a job or an account, over every interleaving.

module LeaseSafety {
  import opened Options
  import opened Tables
  import opened Statements
  import opened Protocol
  import opened Invariant
  import opened ItemHistory

  // ---- how a lease may change in one event -------------------------------------------------------------

  predicate OwnJobRelease(e: Event, w: WorkerId) {
    e == RollBackClaim(w) || e == AckPause(w) || e == DropJob(w)
  }

  predicate JobClaim(e: Event) { e.UpdateJob? || e.ClaimAtOnce? || e.RecoverAndClaim? }

  // The job's holder and lease after an event, given the row before it.
  ghost predicate JobLeaseStep(r: Job, r': Job, s: Sys, e: Event, j: JobId) {
    || (r'.workerId == r.workerId && r'.leaseUntil == r.leaseUntil)
    || (r'.workerId == r.workerId && e.HeartbeatJob? && r.workerId == Some(e.w) && InFuture(r.leaseUntil, s.clock)
        && r'.leaseUntil == Some(s.clock + s.cfg.leaseSeconds))
    || (r'.workerId.None? && r'.leaseUntil.None? && r.workerId.Some? && OwnJobRelease(e, r.workerId.value))
    || (r'.workerId.None? && r'.leaseUntil.None?
        && (e == RecoverLease(j) || !(r.workerId.Some? && InFuture(r.leaseUntil, s.clock))))
    || (JobClaim(e) && r'.workerId == Some(e.w) && !(r.workerId.Some? && InFuture(r.leaseUntil, s.clock))
        && (e.w in s.agents ==> s.agents[e.w].phase.JobSelected? && s.agents[e.w].jobId == j))
  }

  predicate MayMoveJobLease(e: Event) {
    || JobClaim(e) || e.RollBackClaim? || e.HeartbeatJob? || e.AckPause? || e.DropJob?
    || e.RecoverAtOnce? || e.RecoverLease?
  }

  lemma OthersLeaveJobLeases(s: Sys, e: Event, j: JobId)
    requires !MayMoveJobLease(e) && j in s.db.jobs
    ensures j in Apply(s, e).db.jobs
    ensures Apply(s, e).db.jobs[j].workerId == s.db.jobs[j].workerId
    ensures Apply(s, e).db.jobs[j].leaseUntil == s.db.jobs[j].leaseUntil
  {
    hide Recover, Claim, RecoveredRow, ClaimedRow, SavedRow, QuarantinedRow, OutcomeFor, Selectable,
         DoClaimAtOnce, DoRecoverAtOnce;
  }

  lemma RecoveryJobLease(s: Sys, j: JobId, j': JobId)
    requires j in s.db.jobs
    ensures j in DoRecoverAtOnce(s, j').db.jobs && DoRecoverAtOnce(s, j').agents == s.agents
    ensures JobLeaseStep(s.db.jobs[j], DoRecoverAtOnce(s, j').db.jobs[j], s, RecoverAtOnce(j'), j)
    ensures LiveJob(s.db, j, s.clock) ==> DoRecoverAtOnce(s, j').db.jobs[j].workerId == s.db.jobs[j].workerId
  {
  }

  lemma ClaimJobLease(s: Sys, w: WorkerId, j: JobId, j': JobId)
    requires j in s.db.jobs
    ensures j in DoClaimAtOnce(s, w, j').db.jobs
    ensures JobLeaseStep(s.db.jobs[j], DoClaimAtOnce(s, w, j').db.jobs[j], s, ClaimAtOnce(w, j'), j)
  {
  }

  lemma RecoverAndClaimJobLease(s: Sys, w: WorkerId, j: JobId, j': JobId)
    requires j in s.db.jobs
    ensures j in Apply(s, RecoverAndClaim(w, j')).db.jobs
    ensures JobLeaseStep(s.db.jobs[j], Apply(s, RecoverAndClaim(w, j')).db.jobs[j], s, RecoverAndClaim(w, j'), j)
  {
    hide Recover, Claim;
    RecoveryJobLease(s, j, j');
    ClaimJobLease(DoRecoverAtOnce(s, j'), w, j, j');
  }

  lemma UpdateJobLease(s: Sys, w: WorkerId, j: JobId)
    requires Inv(s) && j in s.db.jobs
    ensures j in DoUpdateJob(s, w).db.jobs
    ensures JobLeaseStep(s.db.jobs[j], DoUpdateJob(s, w).db.jobs[j], s, UpdateJob(w), j)
  {
  }

  lemma SmallJobLeaseMoves(s: Sys, e: Event, j: JobId)
    requires j in s.db.jobs
    requires e.RollBackClaim? || e.HeartbeatJob? || e.AckPause? || e.DropJob? || e.RecoverLease?
    ensures j in Apply(s, e).db.jobs && JobLeaseStep(s.db.jobs[j], Apply(s, e).db.jobs[j], s, e, j)
  {
  }

  lemma JobLeaseMoves(s: Sys, e: Event, j: JobId)
    requires Inv(s) && j in s.db.jobs
    ensures j in Apply(s, e).db.jobs && JobLeaseStep(s.db.jobs[j], Apply(s, e).db.jobs[j], s, e, j)
  {
    hide Inv;
    if !MayMoveJobLease(e) {
      OthersLeaveJobLeases(s, e, j);
    } else {
      hide JobLeaseStep, DoUpdateJob, DoClaimAtOnce, DoRecoverAtOnce, Claim, Recover;
      match e
      case UpdateJob(w) => UpdateJobLease(s, w, j);
      case ClaimAtOnce(w, j') => ClaimJobLease(s, w, j, j');
      case RecoverAtOnce(j') => RecoveryJobLease(s, j, j');
      case RecoverAndClaim(w, j') => RecoverAndClaimJobLease(s, w, j, j');
      case _ => SmallJobLeaseMoves(s, e, j);
    }
  }

  function AccountRow(db: Db, k: AccountKey): AccountLease {
    if k in db.accounts then db.accounts[k] else AccountLease(None, None, None, None)
  }

  predicate OwnAccountRelease(e: Event, w: WorkerId, k: AccountKey) {
    e == DropAccount(w) || e == ManagerRelease(w, k)
  }

  predicate AccountClaim(e: Event) { e.UpsertAccount? || e.ClaimAtOnce? || e.RecoverAndClaim? || e.ManagerClaim? }

  ghost predicate AccountLeaseStep(r: AccountLease, r': AccountLease, s: Sys, e: Event, k: AccountKey) {
    var live := r.workerId.Some? && InFuture(r.leaseUntil, s.clock);
    || r' == r
    || (r'.workerId == r.workerId && r'.jobId == r.jobId && e.HeartbeatAccount? && r.workerId == Some(e.w) && live)
    || (r'.workerId.None? && r.workerId.Some? && OwnAccountRelease(e, r.workerId.value, k))
    || (r'.workerId.None? && (!live || (e.RecoverAccount? && r.workerId == Some(e.seen))))
    || (AccountClaim(e) && r'.workerId == Some(e.w) && !live
        && (e.w in s.agents ==> s.agents[e.w].phase.AccountSelected? && r'.jobId == Some(s.agents[e.w].jobId))
        && (e.ManagerClaim? ==> r'.jobId == Some(e.op))
        && (e.ClaimAtOnce? || e.RecoverAndClaim? ==> r'.jobId == Some(e.j)))
  }

  predicate MayMoveAccount(e: Event) {
    || AccountClaim(e) || e.HeartbeatAccount? || e.DropAccount? || e.ManagerRelease?
    || e.RecoverAtOnce? || e.RecoverAccount?
  }

  lemma OthersLeaveAccounts(s: Sys, e: Event)
    requires !MayMoveAccount(e)
    ensures Apply(s, e).db.accounts == s.db.accounts
  {
  }

  lemma RecoveryAccount(s: Sys, j: JobId, k: AccountKey)
    ensures DoRecoverAtOnce(s, j).agents == s.agents && DoRecoverAtOnce(s, j).clock == s.clock
    ensures AccountLeaseStep(AccountRow(s.db, k), AccountRow(DoRecoverAtOnce(s, j).db, k), s, RecoverAtOnce(j), k)
  {
  }

  lemma ClaimAccountLease(s: Sys, w: WorkerId, j: JobId, k: AccountKey)
    ensures AccountLeaseStep(AccountRow(s.db, k), AccountRow(DoClaimAtOnce(s, w, j).db, k), s, ClaimAtOnce(w, j), k)
  {
  }

  lemma RecoverAndClaimAccount(s: Sys, w: WorkerId, j: JobId, k: AccountKey)
    ensures AccountLeaseStep(AccountRow(s.db, k), AccountRow(Apply(s, RecoverAndClaim(w, j)).db, k), s,
                             RecoverAndClaim(w, j), k)
  {
    hide Recover, Claim;
    RecoveryAccount(s, j, k);
    ClaimAccountLease(DoRecoverAtOnce(s, j), w, j, k);
  }

  lemma UpsertAccountLease(s: Sys, w: WorkerId, k: AccountKey)
    requires Inv(s)
    ensures AccountLeaseStep(AccountRow(s.db, k), AccountRow(DoUpsertAccount(s, w).db, k), s, UpsertAccount(w), k)
  {
  }

  lemma SmallAccountMoves(s: Sys, e: Event, k: AccountKey)
    requires e.HeartbeatAccount? || e.DropAccount? || e.ManagerRelease? || e.RecoverAccount? || e.ManagerClaim?
    ensures AccountLeaseStep(AccountRow(s.db, k), AccountRow(Apply(s, e).db, k), s, e, k)
  {
  }

  lemma AccountLeaseMoves(s: Sys, e: Event, k: AccountKey)
    requires Inv(s)
    ensures AccountLeaseStep(AccountRow(s.db, k), AccountRow(Apply(s, e).db, k), s, e, k)
  {
    hide Inv;
    if !MayMoveAccount(e) {
      OthersLeaveAccounts(s, e);
    } else {
      hide AccountLeaseStep, Claim, Recover;
      match e
      case UpsertAccount(w) => UpsertAccountLease(s, w, k);
      case ClaimAtOnce(w, j) => ClaimAccountLease(s, w, j, k);
      case RecoverAtOnce(j) => RecoveryAccount(s, j, k);
      case RecoverAndClaim(w, j) => RecoverAndClaimAccount(s, w, j, k);
      case _ => SmallAccountMoves(s, e, k);
    }
  }

  // A worker keeps its job and never returns to the phases before its claims.
  lemma AgentMoves(s: Sys, e: Event, w: WorkerId)
    requires w in s.agents
    ensures w in Apply(s, e).agents && Apply(s, e).agents[w].jobId == s.agents[w].jobId
    ensures Apply(s, e).agents[w].phase.JobSelected? ==> s.agents[w].phase.JobSelected?
    ensures BeforeAccount(Apply(s, e).agents[w].phase) ==> BeforeAccount(s.agents[w].phase)
  {
    hide Recover, Claim;
  }

  // ---- what a holder's own steps achieve ----------------------------------------------------------------

  // A heartbeat of a live owner carries its lease on for the full time, and one that comes too late does nothing.
  lemma HeartbeatExtends(s: Sys, w: WorkerId)
    requires At(s, w) && JobOf(s, w) in s.db.jobs
    ensures var j, k := JobOf(s, w), KeyOf(s, JobOf(s, w));
            var db, db' := DoHeartbeatJob(s, w).db, DoHeartbeatAccount(s, w).db;
            && (if OwnsJob(s.db, j, w, s.clock)
                then forall t :: OwnsJob(db, j, w, t) <==> t < s.clock + s.cfg.leaseSeconds
                else db == s.db)
            && (if OwnsAccount(s.db, k, w, j, s.clock)
                then forall t :: OwnsAccount(db', k, w, j, t) <==> t < s.clock + s.cfg.leaseSeconds
                else db' == s.db)
  {
  }

  // The cleanup of a worker's run leaves its name on neither row.
  lemma CleanupReleases(s: Sys, w: WorkerId)
    requires At(s, w) && PhaseOf(s, w).Releasing?
    ensures var j, db := JobOf(s, w), DoDropJob(DoDropAccount(s, w), w).db;
            && !AccountNamed(db, KeyOf(s, j), w, j)
            && (j in db.jobs ==> db.jobs[j].workerId != Some(w))
            && (j in s.db.jobs && s.db.jobs[j].workerId == Some(w) ==> db.jobs[j].leaseUntil.None?)
  {
  }

  // The manager's guarded writes reach the row of a live owner, and no other row.
  lemma OwnerWrites(s: Sys, w: WorkerId, st: JobStatus)
    requires At(s, w) && JobOf(s, w) in s.db.jobs
    ensures var j, owned := JobOf(s, w), OwnsJob(s.db, JobOf(s, w), w, s.clock);
            && DoOwnerStatus(s, w, st).db.jobs ==
               (if owned && st != JobCompleted then s.db.jobs[j := s.db.jobs[j].(status := st)] else s.db.jobs)
            && (PhaseOf(s, w).Finalising? ==>
                  DoFinish(s, w).db.jobs ==
                  (if owned then s.db.jobs[j := s.db.jobs[j].(status := JobCompleted, finishedAt := Some(s.clock))]
                   else s.db.jobs))
            && (PhaseOf(s, w).Claimed? ==>
                  DoStart(s, w).db.jobs ==
                  (if owned
                   then s.db.jobs[j := s.db.jobs[j].(status := Running, command := NoCommand,
                                                     startedAt := Some(s.clock))]
                   else s.db.jobs))
  {
  }

  // An account manager's claim holds a free account for the lease time, five minutes at least, and its release
  // gives it back.
  lemma ManagerHolds(s: Sys, w: WorkerId, k: AccountKey, op: JobId)
    requires w !in s.agents && op !in s.db.jobs
    requires k !in s.db.accounts || s.db.accounts[k].workerId.None?
    ensures var s' := DoManagerClaim(s, w, k, op);
            && (forall t :: OwnsAccount(s'.db, k, w, op, t) <==> t < s.clock + 300 || t < s.clock + s.cfg.leaseSeconds)
            && DoManagerRelease(s', w, k).db.accounts == s.db.accounts[k := AccountLease(None, None, None, None)]
  {
  }

  // ---- a live lease is never displaced -----------------------------------------------------------------

  // A live job lease leaves its holder only by the holder's own release, or by recovery's unguarded
  // force-release landing after another worker's claim. In particular no claim displaces it, although
  // claim_worker's UPDATE trusts a clock that was read before its SELECT.
  lemma LiveJobLeaseStays(s: Sys, e: Event, j: JobId)
    requires Reachable(s) && LiveJob(s.db, j, s.clock)
    ensures j in Apply(s, e).db.jobs
    ensures var w := s.db.jobs[j].workerId.value;
            Apply(s, e).db.jobs[j].workerId != Some(w) ==> OwnJobRelease(e, w) || e == RecoverLease(j)
  {
    ReachableInv(s);
    JobLeaseMoves(s, e, j);
  }

  lemma LiveAccountLeaseStays(s: Sys, e: Event, k: AccountKey)
    requires Reachable(s) && LiveAccount(s.db, k, s.clock)
    ensures var w := s.db.accounts[k].workerId.value;
            AccountRow(Apply(s, e).db, k).workerId != Some(w) ==>
              OwnAccountRelease(e, w, k) || (e.RecoverAccount? && e.seen == w)
  {
    ReachableInv(s);
    AccountLeaseMoves(s, e, k);
  }

  lemma ClockOnlyTicks(s: Sys, e: Event)
    ensures Apply(s, e).clock == if e.Tick? then s.clock + e.d else s.clock
  {
  }

  // A step that ends ownership, and no force-release: the clock ran past the lease, or the owner let it go.
  lemma OwnershipEndsBy(s: Sys, e: Event, w: WorkerId, j: JobId)
    requires Inv(s) && OwnsJob(s.db, j, w, s.clock) && !OwnsJob(Apply(s, e).db, j, w, Apply(s, e).clock)
    requires s.cfg.leaseSeconds >= 1 && !e.RecoverLease?
    ensures OwnJobRelease(e, w) || (e.Tick? && s.db.jobs[j].leaseUntil.value <= s.clock + e.d)
  {
    hide Inv, Apply;
    JobLeaseMoves(s, e, j);
    ClockOnlyTicks(s, e);
  }

  // Over whole runs: without a force-release, a worker that owned its job and no longer does either let
  // its lease expire or released it itself.
  lemma {:induction false} OwnershipEnds(s: Sys, es: seq<Event>, w: WorkerId, j: JobId) returns (k: nat)
    requires Inv(s) && OwnsJob(s.db, j, w, s.clock) && !OwnsJob(Run(s, es).db, j, w, Run(s, es).clock)
    requires s.cfg.leaseSeconds >= 1 && forall n :: 0 <= n < |es| ==> !es[n].RecoverLease?
    ensures k < |es|
    ensures var a := StateAt(s, es, k);
            && OwnsJob(a.db, j, w, a.clock)
            && (OwnJobRelease(es[k], w) || (es[k].Tick? && a.db.jobs[j].leaseUntil.value <= a.clock + es[k].d))
    decreases |es|
  {
    var s' := Apply(s, es[0]);
    EventKeepsConfig(s, es[0]);
    StepInv(s, es[0]);
    hide Inv, Apply;
    if OwnsJob(s'.db, j, w, s'.clock) {
      var m := OwnershipEnds(s', es[1..], w, j);
      k := m + 1;
      assert es[..k] == [es[0]] + es[1..][..m];
      assert es[..k][0] == es[0] && es[..k][1..] == es[1..][..m];
    } else {
      OwnershipEndsBy(s, es[0], w, j);
      k := 0;
      assert es[..0] == [];
    }
  }

  // ---- ownership lost is lost for good -------------------------------------------------------------------

  // w has used up its one claim and does not own j.
  ghost predicate Lost(s: Sys, w: WorkerId, j: JobId) {
    && w in s.agents && j in s.db.jobs && !s.agents[w].phase.JobSelected? && !OwnsJob(s.db, j, w, s.clock)
  }

  lemma LostStep(s: Sys, e: Event, w: WorkerId, j: JobId)
    requires Inv(s) && Lost(s, w, j)
    ensures Lost(Apply(s, e), w, j)
  {
    JobLeaseMoves(s, e, j);
    AgentMoves(s, e, w);
    EventKeepsConfig(s, e);
  }

  lemma {:induction false} LostForever(s: Sys, es: seq<Event>, w: WorkerId, j: JobId)
    requires Inv(s) && Lost(s, w, j)
    ensures Lost(Run(s, es), w, j)
    decreases |es|
  {
    hide Inv;
    hide Lost;
    if es != [] {
      LostStep(s, es[0], w, j);
      StepInv(s, es[0]);
      LostForever(Apply(s, es[0]), es[1..], w, j);
    }
  }

  // The same for the account: w is past its one account claim and does not own k.
  ghost predicate AccountLost(s: Sys, w: WorkerId, k: AccountKey) {
    && w in s.agents && !BeforeAccount(s.agents[w].phase)
    && !OwnsAccount(s.db, k, w, s.agents[w].jobId, s.clock)
  }

  lemma AccountLostStep(s: Sys, e: Event, w: WorkerId, k: AccountKey)
    requires Inv(s) && AccountLost(s, w, k)
    ensures AccountLost(Apply(s, e), w, k)
  {
    AccountLeaseMoves(s, e, k);
    AgentMoves(s, e, w);
    EventKeepsConfig(s, e);
    hide Inv, Apply;
  }

  lemma {:induction false} AccountLostForever(s: Sys, es: seq<Event>, w: WorkerId, k: AccountKey)
    requires Inv(s) && AccountLost(s, w, k)
    ensures AccountLost(Run(s, es), w, k)
    decreases |es|
  {
    hide Inv, AccountLost;
    if es != [] {
      AccountLostStep(s, es[0], w, k);
      StepInv(s, es[0]);
      AccountLostForever(Apply(s, es[0]), es[1..], w, k);
    }
  }

  lemma OtherWorkersSpare(s: Sys, e: Event, w: WorkerId, j: JobId, i: nat)
    requires Inv(s) && OwnsJob(s.db, j, w, s.clock) && ItemOf(s.db.items, i, j)
    requires (e.SendRequest? || e.Commit? || e.Quarantine?) && e.w != w
    ensures i < |Apply(s, e).db.items|
    ensures Apply(s, e).db.items[i] == s.db.items[i] ||
            (e.Quarantine? && At(s, e.w) && PhaseOf(s, e.w).InFlight?
             && QuarantineGuard(s.db, i, PhaseOf(s, e.w).token))
  {
    if At(s, e.w) { assert AgentOk(s, e.w, s.agents[e.w]); }
    hide Inv, OutcomeFor, ClaimedRow, SavedRow, QuarantinedRow, Recover, Claim, DoClaimAtOnce, Selectable;
  }

  lemma RecoverySpares(s: Sys, e: Event, j: JobId, i: nat)
    requires LiveJob(s.db, j, s.clock) && ItemOf(s.db.items, i, j)
    requires (e.RecoverAtOnce? || e.RecoverItems? || e.RecoverAndClaim?) && e != RecoverItems(j)
    ensures i < |Apply(s, e).db.items| && Apply(s, e).db.items[i] == s.db.items[i]
  {
    hide Claim, DoClaimAtOnce;
    if e.RecoverAndClaim? { ClaimLeavesItems(DoRecoverAtOnce(s, e.j), e.w, e.j); }
  }

  // While w owns its job nobody else changes a row of that job, in any single event, except that the worker
  // whose token a row still carries may quarantine that row; recovery keeps out as long as its reads and its
  // writes are not torn apart.
  lemma OwnedRowsAreFenced(s: Sys, e: Event, w: WorkerId, j: JobId, i: nat)
    requires Inv(s) && OwnsJob(s.db, j, w, s.clock) && ItemOf(s.db.items, i, j)
    requires (e.SendRequest? || e.Commit? || e.Quarantine? ==> e.w != w) && e != RecoverItems(j)
    ensures i < |Apply(s, e).db.items|
    ensures Apply(s, e).db.items[i] == s.db.items[i] ||
            (e.Quarantine? && At(s, e.w) && PhaseOf(s, e.w).InFlight?
             && QuarantineGuard(s.db, i, PhaseOf(s, e.w).token))
  {
    if e.RecoverAtOnce? || e.RecoverItems? || e.RecoverAndClaim? {
      RecoverySpares(s, e, j, i);
    } else if TouchesItems(e) {
      OtherWorkersSpare(s, e, w, j, i);
    } else {
      hide *;
      OthersLeaveItems(s, e);
    }
  }

  // The statements that carry the ownership guard.
  predicate GuardedWrite(e: Event, w: WorkerId) {
    || e == HeartbeatJob(w) || e == Start(w) || (e.SendRequest? && e.w == w) || (e.Commit? && e.w == w)
    || (e.OwnerStatus? && e.w == w) || e == OwnerCancel(w) || e == Finish(w)
  }

  lemma LostLoopWritesNothing(s: Sys, w: WorkerId, token: Token, r: Response, delay: nat)
    requires w in s.agents && Lost(s, w, s.agents[w].jobId)
    ensures DoStart(s, w).db == DoSendRequest(s, w, token).db == DoCommit(s, w, r, delay).db == s.db
  {
    hide OutcomeFor, ClaimedRow, SavedRow, Selectable, MarkStarted;
  }

  lemma LostManagerWritesNothing(s: Sys, w: WorkerId, st: JobStatus)
    requires w in s.agents && Lost(s, w, s.agents[w].jobId)
    ensures DoHeartbeatJob(s, w).db == DoOwnerStatus(s, w, st).db == DoOwnerCancel(s, w).db == DoFinish(s, w).db == s.db
  {
    hide LeaseJob, CancelledJob, Statements.SetStatus;
  }

  lemma LostWritesNothing(s: Sys, w: WorkerId, e: Event)
    requires w in s.agents && Lost(s, w, s.agents[w].jobId) && GuardedWrite(e, w)
    ensures Apply(s, e).db == s.db
  {
    hide Lost, DoStart, DoSendRequest, DoCommit, DoHeartbeatJob, DoOwnerStatus, DoOwnerCancel, DoFinish;
    if e.SendRequest? {
      LostLoopWritesNothing(s, w, e.token, Response(Found, None), 0);
    } else if e.Commit? {
      LostLoopWritesNothing(s, w, 0, e.response, e.delay);
    } else if e.Start? {
      LostLoopWritesNothing(s, w, 0, Response(Found, None), 0);
    } else {
      LostManagerWritesNothing(s, w, if e.OwnerStatus? then e.status else Paused);
      assert e.HeartbeatJob? || e.OwnerStatus? || e.OwnerCancel? || e.Finish?;
    }
  }

  lemma {:induction false} JobKept(s: Sys, es: seq<Event>, w: WorkerId)
    requires w in s.agents
    ensures w in Run(s, es).agents && Run(s, es).agents[w].jobId == s.agents[w].jobId
    decreases |es|
  {
    if es != [] {
      AgentMoves(s, es[0], w);
      JobKept(Apply(s, es[0]), es[1..], w);
    }
  }

  // Once is_job_owned_by has turned false for a worker, it stays false, and no guarded statement of that
  // worker changes the tables again, in any continuation of the run.
  lemma StaleWorkerIsMute(s: Sys, es: seq<Event>, w: WorkerId, e: Event)
    requires Reachable(s) && w in s.agents && Lost(s, w, s.agents[w].jobId) && GuardedWrite(e, w)
    ensures var s' := Run(s, es);
            && Lost(s', w, s.agents[w].jobId)
            && Apply(s', e).db == s'.db
  {
    hide Apply, Inv, Lost, GuardedWrite;
    ReachableInv(s);
    LostForever(s, es, w, s.agents[w].jobId);
    JobKept(s, es, w);
    LostWritesNothing(Run(s, es), w, e);
  }

  // ---- cleanup never hurts a successor -------------------------------------------------------------------

  // The pause acknowledgement and the releases of w change no lease that names somebody else.
  lemma CleanupSparesOthers(s: Sys, w: WorkerId, e: Event, j: JobId, k: AccountKey)
    requires e == AckPause(w) || e == DropJob(w) || e == DropAccount(w) || e == RollBackClaim(w)
        || e == ManagerRelease(w, k)
    ensures j in s.db.jobs && s.db.jobs[j].workerId.Some? && s.db.jobs[j].workerId != Some(w) ==>
              j in Apply(s, e).db.jobs && Apply(s, e).db.jobs[j] == s.db.jobs[j]
    ensures k in s.db.accounts && s.db.accounts[k].workerId.Some? && s.db.accounts[k].workerId != Some(w) ==>
              k in Apply(s, e).db.accounts && Apply(s, e).db.accounts[k] == s.db.accounts[k]
  {
  }
}
