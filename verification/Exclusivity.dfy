// Properties that need the claim (or recovery and claim together) to run without interruption, and what
// happens when it does not.

module Exclusivity {
  import opened Options
  import opened Tables
  import opened Statements
  import opened Protocol
  import opened Invariant
  import opened ItemHistory
  import opened LeaseSafety

  // ---- one claim ---------------------------------------------------------------------------------------

  predicate Unnamed(db: Db, w: WorkerId) {
    && (forall j :: j in db.jobs ==> db.jobs[j].workerId != Some(w))
    && (forall k :: k in db.accounts ==> db.accounts[k].workerId != Some(w))
  }

  // Worker.claim yields both leases or leaves neither with the worker; a busy account costs the job row
  // nothing but the expired holder it still named.
  lemma ClaimAllOrNothing(db: Db, j: JobId, k: AccountKey, w: WorkerId, now: Seconds, cfg: Config)
    requires Unnamed(db, w) && cfg.leaseSeconds >= 1
    ensures var (db', verdict) := Claim(db, j, k, w, now, cfg);
            if verdict.ClaimGranted? then
              && OwnsJob(db', j, w, now) && OwnsAccount(db', k, w, j, now)
              && !LiveJob(db, j, now) && !LiveAccount(db, k, now)
            else
              && Unnamed(db', w) && db'.accounts == db.accounts && db'.items == db.items
              && (verdict.ClaimJobBusy? ==> db' == db)
              && (verdict.ClaimAccountBusy? ==> j in db.jobs && !LiveJob(db, j, now)
                                                && db' == db.(jobs := db.jobs[j := UnleasedJob(db.jobs[j])]))
  {
  }

  // ---- the validator's split-ownership rule --------------------------------------------------------------

  predicate ClaimsAtomically(e: Event) {
    !(e.SelectJob? || e.UpdateJob? || e.SelectAccount? || e.UpsertAccount? || e.RollBackClaim?)
  }

  ghost predicate SameHolder(s: Sys, k: AccountKey) {
    LiveAccount(s.db, k, s.clock) && s.db.accounts[k].jobId.Some? && s.db.accounts[k].jobId.value in s.db.jobs ==>
      var row := s.db.jobs[s.db.accounts[k].jobId.value];
      row.workerId.Some? ==> row.workerId == s.db.accounts[k].workerId
  }

  ghost predicate Unsplit(s: Sys) {
    forall k :: SameHolder(s, k)
  }

  // A late account claim: its SELECT found the account free, and by now the job row names somebody else.
  predicate SplitsAccount(s: Sys, e: Event, k: AccountKey) {
    && e.UpsertAccount? && At(s, e.w) && PhaseOf(s, e.w).AccountSelected? && JobOf(s, e.w) in s.db.jobs
    && k == KeyOf(s, JobOf(s, e.w)) && AccountTakeable(s.db, k, PhaseOf(s, e.w).readAt)
    && PhaseOf(s, e.w).readAt + s.cfg.leaseSeconds > s.clock
    && s.db.jobs[JobOf(s, e.w)].workerId.Some? && s.db.jobs[JobOf(s, e.w)].workerId != Some(e.w)
  }

  // A job claim over an expired row while the account is still leased live for that job.
  predicate SplitsJob(s: Sys, e: Event, k: AccountKey) {
    && e.UpdateJob? && At(s, e.w) && PhaseOf(s, e.w).JobSelected?
    && JobTakeable(s.db, JobOf(s, e.w), PhaseOf(s, e.w).readAt)
    && LiveAccount(s.db, k, s.clock) && s.db.accounts[k].jobId == Some(JobOf(s, e.w))
  }

  // A claim granted in one piece leaves both rows with the same worker.
  lemma ClaimSameHolder(s: Sys, w: WorkerId, j: JobId, k: AccountKey)
    requires Inv(s) && (forall k' :: SameHolder(s, k'))
    ensures SameHolder(DoClaimAtOnce(s, w, j), k)
  {
    assert SameHolder(s, k);
    if k in s.db.accounts { assert AccountRowOk(s, k); }
  }

  lemma ClaimAloneSameHolder(s: Sys, w: WorkerId, j: JobId, k: AccountKey)
    requires Inv(s) && (forall k' :: SameHolder(s, k'))
    ensures SameHolder(Apply(s, ClaimAtOnce(w, j)), k)
  {
    hide Inv, DoClaimAtOnce;
    ClaimSameHolder(s, w, j, k);
  }

  // An account manager claims for an operation id, which is no job.
  lemma ManagerClaimSameHolder(s: Sys, w: WorkerId, k': AccountKey, op: JobId, k: AccountKey)
    requires SameHolder(s, k)
    ensures SameHolder(Apply(s, ManagerClaim(w, k', op)), k)
  {
  }

  lemma RecoverSameHolder(s: Sys, j: JobId, k: AccountKey)
    requires SameHolder(s, k)
    ensures SameHolder(DoRecoverAtOnce(s, j), k)
  {
  }

  lemma RecoverAndClaimSameHolder(s: Sys, w: WorkerId, j: JobId, k: AccountKey)
    requires Inv(s) && (forall k' :: SameHolder(s, k'))
    ensures SameHolder(Apply(s, RecoverAndClaim(w, j)), k)
  {
    var m := DoRecoverAtOnce(s, j);
    RecoverAtOnceInv(s, j);
    hide Inv, DoRecoverAtOnce, DoClaimAtOnce;
    forall k' ensures SameHolder(m, k') {
      assert SameHolder(s, k');
      RecoverSameHolder(s, j, k');
    }
    hide SameHolder;
    ClaimSameHolder(m, w, j, k);
  }

  predicate SameJob(db: Db, db': Db, j: JobId) {
    && (j in db'.jobs <==> j in db.jobs)
    && (j in db.jobs ==> db'.jobs[j].accountKey == db.jobs[j].accountKey)
  }

  lemma MacrosKeepJobs(s: Sys, w: WorkerId, j': JobId, j: JobId)
    ensures SameJob(s.db, DoRecoverAtOnce(s, j').db, j) && SameJob(s.db, DoClaimAtOnce(s, w, j').db, j)
  {
  }

  lemma StatementsKeepJobs(s: Sys, e: Event, j: JobId)
    requires !e.ClaimAtOnce? && !e.RecoverAtOnce? && !e.RecoverAndClaim?
    ensures SameJob(s.db, Apply(s, e).db, j)
  {
    hide Recover, Claim, RecoveredRow, ClaimedRow, SavedRow, QuarantinedRow, OutcomeFor;
  }

  lemma BothMacrosKeepJobs(s: Sys, w: WorkerId, j': JobId, j: JobId)
    ensures SameJob(s.db, DoClaimAtOnce(DoRecoverAtOnce(s, j'), w, j').db, j)
  {
  }

  lemma JobsKept(s: Sys, e: Event, j: JobId)
    ensures SameJob(s.db, Apply(s, e).db, j)
  {
    match e
    case ClaimAtOnce(w, j') => MacrosKeepJobs(s, w, j', j);
    case RecoverAtOnce(j') => MacrosKeepJobs(s, 0, j', j);
    case RecoverAndClaim(w, j') => BothMacrosKeepJobs(s, w, j', j);
    case _ =>
      hide Apply;
      StatementsKeepJobs(s, e, j);
  }

  lemma UpsertSplits(s: Sys, w: WorkerId, k: AccountKey)
    requires Inv(s) && Unsplit(s)
    ensures !SameHolder(DoUpsertAccount(s, w), k) <==> SplitsAccount(s, UpsertAccount(w), k)
  {
    assert SameHolder(s, k);
    if At(s, w) { assert AgentOk(s, w, s.agents[w]); }
    hide Inv;
  }

  lemma UpdateSplits(s: Sys, w: WorkerId, k: AccountKey)
    requires Inv(s) && Unsplit(s)
    ensures !SameHolder(DoUpdateJob(s, w), k) <==> SplitsJob(s, UpdateJob(w), k)
  {
    assert SameHolder(s, k);
    if k in s.db.accounts { assert AccountRowOk(s, k); }
    hide Inv;
  }

  lemma StatementKeepsHolder(s: Sys, e: Event, k: AccountKey)
    requires Inv(s) && SameHolder(s, k) && !e.UpsertAccount? && !e.UpdateJob?
    requires !e.ManagerClaim? && !e.ClaimAtOnce? && !e.RecoverAndClaim?
    ensures SameHolder(Apply(s, e), k)
  {
    hide Inv, Apply;
    AccountLeaseMoves(s, e, k);
    ClockOnlyTicks(s, e);
    var r' := AccountRow(Apply(s, e).db, k);
    if r'.jobId.Some? {
      JobsKept(s, e, r'.jobId.value);
      if r'.jobId.value in s.db.jobs { JobLeaseMoves(s, e, r'.jobId.value); }
    }
  }

  // No other event splits anything.
  lemma OthersKeepHolder(s: Sys, e: Event, k: AccountKey)
    requires Inv(s) && Unsplit(s) && !e.UpsertAccount? && !e.UpdateJob?
    ensures SameHolder(Apply(s, e), k)
  {
    assert SameHolder(s, k);
    hide Inv, Apply;
    if e.ManagerClaim? {
      ManagerClaimSameHolder(s, e.w, e.k, e.op, k);
    } else if e.ClaimAtOnce? {
      ClaimAloneSameHolder(s, e.w, e.j, k);
    } else if e.RecoverAndClaim? {
      RecoverAndClaimSameHolder(s, e.w, e.j, k);
    } else {
      StatementKeepsHolder(s, e, k);
    }
  }

  // Exactly two statements can give a job and its account to different workers, and each says when.
  lemma SplitExactlyBy(s: Sys, e: Event, k: AccountKey)
    requires Inv(s) && Unsplit(s)
    ensures !SameHolder(Apply(s, e), k) <==> SplitsAccount(s, e, k) || SplitsJob(s, e, k)
  {
    if e.UpsertAccount? {
      hide Inv, Unsplit, SameHolder, DoUpsertAccount;
      UpsertSplits(s, e.w, k);
    } else if e.UpdateJob? {
      hide Inv, Unsplit, SameHolder, DoUpdateJob;
      UpdateSplits(s, e.w, k);
    } else {
      hide Inv, Unsplit, SameHolder, Apply;
      OthersKeepHolder(s, e, k);
    }
  }

  // The event is about to split some account from its job.
  ghost predicate Splits(s: Sys, e: Event) {
    exists k :: SplitsAccount(s, e, k) || SplitsJob(s, e, k)
  }

  lemma UnsplitStep(s: Sys, e: Event)
    requires Inv(s) && Unsplit(s)
    ensures Unsplit(Apply(s, e)) <==> !Splits(s, e)
  {
    forall k ensures !SameHolder(Apply(s, e), k) <==> SplitsAccount(s, e, k) || SplitsJob(s, e, k) {
      SplitExactlyBy(s, e, k);
    }
    hide Inv, Apply, SameHolder, SplitsAccount, SplitsJob;
  }

  ghost predicate NeverSplits(s: Sys, es: seq<Event>)
    decreases |es|
  {
    es == [] || (!Splits(s, es[0]) && NeverSplits(Apply(s, es[0]), es[1..]))
  }

  ghost predicate AlwaysUnsplit(s: Sys, es: seq<Event>)
    decreases |es|
  {
    Unsplit(s) && (es == [] || AlwaysUnsplit(Apply(s, es[0]), es[1..]))
  }

  // Over whole runs: job and account name the same worker in every state of the run if and only if no event
  // of the run meets one of the two guards in the state it runs in.
  lemma {:induction false} UnsplitExactly(s: Sys, es: seq<Event>)
    requires Inv(s) && Unsplit(s)
    ensures AlwaysUnsplit(s, es) <==> NeverSplits(s, es)
    ensures NeverSplits(s, es) ==> Unsplit(Run(s, es))
    decreases |es|
  {
    hide Inv, Unsplit, Splits, Apply;
    if es != [] {
      UnsplitStep(s, es[0]);
      StepInv(s, es[0]);
      if !Splits(s, es[0]) { UnsplitExactly(Apply(s, es[0]), es[1..]); }
    }
  }

  lemma {:induction false} AtomicNeverSplits(s: Sys, es: seq<Event>)
    requires forall n :: 0 <= n < |es| ==> ClaimsAtomically(es[n])
    ensures NeverSplits(s, es)
    decreases |es|
  {
    hide Apply;
    if es != [] {
      assert ClaimsAtomically(es[0]);
      AtomicNeverSplits(Apply(s, es[0]), es[1..]);
    }
  }

  // With Worker.claim as one step, a live account lease for a job and a worker on that job's row always
  // name the same worker.
  lemma OwnershipNeverSplit(s0: Sys, es: seq<Event>, k: AccountKey)
    requires Initial(s0) && forall n :: 0 <= n < |es| ==> ClaimsAtomically(es[n])
    ensures SameHolder(Run(s0, es), k)
  {
    InitialInv(s0);
    AtomicNeverSplits(s0, es);
    UnsplitExactly(s0, es);
  }

  // ---- one item in flight per job ------------------------------------------------------------------------

  // run() recovers the job before every claim; here nothing comes between the two.
  predicate ClaimsRecovered(e: Event) { ClaimsAtomically(e) && !e.ClaimAtOnce? }

  predicate MayClaimItems(p: Phase) {
    p.JobWon? || p.AccountSelected? || p.Claimed? || p.Polling? || p.Clearing? || p.Polled? || p.Holding?
  }

  predicate InFlightOf(items: seq<Item>, i: int, j: JobId) {
    0 <= i < |items| && items[i].jobId == j && items[i].status == Processing
  }

  ghost predicate OneInFlight(s: Sys, j: JobId) {
    forall i, k :: InFlightOf(s.db.items, i, j) && InFlightOf(s.db.items, k, j) ==> i == k
  }

  ghost predicate NoneInFlight(items: seq<Item>, j: JobId) {
    forall i :: !InFlightOf(items, i, j)
  }

  // The job's worker, when it is between requests, has left nothing in flight.
  ghost predicate IdleOwner(s: Sys, j: JobId) {
    var idle := && j in s.db.jobs && s.db.jobs[j].workerId.Some? && s.db.jobs[j].workerId.value in s.agents
                && MayClaimItems(s.agents[s.db.jobs[j].workerId.value].phase);
    idle ==> NoneInFlight(s.db.items, j)
  }

  ghost predicate Single(s: Sys, j: JobId) { OneInFlight(s, j) && IdleOwner(s, j) }

  // The event wins the job for a worker while a row of the job is in flight.
  ghost predicate WinsOver(s: Sys, e: Event, j: JobId) {
    && !NoneInFlight(s.db.items, j)
    && (|| (e.UpdateJob? && At(s, e.w) && PhaseOf(s, e.w).JobSelected? && JobOf(s, e.w) == j
            && JobTakeable(s.db, j, PhaseOf(s, e.w).readAt))
        || (e.ClaimAtOnce? && e.j == j && e.w !in s.agents && j in s.db.jobs
            && Claim(s.db, j, KeyOf(s, j), e.w, s.clock, s.cfg).1.ClaimGranted?))
  }

  // Rows only leave PROCESSING, and the job's holder either could claim before or has nothing in flight.
  lemma SingleShrinks(s: Sys, s': Sys, j: JobId)
    requires Single(s, j)
    requires forall i :: InFlightOf(s'.db.items, i, j) ==> InFlightOf(s.db.items, i, j)
    requires j in s'.db.jobs && s'.db.jobs[j].workerId.Some? && s'.db.jobs[j].workerId.value in s'.agents
             && MayClaimItems(s'.agents[s'.db.jobs[j].workerId.value].phase) ==>
               || NoneInFlight(s'.db.items, j)
               || (j in s.db.jobs && s.db.jobs[j].workerId == s'.db.jobs[j].workerId
                   && s.db.jobs[j].workerId.value in s.agents
                   && MayClaimItems(s.agents[s.db.jobs[j].workerId.value].phase))
    ensures Single(s', j)
  {
  }

  lemma SingleSend(s: Sys, w: WorkerId, token: Token, j: JobId)
    requires Inv(s) && Single(s, j)
    ensures Single(DoSendRequest(s, w, token), j)
  {
    if At(s, w) && PhaseOf(s, w).Holding? {
      assert AgentOk(s, w, s.agents[w]);
      hide Inv;
      var s' := DoSendRequest(s, w, token);
      if j != JobOf(s, w) || !SendOk(s, w, token) {
        SingleShrinks(s, s', j);
      } else {
        assert NoneInFlight(s.db.items, j);
        assert forall i :: InFlightOf(s'.db.items, i, j) ==> i == PhaseOf(s, w).id || InFlightOf(s.db.items, i, j);
      }
    }
  }

  lemma SingleCommit(s: Sys, w: WorkerId, r: Response, delay: nat, j: JobId)
    requires Inv(s) && Single(s, j)
    ensures Single(DoCommit(s, w, r, delay), j)
  {
    if At(s, w) && PhaseOf(s, w).InFlight? {
      assert AgentOk(s, w, s.agents[w]);
      if j in s.db.jobs { assert JobRowOk(s, j); }
      hide Inv;
      var s' := DoCommit(s, w, r, delay);
      var id := PhaseOf(s, w).id;
      assert forall i :: InFlightOf(s'.db.items, i, j) ==> InFlightOf(s.db.items, i, j) && (CommitOk(s, w) ==> i != id);
      if CommitOk(s, w) && j == JobOf(s, w) {
        assert InFlightOf(s.db.items, id, j);
        assert NoneInFlight(s'.db.items, j);
      }
      SingleShrinks(s, s', j);
    }
  }

  lemma RecoverShrinks(s: Sys, j': JobId)
    ensures var m := DoRecoverAtOnce(s, j');
            && m.agents == s.agents && |m.db.items| == |s.db.items|
            && (forall i, j :: InFlightOf(m.db.items, i, j) ==> InFlightOf(s.db.items, i, j))
            && (forall j :: j in m.db.jobs && m.db.jobs[j].workerId.Some? ==>
                  j in s.db.jobs && s.db.jobs[j].workerId == m.db.jobs[j].workerId)
  {
  }

  lemma RefusedClaimShrinks(m: Sys, w: WorkerId, j': JobId, j: JobId)
    requires Inv(m) && Single(m, j)
    requires j != j' || w in m.agents
        || (w in DoClaimAtOnce(m, w, j').agents ==> DoClaimAtOnce(m, w, j').agents[w].phase.Stopped?)
    ensures Single(DoClaimAtOnce(m, w, j'), j)
  {
  }

  lemma GrantedClaimIsClean(s: Sys, w: WorkerId, j: JobId)
    requires Inv(s)
    requires var s' := Apply(s, RecoverAndClaim(w, j)); w !in s.agents && w in s'.agents && s'.agents[w].phase.Claimed?
    ensures NoneInFlight(Apply(s, RecoverAndClaim(w, j)).db.items, j)
  {
  }

  // Recovery either quarantines every row in flight, or some lease is live and the claim is refused.
  lemma SingleRecoverAndClaim(s: Sys, w: WorkerId, j': JobId, j: JobId)
    requires Inv(s) && Single(s, j)
    ensures Single(Apply(s, RecoverAndClaim(w, j')), j)
  {
    var m := DoRecoverAtOnce(s, j');
    var s' := DoClaimAtOnce(m, w, j');
    RecoverAtOnceInv(s, j');
    RecoverShrinks(s, j');
    SingleShrinks(s, m, j);
    if j != j' || w in m.agents || w !in s'.agents || s'.agents[w].phase.Stopped? {
      RefusedClaimShrinks(m, w, j', j);
    } else {
      GrantedClaimIsClean(s, w, j');
    }
  }

  lemma SingleUpdate(s: Sys, w: WorkerId, j: JobId)
    requires Inv(s) && Single(s, j) && !WinsOver(s, UpdateJob(w), j)
    ensures Single(DoUpdateJob(s, w), j)
  {
    if At(s, w) && PhaseOf(s, w).JobSelected? {
      assert AgentOk(s, w, s.agents[w]);
      if j in s.db.jobs { assert JobRowOk(s, j); }
      hide Inv;
      SingleShrinks(s, DoUpdateJob(s, w), j);
    }
  }

  lemma SingleClaim(s: Sys, w: WorkerId, j': JobId, j: JobId)
    requires Inv(s) && Single(s, j) && !WinsOver(s, ClaimAtOnce(w, j'), j)
    ensures Single(DoClaimAtOnce(s, w, j'), j)
  {
    var s' := DoClaimAtOnce(s, w, j');
    if j != j' || w in s.agents || w !in s'.agents || s'.agents[w].phase.Stopped? {
      RefusedClaimShrinks(s, w, j', j);
    } else {
      hide Inv;
      ClaimLeavesItems(s, w, j');
      assert NoneInFlight(s.db.items, j);
    }
  }

  // Everything else never hands the job to a worker.
  predicate HandsNothing(e: Event) {
    !e.SendRequest? && !e.Commit? && !e.UpdateJob? && !e.ClaimAtOnce? && !e.RecoverAndClaim?
  }

  lemma ItemsShrink(s: Sys, e: Event)
    requires HandsNothing(e)
    ensures |Apply(s, e).db.items| == |s.db.items|
    ensures forall i, j :: InFlightOf(Apply(s, e).db.items, i, j) ==> InFlightOf(s.db.items, i, j)
  {
  }

  lemma PhasesShrink(s: Sys, e: Event, j: JobId)
    requires HandsNothing(e)
    ensures forall w :: w in Apply(s, e).agents && MayClaimItems(Apply(s, e).agents[w].phase) ==>
               w in s.agents && MayClaimItems(s.agents[w].phase)
  {
    hide Recover;
  }

  lemma OtherSingleStep(s: Sys, e: Event, j: JobId)
    requires Inv(s) && Single(s, j) && HandsNothing(e)
    ensures Single(Apply(s, e), j)
  {
    JobsKept(s, e, j);
    if j in s.db.jobs { JobLeaseMoves(s, e, j); }
    ItemsShrink(s, e);
    PhasesShrink(s, e, j);
    hide Inv, Apply;
    SingleShrinks(s, Apply(s, e), j);
  }

  lemma SingleStep(s: Sys, e: Event, j: JobId)
    requires Inv(s) && Single(s, j) && !WinsOver(s, e, j)
    ensures Single(Apply(s, e), j)
  {
    hide Inv, Single, WinsOver, DoSendRequest, DoCommit, DoUpdateJob, DoClaimAtOnce;
    match e
    case SendRequest(w, token) => SingleSend(s, w, token, j);
    case Commit(w, r, delay) => SingleCommit(s, w, r, delay, j);
    case UpdateJob(w) => SingleUpdate(s, w, j);
    case ClaimAtOnce(w, j') => SingleClaim(s, w, j', j);
    case RecoverAndClaim(w, j') => SingleRecoverAndClaim(s, w, j', j);
    case _ =>
      hide Apply;
      OtherSingleStep(s, e, j);
  }

  ghost predicate WinsClean(s: Sys, es: seq<Event>, j: JobId)
    decreases |es|
  {
    es == [] || (!WinsOver(s, es[0], j) && WinsClean(Apply(s, es[0]), es[1..], j))
  }

  // Over every run, split claims and split recoveries included, in which each claim that wins the job finds no
  // row of it in flight: never two items of the job in flight, and an owner between requests has left none.
  lemma {:induction false} SingleRun(s: Sys, es: seq<Event>, j: JobId)
    requires Inv(s) && Single(s, j) && WinsClean(s, es, j)
    ensures Single(Run(s, es), j)
    decreases |es|
  {
    hide Inv, Single, WinsOver, Apply;
    if es != [] {
      SingleStep(s, es[0], j);
      StepInv(s, es[0]);
      SingleRun(Apply(s, es[0]), es[1..], j);
    }
  }

  lemma {:induction false} RecoveredWinsClean(s: Sys, es: seq<Event>, j: JobId)
    requires forall n :: 0 <= n < |es| ==> ClaimsRecovered(es[n])
    ensures WinsClean(s, es, j)
    decreases |es|
  {
    hide Apply;
    if es != [] {
      assert ClaimsRecovered(es[0]);
      RecoveredWinsClean(Apply(s, es[0]), es[1..], j);
    }
  }

  // With recovery and claim as one step, a job never has two items in flight, whatever crashes, expires or
  // is taken over.
  lemma AtMostOneInFlight(s0: Sys, es: seq<Event>, j: JobId)
    requires Initial(s0) && forall n :: 0 <= n < |es| ==> ClaimsRecovered(es[n])
    ensures OneInFlight(Run(s0, es), j)
  {
    InitialInv(s0);
    RecoveredWinsClean(s0, es, j);
    SingleRun(s0, es, j);
  }
}
