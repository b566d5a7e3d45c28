// database_validation.py: the repository's own list of states that must not occur, and which of its findings
// the engine can never produce.

module Validation {
  import opened Options
  import opened Tables
  import opened Statements
  import opened Storage
  import opened Protocol
  import opened Invariant
  import opened ItemHistory
  import opened Exclusivity

  datatype JobCheck =
    | CompletedWithWorker | CompletedWithHeartbeat | PausedWithLease | CompletedWithLease | RunningUnowned

  datatype ItemCheck = SettledWithoutTime | UnsettledWithTime | ProcessingWithoutToken | UnknownWithoutRecovery

  datatype AccountCheck = SplitOwnership | ClosedWithAccount

  datatype Finding =
    | AboutJob(job: JobCheck, j: JobId)
    | PausedWithAccount(j: JobId)
    | AboutItem(item: ItemCheck, id: nat)
    | CompletedUnfinished(j: JobId)
    | ClosedWithOwnership(j: JobId)
    | AboutAccount(account: AccountCheck, k: AccountKey)
    | DuplicateWorker(w: WorkerId, jobs: nat)

  // The validator's sections, in the order it goes through them.
  function Section(f: Finding): nat {
    match f
    case AboutJob(_, _) => 0
    case PausedWithAccount(_) => 1
    case AboutItem(_, _) => 2
    case CompletedUnfinished(_) => 3
    case ClosedWithOwnership(_) => 4
    case AboutAccount(_, _) => 5
    case DuplicateWorker(_, _) => 6
  }

  predicate Closed(st: JobStatus) { st == JobCompleted || st == Failed || st == Cancelled }

  // ---- what each rule means --------------------------------------------------------------------------------

  predicate JobWrong(r: Job, now: Seconds, check: JobCheck) {
    match check
    case CompletedWithWorker => r.status == JobCompleted && r.workerId.Some?
    case CompletedWithHeartbeat => r.status == JobCompleted && r.heartbeatAt.Some?
    case PausedWithLease => r.status == Paused && InFuture(r.leaseUntil, now)
    case CompletedWithLease => r.status == JobCompleted && InFuture(r.leaseUntil, now)
    case RunningUnowned => r.status == Running && r.workerId.None?
  }

  predicate ItemWrong(r: Item, check: ItemCheck) {
    match check
    case SettledWithoutTime => Terminal(r.status) && r.completedAt.None?
    case UnsettledWithTime => !Terminal(r.status) && r.status != Completed && r.completedAt.Some?
    case ProcessingWithoutToken => r.status == Processing && r.token.None?
    case UnknownWithoutRecovery => r.status == InFlightUnknown && r.recoveryAfter.None?
  }

  predicate AccountWrong(db: Db, r: AccountLease, now: Seconds, check: AccountCheck) {
    r.jobId.Some? && r.jobId.value in db.jobs && InFuture(r.leaseUntil, now) &&
    match check
    case SplitOwnership =>
      r.workerId.Some? && db.jobs[r.jobId.value].workerId.Some? && r.workerId != db.jobs[r.jobId.value].workerId
    case ClosedWithAccount => Closed(db.jobs[r.jobId.value].status)
  }

  predicate NoneNamed(db: Db, accounts: seq<AccountKey>, j: JobId) {
    forall k :: k in accounts && k in db.accounts ==> db.accounts[k].jobId != Some(j)
  }

  // fetchone() reads the first account row that names the job, in the order the rows come.
  ghost predicate FirstNamedIsLive(db: Db, accounts: seq<AccountKey>, j: JobId, now: Seconds) {
    exists i :: 0 <= i < |accounts| && accounts[i] in db.accounts && db.accounts[accounts[i]].jobId == Some(j)
                && LiveAccount(db, accounts[i], now) && NoneNamed(db, accounts[..i], j)
  }

  function ActiveJobsOf(db: Db, w: WorkerId): set<JobId> {
    set j | j in db.jobs && Active(db.jobs[j].status) && db.jobs[j].workerId == Some(w)
  }

  ghost predicate Reported(db: Db, accounts: seq<AccountKey>, now: Seconds, f: Finding) {
    match f
    case AboutJob(check, j) => j in db.jobs && JobWrong(db.jobs[j], now, check)
    case PausedWithAccount(j) => j in db.jobs && db.jobs[j].status == Paused && FirstNamedIsLive(db, accounts, j, now)
    case AboutItem(check, i) => i < |db.items| && ItemWrong(db.items[i], check)
    case CompletedUnfinished(j) => j in db.jobs && db.jobs[j].status == JobCompleted && HasUnfinished(db.items, j)
    case ClosedWithOwnership(j) =>
      j in db.jobs && Closed(db.jobs[j].status) && (db.jobs[j].workerId.Some? || db.jobs[j].leaseUntil.Some?)
    case AboutAccount(check, k) => k in db.accounts && AccountWrong(db, db.accounts[k], now, check)
    case DuplicateWorker(w, n) => n == |ActiveJobsOf(db, w)| && n > 1
  }

  // ---- a database with nothing to report ------------------------------------------------------------------

  // What the rules come to for one job, status by status.
  ghost predicate JobConsistent(db: Db, accounts: seq<AccountKey>, j: JobId, now: Seconds)
    requires j in db.jobs
  {
    var r := db.jobs[j];
    match r.status
    case Created => true
    case Running => r.workerId.Some?
    case JobRateLimited => true
    case Paused => !InFuture(r.leaseUntil, now) && !FirstNamedIsLive(db, accounts, j, now)
    case JobCompleted => r.workerId.None? && r.heartbeatAt.None? && r.leaseUntil.None? && AllTerminal(db.items, j)
    case Failed => r.workerId.None? && r.leaseUntil.None?
    case Cancelled => r.workerId.None? && r.leaseUntil.None?
  }

  ghost predicate ItemConsistent(r: Item) {
    match r.status
    case Found => r.completedAt.Some?
    case NotDiscoverable => r.completedAt.Some?
    case PermanentError => r.completedAt.Some?
    case Processing => r.completedAt.None? && r.token.Some?
    case InFlightUnknown => r.completedAt.None? && r.recoveryAfter.Some?
    case Completed => true
    case _ => r.completedAt.None?
  }

  // A live account lease belongs to an open job, and to the worker on that job's row if one is named.
  ghost predicate AccountConsistent(db: Db, r: AccountLease, now: Seconds) {
    InFuture(r.leaseUntil, now) && r.jobId.Some? && r.jobId.value in db.jobs ==>
      var job := db.jobs[r.jobId.value];
      && job.status != JobCompleted && job.status != Failed && job.status != Cancelled
      && (r.workerId.Some? && job.workerId.Some? ==> r.workerId == job.workerId)
  }

  // Running or rate-limited under the same worker.
  ghost predicate SameWorker(db: Db, i: JobId, j: JobId) {
    && i in db.jobs && j in db.jobs && db.jobs[i].workerId.Some? && db.jobs[i].workerId == db.jobs[j].workerId
    && (db.jobs[i].status == Running || db.jobs[i].status == JobRateLimited)
    && (db.jobs[j].status == Running || db.jobs[j].status == JobRateLimited)
  }

  ghost predicate Consistent(db: Db, accounts: seq<AccountKey>, now: Seconds) {
    && (forall j :: j in db.jobs ==> JobConsistent(db, accounts, j, now))
    && (forall i :: 0 <= i < |db.items| ==> ItemConsistent(db.items[i]))
    && (forall k :: k in db.accounts ==> AccountConsistent(db, db.accounts[k], now))
    && (forall i, j :: SameWorker(db, i, j) ==> i == j)
  }

  lemma SeveralMembers(jobs: set<JobId>)
    ensures |jobs| > 1 <==> exists i, j :: i in jobs && j in jobs && i != j
  {
    if i, j :| i in jobs && j in jobs && i != j {
      assert {i, j} <= jobs;
      assert jobs == {i, j} + (jobs - {i, j});
    } else if jobs != {} {
      var i :| i in jobs;
      assert jobs == {i};
    }
  }

  lemma JobClean(db: Db, accounts: seq<AccountKey>, now: Seconds, j: JobId)
    requires j in db.jobs
    ensures JobConsistent(db, accounts, j, now) <==>
              && (forall check :: !JobWrong(db.jobs[j], now, check))
              && !Reported(db, accounts, now, PausedWithAccount(j))
              && !Reported(db, accounts, now, CompletedUnfinished(j))
              && !Reported(db, accounts, now, ClosedWithOwnership(j))
  {
    var r := db.jobs[j];
    assert (forall check :: !JobWrong(r, now, check)) <==>
      && !JobWrong(r, now, CompletedWithWorker) && !JobWrong(r, now, CompletedWithHeartbeat)
      && !JobWrong(r, now, PausedWithLease) && !JobWrong(r, now, CompletedWithLease)
      && !JobWrong(r, now, RunningUnowned);
    assert AllTerminal(db.items, j) <==> !HasUnfinished(db.items, j);
  }

  lemma ItemClean(r: Item)
    ensures ItemConsistent(r) <==> forall check :: !ItemWrong(r, check)
  {
    assert (forall check :: !ItemWrong(r, check)) <==>
      && !ItemWrong(r, SettledWithoutTime) && !ItemWrong(r, UnsettledWithTime)
      && !ItemWrong(r, ProcessingWithoutToken) && !ItemWrong(r, UnknownWithoutRecovery);
  }

  lemma AccountClean(db: Db, r: AccountLease, now: Seconds)
    ensures AccountConsistent(db, r, now) <==> forall check :: !AccountWrong(db, r, now, check)
  {
    assert (forall check :: !AccountWrong(db, r, now, check)) <==>
      !AccountWrong(db, r, now, SplitOwnership) && !AccountWrong(db, r, now, ClosedWithAccount);
  }

  lemma WorkersClean(db: Db, accounts: seq<AccountKey>, now: Seconds)
    ensures (forall i, j :: SameWorker(db, i, j) ==> i == j) <==>
              forall w, n :: !Reported(db, accounts, now, DuplicateWorker(w, n))
  {
    forall w ensures |ActiveJobsOf(db, w)| > 1 <==>
                 exists i, j :: i in ActiveJobsOf(db, w) && j in ActiveJobsOf(db, w) && i != j
    {
      SeveralMembers(ActiveJobsOf(db, w));
    }
    if i, j :| SameWorker(db, i, j) && i != j {
      var w := db.jobs[i].workerId.value;
      assert i in ActiveJobsOf(db, w) && j in ActiveJobsOf(db, w);
      assert Reported(db, accounts, now, DuplicateWorker(w, |ActiveJobsOf(db, w)|));
    } else {
      forall w, n ensures !Reported(db, accounts, now, DuplicateWorker(w, n)) {
        if i, j :| i in ActiveJobsOf(db, w) && j in ActiveJobsOf(db, w) && i != j { assert SameWorker(db, i, j); }
      }
    }
  }

  lemma ConsistentIsClean(db: Db, accounts: seq<AccountKey>, now: Seconds, f: Finding)
    requires Consistent(db, accounts, now)
    ensures !Reported(db, accounts, now, f)
  {
    hide JobConsistent, ItemConsistent, AccountConsistent, FirstNamedIsLive, JobWrong, ItemWrong, AccountWrong;
    match f
    case AboutJob(_, j) => if j in db.jobs { JobClean(db, accounts, now, j); }
    case PausedWithAccount(j) => if j in db.jobs { JobClean(db, accounts, now, j); }
    case AboutItem(_, i) => if i < |db.items| { ItemClean(db.items[i]); }
    case CompletedUnfinished(j) => if j in db.jobs { JobClean(db, accounts, now, j); }
    case ClosedWithOwnership(j) => if j in db.jobs { JobClean(db, accounts, now, j); }
    case AboutAccount(_, k) => if k in db.accounts { AccountClean(db, db.accounts[k], now); }
    case DuplicateWorker(_, _) => WorkersClean(db, accounts, now);
  }

  lemma CleanIsConsistent(db: Db, accounts: seq<AccountKey>, now: Seconds)
    requires forall f :: !Reported(db, accounts, now, f)
    ensures Consistent(db, accounts, now)
  {
    hide JobConsistent, ItemConsistent, AccountConsistent, FirstNamedIsLive, JobWrong, ItemWrong, AccountWrong;
    forall j | j in db.jobs ensures JobConsistent(db, accounts, j, now) {
      forall check ensures !JobWrong(db.jobs[j], now, check) {
        assert !Reported(db, accounts, now, AboutJob(check, j));
      }
      JobClean(db, accounts, now, j);
    }
    forall i | 0 <= i < |db.items| ensures ItemConsistent(db.items[i]) {
      forall check ensures !ItemWrong(db.items[i], check) {
        assert !Reported(db, accounts, now, AboutItem(check, i));
      }
      ItemClean(db.items[i]);
    }
    forall k | k in db.accounts ensures AccountConsistent(db, db.accounts[k], now) {
      forall check ensures !AccountWrong(db, db.accounts[k], now, check) {
        assert !Reported(db, accounts, now, AboutAccount(check, k));
      }
      AccountClean(db, db.accounts[k], now);
    }
    WorkersClean(db, accounts, now);
  }

  // The validator is silent exactly on the databases that are consistent, read positively.
  lemma CleanExactly(db: Db, accounts: seq<AccountKey>, now: Seconds)
    ensures (forall f :: !Reported(db, accounts, now, f)) <==> Consistent(db, accounts, now)
  {
    if forall f :: !Reported(db, accounts, now, f) { CleanIsConsistent(db, accounts, now); }
    if Consistent(db, accounts, now) {
      forall f ensures !Reported(db, accounts, now, f) { ConsistentIsClean(db, accounts, now, f); }
    }
  }

  // ---- the validator ---------------------------------------------------------------------------------------

  // Every finding once, section after section.
  ghost predicate Ordered(findings: seq<Finding>) {
    forall a, b :: 0 <= a < b < |findings| ==>
        findings[a] != findings[b] && Section(findings[a]) <= Section(findings[b])
  }

  // Exactly what the rules of sections lo to hi describe.
  ghost predicate Covers(findings: seq<Finding>, lo: nat, hi: nat, db: Db, accounts: seq<AccountKey>, now: Seconds) {
    forall f :: f in findings <==> lo <= Section(f) <= hi && Reported(db, accounts, now, f)
  }

  ghost predicate Distinct<T>(rows: seq<T>) {
    forall a, b :: 0 <= a < b < |rows| ==> rows[a] != rows[b]
  }

  lemma Joined(a: seq<Finding>, b: seq<Finding>)
    requires Ordered(a) && Ordered(b) && forall f, g :: f in a && g in b ==> f != g && Section(f) <= Section(g)
    ensures Ordered(a + b)
  {
  }

  method CheckJob(r: Job, j: JobId, now: Seconds) returns (findings: seq<Finding>)
    ensures forall f :: f in findings <==> f.AboutJob? && f.j == j && JobWrong(r, now, f.job)
    ensures Ordered(findings)
  {
    findings := [];
    if r.status == JobCompleted && r.workerId.Some? { findings := findings + [AboutJob(CompletedWithWorker, j)]; }
    if r.status == JobCompleted && r.heartbeatAt.Some? { findings := findings + [AboutJob(CompletedWithHeartbeat, j)]; }
    if r.leaseUntil.Some? && r.leaseUntil.value > now {
      if r.status == Paused { findings := findings + [AboutJob(PausedWithLease, j)]; }
      if r.status == JobCompleted { findings := findings + [AboutJob(CompletedWithLease, j)]; }
    }
    if r.status == Running && r.workerId.None? { findings := findings + [AboutJob(RunningUnowned, j)]; }
  }

  // rows and accounts are SELECT * of the two tables, in any order.
  method CheckJobs(db: Store, rows: seq<JobId>, ghost accounts: seq<AccountKey>, now: Seconds)
    returns (findings: seq<Finding>)
    requires Distinct(rows) && forall j :: j in rows <==> j in db.jobs
    ensures Covers(findings, 0, 0, db.View(), accounts, now)
    ensures Ordered(findings)
  {
    findings := [];
    for i := 0 to |rows|
      invariant Ordered(findings)
      invariant forall f :: f in findings <==> f.AboutJob? && f.j in rows[..i] && JobWrong(db.jobs[f.j], now, f.job)
    {
      assert rows[..i + 1] == rows[..i] + [rows[i]];
      var more := CheckJob(db.jobs[rows[i]], rows[i], now);
      Joined(findings, more);
      findings := findings + more;
    }
    assert rows[..|rows|] == rows;
  }

  method FirstAccountLive(db: Store, accounts: seq<AccountKey>, j: JobId, now: Seconds) returns (live: bool)
    ensures live <==> FirstNamedIsLive(db.View(), accounts, j, now)
  {
    for i := 0 to |accounts|
      invariant NoneNamed(db.View(), accounts[..i], j)
    {
      var k := accounts[i];
      if k in db.accounts && db.accounts[k].jobId == Some(j) {
        var row := db.accounts[k];
        live := row.workerId.Some? && row.leaseUntil.Some? && row.leaseUntil.value > now;
        assert forall n :: 0 <= n < i ==> accounts[n] in accounts[..i];
        assert forall n :: i < n < |accounts| ==> accounts[..n][i] == k && k in accounts[..n];
        return;
      }
      assert accounts[..i + 1] == accounts[..i] + [k];
    }
    assert accounts[..|accounts|] == accounts;
    live := false;
  }

  method CheckPausedJobs(db: Store, rows: seq<JobId>, accounts: seq<AccountKey>, now: Seconds)
    returns (findings: seq<Finding>)
    requires Distinct(rows) && forall j :: j in rows <==> j in db.jobs
    ensures Covers(findings, 1, 1, db.View(), accounts, now)
    ensures Ordered(findings)
  {
    findings := [];
    for i := 0 to |rows|
      invariant Ordered(findings)
      invariant forall f :: f in findings <==>
                  f.PausedWithAccount? && f.j in rows[..i] && Reported(db.View(), accounts, now, f)
    {
      assert rows[..i + 1] == rows[..i] + [rows[i]];
      if db.jobs[rows[i]].status == Paused {
        var live := FirstAccountLive(db, accounts, rows[i], now);
        if live {
          Joined(findings, [PausedWithAccount(rows[i])]);
          findings := findings + [PausedWithAccount(rows[i])];
        }
      }
    }
    assert rows[..|rows|] == rows;
  }

  method CheckItem(r: Item, i: nat) returns (findings: seq<Finding>)
    ensures forall f :: f in findings <==> f.AboutItem? && f.id == i && ItemWrong(r, f.item)
    ensures Ordered(findings)
  {
    findings := [];
    if Terminal(r.status) && r.completedAt.None? { findings := findings + [AboutItem(SettledWithoutTime, i)]; }
    if !Terminal(r.status) && r.status != Completed && r.completedAt.Some? {
      findings := findings + [AboutItem(UnsettledWithTime, i)];
    }
    if r.status == Processing && r.token.None? { findings := findings + [AboutItem(ProcessingWithoutToken, i)]; }
    if r.status == InFlightUnknown && r.recoveryAfter.None? {
      findings := findings + [AboutItem(UnknownWithoutRecovery, i)];
    }
  }

  method CheckItems(db: Store, ghost accounts: seq<AccountKey>, now: Seconds) returns (findings: seq<Finding>)
    ensures Covers(findings, 2, 2, db.View(), accounts, now)
    ensures Ordered(findings)
  {
    findings := [];
    for i := 0 to |db.items|
      invariant Ordered(findings)
      invariant forall f :: f in findings <==> f.AboutItem? && f.id < i && ItemWrong(db.items[f.id], f.item)
    {
      var more := CheckItem(db.items[i], i);
      Joined(findings, more);
      findings := findings + more;
    }
  }

  method CheckUnfinished(db: Store, rows: seq<JobId>, ghost accounts: seq<AccountKey>, now: Seconds)
    returns (findings: seq<Finding>)
    requires Distinct(rows) && forall j :: j in rows <==> j in db.jobs
    ensures Covers(findings, 3, 3, db.View(), accounts, now)
    ensures Ordered(findings)
  {
    findings := [];
    for i := 0 to |rows|
      invariant Ordered(findings)
      invariant forall f :: f in findings <==>
                  f.CompletedUnfinished? && f.j in rows[..i] && Reported(db.View(), accounts, now, f)
    {
      assert rows[..i + 1] == rows[..i] + [rows[i]];
      if db.jobs[rows[i]].status == JobCompleted && HasUnfinished(db.items, rows[i]) {
        findings := findings + [CompletedUnfinished(rows[i])];
      }
    }
    assert rows[..|rows|] == rows;
  }

  method CheckClosed(db: Store, rows: seq<JobId>, ghost accounts: seq<AccountKey>, now: Seconds)
    returns (findings: seq<Finding>)
    requires Distinct(rows) && forall j :: j in rows <==> j in db.jobs
    ensures Covers(findings, 4, 4, db.View(), accounts, now)
    ensures Ordered(findings)
  {
    findings := [];
    for i := 0 to |rows|
      invariant Ordered(findings)
      invariant forall f :: f in findings <==>
                  f.ClosedWithOwnership? && f.j in rows[..i] && Reported(db.View(), accounts, now, f)
    {
      assert rows[..i + 1] == rows[..i] + [rows[i]];
      var r := db.jobs[rows[i]];
      if r.status == JobCompleted || r.status == Failed || r.status == Cancelled {
        if r.workerId.Some? || r.leaseUntil.Some? { findings := findings + [ClosedWithOwnership(rows[i])]; }
      }
    }
    assert rows[..|rows|] == rows;
  }

  method CheckAccount(db: Store, row: AccountLease, k: AccountKey, now: Seconds) returns (findings: seq<Finding>)
    ensures forall f :: f in findings <==> f.AboutAccount? && f.k == k && AccountWrong(db.View(), row, now, f.account)
    ensures Ordered(findings)
  {
    findings := [];
    if row.jobId.Some? && row.jobId.value in db.jobs && row.leaseUntil.Some? && row.leaseUntil.value > now {
      var job := db.jobs[row.jobId.value];
      if row.workerId.Some? && job.workerId.Some? && row.workerId.value != job.workerId.value {
        findings := findings + [AboutAccount(SplitOwnership, k)];
      }
      if job.status == JobCompleted || job.status == Failed || job.status == Cancelled {
        findings := findings + [AboutAccount(ClosedWithAccount, k)];
      }
    }
  }

  method CheckAccounts(db: Store, accounts: seq<AccountKey>, now: Seconds) returns (findings: seq<Finding>)
    requires Distinct(accounts) && forall k :: k in accounts <==> k in db.accounts
    ensures Covers(findings, 5, 5, db.View(), accounts, now)
    ensures Ordered(findings)
  {
    findings := [];
    for i := 0 to |accounts|
      invariant Ordered(findings)
      invariant forall f :: f in findings <==>
                  f.AboutAccount? && f.k in accounts[..i] && AccountWrong(db.View(), db.accounts[f.k], now, f.account)
    {
      assert accounts[..i + 1] == accounts[..i] + [accounts[i]];
      var more := CheckAccount(db, db.accounts[accounts[i]], accounts[i], now);
      Joined(findings, more);
      findings := findings + more;
    }
    assert accounts[..|accounts|] == accounts;
  }

  method CountActive(db: Store, rows: seq<JobId>, w: WorkerId) returns (n: nat)
    requires Distinct(rows) && forall j :: j in rows <==> j in db.jobs
    ensures n == |ActiveJobsOf(db.View(), w)|
  {
    n := 0;
    ghost var found: set<JobId> := {};
    for i := 0 to |rows|
      invariant n == |found| && forall j :: j in found <==> j in rows[..i] && j in ActiveJobsOf(db.View(), w)
    {
      assert rows[..i + 1] == rows[..i] + [rows[i]];
      if Active(db.jobs[rows[i]].status) && db.jobs[rows[i]].workerId == Some(w) {
        n := n + 1;
        found := found + {rows[i]};
      }
    }
    assert rows[..|rows|] == rows;
    assert found == ActiveJobsOf(db.View(), w);
  }

  // The workers named by the active jobs among the first n rows.
  ghost predicate WorkersSeen(db: Db, rows: seq<JobId>, n: nat, seen: set<WorkerId>)
    requires n <= |rows| && forall j :: j in rows ==> j in db.jobs
  {
    forall w :: w in seen <==>
      exists p :: 0 <= p < n && Active(db.jobs[rows[p]].status) && db.jobs[rows[p]].workerId == Some(w)
  }

  ghost predicate DuplicatesOf(db: Db, seen: set<WorkerId>, findings: seq<Finding>) {
    forall f :: f in findings <==>
      f.DuplicateWorker? && f.w in seen && f.jobs == |ActiveJobsOf(db, f.w)| && f.jobs > 1
  }

  lemma DuplicatesCovered(db: Db, rows: seq<JobId>, seen: set<WorkerId>, findings: seq<Finding>,
                          accounts: seq<AccountKey>, now: Seconds)
    requires (forall j :: j in rows <==> j in db.jobs) && WorkersSeen(db, rows, |rows|, seen)
    requires DuplicatesOf(db, seen, findings)
    ensures Covers(findings, 6, 6, db, accounts, now)
  {
    forall f: Finding | f.DuplicateWorker? && Reported(db, accounts, now, f) ensures f.w in seen {
      assert ActiveJobsOf(db, f.w) != {};
      var j :| j in ActiveJobsOf(db, f.w);
      assert j in rows;
    }
  }

  // GROUP BY worker_id HAVING COUNT(*) > 1
  method CheckDuplicates(db: Store, rows: seq<JobId>, ghost accounts: seq<AccountKey>, now: Seconds)
    returns (findings: seq<Finding>)
    requires Distinct(rows) && forall j :: j in rows <==> j in db.jobs
    ensures Covers(findings, 6, 6, db.View(), accounts, now)
    ensures Ordered(findings)
  {
    findings := [];
    var seen: set<WorkerId> := {};
    hide ActiveJobsOf;
    for i := 0 to |rows|
      invariant Ordered(findings)
      invariant WorkersSeen(db.View(), rows, i, seen) && DuplicatesOf(db.View(), seen, findings)
    {
      var r := db.jobs[rows[i]];
      if Active(r.status) && r.workerId.Some? && r.workerId.value !in seen {
        var n := CountActive(db, rows, r.workerId.value);
        if n > 1 { findings := findings + [DuplicateWorker(r.workerId.value, n)]; }
        seen := seen + {r.workerId.value};
      }
    }
    DuplicatesCovered(db.View(), rows, seen, findings, accounts, now);
  }

  method Append(a: seq<Finding>, b: seq<Finding>, ghost n: nat, ghost db: Db, ghost accounts: seq<AccountKey>,
                ghost now: Seconds) returns (r: seq<Finding>)
    requires Ordered(a) && Ordered(b)
    requires Covers(a, 0, n, db, accounts, now) && Covers(b, n + 1, n + 1, db, accounts, now)
    ensures Ordered(r) && Covers(r, 0, n + 1, db, accounts, now)
  {
    hide Reported;
    Joined(a, b);
    r := a + b;
  }

  lemma AllSections(findings: seq<Finding>, db: Db, accounts: seq<AccountKey>, now: Seconds)
    requires Covers(findings, 0, 6, db, accounts, now)
    ensures forall f :: f in findings <==> Reported(db, accounts, now, f)
  {
    hide Reported;
  }

  // Exactly the findings the rules describe, each once, section after section.
  method ValidateDatabaseState(db: Store, jobs: seq<JobId>, accounts: seq<AccountKey>, now: Seconds)
    returns (findings: seq<Finding>)
    requires Distinct(jobs) && (forall j :: j in jobs <==> j in db.jobs)
    requires Distinct(accounts) && (forall k :: k in accounts <==> k in db.accounts)
    ensures forall f :: f in findings <==> Reported(db.View(), accounts, now, f)
    ensures Ordered(findings)
  {
    ghost var view := db.View();
    hide Reported, Ordered, Covers;
    findings := CheckJobs(db, jobs, accounts, now);
    var more := CheckPausedJobs(db, jobs, accounts, now);
    findings := Append(findings, more, 0, view, accounts, now);
    more := CheckItems(db, accounts, now);
    findings := Append(findings, more, 1, view, accounts, now);
    more := CheckUnfinished(db, jobs, accounts, now);
    findings := Append(findings, more, 2, view, accounts, now);
    more := CheckClosed(db, jobs, accounts, now);
    findings := Append(findings, more, 3, view, accounts, now);
    more := CheckAccounts(db, accounts, now);
    findings := Append(findings, more, 4, view, accounts, now);
    more := CheckDuplicates(db, jobs, accounts, now);
    findings := Append(findings, more, 5, view, accounts, now);
    AllSections(findings, view, accounts, now);
  }

  // ---- what the engine cannot produce ----------------------------------------------------------------------

  lemma AtMostOne(jobs: set<JobId>, j: JobId)
    requires jobs <= {j}
    ensures |jobs| <= 1
  {
    if jobs != {} { assert jobs == {j}; }
  }

  // Whatever interleaves, the item rules, the unfinished-items rule of a COMPLETED job and the duplicate-worker
  // rule have nothing to report.
  lemma EngineKeepsValidator(s: Sys, accounts: seq<AccountKey>, f: Finding)
    requires Reachable(s) && (f.AboutItem? || f.CompletedUnfinished? || f.DuplicateWorker?)
    ensures !Reported(s.db, accounts, s.clock, f)
  {
    ReachableInv(s);
    match f
    case AboutItem(_, i) => if i < |s.db.items| { assert RowOk(s.db.items[i]); }
    case CompletedUnfinished(j) => if j in s.db.jobs { assert JobRowOk(s, j); }
    case DuplicateWorker(w, _) =>
      assert forall j :: j in s.db.jobs ==> JobRowOk(s, j);
      AtMostOne(ActiveJobsOf(s.db, w), if w in s.agents then s.agents[w].jobId else 0);
  }

  // The split-ownership rule reports exactly the accounts split from their job.
  lemma SplitRuleIsExact(s: Sys, accounts: seq<AccountKey>, k: AccountKey)
    ensures Reported(s.db, accounts, s.clock, AboutAccount(SplitOwnership, k)) <==> !SameHolder(s, k)
  {
  }

  // It stays silent in every run whose events meet neither guard of Exclusivity.Splits.
  lemma SplitRuleSilent(s0: Sys, es: seq<Event>, accounts: seq<AccountKey>, k: AccountKey)
    requires Initial(s0) && NeverSplits(s0, es)
    ensures !Reported(Run(s0, es).db, accounts, Run(s0, es).clock, AboutAccount(SplitOwnership, k))
  {
    InitialInv(s0);
    UnsplitExactly(s0, es);
    assert SameHolder(Run(s0, es), k);
    SplitRuleIsExact(Run(s0, es), accounts, k);
  }
}
