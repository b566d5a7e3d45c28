// worker.py: the processing loop over the real repository, limiter and retry queue, against a world in which
// the clock, the leases, the commands and the responses are not the worker's to choose.

module RetryQueue {
  import opened Options
  import opened Tables

  function Power2(n: nat): nat { if n == 0 then 1 else 2 * Power2(n - 1) }

  function Backoff(attempt: nat, base: nat, cap: nat): nat
    requires attempt >= 1
  {
    var raw := base * Power2(attempt - 1);
    if raw < cap then raw else cap
  }

  lemma Scaled(r: real, u: real, x: real)
    requires r >= 0.0 && 0.5 <= u <= 1.0 && x == r * u
    ensures r <= 2.0 * x && x <= r
  {
    var v := u - 0.5;
    assert r * u == r * 0.5 + r * v;
    var w := 1.0 - u;
    assert r == r * u + r * w;
  }

  lemma FloorBounds(n: nat, x: real)
    requires n as real <= 2.0 * x && x <= n as real
    ensures n / 2 <= x.Floor <= n
  {
  }

  // What a retry may wait after this attempt: the server's positive delay verbatim, otherwise something between
  // half of the backoff and all of it.
  predicate DelayAllowed(delay: nat, attempt: nat, serverRetryAfter: Option<int>, base: nat, cap: nat)
    requires attempt >= 1
  {
    if serverRetryAfter.Some? && serverRetryAfter.value > 0 then delay == serverRetryAfter.value
    else Backoff(attempt, base, cap) / 2 <= delay <= Backoff(attempt, base, cap)
  }

  // The server's delay verbatim, or exponential backoff scaled by a jitter between one half and one, cut to
  // whole seconds. No jitter means the backoff itself.
  method CalculateNextRetryDelay(attempt: nat, serverRetryAfter: Option<int>, base: nat, cap: nat, jitter: Option<real>)
    returns (delay: nat)
    requires attempt >= 1 && (jitter.Some? ==> 0.5 <= jitter.value <= 1.0)
    ensures DelayAllowed(delay, attempt, serverRetryAfter, base, cap)
    ensures jitter.None? && !(serverRetryAfter.Some? && serverRetryAfter.value > 0) ==>
              delay == Backoff(attempt, base, cap)
    ensures jitter.Some? && !(serverRetryAfter.Some? && serverRetryAfter.value > 0) ==>
              delay == (Backoff(attempt, base, cap) as real * jitter.value).Floor
  {
    if serverRetryAfter.Some? && serverRetryAfter.value > 0 { return serverRetryAfter.value; }
    delay := base * Power2(attempt - 1);
    if cap < delay { delay := cap; }
    if jitter.Some? {
      var scaled := delay as real * jitter.value;
      Scaled(delay as real, jitter.value, scaled);
      FloorBounds(delay, scaled);
      delay := scaled.Floor;
    }
  }

  lemma Doubled(b: nat, p: nat, q: nat)
    requires q == 2 * p
    ensures 0 <= b * p <= b * q == 2 * (b * p)
  {
    assert b * q == b * p + b * p;
  }

  // Backoff starts at the base and doubles from one attempt to the next, until it stays at the cap.
  lemma {:induction false} BackoffGrows(attempt: nat, base: nat, cap: nat)
    requires attempt >= 1
    ensures Backoff(1, base, cap) == if base < cap then base else cap
    ensures Backoff(attempt + 1, base, cap) ==
              if 2 * Backoff(attempt, base, cap) < cap then 2 * Backoff(attempt, base, cap) else cap
    ensures Backoff(attempt, base, cap) <= Backoff(attempt + 1, base, cap) <= cap
  {
    var p, q := Power2(attempt - 1), Power2(attempt);
    assert q == 2 * p && Power2(0) == 1;
    hide Power2;
    Doubled(base, p, q);
  }

  // item.max_attempts or the configured default
  function EffectiveLimit(limit: nat, configured: nat): nat { if limit != 0 then limit else configured }
}

module Budgets {
  import opened Options
  import opened Tables
  import opened Selection

  function Left(r: Item, j: JobId): nat {
    if r.jobId == j && !Terminal(r.status) && r.attemptCount < r.maxAttempts then r.maxAttempts - r.attemptCount else 0
  }

  // Attempts still allowed over all unfinished items of the job.
  function Budget(items: seq<Item>, j: JobId): nat {
    if items == [] then 0 else Budget(items[..|items| - 1], j) + Left(items[|items| - 1], j)
  }

  lemma {:induction false} BudgetUpdate(items: seq<Item>, i: nat, r: Item, j: JobId)
    requires i < |items|
    ensures Budget(items[i := r], j) + Left(items[i], j) == Budget(items, j) + Left(r, j)
    decreases |items|
  {
    var n := |items| - 1;
    if i == n {
      assert items[i := r][..n] == items[..n];
    } else {
      assert items[i := r][..n] == items[..n][i := r];
      BudgetUpdate(items[..n], i, r, j);
    }
  }

  lemma {:induction false} BudgetCovers(items: seq<Item>, i: nat, j: JobId)
    requires i < |items|
    ensures Left(items[i], j) <= Budget(items, j)
    decreases |items|
  {
    var n := |items| - 1;
    if i < n {
      assert items[..n][i] == items[i];
      BudgetCovers(items[..n], i, j);
    }
  }

  lemma WithoutLast(a: seq<Item>, b: seq<Item>, j: JobId)
    requires SameRows(a, b, j) && |a| > |b|
    ensures SameRows(a[..|a| - 1], b, j) && SameRows(b, a[..|a| - 1], j)
  {
  }

  // Only the job's own rows matter to its budget, its soundness and its wake-up.
  lemma {:induction false} SameBudget(a: seq<Item>, b: seq<Item>, j: JobId)
    requires SameRows(a, b, j)
    ensures Budget(a, j) == Budget(b, j)
    decreases |a| + |b|
  {
    if |a| > |b| {
      assert !ItemOf(b, |a| - 1, j);
      WithoutLast(a, b, j);
      SameBudget(a[..|a| - 1], b, j);
    } else if |a| < |b| {
      assert !ItemOf(a, |b| - 1, j);
      WithoutLast(b, a, j);
      SameBudget(a, b[..|b| - 1], j);
    } else if a != [] {
      var n := |a| - 1;
      assert ItemOf(a, n, j) <==> ItemOf(b, n, j);
      forall i: nat ensures ItemOf(a[..n], i, j) <==> ItemOf(b[..n], i, j) {
        assert ItemOf(a, i, j) <==> ItemOf(b, i, j);
      }
      assert forall i: nat :: ItemOf(a[..n], i, j) ==> ItemOf(a, i, j) && ItemOf(b, i, j);
      SameBudget(a[..n], b[..n], j);
    }
  }

  lemma SameChain(a: seq<Item>, b: seq<Item>, c: seq<Item>, j: JobId)
    requires SameRows(a, b, j) && SameRows(b, c, j)
    ensures SameRows(a, c, j)
  {
    forall i: nat ensures ItemOf(a, i, j) <==> ItemOf(c, i, j) {
      assert ItemOf(a, i, j) <==> ItemOf(b, i, j);
    }
    forall i: nat | ItemOf(a, i, j) && ItemOf(c, i, j) ensures c[i] == a[i] {
      assert ItemOf(b, i, j);
    }
  }

  lemma SameSoundness(a: seq<Item>, b: seq<Item>, j: JobId)
    requires SameRows(a, b, j)
    ensures JobRowsOk(a, j) ==> JobRowsOk(b, j)
    ensures NoneProcessing(a, j) ==> NoneProcessing(b, j)
  {
  }

  // Every wake-up of b's rows is one of a's.
  lemma WakeNoLater(a: seq<Item>, b: seq<Item>, j: JobId)
    requires SameRows(a, b, j)
    ensures MinRetry(b, j).Some? ==> MinRetry(a, j).Some? && MinRetry(a, j).value <= MinRetry(b, j).value
    ensures MinRecovery(b, j).Some? ==> MinRecovery(a, j).Some? && MinRecovery(a, j).value <= MinRecovery(b, j).value
  {
    forall i: nat | i < |b| && b[i].jobId == j ensures i < |a| && a[i] == b[i] {
      assert ItemOf(b, i, j);
      assert ItemOf(a, i, j);
    }
  }

  lemma SameWake(a: seq<Item>, b: seq<Item>, j: JobId)
    requires SameRows(a, b, j)
    ensures NextWake(a, j) == NextWake(b, j)
  {
    WakeNoLater(a, b, j);
    assert SameRows(b, a, j);
    WakeNoLater(b, a, j);
  }

  lemma SameUnfinished(a: seq<Item>, b: seq<Item>, j: JobId)
    requires SameRows(a, b, j) && HasUnfinished(b, j)
    ensures HasUnfinished(a, j)
  {
    var i: nat :| i < |b| && b[i].jobId == j && !Terminal(b[i].status);
    assert ItemOf(b, i, j);
    assert ItemOf(a, i, j);
  }

  lemma SameUpdated(a: seq<Item>, b: seq<Item>, i: nat, r: Item, j: JobId)
    requires SameRows(a, b, j) && ItemOf(a, i, j) && r.jobId == j
    ensures ItemOf(b, i, j) && SameRows(a[i := r], b[i := r], j)
  {
    assert ItemOf(b, i, j);
    var a', b' := a[i := r], b[i := r];
    forall k: nat ensures ItemOf(a', k, j) <==> ItemOf(b', k, j) {
      assert ItemOf(a, k, j) <==> ItemOf(b, k, j);
    }
    forall k: nat | ItemOf(a', k, j) && ItemOf(b', k, j) ensures b'[k] == a'[k] {
      assert k != i ==> ItemOf(a, k, j) && ItemOf(b, k, j);
    }
  }
}

module Workers {
  import opened Options
  import opened Tables
  import opened Statements
  import opened Selection
  import opened Repositories
  import opened RetryQueue
  import opened Budgets
  import opened Outside
  import opened RateLimiter
  import Protocol

  datatype CheckResponse = CheckResponse(status: CheckStatus, retryAfter: Option<int>, error: Option<ErrorType>)

  // How one turn of the loop, and the loop itself, can end.
  datatype TurnEnd = NextTurn | OwnershipLost | WriteRefused | RequestRaised

  datatype LoopEnd =
    | NoMoreItems | CancelEvent | CancelledByCommand | PausedByCommand
    | LostOwnershipError | RequestFailed | Interrupted

  // The job's rows are the ones read earlier, except that row id is now in flight under this token.
  ghost predicate Stamped(items: seq<Item>, current: seq<Item>, id: nat, token: Token, j: JobId)
    requires id < |items|
  {
    exists t: Seconds :: SameRows(items[id := ClaimedRow(items[id], t, token)], current, j)
  }

  // The rows a worker read, its claimed row among them, and the snapshot it keeps of that row.
  ghost predicate Snapshot(items: seq<Item>, id: nat, attempts: nat, limit: nat, j: JobId) {
    && ItemOf(items, id, j) && !Terminal(items[id].status)
    && attempts == items[id].attemptCount && limit == items[id].maxAttempts
    && JobRowsOk(items, j) && NoneProcessing(items, j)
  }

  // The row a worker looks for: the job's first selectable one, by id.
  ghost predicate FirstSelectable(items: seq<Item>, id: nat, j: JobId, now: Seconds) {
    && ItemOf(items, id, j) && Selectable(items[id], now)
    && forall i: nat :: i < id && ItemOf(items, i, j) ==> !Selectable(items[i], now)
  }

  // Of the job's rows only this one has changed: one more attempt was made on it, and it is out of flight.
  ghost predicate AttemptedOnly(items: seq<Item>, items': seq<Item>, id: nat, j: JobId) {
    && ItemOf(items, id, j) && ItemOf(items', id, j) && SameRows(items[id := items'[id]], items', j)
    && items'[id].attemptCount == items[id].attemptCount + 1
    && (Terminal(items'[id].status) || items'[id].status == RetryRequired)
  }

  lemma AttemptedAlike(a: seq<Item>, b: seq<Item>, c: seq<Item>, id: nat, j: JobId)
    requires SameRows(a, b, j) && AttemptedOnly(b, c, id, j)
    ensures AttemptedOnly(a, c, id, j)
  {
    assert ItemOf(a, id, j) && SameRows(b, a, j);
    SameUpdated(b, a, id, c[id], j);
    assert SameRows(a[id := c[id]], b[id := c[id]], j);
    SameChain(a[id := c[id]], b[id := c[id]], c, j);
  }

  // The outcome the protocol stores for a response says in the row what the response said.
  lemma OutcomeAnswers(db: Db, id: nat, r: Protocol.Response, attempts: nat, limit: nat, now: Seconds, delay: nat,
                       token: Token, owner: Option<Owner>)
    ensures var items := SaveResult(db, id, Protocol.OutcomeFor(r, attempts, limit, now, delay), Some(token), owner,
                                    now).items;
            if SaveGuard(db, id, Some(token), owner, now)
            then RowAnsweredAs(db.items, items, id, r.status, r.error, attempts, limit, now, delay)
            else items == db.items
  {
  }

  // A worker in its loop has heard nothing since then that asks it to stop.
  predicate KeepsGoing(before: seq<Command>, heard: seq<Command>) {
    before <= heard && CancelCommand !in heard[|before|..] && PauseCommand !in heard[|before|..]
  }

  lemma HeardOne(before: seq<Command>, heard: seq<Command>, asked: Command, heard': seq<Command>)
    requires KeepsGoing(before, heard) && heard' == heard + (if asked == NoCommand then [] else [asked])
    ensures before <= heard'
    ensures CancelCommand in heard'[|before|..] <==> asked == CancelCommand
    ensures PauseCommand in heard'[|before|..] <==> asked == PauseCommand
  {
    assert heard'[|before|..] == heard[|before|..] + heard'[|heard|..];
  }

  // Milliseconds until a block ends and until the next item falls due.
  ghost function WaitOf(blockedUntil: Option<int>, items: seq<Item>, j: JobId, now: int): nat {
    var wake := NextWake(items, j);
    var a := if blockedUntil.Some? then Max(0, blockedUntil.value - now) else 0;
    var b := if wake.Some? then Max(0, wake.value * 1000 - now) else 0;
    a + b
  }

  // Time that passes while a block or a wake-up lies ahead brings it nearer.
  lemma WaitShrinks(blocked: Option<int>, blocked': Option<int>, items: seq<Item>, items': seq<Item>, j: JobId,
                    now: int, now': int)
    requires SameRows(items, items', j) && now <= now' && (blocked' == blocked || blocked'.None?)
    ensures WaitOf(blocked', items', j, now') <= WaitOf(blocked, items, j, now)
    ensures now < now' && ((blocked.Some? && now < blocked.value) ||
                           (NextWake(items, j).Some? && now < NextWake(items, j).value * 1000)) ==>
              WaitOf(blocked', items', j, now') < WaitOf(blocked, items, j, now)
  {
    SameWake(items, items', j);
  }

  class Worker {
    const world: World
    const results: ResultRepository
    const jobs: JobRepository
    const rate: RateLimitManager
    const recoveryGrace: nat
    const maxAttempts: nat
    const baseDelay: nat
    const maxDelay: nat
    var command: Command
    var pausedOnRateLimit: bool
    ghost var requests: nat       // requests sent so far
    ghost var heard: seq<Command> // commands acted on so far

    constructor (world: World, results: ResultRepository, jobs: JobRepository, rate: RateLimitManager,
                 recoveryGrace: nat, maxAttempts: nat, baseDelay: nat, maxDelay: nat)
      requires results.db == jobs.db == world.db
      ensures this.world == world && this.results == results && this.jobs == jobs && this.rate == rate
      ensures Wired() && command == NoCommand && requests == 0 && heard == []
    {
      this.world, this.results, this.jobs, this.rate := world, results, jobs, rate;
      this.recoveryGrace, this.maxAttempts := recoveryGrace, maxAttempts;
      this.baseDelay, this.maxDelay := baseDelay, maxDelay;
      this.command, this.pausedOnRateLimit, this.requests, this.heard := NoCommand, false, 0, [];
    }

    predicate Wired() { results.db == jobs.db == world.db }

    function Me(): Option<Owner> { Some(Owner(world.job, world.me)) }

    function Limit(limit: nat): nat { EffectiveLimit(limit, maxAttempts) }

    // RetryQueue.schedule_retry; delay is the pause it chose.
    method ScheduleRetry(id: nat, attempts: nat, limit: nat, error: Option<ErrorType>, retryAfter: Option<int>,
                         token: Token)
      returns (written: bool, ghost delay: nat)
      requires Wired()
      modifies world.db`items
      ensures written == SaveGuard(old(world.db.View()), id, Some(token), Me(), Sec(world.now))
      ensures world.db.View() == SaveResult(old(world.db.View()), id,
                Protocol.OutcomeFor(Protocol.Response(RetryRequired, error), attempts, Limit(limit), Sec(world.now),
                                    delay),
                Some(token), Me(), Sec(world.now))
      ensures written ==>
                RowAnsweredAs(old(world.db.items), world.db.items, id, RetryRequired, error, attempts,
                              if limit != 0 then limit else maxAttempts, Sec(world.now), delay)
      ensures !written ==> world.db.items == old(world.db.items)
      ensures attempts + 1 < Limit(limit) ==> DelayAllowed(delay, attempts + 1, retryAfter, baseDelay, maxDelay)
    {
      delay := 0;
      var attempt := attempts + 1;
      if attempt >= EffectiveLimit(limit, maxAttempts) {
        written := results.SaveResult(id, Outcome(PermanentError, Some(attempt), None, Some(RetryExhausted), true),
                                      Some(token), Me(), Sec(world.now));
      } else {
        var draw: real := *;
        var jitter := if 0.5 <= draw <= 1.0 then draw else 1.0;
        var pause := CalculateNextRetryDelay(attempt, retryAfter, baseDelay, maxDelay, Some(jitter));
        delay := pause;
        written := results.MarkRetry(id, attempt, Sec(world.now) + pause, error, Some(token), Me(), Sec(world.now));
      }
      OutcomeAnswers(old(world.db.View()), id, Protocol.Response(RetryRequired, error), attempts, Limit(limit),
                     Sec(world.now), delay, token, Me());
      hide RowAnsweredAs;
    }

    // The delay a response asks for: a flood wait without one counts as a minute.
    static function AskedDelay(response: CheckResponse): Option<int> {
      if response.status == RateLimited && response.retryAfter.None? then Some(60) else response.retryAfter
    }

    // Stores what the response asks for: the protocol's outcome for the row the worker read.
    method HandleResponse(id: nat, attempts: nat, limit: nat, response: CheckResponse, token: Token)
      returns (written: bool, ghost delay: nat)
      requires Wired()
      modifies world.db`items, rate`blockedUntil, rate.row, this`pausedOnRateLimit
      ensures written == SaveGuard(old(world.db.View()), id, Some(token), Me(), Sec(world.now))
      ensures world.db.View() == SaveResult(old(world.db.View()), id,
                Protocol.OutcomeFor(Protocol.Response(response.status, response.error), attempts, Limit(limit),
                                    Sec(world.now), delay),
                Some(token), Me(), Sec(world.now))
      ensures written ==>
                RowAnsweredAs(old(world.db.items), world.db.items, id, response.status, response.error, attempts,
                              if limit != 0 then limit else maxAttempts, Sec(world.now), delay)
      ensures !written ==> world.db.items == old(world.db.items)
      ensures !Terminal(response.status) && attempts + 1 < Limit(limit) ==>
                DelayAllowed(delay, attempts + 1, AskedDelay(response), baseDelay, maxDelay)
      ensures response.status == RateLimited ==>
                rate.View() == Flooded(old(rate.View()),
                                       if response.retryAfter.Some? then response.retryAfter.value else 60, world.now)
                && pausedOnRateLimit
      ensures response.status != RateLimited ==>
                rate.View() == old(rate.View()) && pausedOnRateLimit == old(pausedOnRateLimit)
    {
      hide RowAnsweredAs, SavedRow, DelayAllowed, Flooded, SaveGuard;
      delay := 0;
      if response.status == Found || response.status == NotDiscoverable {
        written := results.SaveResult(id, Outcome(response.status, Some(attempts + 1), None, None, true),
                                      Some(token), Me(), Sec(world.now));
      } else if response.status == PermanentError {
        written := results.SaveResult(id, Outcome(PermanentError, Some(attempts + 1), None, response.error, true),
                                      Some(token), Me(), Sec(world.now));
      } else if response.status == RateLimited {
        var seconds := if response.retryAfter.Some? then response.retryAfter.value else 60;
        rate.RegisterRateLimit(seconds, world.now);
        pausedOnRateLimit := true;
        written, delay := ScheduleRetry(id, attempts, limit, response.error, Some(seconds), token);
      } else {
        written, delay := ScheduleRetry(id, attempts, limit, response.error, response.retryAfter, token);
      }
      OutcomeAnswers(old(world.db.View()), id, Protocol.Response(response.status, response.error), attempts,
                     Limit(limit), Sec(world.now), delay, token, Me());
    }

    // What a processing loop may rely on while it owns its job.
    predicate Sound()
      reads world, world.db
    {
      world.Owned() ==> JobRowsOk(world.db.items, world.job) && NoneProcessing(world.db.items, world.job)
    }

    // LeaseKeeper.assert_ownership: the keeper may have failed closed before the rows say so.
    method AssertLiveOwner() returns (ok: bool)
      requires world.Calm()
      ensures ok ==> world.Owned()
      ensures world.calm ==> ok
    {
      ok := world.Owned();
      if !world.calm {
        var failedClosed: bool := *;
        if failedClosed { ok := false; }
      }
    }

    // LeaseKeeper.ownership_valid: whether the keeper has failed closed so far, whatever the rows say.
    method KeeperStillValid() returns (ok: bool)
      ensures world.calm ==> ok
    {
      ok := true;
      if !world.calm { ok := *; }
    }

    // What the service makes of the request: an answer, or an exception.
    method CheckPhone() returns (response: Option<CheckResponse>)
      ensures world.calm ==> response.Some?
    {
      var answer: CheckResponse := *;
      response := Some(answer);
      if !world.calm {
        var raised: bool := *;
        if raised { response := None; }
      }
    }

    method QuarantineInFlight(id: nat, token: Token)
      requires Wired()
      modifies world.db`items
      ensures world.db.View() ==
              MarkInFlightUnknown(old(world.db.View()), id, token, Sec(world.now) + recoveryGrace, Sec(world.now))
    {
      var written := results.MarkInFlightUnknown(id, token, Sec(world.now) + recoveryGrace, Sec(world.now));
    }

    static lemma StillStamped(items: seq<Item>, before: seq<Item>, after: seq<Item>, id: nat, token: Token, j: JobId)
      requires id < |items| && Stamped(items, before, id, token, j) && SameRows(before, after, j)
      ensures Stamped(items, after, id, token, j)
    {
      var t: Seconds :| SameRows(items[id := ClaimedRow(items[id], t, token)], before, j);
      SameChain(items[id := ClaimedRow(items[id], t, token)], before, after, j);
    }

    // An outcome leaves the row sound, out of flight, and with less budget.
    static lemma OutcomeSpends(r: Item, sent: Item, o: Outcome, now: Seconds)
      requires RowOk(r) && !Terminal(r.status) && exists t: Seconds, token: Token :: sent == ClaimedRow(r, t, token)
      requires exists p: Protocol.Response, delay: nat ::
                 o == Protocol.OutcomeFor(p, r.attemptCount, r.maxAttempts, now, delay)
      ensures var row := SavedRow(sent, o, now);
              && RowOk(row) && row.jobId == r.jobId && row.status != Processing
              && Left(row, r.jobId) < Left(r, r.jobId) && row.attemptCount == r.attemptCount + 1
              && (Terminal(row.status) || row.status == RetryRequired)
    {
    }

    // A stored outcome is paid for out of the item's budget and keeps the job's rows sound.
    static lemma CommitSpendsBudget(items: seq<Item>, before: seq<Item>, id: nat, token: Token, o: Outcome,
                                    now: Seconds,
                                    j: JobId)
      requires id < |items| && items[id].jobId == j && !Terminal(items[id].status)
      requires JobRowsOk(items, j) && NoneProcessing(items, j)
      requires Stamped(items, before, id, token, j)
      requires exists p: Protocol.Response, delay: nat ::
                 o == Protocol.OutcomeFor(p, items[id].attemptCount, items[id].maxAttempts, now, delay)
      ensures id < |before|
      ensures var after := before[id := SavedRow(before[id], o, now)];
              && JobRowsOk(after, j) && NoneProcessing(after, j) && SameIds(items, after, j)
              && Budget(after, j) < Budget(items, j) && AttemptedOnly(items, after, id, j)
    {
      var t: Seconds :| SameRows(items[id := ClaimedRow(items[id], t, token)], before, j);
      var sent := items[id := ClaimedRow(items[id], t, token)];
      assert ItemOf(sent, id, j) && ItemOf(before, id, j);
      OutcomeSpends(items[id], before[id], o, now);
      var row := SavedRow(before[id], o, now);
      hide SavedRow, RowOk, Left;
      SameUpdated(sent, before, id, row, j);
      assert sent[id := row] == items[id := row];
      BudgetUpdate(items, id, row, j);
      SameBudget(items[id := row], before[id := row], j);
      SameSoundness(items[id := row], before[id := row], j);
    }

    method StoreResponse(id: nat, attempts: nat, limit: nat, response: CheckResponse, token: Token,
                         ghost items: seq<Item>)
      returns (end: TurnEnd, ghost delay: nat)
      requires Wired() && Snapshot(items, id, attempts, limit, world.job)
      requires world.Owned() ==> Stamped(items, world.db.items, id, token, world.job)
      modifies this`pausedOnRateLimit, rate`blockedUntil, rate.row, world.db`items
      ensures end.NextTurn? || end.WriteRefused?
      ensures end.NextTurn? <==> SaveGuard(old(world.db.View()), id, Some(token), Me(), Sec(world.now))
      ensures end.WriteRefused? ==> !world.Owned() && world.db.items == old(world.db.items)
      ensures end.NextTurn? ==>
                RowAnsweredAs(old(world.db.items), world.db.items, id, response.status, response.error, attempts,
                              if limit != 0 then limit else maxAttempts, Sec(world.now), delay)
      ensures end.NextTurn? && world.Owned() ==>
                Sound() && Budget(world.db.items, world.job) < Budget(items, world.job)
                && SameIds(items, world.db.items, world.job) && AttemptedOnly(items, world.db.items, id, world.job)
    {
      ghost var before := world.db.items;
      var written;
      written, delay := HandleResponse(id, attempts, limit, response, token);
      end := if written then NextTurn else WriteRefused;
      assert RowOk(items[id]);
      if world.Owned() {
        var o := Protocol.OutcomeFor(Protocol.Response(response.status, response.error), attempts, limit,
                                     Sec(world.now), delay);
        CommitSpendsBudget(items, before, id, token, o, Sec(world.now), world.job);
      }
    }

    // The request is on its way: wait for it. Without an answer the item is quarantined, unless the request
    // raised; with one the job was still this worker's own when it came.
    method AwaitResponse(id: nat, token: Token) returns (end: TurnEnd, response: Option<CheckResponse>)
      requires Wired() && world.Calm()
      modifies rate`lastRequestAt, world, world.db
      ensures world.Calm() && old(world.now) <= world.now && (old(world.cancelled) ==> world.cancelled)
      ensures world.Owned() ==> old(world.Owned())
      ensures end.NextTurn? <==> response.Some?
      ensures !end.WriteRefused? && (world.calm ==> end.NextTurn?)
      ensures end.NextTurn? ==>
                && world.Since() && rate.lastRequestAt.Some?
                && old(world.now) <= rate.lastRequestAt.value <= world.now
      ensures end.RequestRaised? ==> world.Since() && rate.lastRequestAt == old(rate.lastRequestAt)
      ensures end.OwnershipLost? ==> !QuarantineGuard(world.db.View(), id, token)
    {
      response := None;
      world.Sleep(0);
      var live := KeeperStillValid();
      if !live {
        QuarantineInFlight(id, token);
        return OwnershipLost, None;
      }
      response := CheckPhone();
      if response.None? { return RequestRaised, None; }
      rate.RegisterSuccess(world.now);
      live := AssertLiveOwner();
      if !live {
        QuarantineInFlight(id, token);
        return OwnershipLost, None;
      }
      end := NextTurn;
      world.Sleep(0);
    }

    // Wait for the request, then store its outcome or quarantine the item. Afterwards the item is in flight under
    // its token only if the request raised, or the lease went before the outcome could be stored.
    method AwaitAndCommit(id: nat, attempts: nat, limit: nat, token: Token, ghost items: seq<Item>)
      returns (end: TurnEnd)
      requires Wired() && world.Calm() && Snapshot(items, id, attempts, limit, world.job)
      requires world.Owned() ==> Stamped(items, world.db.items, id, token, world.job)
      modifies this, rate, rate.row, world, world.db
      ensures world.Calm() && command == old(command) && heard == old(heard) && requests == old(requests)
      ensures old(world.cancelled) ==> world.cancelled
      ensures world.Owned() ==> old(world.Owned())
      ensures world.calm ==> end.NextTurn?
      ensures old(world.now) <= world.now
      ensures end.RequestRaised? && world.Owned() ==> Stamped(items, world.db.items, id, token, world.job)
      ensures end.OwnershipLost? ==> !QuarantineGuard(world.db.View(), id, token)
      ensures end.WriteRefused? ==> !SaveGuard(world.db.View(), id, Some(token), Me(), Sec(world.now))
      ensures end.NextTurn? || end.WriteRefused? ==>
                rate.lastRequestAt.Some? && old(world.now) <= rate.lastRequestAt.value <= world.now
      ensures end.NextTurn? && world.Owned() ==>
                Sound() && Budget(world.db.items, world.job) < Budget(items, world.job)
                && SameIds(items, world.db.items, world.job) && AttemptedOnly(items, world.db.items, id, world.job)
    {
      assert id < |items|;
      hide Budget, NextWake, AttemptedOnly, Snapshot, JobRowsOk, NoneProcessing, QuarantinedRow, Stamped;
      var response;
      end, response := AwaitResponse(id, token);
      if end.RequestRaised? && world.Owned() {
        StillStamped(items, old(world.db.items), world.db.items, id, token, world.job);
      }
      if response.None? { return; }
      if world.Owned() { StillStamped(items, old(world.db.items), world.db.items, id, token, world.job); }
      ghost var delay;
      end, delay := StoreResponse(id, attempts, limit, response.value, token, items);
    }

    // _acquire_and_run_one, for the row the worker read when it looked for work.
    method AcquireAndRunOne(id: nat, row: Item) returns (end: TurnEnd)
      requires Wired() && world.Calm() && Sound()
      requires world.Owned() ==>
                 ItemOf(world.db.items, id, world.job) && world.db.items[id] == row && Selectable(row, Sec(world.now))
      modifies this, rate, rate.row, world, world.db
      ensures world.Calm() && command == old(command) && heard == old(heard)
      ensures old(world.cancelled) ==> world.cancelled
      ensures old(requests) <= requests <= old(requests) + 1
      ensures requests > old(requests) ==> old(world.Owned()) && Budget(old(world.db.items), world.job) >= 1
      ensures world.calm ==> end.NextTurn?
      ensures world.Owned() ==> old(world.Owned())
      ensures old(world.now) <= world.now
      ensures end.NextTurn? && world.Owned() ==>
                && Sound() && requests == old(requests) + 1
                && Budget(world.db.items, world.job) < Budget(old(world.db.items), world.job)
                && SameIds(old(world.db.items), world.db.items, world.job)
                && AttemptedOnly(old(world.db.items), world.db.items, id, world.job)
    {
      hide Budget, NextWake, SavedRow, QuarantinedRow;
      ghost var items := world.db.items;
      rate.Acquire(world);
      var live := AssertLiveOwner();
      if !live { return OwnershipLost; }
      assert Snapshot(items, id, row.attemptCount, row.maxAttempts, world.job);
      label Checked:
      world.Sleep(0);
      var uuid: Token := *;
      ghost var current := world.db.items;
      if world.Owned() {
        SameChain(items, old@Checked(world.db.items), current, world.job);
        SameUpdated(items, current, id, ClaimedRow(items[id], Sec(world.now), uuid), world.job);
      }
      var token := results.MarkProcessing(id, Me(), Sec(world.now), uuid);
      if token.None? { return NextTurn; }
      BudgetCovers(items, id, world.job);
      requests := requests + 1;
      end := AwaitAndCommit(id, row.attemptCount, row.maxAttempts, token.value, items);
    }

    // _sleep_for: slices of at most a second, abandoned when the worker is cancelled.
    method SleepFor(ms: nat)
      requires world.Calm() && ms > 0
      modifies world, world.db
      ensures world.Calm() && world.Since()
      ensures world.cancelled || world.now >= old(world.now) + ms
    {
      var left: int := ms;
      while left > 0 && !world.cancelled
        invariant world.Calm() && world.Since() && world.now >= old(world.now) + ms - left
        decreases left
      {
        var slice := if left <= 1000 then left else 1000;
        world.Sleep(slice);
        left := left - slice;
      }
    }

    ghost function WaitLeft(): nat
      reads rate, world, world.db
    {
      WaitOf(rate.blockedUntil, world.db.items, world.job, world.now)
    }

    ghost function Stage(): nat
      reads world, world.db
    {
      if world.cancelled then 0 else if !world.Owned() then 1 else 2
    }

    // What the worker is asked to do: the command on its job's row, or else the one it was given directly.
    function Asked(): Command
      reads this, world, world.db
    {
      if world.job in world.db.jobs && world.db.jobs[world.job].command != NoCommand
      then world.db.jobs[world.job].command else command
    }

    // _poll_persisted_command: read, then clear, whoever the command was meant for.
    method PollPersistedCommand()
      requires Wired() && world.Calm()
      modifies this`command, world, world.db
      ensures world.Calm() && world.Since() && (world.calm ==> command == old(command))
      ensures command == if world.job in old(world.db.jobs) && old(world.db.jobs[world.job].command) != NoCommand
                         then old(world.db.jobs[world.job].command) else old(command)
      ensures world.job in world.db.jobs ==> world.db.jobs[world.job].command == NoCommand
    {
      var raw := jobs.GetRequestedCommand(world.job);
      if raw != NoCommand {
        command := raw;
        world.Sleep(0);
        jobs.SetRequestedCommand(world.job, NoCommand);
      }
    }

    // _wait_for_rate_release: until the block ends, but five seconds at most; a second if it has just ended.
    method WaitForRateRelease()
      requires Wired() && world.Calm()
      modifies this`pausedOnRateLimit, world, world.db
      ensures world.Calm() && world.Since() && world.now > old(world.now) && pausedOnRateLimit
      ensures rate.blockedUntil.Some? ==>
                world.now >= rate.blockedUntil.value || world.now >= old(world.now) + 5000
    {
      pausedOnRateLimit := true;
      world.Sleep(0);
      var left := rate.RemainingBlock(world.now);
      world.Sleep(if left > 0 then (if left < 5000 then left else 5000) else 1000);
    }

    // _wait_for_next_retry: until the next wake-up, but five seconds at most; a moment if it has just passed.
    method WaitForNextRetry()
      requires Wired() && world.Calm()
      modifies world, world.db
      ensures world.Calm() && world.Since() && (world.cancelled || world.now > old(world.now))
      ensures world.Owned() && !world.cancelled && NextWake(world.db.items, world.job).Some? ==>
                || world.now >= NextWake(world.db.items, world.job).value * 1000
                || world.now >= old(world.now) + 5000
    {
      hide NextWake;
      world.Sleep(0);
      ghost var read := world.db.items;
      var at := results.GetNextRetryAt(world.job);
      var wait := if at.Some? then at.value * 1000 - world.now else 0;
      if wait <= 0 { wait := 200; }
      SleepFor(if wait < 5000 then wait else 5000);
      if world.Owned() { SameWake(read, world.db.items, world.job); }
    }

    // While the job is owned, what others do changes nothing about its rows.
    lemma WaitingPays(before: seq<Item>)
      requires world.Owned() ==> SameRows(before, world.db.items, world.job)
      ensures world.Owned() ==>
                && Budget(world.db.items, world.job) == Budget(before, world.job)
                && NextWake(world.db.items, world.job) == NextWake(before, world.job)
                && SameIds(before, world.db.items, world.job)
                && (JobRowsOk(before, world.job) && NoneProcessing(before, world.job) ==> Sound())
    {
      if world.Owned() {
        SameBudget(before, world.db.items, world.job);
        SameWake(before, world.db.items, world.job);
        SameSoundness(before, world.db.items, world.job);
      }
    }

    // What a turn that goes round again has done, as long as the job is still owned: requests are paid for by
    // attempts, the job keeps its rows, and an attempt was spent or some waiting done.
    twostate predicate Onward()
      reads this, rate, world, world.db
    {
      && (old(world.cancelled) ==> world.cancelled)
      && (world.Owned() ==>
            && old(world.Owned()) && SameIds(old(world.db.items), world.db.items, world.job)
            && requests + Budget(world.db.items, world.job) <= old(requests) + old(Budget(world.db.items, world.job))
            && (!world.cancelled ==>
                  || Budget(world.db.items, world.job) < old(Budget(world.db.items, world.job))
                  || (Budget(world.db.items, world.job) == old(Budget(world.db.items, world.job))
                      && WaitLeft() < old(WaitLeft()))))
    }

    // Nothing is due and something is unfinished: a wake-up lies ahead.
    lemma WakeAhead(items: seq<Item>, items': seq<Item>, now: int)
      requires SameRows(items, items', world.job) && JobRowsOk(items, world.job) && NoneProcessing(items, world.job)
      requires !Due(items, world.job, Sec(now)) && HasUnfinished(items', world.job)
      ensures NextWake(items, world.job).Some? && now < NextWake(items, world.job).value * 1000
    {
      SameUnfinished(items, items', world.job);
      ghost var next := NoLostWakeUp(items, world.job, Sec(now));
    }

    // The limiter is blocked: wait, and go round again.
    method WaitOutBlock()
      requires Wired() && world.Calm() && Sound() && rate.blockedUntil.Some? && world.now < rate.blockedUntil.value
      modifies this`pausedOnRateLimit, world, world.db
      ensures world.Calm() && Sound() && Onward() && pausedOnRateLimit && old(world.now) <= world.now
    {
      WaitForRateRelease();
      WaitingPays(old(world.db.items));
      if world.Owned() {
        WaitShrinks(rate.blockedUntil, rate.blockedUntil, old(world.db.items), world.db.items, world.job,
                    old(world.now), world.now);
      }
    }

    // Nothing is due: stop when nothing is unfinished either, otherwise wait and go round again.
    method WaitOrStop() returns (end: Option<LoopEnd>)
      requires Wired() && world.Calm() && Sound() && !pausedOnRateLimit
      requires world.Owned() ==> !Due(world.db.items, world.job, Sec(world.now))
      modifies world, world.db
      ensures end.None? ==> world.Calm() && Sound() && Onward()
      ensures old(world.now) <= world.now
      ensures end == Some(NoMoreItems) ==>
                && AllTerminal(world.db.items, world.job) && world.Calm()
                && (world.Owned() ==> old(world.Owned()) && SameIds(old(world.db.items), world.db.items, world.job))
      ensures end.None? || end == Some(NoMoreItems)
    {
      world.Sleep(0);
      var unfinished := results.HasUnfinishedItems(world.job);
      if !unfinished { return Some(NoMoreItems); }
      label Read:
      WaitForNextRetry();
      if world.Owned() {
        SameChain(old(world.db.items), old@Read(world.db.items), world.db.items, world.job);
        WakeAhead(old(world.db.items), old@Read(world.db.items), old(world.now));
        WaitShrinks(rate.blockedUntil, rate.blockedUntil, old(world.db.items), world.db.items, world.job,
                    old(world.now), world.now);
      }
      WaitingPays(old(world.db.items));
      end := None;
    }

    // What happens to the one item found due.
    method DoOne(id: nat, row: Item) returns (end: Option<LoopEnd>)
      requires Wired() && world.Calm() && Sound()
      requires world.Owned() ==>
                 ItemOf(world.db.items, id, world.job) && world.db.items[id] == row && Selectable(row, Sec(world.now))
      modifies this, rate, rate.row, world, world.db
      ensures command == old(command) && heard == old(heard) && old(requests) <= requests <= old(requests) + 1
      ensures requests > old(requests) ==> old(world.Owned()) && Budget(old(world.db.items), world.job) >= 1
      ensures end.None? ==> world.Calm() && Sound() && Onward()
      ensures end.None? || end == Some(LostOwnershipError) || end == Some(RequestFailed)
      ensures (world.calm ==> end.None?) && old(world.now) <= world.now
      ensures end.None? && world.Owned() ==>
                requests == old(requests) + 1 && AttemptedOnly(old(world.db.items), world.db.items, id, world.job)
    {
      var turn := AcquireAndRunOne(id, row);
      end := match turn
        case NextTurn => None
        case OwnershipLost => Some(LostOwnershipError)
        case WriteRefused => Some(LostOwnershipError)
        case RequestRaised => Some(RequestFailed);
    }

    // A turn by a worker that was just found to own its job: wait while the limiter is blocked, do the first item
    // that is due, or wait for one, or stop.
    method Work() returns (end: Option<LoopEnd>)
      requires Wired() && world.Calm() && Sound()
      modifies this, rate, rate.row, world, world.db
      ensures command == old(command) && heard == old(heard) && old(requests) <= requests <= old(requests) + 1
      ensures requests > old(requests) ==> old(world.Owned()) && Budget(old(world.db.items), world.job) >= 1
      ensures end.None? ==> world.Calm() && Sound() && Onward()
      ensures end == Some(NoMoreItems) ==>
                && AllTerminal(world.db.items, world.job) && requests == old(requests) && world.Calm()
                && !pausedOnRateLimit
                && (world.Owned() ==> old(world.Owned()) && SameIds(old(world.db.items), world.db.items, world.job))
      ensures world.calm ==> end.None? || end == Some(NoMoreItems)
      ensures end != Some(CancelledByCommand) && end != Some(PausedByCommand) && old(world.now) <= world.now
      ensures var blocked := old(rate.blockedUntil.Some? && world.now < rate.blockedUntil.value);
              var due := Due(old(world.db.items), world.job, Sec(old(world.now)));
              && (blocked ==> end.None? && requests == old(requests) && pausedOnRateLimit)
              && (!blocked && !due ==> requests == old(requests))
              && (!blocked && due && end.None? && world.Owned() ==>
                    requests == old(requests) + 1 && exists id: nat ::
                      && FirstSelectable(old(world.db.items), id, world.job, Sec(old(world.now)))
                      && AttemptedOnly(old(world.db.items), world.db.items, id, world.job))
    {
      end := None;
      var blocked := rate.IsBlocked(world.now);
      if blocked {
        WaitOutBlock();
        return;
      }
      pausedOnRateLimit := false;
      WaitShrinks(old(rate.blockedUntil), rate.blockedUntil, world.db.items, world.db.items, world.job, world.now,
                  world.now);
      var item := results.NextDueItem(world.job, Sec(world.now));
      if item.None? {
        end := WaitOrStop();
      } else {
        end := DoOne(item.value, world.db.items[item.value]);
      }
    }

    // The head of a turn: a stop command is taken off the row and the loop left, a PAUSE acknowledged on the way.
    method Obey() returns (end: Option<LoopEnd>)
      requires Wired() && world.Calm()
      modifies this`command, this`heard, world, world.db
      ensures var asked := old(Asked());
              && end == (if asked == CancelCommand then Some(CancelledByCommand)
                         else if asked == PauseCommand then Some(PausedByCommand) else None)
              && heard == old(heard) + (if asked == NoCommand then [] else [asked])
      ensures command == NoCommand && SettledKept(old(world.db.items), world.db.items, world.job)
      ensures world.job in world.db.jobs ==> world.db.jobs[world.job].command == NoCommand
      ensures end == Some(PausedByCommand) ==> PauseAcknowledged(world.db.View(), world.job, world.me)
      ensures end.None? ==> world.Calm() && world.Since()
    {
      PollPersistedCommand();
      if command != NoCommand { heard := heard + [command]; }
      end := None;
      if command == CancelCommand { end := Some(CancelledByCommand); }
      if command == PauseCommand {
        jobs.AcknowledgePause(world.job, world.me, Sec(world.now));
        end := Some(PausedByCommand);
      }
      command := NoCommand;
    }

    // The ownership gate before any work, with others acting before and after it.
    method Gate() returns (live: bool)
      requires Wired() && world.Calm()
      modifies world, world.db
      ensures world.Calm() && world.Since()
      ensures (live ==> old(world.Owned())) && (world.calm ==> live)
    {
      world.Sleep(0);
      live := AssertLiveOwner();
      world.Sleep(0);
    }

    // A due item of the job was attempted, the first one by id at some moment of the turn, and no other touched.
    ghost predicate DidFirst(items: seq<Item>, items': seq<Item>) {
      exists id: nat, t: Seconds ::
        FirstSelectable(items, id, world.job, t) && AttemptedOnly(items, items', id, world.job)
    }

    lemma StillFirst(before: seq<Item>, items: seq<Item>, items': seq<Item>, id: nat, t: Seconds)
      requires SameRows(before, items, world.job)
      requires FirstSelectable(items, id, world.job, t) && AttemptedOnly(items, items', id, world.job)
      ensures DidFirst(before, items')
    {
      AttemptedAlike(before, items, items', id, world.job);
      forall i: nat | i < id && ItemOf(before, i, world.job) ensures !Selectable(before[i], t) {
        assert ItemOf(items, i, world.job);
      }
      assert FirstSelectable(before, id, world.job, t);
    }

    // One turn of the loop; None means go round again. A stop command ends the loop at once, and nothing but a
    // stop command ends it that way.
    method Turn() returns (end: Option<LoopEnd>)
      requires Wired() && world.Calm() && Sound() && !world.cancelled && (world.calm ==> command == NoCommand)
      modifies this, rate, rate.row, world, world.db
      ensures var asked := old(Asked());
              && (end == Some(CancelledByCommand) <==> asked == CancelCommand)
              && (end == Some(PausedByCommand) <==> asked == PauseCommand)
              && heard == old(heard) + (if asked == NoCommand then [] else [asked])
              && (asked == CancelCommand || asked == PauseCommand ==>
                    && requests == old(requests) && rate.View() == old(rate.View())
                    && SettledKept(old(world.db.items), world.db.items, world.job)
                    && (world.job in world.db.jobs ==> world.db.jobs[world.job].command == NoCommand))
              && (asked == PauseCommand ==> PauseAcknowledged(world.db.View(), world.job, world.me))
      ensures command == NoCommand
      ensures old(requests) <= requests <= old(requests) + 1
      ensures requests > old(requests) ==> old(world.Owned()) && Budget(old(world.db.items), world.job) >= 1
      ensures requests > old(requests) && old(rate.blockedUntil).Some? ==> world.now >= old(rate.blockedUntil).value
      ensures end.None? ==> old(world.Owned()) && world.Calm() && Sound() && Onward()
      ensures end.None? && world.Owned() && requests > old(requests) ==> DidFirst(old(world.db.items), world.db.items)
      ensures end == Some(NoMoreItems) ==>
                && AllTerminal(world.db.items, world.job) && requests == old(requests) && world.Calm()
                && !pausedOnRateLimit
                && (world.Owned() ==> old(world.Owned()) && SameIds(old(world.db.items), world.db.items, world.job))
      ensures world.calm ==> end.None? || end == Some(NoMoreItems)
    {
      hide FirstSelectable, AttemptedOnly, PauseAcknowledged, NextWake, Budget, WaitOf, AllTerminal;
      end := Obey();
      if end.Some? { return; }
      var live := Gate();
      if !live { return Some(LostOwnershipError); }
      assert world.Since();
      WaitingPays(old(world.db.items));
      if world.Owned() {
        WaitShrinks(rate.blockedUntil, rate.blockedUntil, old(world.db.items), world.db.items, world.job,
                    old(world.now), world.now);
      }
      ghost var seen, at := world.db.items, world.now;
      end := Work();
      if end.None? && world.Owned() && requests > old(requests) {
        ghost var id: nat :| FirstSelectable(seen, id, world.job, Sec(at))
          && AttemptedOnly(seen, world.db.items, id, world.job);
        StillFirst(old(world.db.items), seen, world.db.items, id, Sec(at));
      }
      if end.None? && !world.calm {
        var shutdown: bool := *;
        if shutdown { end := Some(Interrupted); }
      }
    }

    // process(). The loop ends in every world. It never sends more requests than the attempts left over the
    // unfinished items; when nobody interferes it ends with every item of the job settled; and it ends by a
    // command exactly when it has heard one that asks it to stop.
    method Process() returns (end: LoopEnd)
      requires Wired() && world.Calm() && Sound() && (world.calm ==> command == NoCommand)
      modifies this, rate, rate.row, world, world.db
      ensures old(heard) <= heard
      ensures end.CancelledByCommand? <==> CancelCommand in heard[|old(heard)|..]
      ensures end.PausedByCommand? <==> PauseCommand in heard[|old(heard)|..]
      ensures end.PausedByCommand? ==> PauseAcknowledged(world.db.View(), world.job, world.me)
      ensures requests <= old(requests) + Budget(old(world.db.items), world.job)
      ensures end.NoMoreItems? ==> AllTerminal(world.db.items, world.job) && world.Calm() && !pausedOnRateLimit
      ensures world.calm ==> end.NoMoreItems? && SameIds(old(world.db.items), world.db.items, world.job)
    {
      while !world.cancelled
        invariant Wired() && world.Calm() && Sound() && (world.calm ==> command == NoCommand)
        invariant KeepsGoing(old(heard), heard)
        invariant requests <= old(requests) + Budget(old(world.db.items), world.job)
        invariant world.Owned() ==>
                    && requests + Budget(world.db.items, world.job) <= old(requests)
                        + Budget(old(world.db.items), world.job)
                    && SameIds(old(world.db.items), world.db.items, world.job)
        decreases Stage(), Budget(world.db.items, world.job), WaitLeft()
      {
        ghost var before, asked := heard, Asked();
        var turn := Turn();
        HeardOne(old(heard), before, asked, heard);
        if turn.Some? { return turn.value; }
      }
      end := CancelEvent;
    }
  }
}
