// What happens to one item over a whole run: no update is lost, every claim is accounted for, and a row that
// must wait does wait.

module ItemHistory {
  import opened Options
  import opened Tables
  import opened Statements
  import opened Protocol
  import opened Invariant
  import Selection

  // ---- runs ------------------------------------------------------------------------------------------

  function StateAt(s: Sys, es: seq<Event>, k: nat): Sys
    requires k <= |es|
  {
    Run(s, es[..k])
  }

  lemma {:induction false} RunAppend(s: Sys, es: seq<Event>, fs: seq<Event>)
    ensures Run(s, es + fs) == Run(Run(s, es), fs)
    decreases |es|
  {
    if es == [] {
      assert es + fs == fs;
    } else {
      assert (es + fs)[1..] == es[1..] + fs;
      RunAppend(Apply(s, es[0]), es[1..], fs);
    }
  }

  lemma StateAfter(s: Sys, es: seq<Event>, k: nat)
    requires k < |es|
    ensures StateAt(s, es, k + 1) == Apply(StateAt(s, es, k), es[k])
  {
    assert es[..k + 1] == es[..k] + [es[k]];
    RunAppend(s, es[..k], [es[k]]);
    var m := Run(s, es[..k]);
    assert Run(m, [es[k]]) == Run(Apply(m, es[k]), []);
  }

  lemma {:induction false} RunInv(s: Sys, es: seq<Event>)
    requires Inv(s)
    ensures Inv(Run(s, es))
    decreases |es|
  {
    hide Inv;
    if es != [] {
      StepInv(s, es[0]);
      RunInv(Apply(s, es[0]), es[1..]);
    }
  }

  lemma ReachableInv(s: Sys)
    requires Reachable(s)
    ensures Inv(s)
  {
    var s0, es: seq<Event> :| Initial(s0) && Run(s0, es) == s;
    InitialInv(s0);
    RunInv(s0, es);
  }

  // ---- the four things that can happen to a row in one event -------------------------------------------

  // What no claim and no quarantine touches.
  predicate SameAttempts(r: Item, r': Item) {
    && r'.jobId == r.jobId && r'.attemptCount == r.attemptCount && r'.maxAttempts == r.maxAttempts
    && r'.completedAt == r.completedAt
  }

  // In flight under a token since now, with no trace of an earlier quarantine but its error.
  predicate RowClaimed(r: Item, r': Item, now: Seconds) {
    && Selectable(r, now) && SameAttempts(r, r') && r'.status == Processing && r'.token.Some?
    && r'.startedAt == Some(now) && r'.ownershipLostAt.None? && r'.recoveryAfter.None?
    && r'.nextRetryAt == r.nextRetryAt && r'.lastError == r.lastError
  }

  // Taken out of flight, to be looked at again after the grace.
  predicate RowQuarantined(r: Item, r': Item, now: Seconds, grace: nat) {
    && r.status == Processing && SameAttempts(r, r') && r'.status == InFlightUnknown && r'.token.None?
    && r'.recoveryAfter == Some(now + grace) && r'.ownershipLostAt == Some(now) && r'.startedAt == r.startedAt
    && r'.nextRetryAt.None? && r'.lastError == Some(WorkerInterrupted)
  }

  // An attempt was made and counted; the row is settled, or waits for its retry time.
  predicate RowAnswered(r: Item, r': Item, now: Seconds) {
    && r.status == Processing && r'.attemptCount == r.attemptCount + 1 && r'.token.None?
    && r'.jobId == r.jobId && r'.maxAttempts == r.maxAttempts
    && (Terminal(r'.status) || (r'.status == RetryRequired && r'.nextRetryAt.Some? && r'.nextRetryAt.value >= now))
  }

  ghost predicate RowStep(r: Item, r': Item, now: Seconds, grace: nat) {
    r' == r || RowClaimed(r, r', now) || RowQuarantined(r, r', now, grace) || RowAnswered(r, r', now)
  }

  lemma CommitRowStep(s: Sys, w: WorkerId, r: Response, delay: nat, i: nat)
    requires Inv(s) && i < |s.db.items|
    ensures |DoCommit(s, w, r, delay).db.items| == |s.db.items|
    ensures RowStep(s.db.items[i], DoCommit(s, w, r, delay).db.items[i], s.clock, s.cfg.recoveryGrace)
  {
  }

  predicate TouchesItems(e: Event) {
    || e.SendRequest? || e.Commit? || e.Quarantine?
    || e.RecoverAtOnce? || e.RecoverItems? || e.RecoverAndClaim?
  }

  lemma OthersLeaveItems(s: Sys, e: Event)
    requires !TouchesItems(e)
    ensures Apply(s, e).db.items == s.db.items && Apply(s, e).tokens == s.tokens
  {
  }

  lemma EventKeepsConfig(s: Sys, e: Event)
    ensures Apply(s, e).cfg == s.cfg && Apply(s, e).clock >= s.clock
  {
  }

  lemma ClaimLeavesItems(s: Sys, w: WorkerId, j: JobId)
    ensures DoClaimAtOnce(s, w, j).db.items == s.db.items && DoClaimAtOnce(s, w, j).tokens == s.tokens
  {
  }

  lemma RecoveryItems(s: Sys, e: Event)
    requires e.RecoverAtOnce? || e.RecoverItems? || e.RecoverAndClaim?
    ensures var s' := Apply(s, e);
            && s'.tokens == s.tokens
            && (s'.db.items == s.db.items ||
                s'.db.items == RecoverInterrupted(s.db, e.j, s.clock + s.cfg.recoveryGrace, s.clock).items)
  {
    if e.RecoverAndClaim? { ClaimLeavesItems(DoRecoverAtOnce(s, e.j), e.w, e.j); }
    hide DoClaimAtOnce, RecoveredRow;
  }

  lemma QuarantineRowStep(s: Sys, w: WorkerId, i: nat)
    requires i < |s.db.items|
    ensures |DoQuarantine(s, w).db.items| == |s.db.items|
    ensures RowStep(s.db.items[i], DoQuarantine(s, w).db.items[i], s.clock, s.cfg.recoveryGrace)
  {
  }

  lemma SendRowStep(s: Sys, w: WorkerId, token: Token, i: nat)
    requires i < |s.db.items|
    ensures |DoSendRequest(s, w, token).db.items| == |s.db.items|
    ensures RowStep(s.db.items[i], DoSendRequest(s, w, token).db.items[i], s.clock, s.cfg.recoveryGrace)
  {
  }

  lemma RecoveryRowStep(s: Sys, e: Event, i: nat)
    requires i < |s.db.items| && (e.RecoverAtOnce? || e.RecoverItems? || e.RecoverAndClaim?)
    ensures |Apply(s, e).db.items| == |s.db.items|
    ensures RowStep(s.db.items[i], Apply(s, e).db.items[i], s.clock, s.cfg.recoveryGrace)
  {
    hide Apply;
    var r := RecoveredRow(s.db.items[i], e.j, s.clock, s.clock + s.cfg.recoveryGrace);
    assert RowStep(s.db.items[i], r, s.clock, s.cfg.recoveryGrace);
    hide RecoveredRow, RowClaimed, RowAnswered, RowQuarantined;
    RecoveryItems(s, e);
  }

  lemma EventRowStep(s: Sys, e: Event, i: nat)
    requires Inv(s) && i < |s.db.items|
    ensures |Apply(s, e).db.items| == |s.db.items|
    ensures RowStep(s.db.items[i], Apply(s, e).db.items[i], s.clock, s.cfg.recoveryGrace)
    ensures Apply(s, e).cfg == s.cfg && Apply(s, e).clock >= s.clock
  {
    EventKeepsConfig(s, e);
    hide Inv, DoQuarantine, DoSendRequest, DoCommit;
    if !TouchesItems(e) {
      hide Apply;
      OthersLeaveItems(s, e);
    } else {
      match e
      case SendRequest(w, token) => SendRowStep(s, w, token, i);
      case Commit(w, r, delay) => CommitRowStep(s, w, r, delay, i);
      case Quarantine(w) => QuarantineRowStep(s, w, i);
      case _ => RecoveryRowStep(s, e, i);
    }
  }

  // A claim that meets its guard puts the item in flight under the worker's token; a quarantine by the worker whose
  // token the row carries takes it out again; and a recovery takes out whatever of the job is in flight.
  lemma OwnStepsTakeEffect(s: Sys, w: WorkerId, token: Token, j: JobId)
    ensures SendOk(s, w, token) ==>
              var p, s' := PhaseOf(s, w), DoSendRequest(s, w, token);
              && RowClaimed(s.db.items[p.id], s'.db.items[p.id], s.clock) && s'.db.items[p.id].token == Some(token)
              && s'.agents[w].phase == InFlight(p.id, p.attempts, p.limit, token)
    ensures At(s, w) && PhaseOf(s, w).InFlight? && QuarantineGuard(s.db, PhaseOf(s, w).id, PhaseOf(s, w).token) ==>
              RowQuarantined(s.db.items[PhaseOf(s, w).id], DoQuarantine(s, w).db.items[PhaseOf(s, w).id], s.clock,
                             s.cfg.recoveryGrace)
    ensures Selection.NoneProcessing(Apply(s, RecoverItems(j)).db.items, j)
  {
  }

  // ---- no lost update ----------------------------------------------------------------------------------

  // The row a worker commits is the row it read before it waited for the limiter and claimed the item,
  // whatever the other workers and a recovery split into its statements did in the meantime.
  lemma NoLostUpdate(s: Sys, w: WorkerId, r: Response, delay: nat)
    requires Reachable(s) && CommitOk(s, w)
    ensures var p := PhaseOf(s, w);
            var before, after := s.db.items[p.id], Apply(s, Commit(w, r, delay)).db.items[p.id];
            && before.attemptCount == p.attempts && before.maxAttempts == p.limit
            && after.attemptCount == before.attemptCount + 1 <= after.maxAttempts
            && (Terminal(after.status) || after.attemptCount < after.maxAttempts)
            && RowAnsweredAs(s.db.items, Apply(s, Commit(w, r, delay)).db.items, p.id, r.status, r.error,
                             before.attemptCount, before.maxAttempts, s.clock, delay)
  {
    ReachableInv(s);
    CommitMeetsItsSnapshot(s, w);
  }

  // ---- conservation ------------------------------------------------------------------------------------

  predicate ClaimSeen(s: Sys, s': Sys, i: nat) {
    i < |s.db.items| && i < |s'.db.items| && s.db.items[i].status != Processing && s'.db.items[i].status == Processing
  }

  predicate ResolveSeen(s: Sys, s': Sys, i: nat) {
    i < |s.db.items| && i < |s'.db.items| && s.db.items[i].status == Processing && s'.db.items[i].status != Processing
  }

  predicate QuarantineSeen(s: Sys, s': Sys, i: nat) {
    ResolveSeen(s, s', i) && s'.db.items[i].status == InFlightUnknown
  }

  function One(b: bool): nat { if b then 1 else 0 }

  function Claims(s: Sys, es: seq<Event>, i: nat): nat
    decreases |es|
  {
    if es == [] then 0 else One(ClaimSeen(s, Apply(s, es[0]), i)) + Claims(Apply(s, es[0]), es[1..], i)
  }

  function Quarantines(s: Sys, es: seq<Event>, i: nat): nat
    decreases |es|
  {
    if es == [] then 0 else One(QuarantineSeen(s, Apply(s, es[0]), i)) + Quarantines(Apply(s, es[0]), es[1..], i)
  }

  // Every successful claim is paid for by an attempt, a quarantine, or the request still in flight.
  lemma {:induction false} ClaimsConserved(s: Sys, es: seq<Event>, i: nat)
    requires Inv(s) && i < |s.db.items|
    ensures i < |Run(s, es).db.items|
    ensures Claims(s, es, i) + One(s.db.items[i].status == Processing) + s.db.items[i].attemptCount
            == Quarantines(s, es, i) + One(Run(s, es).db.items[i].status == Processing)
                + Run(s, es).db.items[i].attemptCount
    decreases |es|
  {
    hide Inv;
    if es != [] {
      EventRowStep(s, es[0], i);
      StepInv(s, es[0]);
      ClaimsConserved(Apply(s, es[0]), es[1..], i);
    }
  }

  lemma ClaimsAccountedFor(s0: Sys, es: seq<Event>, i: nat)
    requires Initial(s0) && i < |s0.db.items|
    ensures i < |Run(s0, es).db.items|
    ensures var r := Run(s0, es).db.items[i];
            && Claims(s0, es, i) == r.attemptCount + Quarantines(s0, es, i) + One(r.status == Processing)
            && r.attemptCount <= r.maxAttempts && (!Terminal(r.status) ==> r.attemptCount < r.maxAttempts)
  {
    InitialInv(s0);
    ClaimsConserved(s0, es, i);
    RunInv(s0, es);
    assert RowOk(Run(s0, es).db.items[i]);
  }

  // ---- tokens ------------------------------------------------------------------------------------------

  ghost predicate Carries(s: Sys, i: nat, token: Token) {
    i < |s.db.items| && s.db.items[i].token == Some(token)
  }

  ghost predicate TokensUnique(s: Sys) {
    forall i, k, t :: Carries(s, i, t) && Carries(s, k, t) ==> i == k
  }

  // A claim puts a fresh token on row i.
  predicate Stamps(s: Sys, e: Event, i: nat, token: Token) {
    e.SendRequest? && e.token == token && SendOk(s, e.w, token) && PhaseOf(s, e.w).id == i
  }

  lemma TokenStep(s: Sys, e: Event, i: nat, token: Token)
    requires Inv(s) && i < |s.db.items| && |Apply(s, e).db.items| == |s.db.items|
    ensures Carries(Apply(s, e), i, token) ==> Carries(s, i, token) || Stamps(s, e, i, token)
    ensures Carries(s, i, token) ==> token in s.tokens
  {
    assert Carries(s, i, token) ==> token in s.tokens;
    hide Inv;
    if !TouchesItems(e) {
      OthersLeaveItems(s, e);
    } else if e.RecoverAtOnce? || e.RecoverItems? || e.RecoverAndClaim? {
      RecoveryItems(s, e);
    }
  }

  lemma TableKeepsSize(s: Sys, e: Event)
    ensures |Apply(s, e).db.items| == |s.db.items| && s.tokens <= Apply(s, e).tokens
  {
    if !TouchesItems(e) { OthersLeaveItems(s, e); }
    else if e.RecoverAtOnce? || e.RecoverItems? || e.RecoverAndClaim? { RecoveryItems(s, e); }
  }

  lemma UniqueStep(s: Sys, e: Event)
    requires Inv(s) && TokensUnique(s)
    ensures TokensUnique(Apply(s, e))
  {
    hide Inv;
    var s' := Apply(s, e);
    forall i, k, t | Carries(s', i, t) && Carries(s', k, t) ensures i == k {
      TableKeepsSize(s, e);
      TokenStep(s, e, i, t);
      TokenStep(s, e, k, t);
    }
  }

  lemma {:induction false} UniqueRun(s: Sys, es: seq<Event>)
    requires Inv(s) && TokensUnique(s)
    ensures TokensUnique(Run(s, es))
    decreases |es|
  {
    hide Inv;
    hide TokensUnique;
    if es != [] {
      StepInv(s, es[0]);
      UniqueStep(s, es[0]);
      UniqueRun(Apply(s, es[0]), es[1..]);
    }
  }

  // A token once issued and on no row never comes back to any row.
  lemma {:induction false} TokenNeverReturns(s: Sys, es: seq<Event>, token: Token)
    requires Inv(s) && token in s.tokens && (forall i: nat :: !Carries(s, i, token))
    ensures forall i: nat :: !Carries(Run(s, es), i, token)
    decreases |es|
  {
    hide Inv;
    if es != [] {
      var s' := Apply(s, es[0]);
      TableKeepsSize(s, es[0]);
      StepInv(s, es[0]);
      forall i: nat ensures !Carries(s', i, token) {
        if i < |s.db.items| { TokenStep(s, es[0], i, token); }
      }
      TokenNeverReturns(s', es[1..], token);
    }
  }

  // Fencing: two steps of a run that resolve a claim bearing the same token are the same step on the same item.
  lemma TokenResolvedOnce(s0: Sys, es: seq<Event>, token: Token, p: nat, i: nat, q: nat, k: nat)
    requires Initial(s0) && p <= q < |es|
    requires Carries(StateAt(s0, es, p), i, token) && !Carries(StateAt(s0, es, p + 1), i, token)
    requires Carries(StateAt(s0, es, q), k, token) && !Carries(StateAt(s0, es, q + 1), k, token)
    ensures p == q && i == k
  {
    InitialInv(s0);
    RunInv(s0, es[..p]);
    UniqueRun(s0, es[..p]);
    var s := StateAt(s0, es, p);
    var s' := StateAt(s0, es, p + 1);
    assert token in s.tokens;
    StateAfter(s0, es, p);
    hide Inv;
    if p < q {
      TableKeepsSize(s, es[p]);
      StepInv(s, es[p]);
      forall n: nat ensures !Carries(s', n, token) {
        if n < |s.db.items| { TokenStep(s, es[p], n, token); }
      }
      assert es[..q] == es[..p + 1] + es[p + 1..q];
      RunAppend(s0, es[..p + 1], es[p + 1..q]);
      TokenNeverReturns(s', es[p + 1..q], token);
      assert false;
    }
  }

  // ---- spacing of claims ---------------------------------------------------------------------------------

  // The earliest time the row may be claimed again; None when it may be claimed at once.
  function WakeTime(r: Item): Option<Seconds> {
    if r.status == InFlightUnknown then r.recoveryAfter
    else if r.status == RetryRequired then r.nextRetryAt
    else None
  }

  ghost predicate ClaimAt(s: Sys, es: seq<Event>, i: nat, k: nat)
    requires k < |es|
  {
    ClaimSeen(StateAt(s, es, k), StateAt(s, es, k + 1), i)
  }

  ghost predicate ResolveAt(s: Sys, es: seq<Event>, i: nat, k: nat)
    requires k < |es|
  {
    ResolveSeen(StateAt(s, es, k), StateAt(s, es, k + 1), i)
  }

  lemma RowsAreOk(s: Sys, i: nat)
    requires Inv(s) && i < |s.db.items|
    ensures RowOk(s.db.items[i])
  {
  }

  // One event of a run, as seen from one row.
  lemma StepAt(s: Sys, es: seq<Event>, i: nat, k: nat)
    requires Inv(s) && k < |es| && i < |s.db.items|
    ensures var a, b := StateAt(s, es, k), StateAt(s, es, k + 1);
            && i < |a.db.items| == |b.db.items| && a.cfg == b.cfg == s.cfg && a.clock <= b.clock
            && RowOk(a.db.items[i]) && RowOk(b.db.items[i])
            && RowStep(a.db.items[i], b.db.items[i], a.clock, s.cfg.recoveryGrace)
    decreases k
  {
    RunInv(s, es[..k]);
    RunInv(s, es[..k + 1]);
    hide Inv;
    StateAfter(s, es, k);
    if k > 0 { StepAt(s, es, i, k - 1); }
    EventRowStep(StateAt(s, es, k), es[k], i);
    assert Inv(StateAt(s, es, k)) && Inv(StateAt(s, es, k + 1));
    RowsAreOk(StateAt(s, es, k), i);
    RowsAreOk(StateAt(s, es, k + 1), i);
  }

  // Until it is claimed, a row that is not being processed does not change at all.
  lemma {:induction false} UntouchedUntilClaimed(s: Sys, es: seq<Event>, i: nat, a: nat, b: nat)
    requires Inv(s) && i < |s.db.items| && a <= b <= |es|
    requires i < |StateAt(s, es, a).db.items| && StateAt(s, es, a).db.items[i].status != Processing
    requires forall k :: a <= k < b ==> !ClaimAt(s, es, i, k)
    ensures i < |StateAt(s, es, b).db.items| && StateAt(s, es, b).db.items[i] == StateAt(s, es, a).db.items[i]
    ensures forall k :: a <= k < b ==> !ResolveAt(s, es, i, k)
    decreases b
  {
    hide Inv, Apply, Run, RowOk;
    if a < b {
      UntouchedUntilClaimed(s, es, i, a, b - 1);
      StepAt(s, es, i, b - 1);
      assert !ClaimAt(s, es, i, b - 1);
    }
  }

  // A claim that is gone at b was resolved at some first point before b.
  lemma {:induction false} FirstResolution(s: Sys, es: seq<Event>, i: nat, a: nat, b: nat) returns (k: nat)
    requires Inv(s) && i < |s.db.items| && a < b <= |es|
    requires i < |StateAt(s, es, a).db.items| && StateAt(s, es, a).db.items[i].status == Processing
    requires i < |StateAt(s, es, b).db.items| && StateAt(s, es, b).db.items[i].status != Processing
    ensures a <= k < b && ResolveAt(s, es, i, k) && forall m :: a <= m < k ==> !ResolveAt(s, es, i, m)
    decreases b - a
  {
    hide Inv;
    StepAt(s, es, i, a);
    if StateAt(s, es, a + 1).db.items[i].status != Processing {
      k := a;
    } else {
      k := FirstResolution(s, es, i, a + 1, b);
    }
  }

  // Between two consecutive claims of an item exactly one step resolves the first, and the second does not
  // come before the time that step wrote into the row; after a quarantine that is the quarantine's own
  // clock plus the recovery grace.
  lemma BetweenTwoClaims(s: Sys, es: seq<Event>, i: nat, p: nat, q: nat) returns (k: nat)
    requires Inv(s) && i < |s.db.items| && p < q < |es|
    requires ClaimAt(s, es, i, p) && ClaimAt(s, es, i, q) && forall m :: p < m < q ==> !ClaimAt(s, es, i, m)
    ensures p < k < q && forall m :: p < m < q ==> (ResolveAt(s, es, i, m) <==> m == k)
    ensures i < |StateAt(s, es, k + 1).db.items|
    ensures var r := StateAt(s, es, k + 1).db.items[i];
            && (WakeTime(r).Some? ==> WakeTime(r).value <= StateAt(s, es, q).clock)
            && (r.status == InFlightUnknown ==> r.recoveryAfter == Some(StateAt(s, es, k).clock + s.cfg.recoveryGrace))
            && !Terminal(r.status)
  {
    hide Inv, Run, Apply, StateAt, RowOk;
    k := FirstResolution(s, es, i, p + 1, q);
    StepAt(s, es, i, k);
    UntouchedUntilClaimed(s, es, i, k + 1, q);
    StepAt(s, es, i, q);
  }

  lemma {:induction false} ClockGrows(s: Sys, es: seq<Event>, a: nat, b: nat)
    requires a <= b <= |es|
    ensures StateAt(s, es, a).clock <= StateAt(s, es, b).clock
    decreases b
  {
    if a < b {
      ClockGrows(s, es, a, b - 1);
      StateAfter(s, es, b - 1);
      EventKeepsConfig(StateAt(s, es, b - 1), es[b - 1]);
    }
  }

  // After a quarantine at clock c the item is not claimed before c + grace, by anyone.
  lemma {:induction false} QuarantineHolds(s: Sys, es: seq<Event>, i: nat, k: nat, q: nat)
    requires Inv(s) && i < |s.db.items| && k < q < |es|
    requires QuarantineSeen(StateAt(s, es, k), StateAt(s, es, k + 1), i) && ClaimAt(s, es, i, q)
    ensures StateAt(s, es, k).clock + s.cfg.recoveryGrace <= StateAt(s, es, q).clock
    decreases q
  {
    hide Inv;
    StepAt(s, es, i, k);
    if m :| k < m < q && ClaimAt(s, es, i, m) {
      QuarantineHolds(s, es, i, k, m);
      ClockGrows(s, es, m, q);
    } else {
      UntouchedUntilClaimed(s, es, i, k + 1, q);
      StepAt(s, es, i, q);
    }
  }

  // ---- terminal rows ---------------------------------------------------------------------------------------

  // A settled row is never written again.
  lemma {:induction false} TerminalForever(s: Sys, es: seq<Event>, i: nat)
    requires Inv(s) && i < |s.db.items| && Terminal(s.db.items[i].status)
    ensures i < |Run(s, es).db.items| && Run(s, es).db.items[i] == s.db.items[i]
    decreases |es|
  {
    hide Inv;
    if es != [] {
      EventRowStep(s, es[0], i);
      StepInv(s, es[0]);
      TerminalForever(Apply(s, es[0]), es[1..], i);
    }
  }

  predicate CommitOf(s: Sys, e: Event, i: nat) {
    e.Commit? && CommitOk(s, e.w) && PhaseOf(s, e.w).id == i
  }

  // Only an answer that is committed to a row settles it.
  lemma CommitSettles(s: Sys, e: Event, i: nat)
    requires Inv(s) && i < |s.db.items| == |Apply(s, e).db.items|
    ensures !Terminal(s.db.items[i].status) && Terminal(Apply(s, e).db.items[i].status) ==>
              e.Commit? && CommitOf(s, e, i)
  {
    hide Inv;
    if !TouchesItems(e) {
      OthersLeaveItems(s, e);
    } else if e.RecoverAtOnce? || e.RecoverItems? || e.RecoverAndClaim? {
      RecoveryItems(s, e);
    }
  }

  lemma AnswerStored(s: Sys, e: Event, i: nat)
    requires Inv(s) && CommitOf(s, e, i) && i < |s.db.items| && i < |Apply(s, e).db.items|
    ensures AnsweredAs(s.db.items[i], Apply(s, e).db.items[i], e.response.status, e.response.error,
                       s.db.items[i].attemptCount, s.db.items[i].maxAttempts, s.clock, e.delay)
    ensures Apply(s, e).db.items[i].maxAttempts == s.db.items[i].maxAttempts
  {
    CommitMeetsItsSnapshot(s, e.w);
    hide Inv;
  }

  lemma AnswerShows(r: Item, r': Item, answer: Response, now: Seconds, delay: nat)
    requires AnsweredAs(r, r', answer.status, answer.error, r.attemptCount, r.maxAttempts, now, delay)
    ensures r'.maxAttempts == r.maxAttempts
    ensures r'.status == Found <==> answer.status == Found
    ensures r'.status == NotDiscoverable <==> answer.status == NotDiscoverable
  {
  }

  lemma {:induction false} FirstSettled(s: Sys, es: seq<Event>, i: nat, a: nat, b: nat) returns (k: nat)
    requires Inv(s) && i < |s.db.items| && a < b <= |es|
    requires i < |StateAt(s, es, a).db.items| && !Terminal(StateAt(s, es, a).db.items[i].status)
    requires i < |StateAt(s, es, b).db.items| && Terminal(StateAt(s, es, b).db.items[i].status)
    ensures a <= k < b && i < |StateAt(s, es, k).db.items| && i < |StateAt(s, es, k + 1).db.items|
    ensures !Terminal(StateAt(s, es, k).db.items[i].status) && Terminal(StateAt(s, es, k + 1).db.items[i].status)
    decreases b - a
  {
    hide Inv;
    StepAt(s, es, i, a);
    if Terminal(StateAt(s, es, a + 1).db.items[i].status) {
      k := a;
    } else {
      k := FirstSettled(s, es, i, a + 1, b);
    }
  }

  // Where a settled row comes from: an answer committed to it settled it, and the row says what that answer said
  // ever since. In particular an item is FOUND only because the service
  // answered FOUND for it, and NOT_DISCOVERABLE only because it answered that.
  lemma SettledByAnswer(s0: Sys, es: seq<Event>, i: nat) returns (k: nat)
    requires Initial(s0) && i < |s0.db.items| && s0.db.items[i].status == Pending
    requires i < |Run(s0, es).db.items| && Terminal(Run(s0, es).db.items[i].status)
    ensures k < |es| && CommitOf(StateAt(s0, es, k), es[k], i)
    ensures i < |StateAt(s0, es, k).db.items|
    ensures var s, row := StateAt(s0, es, k), Run(s0, es).db.items[i];
            && AnsweredAs(s.db.items[i], row, es[k].response.status, es[k].response.error, s.db.items[i].attemptCount,
                          row.maxAttempts, s.clock, es[k].delay)
            && (row.status == Found <==> es[k].response.status == Found)
            && (row.status == NotDiscoverable <==> es[k].response.status == NotDiscoverable)
  {
    InitialInv(s0);
    assert es[..0] == [] && es[..|es|] == es;
    k := FirstSettled(s0, es, i, 0, |es|);
    RunInv(s0, es[..k]);
    RunInv(s0, es[..k + 1]);
    hide Inv, Apply, CommitOf, AnsweredAs;
    StateAfter(s0, es, k);
    var s, s' := StateAt(s0, es, k), StateAt(s0, es, k + 1);
    TableKeepsSize(s, es[k]);
    CommitSettles(s, es[k], i);
    AnswerStored(s, es[k], i);
    assert es == es[..k + 1] + es[k + 1..];
    RunAppend(s0, es[..k + 1], es[k + 1..]);
    TerminalForever(s', es[k + 1..], i);
    AnswerShows(s.db.items[i], s'.db.items[i], es[k].response, s.clock, es[k].delay);
  }

  // COMPLETED can be trusted, although the check and the mark are separate statements.
  lemma CompletedMeansDone(s: Sys, j: JobId)
    requires Reachable(s) && j in s.db.jobs && s.db.jobs[j].status == JobCompleted
    ensures AllTerminal(s.db.items, j)
  {
    ReachableInv(s);
    assert JobRowOk(s, j);
  }

  // In every reachable state without a row in flight, a job that has unfinished items and nothing due has a
  // wake-up in the future, and from that second on the same row can be claimed by whoever owns the job.
  lemma WakeUpIsClaimable(s: Sys, j: JobId) returns (m: nat)
    requires Reachable(s) && Selection.NoneProcessing(s.db.items, j)
    requires HasUnfinished(s.db.items, j) && !Selection.Due(s.db.items, j, s.clock)
    ensures Selection.NextWake(s.db.items, j).Some? && Selection.NextWake(s.db.items, j).value > s.clock
    ensures forall w, t :: OwnsJob(s.db, j, w, t) ==>
              (ClaimGuard(s.db, m, Some(Owner(j, w)), t) <==> t >= Selection.NextWake(s.db.items, j).value)
    ensures forall t :: t < Selection.NextWake(s.db.items, j).value ==> !Selection.Due(s.db.items, j, t)
  {
    ReachableInv(s);
    m := Selection.NoLostWakeUp(s.db.items, j, s.clock);
    assert forall t :: Selectable(s.db.items[m], t) <==> t >= Selection.NextWake(s.db.items, j).value;
    hide Inv, Reachable, Selectable, Selection.NextWake, Selection.Due;
  }
}
