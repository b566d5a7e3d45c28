// lease_keeper.py: the heartbeat loop and its fail-closed bound. Times are milliseconds; leases are stored as
// whole seconds. A tick is on time and a renewal takes no time.

module LeaseKeeper {

  // A quarter of the lease, as far as it lies between a quarter of a second and ten seconds.
  function Interval(leaseSeconds: nat): (ms: nat)
    ensures 250 <= ms <= 10000
    ensures ms > 250 ==> 4 * ms <= 1000 * leaseSeconds
    ensures ms < 10000 ==> 4 * ms >= 1000 * leaseSeconds
  {
    var quarter := 250 * leaseSeconds;
    var floored := if quarter < 250 then 250 else quarter;
    if floored > 10000 then 10000 else floored
  }

  // What the two renewals of one tick meet: an answer, or an exception that ends the tick.
  datatype Tick = Answers(jobUp: bool, accountUp: bool) | JobRaises | AccountRaises(jobUp: bool)

  // A lease stored at instant t.
  function Until(t: int, leaseSeconds: nat): int { t / 1000 + leaseSeconds }

  predicate Live(until: int, t: int) { until > t / 1000 }

  datatype Keeper = Keeper(at: int, jobUntil: int, accountUntil: int, failures: nat, lost: bool)

  predicate RenewsJob(k: Keeper, tick: Tick) {
    Live(k.jobUntil, k.at) && ((tick.Answers? && tick.jobUp) || (tick.AccountRaises? && tick.jobUp))
  }

  predicate RenewsAccount(k: Keeper, tick: Tick) {
    Live(k.accountUntil, k.at) && tick.Answers? && tick.accountUp
  }

  // One turn of the loop: sleep, renew both, count failures, fail closed.
  function Turn(k: Keeper, tick: Tick, leaseSeconds: nat, limit: int): Keeper {
    if k.lost then k
    else
      var s := k.(at := k.at + Interval(leaseSeconds));
      var jobOk, accountOk := RenewsJob(s, tick), RenewsAccount(s, tick);
      var failures := if jobOk && accountOk then 0 else s.failures + 1;
      Keeper(s.at,
             if jobOk then Until(s.at, leaseSeconds) else s.jobUntil,
             if accountOk then Until(s.at, leaseSeconds) else s.accountUntil,
             failures,
             failures >= limit && failures > 0)
  }

  function Turns(k: Keeper, ticks: seq<Tick>, leaseSeconds: nat, limit: int): Keeper
    decreases |ticks|
  {
    if ticks == [] then k else Turns(Turn(k, ticks[0], leaseSeconds, limit), ticks[1..], leaseSeconds, limit)
  }

  // The number of failures in a row that makes the loop give up: a limit below one acts as one.
  function Allowed(limit: int): int { if limit < 1 then 1 else limit }

  // That many failed intervals fit into a lease of whole seconds.
  predicate Fits(leaseSeconds: nat, limit: int) {
    Allowed(limit) * Interval(leaseSeconds) <= 1000 * (leaseSeconds - 1)
  }

  // The documented configurations: at most three failures, leases of at least four seconds.
  lemma DocumentedConfigurationsFit(leaseSeconds: nat, limit: int)
    requires leaseSeconds >= 4 && limit <= 3
    ensures Fits(leaseSeconds, limit)
  {
  }

  // Both leases were last written no more than the counted failures ago.
  predicate Fresh(k: Keeper, leaseSeconds: nat) {
    var written := k.at - k.failures * Interval(leaseSeconds);
    k.jobUntil >= Until(written, leaseSeconds) && k.accountUntil >= Until(written, leaseSeconds)
  }

  lemma FreshIsLive(k: Keeper, leaseSeconds: nat, limit: int)
    requires Fresh(k, leaseSeconds) && k.failures <= Allowed(limit) && Fits(leaseSeconds, limit)
    ensures Live(k.jobUntil, k.at) && Live(k.accountUntil, k.at)
  {
  }

  lemma TurnKeepsFresh(k: Keeper, tick: Tick, leaseSeconds: nat, limit: int)
    requires Fresh(k, leaseSeconds) && !k.lost && k.failures < Allowed(limit)
    ensures var k' := Turn(k, tick, leaseSeconds, limit);
            && Fresh(k', leaseSeconds) && k'.failures <= Allowed(limit) && (!k'.lost ==> k'.failures < Allowed(limit))
            && k'.at == k.at + Interval(leaseSeconds)
  {
    var i := Interval(leaseSeconds);
    hide Interval;
    assert (k.failures + 1) * i == k.failures * i + i;
  }

  lemma {:induction false} LostStays(k: Keeper, ticks: seq<Tick>, leaseSeconds: nat, limit: int)
    requires k.lost
    ensures Turns(k, ticks, leaseSeconds, limit) == k
    decreases |ticks|
  {
    if ticks != [] { LostStays(k, ticks[1..], leaseSeconds, limit); }
  }

  // Fail closed in time: whatever pattern of failing renewals and exceptions, as long as the loop has not
  // marked the ownership lost, and at the very moment it does, both leases are still live. So the worker is
  // stopped before another one may claim.
  lemma {:induction false} LostBeforeExpiry(k: Keeper, ticks: seq<Tick>, leaseSeconds: nat, limit: int)
    requires Fresh(k, leaseSeconds) && !k.lost && k.failures < Allowed(limit) && Fits(leaseSeconds, limit)
    ensures var k' := Turns(k, ticks, leaseSeconds, limit);
            && Live(k'.jobUntil, k'.at) && Live(k'.accountUntil, k'.at)
            && (!k'.lost ==> k'.at == k.at + |ticks| * Interval(leaseSeconds))
    decreases |ticks|
  {
    hide Turn, Fresh, Fits, Live, Interval;
    if ticks == [] {
      FreshIsLive(k, leaseSeconds, limit);
    } else {
      var k1 := Turn(k, ticks[0], leaseSeconds, limit);
      TurnKeepsFresh(k, ticks[0], leaseSeconds, limit);
      if k1.lost {
        LostStays(k1, ticks[1..], leaseSeconds, limit);
        FreshIsLive(k1, leaseSeconds, limit);
      } else {
        LostBeforeExpiry(k1, ticks[1..], leaseSeconds, limit);
        assert |ticks| * Interval(leaseSeconds) == Interval(leaseSeconds) + |ticks[1..]| * Interval(leaseSeconds);
      }
    }
  }

  // ---- when the loop gives up ----------------------------------------------------------------------------

  predicate Fails(tick: Tick) { tick != Answers(true, true) }

  predicate AllFail(ticks: seq<Tick>, from: nat, n: nat) {
    from + n <= |ticks| && forall i :: from <= i < from + n ==> Fails(ticks[i])
  }

  // Some limit ticks in a row fail, or the first missing ones do, to which as many as needed came before.
  ghost predicate FailsInARow(ticks: seq<Tick>, missing: nat, limit: nat) {
    AllFail(ticks, 0, missing) || exists from: nat :: AllFail(ticks, from, limit)
  }

  lemma RowsShift(ticks: seq<Tick>, missing: nat, limit: nat)
    requires ticks != [] && 1 <= missing <= limit
    ensures FailsInARow(ticks, missing, limit) <==>
              if Fails(ticks[0]) then missing == 1 || FailsInARow(ticks[1..], missing - 1, limit)
              else FailsInARow(ticks[1..], limit, limit)
  {
    var rest := ticks[1..];
    assert forall from: nat, n: nat :: AllFail(rest, from, n) <==> AllFail(ticks, from + 1, n);
    if Fails(ticks[0]) {
      assert AllFail(ticks, 0, missing) <==> AllFail(rest, 0, missing - 1);
      if from: nat :| AllFail(ticks, from, limit) {
        if from == 0 { assert AllFail(ticks, 0, missing); } else { assert AllFail(rest, from - 1, limit); }
      }
    } else if from: nat :| AllFail(ticks, from, limit) {
      assert from > 0;
      assert AllFail(rest, from - 1, limit);
    }
  }

  // While the allowed failures fit into the lease, the loop gives up if and only if so many renewals in a row
  // fail: one success starts the count again, and nothing else ends it.
  lemma {:induction false} GivesUpExactly(k: Keeper, ticks: seq<Tick>, leaseSeconds: nat, limit: int)
    requires Fresh(k, leaseSeconds) && !k.lost && k.failures < Allowed(limit) && Fits(leaseSeconds, limit)
    ensures Turns(k, ticks, leaseSeconds, limit).lost <==>
              FailsInARow(ticks, Allowed(limit) - k.failures, Allowed(limit))
    decreases |ticks|
  {
    if ticks != [] {
      var k1 := Turn(k, ticks[0], leaseSeconds, limit);
      TurnKeepsFresh(k, ticks[0], leaseSeconds, limit);
      RowsShift(ticks, Allowed(limit) - k.failures, Allowed(limit));
      LiveAtTick(k, leaseSeconds, limit);
      assert k1.failures == if Fails(ticks[0]) then k.failures + 1 else 0;
      if k1.lost {
        LostStays(k1, ticks[1..], leaseSeconds, limit);
      } else {
        GivesUpExactly(k1, ticks[1..], leaseSeconds, limit);
      }
    }
  }

  // Both leases are still live when the next tick comes.
  lemma LiveAtTick(k: Keeper, leaseSeconds: nat, limit: int)
    requires Fresh(k, leaseSeconds) && k.failures < Allowed(limit) && Fits(leaseSeconds, limit)
    ensures var t := k.at + Interval(leaseSeconds); Live(k.jobUntil, t) && Live(k.accountUntil, t)
  {
    var later := k.(at := k.at + Interval(leaseSeconds), failures := k.failures + 1);
    assert later.failures * Interval(leaseSeconds) == k.failures * Interval(leaseSeconds) + Interval(leaseSeconds);
    FreshIsLive(later, leaseSeconds, limit);
  }

  // The loop never revives a lease that has expired, whatever answers it gets.
  lemma {:induction false} NeverRevived(k: Keeper, ticks: seq<Tick>, leaseSeconds: nat, limit: int)
    ensures var k' := Turns(k, ticks, leaseSeconds, limit);
            && k'.at >= k.at
            && (!Live(k.jobUntil, k.at) ==> k'.jobUntil == k.jobUntil)
            && (!Live(k.accountUntil, k.at) ==> k'.accountUntil == k.accountUntil)
    decreases |ticks|
  {
    hide Interval;
    if ticks != [] { NeverRevived(Turn(k, ticks[0], leaseSeconds, limit), ticks[1..], leaseSeconds, limit); }
  }

  // ---- the bound is exact ------------------------------------------------------------------------------

  // Both leases as the claim wrote them at some instant.
  function Started(now: int, leaseSeconds: nat): Keeper {
    Keeper(now, Until(now, leaseSeconds), Until(now, leaseSeconds), 0, false)
  }

  // Whatever ticks a just started keeper meets, both leases are live up to the moment it gives up.
  ghost predicate FailsClosedInTime(leaseSeconds: nat, limit: int) {
    forall now: int, ticks: seq<Tick> ::
      var k := Turns(Started(now, leaseSeconds), ticks, leaseSeconds, limit);
      Live(k.jobUntil, k.at) && Live(k.accountUntil, k.at)
  }

  // While every renewal raises, time passes and the leases stay as they were written.
  lemma {:induction false} OnlyFailures(k: Keeper, n: nat, leaseSeconds: nat, limit: int)
    requires !k.lost && k.failures + n <= Allowed(limit)
    ensures var k' := Turns(k, seq(n, _ => JobRaises), leaseSeconds, limit);
            k'.at == k.at + n * Interval(leaseSeconds) && k'.jobUntil == k.jobUntil && k'.accountUntil == k.accountUntil
    decreases n
  {
    if n > 0 {
      var ticks: seq<Tick> := seq(n, _ => JobRaises);
      var k1 := Turn(k, JobRaises, leaseSeconds, limit);
      assert ticks[1..] == seq(n - 1, _ => JobRaises);
      assert n * Interval(leaseSeconds) == Interval(leaseSeconds) + (n - 1) * Interval(leaseSeconds);
      if n > 1 {
        OnlyFailures(k1, n - 1, leaseSeconds, limit);
      } else {
        assert Turns(k1, ticks[1..], leaseSeconds, limit) == k1;
      }
    }
  }

  // The heartbeat loop fails closed in time if and only if the failures it allows fit into the lease.
  lemma FitIsExact(leaseSeconds: nat, limit: int)
    ensures Fits(leaseSeconds, limit) <==> FailsClosedInTime(leaseSeconds, limit)
  {
    if Fits(leaseSeconds, limit) {
      forall now: int, ticks: seq<Tick>
        ensures var k := Turns(Started(now, leaseSeconds), ticks, leaseSeconds, limit);
                Live(k.jobUntil, k.at) && Live(k.accountUntil, k.at)
      {
        LostBeforeExpiry(Started(now, leaseSeconds), ticks, leaseSeconds, limit);
      }
    } else {
      var ticks: seq<Tick> := seq(Allowed(limit), _ => JobRaises);
      OnlyFailures(Started(999, leaseSeconds), Allowed(limit), leaseSeconds, limit);
      var k := Turns(Started(999, leaseSeconds), ticks, leaseSeconds, limit);
      assert !Live(k.jobUntil, k.at);
    }
  }

  // The loop itself, over the ticks that come before the keeper is stopped.
  class Heartbeat {
    const leaseSeconds: nat
    const limit: int
    var at: int
    var jobUntil: int
    var accountUntil: int
    var renewFailures: nat
    var ownershipLost: bool

    constructor (leaseSeconds: nat, limit: int, now: int)
      ensures this.leaseSeconds == leaseSeconds && this.limit == limit
      ensures View() == Started(now, leaseSeconds)
    {
      this.leaseSeconds, this.limit := leaseSeconds, limit;
      at, jobUntil, accountUntil := now, Until(now, leaseSeconds), Until(now, leaseSeconds);
      renewFailures, ownershipLost := 0, false;
    }

    function View(): Keeper
      reads this
    { Keeper(at, jobUntil, accountUntil, renewFailures, ownershipLost) }

    // renew_worker, then renew_account; an exception in the first skips the second.
    method RenewOnce(tick: Tick) returns (ok: bool)
      modifies this`jobUntil, this`accountUntil
      ensures tick.JobRaises? ==> jobUntil == old(jobUntil) && accountUntil == old(accountUntil)
      ensures tick.AccountRaises? ==> accountUntil == old(accountUntil)
      ensures jobUntil != old(jobUntil) ==> Live(old(jobUntil), at)
      ensures accountUntil != old(accountUntil) ==> Live(old(accountUntil), at)
      ensures jobUntil == if RenewsJob(old(View()), tick) then Until(at, leaseSeconds) else old(jobUntil)
      ensures accountUntil == if RenewsAccount(old(View()), tick) then Until(at, leaseSeconds) else old(accountUntil)
      ensures ok == (RenewsJob(old(View()), tick) && RenewsAccount(old(View()), tick))
    {
      ok := true;
      if tick.JobRaises? { return false; }
      if Live(jobUntil, at) && tick.jobUp { jobUntil := Until(at, leaseSeconds); } else { ok := false; }
      if tick.AccountRaises? { return false; }
      if Live(accountUntil, at) && tick.accountUp { accountUntil := Until(at, leaseSeconds); } else { ok := false; }
    }

    method HeartbeatLoop(ticks: seq<Tick>)
      requires !ownershipLost
      modifies this
      ensures View() == Turns(old(View()), ticks, leaseSeconds, limit)
    {
      var i := 0;
      while i < |ticks|
        invariant 0 <= i <= |ticks| && !ownershipLost
        invariant Turns(View(), ticks[i..], leaseSeconds, limit) == Turns(old(View()), ticks, leaseSeconds, limit)
      {
        at := at + Interval(leaseSeconds);
        var ok := RenewOnce(ticks[i]);
        if !ok {
          renewFailures := renewFailures + 1;
          if renewFailures >= limit {
            ownershipLost := true;
            LostStays(View(), ticks[i + 1..], leaseSeconds, limit);
            return;
          }
        } else {
          renewFailures := 0;
        }
        i := i + 1;
      }
    }
  }
}
