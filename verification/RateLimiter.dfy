// rate_limiter.py: one account's limiter, its persisted cooldown, and runs of it with restarts.
// Wall-clock times are milliseconds; the stored cooldown is an ISO text, that is, whole seconds.
module RateLimiter {
  import opened Options
  import opened Outside

  // isoformat(timespec="seconds") drops the fraction of the second.
  function WholeSeconds(ms: int): int { ms / 1000 }

  function Max(a: int, b: int): (m: int)
    ensures m >= a && m >= b && (m == a || m == b)
  {
    if a >= b then a else b
  }

  // In-memory fields and the account_runtime_state row.
  datatype Limiter = Limiter(blockedUntil: Option<int>, lastRequestAt: Option<int>, stored: Option<int>)

  function Reloaded(l: Limiter, now: int): Limiter {
    if l.stored.Some? && l.stored.value * 1000 > now then l.(blockedUntil := Some(l.stored.value * 1000))
    else if l.blockedUntil.None? || now >= l.blockedUntil.value then l.(blockedUntil := None)
    else l
  }

  function Checked(l: Limiter, now: int): Limiter {
    if l.blockedUntil.Some? && now >= l.blockedUntil.value then l.(blockedUntil := None, stored := None) else l
  }

  function Flooded(l: Limiter, seconds: int, now: int): Limiter {
    var until := now + 1000 * Max(0, seconds);
    l.(blockedUntil := Some(until), stored := Some(WholeSeconds(until)))
  }

  function Acquired(l: Limiter, now: int): Limiter {
    var r := Reloaded(l, now);
    if r.blockedUntil.Some? then r.(blockedUntil := None, stored := None) else r
  }

  // The earliest instant at which acquire may return.
  function Ready(l: Limiter, now: int, minInterval: Option<nat>): int {
    var r := Reloaded(l, now);
    var t := if r.blockedUntil.Some? then Max(now, r.blockedUntil.value) else now;
    if minInterval.Some? && l.lastRequestAt.Some? then Max(t, l.lastRequestAt.value + minInterval.value) else t
  }

  // A process dies and another starts: memory is gone, the row is not.
  function Restarted(l: Limiter): Limiter { Limiter(None, None, l.stored) }

  class RuntimeRow {
    var blockedUntil: Option<int>

    constructor ()
      ensures blockedUntil == None
    {
      blockedUntil := None;
    }
  }

  class RateLimitManager {
    const minInterval: Option<nat>
    const row: RuntimeRow
    var blockedUntil: Option<int>
    var lastRequestAt: Option<int>

    function View(): Limiter
      reads this, row
    {
      Limiter(blockedUntil, lastRequestAt, row.blockedUntil)
    }

    constructor (minInterval: Option<nat>, row: RuntimeRow)
      ensures this.minInterval == minInterval && this.row == row
      ensures View() == Restarted(Limiter(None, None, row.blockedUntil)) && row.blockedUntil == old(row.blockedUntil)
    {
      this.minInterval := minInterval;
      this.row := row;
      this.blockedUntil := None;
      this.lastRequestAt := None;
    }

    method ReloadFromDb(now: int)
      modifies this`blockedUntil
      ensures View() == Reloaded(old(View()), now)
    {
      if row.blockedUntil.Some? {
        var epoch := row.blockedUntil.value * 1000;
        if epoch > now {
          blockedUntil := Some(epoch);
          return;
        }
      }
      if blockedUntil.None? || now >= blockedUntil.value { blockedUntil := None; }
    }

    method IsBlocked(now: int) returns (blocked: bool)
      modifies this`blockedUntil, row
      ensures View() == Checked(old(View()), now)
      ensures blocked == (old(blockedUntil).Some? && now < old(blockedUntil).value)
      ensures if blocked || old(blockedUntil).None? then View() == old(View())
              else blockedUntil.None? && row.blockedUntil.None? && lastRequestAt == old(lastRequestAt)
    {
      if blockedUntil.None? { return false; }
      if now < blockedUntil.value { return true; }
      blockedUntil := None;
      row.blockedUntil := None;
      return false;
    }

    method RemainingBlock(now: int) returns (ms: int)
      ensures ms == if blockedUntil.Some? then Max(0, blockedUntil.value - now) else 0
    {
      if blockedUntil.None? { return 0; }
      ms := Max(0, blockedUntil.value - now);
    }

    method Acquire(world: World)
      requires world.Calm()
      modifies this`blockedUntil, row, world, world.db
      ensures View() == Acquired(old(View()), old(world.now))
      ensures world.now >= Ready(old(View()), old(world.now), minInterval)
      ensures world.Calm() && world.Since()
    {
      ReloadFromDb(world.now);
      while blockedUntil.Some? && world.now < blockedUntil.value
        invariant View() == Reloaded(old(View()), old(world.now)) && world.Calm() && world.Since()
        decreases if blockedUntil.Some? then blockedUntil.value - world.now else 0
      {
        var left := blockedUntil.value - world.now;
        world.Sleep(if left <= 1000 then left else 1000);
      }
      if blockedUntil.Some? {
        blockedUntil := None;
        row.blockedUntil := None;
      }
      if minInterval.Some? && lastRequestAt.Some? {
        var elapsed := world.now - lastRequestAt.value;
        var wait := minInterval.value - elapsed;
        if wait > 0 { world.Sleep(wait); }
      }
    }

    method RegisterSuccess(now: int)
      modifies this`lastRequestAt
      ensures View() == old(View()).(lastRequestAt := Some(now))
    {
      lastRequestAt := Some(now);
    }

    method RegisterRateLimit(seconds: int, now: int)
      modifies this`blockedUntil, row
      ensures View() == Flooded(old(View()), seconds, now)
    {
      blockedUntil := Some(now + 1000 * (if seconds > 0 then seconds else 0));
      row.blockedUntil := Some(WholeSeconds(blockedUntil.value));
    }
  }

  // ---- runs of one limiter with restarts ---------------------------------------------------------------

  datatype Op = Pass(d: nat) | Initialize | Check | Acquire(late: nat) | Success | Flood(seconds: int) | Restart

  datatype Sys = Sys(now: int, limiter: Limiter)

  function Step(s: Sys, op: Op, minInterval: Option<nat>): Sys {
    match op
    case Pass(d) => s.(now := s.now + d)
    case Initialize => s.(limiter := Reloaded(s.limiter, s.now))
    case Check => s.(limiter := Checked(s.limiter, s.now))
    case Acquire(late) => Sys(Ready(s.limiter, s.now, minInterval) + late, Acquired(s.limiter, s.now))
    case Success => s.(limiter := s.limiter.(lastRequestAt := Some(s.now)))
    case Flood(seconds) => s.(limiter := Flooded(s.limiter, seconds, s.now))
    case Restart => s.(limiter := Restarted(s.limiter))
  }

  function Run(s: Sys, ops: seq<Op>, minInterval: Option<nat>): Sys
    decreases |ops|
  {
    if ops == [] then s else Run(Step(s, ops[0], minInterval), ops[1..], minInterval)
  }

  // The stored deadline, in milliseconds: never later than the real one, and less than a second earlier.
  function Deadline(now: int, seconds: int): int { WholeSeconds(now + 1000 * Max(0, seconds)) * 1000 }

  ghost predicate Guarded(s: Sys, deadline: int) {
    s.now < deadline ==>
      && s.limiter.stored.Some? && s.limiter.stored.value * 1000 == deadline
      && (s.limiter.blockedUntil.Some? ==> s.limiter.blockedUntil.value >= deadline)
  }

  lemma {:induction false} GuardedRun(s: Sys, ops: seq<Op>, minInterval: Option<nat>, deadline: int)
    requires Guarded(s, deadline) && forall i :: 0 <= i < |ops| ==> !ops[i].Flood?
    ensures Guarded(Run(s, ops, minInterval), deadline)
    decreases |ops|
  {
    if ops != [] {
      assert !ops[0].Flood?;
      GuardedRun(Step(s, ops[0], minInterval), ops[1..], minInterval, deadline);
    }
  }

  lemma {:induction false} RunAppend(s: Sys, a: seq<Op>, b: seq<Op>, minInterval: Option<nat>)
    ensures Run(s, a + b, minInterval) == Run(Run(s, a, minInterval), b, minInterval)
    decreases |a|
  {
    if a == [] {
      assert a + b == b;
    } else {
      assert (a + b)[1..] == a[1..] + b;
      RunAppend(Step(s, a[0], minInterval), a[1..], b, minInterval);
    }
  }

  // A FloodWait survives restarts: after the last register_rate_limit(seconds), however the limiter is then
  // used, polled, dropped and rebuilt, no acquire returns before the stored deadline.
  lemma FloodWaitSurvives(s: Sys, seconds: int, ops: seq<Op>, late: nat, minInterval: Option<nat>)
    requires forall i :: 0 <= i < |ops| ==> !ops[i].Flood?
    ensures Run(s, [Flood(seconds)] + ops + [Acquire(late)], minInterval).now >= Deadline(s.now, seconds)
  {
    var s1 := Step(s, Flood(seconds), minInterval);
    var deadline := Deadline(s.now, seconds);
    GuardedRun(s1, ops, minInterval, deadline);
    RunAppend(s, [Flood(seconds)] + ops, [Acquire(late)], minInterval);
    assert ([Flood(seconds)] + ops)[1..] == ops;
    var m := Run(s1, ops, minInterval);
    assert Run(m, [Acquire(late)], minInterval) == Run(Step(m, Acquire(late), minInterval), [], minInterval);
  }

  // What a restarted limiter reloads is the deadline in force, truncated: never later, under a second earlier.
  lemma ReloadedDeadline(s: Sys, seconds: int, ops: seq<Op>, minInterval: Option<nat>)
    requires forall i :: 0 <= i < |ops| ==> !ops[i].Flood?
    ensures var m := Run(Step(s, Flood(seconds), minInterval), ops, minInterval);
            m.now < Deadline(s.now, seconds) ==>
              Step(Step(m, Restart, minInterval), Initialize, minInterval).limiter.blockedUntil
                  == Some(Deadline(s.now, seconds))
    ensures Deadline(s.now, seconds) <= s.now + 1000 * Max(0, seconds) < Deadline(s.now, seconds) + 1000
  {
    GuardedRun(Step(s, Flood(seconds), minInterval), ops, minInterval, Deadline(s.now, seconds));
  }

  lemma {:induction false} LastRequestKept(s: Sys, ops: seq<Op>, minInterval: Option<nat>)
    requires forall i :: 0 <= i < |ops| ==> !ops[i].Success? && !ops[i].Restart?
    ensures Run(s, ops, minInterval).limiter.lastRequestAt == s.limiter.lastRequestAt
    decreases |ops|
  {
    if ops != [] {
      assert !ops[0].Success? && !ops[0].Restart?;
      LastRequestKept(Step(s, ops[0], minInterval), ops[1..], minInterval);
    }
  }

  // Pacing: without a restart, no request starts within min_interval of the last response.
  lemma MinIntervalHolds(s: Sys, ops: seq<Op>, late: nat, gap: nat)
    requires forall i :: 0 <= i < |ops| ==> !ops[i].Success? && !ops[i].Restart?
    ensures Run(s, [Success] + ops + [Acquire(late)], Some(gap)).now >= s.now + gap
  {
    var s1 := Step(s, Success, Some(gap));
    LastRequestKept(s1, ops, Some(gap));
    RunAppend(s, [Success] + ops, [Acquire(late)], Some(gap));
    assert ([Success] + ops)[1..] == ops;
    var m := Run(s1, ops, Some(gap));
    assert Run(m, [Acquire(late)], Some(gap)) == Run(Step(m, Acquire(late), Some(gap)), [], Some(gap));
  }
}
