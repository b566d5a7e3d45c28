// The selection queries of result_repository.py as functions of the items table, and what they promise.

module Selection {
  import opened Options
  import opened Tables

  // get_next_retry_at: MIN over the retry rows, MIN over the quarantined rows, and the smaller of the two.
  function MinOpt(a: Option<Seconds>, b: Option<Seconds>): Option<Seconds> {
    if a.None? then b else if b.None? || a.value <= b.value then a else b
  }

  function RetryWake(r: Item, j: JobId): Option<Seconds> {
    if r.jobId == j && RetryStatus(r.status) then r.nextRetryAt else None
  }

  function RecoveryWake(r: Item, j: JobId): Option<Seconds> {
    if r.jobId == j && r.status == InFlightUnknown then r.recoveryAfter else None
  }

  function MinRetry(items: seq<Item>, j: JobId): (m: Option<Seconds>)
    ensures m.Some? ==> exists i :: 0 <= i < |items| && RetryWake(items[i], j) == m
    ensures forall i :: 0 <= i < |items| && RetryWake(items[i], j).Some? ==>
        m.Some? && m.value <= RetryWake(items[i], j).value
  {
    if items == [] then None else MinOpt(MinRetry(items[..|items| - 1], j), RetryWake(items[|items| - 1], j))
  }

  function MinRecovery(items: seq<Item>, j: JobId): (m: Option<Seconds>)
    ensures m.Some? ==> exists i :: 0 <= i < |items| && RecoveryWake(items[i], j) == m
    ensures forall i :: 0 <= i < |items| && RecoveryWake(items[i], j).Some? ==>
        m.Some? && m.value <= RecoveryWake(items[i], j).value
  {
    if items == [] then None else MinOpt(MinRecovery(items[..|items| - 1], j), RecoveryWake(items[|items| - 1], j))
  }

  function NextWake(items: seq<Item>, j: JobId): Option<Seconds> {
    MinOpt(MinRetry(items, j), MinRecovery(items, j))
  }

  predicate Due(items: seq<Item>, j: JobId, now: Seconds) {
    exists i :: 0 <= i < |items| && items[i].jobId == j && Selectable(items[i], now)
  }

  predicate NoneProcessing(items: seq<Item>, j: JobId) {
    forall i :: 0 <= i < |items| && items[i].jobId == j ==> items[i].status != Processing
  }

  predicate JobRowsOk(items: seq<Item>, j: JobId) {
    forall i :: 0 <= i < |items| && items[i].jobId == j ==> RowOk(items[i])
  }

  // COUNT(*) of the selectable rows: count_pending_all_statuses.
  function CountDue(items: seq<Item>, j: JobId, now: Seconds): nat {
    if items == [] then 0
    else CountDue(items[..|items| - 1], j, now)
         + if items[|items| - 1].jobId == j && Selectable(items[|items| - 1], now) then 1 else 0
  }

  // COUNT(*) over the job's rows in one status.
  function CountStatus(items: seq<Item>, j: JobId, st: CheckStatus): nat {
    if items == [] then 0
    else CountStatus(items[..|items| - 1], j, st)
         + if items[|items| - 1].jobId == j && items[|items| - 1].status == st then 1 else 0
  }

  lemma UnfinishedNext(items: seq<Item>, n: nat, j: JobId)
    requires n < |items|
    ensures HasUnfinished(items[..n + 1], j) <==>
              HasUnfinished(items[..n], j) || (items[n].jobId == j && !Terminal(items[n].status))
  {
    assert forall i :: 0 <= i < n ==> items[..n + 1][i] == items[..n][i] == items[i];
  }

  // count_pending_all_statuses is positive exactly when next_due_item finds a row.
  lemma {:induction false} CountDueAgrees(items: seq<Item>, j: JobId, now: Seconds)
    ensures CountDue(items, j, now) > 0 <==> Due(items, j, now)
  {
    if items != [] {
      var n := |items| - 1;
      CountDueAgrees(items[..n], j, now);
      if Due(items[..n], j, now) {
        var i :| 0 <= i < n && items[..n][i].jobId == j && Selectable(items[..n][i], now);
        assert items[i].jobId == j && Selectable(items[i], now);
      }
      if Due(items, j, now) && !(items[n].jobId == j && Selectable(items[n], now)) {
        var i :| 0 <= i < |items| && items[i].jobId == j && Selectable(items[i], now);
        assert items[..n][i] == items[i];
      }
    }
  }

  // mark_processing's condition on the row holds from this second on, and not before.
  ghost predicate SelectableFrom(r: Item, wake: Seconds) {
    forall t: Seconds :: Selectable(r, t) <==> t >= wake
  }

  // A row that waits has a time of its own.
  function WakeOf(r: Item): Option<Seconds> {
    if r.status == InFlightUnknown then r.recoveryAfter else if RetryStatus(r.status) then r.nextRetryAt else None
  }

  lemma WaitingRow(items: seq<Item>, j: JobId, now: Seconds, i: nat)
    requires JobRowsOk(items, j) && NoneProcessing(items, j) && !Due(items, j, now)
    requires ItemOf(items, i, j) && !Terminal(items[i].status)
    ensures WakeOf(items[i]).Some? && WakeOf(items[i]).value > now && SelectableFrom(items[i], WakeOf(items[i]).value)
    ensures NextWake(items, j).Some? && NextWake(items, j).value <= WakeOf(items[i]).value
  {
  }

  lemma FirstToWake(items: seq<Item>, j: JobId, now: Seconds) returns (m: nat)
    requires JobRowsOk(items, j) && NoneProcessing(items, j) && HasUnfinished(items, j) && !Due(items, j, now)
    ensures ItemOf(items, m, j) && !Terminal(items[m].status) && WakeOf(items[m]) == NextWake(items, j)
  {
    var i: nat :| i < |items| && items[i].jobId == j && !Terminal(items[i].status);
    WaitingRow(items, j, now, i);
    var wake := NextWake(items, j);
    m :| 0 <= m < |items| && (RetryWake(items[m], j) == wake || RecoveryWake(items[m], j) == wake);
  }

  // No lost wake-up. With no row in flight, a job with unfinished items but nothing due has a next wake-up
  // strictly in the future; nothing is due before it; and from it on one row stays due until it is claimed.
  lemma NoLostWakeUp(items: seq<Item>, j: JobId, now: Seconds) returns (m: nat)
    requires JobRowsOk(items, j) && NoneProcessing(items, j) && HasUnfinished(items, j) && !Due(items, j, now)
    ensures NextWake(items, j).Some? && NextWake(items, j).value > now
    ensures ItemOf(items, m, j) && SelectableFrom(items[m], NextWake(items, j).value)
    ensures forall t: Seconds :: Due(items, j, t) <==> t >= NextWake(items, j).value
  {
    m := FirstToWake(items, j, now);
    WaitingRow(items, j, now, m);
    hide NextWake, RowOk, JobRowsOk, NoneProcessing, WakeOf;
    forall t: Seconds
      ensures Due(items, j, t) <==> t >= NextWake(items, j).value
    {
      if t >= NextWake(items, j).value { assert Selectable(items[m], t); }
      if Due(items, j, t) {
        var k: nat :| k < |items| && items[k].jobId == j && Selectable(items[k], t);
        WaitingRow(items, j, now, k);
      }
    }
  }

  // On any row whatever: one with a wake-up of its own is never selected exactly when it is RATE_LIMITED, a status
  // the wake-up query looks for and the selection does not. No worker stores it (Tables.RowOk).
  lemma WakesButNeverDue(r: Item, j: JobId)
    requires RetryWake(r, j).Some? || RecoveryWake(r, j).Some?
    ensures (forall t: Seconds :: !Selectable(r, t)) <==> r.status == RateLimited
    ensures r.status != RateLimited ==> SelectableFrom(r, WakeOf(r).value)
  {
    assert r.status != RateLimited ==> Selectable(r, WakeOf(r).value);
  }

  // A row in flight is what a wake-up cannot see: when only such rows are unfinished there is nothing due and
  // no wake-up, now or ever.
  lemma OnlyProcessingNeverWakes(items: seq<Item>, j: JobId, now: Seconds)
    requires JobRowsOk(items, j)
    ensures (NextWake(items, j).None? && forall t: Seconds :: !Due(items, j, t)) <==>
            forall i :: 0 <= i < |items| && items[i].jobId == j ==>
                Terminal(items[i].status) || items[i].status == Processing
  {
    if NextWake(items, j).None? && forall t: Seconds :: !Due(items, j, t) {
      forall i | 0 <= i < |items| && items[i].jobId == j
        ensures Terminal(items[i].status) || items[i].status == Processing
      {
        assert RowOk(items[i]) && !Due(items, j, now);
        assert !Selectable(items[i], now);
        assert RetryWake(items[i], j).None? && RecoveryWake(items[i], j).None?;
      }
    } else if forall i :: 0 <= i < |items| && items[i].jobId == j ==>
        Terminal(items[i].status) || items[i].status == Processing {
      assert forall t: Seconds :: !Due(items, j, t);
      assert false;
    }
  }
}
