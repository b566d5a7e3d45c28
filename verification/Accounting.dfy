// Totals: reconcile_stats of job_repository.py.

module Accounting {
  import opened Tables
  import opened Storage
  import opened Selection

  predicate CountsAsProcessed(st: CheckStatus) { Terminal(st) || RetryStatus(st) }

  // The six aggregates of the SELECT, row by row.
  function Tally(items: seq<Item>, j: JobId): Totals {
    if items == [] then Totals(0, 0, 0, 0, 0, 0)
    else
      var t, r := Tally(items[..|items| - 1], j), items[|items| - 1];
      if r.jobId != j then t
      else
        Totals(t.total + 1,
               if CountsAsProcessed(r.status) then t.processed + 1 else t.processed,
               if r.status == Found then t.found + 1 else t.found,
               if RetryStatus(r.status) then t.retry + 1 else t.retry,
               if r.status == PermanentError then t.failed + 1 else t.failed,
               if r.status == NotDiscoverable then t.notDiscoverable + 1 else t.notDiscoverable)
  }

  // Each aggregate is the count of its statuses, and they partition the table.
  lemma {:induction false} TallyPartitions(items: seq<Item>, j: JobId)
    ensures var t := Tally(items, j);
            && t.found == CountStatus(items, j, Found) && t.failed == CountStatus(items, j, PermanentError)
            && t.notDiscoverable == CountStatus(items, j, NotDiscoverable)
            && t.retry == CountStatus(items, j, RetryRequired) + CountStatus(items, j, TemporaryError)
                          + CountStatus(items, j, RateLimited)
            && t.processed == t.found + t.notDiscoverable + t.failed + t.retry
            && t.total == t.processed + CountStatus(items, j, Pending) + CountStatus(items, j, Processing)
                          + CountStatus(items, j, InFlightUnknown) + CountStatus(items, j, Completed)
  {
    if items != [] { TallyPartitions(items[..|items| - 1], j); }
  }

  // On tables the engine can reach, no row carries the unused COMPLETED status.
  lemma {:induction false} NoCompletedRows(items: seq<Item>, j: JobId)
    requires RowsOk(items)
    ensures CountStatus(items, j, Completed) == CountStatus(items, j, RateLimited)
        == CountStatus(items, j, TemporaryError) == 0
  {
    if items != [] {
      assert RowOk(items[|items| - 1]);
      NoCompletedRows(items[..|items| - 1], j);
    }
  }

  lemma {:induction false} SettledTally(items: seq<Item>, j: JobId)
    ensures Tally(items, j).processed <= Tally(items, j).total && Tally(items, j).retry <= Tally(items, j).processed
    ensures Tally(items, j).processed == Tally(items, j).total && Tally(items, j).retry == 0 <==>
        !HasUnfinished(items, j)
  {
    if items != [] {
      var n := |items| - 1;
      SettledTally(items[..n], j);
      assert items[..n + 1] == items;
      UnfinishedNext(items, n, j);
    }
  }

  // processed counts what has been answered; a job is done when everything is processed and nothing waits.
  lemma {:induction false} ReachableTally(items: seq<Item>, j: JobId)
    requires RowsOk(items)
    ensures var t := Tally(items, j);
            && t.total == t.processed + CountStatus(items, j, Pending) + CountStatus(items, j, Processing)
                          + CountStatus(items, j, InFlightUnknown)
            && (t.processed == t.total && t.retry == 0 <==> !HasUnfinished(items, j))
  {
    TallyPartitions(items, j);
    NoCompletedRows(items, j);
    SettledTally(items, j);
  }

  // The SELECT's six aggregates in one pass, written to the job's row if there is one.
  method ReconcileStats(db: Store, j: JobId)
    modifies db`jobs
    ensures j in old(db.jobs) ==> db.jobs == old(db.jobs)[j := old(db.jobs)[j].(totals := Tally(db.items, j))]
    ensures j !in old(db.jobs) ==> db.jobs == old(db.jobs)
  {
    var total, processed, found, retry, failed, notDiscoverable := 0, 0, 0, 0, 0, 0;
    for i := 0 to |db.items|
      invariant db.jobs == old(db.jobs)
      invariant Totals(total, processed, found, retry, failed, notDiscoverable) == Tally(db.items[..i], j)
    {
      assert db.items[..i + 1][..i] == db.items[..i];
      var r := db.items[i];
      if r.jobId == j {
        total := total + 1;
        match r.status
        case Found => processed, found := processed + 1, found + 1;
        case NotDiscoverable => processed, notDiscoverable := processed + 1, notDiscoverable + 1;
        case PermanentError => processed, failed := processed + 1, failed + 1;
        case RetryRequired => processed, retry := processed + 1, retry + 1;
        case TemporaryError => processed, retry := processed + 1, retry + 1;
        case RateLimited => processed, retry := processed + 1, retry + 1;
        case _ =>
      }
    }
    assert db.items[..|db.items|] == db.items;
    if j in db.jobs {
      db.jobs := db.jobs[j := db.jobs[j].(totals := Totals(total, processed, found, retry, failed, notDiscoverable))];
    }
  }
}
