// main.py: _create_job_with_numbers, from its list of tokens on.

module JobCreation {
  import opened Options
  import opened Tables
  import opened Storage
  import opened Protocol
  import opened Accounting
  import opened Budgets

  type Normalizer = string -> Option<string>

  // ---- which tokens become which rows --------------------------------------------------------------------

  // Token p is a number, and the first with its normal form.
  ghost predicate IsFirst(raws: seq<string>, normalize: Normalizer, p: nat) {
    p < |raws| && normalize(raws[p]).Some? && forall i :: 0 <= i < p ==> normalize(raws[i]) != normalize(raws[p])
  }

  ghost predicate IsInvalid(raws: seq<string>, normalize: Normalizer, p: nat) {
    p < |raws| && normalize(raws[p]).None?
  }

  // Their positions below n, in order.
  ghost function NumbersAt(raws: seq<string>, normalize: Normalizer, n: nat): (at: seq<nat>)
    requires n <= |raws|
    ensures forall a :: 0 <= a < |at| ==> at[a] < n
  {
    if n == 0 then []
    else if IsFirst(raws, normalize, n - 1) then NumbersAt(raws, normalize, n - 1) + [n - 1]
    else NumbersAt(raws, normalize, n - 1)
  }

  ghost function InvalidAt(raws: seq<string>, normalize: Normalizer, n: nat): (at: seq<nat>)
    requires n <= |raws|
    ensures forall a :: 0 <= a < |at| ==> at[a] < n
  {
    if n == 0 then []
    else if IsInvalid(raws, normalize, n - 1) then InvalidAt(raws, normalize, n - 1) + [n - 1]
    else InvalidAt(raws, normalize, n - 1)
  }

  ghost predicate Increasing(at: seq<nat>) {
    forall a, b :: 0 <= a < b < |at| ==> at[a] < at[b]
  }

  // The tokens at the given positions.
  ghost function Pick(raws: seq<string>, at: seq<nat>): (r: seq<string>)
    requires forall a :: 0 <= a < |at| ==> at[a] < |raws|
    ensures |r| == |at|
  {
    seq(|at|, a requires 0 <= a < |at| => raws[at[a]])
  }

  // The positions are exactly the first occurrences and exactly the invalid tokens, each once and in order.
  lemma {:induction false} PositionsAreExact(raws: seq<string>, normalize: Normalizer, n: nat)
    requires n <= |raws|
    ensures var numbers, invalid := NumbersAt(raws, normalize, n), InvalidAt(raws, normalize, n);
            && Increasing(numbers) && (forall p: nat :: p in numbers <==> p < n && IsFirst(raws, normalize, p))
            && Increasing(invalid) && (forall p: nat :: p in invalid <==> p < n && IsInvalid(raws, normalize, p))
    decreases n
  {
    hide IsFirst, IsInvalid;
    if n > 0 { PositionsAreExact(raws, normalize, n - 1); }
  }

  // Every number of the input has a first occurrence.
  lemma {:induction false} FirstExists(raws: seq<string>, normalize: Normalizer, i: nat) returns (p: nat)
    requires i < |raws| && normalize(raws[i]).Some?
    ensures p <= i && IsFirst(raws, normalize, p) && normalize(raws[p]) == normalize(raws[i])
    decreases i
  {
    if k: nat :| k < i && normalize(raws[k]) == normalize(raws[i]) {
      p := FirstExists(raws, normalize, k);
    } else {
      p := i;
    }
  }

  // One row per distinct number and one per invalid token: no two numbers share a normal form, and no normal
  // form of the input is missing.
  lemma NumbersAreDistinctAndComplete(raws: seq<string>, normalize: Normalizer)
    ensures var numbers := Pick(raws, NumbersAt(raws, normalize, |raws|));
            && (forall a, b :: 0 <= a < b < |numbers| ==> normalize(numbers[a]) != normalize(numbers[b]))
            && (forall i :: 0 <= i < |raws| && normalize(raws[i]).Some? ==>
                  exists a :: 0 <= a < |numbers| && normalize(numbers[a]) == normalize(raws[i]))
  {
    var at := NumbersAt(raws, normalize, |raws|);
    var numbers := Pick(raws, at);
    PositionsAreExact(raws, normalize, |raws|);
    forall a, b | 0 <= a < b < |numbers| ensures normalize(numbers[a]) != normalize(numbers[b]) {
      assert at[a] in at && at[b] in at;
      assert IsFirst(raws, normalize, at[b]);
    }
    forall i | 0 <= i < |raws| && normalize(raws[i]).Some?
      ensures exists a :: 0 <= a < |numbers| && normalize(numbers[a]) == normalize(raws[i])
    {
      var p := FirstExists(raws, normalize, i);
      assert p in at;
      var a :| 0 <= a < |at| && at[a] == p;
      assert numbers[a] == raws[p];
    }
  }

  lemma InvalidHasNoNumber(raws: seq<string>, normalize: Normalizer)
    ensures var invalid := Pick(raws, InvalidAt(raws, normalize, |raws|));
            forall a :: 0 <= a < |invalid| ==> normalize(invalid[a]).None?
  {
    var at := InvalidAt(raws, normalize, |raws|);
    PositionsAreExact(raws, normalize, |raws|);
    forall a | 0 <= a < |at| ensures normalize(raws[at[a]]).None? {
      assert at[a] in at;
      assert IsInvalid(raws, normalize, at[a]);
    }
  }

  // The first loop: numbers by first occurrence, invalid tokens all kept.
  method SplitTokens(raws: seq<string>, normalize: Normalizer)
    returns (numbers: seq<string>, keys: seq<Option<string>>, invalid: seq<string>)
    ensures numbers == Pick(raws, NumbersAt(raws, normalize, |raws|))
    ensures invalid == Pick(raws, InvalidAt(raws, normalize, |raws|))
    ensures |keys| == |numbers| && forall a :: 0 <= a < |keys| ==> keys[a] == normalize(numbers[a]) && keys[a].Some?
  {
    var seen: set<string> := {};
    numbers, keys, invalid := [], [], [];
    for i := 0 to |raws|
      invariant forall x :: x in seen <==> exists p :: 0 <= p < i && normalize(raws[p]) == Some(x)
      invariant numbers == Pick(raws, NumbersAt(raws, normalize, i))
          && invalid == Pick(raws, InvalidAt(raws, normalize, i))
      invariant |keys| == |numbers| && forall a :: 0 <= a < |keys| ==> keys[a] == normalize(numbers[a]) && keys[a].Some?
    {
      var norm := normalize(raws[i]);
      if norm.None? {
        invalid := invalid + [raws[i]];
      } else if norm.value !in seen {
        seen := seen + {norm.value};
        numbers := numbers + [raws[i]];
        keys := keys + [norm];
      }
    }
  }

  // ---- the rows --------------------------------------------------------------------------------------------

  function PendingRow(j: JobId, maxAttempts: nat): Item {
    Item(j, Pending, 0, maxAttempts, None, None, None, None, None, None, None)
  }

  function InvalidRow(j: JobId, now: Seconds): Item {
    Item(j, PermanentError, 0, 5, None, None, None, Some(now), None, None, Some(InvalidPhone))
  }

  // The rows one creation adds: a pending row per distinct number, then a settled one per invalid token.
  function CreatedRows(j: JobId, numbers: nat, invalid: nat, maxAttempts: nat, now: Seconds): seq<Item> {
    seq(numbers, _ => PendingRow(j, maxAttempts)) + seq(invalid, _ => InvalidRow(j, now))
  }

  // The rows themselves: unclaimed, pending with the configured number of attempts exactly where there is a
  // number, and settled on the spot where there is none.
  ghost predicate RowsFor(j: JobId, rows: seq<Item>, normalised: seq<Option<string>>, maxAttempts: nat, now: Seconds) {
    && |rows| == |normalised|
    && (forall i :: 0 <= i < |rows| ==>
          FreshItem(rows[i]) && rows[i].jobId == j && (rows[i].status == Pending <==> normalised[i].Some?))
    && (forall i :: 0 <= i < |rows| && normalised[i].Some? ==> rows[i].maxAttempts == maxAttempts)
    && (forall i :: 0 <= i < |rows| && normalised[i].None? ==>
          rows[i].maxAttempts == 5 && rows[i].completedAt == Some(now) && rows[i].lastError == Some(InvalidPhone))
  }

  lemma CreatedRowsFit(j: JobId, keys: seq<Option<string>>, invalid: nat, maxAttempts: nat, now: Seconds)
    requires maxAttempts >= 1 && forall n :: 0 <= n < |keys| ==> keys[n].Some?
    ensures RowsFor(j, CreatedRows(j, |keys|, invalid, maxAttempts, now), keys + seq(invalid, _ => None), maxAttempts,
                    now)
  {
  }

  // The two insert loops.
  method InsertRows(db: Store, j: JobId, numbers: nat, invalid: nat, maxAttempts: nat, now: Seconds)
    modifies db`items
    ensures db.items == old(db.items) + CreatedRows(j, numbers, invalid, maxAttempts, now)
  {
    for i := 0 to numbers
      invariant db.items == old(db.items) + CreatedRows(j, i, 0, maxAttempts, now)
    {
      db.items := db.items + [PendingRow(j, maxAttempts)];
    }
    for i := 0 to invalid
      invariant db.items == old(db.items) + CreatedRows(j, numbers, i, maxAttempts, now)
    {
      db.items := db.items + [InvalidRow(j, now)];
    }
  }

  // What creation may touch: the tables keep their rows, and gain this job's.
  ghost predicate Gained(before: Db, after: Db, j: JobId, rows: seq<Item>) {
    && after.items == before.items + rows && after.accounts == before.accounts
    && j in after.jobs && after.jobs == before.jobs[j := after.jobs[j]]
  }

  // The new job: nobody's, with nothing asked of it.
  predicate Unstarted(r: Job, k: AccountKey) {
    && r.accountKey == k && r.status == Created && r.command == NoCommand
    && r.workerId.None? && r.leaseUntil.None? && r.heartbeatAt.None?
    && r.pauseRequestedAt.None? && r.pausedAt.None? && r.startedAt.None? && r.finishedAt.None?
  }

  // Creation by creation, the tables are the ones the engine's runs start from.
  lemma CreationKeepsFresh(before: Db, after: Db, j: JobId, k: AccountKey, rows: seq<Item>,
                           normalised: seq<Option<string>>, maxAttempts: nat, now: Seconds)
    requires FreshTables(before) && Gained(before, after, j, rows) && RowsFor(j, rows, normalised, maxAttempts, now)
    requires Unstarted(after.jobs[j], k)
    ensures FreshTables(after)
  {
    hide FreshItem;
  }

  lemma {:induction false} TallyForeign(items: seq<Item>, j: JobId)
    requires forall i :: 0 <= i < |items| ==> items[i].jobId != j
    ensures Tally(items, j) == Totals(0, 0, 0, 0, 0, 0)
  {
    if items != [] { TallyForeign(items[..|items| - 1], j); }
  }

  // One more row of the job, pending or settled as invalid.
  lemma TallyLast(items: seq<Item>, r: Item, j: JobId)
    requires r.jobId == j && (r.status == Pending || r.status == PermanentError)
    ensures var t, t' := Tally(items, j), Tally(items + [r], j);
            t' == if r.status == Pending then t.(total := t.total + 1)
                  else t.(total := t.total + 1, processed := t.processed + 1, failed := t.failed + 1)
  {
    assert (items + [r])[..|items|] == items;
  }

  lemma {:induction false} TallyCreated(items: seq<Item>, j: JobId, numbers: nat, invalid: nat, maxAttempts: nat,
                                        now: Seconds)
    requires forall i :: 0 <= i < |items| ==> items[i].jobId != j
    ensures Tally(items + CreatedRows(j, numbers, invalid, maxAttempts, now), j)
            == Totals(numbers + invalid, invalid, 0, 0, invalid, 0)
    decreases numbers + invalid
  {
    hide Tally, RowOk, FreshItem;
    var all := items + CreatedRows(j, numbers, invalid, maxAttempts, now);
    if invalid > 0 {
      var fewer := items + CreatedRows(j, numbers, invalid - 1, maxAttempts, now);
      assert all == fewer + [InvalidRow(j, now)];
      TallyCreated(items, j, numbers, invalid - 1, maxAttempts, now);
      TallyLast(fewer, InvalidRow(j, now), j);
    } else if numbers > 0 {
      var fewer := items + CreatedRows(j, numbers - 1, 0, maxAttempts, now);
      assert all == fewer + [PendingRow(j, maxAttempts)];
      TallyCreated(items, j, numbers - 1, 0, maxAttempts, now);
      TallyLast(fewer, PendingRow(j, maxAttempts), j);
    } else {
      assert all == items;
      TallyForeign(items, j);
    }
  }

  lemma {:induction false} BudgetForeign(items: seq<Item>, j: JobId)
    requires forall i :: 0 <= i < |items| ==> items[i].jobId != j
    ensures Budget(items, j) == 0
  {
    if items != [] { BudgetForeign(items[..|items| - 1], j); }
  }

  lemma BudgetLast(items: seq<Item>, r: Item, j: JobId)
    ensures Budget(items + [r], j) == Budget(items, j) + Left(r, j)
  {
    assert (items + [r])[..|items|] == items;
  }

  // What the numbers may cost: the configured attempts each, and nothing for the invalid tokens.
  lemma {:induction false} BudgetCreated(items: seq<Item>, j: JobId, numbers: nat, invalid: nat, maxAttempts: nat,
                                         now: Seconds)
    requires forall i :: 0 <= i < |items| ==> items[i].jobId != j
    ensures Budget(items + CreatedRows(j, numbers, invalid, maxAttempts, now), j) == numbers * maxAttempts
    decreases numbers + invalid
  {
    hide Budget;
    var all := items + CreatedRows(j, numbers, invalid, maxAttempts, now);
    if invalid > 0 {
      var fewer := items + CreatedRows(j, numbers, invalid - 1, maxAttempts, now);
      assert all == fewer + [InvalidRow(j, now)];
      BudgetCreated(items, j, numbers, invalid - 1, maxAttempts, now);
      BudgetLast(fewer, InvalidRow(j, now), j);
    } else if numbers > 0 {
      var fewer := items + CreatedRows(j, numbers - 1, 0, maxAttempts, now);
      assert all == fewer + [PendingRow(j, maxAttempts)];
      BudgetCreated(items, j, numbers - 1, 0, maxAttempts, now);
      BudgetLast(fewer, PendingRow(j, maxAttempts), j);
      assert numbers * maxAttempts == (numbers - 1) * maxAttempts + maxAttempts;
    } else {
      assert all == items;
      BudgetForeign(items, j);
    }
  }

  // original and normalised are the phone columns of the rows it inserts. A run of the job sends at most the
  // configured attempts per distinct number (Workers.Worker.Process).
  method CreateJob(db: Store, j: JobId, k: AccountKey, raws: seq<string>, normalize: Normalizer, maxAttempts: nat,
                   now: Seconds)
    returns (original: seq<string>, normalised: seq<Option<string>>)
    requires j !in db.jobs && (forall i :: 0 <= i < |db.items| ==> db.items[i].jobId != j) && maxAttempts >= 1
    modifies db`jobs, db`items
    ensures original == Pick(raws, NumbersAt(raws, normalize, |raws|)) + Pick(raws, InvalidAt(raws, normalize, |raws|))
    ensures |normalised| == |original| && forall i :: 0 <= i < |original| ==> normalised[i] == normalize(original[i])
    ensures |old(db.items)| <= |db.items|
    ensures Gained(old(db.View()), db.View(), j, db.items[|old(db.items)|..])
    ensures RowsFor(j, db.items[|old(db.items)|..], normalised, maxAttempts, now)
    ensures Budget(db.items, j) == |NumbersAt(raws, normalize, |raws|)| * maxAttempts
    // the totals written at creation are the ones reconcile_stats computes
    ensures Unstarted(db.jobs[j], k) && db.jobs[j].totals == Tally(db.items, j)
    ensures FreshTables(old(db.View())) ==> FreshTables(db.View())
  {
    var numbers, keys, invalid := SplitTokens(raws, normalize);
    InvalidHasNoNumber(raws, normalize);
    ghost var before := db.View();
    db.jobs := db.jobs[j := Job(k, Created, NoCommand, None, None, None, None, None, None, None,
                                Totals(|numbers| + |invalid|, 0, 0, 0, 0, 0))];
    InsertRows(db, j, |numbers|, |invalid|, maxAttempts, now);
    db.jobs := db.jobs[j := db.jobs[j].(totals := Totals(|numbers| + |invalid|, |invalid|, 0, 0, |invalid|, 0))];
    original, normalised := numbers + invalid, keys + seq(|invalid|, _ => None);
    ghost var rows := CreatedRows(j, |numbers|, |invalid|, maxAttempts, now);
    assert db.items[|before.items|..] == rows;
    assert Gained(before, db.View(), j, rows) && Unstarted(db.jobs[j], k);
    hide *;
    CreatedRowsFit(j, keys, |invalid|, maxAttempts, now);
    TallyCreated(before.items, j, |numbers|, |invalid|, maxAttempts, now);
    BudgetCreated(before.items, j, |numbers|, |invalid|, maxAttempts, now);
    if FreshTables(before) { CreationKeepsFresh(before, db.View(), j, k, rows, normalised, maxAttempts, now); }
  }
}
