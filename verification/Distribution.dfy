// webapi/routers/jobs.py: deduplicating an upload and dealing it out to the selected accounts.

module Distribution {
  import opened Options

  // str.strip, str.casefold and normalize_phone (None for PhoneNormalizationError).
  datatype TextLib = TextLib(strip: string -> string, casefold: string -> string, normalize: string -> Option<string>)

  ghost predicate Lawful(lib: TextLib) {
    && (forall s :: lib.strip(lib.strip(s)) == lib.strip(s))
    && (forall s :: lib.normalize(s).Some? ==>
          var n := lib.normalize(s).value; lib.normalize(n) == Some(n) && lib.strip(n) == n && n != "")
  }

  datatype Key = Phone(value: string) | Invalid(value: string)

  predicate Blank(lib: TextLib, raw: string) { lib.strip(raw) == "" }

  function KeyOf(lib: TextLib, raw: string): Key {
    var value := lib.strip(raw);
    if lib.normalize(value).Some? then Phone(lib.normalize(value).value) else Invalid(lib.casefold(value))
  }

  function Output(lib: TextLib, raw: string): string {
    var value := lib.strip(raw);
    if lib.normalize(value).Some? then lib.normalize(value).value else value
  }

  // Two uploads are one target exactly when they normalise to the same number, or when neither is a number and
  // they differ in surrounding blanks and case only.
  lemma SameTarget(lib: TextLib, a: string, b: string)
    ensures KeyOf(lib, a) == KeyOf(lib, b) <==>
              match (lib.normalize(lib.strip(a)), lib.normalize(lib.strip(b)))
              case (Some(x), Some(y)) => x == y
              case (None, None) => lib.casefold(lib.strip(a)) == lib.casefold(lib.strip(b))
              case _ => false
  {
  }

  // The key of an upload; blank ones have none.
  function KeyAt(lib: TextLib, phones: seq<string>, i: nat): Option<Key>
    requires i < |phones|
  {
    if Blank(lib, phones[i]) then None else Some(KeyOf(lib, phones[i]))
  }

  ghost predicate Covered(lib: TextLib, phones: seq<string>, from: seq<nat>, i: nat)
    requires i < |phones| && forall a :: 0 <= a < |from| ==> from[a] < |phones|
  {
    exists a :: 0 <= a < |from| && KeyAt(lib, phones, from[a]) == KeyAt(lib, phones, i)
  }

  ghost predicate FirstAt(lib: TextLib, phones: seq<string>, p: nat) {
    p < |phones| && KeyAt(lib, phones, p).Some? && forall i :: 0 <= i < p ==>
        KeyAt(lib, phones, i) != KeyAt(lib, phones, p)
  }

  // Which of the first n uploads survive: positions in increasing order, each the first with its key, and
  // every key among them has one.
  ghost predicate FirstOccurrences(lib: TextLib, phones: seq<string>, n: nat, from: seq<nat>) {
    && n <= |phones|
    && (forall a, b :: 0 <= a < b < |from| ==> from[a] < from[b])
    && (forall a :: 0 <= a < |from| ==> from[a] < n && FirstAt(lib, phones, from[a]))
    && (forall i :: 0 <= i < n && KeyAt(lib, phones, i).Some? ==> Covered(lib, phones, from, i))
  }

  ghost predicate SeenKeys(lib: TextLib, phones: seq<string>, from: seq<nat>, seen: set<Key>) {
    && (forall a :: 0 <= a < |from| ==> from[a] < |phones|)
    && forall key :: key in seen <==> exists a :: 0 <= a < |from| && KeyAt(lib, phones, from[a]) == Some(key)
  }

  // What survives is passed on in the form the branches store it.
  ghost predicate Outputs(lib: TextLib, phones: seq<string>, from: seq<nat>, result: seq<string>) {
    && |result| == |from| && (forall a :: 0 <= a < |from| ==> from[a] < |phones|)
    && forall a :: 0 <= a < |from| ==> result[a] == Output(lib, phones[from[a]])
  }

  // The positions, below n, of the uploads that are the first with their key.
  ghost function Firsts(lib: TextLib, phones: seq<string>, n: nat): (from: seq<nat>)
    requires n <= |phones|
    ensures forall a :: 0 <= a < |from| ==> from[a] < n
  {
    if n == 0 then []
    else if FirstAt(lib, phones, n - 1) then Firsts(lib, phones, n - 1) + [n - 1]
    else Firsts(lib, phones, n - 1)
  }

  lemma NothingYet(lib: TextLib, phones: seq<string>)
    ensures FirstOccurrences(lib, phones, 0, [])
  {
  }

  lemma Extended(lib: TextLib, phones: seq<string>, i: nat, from: seq<nat>)
    requires FirstOccurrences(lib, phones, i, from) && i < |phones| && KeyAt(lib, phones, i).Some?
    requires forall a :: 0 <= a < |from| ==> KeyAt(lib, phones, from[a]) != KeyAt(lib, phones, i)
    ensures FirstOccurrences(lib, phones, i + 1, from + [i]) && FirstAt(lib, phones, i)
  {
    hide KeyAt;
    var next := from + [i];
    assert forall a :: 0 <= a < |from| ==> next[a] == from[a];
    assert next[|from|] == i;
    forall n | 0 <= n < i + 1 && KeyAt(lib, phones, n).Some? ensures Covered(lib, phones, next, n) {
      if n < i {
        assert Covered(lib, phones, from, n);
        var a :| 0 <= a < |from| && KeyAt(lib, phones, from[a]) == KeyAt(lib, phones, n);
        assert next[a] == from[a];
      }
    }
    forall n | 0 <= n < i ensures KeyAt(lib, phones, n) != KeyAt(lib, phones, i) {
      if KeyAt(lib, phones, n).Some? { assert Covered(lib, phones, from, n); }
    }
    assert FirstAt(lib, phones, i);
  }

  lemma Added(lib: TextLib, phones: seq<string>, i: nat, from: seq<nat>)
    requires FirstOccurrences(lib, phones, i, from) && i < |phones| && FirstAt(lib, phones, i)
    ensures FirstOccurrences(lib, phones, i + 1, from + [i])
  {
    hide KeyAt;
    assert forall a :: 0 <= a < |from| ==> KeyAt(lib, phones, from[a]) != KeyAt(lib, phones, i);
    hide FirstOccurrences;
    Extended(lib, phones, i, from);
  }

  // An upload that is not the first with its key is covered already, or blank.
  lemma Skipped(lib: TextLib, phones: seq<string>, i: nat, from: seq<nat>)
    requires FirstOccurrences(lib, phones, i, from) && i < |phones| && !FirstAt(lib, phones, i)
    ensures FirstOccurrences(lib, phones, i + 1, from)
  {
    hide KeyAt;
    if KeyAt(lib, phones, i).Some? {
      var k :| 0 <= k < i && KeyAt(lib, phones, k) == KeyAt(lib, phones, i);
      assert Covered(lib, phones, from, k);
    }
  }

  lemma {:induction false} FirstsAreFirst(lib: TextLib, phones: seq<string>, n: nat)
    requires n <= |phones|
    ensures FirstOccurrences(lib, phones, n, Firsts(lib, phones, n))
    decreases n
  {
    hide FirstOccurrences, FirstAt, KeyAt;
    if n == 0 {
      NothingYet(lib, phones);
    } else {
      var from := Firsts(lib, phones, n - 1);
      FirstsAreFirst(lib, phones, n - 1);
      if FirstAt(lib, phones, n - 1) { Added(lib, phones, n - 1, from); } else { Skipped(lib, phones, n - 1, from); }
    }
  }

  lemma Unseen(lib: TextLib, phones: seq<string>, i: nat, from: seq<nat>, seen: set<Key>)
    requires SeenKeys(lib, phones, from, seen) && i < |phones| && !Blank(lib, phones[i])
        && KeyOf(lib, phones[i]) !in seen
    ensures forall a :: 0 <= a < |from| ==> KeyAt(lib, phones, from[a]) != KeyAt(lib, phones, i)
  {
  }

  // An upload is the first with its key exactly when its key has not been seen among the firsts before it.
  lemma FirstIffUnseen(lib: TextLib, phones: seq<string>, i: nat, seen: set<Key>)
    requires i < |phones| && SeenKeys(lib, phones, Firsts(lib, phones, i), seen)
    ensures FirstAt(lib, phones, i) <==> !Blank(lib, phones[i]) && KeyOf(lib, phones[i]) !in seen
  {
    var from := Firsts(lib, phones, i);
    FirstsAreFirst(lib, phones, i);
    if !Blank(lib, phones[i]) {
      if KeyOf(lib, phones[i]) in seen {
        var a :| 0 <= a < |from| && KeyAt(lib, phones, from[a]) == Some(KeyOf(lib, phones[i]));
        assert KeyAt(lib, phones, from[a]) == KeyAt(lib, phones, i);
      } else {
        Unseen(lib, phones, i, from, seen);
        Extended(lib, phones, i, from);
      }
    }
  }

  lemma OutputsExtended(lib: TextLib, phones: seq<string>, i: nat, from: seq<nat>, result: seq<string>)
    requires Outputs(lib, phones, from, result) && i < |phones|
    ensures Outputs(lib, phones, from + [i], result + [Output(lib, phones[i])])
  {
  }

  lemma SeenExtended(lib: TextLib, phones: seq<string>, i: nat, from: seq<nat>, seen: set<Key>)
    requires SeenKeys(lib, phones, from, seen) && i < |phones| && !Blank(lib, phones[i])
    ensures SeenKeys(lib, phones, from + [i], seen + {KeyOf(lib, phones[i])})
  {
    var next := from + [i];
    assert forall a :: 0 <= a < |from| ==> next[a] == from[a];
    assert next[|from|] == i;
  }

  method UniqueDistributionInputs(phones: seq<string>, lib: TextLib) returns (result: seq<string>)
    ensures Outputs(lib, phones, Firsts(lib, phones, |phones|), result)
    ensures forall a :: 0 <= a < |result| ==>
              var value := lib.strip(phones[Firsts(lib, phones, |phones|)[a]]);
              result[a] == match lib.normalize(value) case Some(number) => number case None => value
  {
    var seen: set<Key> := {};
    result := [];
    var i := 0;
    assert SeenKeys(lib, phones, Firsts(lib, phones, 0), seen);
    hide SeenKeys, Outputs, KeyAt, FirstAt;
    while i < |phones|
      invariant 0 <= i <= |phones|
      invariant Outputs(lib, phones, Firsts(lib, phones, i), result)
      invariant SeenKeys(lib, phones, Firsts(lib, phones, i), seen)
    {
      FirstIffUnseen(lib, phones, i, seen);
      var value := lib.strip(phones[i]);
      if value != "" {
        var normalized := lib.normalize(value);
        var key, output;
        if normalized.Some? {
          key, output := Phone(normalized.value), normalized.value;
        } else {
          key, output := Invalid(lib.casefold(value)), value;
        }
        if key !in seen {
          SeenExtended(lib, phones, i, Firsts(lib, phones, i), seen);
          OutputsExtended(lib, phones, i, Firsts(lib, phones, i), result);
          seen := seen + {key};
          result := result + [output];
        }
      }
      i := i + 1;
    }
    OutputsSay(lib, phones, Firsts(lib, phones, |phones|), result);
  }

  lemma OutputsSay(lib: TextLib, phones: seq<string>, from: seq<nat>, result: seq<string>)
    requires Outputs(lib, phones, from, result)
    ensures |result| == |from| && forall a :: 0 <= a < |result| ==>
              from[a] < |phones| &&
              var value := lib.strip(phones[from[a]]);
              result[a] == match lib.normalize(value) case Some(number) => number case None => value
  {
  }

  // What is passed on to the branch jobs has the key of the upload it came from, so the branches' own
  // deduplication finds nothing to remove.
  lemma OutputKeepsKey(lib: TextLib, raw: string)
    requires Lawful(lib) && !Blank(lib, raw)
    ensures KeyOf(lib, Output(lib, raw)) == KeyOf(lib, raw) && !Blank(lib, Output(lib, raw))
  {
  }

  ghost predicate HasKey(lib: TextLib, list: seq<string>, key: Key) {
    exists a: nat :: a < |list| && KeyAt(lib, list, a) == Some(key)
  }

  // The deduplicated list has pairwise distinct keys, and exactly the keys of the upload.
  lemma UniqueAndComplete(lib: TextLib, phones: seq<string>, result: seq<string>)
    requires Lawful(lib) && Outputs(lib, phones, Firsts(lib, phones, |phones|), result)
    ensures forall a, b :: 0 <= a < b < |result| ==> KeyAt(lib, result, a) != KeyAt(lib, result, b)
    ensures forall key :: HasKey(lib, result, key) <==> HasKey(lib, phones, key)
  {
    var from := Firsts(lib, phones, |phones|);
    FirstsAreFirst(lib, phones, |phones|);
    forall a | 0 <= a < |result| ensures KeyAt(lib, result, a) == KeyAt(lib, phones, from[a]) {
      assert FirstAt(lib, phones, from[a]);
      OutputKeepsKey(lib, phones[from[a]]);
    }
    forall key ensures HasKey(lib, result, key) <==> HasKey(lib, phones, key) {
      if HasKey(lib, phones, key) {
        var i: nat :| i < |phones| && KeyAt(lib, phones, i) == Some(key);
        assert Covered(lib, phones, from, i);
      }
    }
  }

  // ---- dealing the list out ------------------------------------------------------------------------------

  function BucketSize(n: nat, k: nat, b: nat): nat
    requires k > 0
  {
    n / k + if b < n % k then 1 else 0
  }

  lemma Multiple(d: int, k: int)
    requires k > 0
    ensures d >= 1 ==> d * k >= k
    ensures d <= -1 ==> d * k <= -k
  {
  }

  lemma DivModUnique(n: int, k: int, q: int, r: int)
    requires k > 0 && 0 <= r < k && n == q * k + r
    ensures n / k == q && n % k == r
  {
    var d := n / k - q;
    Multiple(d, k);
    assert d * k == n / k * k - q * k;
  }

  lemma NextIndex(i: nat, k: nat)
    requires k > 0
    ensures i == i / k * k + i % k
    ensures if i % k + 1 < k then (i + 1) / k == i / k && (i + 1) % k == i % k + 1
            else (i + 1) / k == i / k + 1 && (i + 1) % k == 0
  {
    var q, r := i / k, i % k;
    if r + 1 < k { DivModUnique(i + 1, k, q, r + 1); } else { DivModUnique(i + 1, k, q + 1, 0); }
  }

  // The buckets are non-empty, differ in size by at most one, and interleaving them rebuilds the list.
  lemma Balanced(n: nat, k: nat, b: nat, c: nat)
    requires 0 < k <= n && b < k && c < k
    ensures 1 <= BucketSize(n, k, b) <= BucketSize(n, k, c) + 1
  {
    NextIndex(n, k);
  }

  lemma BelowSlice(n: int, k: int, b: int, m: int, q: int, r: int)
    requires n == q * k + r && 0 <= r < k && 0 <= b < k && (m < q || (m == q && b < r))
    ensures m * k + b < n
  {
    Multiple(q - m, k);
    assert (q - m) * k == q * k - m * k;
  }

  lemma SliceIndex(n: nat, k: nat, b: nat, m: nat)
    requires 0 < k && b < k && m < BucketSize(n, k, b)
    ensures m * k + b < n && (m * k + b) / k == m && (m * k + b) % k == b
  {
    NextIndex(n, k);
    BelowSlice(n, k, b, m, n / k, n % k);
    DivModUnique(m * k + b, k, m, b);
  }

  ghost predicate Dealt<T>(values: seq<T>, k: nat, buckets: seq<seq<T>>) {
    && k > 0 && |buckets| == k && (forall b :: 0 <= b < k ==> |buckets[b]| == BucketSize(|values|, k, b))
    && (forall i :: 0 <= i < |values| ==>
          0 <= i % k < k && 0 <= i / k < |buckets[i % k]| && buckets[i % k][i / k] == values[i])
  }

  method Deal<T>(values: seq<T>, k: nat) returns (buckets: seq<seq<T>>)
    requires k > 0
    ensures Dealt(values, k, buckets)
  {
    buckets := seq(k, _ => []);
    var i := 0;
    DivModUnique(0, k, 0, 0);
    while i < |values|
      invariant 0 <= i <= |values| && |buckets| == k
      invariant forall b :: 0 <= b < k ==> |buckets[b]| == BucketSize(i, k, b)
      invariant forall n :: 0 <= n < i ==>
                  0 <= n % k < k && 0 <= n / k < |buckets[n % k]| && buckets[n % k][n / k] == values[n]
    {
      NextIndex(i, k);
      var b := i % k;
      buckets := buckets[b := buckets[b] + [values[i]]];
      i := i + 1;
    }
  }

  // Position m of bucket b is value m * k + b: interleaving the buckets rebuilds the list, and nothing is
  // lost, added or dealt twice.
  lemma BucketIsSlice<T>(values: seq<T>, k: nat, buckets: seq<seq<T>>, b: nat, m: nat)
    requires Dealt(values, k, buckets) && b < k && m < |buckets[b]|
    ensures m * k + b < |values| && buckets[b][m] == values[m * k + b]
  {
    SliceIndex(|values|, k, b, m);
  }

  // No key is dealt to two branches, nor twice to one.
  lemma NoKeyInTwoBranches(lib: TextLib, values: seq<string>, k: nat, buckets: seq<seq<string>>, b: nat, m: nat,
                           c: nat, n: nat)
    requires Dealt(values, k, buckets)
    requires forall i, j :: 0 <= i < j < |values| ==> KeyAt(lib, values, i) != KeyAt(lib, values, j)
    requires b < k && m < |buckets[b]| && c < k && n < |buckets[c]|
    requires KeyAt(lib, buckets[b], m) == KeyAt(lib, buckets[c], n)
    ensures b == c && m == n
  {
    BucketIsSlice(values, k, buckets, b, m);
    BucketIsSlice(values, k, buckets, c, n);
    SliceIndex(|values|, k, b, m);
    SliceIndex(|values|, k, c, n);
    assert KeyAt(lib, values, m * k + b) == KeyAt(lib, values, n * k + c);
  }

  datatype Plan = TooFewAccounts | TooFewTargets | Branches(accounts: seq<nat>, buckets: seq<seq<string>>)

  // dict.fromkeys: first occurrences, in order.
  function FirstIds(ids: seq<nat>): seq<nat> {
    if ids == [] then []
    else
      var before, id := FirstIds(ids[..|ids| - 1]), ids[|ids| - 1];
      if id in before then before else before + [id]
  }

  // x turns up in the list before position q.
  ghost predicate Before(ids: seq<nat>, x: nat, q: nat) {
    exists p: nat :: p < q && p < |ids| && ids[p] == x
  }

  // None twice, none lost, and in the order in which they first turn up.
  lemma {:induction false} FirstIdsDistinct(ids: seq<nat>)
    ensures forall a, b :: 0 <= a < b < |FirstIds(ids)| ==> FirstIds(ids)[a] != FirstIds(ids)[b]
    ensures forall x :: x in FirstIds(ids) <==> x in ids
    ensures forall a, b, q: nat :: 0 <= a < b < |FirstIds(ids)| && q < |ids| && ids[q] == FirstIds(ids)[b] ==>
              Before(ids, FirstIds(ids)[a], q)
  {
    if ids != [] {
      var n := |ids| - 1;
      var shorter, r, r' := ids[..n], FirstIds(ids[..n]), FirstIds(ids);
      FirstIdsDistinct(shorter);
      assert ids == shorter + [ids[n]];
      forall a, b, q: nat | 0 <= a < b < |r'| && q < |ids| && ids[q] == r'[b] ensures Before(ids, r'[a], q) {
        assert r'[a] == r[a] && r[a] in shorter;
        if q < n {
          assert shorter[q] == r'[b] && r'[b] in r;
          assert b < |r|;
          assert Before(shorter, r[a], q);
          var p: nat :| p < q && p < |shorter| && shorter[p] == r[a];
          assert ids[p] == r'[a];
        } else {
          var p: nat :| p < |shorter| && shorter[p] == r[a];
          assert ids[p] == r'[a];
        }
      }
    }
  }

  method DistinctIds(ids: seq<nat>) returns (r: seq<nat>)
    ensures r == FirstIds(ids)
  {
    r := [];
    var i := 0;
    while i < |ids|
      invariant 0 <= i <= |ids| && r == FirstIds(ids[..i])
    {
      assert ids[..i + 1][..i] == ids[..i];
      if ids[i] !in r { r := r + [ids[i]]; }
      i := i + 1;
    }
    assert ids[..|ids|] == ids;
  }

  ghost predicate NoSharedKey(lib: TextLib, buckets: seq<seq<string>>) {
    forall b, m, c, n | 0 <= b < |buckets| && 0 <= m < |buckets[b]| && 0 <= c < |buckets| && 0 <= n < |buckets[c]| ::
      KeyAt(lib, buckets[b], m) == KeyAt(lib, buckets[c], n) ==> b == c && m == n
  }

  // _create_distributed_import_job up to the creation of the branches: min(accounts, targets) balanced
  // buckets of the deduplicated upload, no key in two of them, for the first accounts selected.
  method PlanBranches(accountIds: seq<nat>, phones: seq<string>, lib: TextLib) returns (plan: Plan)
    requires Lawful(lib)
    ensures var ids, firsts := FirstIds(accountIds), Firsts(lib, phones, |phones|);
            match plan
            case TooFewAccounts => |ids| < 2
            case TooFewTargets => |ids| >= 2 && |firsts| < 2
            case Branches(accounts, buckets) =>
              && 2 <= |accounts| == |buckets| && |accounts| == (if |ids| <= |firsts| then |ids| else |firsts|)
              && accounts == ids[..|accounts|] && NoSharedKey(lib, buckets)
              && (exists values :: Outputs(lib, phones, firsts, values) && Dealt(values, |buckets|, buckets))
              && (forall b, c :: 0 <= b < |buckets| && 0 <= c < |buckets| ==> 1 <= |buckets[b]| <= |buckets[c]| + 1)
  {
    var ids := DistinctIds(accountIds);
    var unique := UniqueDistributionInputs(phones, lib);
    if |ids| < 2 { return TooFewAccounts; }
    if |unique| < 2 { return TooFewTargets; }
    var k := if |ids| <= |unique| then |ids| else |unique|;
    var buckets := Deal(unique, k);
    forall b, c | 0 <= b < k && 0 <= c < k ensures 1 <= |buckets[b]| <= |buckets[c]| + 1 {
      Balanced(|unique|, k, b, c);
    }
    UniqueAndComplete(lib, phones, unique);
    forall b: nat, m: nat, c: nat, n: nat | b < k && m < |buckets[b]| && c < k && n < |buckets[c]|
      && KeyAt(lib, buckets[b], m) == KeyAt(lib, buckets[c], n)
      ensures b == c && m == n
    {
      NoKeyInTwoBranches(lib, unique, k, buckets, b, m, c, n);
    }
    plan := Branches(ids[..k], buckets);
  }
}
