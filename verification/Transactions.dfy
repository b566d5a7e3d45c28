// database.py: the depth-counted transaction() block, with the commit() calls of the repositories deferred
// inside it. A program here is what a caller does with one connection; which statement runs next never
// depends on the data, so what a program writes and how it ends can be said without any database at all.

module Transactions {

  datatype Program =
    | Skip
    | Write(key: nat, value: int)                  // execute() of one statement
    | WriteMany(rows: seq<(nat, int)>)             // executemany()
    | Commit                                       // commit()
    | Raise                                        // an ordinary exception
    | Interrupt                                    // a BaseException: KeyboardInterrupt, CancelledError
    | Seq(first: Program, second: Program)
    | Try(body: Program, handler: Program)         // try / except Exception
    | Atomic(body: Program)                        // with db.transaction()

  datatype Outcome = Done | Raised | Interrupted

  type Table = map<nat, int>

  // What other connections see, what this one sees, and _transaction_depth.
  datatype Conn = Conn(committed: Table, working: Table, depth: nat)

  function Written(t: Table, rows: seq<(nat, int)>): Table
    decreases |rows|
  {
    if rows == [] then t else Written(t[rows[0].0 := rows[0].1], rows[1..])
  }

  // No later row of the batch writes the same key.
  predicate LastOf(rows: seq<(nat, int)>, i: nat)
    requires i < |rows|
  {
    forall n :: i < n < |rows| ==> rows[n].0 != rows[i].0
  }

  // A batch gives every key it writes its last value, and no other key a new one.
  lemma {:induction false} WrittenShows(t: Table, rows: seq<(nat, int)>)
    ensures forall i :: 0 <= i < |rows| && LastOf(rows, i) ==>
              rows[i].0 in Written(t, rows) && Written(t, rows)[rows[i].0] == rows[i].1
    ensures forall k :: (forall i :: 0 <= i < |rows| ==> rows[i].0 != k) ==>
              (k in Written(t, rows) <==> k in t) && (k in t ==> Written(t, rows)[k] == t[k])
    decreases |rows|
  {
    if rows != [] {
      var t', rest := t[rows[0].0 := rows[0].1], rows[1..];
      WrittenShows(t', rest);
      forall i | 0 <= i < |rows| && LastOf(rows, i)
        ensures rows[i].0 in Written(t, rows) && Written(t, rows)[rows[i].0] == rows[i].1
      {
        if i > 0 { assert rest[i - 1] == rows[i] && LastOf(rest, i - 1); }
      }
    }
  }

  // ---- the implementation --------------------------------------------------------------------------------

  function Committed(c: Conn): Conn { if c.depth > 0 then c else c.(committed := c.working) }

  function Exec(p: Program, c: Conn): (r: (Conn, Outcome))
    ensures r.0.depth >= c.depth && (r.1 != Interrupted ==> r.0.depth == c.depth)
  {
    match p
    case Skip => (c, Done)
    case Write(k, v) => (c.(working := c.working[k := v]), Done)
    case WriteMany(rows) => (Committed(c.(working := Written(c.working, rows))), Done)
    case Commit => (Committed(c), Done)
    case Raise => (c, Raised)
    case Interrupt => (c, Interrupted)
    case Seq(a, b) =>
      var (c1, o) := Exec(a, c);
      if o.Done? then Exec(b, c1) else (c1, o)
    case Try(a, h) =>
      var (c1, o) := Exec(a, c);
      if o.Raised? then Exec(h, c1) else (c1, o)
    case Atomic(a) =>
      var (c1, o) := Exec(a, c.(depth := c.depth + 1));
      if o.Interrupted? then (c1, o)
      else
        var c2 := c1.(depth := c1.depth - 1);
        if c.depth > 0 then (c2, o)
        else if o.Done? then (c2.(committed := c2.working), o)
        else (c2.(working := c2.committed), o)
  }

  // The connection as an object, running programs statement by statement.
  class Database {
    var committed: Table
    var working: Table
    var depth: nat

    constructor ()
      ensures View() == Conn(map[], map[], 0)
    {
      committed, working, depth := map[], map[], 0;
    }

    function View(): Conn
      reads this
    { Conn(committed, working, depth) }

    method Execute(key: nat, value: int)
      modifies this
      ensures View() == old(View()).(working := old(working)[key := value])
    {
      working := working[key := value];
    }

    // Every row of the batch arrives, the last value of a key counts, and outside a block others see it at once.
    method ExecuteMany(rows: seq<(nat, int)>)
      modifies this
      ensures View() == Committed(old(View()).(working := Written(old(working), rows)))
      ensures forall i :: 0 <= i < |rows| && LastOf(rows, i) ==>
                rows[i].0 in working && working[rows[i].0] == rows[i].1
      ensures forall k :: (forall i :: 0 <= i < |rows| ==> rows[i].0 != k) ==>
                (k in working <==> k in old(working)) && (k in working ==> working[k] == old(working)[k])
      ensures depth == old(depth) && committed == if depth == 0 then working else old(committed)
    {
      var i := 0;
      while i < |rows|
        invariant 0 <= i <= |rows| && committed == old(committed) && depth == old(depth)
        invariant Written(working, rows[i..]) == Written(old(working), rows)
      {
        working := working[rows[i].0 := rows[i].1];
        i := i + 1;
      }
      WrittenShows(old(working), rows);
      if depth == 0 { committed := working; }
    }

    method DoCommit()
      modifies this
      ensures View() == Committed(old(View()))
      ensures working == old(working) && depth == old(depth)
      ensures committed == if old(depth) == 0 then old(working) else old(committed)
    {
      if depth > 0 { return; }
      committed := working;
    }

    method Run(p: Program) returns (o: Outcome)
      modifies this
      ensures (View(), o) == Exec(p, old(View()))
      decreases p
    {
      o := Done;
      match p
      case Skip =>
      case Write(k, v) => Execute(k, v);
      case WriteMany(rows) => ExecuteMany(rows);
      case Commit => DoCommit();
      case Raise => o := Raised;
      case Interrupt => o := Interrupted;
      case Seq(a, b) =>
        o := Run(a);
        if o.Done? { o := Run(b); }
      case Try(a, h) =>
        o := Run(a);
        if o.Raised? { o := Run(h); }
      case Atomic(a) =>
        var outermost := depth == 0;
        depth := depth + 1;
        o := Run(a);
        match o
        case Interrupted =>
        case Raised =>
          depth := depth - 1;
          if outermost { working := committed; }
        case Done =>
          depth := depth - 1;
          if outermost { committed := working; }
    }
  }

  // ---- the meaning of a program, with no connection, no depth and no commits ------------------------------

  function Result(p: Program): Outcome {
    match p
    case Raise => Raised
    case Interrupt => Interrupted
    case Seq(a, b) => if Result(a).Done? then Result(b) else Result(a)
    case Try(a, h) => if Result(a).Raised? then Result(h) else Result(a)
    case Atomic(a) => Result(a)
    case _ => Done
  }

  // The rows written up to the point where the program ends.
  function Writes(p: Program): seq<(nat, int)> {
    match p
    case Write(k, v) => [(k, v)]
    case WriteMany(rows) => rows
    case Seq(a, b) => if Result(a).Done? then Writes(a) + Writes(b) else Writes(a)
    case Try(a, h) => if Result(a).Raised? then Writes(a) + Writes(h) else Writes(a)
    case Atomic(a) => Writes(a)
    case _ => []
  }

  // Blocks still counted as open when a BaseException has passed through them.
  function Leaks(p: Program): nat {
    match p
    case Seq(a, b) => if Result(a).Done? then Leaks(b) else Leaks(a)
    case Try(a, h) => if Result(a).Raised? then Leaks(h) else Leaks(a)
    case Atomic(a) => if Result(a).Interrupted? then Leaks(a) + 1 else 0
    case _ => 0
  }

  lemma {:induction false} WrittenAppend(t: Table, a: seq<(nat, int)>, b: seq<(nat, int)>)
    ensures Written(t, a + b) == Written(Written(t, a), b)
    decreases |a|
  {
    if a == [] {
      assert a + b == b;
    } else {
      assert (a + b)[1..] == a[1..] + b;
      WrittenAppend(t[a[0].0 := a[0].1], a[1..], b);
    }
  }

  // How a program ends, and the depth it leaves behind, whatever the connection.
  lemma {:induction false} ExecEnds(p: Program, c: Conn)
    ensures Exec(p, c).1 == Result(p) && Exec(p, c).0.depth == c.depth + Leaks(p)
    ensures !Result(p).Interrupted? ==> Leaks(p) == 0
    decreases p
  {
    match p
    case Seq(a, b) => ExecEnds(a, c); ExecEnds(b, Exec(a, c).0);
    case Try(a, h) => ExecEnds(a, c); ExecEnds(h, Exec(a, c).0);
    case Atomic(a) => ExecEnds(a, c.(depth := c.depth + 1));
    case _ =>
  }

  // Inside a block nothing is committed and nothing is rolled back: exactly the program's writes are pending.
  lemma {:induction false} InsideBlock(p: Program, c: Conn)
    requires c.depth > 0
    ensures Exec(p, c) == (Conn(c.committed, Written(c.working, Writes(p)), c.depth + Leaks(p)), Result(p))
    decreases p
  {
    ExecEnds(p, c);
    match p
    case Seq(a, b) =>
      InsideBlock(a, c);
      InsideBlock(b, Exec(a, c).0);
      WrittenAppend(c.working, Writes(a), Writes(b));
    case Try(a, h) =>
      InsideBlock(a, c);
      InsideBlock(h, Exec(a, c).0);
      WrittenAppend(c.working, Writes(a), Writes(h));
    case Atomic(a) => InsideBlock(a, c.(depth := c.depth + 1));
    case _ =>
  }

  // The blocks a program opens.
  function Blocks(p: Program): nat {
    match p
    case Seq(a, b) => Blocks(a) + Blocks(b)
    case Try(a, h) => Blocks(a) + Blocks(h)
    case Atomic(a) => Blocks(a) + 1
    case _ => 0
  }

  // Outside any block the connection itself sees every write at once, and nothing is ever rolled back.
  lemma {:induction false} WithoutBlocks(p: Program, c: Conn)
    requires c.depth == 0 && Blocks(p) == 0
    ensures var (c', o) := Exec(p, c); c'.working == Written(c.working, Writes(p)) && c'.depth == 0 && o == Result(p)
    decreases p
  {
    match p
    case Seq(a, b) =>
      WithoutBlocks(a, c);
      WithoutBlocks(b, Exec(a, c).0);
      WrittenAppend(c.working, Writes(a), Writes(b));
    case Try(a, h) =>
      WithoutBlocks(a, c);
      WithoutBlocks(h, Exec(a, c).0);
      WrittenAppend(c.working, Writes(a), Writes(h));
    case _ =>
  }

  // A repository write outside a block: its statements, then commit(), and other connections see all of it.
  // The same statements and commit() inside a block show nothing until the block ends.
  lemma CommitPublishes(p: Program, c: Conn)
    requires Result(p).Done?
    ensures c.depth == 0 ==> Exec(Seq(p, Commit), c).0.committed == Exec(p, c).0.working
    ensures c.depth == 0 && Blocks(p) == 0 ==>
              Exec(Seq(p, Commit), c) == (Conn(Written(c.working, Writes(p)), Written(c.working, Writes(p)), 0), Done)
    ensures c.depth > 0 ==>
              Exec(Seq(p, Commit), c) == (Conn(c.committed, Written(c.working, Writes(p)), c.depth), Done)
  {
    ExecEnds(p, c);
    if c.depth > 0 {
      InsideBlock(Seq(p, Commit), c);
      assert Writes(p) + [] == Writes(p);
    } else if Blocks(p) == 0 {
      WithoutBlocks(p, c);
    }
  }

  // The outermost block applies all its writes, whatever blocks, commits, raises and catches it contains,
  // or, when an exception leaves it, none.
  lemma OutermostIsAtomic(p: Program, c: Conn)
    requires c.depth == 0 && !Result(p).Interrupted?
    ensures var (c', o) := Exec(Atomic(p), c);
            && o == Result(p) && c'.depth == 0 && c'.working == c'.committed
            && c'.committed == if o.Done? then Written(c.working, Writes(p)) else c.committed
  {
    ExecEnds(p, c.(depth := 1));
    InsideBlock(p, c.(depth := 1));
  }

  // A block left by an exception leaves the connection as it found it exactly when nothing was pending at its
  // entry: uncommitted writes from before the block are rolled back with it.
  lemma RollbackIsExact(p: Program, c: Conn)
    requires c.depth == 0 && Result(p).Raised?
    ensures Exec(Atomic(p), c).0 == c <==> c.working == c.committed
  {
    OutermostIsAtomic(p, c);
  }

  // ---- nested blocks and deferred commits change nothing --------------------------------------------------

  // The body of a block without its inner blocks and commits.
  function Flat(p: Program): Program {
    match p
    case Commit => Skip
    case Seq(a, b) => Seq(Flat(a), Flat(b))
    case Try(a, h) => Try(Flat(a), Flat(h))
    case Atomic(a) => Flat(a)
    case _ => p
  }

  function Erase(p: Program): Program {
    match p
    case Seq(a, b) => Seq(Erase(a), Erase(b))
    case Try(a, h) => Try(Erase(a), Erase(h))
    case Atomic(a) => Atomic(Flat(a))
    case _ => p
  }

  lemma FlatMeansTheSame(p: Program)
    ensures Result(Flat(p)) == Result(p) && Writes(Flat(p)) == Writes(p) && Leaks(Flat(p)) == 0
  {
  }

  // For every program: erasing the inner blocks and the commits inside blocks leaves the result unchanged.
  lemma {:induction false} ErasureSound(p: Program, c: Conn)
    requires c.depth == 0 && !Result(p).Interrupted?
    ensures Exec(Erase(p), c) == Exec(p, c)
    decreases p
  {
    ExecEnds(p, c);
    match p
    case Seq(a, b) =>
      ErasureSound(a, c);
      ExecEnds(a, c);
      if Result(a).Done? { ErasureSound(b, Exec(a, c).0); }
    case Try(a, h) =>
      ErasureSound(a, c);
      ExecEnds(a, c);
      if Result(a).Raised? { ErasureSound(h, Exec(a, c).0); }
    case Atomic(a) =>
      FlatMeansTheSame(a);
      InsideBlock(a, c.(depth := 1));
      InsideBlock(Flat(a), c.(depth := 1));
    case _ =>
  }

  // ---- depth -----------------------------------------------------------------------------------------------

  // A block restores the depth on exit if and only if it is not left by a BaseException, which neither the
  // except nor the else branch of transaction() sees.
  lemma DepthRestored(p: Program, c: Conn)
    ensures Exec(Atomic(p), c).0.depth == c.depth <==> !Result(p).Interrupted?
  {
    ExecEnds(Atomic(p), c);
    ExecEnds(p, c);
  }

  // Once a depth has leaked, no later program ever commits anything: every commit looks nested.
  lemma LeakedDepthNeverCommits(p: Program, q: Program, c: Conn)
    requires Result(p).Interrupted?
    ensures var c' := Exec(Atomic(p), c).0; Exec(q, c').0.committed == c'.committed == c.committed
  {
    ExecEnds(Atomic(p), c);
    InsideBlock(p, c.(depth := c.depth + 1));
    InsideBlock(q, Exec(Atomic(p), c).0);
  }
}
