// What one worker's coroutine may count on while it awaits: every run of the protocol in which its own
// processing loop does nothing keeps Tables.Rely, the bound the worker's code is verified against.

module Surroundings {
  import opened Options
  import opened Tables
  import opened Statements
  import opened Protocol
  import opened Invariant
  import opened ItemHistory
  import opened LeaseSafety
  import Budgets

  // ---- tokens in flight ----------------------------------------------------------------------------------

  // Two requests in flight carry different tokens.
  ghost predicate HeldOnce(s: Sys) {
    forall v, w | v in s.agents && w in s.agents && s.agents[v].phase.InFlight? && s.agents[w].phase.InFlight? ::
      s.agents[v].phase.token == s.agents[w].phase.token ==> v == w
  }

  // A worker comes to be in flight only by sending under a token that was never issued before.
  lemma InFlightBefore(s: Sys, e: Event, w: WorkerId)
    requires w in Apply(s, e).agents && Apply(s, e).agents[w].phase.InFlight?
    ensures (w in s.agents && s.agents[w] == Apply(s, e).agents[w]) ||
            (e.SendRequest? && e.w == w && Apply(s, e).agents[w].phase.token == e.token && e.token !in s.tokens)
  {
    hide Recover, Claim;
  }

  lemma HeldOnceStep(s: Sys, e: Event)
    requires Inv(s) && HeldOnce(s)
    ensures HeldOnce(Apply(s, e))
  {
    var s' := Apply(s, e);
    forall v, w | v in s'.agents && w in s'.agents && s'.agents[v].phase.InFlight? && s'.agents[w].phase.InFlight?
      && s'.agents[v].phase.token == s'.agents[w].phase.token
      ensures v == w
    {
      if v in s.agents { assert AgentOk(s, v, s.agents[v]); }
      if w in s.agents { assert AgentOk(s, w, s.agents[w]); }
      hide Inv, Apply;
      InFlightBefore(s, e, v);
      InFlightBefore(s, e, w);
    }
  }

  lemma {:induction false} HeldOnceRun(s: Sys, es: seq<Event>)
    requires Inv(s) && HeldOnce(s)
    ensures HeldOnce(Run(s, es))
    decreases |es|
  {
    hide Inv, HeldOnce, Apply;
    if es != [] {
      HeldOnceStep(s, es[0]);
      StepInv(s, es[0]);
      HeldOnceRun(Apply(s, es[0]), es[1..]);
    }
  }

  lemma ReachableHeldOnce(s: Sys)
    requires Reachable(s)
    ensures HeldOnce(s)
  {
    var s0, es: seq<Event> :| Initial(s0) && Run(s0, es) == s;
    InitialInv(s0);
    HeldOnceRun(s0, es);
  }

  // ---- others act ----------------------------------------------------------------------------------------

  // The worker is inside its processing loop.
  predicate Looping(p: Phase) { p.Polling? || p.Clearing? || p.Polled? || p.Holding? || p.InFlight? }

  // Anything but a step of w's own loop, and no recovery of j torn apart into its statements.
  predicate Elsewhere(e: Event, w: WorkerId, j: JobId) {
    && !(LoopEvent(e) && e.w == w) && e != Crash(w) && e != RecoverItems(j)
  }

  // What w itself left in flight is the request it is waiting for.
  ghost predicate OnlyMineInFlight(s: Sys, w: WorkerId, j: JobId) {
    forall i: nat :: ItemOf(s.db.items, i, j) && s.db.items[i].status == Processing ==>
      w in s.agents && s.agents[w].phase.InFlight? && s.db.items[i].token == Some(s.agents[w].phase.token)
  }

  lemma ElsewhereLeavesPhase(s: Sys, e: Event, w: WorkerId, j: JobId)
    requires w in s.agents && Looping(s.agents[w].phase) && Elsewhere(e, w, j)
    ensures w in Apply(s, e).agents && Apply(s, e).agents[w] == s.agents[w]
  {
    hide Recover, Claim;
  }

  lemma JobIdKept(s: Sys, e: Event, i: nat)
    requires Inv(s) && i < |s.db.items|
    ensures i < |Apply(s, e).db.items| && Apply(s, e).db.items[i].jobId == s.db.items[i].jobId
  {
    hide Inv, Apply;
    EventRowStep(s, e, i);
  }

  // No event at all touches a settled row, or makes a row change its job.
  lemma EventKeepsSettled(s: Sys, e: Event, j: JobId)
    requires Inv(s)
    ensures SettledKept(s.db.items, Apply(s, e).db.items, j)
  {
    hide Inv, Apply;
    var items, items' := s.db.items, Apply(s, e).db.items;
    TableKeepsSize(s, e);
    forall i: nat
      ensures (ItemOf(items, i, j) <==> ItemOf(items', i, j))
              && (ItemOf(items, i, j) && Terminal(items[i].status) ==> items'[i] == items[i])
    {
      if i < |items| { EventRowStep(s, e, i); }
    }
  }

  lemma SettledChain(a: seq<Item>, b: seq<Item>, c: seq<Item>, j: JobId)
    requires SettledKept(a, b, j) && SettledKept(b, c, j)
    ensures SettledKept(a, c, j)
  {
    forall i: nat ensures ItemOf(a, i, j) <==> ItemOf(c, i, j) {
      assert ItemOf(a, i, j) <==> ItemOf(b, i, j);
    }
    forall i: nat | ItemOf(a, i, j) && ItemOf(c, i, j) && Terminal(a[i].status) ensures c[i] == a[i] {
      assert ItemOf(b, i, j);
    }
  }

  // One event elsewhere leaves every row of an owned job alone.
  lemma ElsewhereLeavesRows(s: Sys, e: Event, w: WorkerId, j: JobId)
    requires Inv(s) && HeldOnce(s) && w in s.agents && Elsewhere(e, w, j)
    requires OwnsJob(s.db, j, w, s.clock) && OnlyMineInFlight(s, w, j)
    ensures SameRows(s.db.items, Apply(s, e).db.items, j)
  {
    hide Inv, Apply, OwnsJob, RowStep;
    var items, items' := s.db.items, Apply(s, e).db.items;
    TableKeepsSize(s, e);
    forall i: nat
      ensures (ItemOf(items, i, j) <==> ItemOf(items', i, j)) && (ItemOf(items, i, j) ==> items'[i] == items[i])
    {
      if i < |items| {
        JobIdKept(s, e, i);
        if ItemOf(items, i, j) { OwnedRowsAreFenced(s, e, w, j, i); }
      }
    }
  }

  lemma SameRowsReflexive(items: seq<Item>, j: JobId)
    ensures SameRows(items, items, j) && SettledKept(items, items, j)
  {
  }

  lemma StillOnlyMine(s: Sys, s': Sys, w: WorkerId, j: JobId)
    requires OnlyMineInFlight(s, w, j) && SameRows(s.db.items, s'.db.items, j)
    requires w in s.agents && w in s'.agents && s'.agents[w] == s.agents[w]
    ensures OnlyMineInFlight(s', w, j)
  {
    forall i: nat | ItemOf(s'.db.items, i, j) ensures ItemOf(s.db.items, i, j) && s'.db.items[i] == s.db.items[i] {
      assert ItemOf(s.db.items, i, j) <==> ItemOf(s'.db.items, i, j);
    }
  }

  lemma OwnershipOnlyLost(s: Sys, e: Event, w: WorkerId, k: AccountKey)
    requires Inv(s) && w in s.agents && Looping(s.agents[w].phase) && s.agents[w].jobId in s.db.jobs
    ensures s.agents[w].jobId in Apply(s, e).db.jobs && s.clock <= Apply(s, e).clock
    ensures var j, s' := s.agents[w].jobId, Apply(s, e);
            && (OwnsJob(s'.db, j, w, s'.clock) ==> OwnsJob(s.db, j, w, s.clock))
            && (OwnsAccount(s'.db, k, w, j, s'.clock) ==> OwnsAccount(s.db, k, w, j, s.clock))
  {
    hide Inv, Apply, OwnsJob, OwnsAccount;
    JobLeaseMoves(s, e, s.agents[w].jobId);
    AgentMoves(s, e, w);
    EventKeepsConfig(s, e);
    if Lost(s, w, s.agents[w].jobId) { LostStep(s, e, w, s.agents[w].jobId); }
    if AccountLost(s, w, k) { AccountLostStep(s, e, w, k); }
  }

  // The rely of a waiting worker, between requests and with its own request in flight: after any run of
  // events elsewhere it owns its job or its account only if it did before, and then the job's rows are the same;
  // settled rows are the same in any case.
  lemma {:induction false} OthersKeepRely(s: Sys, es: seq<Event>, w: WorkerId, k: AccountKey)
    requires Inv(s) && HeldOnce(s) && w in s.agents && Looping(s.agents[w].phase) && s.agents[w].jobId in s.db.jobs
    requires forall n :: 0 <= n < |es| ==> Elsewhere(es[n], w, s.agents[w].jobId)
    requires OwnsJob(s.db, s.agents[w].jobId, w, s.clock) ==> OnlyMineInFlight(s, w, s.agents[w].jobId)
    ensures Rely(s.db, s.clock, Run(s, es).db, Run(s, es).clock, s.agents[w].jobId, k, w)
    ensures w in Run(s, es).agents && Run(s, es).agents[w] == s.agents[w]
    decreases |es|
  {
    hide Inv, Apply, HeldOnce, OwnsJob, OwnsAccount, Lost, AccountLost, OnlyMineInFlight, SameRows, SettledKept;
    if es != [] {
      var e, s', j := es[0], Apply(s, es[0]), s.agents[w].jobId;
      assert Elsewhere(e, w, j);
      StepInv(s, e);
      HeldOnceStep(s, e);
      ElsewhereLeavesPhase(s, e, w, j);
      EventKeepsConfig(s, e);
      OwnershipOnlyLost(s, e, w, k);
      EventKeepsSettled(s, e, j);
      if OwnsJob(s'.db, j, w, s'.clock) {
        ElsewhereLeavesRows(s, e, w, j);
        StillOnlyMine(s, s', w, j);
        OthersKeepRely(s', es[1..], w, k);
        if SameRows(s'.db.items, Run(s, es).db.items, j) {
          Budgets.SameChain(s.db.items, s'.db.items, Run(s, es).db.items, j);
        }
      } else {
        OthersKeepRely(s', es[1..], w, k);
      }
      SettledChain(s.db.items, s'.db.items, Run(s, es).db.items, j);
    } else {
      SameRowsReflexive(s.db.items, s.agents[w].jobId);
    }
  }
}
