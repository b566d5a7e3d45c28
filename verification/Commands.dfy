// Pause and cancel: how many more requests a worker starts, and interleavings that break what one would
// expect of the engine.

module Commands {
  import opened Options
  import opened Tables
  import opened Statements
  import opened Protocol
  import opened Invariant
  import opened ItemHistory
  import opened LeaseSafety
  import opened Exclusivity

  predicate StopCommand(c: Command) { c == PauseCommand || c == CancelCommand }

  // Somewhere between its claim and its next look at the command: a stop command stored now is still to be read.
  predicate Waiting(p: Phase) {
    || p.JobSelected? || p.JobWon? || p.AccountSelected? || p.AccountRefused? || p.Claimed?
    || p.Polling? || p.Polled? || p.Holding? || p.InFlight? || (p.Clearing? && !StopCommand(p.command))
  }

  predicate PastLoop(p: Phase) {
    p.Pausing? || p.Ended? || p.Finalising? || p.Releasing? || p.Stopped? || (p.Clearing? && StopCommand(p.command))
  }

  predicate CommandStored(s: Sys, j: JobId) {
    j in s.db.jobs && StopCommand(s.db.jobs[j].command)
  }

  // A stop command waits for w, or w has read it.
  predicate Doomed(s: Sys, w: WorkerId) {
    && w in s.agents
    && (PastLoop(s.agents[w].phase) || (Waiting(s.agents[w].phase) && CommandStored(s, s.agents[w].jobId)))
  }

  // The event makes the stored command disappear before w has read it.
  predicate Swallows(s: Sys, e: Event, w: WorkerId) {
    && w in s.agents && Waiting(s.agents[w].phase)
    && CommandStored(s, s.agents[w].jobId) && !CommandStored(Apply(s, e), s.agents[w].jobId)
  }

  // Every write that removes the stop command of job j, whoever was meant to read it.
  predicate Clears(s: Sys, e: Event, j: JobId) {
    || (e.StoreCommand? && e.j == j && !StopCommand(e.command))
    || e == ForceStart(j)
    || (e == ForceCancel(j) && JobTakeable(s.db, j, s.clock))
    || (e.ClearCommand? && At(s, e.w) && PhaseOf(s, e.w).Clearing? && JobOf(s, e.w) == j)
    || (e.Start? && At(s, e.w) && PhaseOf(s, e.w).Claimed? && JobOf(s, e.w) == j && OwnsJob(s.db, j, e.w, s.clock))
    || (e.AckPause? && At(s, e.w) && PhaseOf(s, e.w).Pausing? && JobOf(s, e.w) == j && AckGuard(s.db, j, e.w))
    || (e.OwnerCancel? && At(s, e.w) && PhaseOf(s, e.w).Ended? && JobOf(s, e.w) == j && OwnsJob(s.db, j, e.w, s.clock))
  }

  // Those that can take it away from the worker that owns the job and has not read it: a controller withdraws
  // it, a worker of the job that has polled something clears it, or the owner's own start does.
  predicate TakesCommand(s: Sys, e: Event, w: WorkerId, j: JobId) {
    || (e.StoreCommand? && e.j == j && !StopCommand(e.command))
    || e == ForceStart(j)
    || (e.ClearCommand? && At(s, e.w) && PhaseOf(s, e.w).Clearing? && JobOf(s, e.w) == j)
    || (e == Start(w) && At(s, w) && PhaseOf(s, w).Claimed?)
  }

  predicate MayMoveCommand(e: Event) {
    || e.StoreCommand? || e.ForceStart? || e.ForceCancel? || e.ClearCommand? || e.Start? || e.AckPause?
    || e.OwnerCancel?
  }

  ghost predicate SameCommand(s: Sys, s': Sys, j: JobId) {
    j in s.db.jobs && j in s'.db.jobs && s'.db.jobs[j].command == s.db.jobs[j].command
  }

  lemma MacrosLeaveCommands(s: Sys, w: WorkerId, j': JobId, j: JobId)
    requires j in s.db.jobs
    ensures SameCommand(s, DoClaimAtOnce(DoRecoverAtOnce(s, j'), w, j'), j)
  {
  }

  lemma StatementsLeaveCommands(s: Sys, e: Event, j: JobId)
    requires !MayMoveCommand(e) && j in s.db.jobs && !e.ClaimAtOnce? && !e.RecoverAtOnce? && !e.RecoverAndClaim?
    ensures SameCommand(s, Apply(s, e), j)
  {
    hide Recover, Claim, DoClaimAtOnce, DoRecoverAtOnce, OutcomeFor, ClaimedRow, SavedRow, QuarantinedRow, Selectable;
  }

  lemma ClaimLeavesCommands(s: Sys, w: WorkerId, j': JobId, j: JobId)
    requires j in s.db.jobs
    ensures SameCommand(s, DoClaimAtOnce(s, w, j'), j)
  {
  }

  lemma RecoveryLeavesCommands(s: Sys, j': JobId, j: JobId)
    requires j in s.db.jobs
    ensures SameCommand(s, DoRecoverAtOnce(s, j'), j)
  {
  }

  lemma OthersLeaveCommands(s: Sys, e: Event, j: JobId)
    requires !MayMoveCommand(e) && j in s.db.jobs
    ensures SameCommand(s, Apply(s, e), j)
  {
    match e
    case ClaimAtOnce(w, j') => ClaimLeavesCommands(s, w, j', j);
    case RecoverAtOnce(j') => RecoveryLeavesCommands(s, j', j);
    case RecoverAndClaim(w, j') => MacrosLeaveCommands(s, w, j', j);
    case _ =>
      hide Apply;
      StatementsLeaveCommands(s, e, j);
  }

  // In every state, a stored stop command disappears if and only if one of these writes meets its guard.
  lemma ClearedExactlyBy(s: Sys, e: Event, j: JobId)
    requires CommandStored(s, j)
    ensures !CommandStored(Apply(s, e), j) <==> Clears(s, e, j)
  {
    if !MayMoveCommand(e) {
      hide Apply;
      OthersLeaveCommands(s, e, j);
    }
  }

  // While w owns its job, its command disappears unread if and only if one of the four writes comes.
  lemma SwallowedExactlyBy(s: Sys, e: Event, w: WorkerId)
    requires w in s.agents && Waiting(s.agents[w].phase) && CommandStored(s, s.agents[w].jobId)
    requires OwnsJob(s.db, s.agents[w].jobId, w, s.clock)
    ensures Swallows(s, e, w) <==> TakesCommand(s, e, w, s.agents[w].jobId)
  {
    hide Apply;
    ClearedExactlyBy(s, e, s.agents[w].jobId);
  }

  // No event of the run takes the command away while w still has to read it and may own the job: it owns it,
  // or is about to claim it. What happens once w is disowned, or has read its command, does not matter.
  ghost predicate CommandKept(s: Sys, es: seq<Event>, w: WorkerId, j: JobId)
    decreases |es|
  {
    es == [] ||
    (&& (w in s.agents && Waiting(s.agents[w].phase) ==>
           && (OwnsJob(s.db, j, w, s.clock) ==> !TakesCommand(s, es[0], w, j))
           && (s.agents[w].phase.JobSelected? ==> !Clears(s, es[0], j)))
     && CommandKept(Apply(s, es[0]), es[1..], w, j))
  }

  // Requests w sends during a run.
  function Requests(s: Sys, es: seq<Event>, w: WorkerId): nat
    decreases |es|
  {
    if es == [] then 0
    else One(es[0].SendRequest? && es[0].w == w && SendOk(s, w, es[0].token)) + Requests(Apply(s, es[0]), es[1..], w)
  }

  // A request is still possible only between reading the command and sending.
  function Credit(s: Sys, w: WorkerId): nat
    requires w in s.agents
  {
    One(s.agents[w].phase.Polled? || s.agents[w].phase.Holding?)
  }

  lemma OthersLeavePhase(s: Sys, e: Event, w: WorkerId)
    requires w in s.agents
    ensures w in Apply(s, e).agents && Apply(s, e).agents[w].jobId == s.agents[w].jobId
    ensures Apply(s, e).agents[w].phase != s.agents[w].phase ==>
              !e.Tick? && !e.RecoverAtOnce? && !e.RecoverAccount? && !e.RecoverLease? && !e.RecoverItems?
              && !e.StoreCommand? && !e.ForceStatus? && !e.ForceStart? && !e.ForceCancel? && e.w == w
  {
  }

  // The one request that was already decided on.
  lemma DoomedSend(s: Sys, w: WorkerId, token: Token)
    requires Inv(s) && Doomed(s, w) && !Swallows(s, SendRequest(w, token), w)
    ensures Doomed(DoSendRequest(s, w, token), w)
    ensures One(SendOk(s, w, token)) + Credit(DoSendRequest(s, w, token), w) <= Credit(s, w)
  {
  }

  // A worker out of its loop stays out.
  lemma PastLoopStays(s: Sys, e: Event, w: WorkerId)
    requires w in s.agents && PastLoop(s.agents[w].phase) && w in Apply(s, e).agents && !e.SendRequest?
    ensures PastLoop(Apply(s, e).agents[w].phase)
  {
  }

  // A worker that waits moves towards the command it has to read, or out of the loop.
  lemma WaitingMoves(s: Sys, e: Event, w: WorkerId)
    requires w in s.agents && w in Apply(s, e).agents && !e.SendRequest? && Apply(s, e).agents[w] != s.agents[w]
    requires Waiting(s.agents[w].phase) && CommandStored(s, s.agents[w].jobId)
    requires CommandStored(Apply(s, e), s.agents[w].jobId)
    ensures var p := Apply(s, e).agents[w].phase;
            PastLoop(p) || (Waiting(p) && !p.Holding? && !p.Polled?)
            || (p.Holding? && s.agents[w].phase.Polled?)
  {
    OthersLeavePhase(s, e, w);
    hide Recover, Claim, OutcomeFor, ClaimedRow, SavedRow, QuarantinedRow, RecoverInterrupted, Selectable,
         DoClaimAtOnce, DoRecoverAtOnce;
  }

  lemma DoomedStep(s: Sys, e: Event, w: WorkerId)
    requires Inv(s) && Doomed(s, w) && !Swallows(s, e, w)
    ensures Doomed(Apply(s, e), w)
    ensures One(e.SendRequest? && e.w == w && SendOk(s, w, e.token)) + Credit(Apply(s, e), w) <= Credit(s, w)
  {
    OthersLeavePhase(s, e, w);
    if e.SendRequest? && e.w == w {
      DoomedSend(s, w, e.token);
    } else {
      hide Inv, Apply;
      if PastLoop(s.agents[w].phase) {
        if !e.SendRequest? { PastLoopStays(s, e, w); }
      } else if Apply(s, e).agents[w] != s.agents[w] {
        WaitingMoves(s, e, w);
      }
    }
  }

  // A worker that does not own its job sends nothing, ever.
  lemma {:induction false} LostSendsNothing(s: Sys, es: seq<Event>, w: WorkerId, j: JobId)
    requires Inv(s) && Lost(s, w, j) && s.agents[w].jobId == j
    ensures Requests(s, es, w) == 0
    decreases |es|
  {
    if es != [] {
      LostStep(s, es[0], w, j);
      AgentMoves(s, es[0], w);
      StepInv(s, es[0]);
      assert es[0].SendRequest? && es[0].w == w ==> !SendOk(s, w, es[0].token);
      hide Inv, Apply, Lost, SendOk;
      LostSendsNothing(Apply(s, es[0]), es[1..], w, j);
    }
  }

  lemma NothingSwallowed(s: Sys, e: Event, w: WorkerId)
    requires Doomed(s, w)
    requires Waiting(s.agents[w].phase) ==>
               var j := s.agents[w].jobId;
               || (OwnsJob(s.db, j, w, s.clock) && !TakesCommand(s, e, w, j))
               || (s.agents[w].phase.JobSelected? && !Clears(s, e, j))
    ensures !Swallows(s, e, w)
  {
    hide Apply;
    if Waiting(s.agents[w].phase) {
      ClearedExactlyBy(s, e, s.agents[w].jobId);
      if OwnsJob(s.db, s.agents[w].jobId, w, s.clock) { SwallowedExactlyBy(s, e, w); }
    }
  }

  // After a PAUSE or CANCEL is stored, a worker anywhere from its claim on starts at most one more request, and
  // none if it has to read the command first, in every run in which nobody takes the command away under the
  // guards above.
  lemma {:induction false} StopsAfterCommand(s: Sys, es: seq<Event>, w: WorkerId)
    requires Inv(s) && Doomed(s, w) && CommandKept(s, es, w, s.agents[w].jobId)
    ensures Requests(s, es, w) <= Credit(s, w) <= 1
    decreases |es|
  {
    if es != [] {
      var j := s.agents[w].jobId;
      assert AgentOk(s, w, s.agents[w]);
      if Waiting(s.agents[w].phase) && !s.agents[w].phase.JobSelected? && !OwnsJob(s.db, j, w, s.clock) {
        LostSendsNothing(s, es, w, j);
      } else {
        hide Inv, Apply, Doomed, Clears, TakesCommand;
        NothingSwallowed(s, es[0], w);
        DoomedStep(s, es[0], w);
        AgentMoves(s, es[0], w);
        StepInv(s, es[0]);
        StopsAfterCommand(Apply(s, es[0]), es[1..], w);
      }
    }
  }

  // What a worker hears it does: read, clear, and the loop is left; a PAUSE leaves the job paused and nobody's, a
  // CANCEL leaves the job of its live owner CANCELLED, and either way nothing is left to obey.
  lemma CommandCarriedOut(s: Sys, w: WorkerId)
    requires At(s, w) && PhaseOf(s, w).Polling? && CommandStored(s, JobOf(s, w))
    ensures var j, c := JobOf(s, w), s.db.jobs[JobOf(s, w)].command;
            var heard := DoClearCommand(DoReadCommand(s, w), w);
            && heard.db == s.db.(jobs := s.db.jobs[j := s.db.jobs[j].(command := NoCommand)])
            && (c == PauseCommand ==>
                  var done := DoAckPause(heard, w);
                  done.agents[w].phase.Ended? && PauseAcknowledged(done.db, j, w) && done.db.items == s.db.items)
            && (c == CancelCommand ==>
                  var done := DoOwnerCancel(heard, w);
                  done.agents[w].phase.Releasing? && done.db.items == s.db.items
                  && (OwnsJob(s.db, j, w, s.clock) ==>
                        && done.db.jobs[j].status == Cancelled && done.db.jobs[j].finishedAt == Some(s.clock)
                        && done.db.jobs[j].pausedAt.None? && done.db.jobs[j].pauseRequestedAt.None?))
  {
  }

  // ---- concrete runs ---------------------------------------------------------------------------------------

  const ROW := Item(0, Pending, 0, 5, None, None, None, None, None, None, None)
  const JOB := Job(0, Created, NoCommand, None, None, None, None, None, None, None, Totals(2, 0, 0, 0, 0, 0))
  const START := Sys(0, Config(10, 0, 60), Db(map[0 := JOB], map[], [ROW, ROW]), map[], {})
  const FOUND := Response(Found, None)

  // Job 0 with workers 1 and 2 on it.
  function Two(clock: Seconds, job: Job, account: AccountLease, items: seq<Item>, p1: Phase, p2: Phase,
               tokens: set<Token>): Sys {
    Sys(clock, Config(10, 0, 60), Db(map[0 := job], map[0 := account], items),
        map[1 := Agent(0, p1), 2 := Agent(0, p2)], tokens)
  }

  function HeldJob(w: WorkerId, at: Seconds, st: JobStatus, c: Command, started: Option<Seconds>): Job {
    JOB.(status := st, command := c, workerId := Some(w), heartbeatAt := Some(at), leaseUntil := Some(at + 10),
         startedAt := started)
  }

  function HeldAccount(w: WorkerId, at: Seconds): AccountLease {
    AccountLease(Some(w), Some(at), Some(at + 10), Some(0))
  }

  lemma StartIsInitial()
    ensures Initial(START)
  {
  }

  lemma {:induction false} Follow(states: seq<Sys>, es: seq<Event>)
    requires |states| == |es| + 1
    requires forall k :: 0 <= k < |es| ==> Apply(states[k], es[k]) == states[k + 1]
    ensures Run(states[0], es) == states[|es|]
    decreases |es|
  {
    if es != [] { Follow(states[1..], es[1..]); }
  }

  lemma Unfold(s: Sys, es: seq<Event>, w: WorkerId)
    requires es != []
    ensures Run(s, es) == Run(Apply(s, es[0]), es[1..])
    ensures Requests(s, es, w)
            == One(es[0].SendRequest? && es[0].w == w && SendOk(s, w, es[0].token))
                + Requests(Apply(s, es[0]), es[1..], w)
  {
  }

  lemma Finished(s: Sys, w: WorkerId)
    ensures Run(s, []) == s && Requests(s, [], w) == 0
  {
  }

  // ---- a stale worker swallows the successor's PAUSE -------------------------------------------------------

  // Worker 1 stalls at the head of its loop until its lease has expired; worker 2 takes over.
  const TAKEOVER: seq<Event> := [ClaimAtOnce(1, 0), Start(1), Tick(10), ClaimAtOnce(2, 0), Start(2)]

  const AFTER_TAKEOVER :=
    Two(10, HeldJob(2, 10, Running, NoCommand, Some(10)), HeldAccount(2, 10), [ROW, ROW], Polling, Polling, {})

  lemma TakeoverSteps(s1: Sys, s2: Sys)
    requires s1 == START.(db := Db(map[0 := HeldJob(1, 0, Created, NoCommand, None)], map[0 := HeldAccount(1, 0)],
                                   [ROW, ROW]),
                          agents := map[1 := Agent(0, Claimed)])
    requires s2 == s1.(db := Db(map[0 := HeldJob(1, 0, Running, NoCommand, Some(0))], map[0 := HeldAccount(1, 0)],
                                [ROW, ROW]),
                       agents := map[1 := Agent(0, Polling)])
    ensures Apply(START, ClaimAtOnce(1, 0)) == s1 && Apply(s1, Start(1)) == s2
    ensures Apply(s2, Tick(10)) == s2.(clock := 10)
    ensures Apply(s2.(clock := 10), ClaimAtOnce(2, 0))
            == Two(10, HeldJob(2, 10, Running, NoCommand, Some(0)), HeldAccount(2, 10), [ROW, ROW], Polling, Claimed,
                   {})
    ensures Apply(Two(10, HeldJob(2, 10, Running, NoCommand, Some(0)), HeldAccount(2, 10), [ROW, ROW], Polling,
                      Claimed, {}), Start(2))
            == AFTER_TAKEOVER
  {
  }

  lemma TakeoverRun()
    ensures Initial(START) && Run(START, TAKEOVER) == AFTER_TAKEOVER
  {
    var job := HeldJob(1, 0, Running, NoCommand, Some(0));
    var s1 := START.(db := Db(map[0 := HeldJob(1, 0, Created, NoCommand, None)], map[0 := HeldAccount(1, 0)],
                              [ROW, ROW]),
                     agents := map[1 := Agent(0, Claimed)]);
    var s2 := s1.(db := Db(map[0 := job], map[0 := HeldAccount(1, 0)], [ROW, ROW]),
                  agents := map[1 := Agent(0, Polling)]);
    var s3 := s2.(clock := 10);
    var s4 := Two(10, HeldJob(2, 10, Running, NoCommand, Some(0)), HeldAccount(2, 10), [ROW, ROW], Polling, Claimed,
                  {});
    TakeoverSteps(s1, s2);
    hide Apply;
    assert Apply(s2, Tick(10)) == s3 && Apply(s3, ClaimAtOnce(2, 0)) == s4 && Apply(s4, Start(2)) == AFTER_TAKEOVER;
    Follow([START, s1, s2, s3, s4, AFTER_TAKEOVER], TAKEOVER);
  }

  // Worker 2 reads its first item and waits for the limiter; the operator pauses the job.
  const PAUSING: seq<Event> := [ReadCommand(2), ReadDueItem(2), StoreCommand(0, PauseCommand)]

  const PAUSED :=
    Two(10, HeldJob(2, 10, Running, PauseCommand, Some(10)), HeldAccount(2, 10), [ROW, ROW], Polling,
        Holding(0, 0, 5), {})

  lemma PausingRun()
    ensures Run(AFTER_TAKEOVER, PAUSING) == PAUSED && Doomed(PAUSED, 2)
  {
    var job := HeldJob(2, 10, Running, NoCommand, Some(10));
    var s1 := Two(10, job, HeldAccount(2, 10), [ROW, ROW], Polling, Polled, {});
    var s2 := Two(10, job, HeldAccount(2, 10), [ROW, ROW], Polling, Holding(0, 0, 5), {});
    assert Apply(AFTER_TAKEOVER, ReadCommand(2)) == s1;
    assert Apply(s1, ReadDueItem(2)) == s2;
    assert Apply(s2, StoreCommand(0, PauseCommand)) == PAUSED;
    hide Apply;
    Follow([AFTER_TAKEOVER, s1, s2, PAUSED], PAUSING);
  }

  // The states of both runs, with the job held by worker 2 since second 10.
  function Run2(c: Command, items: seq<Item>, p1: Phase, p2: Phase, tokens: set<Token>): Sys {
    Two(10, HeldJob(2, 10, Running, c, Some(10)), HeldAccount(2, 10), items, p1, p2, tokens)
  }

  const SENT := ClaimedRow(ROW, 10, 7)
  const DONE := SavedRow(SENT, OutcomeFor(FOUND, 0, 5, 10, 0), 10)

  lemma FirstSend(p1: Phase)
    ensures SendOk(Run2(NoCommand, [ROW, ROW], p1, Holding(0, 0, 5), {}), 2, 7)
    ensures Apply(Run2(NoCommand, [ROW, ROW], p1, Holding(0, 0, 5), {}), SendRequest(2, 7))
            == Run2(NoCommand, [SENT, ROW], p1, InFlight(0, 0, 5, 7), {7})
  {
  }

  lemma FirstCommit(p1: Phase)
    ensures Apply(Run2(NoCommand, [SENT, ROW], p1, InFlight(0, 0, 5, 7), {7}), Commit(2, FOUND, 0))
            == Run2(NoCommand, [DONE, ROW], p1, Polling, {7})
  {
  }

  lemma SecondPoll(p1: Phase)
    ensures Apply(Run2(NoCommand, [DONE, ROW], p1, Polling, {7}), ReadCommand(2))
            == Run2(NoCommand, [DONE, ROW], p1, Polled, {7})
  {
  }

  lemma SecondRead(p1: Phase)
    ensures Apply(Run2(NoCommand, [DONE, ROW], p1, Polled, {7}), ReadDueItem(2))
            == Run2(NoCommand, [DONE, ROW], p1, Holding(1, 0, 5), {7})
  {
    assert FirstDue([DONE, ROW], 0, 10, 0) == FirstDue([DONE, ROW], 0, 10, 1) == 1;
  }

  lemma SecondSend(p1: Phase)
    ensures SendOk(Run2(NoCommand, [DONE, ROW], p1, Holding(1, 0, 5), {7}), 2, 8)
    ensures Apply(Run2(NoCommand, [DONE, ROW], p1, Holding(1, 0, 5), {7}), SendRequest(2, 8))
            == Run2(NoCommand, [DONE, ClaimedRow(ROW, 10, 8)], p1, InFlight(1, 0, 5, 8), {7, 8})
    ensures !CommandStored(Run2(NoCommand, [DONE, ClaimedRow(ROW, 10, 8)], p1, InFlight(1, 0, 5, 8), {7, 8}), 0)
  {
  }

  const TWICE: seq<Event> :=
    [SendRequest(2, 7), Commit(2, FOUND, 0), ReadCommand(2), ReadDueItem(2), SendRequest(2, 8)]

  // A worker that waits for the limiter with no command to stop it goes on to send two requests.
  lemma SendsTwice(p1: Phase)
    ensures var s := Run2(NoCommand, [ROW, ROW], p1, Holding(0, 0, 5), {});
            Requests(s, TWICE, 2) == 2 && !CommandStored(Run(s, TWICE), 0)
  {
    var s2 := Run2(NoCommand, [ROW, ROW], p1, Holding(0, 0, 5), {});
    var s3 := Run2(NoCommand, [SENT, ROW], p1, InFlight(0, 0, 5, 7), {7});
    var s4 := Run2(NoCommand, [DONE, ROW], p1, Polling, {7});
    var s5 := Run2(NoCommand, [DONE, ROW], p1, Polled, {7});
    var s6 := Run2(NoCommand, [DONE, ROW], p1, Holding(1, 0, 5), {7});
    var s7 := Run2(NoCommand, [DONE, ClaimedRow(ROW, 10, 8)], p1, InFlight(1, 0, 5, 8), {7, 8});
    FirstSend(p1);
    FirstCommit(p1);
    SecondPoll(p1);
    SecondRead(p1);
    SecondSend(p1);
    hide Apply, Run, Run2, Requests, SendOk, CommandStored, OutcomeFor;
    Finished(s7, 2);
    Unfold(s2, TWICE, 2);
    Unfold(s3, TWICE[1..], 2);
    Unfold(s4, TWICE[2..], 2);
    Unfold(s5, TWICE[3..], 2);
    Unfold(s6, TWICE[4..], 2);
    assert TWICE[1..][1..] == TWICE[2..] && TWICE[2..][1..] == TWICE[3..];
    assert TWICE[3..][1..] == TWICE[4..] && TWICE[4..][1..] == [];
  }

  // Worker 1 polls before it checks its ownership: it reads the PAUSE and clears it for everybody.
  const SWALLOWED: seq<Event> := [ReadCommand(1), ClearCommand(1)] + TWICE

  lemma StaleRead()
    ensures Apply(PAUSED, ReadCommand(1))
            == Run2(PauseCommand, [ROW, ROW], Clearing(PauseCommand), Holding(0, 0, 5), {})
  {
  }

  lemma StaleClear()
    ensures Apply(Run2(PauseCommand, [ROW, ROW], Clearing(PauseCommand), Holding(0, 0, 5), {}), ClearCommand(1))
            == Run2(NoCommand, [ROW, ROW], Pausing, Holding(0, 0, 5), {})
  {
  }

  // "At most one more request" fails without the proviso of StopsAfterCommand: the stale worker's poll clears
  // the PAUSE meant for its successor, which sends a second request and has no command left to stop it.
  lemma StaleWorkerSwallowsPause()
    ensures Initial(START) && PAUSED == Run(Run(START, TAKEOVER), PAUSING)
    ensures Doomed(PAUSED, 2) && Requests(PAUSED, SWALLOWED, 2) == 2 && !CommandStored(Run(PAUSED, SWALLOWED), 0)
  {
    TakeoverRun();
    PausingRun();
    var s1 := Run2(PauseCommand, [ROW, ROW], Clearing(PauseCommand), Holding(0, 0, 5), {});
    StaleRead();
    StaleClear();
    SendsTwice(Pausing);
    hide Apply, Run, Run2, Requests, SendOk, Initial, Doomed, CommandStored;
    Unfold(PAUSED, SWALLOWED, 2);
    Unfold(s1, SWALLOWED[1..], 2);
    assert SWALLOWED[1..][1..] == TWICE;
  }

  // ---- a start loses the CANCEL stored before it -----------------------------------------------------------

  // The operator cancels between worker 2's claim and its start.
  const CLAIMING: seq<Event> :=
    [ClaimAtOnce(1, 0), Start(1), Tick(10), ClaimAtOnce(2, 0), StoreCommand(0, CancelCommand)]

  const CANCELLED :=
    Two(10, HeldJob(2, 10, Running, CancelCommand, Some(0)), HeldAccount(2, 10), [ROW, ROW], Polling, Claimed, {})

  lemma CancelArrives(s4: Sys)
    requires s4 == Two(10, HeldJob(2, 10, Running, NoCommand, Some(0)), HeldAccount(2, 10), [ROW, ROW], Polling,
                       Claimed, {})
    ensures Apply(s4, StoreCommand(0, CancelCommand)) == CANCELLED
    ensures Doomed(CANCELLED, 2) && OwnsJob(CANCELLED.db, 0, 2, CANCELLED.clock)
  {
  }

  lemma CancellingRun()
    ensures Initial(START) && Run(START, CLAIMING) == CANCELLED
    ensures Doomed(CANCELLED, 2) && OwnsJob(CANCELLED.db, 0, 2, CANCELLED.clock)
  {
    var s1 := START.(db := Db(map[0 := HeldJob(1, 0, Created, NoCommand, None)], map[0 := HeldAccount(1, 0)],
                              [ROW, ROW]),
                     agents := map[1 := Agent(0, Claimed)]);
    var s2 := s1.(db := Db(map[0 := HeldJob(1, 0, Running, NoCommand, Some(0))], map[0 := HeldAccount(1, 0)],
                           [ROW, ROW]),
                  agents := map[1 := Agent(0, Polling)]);
    var s3 := s2.(clock := 10);
    var s4 := Two(10, HeldJob(2, 10, Running, NoCommand, Some(0)), HeldAccount(2, 10), [ROW, ROW], Polling, Claimed,
                  {});
    StartIsInitial();
    CancelArrives(s4);
    TakeoverSteps(s1, s2);
    hide *;
    Follow([START, s1, s2, s3, s4, CANCELLED], CLAIMING);
  }

  // mark_started_if_owned resets the command of the job it starts.
  const UNSTOPPED: seq<Event> := [Start(2), ReadCommand(2), ReadDueItem(2)] + TWICE

  lemma StartClears()
    ensures Apply(CANCELLED, Start(2)) == AFTER_TAKEOVER
    ensures Apply(AFTER_TAKEOVER, ReadCommand(2)) == Run2(NoCommand, [ROW, ROW], Polling, Polled, {})
  {
  }

  lemma FirstRead()
    ensures Apply(Run2(NoCommand, [ROW, ROW], Polling, Polled, {}), ReadDueItem(2))
            == Run2(NoCommand, [ROW, ROW], Polling, Holding(0, 0, 5), {})
  {
  }

  // A CANCEL stored for a worker that has claimed but not started is lost: its own start clears it, and the
  // worker sends request after request.
  lemma StartLosesCancel()
    ensures Initial(START) && CANCELLED == Run(START, CLAIMING) && OwnsJob(CANCELLED.db, 0, 2, CANCELLED.clock)
    ensures Doomed(CANCELLED, 2) && Requests(CANCELLED, UNSTOPPED, 2) == 2
    ensures !CommandStored(Run(CANCELLED, UNSTOPPED), 0)
  {
    CancellingRun();
    var s1 := Run2(NoCommand, [ROW, ROW], Polling, Polled, {});
    StartClears();
    FirstRead();
    SendsTwice(Polling);
    hide Apply, Run, Run2, Requests, SendOk, Initial, Doomed, CommandStored, OwnsJob;
    Unfold(CANCELLED, UNSTOPPED, 2);
    Unfold(AFTER_TAKEOVER, UNSTOPPED[1..], 2);
    Unfold(s1, UNSTOPPED[2..], 2);
    assert UNSTOPPED[1..][1..] == UNSTOPPED[2..] && UNSTOPPED[2..][1..] == TWICE;
  }

  // ---- a claim cut in two splits the ownership ---------------------------------------------------------------

  // Worker 1 stalls between its job claim and its account claim until the job lease is gone.
  const CUT: seq<Event> :=
    [SelectJob(1, 0), UpdateJob(1), Tick(10), SelectJob(2, 0), UpdateJob(2), SelectAccount(1), UpsertAccount(1)]

  lemma CutSteps(s1: Sys, s2: Sys, s3: Sys, s4: Sys)
    requires s1 == START.(agents := map[1 := Agent(0, JobSelected(0))])
    requires s2 == s1.(db := Db(map[0 := HeldJob(1, 0, Created, NoCommand, None)], map[], [ROW, ROW]),
                       agents := map[1 := Agent(0, JobWon)])
    requires s3 == s2.(clock := 10) && s4 == s3.(agents := map[1 := Agent(0, JobWon), 2 := Agent(0, JobSelected(10))])
    ensures Apply(START, SelectJob(1, 0)) == s1 && Apply(s1, UpdateJob(1)) == s2
    ensures Apply(s2, Tick(10)) == s3 && Apply(s3, SelectJob(2, 0)) == s4
  {
  }

  lemma MoreCutSteps(s4: Sys, s5: Sys, s6: Sys, s7: Sys)
    requires s4 == START.(clock := 10, db := Db(map[0 := HeldJob(1, 0, Created, NoCommand, None)], map[], [ROW, ROW]),
                          agents := map[1 := Agent(0, JobWon), 2 := Agent(0, JobSelected(10))])
    requires s5 == s4.(db := Db(map[0 := HeldJob(2, 10, Created, NoCommand, None)], map[], [ROW, ROW]),
                       agents := map[1 := Agent(0, JobWon), 2 := Agent(0, JobWon)])
    requires s6 == s5.(agents := map[1 := Agent(0, AccountSelected(10)), 2 := Agent(0, JobWon)])
    requires s7 == Two(10, HeldJob(2, 10, Created, NoCommand, None), HeldAccount(1, 10), [ROW, ROW], Claimed, JobWon,
                       {})
    ensures Apply(s4, UpdateJob(2)) == s5 && Apply(s5, SelectAccount(1)) == s6 && Apply(s6, UpsertAccount(1)) == s7
    ensures !SameHolder(s7, 0)
  {
  }

  // The rule of OwnershipNeverSplit does fail when Worker.claim is interrupted: the account is leased to
  // worker 1 for the job that worker 2 holds.
  lemma CutClaimSplitsOwnership()
    ensures Initial(START) && !SameHolder(Run(START, CUT), 0)
  {
    var row, row2 := HeldJob(1, 0, Created, NoCommand, None), HeldJob(2, 10, Created, NoCommand, None);
    var s1 := START.(agents := map[1 := Agent(0, JobSelected(0))]);
    var s2 := s1.(db := Db(map[0 := row], map[], [ROW, ROW]), agents := map[1 := Agent(0, JobWon)]);
    var s3 := s2.(clock := 10);
    var s4 := s3.(agents := map[1 := Agent(0, JobWon), 2 := Agent(0, JobSelected(10))]);
    var s5 := s4.(db := Db(map[0 := row2], map[], [ROW, ROW]),
                  agents := map[1 := Agent(0, JobWon), 2 := Agent(0, JobWon)]);
    var s6 := s5.(agents := map[1 := Agent(0, AccountSelected(10)), 2 := Agent(0, JobWon)]);
    var s7 := Two(10, row2, HeldAccount(1, 10), [ROW, ROW], Claimed, JobWon, {});
    StartIsInitial();
    CutSteps(s1, s2, s3, s4);
    MoreCutSteps(s4, s5, s6, s7);
    hide *;
    Follow([START, s1, s2, s3, s4, s5, s6, s7], CUT);
  }

  // Worker 1's job lease runs out while its account lease, renewed later, is still live.
  const LATE: seq<Event> :=
    [ClaimAtOnce(1, 0), Tick(5), HeartbeatAccount(1), Tick(5), SelectJob(2, 0), UpdateJob(2)]

  lemma LateRenewal(s1: Sys, s2: Sys, s3: Sys)
    requires s1 == START.(db := Db(map[0 := HeldJob(1, 0, Created, NoCommand, None)], map[0 := HeldAccount(1, 0)],
                                   [ROW, ROW]),
                          agents := map[1 := Agent(0, Claimed)])
    requires s2 == s1.(clock := 5)
    requires s3 == s2.(db := Db(s1.db.jobs, map[0 := HeldAccount(1, 5)], [ROW, ROW]))
    ensures Apply(START, ClaimAtOnce(1, 0)) == s1 && Apply(s1, Tick(5)) == s2 && Apply(s2, HeartbeatAccount(1)) == s3
  {
  }

  lemma LateClaim(s4: Sys, s5: Sys, s6: Sys)
    requires s4 == START.(clock := 10, agents := map[1 := Agent(0, Claimed)],
                          db := Db(map[0 := HeldJob(1, 0, Created, NoCommand, None)], map[0 := HeldAccount(1, 5)],
                                   [ROW, ROW]))
    requires s5 == Two(10, HeldJob(1, 0, Created, NoCommand, None), HeldAccount(1, 5), [ROW, ROW], Claimed,
                       JobSelected(10), {})
    requires s6 == Two(10, HeldJob(2, 10, Created, NoCommand, None), HeldAccount(1, 5), [ROW, ROW], Claimed, JobWon, {})
    ensures Apply(s4, SelectJob(2, 0)) == s5 && Apply(s5, UpdateJob(2)) == s6 && !SameHolder(s6, 0)
  {
  }

  // The other way to split: worker 2 wins the job before it learns that the account is taken.
  lemma JobClaimSplitsOwnership()
    ensures Initial(START) && !SameHolder(Run(START, LATE), 0)
  {
    var row := HeldJob(1, 0, Created, NoCommand, None);
    var s1 := START.(db := Db(map[0 := row], map[0 := HeldAccount(1, 0)], [ROW, ROW]),
                     agents := map[1 := Agent(0, Claimed)]);
    var s2 := s1.(clock := 5);
    var s3 := s2.(db := Db(map[0 := row], map[0 := HeldAccount(1, 5)], [ROW, ROW]));
    var s4 := s3.(clock := 10);
    var s5 := Two(10, row, HeldAccount(1, 5), [ROW, ROW], Claimed, JobSelected(10), {});
    var s6 := Two(10, HeldJob(2, 10, Created, NoCommand, None), HeldAccount(1, 5), [ROW, ROW], Claimed, JobWon, {});
    StartIsInitial();
    LateRenewal(s1, s2, s3);
    LateClaim(s4, s5, s6);
    assert Apply(s3, Tick(5)) == s4;
    hide *;
    Follow([START, s1, s2, s3, s4, s5, s6], LATE);
  }
}
