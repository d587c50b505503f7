/** How a run ends, what the log says, when the stamps are set, and what dispatch costs. */
module ProtocolOutcomes {
  import opened ScanModel
  import opened Retry
  import opened Protocol
  import opened ProtocolInvariant
  import opened ProtocolRuns
  import opened ProtocolSlices
  import opened ProtocolTheorems

  // -------------------------------------------------------- the outcome of a run

  /** A run has no loops: its distance from the end. */
  function Distance(pc: PC): (steps: nat)
    ensures steps <= 32
  {
    match pc
    case Delivered => 32
    case ReadQueued => 31
    case Claimed => 30
    case Validating(begun) => if begun then 28 else 29
    case Check(stage) => 9 + StageDistance(stage) + (if stage.Prepare? then 3 else 5)
    case Advance(stage) => 9 + StageDistance(stage) + 4
    case Announce(stage) => 9 + StageDistance(stage) + 3
    case Plugin(stage, begun) => 9 + StageDistance(stage) + if begun then 1 else 2
    case Persisting => 9
    case Succeed => 8
    case PublishCompleted => 7
    case Failure(_) => 7
    case SawCancel => 7
    case TimeoutCas => 6
    case CancelCas => 6
    case RequeueCas => 6
    case FailCas(_) => 6
    case Reconcile => 5
    case PublishFailed(_) => 4
    case PublishTimedOut => 3
    case PublishCancelled => 3
    case PublishRequeued => 3
    case DeadLetter(_) => 3
    case Cleanup(_) => 2
    case Finish(_) => 1
    case Done(_) => 0
    case Dead => 0
  }

  function StageDistance(stage: Stage): nat {
    match stage
    case Normalize => 0
    case Collect => 5
    case Execute => 10
    case Prepare => 15
  }

  lemma StageAdvances(sh: Shared, rid: RunId, r: Run, c: Choice)
    requires InTimeoutBlock(r.pc)
    ensures Distance(StageStep(sh, rid, r, c).1.pc) < Distance(r.pc)
  {
    if r.pc.Advance? || r.pc.Succeed? { StageMoveAdvances(sh, rid, r, c); }
  }

  lemma StageMoveAdvances(sh: Shared, rid: RunId, r: Run, c: Choice)
    requires r.pc.Advance? || r.pc.Succeed?
    ensures var next := if r.pc.Advance? then Announce(r.pc.stage) else PublishCompleted;
      StageStep(sh, rid, r, c).1.pc in {next, Failure(false)}
  {
  }

  lemma HandlerMoveAdvances(sh: Shared, rid: RunId, r: Run, plan: Plan, stamp: Time)
    ensures HandlerMove(sh, rid, r, plan, stamp).1.pc in {plan.next, Reconcile, Cleanup(true), Finish(true)}
  {
  }

  lemma HandlerCasAdvances(cfg: Config, sh: Shared, rid: RunId, r: Run, c: Choice)
    requires InHandler(r.pc) && HandlerCas(r.pc)
    ensures Distance(HandlerStep(cfg, sh, rid, r, c).1.pc) < Distance(r.pc)
  {
    HandlerMoveAdvances(sh, rid, r, PlanOf(r.pc), c.stamp);
  }

  lemma HandlerAdvances(cfg: Config, sh: Shared, rid: RunId, r: Run, c: Choice)
    requires InHandler(r.pc) && !HandlerCas(r.pc)
    ensures Distance(HandlerStep(cfg, sh, rid, r, c).1.pc) < Distance(r.pc)
  {
    if r.pc.Failure? { FailureAdvances(cfg, sh, rid, r, c); }
  }

  lemma FailureAdvances(cfg: Config, sh: Shared, rid: RunId, r: Run, c: Choice)
    requires r.pc.Failure?
    ensures Distance(HandlerStep(cfg, sh, rid, r, c).1.pc) < Distance(r.pc)
  {
  }

  lemma RunAdvances(cfg: Config, sh: Shared, rid: RunId, r: Run, c: Choice)
    requires RunEnabled(cfg, sh, r, c)
    ensures Distance(RunStep(cfg, sh, rid, r, c).1.pc) < Distance(r.pc)
  {
    if c.act.Expire? {
    } else if InTimeoutBlock(r.pc) {
      StageAdvances(sh, rid, r, c);
    } else if InHandler(r.pc) && HandlerCas(r.pc) {
      HandlerCasAdvances(cfg, sh, rid, r, c);
    } else if InHandler(r.pc) {
      HandlerAdvances(cfg, sh, rid, r, c);
    }
  }

  /** How often run `rid` moves in a history. */
  function StepsBy(labels: seq<Label>, rid: RunId): nat {
    if labels == [] then 0
    else StepsBy(labels[1..], rid) + if labels[0].ActRun? && labels[0].rid == rid then 1 else 0
  }

  lemma RunComesCloser(cfg: Config, s: Slice, l: Label, rid: RunId)
    requires Enabled(cfg, s, l) && rid in s.runs
    ensures var s' := Step(cfg, s, l);
      rid in s'.runs && StepsBy([l], rid) + Distance(s'.runs[rid].pc) <= Distance(s.runs[rid].pc)
  {
    if l.ActRun? && l.rid == rid { RunAdvances(cfg, s.sh, rid, s.runs[rid], l.choice); }
  }

  /**
   Every run ends: whatever the plugin does, a delivered message costs at most 32
   steps, and a run that is neither done nor dead can always take the next one.
   */
  lemma {:induction false} RunsEnd(cfg: Config, s: Slice, labels: seq<Label>, rid: RunId)
    requires Legal(cfg, s, labels) && rid in s.runs
    ensures var s' := After(cfg, s, labels);
      rid in s'.runs && StepsBy(labels, rid) + Distance(s'.runs[rid].pc) <= Distance(s.runs[rid].pc) <= 32
    decreases |labels|
  {
    if labels != [] {
      RunComesCloser(cfg, s, labels[0], rid);
      RunsEnd(cfg, Step(cfg, s, labels[0]), labels[1..], rid);
      assert [labels[0]][1..] == [];
    }
  }

  lemma RunNeverBlocked(cfg: Config, s: Slice, rid: RunId, delay: real)
    requires Reachable(cfg, s)
    requires rid in s.runs && cfg.drawable(s.runs[rid].mem.attempt, delay)
    ensures s.runs[rid].pc.Done? || s.runs[rid].pc.Dead?
      || Enabled(cfg, s, ActRun(rid, Choice(Proceed, s.sh.now, delay, true)))
  {
    ReachableOk(cfg, s);
    assert RunOk(cfg, s.sh, rid, s.runs[rid]);
  }

  /**
   The exact outcome of a claimed run that was not killed.  It leaves the scan
   terminal, or requeued with its outbox row; the only exceptions leave the row in
   PROCESSING (a timeout there, or a retryable error there, whose flushed outbox row
   is rolled back) or in PREPARING (a config check that fails with another error),
   where only a cancel can still move it, and then the worker task reports the error.
   */
  lemma ExactOutcome(cfg: Config, s: Slice, rid: RunId)
    requires Reachable(cfg, s)
    requires rid in s.runs && s.runs[rid].pc.Done? && 0 < s.runs[rid].own
    ensures var r := s.runs[rid]; match r.exit
      case Finalized => Terminal(s.sh.row.status) && s.sh.finalizer == Some(rid)
      case LostToCancel => s.sh.row.status.Cancelled?
      case Requeued => r.own in s.sh.outbox && (s.sh.row.attempt == r.own ==> !Active(s.sh.row.status))
      case StuckTimeout =>
        r.pc.raised && s.sh.row.attempt == r.own && (s.sh.row.status.Processing? || s.sh.row.status.Cancelled?)
      case StuckTransient =>
        r.pc.raised && s.sh.row.attempt == r.own && (s.sh.row.status.Processing? || s.sh.row.status.Cancelled?)
        && r.own !in s.sh.outbox
      case StuckValidate =>
        r.pc.raised && s.sh.row.attempt == r.own && (s.sh.row.status.Preparing? || s.sh.row.status.Cancelled?)
      case _ => false
  {
    ReachableOk(cfg, s);
    assert RunOk(cfg, s.sh, rid, s.runs[rid]);
    OutcomeOf(cfg, s.sh, rid, s.runs[rid]);
  }

  lemma OutcomeOf(cfg: Config, sh: Shared, rid: RunId, r: Run)
    requires RunOk(cfg, sh, rid, r) && r.pc.Done? && 0 < r.own
    ensures !r.exit.Holding? && !r.exit.Unexplained? && ExitOk(sh, rid, r) && (Stuck(r.exit) ==> r.pc.raised)
  {
  }

  /**
   A scan whose run has ended without giving it a next status stays where it is for good,
   unless it is cancelled: no message, duplicate or other run ever moves it again.
   */
  lemma {:induction false} StrandedForGood(cfg: Config, s: Slice, labels: seq<Label>, rid: RunId)
    requires SliceOk(cfg, s) && Legal(cfg, s, labels)
    requires Active(s.sh.row.status) && rid in s.runs && s.runs[rid].pc.Done?
    requires s.sh.row.attempt in s.sh.claims && s.sh.claims[s.sh.row.attempt] == rid
    ensures var row := After(cfg, s, labels).sh.row; row == s.sh.row || CancelledFrom(row, s.sh.row)
    decreases |labels|
  {
    if labels != [] {
      var l, s' := labels[0], Step(cfg, s, labels[0]);
      StepOk(cfg, s, l);
      OthersOnlyCancel(cfg, s.sh, s'.sh, Actor(l), rid);
      if s'.sh.row.status.Cancelled? {
        TerminalForever(cfg, s', labels[1..]);
      } else {
        DoneStaysDone(cfg, s, l, rid);
        StrandedForGood(cfg, s', labels[1..], rid);
      }
    }
  }

  lemma DoneStaysDone(cfg: Config, s: Slice, l: Label, rid: RunId)
    requires Enabled(cfg, s, l) && rid in s.runs && s.runs[rid].pc.Done?
    ensures rid in Step(cfg, s, l).runs && Step(cfg, s, l).runs[rid] == s.runs[rid]
  {
  }

  // ------------------------------------------------------- where the exceptions come from

  /** What brings an exception about: a timeout or a plugin's error, where no edge or handler is there for it. */
  function Trigger(r: Run, c: Choice): Option<Exit> {
    if c.act.Expire? && r.mem.status.Processing? then Some(StuckTimeout)
    else if c.act == Throw(TransientFault) && r.mem.status.Processing? && ShouldRetry(r.mem.attempt, r.mem.maxAttempts)
    then Some(StuckTransient)
    else if r.pc == Validating(true) && c.act.Throw? && !c.act.fault.ConfigFault? then Some(StuckValidate)
    else None
  }

  /** The exception a run has ended with, or is bound to end with. */
  function Doom(r: Run): Option<Exit> {
    if Stuck(r.exit) then Some(r.exit)
    else if r.pc.TimeoutCas? && r.mem.status.Processing? then Some(StuckTimeout)
    else if r.mem.status.Processing? &&
      (r.pc.RequeueCas? || (r.pc == Failure(true) && ShouldRetry(r.mem.attempt, r.mem.maxAttempts)))
    then Some(StuckTransient)
    else None
  }

  /** Doom after a step: what it was, or what the step has triggered. */
  ghost predicate DoomSteps(r: Run, c: Choice, r': Run) {
    Doom(r') == if Doom(r).Some? then Doom(r) else Trigger(r, c)
  }

  /** A doomed run is past everything that could trigger anything. */
  lemma TriggersOnce(cfg: Config, sh: Shared, rid: RunId, r: Run, c: Choice)
    requires RunOk(cfg, sh, rid, r) && RunEnabled(cfg, sh, r, c) && Trigger(r, c).Some?
    ensures Doom(r).None?
  {
  }

  lemma DoomInBlock(cfg: Config, sh: Shared, rid: RunId, r: Run, c: Choice)
    requires RunOk(cfg, sh, rid, r) && RunEnabled(cfg, sh, r, c)
    requires InTimeoutBlock(r.pc) && !c.act.Expire?
    ensures DoomSteps(r, c, StageStep(sh, rid, r, c).1)
  {
  }

  lemma DoomOnExpiry(cfg: Config, sh: Shared, rid: RunId, r: Run, c: Choice)
    requires RunOk(cfg, sh, rid, r) && RunEnabled(cfg, sh, r, c) && c.act.Expire?
    ensures DoomSteps(r, c, r.(pc := TimeoutCas))
  {
  }

  lemma DoomAtCas(cfg: Config, sh: Shared, rid: RunId, r: Run, c: Choice)
    requires RunOk(cfg, sh, rid, r) && RunEnabled(cfg, sh, r, c)
    requires HandlerCas(r.pc)
    ensures DoomSteps(r, c, HandlerMove(sh, rid, r, PlanOf(r.pc), c.stamp).1)
  {
    HandlerNotStuck(cfg, sh, rid, r);
    DoomByPlan(sh, rid, r, PlanOf(r.pc), c.stamp);
    DoomPlanned(cfg, sh, rid, r, c);
  }

  lemma DoomPlanned(cfg: Config, sh: Shared, rid: RunId, r: Run, c: Choice)
    requires RunOk(cfg, sh, rid, r) && RunEnabled(cfg, sh, r, c) && HandlerCas(r.pc)
    ensures var plan := PlanOf(r.pc);
      (if !ValidEdge(r.mem.status, plan.target) && !r.exit.Finalized? && Stuck(plan.stuck) then Some(plan.stuck)
       else None)
      == if Doom(r).Some? then Doom(r) else Trigger(r, c)
  {
  }

  /** A transition ends in an exception exactly if its edge is missing and the run has not been finalized before. */
  lemma DoomByPlan(sh: Shared, rid: RunId, r: Run, plan: Plan, stamp: Time)
    requires !Stuck(r.exit) && !Stuck(plan.exit)
    requires !plan.next.TimeoutCas? && !plan.next.RequeueCas? && !plan.next.Failure?
    ensures Doom(HandlerMove(sh, rid, r, plan, stamp).1)
      == if !ValidEdge(r.mem.status, plan.target) && !r.exit.Finalized? && Stuck(plan.stuck) then Some(plan.stuck)
         else None
  {
  }

  lemma DoomAtFailure(cfg: Config, sh: Shared, rid: RunId, r: Run, c: Choice)
    requires RunOk(cfg, sh, rid, r) && RunEnabled(cfg, sh, r, c) && r.pc.Failure?
    ensures DoomSteps(r, c, HandlerStep(cfg, sh, rid, r, c).1)
  {
    assert Owned(sh, rid, r);
  }

  lemma HandlerNotStuck(cfg: Config, sh: Shared, rid: RunId, r: Run)
    requires RunOk(cfg, sh, rid, r) && InHandler(r.pc)
    ensures !Stuck(r.exit)
  {
  }

  lemma DoomElsewhere(cfg: Config, sh: Shared, rid: RunId, r: Run, c: Choice)
    requires InHandler(r.pc) && !HandlerCas(r.pc) && !r.pc.Failure? && !Stuck(r.exit)
    requires !c.act.Throw? && !c.act.Expire?
    ensures DoomSteps(r, c, HandlerStep(cfg, sh, rid, r, c).1)
  {
  }

  lemma DoomInHandler(cfg: Config, sh: Shared, rid: RunId, r: Run, c: Choice)
    requires RunOk(cfg, sh, rid, r) && RunEnabled(cfg, sh, r, c)
    requires InHandler(r.pc) && !HandlerCas(r.pc)
    ensures DoomSteps(r, c, HandlerStep(cfg, sh, rid, r, c).1)
  {
    if r.pc.Failure? {
      DoomAtFailure(cfg, sh, rid, r, c);
    } else {
      HandlerNotStuck(cfg, sh, rid, r);
      DoomElsewhere(cfg, sh, rid, r, c);
    }
  }

  lemma DoomOnEntry(cfg: Config, sh: Shared, rid: RunId, r: Run, c: Choice)
    requires RunOk(cfg, sh, rid, r) && RunEnabled(cfg, sh, r, c)
    requires r.pc.Delivered? || r.pc.ReadQueued? || r.pc.Claimed? || r.pc.Validating?
    ensures DoomSteps(r, c, EntryStep(cfg, sh, rid, r, c).1)
  {
  }

  lemma DoomOnExit(sh: Shared, r: Run, c: Choice)
    requires (r.pc.Cleanup? || r.pc.Finish?) && !c.act.Throw? && !c.act.Expire?
    ensures DoomSteps(r, c, ExitStep(sh, r).1)
  {
  }

  lemma DoomAct(cfg: Config, sh: Shared, rid: RunId, r: Run, c: Choice)
    requires RunOk(cfg, sh, rid, r) && RunEnabled(cfg, sh, r, c)
    ensures DoomSteps(r, c, RunAct(cfg, sh, rid, r, c).1)
  {
    if c.act.Expire? {
      DoomOnExpiry(cfg, sh, rid, r, c);
    } else if InTimeoutBlock(r.pc) {
      DoomInBlock(cfg, sh, rid, r, c);
    } else if HandlerCas(r.pc) {
      DoomAtCas(cfg, sh, rid, r, c);
    } else if InHandler(r.pc) {
      DoomInHandler(cfg, sh, rid, r, c);
    } else if r.pc.Cleanup? || r.pc.Finish? {
      DoomOnExit(sh, r, c);
    } else {
      DoomOnEntry(cfg, sh, rid, r, c);
    }
  }

  /** A run becomes doomed by a trigger and by nothing else, and then to the trigger's own exception. */
  lemma DoomStep(cfg: Config, sh: Shared, rid: RunId, r: Run, c: Choice)
    requires RunOk(cfg, sh, rid, r) && RunEnabled(cfg, sh, r, c)
    ensures DoomSteps(r, c, RunStep(cfg, sh, rid, r, c).1)
  {
    DoomAct(cfg, sh, rid, r, c);
  }

  /**
   The three exceptions, step by step: a run is bound to end with one of them exactly if
   it was before, or this step is the timeout or the plugin's error that triggers it.
   */
  lemma ExceptionsExactly(cfg: Config, s: Slice, rid: RunId, c: Choice)
    requires Reachable(cfg, s) && Enabled(cfg, s, ActRun(rid, c))
    ensures var r, r' := s.runs[rid], Step(cfg, s, ActRun(rid, c)).runs[rid];
      && Doom(r') == (if Doom(r).Some? then Doom(r) else Trigger(r, c))
      && (r'.pc.Done? ==> (Stuck(r'.exit) <==> Doom(r').Some?))
  {
    ReachableOk(cfg, s);
    assert RunOk(cfg, s.sh, rid, s.runs[rid]);
    DoomStep(cfg, s.sh, rid, s.runs[rid], c);
  }

  // ------------------------------------------------------------- what the worker task raises

  /**
   The step in which an error arises that nothing will catch: one of the triggers; a
   timeout once SUCCEEDED is committed, which has no edge to TIMED_OUT; an error in making
   the plugin; or a transition to FAILED outside the guarded block that is stale, or stamped
   before the scan was started, which a CHECK refuses.
   */
  predicate LetsEscape(sh: Shared, r: Run, c: Choice) {
    || Trigger(r, c).Some?
    || (c.act.Expire? && r.pc.PublishCompleted?)
    || (r.pc.ReadQueued? && c.act.Throw?)
    || (r.pc.FailCas? && !r.pc.origin.Guarded?
        && (sh.row.status != r.mem.status || StartedAfter(sh.row, c.stamp)))
  }

  /** Has an error arisen that `run` does not handle? */
  predicate Escaping(r: Run) {
    || Doom(r).Some?
    || r.pc == Cleanup(true) || r.pc == Finish(true) || r.pc == Done(true)
    || (r.pc.TimeoutCas? && r.mem.status.Succeeded?)
  }

  ghost predicate EscapeSteps(sh: Shared, r: Run, c: Choice, r': Run) {
    Escaping(r') <==> Escaping(r) || LetsEscape(sh, r, c)
  }

  lemma EscapeInBlock(cfg: Config, sh: Shared, rid: RunId, r: Run, c: Choice)
    requires RunOk(cfg, sh, rid, r) && RunEnabled(cfg, sh, r, c)
    requires InTimeoutBlock(r.pc) && !c.act.Expire?
    ensures EscapeSteps(sh, r, c, StageStep(sh, rid, r, c).1)
  {
    DoomInBlock(cfg, sh, rid, r, c);
    NobodyEscapes(sh, rid, r, c);
  }

  /** No step of the block leads to where an error is on its way out. */
  lemma NobodyEscapes(sh: Shared, rid: RunId, r: Run, c: Choice)
    requires InTimeoutBlock(r.pc)
    ensures var pc := StageStep(sh, rid, r, c).1.pc; !pc.Finish? && !pc.Done? && pc != Cleanup(true) && !pc.TimeoutCas?
  {
  }

  lemma EscapeOnExpiry(cfg: Config, sh: Shared, rid: RunId, r: Run, c: Choice)
    requires RunOk(cfg, sh, rid, r) && RunEnabled(cfg, sh, r, c) && c.act.Expire?
    ensures EscapeSteps(sh, r, c, r.(pc := TimeoutCas))
  {
    DoomOnExpiry(cfg, sh, rid, r, c);
  }

  /** A CHECK refuses one transition only: FAILED by a worker that does not know the scanner, stamped too early. */
  lemma RefusedExactly(cfg: Config, sh: Shared, rid: RunId, r: Run, stamp: Time)
    requires SharedOk(cfg, sh) && RunOk(cfg, sh, rid, r) && r.seen <= stamp <= sh.now
    requires HandlerCas(r.pc)
    ensures TryTransition(sh.row, r.mem, PlanOf(r.pc).target, stamp).CheckFailed?
      <==> r.pc == FailCas(Unregistered) && sh.row.status.Queued? && StartedAfter(sh.row, stamp)
  {
    if Owner(r) { OwnersPassChecks(cfg, sh, rid, r, PlanOf(r.pc).target, stamp); }
  }

  lemma EscapeAtCas(cfg: Config, sh: Shared, rid: RunId, r: Run, c: Choice)
    requires SharedOk(cfg, sh) && RunOk(cfg, sh, rid, r) && RunEnabled(cfg, sh, r, c)
    requires HandlerCas(r.pc)
    ensures EscapeSteps(sh, r, c, HandlerMove(sh, rid, r, PlanOf(r.pc), c.stamp).1)
  {
    if r.pc.FailCas? {
      EscapeAtFailCas(cfg, sh, rid, r, c);
    } else {
      EscapeAtOtherCas(cfg, sh, rid, r, c);
    }
  }

  lemma EscapeAtFailCas(cfg: Config, sh: Shared, rid: RunId, r: Run, c: Choice)
    requires SharedOk(cfg, sh) && RunOk(cfg, sh, rid, r) && RunEnabled(cfg, sh, r, c)
    requires r.pc.FailCas?
    ensures EscapeSteps(sh, r, c, HandlerMove(sh, rid, r, PlanOf(r.pc), c.stamp).1)
  {
    DoomAtCas(cfg, sh, rid, r, c);
    RefusedExactly(cfg, sh, rid, r, c.stamp);
  }

  lemma EscapeAtOtherCas(cfg: Config, sh: Shared, rid: RunId, r: Run, c: Choice)
    requires SharedOk(cfg, sh) && RunOk(cfg, sh, rid, r) && RunEnabled(cfg, sh, r, c)
    requires HandlerCas(r.pc) && !r.pc.FailCas?
    ensures EscapeSteps(sh, r, c, HandlerMove(sh, rid, r, PlanOf(r.pc), c.stamp).1)
  {
    DoomAtCas(cfg, sh, rid, r, c);
    RefusedExactly(cfg, sh, rid, r, c.stamp);
    GuardedMove(sh, rid, r, PlanOf(r.pc), c.stamp);
    EdgesOfOwner(cfg, sh, rid, r);
  }

  lemma GuardedMove(sh: Shared, rid: RunId, r: Run, plan: Plan, stamp: Time)
    requires plan.guarded && !TryTransition(sh.row, r.mem, plan.target, stamp).CheckFailed?
    ensures var pc := HandlerMove(sh, rid, r, plan, stamp).1.pc;
      if ValidEdge(r.mem.status, plan.target) then pc == plan.next || pc == Reconcile else pc == Cleanup(true)
  {
  }

  /** The edges the except clauses ask for are missing exactly for a run an error is getting out of. */
  lemma EdgesOfOwner(cfg: Config, sh: Shared, rid: RunId, r: Run)
    requires RunOk(cfg, sh, rid, r) && HandlerCas(r.pc) && !r.pc.FailCas?
    ensures ValidEdge(r.mem.status, PlanOf(r.pc).target) <==> !Escaping(r)
  {
  }

  lemma EscapeInHandler(cfg: Config, sh: Shared, rid: RunId, r: Run, c: Choice)
    requires RunOk(cfg, sh, rid, r) && RunEnabled(cfg, sh, r, c)
    requires InHandler(r.pc) && !HandlerCas(r.pc)
    ensures EscapeSteps(sh, r, c, HandlerStep(cfg, sh, rid, r, c).1)
  {
    DoomInHandler(cfg, sh, rid, r, c);
    if r.pc.Failure? {
      EscapeAtFailure(cfg, sh, rid, r, c);
    } else {
      EscapeElsewhere(cfg, sh, rid, r, c);
    }
  }

  lemma EscapeAtFailure(cfg: Config, sh: Shared, rid: RunId, r: Run, c: Choice)
    requires RunOk(cfg, sh, rid, r) && RunEnabled(cfg, sh, r, c) && r.pc.Failure?
    requires DoomSteps(r, c, HandlerStep(cfg, sh, rid, r, c).1)
    ensures EscapeSteps(sh, r, c, HandlerStep(cfg, sh, rid, r, c).1)
  {
    assert Owned(sh, rid, r);
  }

  lemma EscapeElsewhere(cfg: Config, sh: Shared, rid: RunId, r: Run, c: Choice)
    requires RunOk(cfg, sh, rid, r) && InHandler(r.pc) && !HandlerCas(r.pc) && !r.pc.Failure?
    requires !c.act.Throw? && !c.act.Expire?
    requires DoomSteps(r, c, HandlerStep(cfg, sh, rid, r, c).1)
    ensures EscapeSteps(sh, r, c, HandlerStep(cfg, sh, rid, r, c).1)
  {
  }

  lemma EscapeOnEntry(cfg: Config, sh: Shared, rid: RunId, r: Run, c: Choice)
    requires RunOk(cfg, sh, rid, r) && RunEnabled(cfg, sh, r, c)
    requires r.pc.Delivered? || r.pc.ReadQueued? || r.pc.Claimed? || r.pc.Validating?
    ensures EscapeSteps(sh, r, c, EntryStep(cfg, sh, rid, r, c).1)
  {
    DoomOnEntry(cfg, sh, rid, r, c);
  }

  lemma EscapeOnExit(sh: Shared, r: Run, c: Choice)
    requires (r.pc.Cleanup? || r.pc.Finish?) && !c.act.Throw? && !c.act.Expire?
    ensures EscapeSteps(sh, r, c, ExitStep(sh, r).1)
  {
  }

  lemma EscapeAct(cfg: Config, sh: Shared, rid: RunId, r: Run, c: Choice)
    requires SharedOk(cfg, sh) && RunOk(cfg, sh, rid, r) && RunEnabled(cfg, sh, r, c)
    ensures EscapeSteps(sh, r, c, RunAct(cfg, sh, rid, r, c).1)
  {
    if c.act.Expire? {
      EscapeOnExpiry(cfg, sh, rid, r, c);
    } else if InTimeoutBlock(r.pc) {
      EscapeInBlock(cfg, sh, rid, r, c);
    } else if HandlerCas(r.pc) {
      EscapeAtCas(cfg, sh, rid, r, c);
    } else if InHandler(r.pc) {
      EscapeInHandler(cfg, sh, rid, r, c);
    } else if r.pc.Cleanup? || r.pc.Finish? {
      EscapeOnExit(sh, r, c);
    } else {
      EscapeOnEntry(cfg, sh, rid, r, c);
    }
  }

  /** An error gets out by one of the three ways and by nothing else, and once it is on its way nothing stops it. */
  lemma EscapeStep(cfg: Config, sh: Shared, rid: RunId, r: Run, c: Choice)
    requires SharedOk(cfg, sh) && RunOk(cfg, sh, rid, r) && RunEnabled(cfg, sh, r, c)
    ensures EscapeSteps(sh, r, c, RunStep(cfg, sh, rid, r, c).1)
  {
    EscapeAct(cfg, sh, rid, r, c);
  }

  lemma DoneRaises(cfg: Config, sh: Shared, rid: RunId, r: Run)
    requires RunOk(cfg, sh, rid, r) && r.pc.Done?
    ensures Escaping(r) <==> r.pc.raised
  {
  }

  // ----------------------------------------------------------------- the event log

  lemma {:induction false} OutcomesCountsTwo(log: seq<Event>, i: nat, j: nat)
    requires i < j < |log| && Outcome(log[i]) && Outcome(log[j])
    ensures 2 <= Outcomes(log)
  {
    var init := log[..|log| - 1];
    if j < |log| - 1 {
      assert init[i] == log[i] && init[j] == log[j];
      OutcomesCountsTwo(init, i, j);
    } else {
      assert init[i] == log[i];
      OutcomesCountsOne(init, i);
    }
  }

  lemma {:induction false} OutcomesCountsOne(log: seq<Event>, i: nat)
    requires i < |log| && Outcome(log[i])
    ensures 1 <= Outcomes(log)
  {
    if i < |log| - 1 {
      assert log[..|log| - 1][i] == log[i];
      OutcomesCountsOne(log[..|log| - 1], i);
    }
  }

  /**
   The log never lies: at most one outcome is ever announced, each one is the row's own
   status, a cancel is announced only for a cancelled row, and there is at most one dead
   letter, only for a FAILED scan.
   */
  lemma TruthfulLog(cfg: Config, s: Slice)
    requires Reachable(cfg, s)
    ensures forall i, j :: 0 <= i < j < |s.sh.log| ==> !(Outcome(s.sh.log[i]) && Outcome(s.sh.log[j]))
    ensures ScanCompleted in s.sh.log ==> s.sh.row.status.Succeeded?
    ensures ScanFailed in s.sh.log ==> s.sh.row.status.Failed?
    ensures ScanTimedOut in s.sh.log ==> s.sh.row.status.TimedOut?
    ensures ScanCancelled in s.sh.log ==> s.sh.row.status.Cancelled?
    ensures s.sh.deadLetters <= 1 && (s.sh.deadLetters == 1 ==> s.sh.row.status.Failed?)
  {
    ReachableOk(cfg, s);
    forall i, j | 0 <= i < j < |s.sh.log| ensures !(Outcome(s.sh.log[i]) && Outcome(s.sh.log[j])) {
      if Outcome(s.sh.log[i]) && Outcome(s.sh.log[j]) { OutcomesCountsTwo(s.sh.log, i, j); }
    }
  }

  /** Where a run goes that was timed out with its scan already SUCCEEDED. */
  predicate PastSaying(r: Run) {
    || r.pc == Cleanup(true) || r.pc == Finish(true) || r.pc == Done(true) || r.pc == Dead
    || (r.pc == TimeoutCas && r.mem.status.Succeeded?)
  }

  lemma SaysNothing(cfg: Config, sh: Shared, rid: RunId, r: Run, c: Choice)
    requires RunEnabled(cfg, sh, r, c) && PastSaying(r)
    ensures var (sh', r') := RunStep(cfg, sh, rid, r, c); PastSaying(r') && sh' == sh
  {
  }

  /** The scan has succeeded, and the run that finished it will not say so any more. */
  ghost predicate Unsaid(s: Slice, rid: RunId) {
    && s.sh.row.status.Succeeded? && s.sh.finalizer == Some(rid) && Outcomes(s.sh.log) == 0
    && rid in s.runs && PastSaying(s.runs[rid])
  }

  lemma UnsaidByRun(cfg: Config, s: Slice, rid: RunId, actor: RunId, c: Choice)
    requires SliceOk(cfg, s) && Enabled(cfg, s, ActRun(actor, c)) && Unsaid(s, rid)
    ensures var s' := Step(cfg, s, ActRun(actor, c)); Unsaid(s', rid) && s'.sh.row == s.sh.row
  {
    TerminalStep(cfg, s, ActRun(actor, c));
    if actor == rid {
      SaysNothing(cfg, s.sh, rid, s.runs[rid], c);
    } else {
      assert Guarantee(cfg, s.sh, Step(cfg, s, ActRun(actor, c)).sh, Some(actor)) by {
        WorkerStepOk(cfg, s, actor, c);
      }
    }
  }

  lemma UnsaidStep(cfg: Config, s: Slice, l: Label, rid: RunId)
    requires SliceOk(cfg, s) && Enabled(cfg, s, l) && Unsaid(s, rid)
    ensures var s' := Step(cfg, s, l); Unsaid(s', rid) && s'.sh.row == s.sh.row
  {
    if l.ActRun? {
      UnsaidByRun(cfg, s, rid, l.rid, l.choice);
    } else {
      var sh' := EnvStep(cfg, s, l).sh;
      assert Guarantee(cfg, s.sh, sh', None) by { StepOk(cfg, s, l); }
      TerminalStep(cfg, s, l);
      if l != KillRun(rid) { EnvLeavesRun(cfg, s, l, rid); }
    }
  }

  lemma {:induction false} UnsaidForGood(cfg: Config, s: Slice, labels: seq<Label>, rid: RunId)
    requires SliceOk(cfg, s) && Legal(cfg, s, labels) && Unsaid(s, rid)
    ensures var s' := After(cfg, s, labels); Unsaid(s', rid) && s'.sh.row == s.sh.row
    decreases |labels|
  {
    if labels != [] {
      StepOk(cfg, s, labels[0]);
      UnsaidStep(cfg, s, labels[0], rid);
      UnsaidForGood(cfg, Step(cfg, s, labels[0]), labels[1..], rid);
    }
  }

  /**
   A timeout between the commit of SUCCEEDED and its announcement: in every continuation
   the scan has succeeded, no event says so, and the run, unless killed, raises.
   */
  lemma SuccessNeverAnnounced(cfg: Config, s: Slice, rid: RunId, c: Choice, labels: seq<Label>)
    requires Reachable(cfg, s) && Enabled(cfg, s, ActRun(rid, c))
    requires s.runs[rid].pc.PublishCompleted? && c.act.Expire?
    requires Legal(cfg, Step(cfg, s, ActRun(rid, c)), labels)
    ensures var s' := After(cfg, Step(cfg, s, ActRun(rid, c)), labels);
      && s'.sh.row == s.sh.row && s'.sh.row.status.Succeeded? && ScanCompleted !in s'.sh.log
      && rid in s'.runs && (s'.runs[rid].pc.Done? ==> s'.runs[rid].pc.raised)
  {
    ReachableOk(cfg, s);
    assert RunOk(cfg, s.sh, rid, s.runs[rid]);
    StepOk(cfg, s, ActRun(rid, c));
    UnsaidForGood(cfg, Step(cfg, s, ActRun(rid, c)), labels, rid);
    NoOutcomeNoCompletion(After(cfg, Step(cfg, s, ActRun(rid, c)), labels).sh.log);
  }

  lemma NoOutcomeNoCompletion(log: seq<Event>)
    requires Outcomes(log) == 0
    ensures ScanCompleted !in log
  {
    if ScanCompleted in log {
      var i :| 0 <= i < |log| && log[i] == ScanCompleted;
      OutcomesCountsOne(log, i);
    }
  }

  // -------------------------------------------------------------------- timestamps

  /** Where a run asks for a transition, and the status it asks for. */
  predicate Asks(pc: PC) {
    pc.Advance? || pc.Succeed? || HandlerCas(pc)
  }

  function AskedFor(pc: PC): Status
    requires Asks(pc)
  {
    if pc.Advance? then StatusOf(pc.stage) else if pc.Succeed? then Succeeded else PlanOf(pc).target
  }

  /** What the table makes of the transition that a step asks for, if it asks for one. */
  ghost function Verdict(cfg: Config, s: Slice, l: Label): Option<Transition>
    requires Enabled(cfg, s, l)
  {
    if l.ActCancel? && s.cancels[l.cid].pc.Fetched? then
      Some(TryTransition(s.sh.row, s.cancels[l.cid].mem, Cancelled, l.stamp))
    else if l.ActRun? && !l.choice.act.Expire? && Asks(s.runs[l.rid].pc) then
      Some(TryTransition(s.sh.row, s.runs[l.rid].mem, AskedFor(s.runs[l.rid].pc), l.choice.stamp))
    else None
  }

  lemma AskersPassChecks(cfg: Config, sh: Shared, rid: RunId, r: Run, stamp: Time)
    requires SharedOk(cfg, sh) && RunOk(cfg, sh, rid, r) && r.seen <= stamp <= sh.now && Asks(r.pc)
    ensures TryTransition(sh.row, r.mem, AskedFor(r.pc), stamp).CheckFailed?
      <==> r.pc == FailCas(Unregistered) && sh.row.status.Queued? && StartedAfter(sh.row, stamp)
  {
    if HandlerCas(r.pc) {
      RefusedExactly(cfg, sh, rid, r, stamp);
    } else {
      assert Owner(r);
      OwnersPassChecks(cfg, sh, rid, r, AskedFor(r.pc), stamp);
    }
  }

  lemma CancelsPassChecks(cfg: Config, sh: Shared, q: CancelRequest, stamp: Time)
    requires SharedOk(cfg, sh) && CancelOk(sh, q)
    ensures !TryTransition(sh.row, q.mem, Cancelled, stamp).CheckFailed?
  {
  }

  /**
   Of all the transitions asked for in any history, a CHECK refuses exactly one kind: FAILED
   by a worker that does not know the scanner, when the scan waits for a later attempt and
   was started after the stamp.
   */
  lemma ChecksFailExactly(cfg: Config, s: Slice, l: Label)
    requires Reachable(cfg, s) && Enabled(cfg, s, l)
    ensures Verdict(cfg, s, l) == Some(CheckFailed)
      <==> l.ActRun? && s.runs[l.rid].pc == FailCas(Unregistered) && s.sh.row.status.Queued?
           && StartedAfter(s.sh.row, l.choice.stamp)
  {
    ReachableOk(cfg, s);
    if l.ActCancel? {
      assert CancelOk(s.sh, s.cancels[l.cid]);
      CancelsPassChecks(cfg, s.sh, s.cancels[l.cid], l.stamp);
    } else if l.ActRun? && Asks(s.runs[l.rid].pc) {
      assert RunOk(cfg, s.sh, l.rid, s.runs[l.rid]);
      AskersPassChecks(cfg, s.sh, l.rid, s.runs[l.rid], l.choice.stamp);
    }
  }

  /**
   Every row satisfies the CHECKs; exactly the matching terminal stamp is set when the scan
   is over and none before; and nothing is stamped before it was queued.
   */
  lemma StampsAreConsistent(cfg: Config, s: Slice)
    requires Reachable(cfg, s)
    ensures var row := s.sh.row;
      && Checks(row) && 1 <= row.maxAttempts
      && (row.startedAt.Some? ==> row.queuedAt.Some? && row.queuedAt.value <= row.startedAt.value)
      && (row.startedAt.Some? && row.completedAt.Some? ==> row.startedAt.value <= row.completedAt.value)
      && (row.startedAt.Some? && row.failedAt.Some? ==> row.startedAt.value <= row.failedAt.value)
      && (row.startedAt.Some? && row.timedOutAt.Some? ==> row.startedAt.value <= row.timedOutAt.value)
    ensures s.sh.row.completedAt.Some? <==> s.sh.row.status.Succeeded?
    ensures s.sh.row.failedAt.Some? <==> s.sh.row.status.Failed?
    ensures s.sh.row.cancelledAt.Some? <==> s.sh.row.status.Cancelled?
    ensures s.sh.row.timedOutAt.Some? <==> s.sh.row.status.TimedOut?
    ensures s.sh.row.queuedAt.Some?
    ensures s.sh.row.cancelledAt.Some? ==> s.sh.row.queuedAt.value <= s.sh.row.cancelledAt.value <= s.sh.now
  {
    ReachableOk(cfg, s);
  }

  /** `queued_at` and `started_at` are written once, whatever is retried. */
  lemma {:induction false} StampsAreWriteOnce(cfg: Config, s: Slice, labels: seq<Label>)
    requires SliceOk(cfg, s) && Legal(cfg, s, labels)
    ensures var s' := After(cfg, s, labels);
      && s'.sh.row.queuedAt == s.sh.row.queuedAt
      && (s.sh.row.startedAt.Some? ==> s'.sh.row.startedAt == s.sh.row.startedAt)
    decreases |labels|
  {
    if labels != [] {
      StepOk(cfg, s, labels[0]);
      StampsAreWriteOnce(cfg, Step(cfg, s, labels[0]), labels[1..]);
    }
  }

  // ------------------------------------------------------------------ dispatch

  /**
   Conservation of sends.  A dispatcher holds an unpublished row, and holds it alone; the
   messages sent for a row are one for its publication (if recorded, or about to be) and
   one for each dispatcher that died between its send and its commit.
   */
  lemma SendsAreConserved(cfg: Config, s: Slice, a: nat)
    requires Reachable(cfg, s) && a in s.sh.outbox
    ensures s.sh.outbox[a].sends <= 1 + s.sh.outbox[a].deaths
    ensures s.sh.outbox[a].published ==> 1 <= s.sh.outbox[a].sends && !Held(s, a)
    ensures forall d, e ::
      (d in s.dispatchers && s.dispatchers[d].attempt == a && e in s.dispatchers && s.dispatchers[e].attempt == a)
      ==> d == e
  {
    ReachableOk(cfg, s);
    assert RowSendsOk(s, a);
    if s.sh.outbox[a].published { assert !SentFor(s, a); }
  }

  lemma PublishedStep(cfg: Config, s: Slice, l: Label, a: nat)
    requires SliceOk(cfg, s) && Enabled(cfg, s, l)
    requires a in s.sh.outbox && s.sh.outbox[a].published
    ensures var s' := Step(cfg, s, l); a in s'.sh.outbox && s'.sh.outbox[a].published
  {
    if l.ActRun? {
      assert RunOk(cfg, s.sh, l.rid, s.runs[l.rid]);
      WorkersFrame(cfg, s.sh, l.rid, s.runs[l.rid], l.choice);
    }
  }

  /** A published row is published for good, and gets no further message. */
  lemma {:induction false} PublishedForGood(cfg: Config, s: Slice, labels: seq<Label>, a: nat)
    requires SliceOk(cfg, s) && Legal(cfg, s, labels)
    requires a in s.sh.outbox && s.sh.outbox[a].published
    ensures var s' := After(cfg, s, labels); a in s'.sh.outbox && s'.sh.outbox[a].published
    decreases |labels|
  {
    if labels != [] {
      StepOk(cfg, s, labels[0]);
      PublishedStep(cfg, s, labels[0], a);
      PublishedForGood(cfg, Step(cfg, s, labels[0]), labels[1..], a);
    }
  }

  // ------------------------------------------------------------------- the backoff

  /** The countdowns of the rows for attempts 0..n-1, added up. */
  function Countdowns(outbox: map<nat, OutboxRow>, n: nat): real {
    if n == 0 then 0.0
    else Countdowns(outbox, n - 1) + if n - 1 in outbox then outbox[n - 1].countdown else 0.0
  }

  lemma {:induction false} CountdownsBelowDelays(cfg: Config, p: RetryPolicy, outbox: map<nat, OutboxRow>, n: nat)
    requires p.Valid() && CountdownsOk(cfg, outbox)
    requires forall a: nat, d: real :: cfg.drawable(a, d) ==> p.MayReturn(a, d)
    ensures n > 0 ==> Countdowns(outbox, n) <= TotalDelay(p, n - 1)
  {
    if n > 1 {
      CountdownsBelowDelays(cfg, p, outbox, n - 1);
      DelayIsNonNegative(p, n - 1);
      if n - 1 in outbox {
        assert CountdownOk(cfg, n - 1, outbox[n - 1].countdown);
      }
    } else if n == 1 {
      assert Countdowns(outbox, 0) == 0.0;
      if 0 in outbox { assert CountdownOk(cfg, 0, outbox[0].countdown); }
    }
  }

  /**
   All the countdowns of a scan's life together: a scan that may be attempted m times is
   requeued only at attempts below m, each at most once, so it never waits longer than
   min(base * (2^(m-1) - 1), (m-1) * cap).
   */
  lemma BackoffOfALife(cfg: Config, p: RetryPolicy, s: Slice)
    requires Reachable(cfg, s) && p.Valid()
    requires forall a: nat, d: real :: cfg.drawable(a, d) ==> p.MayReturn(a, d)
    ensures var m := s.sh.row.maxAttempts;
      && (forall a :: a in s.sh.outbox ==> a < m)
      && 1 <= m
      && Countdowns(s.sh.outbox, m) <= Geometric(p, m - 1)
      && Countdowns(s.sh.outbox, m) <= Linear(p, m - 1)
  {
    ReachableOk(cfg, s);
    CountdownsBelowDelays(cfg, p, s.sh.outbox, s.sh.row.maxAttempts);
    TotalDelayBound(p, s.sh.row.maxAttempts - 1);
    OutboxIsAPrefix(cfg, s);
  }
}
