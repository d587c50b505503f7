/**
 Why a run ends as it does: which plugin calls it has begun, whether its findings are
 saved, what has been raised in its own steps, and whether the timeout has expired.
 `CauseOk` says what is known of that at each program point.
 */
module ProtocolCauses {
  import opened ScanModel
  import opened Retry
  import opened Protocol
  import opened ProtocolInvariant
  import opened ProtocolRuns
  import opened ProtocolStory

  /** What the run's own steps have been through. */
  datatype Course = Course(begun: seq<Stage>, saved: bool, fault: Option<Fault>, expired: bool) {
    /** After one more step of the run. */
    function Then(r: Run, c: Choice, r': Run): Course {
      Course(
        if r.pc.Plugin? && !r.pc.begun && r'.pc.Plugin? then begun + [r.pc.stage] else begun,
        saved || (r.pc.Persisting? && r'.pc.Succeed?),
        if c.act.Throw? then Some(c.act.fault) else fault,
        expired || c.act.Expire?)
    }
  }

  const NOTHING_BEGUN := Course([], false, None, false)

  /** The plugin calls of an attempt, in order. */
  const CALLS := [Prepare, Execute, Collect, Normalize]

  /** How many plugin calls have been begun at a point of the straight line. */
  function Calls(pc: PC): nat {
    match pc
    case Check(stage) => Reached(stage)
    case Advance(stage) => Reached(stage)
    case Announce(stage) => Reached(stage)
    case Plugin(stage, begun) => Reached(stage) + if begun then 1 else 0
    case Persisting => 4
    case Succeed => 4
    case PublishCompleted => 4
    case _ => 0
  }

  predicate CallsOk(r: Run, t: Course) {
    && |t.begun| <= 4 && t.begun == CALLS[..|t.begun|]
    && (InTimeoutBlock(r.pc) ==> |t.begun| == Calls(r.pc))
    && (Early(r.pc) ==> |t.begun| == 0)
    && (r.pc.Succeed? || r.pc.PublishCompleted? || (0 < r.own && r.mem.status.Succeeded?) ==>
          t.saved && |t.begun| == 4)
  }

  /** An error that is not worth another attempt: by its kind, or because none is left. */
  predicate Final(fault: Fault, mem: Scan) {
    || fault.ConfigFault? || fault.OtherFault?
    || (fault.TransientFault? && !ShouldRetry(mem.attempt, mem.maxAttempts))
  }

  /** Nothing has gone wrong so far. */
  predicate Clean(t: Course) {
    t.fault.None? && !t.expired
  }

  ghost predicate FaultOk(sh: Shared, r: Run, t: Course) {
    && (InTimeoutBlock(r.pc) || r.pc.Claimed? || r.pc.Validating? || r.pc.Delivered? || r.pc.ReadQueued? ==> Clean(t))
    && (r.pc.TimeoutCas? || (0 < r.own && r.mem.status.TimedOut?) ==> t.expired && t.fault.None?)
    && (r.pc == Failure(true) ==> t.fault == Some(TransientFault) && !t.expired)
    && (r.pc == Failure(false) ==>
          !t.expired && (t.fault.None? ==> sh.row.status.Cancelled?)
          && (t.fault.Some? ==> t.fault.value.ConfigFault? || t.fault.value.OtherFault?))
    && (r.pc == FailCas(Guarded) ==>
          !t.expired && (t.fault.None? ==> sh.row.status.Cancelled?) && (t.fault.Some? ==> Final(t.fault.value, r.mem)))
    && (r.pc == FailCas(BadConfig) ==> t.fault == Some(ConfigFault) && !t.expired)
    && (0 < r.own && r.mem.status.Failed? ==> t.fault.Some? && Final(t.fault.value, r.mem) && !t.expired)
    && (r.pc.CancelCas? || (r.pc.SawCancel? && r.exit.Holding?) || (r.exit.Finalized? && r.mem.status.Cancelled?) ==>
          t.fault == Some(CancelledFault) && !t.expired)
    && (r.pc.RequeueCas? || r.exit.Requeued? ==>
          t.fault == Some(TransientFault) && !t.expired && ShouldRetry(r.mem.attempt, r.mem.maxAttempts))
    && (0 < r.own && r.mem.status.Succeeded? && !r.pc.TimeoutCas? && !RaisedPath(r.pc) ==> Clean(t))
  }

  ghost predicate CauseOk(sh: Shared, r: Run, t: Course) {
    CallsOk(r, t) && FaultOk(sh, r, t)
  }

  lemma CauseBegins(sh: Shared, knows: bool)
    ensures CauseOk(sh, NewRun(sh.now, knows), NOTHING_BEGUN)
  {
  }

  /** A cancelled row stays cancelled, and the rest is the run's own. */
  lemma OthersKeepCause(cfg: Config, sh: Shared, sh': Shared, actor: Option<RunId>, r: Run, t: Course)
    requires CauseOk(sh, r, t) && Guarantee(cfg, sh, sh', actor)
    ensures CauseOk(sh', r, t)
  {
  }

  lemma NextCall(n: nat)
    requires n < 4
    ensures CALLS[..n + 1] == CALLS[..n] + [CALLS[n]]
  {
  }

  // ------------------------------------------------------------------------- the calls

  lemma BeginCalls(sh: Shared, rid: RunId, r: Run, c: Choice, t: Course)
    requires CallsOk(r, t) && r.pc.Plugin? && !r.pc.begun
    ensures var r' := StageStep(sh, rid, r, c).1; CallsOk(r', t.Then(r, c, r'))
  {
    NextCall(|t.begun|);
  }

  lemma MoveCalls(sh: Shared, rid: RunId, r: Run, c: Choice, t: Course)
    requires CallsOk(r, t) && (r.pc.Advance? || r.pc.Succeed?)
    ensures var r' := StageStep(sh, rid, r, c).1; CallsOk(r', t.Then(r, c, r'))
  {
  }

  lemma StageCalls(sh: Shared, rid: RunId, r: Run, c: Choice, t: Course)
    requires Knows(sh, r) && MemoryOk(r) && CallsOk(r, t) && InTimeoutBlock(r.pc) && !c.act.Expire?
    ensures var r' := StageStep(sh, rid, r, c).1; CallsOk(r', t.Then(r, c, r'))
  {
    if r.pc.Plugin? && !r.pc.begun {
      BeginCalls(sh, rid, r, c, t);
    } else if r.pc.Advance? || r.pc.Succeed? {
      MoveCalls(sh, rid, r, c, t);
    } else if r.pc.Check? {
      CheckCalls(sh, rid, r, c, t);
    } else {
      OtherCalls(sh, rid, r, c, t);
    }
  }

  lemma CheckCalls(sh: Shared, rid: RunId, r: Run, c: Choice, t: Course)
    requires Knows(sh, r) && CallsOk(r, t) && r.pc.Check?
    ensures var r' := StageStep(sh, rid, r, c).1; CallsOk(r', t.Then(r, c, r'))
  {
  }

  lemma OtherCalls(sh: Shared, rid: RunId, r: Run, c: Choice, t: Course)
    requires CallsOk(r, t)
    requires (r.pc.Plugin? && r.pc.begun) || r.pc.Announce? || r.pc.Persisting? || r.pc.PublishCompleted?
    ensures var r' := StageStep(sh, rid, r, c).1; CallsOk(r', t.Then(r, c, r'))
  {
  }

  /** A transition of an except clause, whatever it comes to, is not to SUCCEEDED. */
  lemma CasCalls(sh: Shared, rid: RunId, r: Run, plan: Plan, c: Choice, t: Course)
    requires CallsOk(r, t) && HandlerCas(r.pc) && !plan.target.Succeeded? && !c.act.Throw? && !c.act.Expire?
    requires !InTimeoutBlock(plan.next) && (Early(plan.next) ==> Early(r.pc))
    ensures var r' := HandlerMove(sh, rid, r, plan, c.stamp).1; CallsOk(r', t.Then(r, c, r'))
  {
  }

  lemma SpeakCalls(cfg: Config, sh: Shared, rid: RunId, r: Run, c: Choice, t: Course)
    requires Knows(sh, r) && CallsOk(r, t) && SpeaksOut(r.pc) && InHandler(r.pc) && !c.act.Throw? && !c.act.Expire?
    ensures var r' := HandlerStep(cfg, sh, rid, r, c).1; CallsOk(r', t.Then(r, c, r'))
  {
  }

  lemma SilentCalls(cfg: Config, sh: Shared, rid: RunId, r: Run, c: Choice, t: Course)
    requires Knows(sh, r) && CallsOk(r, t) && InHandler(r.pc) && !HandlerCas(r.pc) && !c.act.Throw? && !c.act.Expire?
    ensures var r' := HandlerStep(cfg, sh, rid, r, c).1; CallsOk(r', t.Then(r, c, r'))
  {
    if SpeaksOut(r.pc) { SpeakCalls(cfg, sh, rid, r, c, t); }
  }

  lemma EntryCalls(cfg: Config, sh: Shared, rid: RunId, r: Run, c: Choice, t: Course)
    requires Knows(sh, r) && CallsOk(r, t)
    requires r.pc.Delivered? || r.pc.ReadQueued? || r.pc.Claimed? || r.pc.Validating?
    ensures var r' := EntryStep(cfg, sh, rid, r, c).1; CallsOk(r', t.Then(r, c, r'))
  {
  }

  lemma ActCalls(cfg: Config, sh: Shared, rid: RunId, r: Run, c: Choice, t: Course)
    requires RunEnabled(cfg, sh, r, c) && Knows(sh, r) && MemoryOk(r) && CallsOk(r, t)
    ensures var r' := RunAct(cfg, sh, rid, r, c).1; CallsOk(r', t.Then(r, c, r'))
  {
    if c.act.Expire? {
    } else if InTimeoutBlock(r.pc) {
      StageCalls(sh, rid, r, c, t);
    } else if HandlerCas(r.pc) {
      CasCalls(sh, rid, r, PlanOf(r.pc), c, t);
    } else if InHandler(r.pc) {
      SilentCalls(cfg, sh, rid, r, c, t);
    } else if !r.pc.Cleanup? && !r.pc.Finish? {
      EntryCalls(cfg, sh, rid, r, c, t);
    }
  }

  // ------------------------------------------------------------------------ the faults

  /** On the straight line a transition that does not match has met a cancel. */
  lemma MovesOrCancelled(cfg: Config, sh: Shared, rid: RunId, r: Run, c: Choice)
    requires SharedOk(cfg, sh) && RunOk(cfg, sh, rid, r) && RunEnabled(cfg, sh, r, c)
    requires r.pc.Advance? || r.pc.Succeed?
    ensures var target := if r.pc.Advance? then StatusOf(r.pc.stage) else Succeeded;
      TryTransition(sh.row, r.mem, target, c.stamp).Moved? || sh.row.status.Cancelled?
  {
    assert Owned(sh, rid, r);
    OwnersPassChecks(cfg, sh, rid, r, if r.pc.Advance? then StatusOf(r.pc.stage) else Succeeded, c.stamp);
  }

  lemma MoveFaults(sh: Shared, rid: RunId, r: Run, c: Choice, t: Course)
    requires Knows(sh, r) && MemoryOk(r) && FaultOk(sh, r, t) && (r.pc.Advance? || r.pc.Succeed?) && c.act.Proceed?
    requires var target := if r.pc.Advance? then StatusOf(r.pc.stage) else Succeeded;
      TryTransition(sh.row, r.mem, target, c.stamp).Moved? || sh.row.status.Cancelled?
    ensures var (sh', r') := StageStep(sh, rid, r, c); FaultOk(sh', r', t.Then(r, c, r'))
  {
  }

  lemma PluginFaults(sh: Shared, rid: RunId, r: Run, c: Choice, t: Course)
    requires Knows(sh, r) && FaultOk(sh, r, t) && !c.act.Expire?
    requires r.pc.Plugin? || r.pc.Persisting?
    requires c.act.Throw? ==> Raises(r.pc)
    ensures var (sh', r') := StageStep(sh, rid, r, c); FaultOk(sh', r', t.Then(r, c, r'))
  {
  }

  lemma OtherFaults(sh: Shared, rid: RunId, r: Run, c: Choice, t: Course)
    requires Knows(sh, r) && MemoryOk(r) && FaultOk(sh, r, t) && c.act.Proceed?
    requires r.pc.Check? || r.pc.Announce? || r.pc.PublishCompleted?
    ensures var (sh', r') := StageStep(sh, rid, r, c); FaultOk(sh', r', t.Then(r, c, r'))
  {
  }

  lemma CasMovesFault(r: Run, row: Scan, sh: Shared, sh': Shared, t: Course)
    requires Knows(sh, r) && MemoryOk(r) && FaultOk(sh, r, t) && HandlerCas(r.pc)
    requires row.status == PlanOf(r.pc).target && (sh.row.status == r.mem.status)
    requires row.attempt == sh.row.attempt && row.maxAttempts == sh.row.maxAttempts
    ensures var r' := r.(mem := row, pending := None, exit := PlanOf(r.pc).exit, pc := PlanOf(r.pc).next);
      FaultOk(sh', r', t)
  {
  }

  lemma CasFailsFault(r: Run, pc': PC, exit': Exit, sh: Shared, t: Course)
    requires Knows(sh, r) && MemoryOk(r) && FaultOk(sh, r, t) && HandlerCas(r.pc)
    requires pc' == Reconcile || pc' == Cleanup(true) || pc' == Finish(true)
    requires exit' == r.exit || exit' == LostToCancel || Stuck(exit') || exit'.Unexplained?
    requires r.mem.status.Succeeded? ==> pc' != Reconcile
    ensures FaultOk(sh, r.(pc := pc', exit := exit'), t)
  {
  }

  lemma MovedAs(row: Scan, mem: Scan, target: Status, stamp: Time, r: Scan)
    requires TryTransition(row, mem, target, stamp) == Moved(r)
    ensures r.status == target && row.status == mem.status
    ensures r.attempt == row.attempt && r.maxAttempts == row.maxAttempts
  {
  }

  lemma FailedAs(sh: Shared, rid: RunId, r: Run, stamp: Time)
    requires HandlerCas(r.pc) && !TryTransition(sh.row, r.mem, PlanOf(r.pc).target, stamp).Moved?
    ensures var (sh', r') := HandlerMove(sh, rid, r, PlanOf(r.pc), stamp);
      && sh' == sh && r' == r.(pc := r'.pc, exit := r'.exit)
      && (r'.pc == Reconcile || r'.pc == Cleanup(true) || r'.pc == Finish(true))
      && (r'.exit == r.exit || r'.exit == LostToCancel || Stuck(r'.exit) || r'.exit.Unexplained?)
  {
  }

  lemma CasFaults(sh: Shared, rid: RunId, r: Run, c: Choice, t: Course)
    requires Knows(sh, r) && MemoryOk(r) && FaultOk(sh, r, t) && HandlerCas(r.pc)
    ensures var (sh', r') := HandlerMove(sh, rid, r, PlanOf(r.pc), c.stamp); FaultOk(sh', r', t)
  {
    var (sh', r') := HandlerMove(sh, rid, r, PlanOf(r.pc), c.stamp);
    match TryTransition(sh.row, r.mem, PlanOf(r.pc).target, c.stamp)
    case Moved(row) =>
      MovedAs(sh.row, r.mem, PlanOf(r.pc).target, c.stamp, row);
      CasMovesFault(r, row, sh, sh', t);
    case _ =>
      FailedAs(sh, rid, r, c.stamp);
      if !r.mem.status.Succeeded? || r'.pc != Reconcile { CasFailsFault(r, r'.pc, r'.exit, sh, t); }
  }

  lemma PublishFaults(cfg: Config, sh: Shared, rid: RunId, r: Run, c: Choice, t: Course)
    requires Knows(sh, r) && MemoryOk(r) && FaultOk(sh, r, t) && c.act.Proceed?
    requires SpeaksOut(r.pc) || r.pc.DeadLetter?
    ensures var (sh', r') := HandlerStep(cfg, sh, rid, r, c); FaultOk(sh', r', t)
  {
  }

  lemma TurnFaults(cfg: Config, sh: Shared, rid: RunId, r: Run, c: Choice, t: Course)
    requires Knows(sh, r) && MemoryOk(r) && FaultOk(sh, r, t) && c.act.Proceed?
    requires r.pc.Failure? || r.pc.SawCancel? || r.pc.Reconcile?
    ensures var (sh', r') := HandlerStep(cfg, sh, rid, r, c); FaultOk(sh', r', t)
  {
  }

  lemma EntryFaults(cfg: Config, sh: Shared, rid: RunId, r: Run, c: Choice, t: Course)
    requires Knows(sh, r) && MemoryOk(r) && FaultOk(sh, r, t) && !c.act.Expire?
    requires r.pc.Delivered? || r.pc.ReadQueued? || r.pc.Claimed? || r.pc.Validating?
    requires c.act.Throw? ==> Raises(r.pc)
    ensures var (sh', r') := EntryStep(cfg, sh, rid, r, c); FaultOk(sh', r', t.Then(r, c, r'))
  {
  }

  lemma BlockFaults(cfg: Config, sh: Shared, rid: RunId, r: Run, c: Choice, t: Course)
    requires SharedOk(cfg, sh) && RunOk(cfg, sh, rid, r) && RunEnabled(cfg, sh, r, c)
    requires Knows(sh, r) && MemoryOk(r) && FaultOk(sh, r, t) && InTimeoutBlock(r.pc) && !c.act.Expire?
    ensures var (sh', r') := StageStep(sh, rid, r, c); FaultOk(sh', r', t.Then(r, c, r'))
  {
    if r.pc.Advance? || r.pc.Succeed? {
      MovesOrCancelled(cfg, sh, rid, r, c);
      MoveFaults(sh, rid, r, c, t);
    } else if r.pc.Plugin? || r.pc.Persisting? {
      PluginFaults(sh, rid, r, c, t);
    } else {
      OtherFaults(sh, rid, r, c, t);
    }
  }

  lemma HandlerFaults(cfg: Config, sh: Shared, rid: RunId, r: Run, c: Choice, t: Course)
    requires RunEnabled(cfg, sh, r, c)
    requires Knows(sh, r) && MemoryOk(r) && FaultOk(sh, r, t) && InHandler(r.pc)
    ensures var (sh', r') := HandlerStep(cfg, sh, rid, r, c); FaultOk(sh', r', t.Then(r, c, r'))
  {
    if HandlerCas(r.pc) {
      CasFaults(sh, rid, r, c, t);
    } else if SpeaksOut(r.pc) || r.pc.DeadLetter? {
      PublishFaults(cfg, sh, rid, r, c, t);
    } else {
      TurnFaults(cfg, sh, rid, r, c, t);
    }
  }

  lemma ExitFaults(sh: Shared, r: Run, t: Course)
    requires FaultOk(sh, r, t) && (r.pc.Cleanup? || r.pc.Finish?)
    ensures var (sh', r') := ExitStep(sh, r); FaultOk(sh', r', t)
  {
  }

  lemma ExpiryFaults(sh: Shared, r: Run, c: Choice, t: Course)
    requires Knows(sh, r) && MemoryOk(r) && FaultOk(sh, r, t) && InTimeoutBlock(r.pc) && c.act.Expire?
    ensures var r' := r.(pc := TimeoutCas); FaultOk(sh, r', t.Then(r, c, r'))
  {
  }

  lemma ActFaults(cfg: Config, sh: Shared, rid: RunId, r: Run, c: Choice, t: Course)
    requires SharedOk(cfg, sh) && RunOk(cfg, sh, rid, r) && RunEnabled(cfg, sh, r, c)
    requires Knows(sh, r) && MemoryOk(r) && FaultOk(sh, r, t)
    ensures var (sh', r') := RunAct(cfg, sh, rid, r, c); FaultOk(sh', r', t.Then(r, c, r'))
  {
    if c.act.Expire? {
      ExpiryFaults(sh, r, c, t);
    } else if InTimeoutBlock(r.pc) {
      BlockFaults(cfg, sh, rid, r, c, t);
    } else if InHandler(r.pc) {
      HandlerFaults(cfg, sh, rid, r, c, t);
    } else if r.pc.Cleanup? || r.pc.Finish? {
      ExitFaults(sh, r, t);
    } else {
      EntryFaults(cfg, sh, rid, r, c, t);
    }
  }

  /** The causes are known after every step of the run. */
  lemma CauseGoesOn(cfg: Config, sh: Shared, rid: RunId, r: Run, c: Choice, t: Course)
    requires SharedOk(cfg, sh) && RunOk(cfg, sh, rid, r) && RunEnabled(cfg, sh, r, c)
    requires MemoryOk(r) && CauseOk(sh, r, t)
    ensures var (sh', r') := RunStep(cfg, sh, rid, r, c); CauseOk(sh', r', t.Then(r, c, r'))
  {
    RunKnows(cfg, sh, rid, r);
    ActCalls(cfg, sh, rid, r, c, t);
    ActFaults(cfg, sh, rid, r, c, t);
  }
}
