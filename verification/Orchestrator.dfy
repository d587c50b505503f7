/**
 The worker's control flow as the code writes it: one object, one session, nested
 handlers.  `past` is the ghost history of one run of the step relation; every awaited call
 is shown to be one `RunStep` more (`Took`), and between any two of them other
 actors may do whatever their guarantee allows (`OthersAct`).  So whatever is proved
 about the step relation holds of this code.
 */
module Orchestrator {
  import opened ScanModel
  import opened Retry
  import opened Protocol
  import opened ProtocolInvariant
  import opened ProtocolRuns
  import opened RunHistory
  import opened ProtocolOutcomes
  import opened Persistence
  import opened Events

  /** Where the inner try sends what the guarded block raises. */
  function HandlerOf(e: Error): PC {
    match e
    case Timeout => TimeoutCas
    case PluginFault(fault) => Caught(fault)
    case _ => Failure(false)
  }

  function ClassifyError(e: Error): ErrorClass {
    if e == PluginFault(TransientFault) then Transient else Permanent
  }

  // ------------------------------------- which program points announce, which ones move

  predicate Speaks(pc: PC) {
    || pc.Claimed? || pc.Announce? || pc.PublishCompleted? || pc.PublishTimedOut? || pc.PublishCancelled?
    || pc.PublishRequeued? || pc.PublishFailed?
  }

  function Announcement(pc: PC): Event
    requires Speaks(pc)
  {
    match pc
    case Claimed => ScanStarted
    case Announce(stage) => ScanProgress(StatusOf(stage))
    case PublishCompleted => ScanCompleted
    case PublishTimedOut => ScanTimedOut
    case PublishCancelled => ScanCancelled
    case PublishRequeued => ScanProgress(Queued)
    case PublishFailed(_) => ScanFailed
  }

  function AfterAnnouncement(pc: PC): PC
    requires Speaks(pc)
  {
    match pc
    case Claimed => Validating(false)
    case Announce(stage) => Plugin(stage, false)
    case PublishFailed(origin) => DeadLetter(origin)
    case _ => Cleanup(false)
  }

  predicate Moves(pc: PC) {
    pc.Advance? || pc.Succeed? || HandlerCas(pc)
  }

  function Target(pc: PC): Status
    requires Moves(pc)
  {
    if pc.Advance? then StatusOf(pc.stage) else if pc.Succeed? then Succeeded else PlanOf(pc).target
  }

  /** Where a transition leaves the run when it returns, and when it raises. */
  function AfterTransition(pc: PC, outcome: Outcome): PC
    requires Moves(pc)
  {
    if outcome.Returned? then
      if pc.Advance? then Announce(pc.stage) else if pc.Succeed? then PublishCompleted else PlanOf(pc).next
    else if !HandlerCas(pc) then Failure(false)
    else if !PlanOf(pc).guarded then Finish(true)
    else if outcome == Raised(StaleScanState) then Reconcile
    else Cleanup(true)
  }

  lemma BlockPublishes(sh: Shared, rid: RunId, r: Run, c: Choice)
    requires r.pc.Announce? || r.pc.PublishCompleted?
    ensures StageStep(sh, rid, r, c)
      == Protocol.Publish(sh, r, Announcement(r.pc), c.ok, AfterAnnouncement(r.pc))
  {
  }

  lemma HandlerPublishes(cfg: Config, sh: Shared, rid: RunId, r: Run, c: Choice)
    requires Speaks(r.pc) && InHandler(r.pc)
    ensures HandlerStep(cfg, sh, rid, r, c)
      == Protocol.Publish(sh, r, Announcement(r.pc), c.ok, AfterAnnouncement(r.pc))
  {
  }

  lemma PublishIsStep(cfg: Config, sh: Shared, rid: RunId, r: Run, persisted: bool)
    requires Speaks(r.pc) && r.seen <= sh.now
    ensures var c := Plain(sh.now).(ok := persisted);
      && RunEnabled(cfg, sh, r, c)
      && RunStep(cfg, sh, rid, r, c)
         == var (sh', r') := Protocol.Publish(sh, r, Announcement(r.pc), persisted, AfterAnnouncement(r.pc));
            (sh', r'.(seen := sh'.now))
  {
    var c := Plain(sh.now).(ok := persisted);
    if InHandler(r.pc) {
      HandlerPublishes(cfg, sh, rid, r, c);
    } else if !r.pc.Claimed? {
      BlockPublishes(sh, rid, r, c);
    }
  }

  lemma ClaimIsStep(cfg: Config, sh: Shared, rid: RunId, r: Run)
    requires r.pc.ReadQueued? && r.pending.None? && r.seen <= sh.now
    ensures RunEnabled(cfg, sh, r, Plain(sh.now))
    ensures var (sh', r') := RunStep(cfg, sh, rid, r, Plain(sh.now));
      r'.pending.None? && match Claim(sh.row, r.mem.attempt)
      case None => sh' == sh && r'.mem == r.mem && r'.pc == Finish(false)
      case Some(row) =>
        sh' == Committed(sh, Some(rid), Unit(Some(row), None, 1)) && r'.mem == row && r'.pc == Claimed
  {
  }

  lemma CheckIsStep(cfg: Config, sh: Shared, rid: RunId, r: Run, stage: Stage)
    requires r.pc == Check(stage) && r.seen <= sh.now
    ensures RunEnabled(cfg, sh, r, Plain(sh.now))
    ensures var (sh', r') := RunStep(cfg, sh, rid, r, Plain(sh.now));
      && sh' == sh && r'.mem == sh.row && r'.pending == r.pending && r'.seen == sh.now
      && r'.pc == if sh.row.status.Cancelled? then SawCancel
                  else if stage.Prepare? then Plugin(Prepare, false) else Advance(stage)
  {
  }

  /** What a step that attempts the transition `t` of the run `r` comes to. */
  ghost predicate Attempted(sh: Shared, rid: RunId, r: Run, t: Transition, sh': Shared, r': Run)
    requires Moves(r.pc)
  {
    match t
    case Moved(row) =>
      && sh' == Committed(sh, Some(rid), Unit(Some(row), r.pending, 1))
      && r'.mem == row && r'.pending == None && r'.pc == AfterTransition(r.pc, Returned)
    case Stale =>
      && sh' == sh && r'.mem == r.mem && r'.pending == r.pending
      && r'.pc == AfterTransition(r.pc, Raised(StaleScanState))
    case InvalidEdge =>
      && sh' == sh && r'.mem == r.mem && r'.pending == r.pending
      && r'.pc == AfterTransition(r.pc, Raised(InvalidScanTransition))
    case CheckFailed =>
      && sh' == sh && r'.mem == r.mem && r'.pending == r.pending
      && r'.pc == AfterTransition(r.pc, Raised(CheckViolation))
  }

  lemma BlockMoves(sh: Shared, rid: RunId, r: Run, c: Choice)
    requires r.pc.Advance? || r.pc.Succeed?
    ensures var (sh', r') := StageStep(sh, rid, r, c);
      Attempted(sh, rid, r, TryTransition(sh.row, r.mem, Target(r.pc), c.stamp), sh', r')
  {
  }

  lemma PlannedMove(sh: Shared, rid: RunId, r: Run, plan: Plan, stamp: Time)
    ensures var (sh', r') := HandlerMove(sh, rid, r, plan, stamp);
      var t := TryTransition(sh.row, r.mem, plan.target, stamp);
      if t.Moved? then
        && sh' == Committed(sh, Some(rid), Unit(Some(t.row), r.pending, 1))
        && r'.mem == t.row && r'.pending == None && r'.pc == plan.next
      else
        && sh' == sh && r'.mem == r.mem && r'.pending == r.pending
        && r'.pc == if !plan.guarded then Finish(true) else if t.Stale? then Reconcile else Cleanup(true)
  {
  }

  lemma HandlerMoves(sh: Shared, rid: RunId, r: Run, stamp: Time)
    requires HandlerCas(r.pc)
    ensures var (sh', r') := HandlerMove(sh, rid, r, PlanOf(r.pc), stamp);
      Attempted(sh, rid, r, TryTransition(sh.row, r.mem, Target(r.pc), stamp), sh', r')
  {
    PlannedMove(sh, rid, r, PlanOf(r.pc), stamp);
  }

  lemma TransitionIsStep(cfg: Config, sh: Shared, rid: RunId, r: Run, stamp: Time)
    requires Moves(r.pc) && r.seen <= stamp <= sh.now
    ensures RunEnabled(cfg, sh, r, Plain(stamp))
    ensures var (sh', r') := RunStep(cfg, sh, rid, r, Plain(stamp));
      Attempted(sh, rid, r, TryTransition(sh.row, r.mem, Target(r.pc), stamp), sh', r')
  {
    if HandlerCas(r.pc) {
      HandlerMoves(sh, rid, r, stamp);
    } else {
      BlockMoves(sh, rid, r, Plain(stamp));
    }
  }

  /** The choice of a step that needs none but the clock. */
  function Plain(stamp: Time): Choice {
    Choice(Proceed, stamp, 0.0, true)
  }

  /** The countdowns that can be drawn for a requeue are those of the retry policy. */
  function ConfigOf(policy: RetryPolicy): Config {
    Config((attempt: nat, delay: real) => policy.MayReturn(attempt, delay))
  }

  /** The row a failing owner is about to insert is not there: the unique constraint cannot fire. */
  lemma RequeueIsFree(cfg: Config, rid: RunId, past: Past)
    requires Lawful(cfg, rid, past) && past.run.pc.Failure?
    ensures past.run.pending.None? && past.run.mem.attempt !in past.sh.outbox
  {
    PastOk(cfg, rid, past);
    assert Owned(past.sh, rid, past.run);
  }

  method NextDelaySeconds(policy: RetryPolicy, attempt: nat) returns (delay: real)
    requires policy.Valid()
    ensures policy.MayReturn(attempt, delay)
  {
    DelayIsNonNegative(policy, attempt);
    delay := policy.Delay(attempt);
    if policy.jitter {
      var drawn: real := *;
      if 0.0 <= drawn <= delay { delay := drawn; }
    }
  }

  class ScanOrchestrator {
    const cfg: Config
    const policy: RetryPolicy
    const rid: RunId
    const registered: bool
    const tenantId: TenantId
    const session: Session
    const scans: ScanRepository
    const outbox: ScanOutboxRepository
    const stateMachine: ScanStateMachine
    const events: InMemoryEventBus
    ghost const start: Shared
    ghost var past: Past

    constructor (
        cfg: Config, policy: RetryPolicy, rid: RunId, registered: bool, tenantId: TenantId, session: Session)
      requires session.actor == Some(rid) && session.unit == NOTHING_FLUSHED && session.scan == NOT_READ
      requires policy.Valid() && cfg == ConfigOf(policy)
      requires session.tables.present && SharedOk(cfg, session.tables.shared)
      ensures this.cfg == cfg && this.rid == rid && this.tenantId == tenantId && this.session == session
      ensures this.registered == registered
      ensures Agrees() && past.run.pc == Delivered && past.run.knows == registered && start == session.tables.shared
    {
      this.cfg, this.policy := cfg, policy;
      this.rid, this.registered, this.tenantId, this.session := rid, registered, tenantId, session;
      scans := new ScanRepository(session);
      outbox := new ScanOutboxRepository(session);
      stateMachine := new ScanStateMachine(session);
      events := new InMemoryEventBus(session);
      start := session.tables.shared;
      past := Beginning(session.tables.shared, registered);
      new;
      events.WireSubscribers();
      BeginningIsLawful(cfg, rid, session.tables.shared, registered);
    }

    ghost predicate Wired() {
      && session.actor == Some(rid)
      && scans.session == session && outbox.session == session && events.session == session
      && stateMachine.session == session && stateMachine.scans.session == session
      && policy.Valid() && cfg == ConfigOf(policy)
    }

    /** What the code has done is a history of the protocol that has led to this very state. */
    ghost predicate Agrees()
      reads this, session, session.tables
    {
      && Wired()
      && session.tables.present
      && Lawful(cfg, rid, past) && past.trail[0].sh == start
      && session.tables.shared == past.sh
      && session.scan == past.run.mem
      && session.unit == Unit(None, past.run.pending, 0)
      && past.run.seen <= past.sh.now
    }

    /** Between two awaits, any number of steps of anybody else. */
    method OthersAct()
      requires Agrees()
      modifies session.tables`shared, this`past
      ensures Agrees() && past.run == old(past.run)
      ensures old(past.sh.now) <= past.sh.now && old(past.sh.log) <= past.sh.log
    {
      var steps: int := *;
      for i := 0 to if steps < 0 then 0 else steps
        invariant Agrees() && past.run == old(past.run)
        invariant old(past.sh.now) <= past.sh.now && old(past.sh.log) <= past.sh.log
      {
        var next: Shared := *;
        var actor: Option<RunId> := *;
        if actor != Some(rid) && SharedOk(cfg, next) && Guarantee(cfg, session.tables.shared, next, actor) {
          OthersAreLawful(cfg, rid, past, next, actor);
          past := past.Then(next, past.run, Others(actor));
          session.tables.shared := next;
        }
      }
    }

    /** What has just been done to the tables and the session is one step of the run. */
    ghost method Took(c: Choice)
      requires Wired() && session.tables.present && Lawful(cfg, rid, past) && past.trail[0].sh == start
      requires RunEnabled(cfg, past.sh, past.run, c)
      requires var (sh', r') := RunStep(cfg, past.sh, rid, past.run, c);
        && session.tables.shared == sh' && session.scan == r'.mem
        && session.unit == Unit(None, r'.pending, 0)
      modifies this`past
      ensures Agrees() && past.run == RunStep(cfg, old(past.sh), rid, old(past.run), c).1
    {
      var (sh', r') := RunStep(cfg, past.sh, rid, past.run, c);
      OwnStepIsLawful(cfg, rid, past, c);
      past := past.Then(sh', r', Own(c));
    }

    // ---------------------------------------------- what the code awaits, step by step

    /** `get_by_id` refreshes the in-memory scan; the caller says which step that was. */
    method Read()
      requires Agrees()
      modifies session.tables`shared, session`scan, this`past
      ensures Wired() && session.tables.present && Lawful(cfg, rid, past) && past.trail[0].sh == start
      ensures past.run == old(past.run) && session.tables.shared == past.sh && session.scan == past.sh.row
      ensures session.unit == Unit(None, past.run.pending, 0) && past.run.seen <= past.sh.now
    {
      OthersAct();
      var found := scans.GetById(session.tables.tenantId);
    }

    method Publish(e: Event)
      requires Agrees() && Speaks(past.run.pc) && Announcement(past.run.pc) == e
      modifies session.tables, session`unit, this`past
      ensures Agrees() && past.run.pc == AfterAnnouncement(old(past.run.pc))
      ensures e in session.tables.shared.log
    {
      OthersAct();
      var called, raised, persisted := events.Publish(e);
      PublishIsStep(cfg, past.sh, rid, past.run, persisted);
      Took(Plain(past.sh.now).(ok := persisted));
    }

    /**
     A transition.  The clock is read first; whatever others do before the update itself
     is seen by its guard.
     */
    method Transition(target: Status) returns (outcome: Outcome)
      requires Agrees() && Moves(past.run.pc) && Target(past.run.pc) == target
      modifies session.tables, session, this`past
      ensures Agrees() && past.run.pc == AfterTransition(old(past.run.pc), outcome)
      ensures outcome in {Returned, Raised(StaleScanState), Raised(InvalidScanTransition), Raised(CheckViolation)}
    {
      var now := session.tables.shared.now;
      OthersAct();
      outcome := stateMachine.Transition(target, now);
      TransitionIsStep(cfg, past.sh, rid, past.run, now);
      Took(Plain(now));
    }

    /** `asyncio.timeout` may expire at any await of the guarded block. */
    method Expires() returns (expired: bool)
      requires Agrees() && InTimeoutBlock(past.run.pc)
      modifies session.tables`shared, this`past
      ensures Agrees() && (if expired then past.run.pc == TimeoutCas else past.run == old(past.run))
    {
      OthersAct();
      expired := *;
      if expired { Took(Plain(past.sh.now).(act := Expire)); }
    }

    // ------------------------------------------------------------- the guarded block

    method AssertNotCancelled(ghost stage: Stage) returns (outcome: Outcome)
      requires Agrees() && past.run.pc == Check(stage)
      modifies session.tables`shared, session`scan, this`past
      ensures Agrees()
      ensures outcome.Returned? ==> past.run.pc == if stage.Prepare? then Plugin(Prepare, false) else Advance(stage)
      ensures outcome.Raised? ==> outcome.error == PluginFault(CancelledFault) && past.run.pc == SawCancel
      ensures outcome.Raised? <==> session.tables.shared.row.status.Cancelled?
      ensures session.scan == session.tables.shared.row
    {
      Read();
      CheckIsStep(cfg, past.sh, rid, past.run, stage);
      Took(Plain(past.sh.now));
      outcome := if session.scan.status.Cancelled? then Raised(PluginFault(CancelledFault)) else Returned;
    }

    /** `prepare`, `execute`, `collect_results`, `normalize_findings`: arbitrary plugin code. */
    method CallPlugin(ghost stage: Stage) returns (outcome: Outcome)
      requires Agrees() && past.run.pc == Plugin(stage, false)
      modifies session.tables`shared, this`past
      ensures Agrees()
      ensures outcome.Returned? ==> past.run.pc == AfterPlugin(stage)
      ensures outcome.Raised? ==> past.run.pc == HandlerOf(outcome.error)
    {
      OthersAct();
      Took(Plain(past.sh.now));
      var expired := Expires();
      if expired { return Raised(Timeout); }
      outcome := Fails();
      if outcome.Raised? {
        Took(Plain(past.sh.now).(act := Throw(outcome.error.fault)));
      } else {
        Took(Plain(past.sh.now));
      }
    }

    /** Foreign code returns, or raises anything. */
    method Fails() returns (outcome: Outcome)
      ensures outcome.Raised? ==> outcome.error.PluginFault?
    {
      var raises: bool := *;
      var fault: Fault := *;
      outcome := if raises then Raised(PluginFault(fault)) else Returned;
    }

    method Announcing(ghost stage: Stage, target: Status) returns (outcome: Outcome)
      requires Agrees() && past.run.pc == Announce(stage) && target == StatusOf(stage)
      modifies session.tables, session`unit, this`past
      ensures Agrees()
      ensures outcome.Returned? ==>
        past.run.pc == Plugin(stage, false) && ScanProgress(target) in session.tables.shared.log
      ensures outcome.Raised? ==> past.run.pc == HandlerOf(outcome.error)
    {
      var expired := Expires();
      if expired { return Raised(Timeout); }
      assert past.run.pc == Announce(stage);
      Publish(ScanProgress(target));
      outcome := Returned;
    }

    method Advancing(ghost stage: Stage, target: Status) returns (outcome: Outcome)
      requires Agrees() && past.run.pc == Advance(stage) && target == StatusOf(stage)
      modifies session.tables, session, this`past
      ensures Agrees()
      ensures outcome.Returned? ==> past.run.pc == Announce(stage)
      ensures outcome.Raised? ==> past.run.pc == HandlerOf(outcome.error)
    {
      var expired := Expires();
      if expired { return Raised(Timeout); }
      outcome := Transition(target);
    }

    /** A stage boundary: cooperative cancellation is noticed here, or the timeout. */
    method AtBoundary(ghost stage: Stage) returns (outcome: Outcome)
      requires Agrees() && past.run.pc == Check(stage)
      modifies session.tables`shared, session`scan, this`past
      ensures Agrees()
      ensures outcome.Returned? ==> past.run.pc == if stage.Prepare? then Plugin(Prepare, false) else Advance(stage)
      ensures outcome.Raised? ==> past.run.pc == HandlerOf(outcome.error)
    {
      var expired := Expires();
      if expired { return Raised(Timeout); }
      outcome := AssertNotCancelled(stage);
    }

    /** A boundary, the transition that opens the stage (PREPARING is already there), the stage. */
    method RunStage(ghost stage: Stage, target: Status) returns (outcome: Outcome)
      requires Agrees() && past.run.pc == Check(stage) && target == StatusOf(stage)
      modifies session.tables, session, this`past
      ensures Agrees()
      ensures outcome.Returned? ==> past.run.pc == AfterPlugin(stage)
      ensures outcome.Raised? ==> past.run.pc == HandlerOf(outcome.error)
    {
      outcome := AtBoundary(stage);
      if outcome.Raised? { return; }
      if !target.Preparing? {
        outcome := Advancing(stage, target);
        if outcome.Raised? { return; }
        outcome := Announcing(stage, target);
        if outcome.Raised? { return; }
      }
      outcome := CallPlugin(stage);
    }

    method RunStages() returns (outcome: Outcome)
      requires Agrees() && past.run.pc == Check(Prepare)
      modifies session.tables, session, this`past
      ensures Agrees()
      ensures outcome.Returned? ==> past.run.pc == Cleanup(false) && ScanCompleted in session.tables.shared.log
      ensures outcome.Raised? ==> past.run.pc == HandlerOf(outcome.error)
    {
      outcome := RunStage(Prepare, Preparing);
      if outcome.Raised? { return; }
      outcome := RunStage(Execute, Running);
      if outcome.Raised? { return; }
      outcome := RunStage(Collect, Collecting);
      if outcome.Raised? { return; }
      outcome := RunStage(Normalize, Processing);
      if outcome.Raised? { return; }
      outcome := Process();
      if outcome.Raised? { return; }
      outcome := Succeeding();
    }

    /** The finding pipeline, as far as the scan is concerned: it returns or raises. */
    method Process() returns (outcome: Outcome)
      requires Agrees() && past.run.pc == Persisting
      modifies session.tables`shared, this`past
      ensures Agrees()
      ensures outcome.Returned? ==> past.run.pc == Succeed
      ensures outcome.Raised? ==> past.run.pc == HandlerOf(outcome.error)
    {
      var expired := Expires();
      if expired { return Raised(Timeout); }
      outcome := Fails();
      if outcome.Raised? {
        Took(Plain(past.sh.now).(act := Throw(outcome.error.fault)));
      } else {
        Took(Plain(past.sh.now));
      }
    }

    method Succeeding() returns (outcome: Outcome)
      requires Agrees() && past.run.pc == Succeed
      modifies session.tables, session, this`past
      ensures Agrees()
      ensures outcome.Returned? ==> past.run.pc == Cleanup(false) && ScanCompleted in session.tables.shared.log
      ensures outcome.Raised? ==> past.run.pc == HandlerOf(outcome.error)
    {
      var expired := Expires();
      if expired { return Raised(Timeout); }
      outcome := Transition(Succeeded);
      if outcome.Raised? { return; }
      expired := Expires();
      if expired { return Raised(Timeout); }
      Publish(ScanCompleted);
    }

    // ------------------------------------------------------------- the except clauses

    /** After an except clause: where the outer try finds the run. */
    ghost predicate Handled(outcome: Outcome)
      reads this
    {
      match outcome
      case Returned => past.run.pc == Cleanup(false)
      case Raised(e) => if e.StaleScanState? then past.run.pc == Reconcile else past.run.pc == Cleanup(true)
    }

    method FinalizeFailed(ghost origin: Origin) returns (outcome: Outcome)
      requires Agrees() && past.run.pc == FailCas(origin)
      modifies session.tables, session, this`past
      ensures Agrees()
      ensures outcome.Returned? ==> past.run.pc == AfterFailed(origin) && ScanFailed in session.tables.shared.log
      ensures outcome.Raised? ==> if origin.Guarded? then Handled(outcome) else past.run.pc == Finish(true)
    {
      outcome := Transition(Failed);
      if outcome.Raised? { return; }
      AnnounceFailure(origin);
    }

    method AnnounceFailure(ghost origin: Origin)
      requires Agrees() && past.run.pc == PublishFailed(origin)
      modifies session.tables, session`unit, this`past
      ensures Agrees() && past.run.pc == AfterFailed(origin) && ScanFailed in session.tables.shared.log
    {
      Publish(ScanFailed);
      DeadLetterScan(origin);
    }

    /** Best effort: the dead letter is queued, or the failure to do so is only logged. */
    method DeadLetterScan(ghost origin: Origin)
      requires Agrees() && past.run.pc == DeadLetter(origin)
      modifies session.tables`shared, this`past
      ensures Agrees() && past.run.pc == AfterFailed(origin)
      ensures old(session.tables.shared.log) <= session.tables.shared.log
    {
      OthersAct();
      var sent: bool := *;
      if sent { session.tables.shared := session.tables.shared.(deadLetters := session.tables.shared.deadLetters + 1); }
      Took(Plain(past.sh.now).(ok := sent));
    }

    method HandleFailure(e: Error) returns (outcome: Outcome)
      requires Agrees() && past.run.pc == Failure(ClassifyError(e).Transient?)
      modifies session.tables, session, this`past
      ensures Agrees() && Handled(outcome)
    {
      if ClassifyError(e).Transient? && ShouldRetry(session.scan.attempt, session.scan.maxAttempts) {
        outcome := Requeue();
      } else {
        Took(Plain(past.sh.now));
        outcome := FinalizeFailed(Guarded);
      }
    }

    /** The outbox row is flushed first; the transition to QUEUED commits both. */
    method Requeue() returns (outcome: Outcome)
      requires Agrees() && past.run.pc == Failure(true) && ShouldRetry(session.scan.attempt, session.scan.maxAttempts)
      modifies session.tables, session, this`past
      ensures Agrees() && Handled(outcome)
      ensures outcome.Returned? ==> ScanProgress(Queued) in session.tables.shared.log
    {
      var delay := NextDelaySeconds(policy, session.scan.attempt);
      OthersAct();
      RequeueIsFree(cfg, rid, past);
      var inserted := outbox.Create(session.scan.attempt, delay);
      assert inserted;
      Took(Plain(past.sh.now).(countdown := delay));
      outcome := Transition(Queued);
      if outcome.Raised? { return; }
      Publish(ScanProgress(Queued));
    }

    method HandleStaleState()
      requires Agrees() && past.run.pc == Reconcile
      modifies session.tables, session, this`past
      ensures Agrees() && past.run.pc == Cleanup(false) && ScanCancelled in session.tables.shared.log
    {
      Read();
      Took(Plain(past.sh.now));
      PastOk(cfg, rid, past);
      if session.scan.status.Cancelled? {
        Publish(ScanCancelled);
      } else {
        assert false;
      }
    }

    method HandleCancelled() returns (outcome: Outcome)
      requires Agrees() && past.run.pc == SawCancel
      modifies session.tables, session, this`past
      ensures Agrees() && Handled(outcome)
      ensures outcome.Returned? ==> ScanCancelled in session.tables.shared.log
    {
      outcome := Returned;
      Took(Plain(past.sh.now));
      if !session.scan.status.Cancelled? {
        outcome := Transition(Cancelled);
        if outcome.Raised? { return; }
      }
      Publish(ScanCancelled);
    }

    method HandleTimeout() returns (outcome: Outcome)
      requires Agrees() && past.run.pc == TimeoutCas
      modifies session.tables, session, this`past
      ensures Agrees() && Handled(outcome)
      ensures outcome.Returned? ==> ScanTimedOut in session.tables.shared.log
    {
      outcome := Transition(TimedOut);
      if outcome.Raised? { return; }
      Publish(ScanTimedOut);
    }

    /** `finally`: whatever `cleanup` raises is swallowed. */
    method CleanUp(ghost raised: bool)
      requires Agrees() && past.run.pc == Cleanup(raised)
      modifies session.tables`shared, this`past
      ensures Agrees() && past.run.pc == Finish(raised)
    {
      OthersAct();
      var ignored := Fails();
      Took(Plain(past.sh.now));
    }

    // ------------------------------------------------------------------------- run

    /** The guarded block with its two layers of handlers, and the clean-up. */
    method RunGuarded() returns (outcome: Outcome)
      requires Agrees() && past.run.pc == Check(Prepare)
      modifies session.tables, session, this`past
      ensures Agrees() && past.run.pc == Finish(outcome.Raised?)
    {
      outcome := RunStages();
      if outcome.Raised? {
        match outcome.error {
          case Timeout => outcome := HandleTimeout();
          case PluginFault(CancelledFault) => outcome := HandleCancelled();
          case e => outcome := HandleFailure(e);
        }
        if outcome == Raised(StaleScanState) {
          HandleStaleState();
          outcome := Returned;
        }
      }
      CleanUp(outcome.Raised?);
    }

    /** `validate_config`, which only a `ScanConfigError` leaves handled. */
    method Validate() returns (outcome: Outcome)
      requires Agrees() && past.run.pc == Validating(false)
      modifies session.tables`shared, this`past
      ensures Agrees()
      ensures match outcome
        case Returned => past.run.pc == Check(Prepare)
        case Raised(e) => past.run.pc == if e == PluginFault(ConfigFault) then FailCas(BadConfig) else Finish(true)
    {
      OthersAct();
      Took(Plain(past.sh.now));
      outcome := ValidateConfig();
    }

    method ValidateConfig() returns (outcome: Outcome)
      requires Agrees() && past.run.pc == Validating(true)
      modifies session.tables`shared, this`past
      ensures Agrees()
      ensures match outcome
        case Returned => past.run.pc == Check(Prepare)
        case Raised(e) => past.run.pc == if e == PluginFault(ConfigFault) then FailCas(BadConfig) else Finish(true)
    {
      OthersAct();
      outcome := Fails();
      Took(if outcome.Raised? then Plain(past.sh.now).(act := Throw(outcome.error.fault)) else Plain(past.sh.now));
    }

    /** Claim the attempt the run has read. */
    method ClaimAttempt() returns (claimed: bool)
      requires Agrees() && past.run.pc == ReadQueued
      modifies session.tables, session, this`past
      ensures Agrees() && past.run.pc == if claimed then Claimed else Finish(false)
    {
      OthersAct();
      var row := scans.ClaimForExecution(session.scan.attempt);
      claimed := row.Some?;
      PastOk(cfg, rid, past);
      ClaimIsStep(cfg, past.sh, rid, past.run);
      if claimed { session.Commit(); }
      Took(Plain(past.sh.now));
    }

    /** `registry.get`: the scanner's factory makes a plugin, or raises, and the delivery is lost. */
    method MakePlugin() returns (outcome: Outcome)
      requires Agrees() && past.run.pc == ReadQueued
      modifies session.tables`shared, this`past
      ensures Agrees() && if outcome.Raised? then past.run.pc == Finish(true) else past.run == old(past.run)
    {
      outcome := Fails();
      if outcome.Raised? {
        session.tables.shared := session.tables.shared.(lostDelivery := true);
        Took(Plain(past.sh.now).(act := Throw(outcome.error.fault)));
      }
    }

    method Run(tenantId: TenantId) returns (outcome: Outcome)
      requires Agrees() && past.run.pc == Delivered && past.run.knows == registered
      modifies session.tables, session, this`past
      ensures if tenantId == session.tables.tenantId
        then Agrees() && past.run.pc == Finish(outcome.Raised?)
        else outcome.Returned? && Agrees() && past.run == old(past.run) && session.unit == NOTHING_FLUSHED
    {
      OthersAct();
      PastOk(cfg, rid, past);
      var found := scans.GetById(tenantId);
      if found.None? { return Returned; }
      Took(Plain(past.sh.now));
      outcome := Returned;
      if !session.scan.status.Queued? { return; }
      if !registered {
        outcome := FinalizeFailed(Unregistered);
        return;
      }
      outcome := MakePlugin();
      if outcome.Raised? { return; }
      var claimed := ClaimAttempt();
      if !claimed { return; }
      outcome := RunClaimed();
    }

    method RunClaimed() returns (outcome: Outcome)
      requires Agrees() && past.run.pc == Claimed
      modifies session.tables, session, this`past
      ensures Agrees() && past.run.pc == Finish(outcome.Raised?)
    {
      Publish(ScanStarted);
      outcome := Validate();
      if outcome == Raised(PluginFault(ConfigFault)) {
        outcome := FinalizeFailed(BadConfig);
        if outcome.Raised? { return; }
        CleanUp(false);
        return;
      }
      if outcome.Raised? { return; }
      outcome := RunGuarded();
    }

    /** The worker task's own end: roll back if the run raised, else commit what is left. */
    method EndTask(raised: bool)
      requires Agrees() && past.run.pc == Finish(raised)
      modifies session.tables, session`unit, this`past
      ensures Agrees() && past.run.pc == Done(raised)
    {
      if raised { session.Rollback(); } else { session.Commit(); }
      Took(Plain(past.sh.now));
    }
  }

  /**
   The worker task around a run.  What it does is a lawful history of the protocol from the
   state it found the tables in to the one it leaves them in; `RunHistory.FinishedRun`
   says what that means for the scan.  It raises exactly if an error arose in one of its
   steps that `run` does not handle.  For another tenant's scan it takes no step at all: the
   tables are as others have left them.
   */
  method ExecuteScan(
      tables: ScanTables, cfg: Config, policy: RetryPolicy, rid: RunId, registered: bool, tenantId: TenantId)
    returns (outcome: Outcome, ghost past: Past)
    requires policy.Valid() && cfg == ConfigOf(policy)
    requires tables.present && SharedOk(cfg, tables.shared)
    modifies tables
    ensures tenantId == tables.tenantId ==>
      && Lawful(cfg, rid, past)
      && past.trail[0].sh == old(tables.shared) && past.sh == tables.shared
      && past.run.pc == Done(outcome.Raised?)
      && (outcome.Raised? <==> exists j :: 0 <= j < |past.trail| && EscapesAt(past.trail, j))
    ensures tenantId == tables.tenantId && 0 < past.run.own ==>
      && ScanStarted in tables.shared.log
      && (outcome.Returned? && (past.run.exit.Finalized? || past.run.exit.LostToCancel?) ==>
           && (ScanCompleted in tables.shared.log <==> tables.shared.row.status.Succeeded?)
           && (ScanFailed in tables.shared.log <==> tables.shared.row.status.Failed?)
           && (ScanTimedOut in tables.shared.log <==> tables.shared.row.status.TimedOut?)
           && (ScanCancelled in tables.shared.log <==> tables.shared.row.status.Cancelled?))
    ensures tenantId != tables.tenantId ==>
      && outcome.Returned? && Lawful(cfg, rid, past) && past.sh == tables.shared
      && past.trail[0].sh == old(tables.shared) && forall i :: 0 <= i < |past.trail| ==> !past.trail[i].how.Own?
  {
    var session := new Session(tables, Some(rid));
    var orchestrator := new ScanOrchestrator(cfg, policy, rid, registered, tables.tenantId, session);
    outcome := orchestrator.Run(tenantId);
    if tenantId == tables.tenantId {
      orchestrator.EndTask(outcome.Raised?);
      RaisesExactly(cfg, rid, orchestrator.past);
      if 0 < orchestrator.past.run.own { FinishedRun(cfg, rid, orchestrator.past); }
    } else {
      session.Commit();
      OnlyOthers(cfg, rid, orchestrator.past);
    }
    past := orchestrator.past;
  }
}
