/**
 The inductive invariant of `Protocol`, in two parts: what holds of the shared
 state, and what a worker run may rely on at each of its program points.

 The proof is by rely and guarantee.  Every step of an actor satisfies `Guarantee`
 (`ProtocolRuns.RunStepKeeps`, `ProtocolSlices.StepOk`), and what a run relies on survives every step
 that guarantees this on behalf of somebody else (`OthersKeepRun`).
 */
module ProtocolInvariant {
  import opened ScanModel
  import opened Retry
  import opened Protocol

  // ------------------------------------------------------------ shared invariant

  predicate RowOk(row: Scan) {
    && 1 <= row.maxAttempts && row.attempt <= row.maxAttempts
    && !row.status.Pending?
    && (row.status.Queued? ==> row.attempt < row.maxAttempts)
    && (Active(row.status) || row.status.Succeeded? || row.status.TimedOut? ==> 1 <= row.attempt)
  }

  /** Exactly the attempts 1..attempt have been claimed. */
  predicate ClaimsOk(sh: Shared) {
    && (forall i :: i in sh.claims ==> 1 <= i <= sh.row.attempt)
    && (forall i :: 1 <= i <= sh.row.attempt ==> i in sh.claims)
  }

  /** Rows exist for exactly the attempts 0..n-1. */
  predicate Prefix(outbox: map<nat, OutboxRow>, n: nat) {
    && (forall a :: a in outbox ==> a < n)
    && (forall a :: 0 <= a < n ==> a in outbox)
  }

  predicate OutboxOk(sh: Shared) {
    match sh.row.status
    case Queued => Prefix(sh.outbox, sh.row.attempt + 1)
    case Failed =>
      Prefix(sh.outbox, sh.row.attempt)
      || (sh.row.attempt < sh.row.maxAttempts && Prefix(sh.outbox, sh.row.attempt + 1))
    case Cancelled =>
      Prefix(sh.outbox, sh.row.attempt)
      || (sh.row.attempt < sh.row.maxAttempts && Prefix(sh.outbox, sh.row.attempt + 1))
    case _ => Prefix(sh.outbox, sh.row.attempt)
  }

  /** A countdown is 0 for the first dispatch and a drawable delay for a requeue. */
  predicate CountdownOk(cfg: Config, attempt: nat, countdown: real) {
    if attempt == 0 then countdown == 0.0 else cfg.drawable(attempt, countdown)
  }

  predicate CountdownsOk(cfg: Config, outbox: map<nat, OutboxRow>) {
    forall a :: a in outbox ==> CountdownOk(cfg, a, outbox[a].countdown)
  }

  /** Is `t` set, not before `from` (if that is set), and not in the future? */
  predicate Between(from: Option<Time>, t: Option<Time>, now: Time) {
    t.Some? ==> t.value <= now && (from.Some? ==> from.value <= t.value)
  }

  predicate TimesOk(row: Scan, now: Time) {
    && row.queuedAt.Some?
    && Between(None, row.queuedAt, now)
    && Between(row.queuedAt, row.startedAt, now)
    && (row.attempt == 0 ==> row.startedAt.None?)
    && (row.status.Running? || row.status.Collecting? || row.status.Processing? || row.status.Succeeded?
        ==> row.startedAt.Some?)
    && (row.completedAt.Some? <==> row.status.Succeeded?)
    && (row.failedAt.Some? <==> row.status.Failed?)
    && (row.cancelledAt.Some? <==> row.status.Cancelled?)
    && (row.timedOutAt.Some? <==> row.status.TimedOut?)
    && Between(row.startedAt, row.completedAt, now) && Between(row.queuedAt, row.completedAt, now)
    && Between(row.startedAt, row.failedAt, now) && Between(row.queuedAt, row.failedAt, now)
    && Between(row.startedAt, row.timedOutAt, now) && Between(row.queuedAt, row.timedOutAt, now)
    && Between(row.queuedAt, row.cancelledAt, now)
  }

  /** Does an event announce that the scan is over for a reason other than a cancel? */
  predicate Outcome(e: Event) {
    e.ScanCompleted? || e.ScanFailed? || e.ScanTimedOut?
  }

  function Outcomes(log: seq<Event>): nat {
    if log == [] then 0
    else Outcomes(log[..|log| - 1]) + if Outcome(log[|log| - 1]) then 1 else 0
  }

  predicate Truthful(e: Event, status: Status) {
    && (e.ScanCompleted? ==> status.Succeeded?)
    && (e.ScanFailed? ==> status.Failed?)
    && (e.ScanTimedOut? ==> status.TimedOut?)
    && (e.ScanCancelled? ==> status.Cancelled?)
  }

  predicate LogOk(sh: Shared) {
    && (forall e :: e in sh.log ==> Truthful(e, sh.row.status))
    && Outcomes(sh.log) <= 1
    && sh.deadLetters <= 1
    && (sh.deadLetters > 0 ==> sh.row.status.Failed?)
    && (sh.finalizer.Some? ==> Terminal(sh.row.status))
  }

  predicate SharedOk(cfg: Config, sh: Shared) {
    && RowOk(sh.row)
    && ClaimsOk(sh)
    && OutboxOk(sh)
    && CountdownsOk(cfg, sh.outbox)
    && TimesOk(sh.row, sh.now)
    && LogOk(sh)
    && sh.changes + Remaining(sh.row) <= 4 * sh.row.maxAttempts + 2
    && !sh.uniqueViolated
  }

  // --------------------------------------------------------------- run invariant

  /** `row` is `mem` cancelled, and nothing else. */
  predicate CancelledFrom(row: Scan, mem: Scan) {
    row.cancelledAt.Some? && row == mem.(status := Cancelled, cancelledAt := row.cancelledAt)
  }

  /** Program points of a claimed run from which it may still write the status. */
  predicate OwnerPoint(pc: PC) {
    || pc.Claimed? || pc.Validating? || pc.Check? || pc.Plugin? || pc.Advance? || pc.Announce?
    || pc.Persisting? || pc.Succeed? || pc.TimeoutCas? || pc.SawCancel? || pc.CancelCas?
    || pc.Failure? || pc.RequeueCas? || (pc.FailCas? && !pc.origin.Unregistered?)
  }

  predicate Owner(r: Run) {
    OwnerPoint(r.pc) && Active(r.mem.status)
  }

  /** The status in which the check before a stage finds a scan nobody has cancelled. */
  function StatusBefore(stage: Stage): Status {
    match stage
    case Prepare => Preparing
    case Execute => Preparing
    case Collect => Running
    case Normalize => Collecting
  }

  /** The in-memory status at the points of the guarded block's straight line. */
  predicate StatusAt(pc: PC, s: Status) {
    match pc
    case Claimed => s.Preparing?
    case Validating(_) => s.Preparing?
    case Check(stage) => s == StatusBefore(stage)
    case Advance(stage) => !stage.Prepare? && s == StatusBefore(stage)
    case Announce(stage) => !stage.Prepare? && s == StatusOf(stage)
    case Plugin(stage, _) => s == StatusOf(stage)
    case Persisting => s.Processing?
    case Succeed => s.Processing?
    case FailCas(_) => pc.origin.BadConfig? ==> s.Preparing?
    case _ => true
  }

  /** The owner's in-memory scan is the row, unless the row has been cancelled. */
  ghost predicate Owned(sh: Shared, rid: RunId, r: Run) {
    && 0 < r.own == r.mem.attempt == sh.row.attempt
    && (sh.row == r.mem || CancelledFrom(sh.row, r.mem))
    && (r.mem.startedAt.Some? ==> r.mem.startedAt.value <= r.seen)
    && r.exit.Holding?
    && StatusAt(r.pc, r.mem.status)
    && (r.pc.RequeueCas? <==> r.pending.Some?)
    && (r.pc.RequeueCas? ==> r.mem.attempt < r.mem.maxAttempts)
    && r.own !in sh.outbox
  }

  /** `rid` has just made the row terminal and is the only one to say so. */
  ghost predicate Finalizing(sh: Shared, rid: RunId, r: Run, status: Status) {
    && sh.row.status == status
    && sh.finalizer == Some(rid)
    && r.exit.Finalized?
  }

  /** The three ways a run can end without giving its row a next status. */
  predicate Stuck(exit: Exit) {
    exit.StuckTimeout? || exit.StuckTransient? || exit.StuckValidate?
  }

  /** May the run still have to write the status, or be handling a fault it met on the way there? */
  predicate Working(pc: PC) {
    OwnerPoint(pc) || (pc.FailCas? && pc.origin.Unregistered?)
  }

  /** What a row read earlier may have become by now. */
  predicate Since(read: Scan, row: Scan) {
    && (row == read || Below(row, read))
    && row.maxAttempts == read.maxAttempts
    && row.queuedAt == read.queuedAt
    && (read.startedAt.Some? ==> row.startedAt == read.startedAt)
  }

  ghost predicate WorkingOk(sh: Shared, rid: RunId, r: Run) {
    if r.pc.FailCas? && r.pc.origin.Unregistered? then
      Unclaimed(r) && r.mem.status.Queued? && Since(r.mem, sh.row)
      && (r.mem.startedAt.Some? ==> r.mem.startedAt.value <= r.seen)
    else if Active(r.mem.status) then Owned(sh, rid, r)
    else if r.pc.TimeoutCas? then sh.row == r.mem && sh.row.status.Succeeded? && r.exit.Finalized?
    else r.pc.SawCancel? && r.mem.status.Cancelled? && sh.row.status.Cancelled? && r.exit.LostToCancel?
  }

  ghost predicate PointOk(sh: Shared, rid: RunId, r: Run) {
    if Working(r.pc) then WorkingOk(sh, rid, r)
    else
      match r.pc
      case Delivered => Unclaimed(r)
      case ReadQueued =>
        Unclaimed(r) && r.mem.status.Queued? && r.mem.attempt <= sh.row.attempt
      case PublishCompleted =>
        Finalizing(sh, rid, r, Succeeded) && Outcomes(sh.log) == 0 && r.mem == sh.row
      case PublishTimedOut => Finalizing(sh, rid, r, TimedOut) && Outcomes(sh.log) == 0
      case PublishFailed(_) => Finalizing(sh, rid, r, Failed) && Outcomes(sh.log) == 0 && sh.deadLetters == 0
      case DeadLetter(_) => Finalizing(sh, rid, r, Failed) && sh.deadLetters == 0
      case PublishCancelled => sh.row.status.Cancelled? && (r.exit.LostToCancel? || r.exit.Finalized?)
      case Reconcile => sh.row.status.Cancelled? && 0 < r.own && r.exit.Holding?
      case PublishRequeued => r.exit.Requeued?
      case Cleanup(raised) => !r.exit.Holding? && (Stuck(r.exit) ==> raised)
      case Finish(raised) => (0 < r.own ==> !r.exit.Holding?) && (Stuck(r.exit) ==> raised)
      case Done(raised) => (0 < r.own ==> !r.exit.Holding?) && (Stuck(r.exit) ==> raised)
      case _ => true
  }

  ghost predicate Unclaimed(r: Run) {
    r.own == 0 && r.pending.None? && r.exit.Holding?
  }

  /** What a run that gave up its attempt has left behind. */
  ghost predicate ExitOk(sh: Shared, rid: RunId, r: Run) {
    match r.exit
    case Holding => true
    case Finalized => Terminal(sh.row.status) && sh.finalizer == Some(rid)
    case LostToCancel => sh.row.status.Cancelled?
    case Requeued => r.own in sh.outbox && (sh.row.attempt == r.own ==> !Active(sh.row.status))
    case StuckTimeout => sh.row.attempt == r.own && (sh.row.status.Processing? || sh.row.status.Cancelled?)
    case StuckTransient =>
      sh.row.attempt == r.own && (sh.row.status.Processing? || sh.row.status.Cancelled?) && r.own !in sh.outbox
    case StuckValidate => sh.row.attempt == r.own && (sh.row.status.Preparing? || sh.row.status.Cancelled?)
    case Unexplained => false
  }

  /** A flushed outbox row will be inserted without a conflict, whoever commits it. */
  ghost predicate PendingOk(cfg: Config, sh: Shared, r: Run) {
    r.pending.Some? && !(r.pc.Cleanup? && r.pc.raised) && !(r.pc.Finish? && r.pc.raised) ==>
      && 0 < r.own == r.pending.value.attempt == sh.row.attempt < sh.row.maxAttempts
      && r.own !in sh.outbox
      && CountdownOk(cfg, r.own, r.pending.value.countdown)
      && (r.pc.RequeueCas? || sh.row.status.Cancelled?)
  }

  /** Cooperative cancellation: at most one stage begins on a cancelled row. */
  ghost predicate LateOk(sh: Shared, r: Run) {
    && r.lateStages <= 1
    && (!sh.row.status.Cancelled? ==> r.lateStages == 0)
    && (r.lateStages > 0 ==> 0 < r.own == sh.row.attempt)
    && (r.pc.Claimed? || r.pc.Announce? || (r.pc.Validating? && !r.pc.begun) || (r.pc.Plugin? && !r.pc.begun)
        ==> r.lateStages == 0)
  }

  predicate PastCleanup(pc: PC) {
    pc.Finish? || pc.Done?
  }

  ghost predicate CleanupOk(r: Run) {
    && r.cleanups <= 1
    && (!r.pc.Dead? && !PastCleanup(r.pc) ==> r.cleanups == 0)
    && (r.entered && PastCleanup(r.pc) ==> r.cleanups == 1)
    && (r.entered ==> !r.pc.Delivered? && !r.pc.ReadQueued? && !r.pc.Claimed? && !r.pc.Validating?
                      && (r.pc.FailCas? ==> r.pc.origin.Guarded?)
                      && (r.pc.PublishFailed? ==> r.pc.origin.Guarded?)
                      && (r.pc.DeadLetter? ==> r.pc.origin.Guarded?))
  }

  ghost predicate RunOk(cfg: Config, sh: Shared, rid: RunId, r: Run) {
    && r.seen <= sh.now
    && sh.row.queuedAt.Some? && sh.row.queuedAt.value <= r.seen
    && (0 < r.own ==> r.own in sh.claims && sh.claims[r.own] == rid)
    && PointOk(sh, rid, r)
    && ExitOk(sh, rid, r)
    && PendingOk(cfg, sh, r)
    && LateOk(sh, r)
    && CleanupOk(r)
  }

  // ------------------------------------------------------------------- guarantee

  /** The ways an actor may change the row. */
  predicate RowGuarantee(sh: Shared, sh': Shared, actor: Option<RunId>) {
    || sh'.row == sh.row
    || (!Terminal(sh.row.status) && CancelledFrom(sh'.row, sh.row))
    || (sh.row.status.Queued? && sh'.row.status.Preparing? && sh'.row.attempt == sh.row.attempt + 1)
    || (sh.row.status.Queued? && sh'.row.status.Failed? && sh'.row.attempt == sh.row.attempt)
    || (Active(sh.row.status) && sh'.row.attempt == sh.row.attempt
        && actor.Some? && sh.row.attempt in sh.claims && sh.claims[sh.row.attempt] == actor.value)
  }

  /** One step makes at most one status change, along an edge, and every change descends. */
  predicate OneChange(sh: Shared, sh': Shared) {
    || (sh'.row == sh.row && sh'.changes == sh.changes)
    || (sh'.changes == sh.changes + 1
        && ValidEdge(sh.row.status, sh'.row.status) && Below(sh'.row, sh.row))
  }

  predicate Guarantee(cfg: Config, sh: Shared, sh': Shared, actor: Option<RunId>) {
    && sh.now <= sh'.now
    && OneChange(sh, sh')
    && sh'.row.queuedAt == sh.row.queuedAt
    && sh'.row.maxAttempts == sh.row.maxAttempts
    && (sh.row.startedAt.Some? ==> sh'.row.startedAt == sh.row.startedAt)
    && RowGuarantee(sh, sh', actor)
    && (forall i :: i in sh.claims ==> i in sh'.claims && sh'.claims[i] == sh.claims[i])
    && (forall a :: a in sh.outbox ==> a in sh'.outbox)
    && (forall a :: a in sh'.outbox && a !in sh.outbox ==>
          actor.Some? && a in sh.claims && sh.claims[a] == actor.value)
    && (sh.finalizer.Some? ==> sh'.finalizer == sh.finalizer)
    && (sh'.finalizer.Some? && sh.finalizer.None? ==> sh'.finalizer == actor && !Terminal(sh.row.status))
    && sh.log <= sh'.log
    && (Outcomes(sh'.log) == Outcomes(sh.log) || (actor.Some? && sh.finalizer == actor))
    && (sh'.deadLetters == sh.deadLetters || (actor.Some? && sh.finalizer == actor))
  }

  lemma SinceGoesOn(cfg: Config, sh: Shared, sh': Shared, actor: Option<RunId>, read: Scan)
    requires Since(read, sh.row) && Guarantee(cfg, sh, sh', actor)
    ensures Since(read, sh'.row)
  {
  }

  /** Nobody else can touch the row of an attempt a run owns, except to cancel it. */
  lemma OthersOnlyCancel(cfg: Config, sh: Shared, sh': Shared, actor: Option<RunId>, rid: RunId)
    requires Guarantee(cfg, sh, sh', actor) && actor != Some(rid)
    requires Active(sh.row.status)
    requires sh.row.attempt in sh.claims && sh.claims[sh.row.attempt] == rid
    ensures sh'.row == sh.row || CancelledFrom(sh'.row, sh.row)
  {
  }

  lemma OthersKeepOwned(cfg: Config, sh: Shared, sh': Shared, actor: Option<RunId>, rid: RunId, r: Run)
    requires Owned(sh, rid, r) && Active(r.mem.status)
    requires r.own in sh.claims && sh.claims[r.own] == rid
    requires Guarantee(cfg, sh, sh', actor) && actor != Some(rid)
    ensures Owned(sh', rid, r)
  {
    if Active(sh.row.status) {
      OthersOnlyCancel(cfg, sh, sh', actor, rid);
    } else {
      assert sh.row.status.Cancelled?;
      assert sh'.row == sh.row;
    }
  }

  /** The scan is over: its row, who finished it and what was said stay as they are. */
  lemma OthersKeepOver(cfg: Config, sh: Shared, sh': Shared, actor: Option<RunId>, rid: RunId, r: Run)
    requires RunOk(cfg, sh, rid, r) && !Owner(r) && Terminal(sh.row.status)
    requires sh'.row == sh.row
    requires sh.finalizer.Some? ==> sh'.finalizer == sh.finalizer
    requires sh.finalizer == Some(rid) ==> Outcomes(sh'.log) == Outcomes(sh.log) && sh'.deadLetters == sh.deadLetters
    ensures PointOk(sh', rid, r)
  {
  }

  /** The scan goes on, and the run is before its claim or past its last write. */
  lemma OthersKeepWaiting(cfg: Config, sh: Shared, sh': Shared, rid: RunId, r: Run)
    requires RunOk(cfg, sh, rid, r) && !Owner(r) && !Terminal(sh.row.status)
    requires r.pc != FailCas(Unregistered) && sh.row.attempt <= sh'.row.attempt
    ensures PointOk(sh', rid, r)
  {
  }

  lemma OthersKeepPoint(cfg: Config, sh: Shared, sh': Shared, actor: Option<RunId>, rid: RunId, r: Run)
    requires RunOk(cfg, sh, rid, r)
    requires Guarantee(cfg, sh, sh', actor) && actor != Some(rid)
    ensures PointOk(sh', rid, r)
  {
    if Owner(r) {
      assert Owned(sh, rid, r);
      OthersKeepOwned(cfg, sh, sh', actor, rid, r);
    } else if r.pc == FailCas(Unregistered) {
      SinceGoesOn(cfg, sh, sh', actor, r.mem);
    } else if Terminal(sh.row.status) {
      OthersKeepOver(cfg, sh, sh', actor, rid, r);
    } else {
      OthersKeepWaiting(cfg, sh, sh', rid, r);
    }
  }

  lemma OthersKeepExit(cfg: Config, sh: Shared, sh': Shared, actor: Option<RunId>, rid: RunId, r: Run)
    requires SharedOk(cfg, sh)
    requires RunOk(cfg, sh, rid, r)
    requires Guarantee(cfg, sh, sh', actor) && actor != Some(rid)
    ensures ExitOk(sh', rid, r)
  {
  }

  lemma OthersKeepPending(cfg: Config, sh: Shared, sh': Shared, actor: Option<RunId>, rid: RunId, r: Run)
    requires SharedOk(cfg, sh)
    requires RunOk(cfg, sh, rid, r)
    requires Guarantee(cfg, sh, sh', actor) && actor != Some(rid)
    ensures PendingOk(cfg, sh', r)
  {
  }

  /** A run's assumptions survive every step somebody else takes. */
  lemma OthersKeepRun(cfg: Config, sh: Shared, sh': Shared, actor: Option<RunId>, rid: RunId, r: Run)
    requires SharedOk(cfg, sh)
    requires RunOk(cfg, sh, rid, r)
    requires Guarantee(cfg, sh, sh', actor) && actor != Some(rid)
    ensures RunOk(cfg, sh', rid, r)
  {
    OthersKeepPoint(cfg, sh, sh', actor, rid, r);
    OthersKeepExit(cfg, sh, sh', actor, rid, r);
    OthersKeepPending(cfg, sh, sh', actor, rid, r);
    assert LateOk(sh', r) && CleanupOk(r);
  }
}
