/** Every step of a worker run keeps the invariant and gives the guarantee. */
module ProtocolRuns {
  import opened ScanModel
  import opened Retry
  import opened Protocol
  import opened ProtocolInvariant

  ghost predicate Kept(cfg: Config, sh: Shared, rid: RunId, sh': Shared, r': Run) {
    && SharedOk(cfg, sh')
    && (var after := r'.(seen := sh'.now); RunOk(cfg, sh', rid, after))
    && Guarantee(cfg, sh, sh', Some(rid))
  }

  ghost predicate Ready(cfg: Config, sh: Shared, rid: RunId, r: Run, c: Choice) {
    SharedOk(cfg, sh) && RunOk(cfg, sh, rid, r) && RunEnabled(cfg, sh, r, c)
  }

  // ------------------------------------------------------------ kinds of writes

  lemma OutcomesAppend(log: seq<Event>, e: Event)
    ensures Outcomes(log + [e]) == Outcomes(log) + if Outcome(e) then 1 else 0
  {
    assert (log + [e])[..|log|] == log;
  }

  /** Changing nothing is within every guarantee. */
  lemma Stutter(cfg: Config, sh: Shared, actor: Option<RunId>)
    ensures Guarantee(cfg, sh, sh, actor)
  {
  }

  /** Committing a flushed outbox row on a cancelled scan fills the prefix up. */
  lemma CommitOnCancelled(cfg: Config, sh: Shared, rid: RunId, r: Run)
    requires SharedOk(cfg, sh) && RunOk(cfg, sh, rid, r)
    requires r.pending.Some? ==> PendingOk(cfg, sh, r.(pc := Reconcile))
    ensures SharedOk(cfg, Commit(sh, r.pending))
    ensures Guarantee(cfg, sh, Commit(sh, r.pending), Some(rid))
  {
  }

  lemma LogGrows(cfg: Config, sh: Shared, rid: RunId, e: Event)
    requires SharedOk(cfg, sh) && Truthful(e, sh.row.status)
    requires Outcome(e) ==> sh.finalizer == Some(rid) && Outcomes(sh.log) == 0
    ensures var logged := sh.(log := sh.log + [e]); SharedOk(cfg, logged) && Guarantee(cfg, sh, logged, Some(rid))
  {
    OutcomesAppend(sh.log, e);
    assert LogOk(sh.(log := sh.log + [e]));
  }

  lemma PublishShared(cfg: Config, sh: Shared, rid: RunId, r: Run, e: Event, persisted: bool)
    requires SharedOk(cfg, sh) && RunOk(cfg, sh, rid, r)
    requires r.pending.Some? ==> PendingOk(cfg, sh, r.(pc := Reconcile))
    requires Truthful(e, sh.row.status)
    requires Outcome(e) ==> sh.finalizer == Some(rid) && Outcomes(sh.log) == 0
    ensures var sh' := Publish(sh, r, e, persisted, r.pc).0;
      SharedOk(cfg, sh') && Guarantee(cfg, sh, sh', Some(rid))
  {
    LogGrows(cfg, sh, rid, e);
    if persisted && r.pending.Some? {
      CommitOnCancelled(cfg, sh, rid, r);
      var logged, committed := sh.(log := sh.log + [e]), Commit(sh, r.pending);
      BothGuaranteed(cfg, sh, logged, committed, logged.(outbox := committed.outbox), rid);
    }
  }

  /** A longer log and more outbox rows, in one step. */
  lemma BothGuaranteed(cfg: Config, sh: Shared, logged: Shared, committed: Shared, both: Shared, rid: RunId)
    requires logged == sh.(log := logged.log) && SharedOk(cfg, logged) && Guarantee(cfg, sh, logged, Some(rid))
    requires committed == sh.(outbox := committed.outbox)
    requires SharedOk(cfg, committed) && Guarantee(cfg, sh, committed, Some(rid))
    requires both == sh.(log := logged.log, outbox := committed.outbox)
    ensures SharedOk(cfg, both) && Guarantee(cfg, sh, both, Some(rid))
  {
  }

  /** When the owner's compare-and-set matches, the row is its in-memory scan. */
  ghost predicate MayMove(cfg: Config, sh: Shared, rid: RunId, r: Run, target: Status, stamp: Time) {
    && SharedOk(cfg, sh) && RunOk(cfg, sh, rid, r)
    && Owned(sh, rid, r) && Owner(r)
    && r.seen <= stamp <= sh.now
    && TryTransition(sh.row, r.mem, target, stamp).Moved?
    && (target.Queued? <==> r.pc.RequeueCas?)
  }

  lemma MovedRow(cfg: Config, sh: Shared, rid: RunId, r: Run, target: Status, stamp: Time)
    requires MayMove(cfg, sh, rid, r, target, stamp)
    ensures sh.row == r.mem
    ensures var row := TryTransition(sh.row, r.mem, target, stamp).row;
      && row.status == target && row.attempt == sh.row.attempt && row.maxAttempts == sh.row.maxAttempts
      && row.queuedAt == sh.row.queuedAt
      && (sh.row.startedAt.Some? ==> row.startedAt == sh.row.startedAt)
      && RowOk(row) && TimesOk(row, sh.now)
      && 1 + Remaining(row) <= Remaining(sh.row)
  {
  }

  lemma MovedOutbox(cfg: Config, sh: Shared, rid: RunId, r: Run, target: Status, stamp: Time, exit: Exit, next: PC)
    requires MayMove(cfg, sh, rid, r, target, stamp)
    ensures var sh' := Move(sh, rid, r, TryTransition(sh.row, r.mem, target, stamp).row, exit, next).0;
      && OutboxOk(sh') && CountdownsOk(cfg, sh'.outbox)
      && (target.Queued? ==> r.own in sh'.outbox && sh'.outbox.Keys == sh.outbox.Keys + {r.own})
      && (!target.Queued? ==> sh'.outbox == sh.outbox)
      && (forall a :: a in sh'.outbox && a !in sh.outbox ==> a == r.own)
  {
  }

  /** The owner's compare-and-set and its commit. */
  lemma MoveShared(cfg: Config, sh: Shared, rid: RunId, r: Run, target: Status, stamp: Time, exit: Exit, next: PC)
    requires MayMove(cfg, sh, rid, r, target, stamp)
    ensures var sh' := Move(sh, rid, r, TryTransition(sh.row, r.mem, target, stamp).row, exit, next).0;
      SharedOk(cfg, sh') && Guarantee(cfg, sh, sh', Some(rid))
  {
    var row := TryTransition(sh.row, r.mem, target, stamp).row;
    var sh' := Move(sh, rid, r, row, exit, next).0;
    MovedRow(cfg, sh, rid, r, target, stamp);
    MovedOutbox(cfg, sh, rid, r, target, stamp, exit, next);
    assert sh'.row == row && sh'.claims == sh.claims && sh'.log == sh.log && sh'.deadLetters == sh.deadLetters;
    assert ClaimsOk(sh');
    assert LogOk(sh') by {
      forall e | e in sh'.log ensures Truthful(e, row.status) {
        assert Truthful(e, sh.row.status);
      }
    }
  }

  /** A scan that is not over has announced no outcome. */
  lemma {:induction false} NoOutcomeYet(log: seq<Event>, status: Status)
    requires !Terminal(status)
    requires forall e :: e in log ==> Truthful(e, status)
    ensures Outcomes(log) == 0
  {
    if log != [] {
      assert log[|log| - 1] in log;
      NoOutcomeYet(log[..|log| - 1], status);
    }
  }

  // --------------------------------------------------------- moves of the owner

  /** Points the owner can be at without having flushed anything. */
  predicate PlainOwnerPoint(pc: PC) {
    OwnerPoint(pc) && !pc.RequeueCas?
  }

  predicate FreshPoint(pc: PC) {
    pc.Claimed? || pc.Announce? || (pc.Validating? && !pc.begun) || (pc.Plugin? && !pc.begun)
  }

  /** Is `pc` before the guarded block, or on the path of `_finalize_failed` that skips it? */
  predicate Unguarded(pc: PC) {
    || pc.Delivered? || pc.ReadQueued? || pc.Claimed? || pc.Validating?
    || (pc.FailCas? && !pc.origin.Guarded?) || (pc.PublishFailed? && !pc.origin.Guarded?)
    || (pc.DeadLetter? && !pc.origin.Guarded?)
  }

  /** The owner goes to another point without touching its row (others may see a longer log). */
  lemma OwnerGoes(cfg: Config, sh: Shared, sh': Shared, rid: RunId, r: Run, pc': PC, late: nat, entered: bool)
    requires RunOk(cfg, sh, rid, r)
    requires Owner(r) && PlainOwnerPoint(r.pc) && PlainOwnerPoint(pc') && StatusAt(pc', r.mem.status)
    requires sh' == sh.(log := sh'.log)
    requires r.lateStages <= late <= 1
    requires !sh.row.status.Cancelled? || FreshPoint(pc') ==> late == 0
    requires entered ==> !Unguarded(pc')
    ensures var r' := r.(pc := pc', lateStages := late, entered := entered, seen := sh'.now); RunOk(cfg, sh', rid, r')
  {
    var r' := r.(pc := pc', lateStages := late, entered := entered, seen := sh'.now);
    assert Owned(sh, rid, r);
    assert Owned(sh', rid, r');
    assert PointOk(sh', rid, r');
  }

  // ---------------------------------------------------------------- entry, exit

  lemma ClaimedShared(cfg: Config, sh: Shared, rid: RunId, row: Scan)
    requires SharedOk(cfg, sh) && Claim(sh.row, sh.row.attempt) == Some(row)
    ensures var sh' := sh.(row := row, changes := sh.changes + 1, claims := sh.claims[row.attempt := rid]);
      SharedOk(cfg, sh') && Guarantee(cfg, sh, sh', Some(rid))
  {
  }

  lemma ClaimedRun(cfg: Config, sh: Shared, rid: RunId, r: Run, row: Scan, sh': Shared, r': Run)
    requires SharedOk(cfg, sh) && RunOk(cfg, sh, rid, r) && r.pc.ReadQueued?
    requires Claim(sh.row, r.mem.attempt) == Some(row)
    requires sh' == sh.(row := row, changes := sh.changes + 1, claims := sh.claims[row.attempt := rid])
    requires r' == r.(mem := row, own := row.attempt, pc := Claimed, seen := sh'.now)
    ensures RunOk(cfg, sh', rid, r')
  {
    assert Owned(sh', rid, r');
  }

  lemma NotClaimedRun(cfg: Config, sh: Shared, rid: RunId, r: Run)
    requires RunOk(cfg, sh, rid, r) && r.pc.ReadQueued?
    ensures var r' := r.(pc := Finish(false), seen := sh.now); RunOk(cfg, sh, rid, r')
  {
  }

  /** No plugin could be made: the message is gone, and the run has done nothing. */
  lemma NoPluginKeeps(cfg: Config, sh: Shared, rid: RunId, r: Run)
    requires SharedOk(cfg, sh) && RunOk(cfg, sh, rid, r) && r.pc.ReadQueued?
    ensures Kept(cfg, sh, rid, sh.(lostDelivery := true), r.(pc := Finish(true)))
  {
  }

  lemma ClaimKeeps(cfg: Config, sh: Shared, rid: RunId, r: Run, c: Choice)
    requires Ready(cfg, sh, rid, r, c) && !c.act.Expire?
    requires r.pc.ReadQueued?
    ensures var (sh', r') := EntryStep(cfg, sh, rid, r, c); Kept(cfg, sh, rid, sh', r')
  {
    var claimed := Claim(sh.row, r.mem.attempt);
    if c.act.Throw? {
      NoPluginKeeps(cfg, sh, rid, r);
    } else if claimed.Some? {
      var (sh', r') := EntryStep(cfg, sh, rid, r, c);
      ClaimedShared(cfg, sh, rid, claimed.value);
      ClaimedRun(cfg, sh, rid, r, claimed.value, sh', r'.(seen := sh'.now));
    } else {
      Stutter(cfg, sh, Some(rid));
      NotClaimedRun(cfg, sh, rid, r);
    }
  }

  lemma DeliveredKeeps(cfg: Config, sh: Shared, rid: RunId, r: Run, c: Choice)
    requires Ready(cfg, sh, rid, r, c) && !c.act.Expire?
    requires r.pc.Delivered?
    ensures var (sh', r') := EntryStep(cfg, sh, rid, r, c); Kept(cfg, sh, rid, sh', r')
  {
  }

  lemma StartedKeeps(cfg: Config, sh: Shared, rid: RunId, r: Run, c: Choice)
    requires Ready(cfg, sh, rid, r, c) && !c.act.Expire?
    requires r.pc.Claimed?
    ensures var (sh', r') := EntryStep(cfg, sh, rid, r, c); Kept(cfg, sh, rid, sh', r')
  {
    PublishShared(cfg, sh, rid, r, ScanStarted, c.ok);
    OwnerGoes(cfg, sh, sh.(log := sh.log + [ScanStarted]), rid, r, Validating(false), r.lateStages, r.entered);
  }

  lemma ValidatingKeeps(cfg: Config, sh: Shared, rid: RunId, r: Run, c: Choice)
    requires Ready(cfg, sh, rid, r, c) && !c.act.Expire?
    requires r.pc.Validating?
    ensures var (sh', r') := EntryStep(cfg, sh, rid, r, c); Kept(cfg, sh, rid, sh', r')
  {
    var r' := EntryStep(cfg, sh, rid, r, c).1;
    if PlainOwnerPoint(r'.pc) {
      OwnerGoes(cfg, sh, sh, rid, r, r'.pc, r'.lateStages, r'.entered);
    }
  }

  lemma EntryKeeps(cfg: Config, sh: Shared, rid: RunId, r: Run, c: Choice)
    requires Ready(cfg, sh, rid, r, c) && !c.act.Expire?
    requires r.pc.Delivered? || r.pc.ReadQueued? || r.pc.Claimed? || r.pc.Validating?
    ensures var (sh', r') := EntryStep(cfg, sh, rid, r, c); Kept(cfg, sh, rid, sh', r')
  {
    match r.pc
    case Delivered => DeliveredKeeps(cfg, sh, rid, r, c);
    case ReadQueued => ClaimKeeps(cfg, sh, rid, r, c);
    case Claimed => StartedKeeps(cfg, sh, rid, r, c);
    case Validating(_) => ValidatingKeeps(cfg, sh, rid, r, c);
  }

  lemma CleanupKeeps(cfg: Config, sh: Shared, rid: RunId, r: Run)
    requires SharedOk(cfg, sh) && RunOk(cfg, sh, rid, r)
    requires r.pc.Cleanup?
    ensures var (sh', r') := ExitStep(sh, r); Kept(cfg, sh, rid, sh', r')
  {
  }

  lemma RollbackKeeps(cfg: Config, sh: Shared, rid: RunId, r: Run)
    requires SharedOk(cfg, sh) && RunOk(cfg, sh, rid, r)
    requires r.pc.Finish? && (r.pc.raised || r.pending.None?)
    ensures var (sh', r') := ExitStep(sh, r); Kept(cfg, sh, rid, sh', r')
  {
  }

  lemma CommitKeeps(cfg: Config, sh: Shared, rid: RunId, r: Run)
    requires SharedOk(cfg, sh) && RunOk(cfg, sh, rid, r)
    requires r.pc.Finish? && !r.pc.raised && r.pending.Some?
    ensures var (sh', r') := ExitStep(sh, r); Kept(cfg, sh, rid, sh', r')
  {
    CommitOnCancelled(cfg, sh, rid, r);
    AfterCommit(cfg, sh, Commit(sh, r.pending), rid, r, Done(false), None);
  }

  // ---------------------------------------------------------- the guarded block

  lemma ExpireKeeps(cfg: Config, sh: Shared, rid: RunId, r: Run, c: Choice)
    requires Ready(cfg, sh, rid, r, c) && c.act.Expire?
    ensures Kept(cfg, sh, rid, sh, r.(pc := TimeoutCas))
  {
  }

  lemma AdvanceKeeps(cfg: Config, sh: Shared, rid: RunId, r: Run, c: Choice)
    requires Ready(cfg, sh, rid, r, c) && !c.act.Expire?
    requires r.pc.Advance?
    requires TryTransition(sh.row, r.mem, StatusOf(r.pc.stage), c.stamp).Moved?
    ensures var (sh', r') := StageStep(sh, rid, r, c); Kept(cfg, sh, rid, sh', r')
  {
    var target := StatusOf(r.pc.stage);
    MovedRow(cfg, sh, rid, r, target, c.stamp);
    MoveShared(cfg, sh, rid, r, target, c.stamp, r.exit, Announce(r.pc.stage));
    var (sh', r') := StageStep(sh, rid, r, c);
    assert sh'.outbox == sh.outbox;
    assert Owned(sh', rid, r'.(seen := sh'.now));
  }

  lemma SucceedKeeps(cfg: Config, sh: Shared, rid: RunId, r: Run, c: Choice)
    requires Ready(cfg, sh, rid, r, c) && !c.act.Expire?
    requires r.pc.Succeed?
    requires TryTransition(sh.row, r.mem, Succeeded, c.stamp).Moved?
    ensures var (sh', r') := StageStep(sh, rid, r, c); Kept(cfg, sh, rid, sh', r')
  {
    MoveKeeps(cfg, sh, rid, r, Succeeded, c.stamp, Finalized, PublishCompleted);
  }

  /** The other steps of the block: reads, plugin code, a stale row. */
  lemma PluginBegins(cfg: Config, sh: Shared, rid: RunId, r: Run, c: Choice)
    requires Ready(cfg, sh, rid, r, c) && !c.act.Expire?
    requires r.pc.Plugin? && !r.pc.begun
    ensures var (sh', r') := StageStep(sh, rid, r, c); Kept(cfg, sh, rid, sh', r')
  {
    var late := r.lateStages + if sh.row.status.Cancelled? then 1 else 0;
    OwnerGoes(cfg, sh, sh, rid, r, Plugin(r.pc.stage, true), late, r.entered);
  }

  lemma PluginEnds(cfg: Config, sh: Shared, rid: RunId, r: Run, c: Choice)
    requires Ready(cfg, sh, rid, r, c) && !c.act.Expire?
    requires r.pc.Plugin? && r.pc.begun
    ensures var (sh', r') := StageStep(sh, rid, r, c); Kept(cfg, sh, rid, sh', r')
  {
    var next := if c.act.Throw? then Caught(c.act.fault) else AfterPlugin(r.pc.stage);
    Stutter(cfg, sh, Some(rid));
    OwnerGoes(cfg, sh, sh, rid, r, next, r.lateStages, r.entered);
  }

  lemma PersistingKeeps(cfg: Config, sh: Shared, rid: RunId, r: Run, c: Choice)
    requires Ready(cfg, sh, rid, r, c) && !c.act.Expire?
    requires r.pc.Persisting?
    ensures var (sh', r') := StageStep(sh, rid, r, c); Kept(cfg, sh, rid, sh', r')
  {
    var next := if c.act.Throw? then Caught(c.act.fault) else Succeed;
    Stutter(cfg, sh, Some(rid));
    OwnerGoes(cfg, sh, sh, rid, r, next, r.lateStages, r.entered);
  }

  lemma StaleKeeps(cfg: Config, sh: Shared, rid: RunId, r: Run, c: Choice)
    requires Ready(cfg, sh, rid, r, c) && !c.act.Expire?
    requires
      || (r.pc.Advance? && !TryTransition(sh.row, r.mem, StatusOf(r.pc.stage), c.stamp).Moved?)
      || (r.pc.Succeed? && !TryTransition(sh.row, r.mem, Succeeded, c.stamp).Moved?)
    ensures var (sh', r') := StageStep(sh, rid, r, c); Kept(cfg, sh, rid, sh', r')
  {
    OwnerGoes(cfg, sh, sh, rid, r, Failure(false), r.lateStages, r.entered);
  }

  lemma CheckKeeps(cfg: Config, sh: Shared, rid: RunId, r: Run, c: Choice)
    requires Ready(cfg, sh, rid, r, c) && !c.act.Expire?
    requires r.pc.Check?
    ensures var (sh', r') := StageStep(sh, rid, r, c); Kept(cfg, sh, rid, sh', r')
  {
  }

  lemma AnnounceKeeps(cfg: Config, sh: Shared, rid: RunId, r: Run, c: Choice)
    requires Ready(cfg, sh, rid, r, c) && !c.act.Expire?
    requires r.pc.Announce?
    ensures var (sh', r') := StageStep(sh, rid, r, c); Kept(cfg, sh, rid, sh', r')
  {
    var e := ScanProgress(StatusOf(r.pc.stage));
    PublishShared(cfg, sh, rid, r, e, c.ok);
    OwnerGoes(cfg, sh, sh.(log := sh.log + [e]), rid, r, Plugin(r.pc.stage, false), r.lateStages, r.entered);
  }

  lemma StageKeeps(cfg: Config, sh: Shared, rid: RunId, r: Run, c: Choice)
    requires Ready(cfg, sh, rid, r, c) && !c.act.Expire?
    requires InTimeoutBlock(r.pc)
    ensures var (sh', r') := StageStep(sh, rid, r, c); Kept(cfg, sh, rid, sh', r')
  {
    OwnedEdges(cfg, sh, rid, r);
    if r.pc.Advance? && TryTransition(sh.row, r.mem, StatusOf(r.pc.stage), c.stamp).Moved? {
      AdvanceKeeps(cfg, sh, rid, r, c);
    } else if r.pc.Succeed? && TryTransition(sh.row, r.mem, Succeeded, c.stamp).Moved? {
      SucceedKeeps(cfg, sh, rid, r, c);
    } else if r.pc.Announce? {
      AnnounceKeeps(cfg, sh, rid, r, c);
    } else if r.pc.PublishCompleted? {
      OutcomeKeeps(cfg, sh, rid, r, ScanCompleted, c.ok, Cleanup(false));
    } else if r.pc.Check? {
      CheckKeeps(cfg, sh, rid, r, c);
    } else if r.pc.Plugin? && !r.pc.begun {
      PluginBegins(cfg, sh, rid, r, c);
    } else if r.pc.Plugin? {
      PluginEnds(cfg, sh, rid, r, c);
    } else if r.pc.Persisting? {
      PersistingKeeps(cfg, sh, rid, r, c);
    } else {
      StaleKeeps(cfg, sh, rid, r, c);
    }
  }

  /** In the straight line the in-memory status always has the edge that is asked of it. */
  lemma OwnedEdges(cfg: Config, sh: Shared, rid: RunId, r: Run)
    requires RunOk(cfg, sh, rid, r)
    ensures r.pc.Advance? ==> ValidEdge(r.mem.status, StatusOf(r.pc.stage))
    ensures r.pc.Succeed? ==> ValidEdge(r.mem.status, Succeeded)
  {
  }

  // ------------------------------------------------------------- after the write

  /** What `AfterCommit` is about: a run past its last write publishes, or its task commits. */
  predicate Retiring(pc: PC, next: PC) {
    || ((pc.PublishCompleted? || pc.PublishTimedOut? || pc.PublishCancelled? || pc.PublishRequeued?)
        && next == Cleanup(false))
    || (pc.PublishFailed? && next == DeadLetter(pc.origin))
    || (pc == Finish(false) && next == Done(false))
  }

  /** Where a retiring run is going, and what it did before, is in order already. */
  lemma RetiringPoint(cfg: Config, sh: Shared, sh': Shared, rid: RunId, r: Run, next: PC)
    requires RunOk(cfg, sh, rid, r) && Retiring(r.pc, next)
    requires sh' == sh.(log := sh'.log, outbox := sh'.outbox)
    ensures var r' := r.(pc := next, seen := sh'.now); PointOk(sh', rid, r') && CleanupOk(r') && LateOk(sh', r')
  {
  }

  /** Others may see a longer log and the run's flushed outbox row; the run goes on to retire. */
  lemma AfterCommit(cfg: Config, sh: Shared, sh': Shared, rid: RunId, r: Run, next: PC, pending: Option<Flushed>)
    requires RunOk(cfg, sh, rid, r) && Retiring(r.pc, next)
    requires sh' == sh.(log := sh'.log, outbox := sh'.outbox)
    requires forall a :: a in sh.outbox ==> a in sh'.outbox
    requires pending.None? || (pending == r.pending && sh'.outbox == sh.outbox)
    ensures var r' := r.(pc := next, pending := pending, seen := sh'.now); RunOk(cfg, sh', rid, r')
  {
    RetiringPoint(cfg, sh, sh', rid, r, next);
  }

  /** The finalizing run announces the outcome it wrote, the only one ever announced. */
  lemma OutcomeKeeps(cfg: Config, sh: Shared, rid: RunId, r: Run, e: Event, persisted: bool, next: PC)
    requires SharedOk(cfg, sh) && RunOk(cfg, sh, rid, r)
    requires
      || (r.pc.PublishCompleted? && e.ScanCompleted? && next == Cleanup(false))
      || (r.pc.PublishTimedOut? && e.ScanTimedOut? && next == Cleanup(false))
      || (r.pc.PublishFailed? && e.ScanFailed? && next == DeadLetter(r.pc.origin))
    ensures var (sh', r') := Publish(sh, r, e, persisted, next); Kept(cfg, sh, rid, sh', r')
  {
    assert r.pending.None?;
    PublishShared(cfg, sh, rid, r, e, persisted);
    AfterCommit(cfg, sh, sh.(log := sh.log + [e]), rid, r, next, None);
  }

  /** Every worker that finds its scan cancelled may say so; it also commits what it had flushed. */
  lemma PublishCancelledKeeps(cfg: Config, sh: Shared, rid: RunId, r: Run, persisted: bool)
    requires SharedOk(cfg, sh) && RunOk(cfg, sh, rid, r)
    requires r.pc.PublishCancelled?
    ensures var (sh', r') := Publish(sh, r, ScanCancelled, persisted, Cleanup(false)); Kept(cfg, sh, rid, sh', r')
  {
    PublishShared(cfg, sh, rid, r, ScanCancelled, persisted);
    var (sh', r') := Publish(sh, r, ScanCancelled, persisted, Cleanup(false));
    AfterCommit(cfg, sh, sh', rid, r, Cleanup(false), r'.pending);
  }

  lemma PublishRequeuedKeeps(cfg: Config, sh: Shared, rid: RunId, r: Run, persisted: bool)
    requires SharedOk(cfg, sh) && RunOk(cfg, sh, rid, r)
    requires r.pc.PublishRequeued?
    ensures var (sh', r') := Publish(sh, r, ScanProgress(Queued), persisted, Cleanup(false));
      Kept(cfg, sh, rid, sh', r')
  {
    assert r.pending.None?;
    PublishShared(cfg, sh, rid, r, ScanProgress(Queued), persisted);
    AfterCommit(cfg, sh, sh.(log := sh.log + [ScanProgress(Queued)]), rid, r, Cleanup(false), None);
  }

  /** The points at which a run announces the terminal status it has just written. */
  predicate Announces(target: Status, r: Run, next: PC) {
    || (target.Succeeded? && next.PublishCompleted?)
    || (target.TimedOut? && next.PublishTimedOut?)
    || (target.Cancelled? && next.PublishCancelled?)
    || (target.Failed? && next.PublishFailed? && (r.entered ==> next.origin.Guarded?))
  }

  /** The owner has made the row terminal, and nobody else has seen it yet. */
  lemma AfterTerminalMove(cfg: Config, sh: Shared, rid: RunId, r: Run, target: Status, stamp: Time, next: PC,
                          sh': Shared, r': Run)
    requires MayMove(cfg, sh, rid, r, target, stamp) && Announces(target, r, next)
    requires Outcomes(sh.log) == 0 && sh.deadLetters == 0
    requires sh' == Move(sh, rid, r, TryTransition(sh.row, r.mem, target, stamp).row, Finalized, next).0
    requires r' == r.(mem := sh'.row, pending := None, exit := Finalized, pc := next, seen := sh'.now)
    ensures RunOk(cfg, sh', rid, r')
  {
    MovedRow(cfg, sh, rid, r, target, stamp);
    MovedOutbox(cfg, sh, rid, r, target, stamp, Finalized, next);
    assert sh'.claims == sh.claims && sh'.log == sh.log && sh'.deadLetters == sh.deadLetters;
    assert !sh.row.status.Cancelled?;
  }

  /** The owner has queued the scan again. */
  lemma AfterRequeue(cfg: Config, sh: Shared, rid: RunId, r: Run, stamp: Time, sh': Shared, r': Run)
    requires MayMove(cfg, sh, rid, r, Queued, stamp)
    requires sh' == Move(sh, rid, r, TryTransition(sh.row, r.mem, Queued, stamp).row, Requeued, PublishRequeued).0
    requires r' == r.(mem := sh'.row, pending := None, exit := Requeued, pc := PublishRequeued, seen := sh'.now)
    ensures RunOk(cfg, sh', rid, r')
  {
    MovedRow(cfg, sh, rid, r, Queued, stamp);
    MovedOutbox(cfg, sh, rid, r, Queued, stamp, Requeued, PublishRequeued);
    assert sh'.claims == sh.claims;
  }

  lemma MoveKeeps(cfg: Config, sh: Shared, rid: RunId, r: Run, target: Status, stamp: Time, exit: Exit, next: PC)
    requires MayMove(cfg, sh, rid, r, target, stamp)
    requires (exit.Finalized? && Announces(target, r, next))
      || (target.Queued? && exit.Requeued? && next.PublishRequeued?)
    ensures var (sh', r') := Move(sh, rid, r, TryTransition(sh.row, r.mem, target, stamp).row, exit, next);
      Kept(cfg, sh, rid, sh', r')
  {
    var (sh', r') := Move(sh, rid, r, TryTransition(sh.row, r.mem, target, stamp).row, exit, next);
    MoveShared(cfg, sh, rid, r, target, stamp, exit, next);
    if target.Queued? {
      AfterRequeue(cfg, sh, rid, r, stamp, sh', r'.(seen := sh'.now));
    } else {
      NoOutcomeYet(sh.log, sh.row.status);
      AfterTerminalMove(cfg, sh, rid, r, target, stamp, next, sh', r'.(seen := sh'.now));
    }
  }

  lemma DeadLetterShared(cfg: Config, sh: Shared, rid: RunId)
    requires SharedOk(cfg, sh) && sh.row.status.Failed? && sh.finalizer == Some(rid) && sh.deadLetters == 0
    ensures var sh' := sh.(deadLetters := 1); SharedOk(cfg, sh') && Guarantee(cfg, sh, sh', Some(rid))
  {
  }

  lemma DeadLetterKeeps(cfg: Config, sh: Shared, rid: RunId, r: Run, c: Choice)
    requires Ready(cfg, sh, rid, r, c) && !c.act.Expire?
    requires r.pc.DeadLetter?
    ensures var (sh', r') := HandlerStep(cfg, sh, rid, r, c); Kept(cfg, sh, rid, sh', r')
  {
    Stutter(cfg, sh, Some(rid));
    DeadLetterShared(cfg, sh, rid);
  }

  // ---------------------------------------------------------- the except clauses

  /** The handlers of a run that owns its attempt. */
  predicate OwnerCas(pc: PC) {
    HandlerCas(pc) && (pc.FailCas? ==> !pc.origin.Unregistered?)
  }

  lemma HandlerMoveKeeps(cfg: Config, sh: Shared, rid: RunId, r: Run, stamp: Time)
    requires SharedOk(cfg, sh) && RunOk(cfg, sh, rid, r) && r.seen <= stamp <= sh.now
    requires OwnerCas(r.pc) && TryTransition(sh.row, r.mem, PlanOf(r.pc).target, stamp).Moved?
    ensures var (sh', r') := HandlerMove(sh, rid, r, PlanOf(r.pc), stamp); Kept(cfg, sh, rid, sh', r')
  {
    assert Owner(r);
    MoveKeeps(cfg, sh, rid, r, PlanOf(r.pc).target, stamp, PlanOf(r.pc).exit, PlanOf(r.pc).next);
  }

  /** Stale: the row has been cancelled, and the run goes to reconcile or, unguarded, escapes. */
  lemma OwnerLoses(cfg: Config, sh: Shared, rid: RunId, r: Run)
    requires RunOk(cfg, sh, rid, r) && Owner(r) && sh.row.status.Cancelled?
    ensures var r' := r.(pc := Reconcile, seen := sh.now); RunOk(cfg, sh, rid, r')
    ensures r.pc == FailCas(BadConfig) ==>
      var r' := r.(pc := Finish(true), exit := LostToCancel, seen := sh.now); RunOk(cfg, sh, rid, r')
  {
  }

  lemma HandlerStaleKeeps(cfg: Config, sh: Shared, rid: RunId, r: Run, stamp: Time)
    requires SharedOk(cfg, sh) && RunOk(cfg, sh, rid, r) && r.seen <= stamp <= sh.now
    requires OwnerCas(r.pc) && TryTransition(sh.row, r.mem, PlanOf(r.pc).target, stamp).Stale?
    ensures var (sh', r') := HandlerMove(sh, rid, r, PlanOf(r.pc), stamp); Kept(cfg, sh, rid, sh', r')
  {
    assert Owner(r) && sh.row.status.Cancelled?;
    OwnerLoses(cfg, sh, rid, r);
  }

  /** What an owner writes satisfies every CHECK. */
  lemma OwnersPassChecks(cfg: Config, sh: Shared, rid: RunId, r: Run, target: Status, stamp: Time)
    requires SharedOk(cfg, sh) && RunOk(cfg, sh, rid, r) && r.seen <= stamp <= sh.now
    requires Owner(r)
    ensures !TryTransition(sh.row, r.mem, target, stamp).CheckFailed?
  {
    assert Owned(sh, rid, r);
  }

  /** No such edge: PROCESSING has none to TIMED_OUT or QUEUED, SUCCEEDED none at all. */
  lemma HandlerStuckKeeps(cfg: Config, sh: Shared, rid: RunId, r: Run, stamp: Time)
    requires SharedOk(cfg, sh) && RunOk(cfg, sh, rid, r) && r.seen <= stamp <= sh.now
    requires OwnerCas(r.pc) && TryTransition(sh.row, r.mem, PlanOf(r.pc).target, stamp).InvalidEdge?
    ensures var (sh', r') := HandlerMove(sh, rid, r, PlanOf(r.pc), stamp); Kept(cfg, sh, rid, sh', r')
  {
    assert r.pc.TimeoutCas? || r.pc.RequeueCas?;
  }

  lemma HandlerCasKeeps(cfg: Config, sh: Shared, rid: RunId, r: Run, stamp: Time)
    requires SharedOk(cfg, sh) && RunOk(cfg, sh, rid, r) && r.seen <= stamp <= sh.now
    requires OwnerCas(r.pc)
    ensures var (sh', r') := HandlerMove(sh, rid, r, PlanOf(r.pc), stamp); Kept(cfg, sh, rid, sh', r')
  {
    match TryTransition(sh.row, r.mem, PlanOf(r.pc).target, stamp)
    case Moved(_) => HandlerMoveKeeps(cfg, sh, rid, r, stamp);
    case Stale => HandlerStaleKeeps(cfg, sh, rid, r, stamp);
    case InvalidEdge => HandlerStuckKeeps(cfg, sh, rid, r, stamp);
    case CheckFailed => if Owner(r) { OwnersPassChecks(cfg, sh, rid, r, PlanOf(r.pc).target, stamp); }
  }

  /** The one write of a run that never claimed: FAILED for an unregistered scanner. */
  lemma UnregisteredShared(cfg: Config, sh: Shared, rid: RunId, r: Run, stamp: Time)
    requires SharedOk(cfg, sh) && RunOk(cfg, sh, rid, r)
    requires r.seen <= stamp <= sh.now
    requires r.pc == FailCas(Unregistered)
    requires TryTransition(sh.row, r.mem, Failed, stamp).Moved?
    ensures Outcomes(sh.log) == 0
    ensures var row := TryTransition(sh.row, r.mem, Failed, stamp).row;
      var sh' := Move(sh, rid, r, row, Finalized, PublishFailed(Unregistered)).0;
      SharedOk(cfg, sh') && Guarantee(cfg, sh, sh', Some(rid))
  {
    var row := TryTransition(sh.row, r.mem, Failed, stamp).row;
    var sh' := Move(sh, rid, r, row, Finalized, PublishFailed(Unregistered)).0;
    NoOutcomeYet(sh.log, sh.row.status);
    assert LogOk(sh') by {
      forall e | e in sh'.log ensures Truthful(e, Failed) {
        assert Truthful(e, sh.row.status);
      }
    }
  }

  lemma UnregisteredRun(cfg: Config, sh: Shared, rid: RunId, r: Run, stamp: Time)
    requires SharedOk(cfg, sh) && RunOk(cfg, sh, rid, r)
    requires r.pc == FailCas(Unregistered)
    requires TryTransition(sh.row, r.mem, Failed, stamp).Moved?
    requires Outcomes(sh.log) == 0
    ensures
      var row := TryTransition(sh.row, r.mem, Failed, stamp).row;
      var (sh', r') := Move(sh, rid, r, row, Finalized, PublishFailed(Unregistered));
      var after := r'.(seen := sh'.now); RunOk(cfg, sh', rid, after)
  {
  }

  lemma UnregisteredKeeps(cfg: Config, sh: Shared, rid: RunId, r: Run, stamp: Time)
    requires SharedOk(cfg, sh) && RunOk(cfg, sh, rid, r) && r.seen <= stamp <= sh.now
    requires r.pc == FailCas(Unregistered)
    ensures var (sh', r') := HandlerMove(sh, rid, r, PlanOf(r.pc), stamp); Kept(cfg, sh, rid, sh', r')
  {
    if TryTransition(sh.row, r.mem, Failed, stamp).Moved? {
      UnregisteredShared(cfg, sh, rid, r, stamp);
      UnregisteredRun(cfg, sh, rid, r, stamp);
    } else {
      Stutter(cfg, sh, Some(rid));
      UnregisteredFails(cfg, sh, rid, r);
    }
  }

  /** Stale or refused: the run never claimed, and leaves nothing behind. */
  lemma UnregisteredFails(cfg: Config, sh: Shared, rid: RunId, r: Run)
    requires RunOk(cfg, sh, rid, r) && r.pc == FailCas(Unregistered)
    ensures var r' := r.(pc := Finish(true), seen := sh.now); RunOk(cfg, sh, rid, r')
  {
  }

  lemma RequeueFlushed(cfg: Config, sh: Shared, rid: RunId, r: Run, countdown: real, r': Run)
    requires SharedOk(cfg, sh) && RunOk(cfg, sh, rid, r) && r.pc == Failure(true)
    requires ShouldRetry(r.mem.attempt, r.mem.maxAttempts) && cfg.drawable(r.mem.attempt, countdown)
    requires r' == r.(pending := Some(Flushed(r.mem.attempt, countdown)), pc := RequeueCas, seen := sh.now)
    ensures r.mem.attempt !in sh.outbox && RunOk(cfg, sh, rid, r')
  {
    assert Owned(sh, rid, r);
    assert Owned(sh, rid, r');
  }

  lemma FailureKeeps(cfg: Config, sh: Shared, rid: RunId, r: Run, c: Choice)
    requires Ready(cfg, sh, rid, r, c) && !c.act.Expire?
    requires r.pc.Failure?
    ensures var (sh', r') := HandlerStep(cfg, sh, rid, r, c); Kept(cfg, sh, rid, sh', r')
  {
    Stutter(cfg, sh, Some(rid));
    if r.pc.transient && ShouldRetry(r.mem.attempt, r.mem.maxAttempts) {
      RequeueFlushed(cfg, sh, rid, r, c.countdown,
        r.(pending := Some(Flushed(r.mem.attempt, c.countdown)), pc := RequeueCas, seen := sh.now));
    } else {
      OwnerGoes(cfg, sh, sh, rid, r, FailCas(Guarded), r.lateStages, r.entered);
    }
  }

  lemma ReconcileKeeps(cfg: Config, sh: Shared, rid: RunId, r: Run, c: Choice)
    requires Ready(cfg, sh, rid, r, c) && !c.act.Expire?
    requires r.pc.Reconcile?
    ensures var (sh', r') := HandlerStep(cfg, sh, rid, r, c); Kept(cfg, sh, rid, sh', r')
  {
  }

  lemma SawCancelKeeps(cfg: Config, sh: Shared, rid: RunId, r: Run, c: Choice)
    requires Ready(cfg, sh, rid, r, c) && !c.act.Expire?
    requires r.pc.SawCancel?
    ensures var (sh', r') := HandlerStep(cfg, sh, rid, r, c); Kept(cfg, sh, rid, sh', r')
  {
  }

  lemma HandlerKeeps(cfg: Config, sh: Shared, rid: RunId, r: Run, c: Choice)
    requires Ready(cfg, sh, rid, r, c) && !c.act.Expire?
    requires InHandler(r.pc)
    ensures var (sh', r') := HandlerStep(cfg, sh, rid, r, c); Kept(cfg, sh, rid, sh', r')
  {
    if HandlerCas(r.pc) {
      if r.pc == FailCas(Unregistered) {
        UnregisteredKeeps(cfg, sh, rid, r, c.stamp);
      } else {
        HandlerCasKeeps(cfg, sh, rid, r, c.stamp);
      }
    } else {
      match r.pc
      case PublishTimedOut => OutcomeKeeps(cfg, sh, rid, r, ScanTimedOut, c.ok, Cleanup(false));
      case PublishCancelled => PublishCancelledKeeps(cfg, sh, rid, r, c.ok);
      case Failure(_) => FailureKeeps(cfg, sh, rid, r, c);
      case PublishRequeued => PublishRequeuedKeeps(cfg, sh, rid, r, c.ok);
      case PublishFailed(origin) => OutcomeKeeps(cfg, sh, rid, r, ScanFailed, c.ok, DeadLetter(origin));
      case DeadLetter(_) => DeadLetterKeeps(cfg, sh, rid, r, c);
      case SawCancel => SawCancelKeeps(cfg, sh, rid, r, c);
      case Reconcile => ReconcileKeeps(cfg, sh, rid, r, c);
    }
  }

  lemma RunActKeeps(cfg: Config, sh: Shared, rid: RunId, r: Run, c: Choice)
    requires Ready(cfg, sh, rid, r, c)
    ensures var (sh', r') := RunAct(cfg, sh, rid, r, c); Kept(cfg, sh, rid, sh', r')
  {
    if c.act.Expire? {
      ExpireKeeps(cfg, sh, rid, r, c);
    } else if InTimeoutBlock(r.pc) {
      StageKeeps(cfg, sh, rid, r, c);
    } else if InHandler(r.pc) {
      HandlerKeeps(cfg, sh, rid, r, c);
    } else if r.pc.Cleanup? {
      CleanupKeeps(cfg, sh, rid, r);
    } else if r.pc.Finish? {
      if r.pc.raised || r.pending.None? {
        RollbackKeeps(cfg, sh, rid, r);
      } else {
        CommitKeeps(cfg, sh, rid, r);
      }
    } else {
      EntryKeeps(cfg, sh, rid, r, c);
    }
  }

  /** Every step of a run keeps the invariant and gives the guarantee. */
  lemma RunStepKeeps(cfg: Config, sh: Shared, rid: RunId, r: Run, c: Choice)
    requires Ready(cfg, sh, rid, r, c)
    ensures var (sh', r') := RunStep(cfg, sh, rid, r, c);
      SharedOk(cfg, sh') && RunOk(cfg, sh', rid, r') && Guarantee(cfg, sh, sh', Some(rid))
  {
    RunActKeeps(cfg, sh, rid, r, c);
  }
}
