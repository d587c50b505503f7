/** What the invariant means: the theorems about every reachable state and every history. */
module ProtocolTheorems {
  import opened ScanModel
  import opened Retry
  import opened Protocol
  import opened ProtocolInvariant
  import opened ProtocolRuns
  import opened ProtocolSlices

  /** Some history of a newly created scan ends in `s`. */
  ghost predicate Reachable(cfg: Config, s: Slice) {
    exists maxAttempts: nat, now: Time, labels: seq<Label> ::
      1 <= maxAttempts && Legal(cfg, Created(maxAttempts, now), labels)
      && After(cfg, Created(maxAttempts, now), labels) == s
  }

  lemma ReachableOk(cfg: Config, s: Slice)
    requires Reachable(cfg, s)
    ensures SliceOk(cfg, s)
  {
    var maxAttempts: nat, now: Time, labels: seq<Label> :|
      1 <= maxAttempts && Legal(cfg, Created(maxAttempts, now), labels)
      && After(cfg, Created(maxAttempts, now), labels) == s;
    CreatedOk(cfg, maxAttempts, now);
    HistoryOk(cfg, Created(maxAttempts, now), labels);
  }

  // ------------------------------------------------------------------- ownership

  /**
   At most one live run can still write the status, it is the run that claimed the
   current attempt, and what it believes is what the row says unless the row has
   been cancelled.
   */
  lemma ExclusiveOwnership(cfg: Config, s: Slice, rid: RunId, other: RunId)
    requires Reachable(cfg, s)
    requires rid in s.runs && Owner(s.runs[rid])
    ensures other in s.runs && Owner(s.runs[other]) ==> other == rid
    ensures s.sh.row.attempt in s.sh.claims && s.sh.claims[s.sh.row.attempt] == rid
    ensures s.runs[rid].mem.attempt == s.sh.row.attempt
    ensures s.sh.row == s.runs[rid].mem || CancelledFrom(s.sh.row, s.runs[rid].mem)
  {
    ReachableOk(cfg, s);
    assert RunOk(cfg, s.sh, rid, s.runs[rid]);
    if other in s.runs { assert RunOk(cfg, s.sh, other, s.runs[other]); }
  }

  /**
   No ABA: when a claimed run's step changes the row, the row was at the attempt
   this run claimed, and was exactly the run's in-memory scan.
   */
  lemma WritesOwnAttemptOnly(cfg: Config, s: Slice, rid: RunId, c: Choice)
    requires Reachable(cfg, s) && Enabled(cfg, s, ActRun(rid, c))
    requires 0 < s.runs[rid].own
    requires Step(cfg, s, ActRun(rid, c)).sh.row != s.sh.row
    ensures Owner(s.runs[rid])
    ensures s.sh.row.attempt == s.runs[rid].own && s.sh.row == s.runs[rid].mem
  {
    ReachableOk(cfg, s);
    assert RunOk(cfg, s.sh, rid, s.runs[rid]);
    WritersOwn(cfg, s.sh, rid, s.runs[rid], c);
  }

  lemma BlockWritersOwn(cfg: Config, sh: Shared, rid: RunId, r: Run, c: Choice)
    requires RunOk(cfg, sh, rid, r) && InTimeoutBlock(r.pc) && StageStep(sh, rid, r, c).0.row != sh.row
    ensures Owner(r) && sh.row.attempt == r.own && sh.row == r.mem
  {
  }

  lemma HandlerWritersOwn(cfg: Config, sh: Shared, rid: RunId, r: Run, c: Choice)
    requires RunOk(cfg, sh, rid, r) && InHandler(r.pc) && 0 < r.own && HandlerStep(cfg, sh, rid, r, c).0.row != sh.row
    ensures Owner(r) && sh.row.attempt == r.own && sh.row == r.mem
  {
    assert HandlerCas(r.pc);
  }

  lemma WritersOwn(cfg: Config, sh: Shared, rid: RunId, r: Run, c: Choice)
    requires RunOk(cfg, sh, rid, r) && RunEnabled(cfg, sh, r, c)
    requires 0 < r.own && RunStep(cfg, sh, rid, r, c).0.row != sh.row
    ensures Owner(r) && sh.row.attempt == r.own && sh.row == r.mem
  {
    if InTimeoutBlock(r.pc) {
      BlockWritersOwn(cfg, sh, rid, r, c);
    } else if InHandler(r.pc) {
      HandlerWritersOwn(cfg, sh, rid, r, c);
    }
  }

  // ---------------------------------------------------------------- the lost race

  /** Whatever transition of an owner is stale, the only thing that happened is a cancel. */
  lemma StaleMeansCancelled(cfg: Config, s: Slice, rid: RunId, target: Status, stamp: Time)
    requires Reachable(cfg, s)
    requires rid in s.runs && Owner(s.runs[rid])
    requires TryTransition(s.sh.row, s.runs[rid].mem, target, stamp).Stale?
    ensures s.sh.row.status.Cancelled?
    ensures forall t, u :: !TryTransition(s.sh.row, s.runs[rid].mem, t, u).Moved?
  {
    ReachableOk(cfg, s);
    assert RunOk(cfg, s.sh, rid, s.runs[rid]);
  }

  /** A history continues from a state that satisfies the invariant. */
  lemma TerminalStep(cfg: Config, s: Slice, l: Label)
    requires SliceOk(cfg, s) && Enabled(cfg, s, l) && Terminal(s.sh.row.status)
    ensures Step(cfg, s, l).sh.row == s.sh.row
  {
    StepOk(cfg, s, l);
  }

  /** CANCELLED, like the other terminal states, is forever, column by column. */
  lemma {:induction false} TerminalForever(cfg: Config, s: Slice, labels: seq<Label>)
    requires SliceOk(cfg, s) && Legal(cfg, s, labels) && Terminal(s.sh.row.status)
    ensures After(cfg, s, labels).sh.row == s.sh.row
    decreases |labels|
  {
    if labels != [] {
      StepOk(cfg, s, labels[0]);
      TerminalStep(cfg, s, labels[0]);
      TerminalForever(cfg, Step(cfg, s, labels[0]), labels[1..]);
    }
  }

  /** How a run that owns a cancelled scan may end; it never counts the scan as its own work. */
  predicate GaveWay(exit: Exit) {
    exit.Holding? || exit.LostToCancel? || exit.StuckTimeout? || exit.StuckTransient? || exit.StuckValidate?
  }

  lemma BlockGivesWay(cfg: Config, sh: Shared, rid: RunId, r: Run, c: Choice)
    requires RunOk(cfg, sh, rid, r) && InTimeoutBlock(r.pc)
    requires sh.row.status.Cancelled? && 0 < r.own && GaveWay(r.exit)
    ensures var r' := StageStep(sh, rid, r, c).1; r'.own == r.own && GaveWay(r'.exit)
  {
  }

  lemma HandlerGivesWay(cfg: Config, sh: Shared, rid: RunId, r: Run, c: Choice)
    requires RunOk(cfg, sh, rid, r) && InHandler(r.pc)
    requires sh.row.status.Cancelled? && 0 < r.own && GaveWay(r.exit)
    ensures var r' := HandlerStep(cfg, sh, rid, r, c).1; r'.own == r.own && GaveWay(r'.exit)
  {
  }

  lemma GivingWay(cfg: Config, sh: Shared, rid: RunId, r: Run, c: Choice)
    requires RunOk(cfg, sh, rid, r) && RunEnabled(cfg, sh, r, c)
    requires sh.row.status.Cancelled? && 0 < r.own && GaveWay(r.exit)
    ensures var r' := RunStep(cfg, sh, rid, r, c).1; 0 < r'.own == r.own && GaveWay(r'.exit)
  {
    if InTimeoutBlock(r.pc) {
      BlockGivesWay(cfg, sh, rid, r, c);
    } else if InHandler(r.pc) {
      HandlerGivesWay(cfg, sh, rid, r, c);
    }
  }

  lemma {:induction false} LosersGiveWay(cfg: Config, s: Slice, labels: seq<Label>, rid: RunId)
    requires SliceOk(cfg, s) && Legal(cfg, s, labels)
    requires s.sh.row.status.Cancelled?
    requires rid in s.runs && 0 < s.runs[rid].own && GaveWay(s.runs[rid].exit)
    ensures var s' := After(cfg, s, labels);
      && s'.sh.row == s.sh.row && SliceOk(cfg, s')
      && rid in s'.runs && s'.runs[rid].own == s.runs[rid].own && GaveWay(s'.runs[rid].exit)
    decreases |labels|
  {
    if labels != [] {
      var l := labels[0];
      StepOk(cfg, s, l);
      TerminalStep(cfg, s, l);
      LoserStep(cfg, s, l, rid);
      LosersGiveWay(cfg, Step(cfg, s, l), labels[1..], rid);
    }
  }

  lemma LoserStep(cfg: Config, s: Slice, l: Label, rid: RunId)
    requires SliceOk(cfg, s) && Enabled(cfg, s, l)
    requires s.sh.row.status.Cancelled?
    requires rid in s.runs && 0 < s.runs[rid].own && GaveWay(s.runs[rid].exit)
    ensures var s' := Step(cfg, s, l);
      rid in s'.runs && s'.runs[rid].own == s.runs[rid].own && GaveWay(s'.runs[rid].exit)
  {
    if l.ActRun? {
      if l.rid == rid {
        assert RunOk(cfg, s.sh, rid, s.runs[rid]);
        GivingWay(cfg, s.sh, rid, s.runs[rid], l.choice);
      }
    } else {
      EnvKeepsRuns(cfg, s, l, rid);
    }
  }

  lemma EnvKeepsRuns(cfg: Config, s: Slice, l: Label, rid: RunId)
    requires Enabled(cfg, s, l) && !l.ActRun? && rid in s.runs
    ensures var s' := EnvStep(cfg, s, l);
      && rid in s'.runs && s'.runs[rid].own == s.runs[rid].own && s'.runs[rid].exit == s.runs[rid].exit
      && s'.runs[rid].cleanups == s.runs[rid].cleanups && s'.runs[rid].entered == s.runs[rid].entered
  {
  }

  /**
   A lost race is never overwritten.  Cancel a scan under a run that owns it, and let
   anything happen after that: the row is the cancelled row, the run never makes a
   status its own, and if it returns normally it has reconciled with the cancel.
   */
  lemma LostRaceIsNeverOverwritten(cfg: Config, s: Slice, labels: seq<Label>, rid: RunId)
    requires Reachable(cfg, s) && Legal(cfg, s, labels)
    requires s.sh.row.status.Cancelled?
    requires rid in s.runs && Owner(s.runs[rid])
    ensures var s' := After(cfg, s, labels);
      && s'.sh.row == s.sh.row
      && rid in s'.runs && GaveWay(s'.runs[rid].exit)
      && (s'.runs[rid].pc == Done(false) ==> s'.runs[rid].exit.LostToCancel?)
  {
    ReachableOk(cfg, s);
    assert RunOk(cfg, s.sh, rid, s.runs[rid]);
    OwnerHolds(cfg, s.sh, rid, s.runs[rid]);
    LosersGiveWay(cfg, s, labels, rid);
    var s' := After(cfg, s, labels);
    assert RunOk(cfg, s'.sh, rid, s'.runs[rid]);
    LoserReconciled(cfg, s'.sh, rid, s'.runs[rid]);
  }

  lemma OwnerHolds(cfg: Config, sh: Shared, rid: RunId, r: Run)
    requires RunOk(cfg, sh, rid, r) && Owner(r)
    ensures 0 < r.own && r.exit.Holding?
  {
  }

  lemma LoserReconciled(cfg: Config, sh: Shared, rid: RunId, r: Run)
    requires RunOk(cfg, sh, rid, r) && 0 < r.own && GaveWay(r.exit)
    ensures r.pc == Done(false) ==> r.exit.LostToCancel?
  {
  }

  // ------------------------------------------------------- how the loser of a race ends

  /** Is the run about to attempt a transition inside the guarded block or one of its handlers? */
  predicate GuardedCas(pc: PC) {
    pc.Advance? || pc.Succeed? || pc.TimeoutCas? || pc.CancelCas? || pc.RequeueCas? || pc == FailCas(Guarded)
  }

  function TargetAt(pc: PC): Status
    requires GuardedCas(pc)
  {
    if pc.Advance? then StatusOf(pc.stage) else if pc.Succeed? then Succeeded else PlanOf(pc).target
  }

  /** The points a run passes from a stale transition to its end, and what it has found out by then. */
  predicate Reconciling(r: Run) {
    || r.pc == Failure(false) || r.pc == FailCas(Guarded) || r.pc == Reconcile
    || (r.exit.LostToCancel?
        && (r.pc == PublishCancelled || r.pc == Cleanup(false) || r.pc == Finish(false) || r.pc == Done(false)))
    || r.pc == Dead
  }

  /** A stale transition inside the guarded block leads onto this way, and the row is CANCELLED. */
  lemma StaleLeadsToReconciling(cfg: Config, sh: Shared, rid: RunId, r: Run, c: Choice)
    requires SharedOk(cfg, sh) && RunOk(cfg, sh, rid, r) && RunEnabled(cfg, sh, r, c) && !c.act.Expire?
    requires GuardedCas(r.pc) && TryTransition(sh.row, r.mem, TargetAt(r.pc), c.stamp).Stale?
    ensures sh.row.status.Cancelled? && 0 < r.own
    ensures var (sh', r') := RunStep(cfg, sh, rid, r, c); sh' == sh && Reconciling(r') && r'.own == r.own
  {
    assert Active(r.mem.status) ==> Owned(sh, rid, r);
  }

  lemma HandlerReconciles(cfg: Config, sh: Shared, rid: RunId, r: Run, c: Choice)
    requires RunOk(cfg, sh, rid, r) && InHandler(r.pc)
    requires sh.row.status.Cancelled? && 0 < r.own && Reconciling(r)
    ensures var r' := HandlerStep(cfg, sh, rid, r, c).1; Reconciling(r') && r'.own == r.own
  {
    if r.pc == Failure(false) || r.pc == FailCas(Guarded) { assert Owned(sh, rid, r); }
  }

  /** On a cancelled scan nothing leads away from it: every further transition of the run is stale as well. */
  lemma ReconcilingGoesOn(cfg: Config, sh: Shared, rid: RunId, r: Run, c: Choice)
    requires RunOk(cfg, sh, rid, r) && RunEnabled(cfg, sh, r, c)
    requires sh.row.status.Cancelled? && 0 < r.own && Reconciling(r)
    ensures var r' := RunStep(cfg, sh, rid, r, c).1; Reconciling(r') && 0 < r'.own == r.own
  {
    if InHandler(r.pc) { HandlerReconciles(cfg, sh, rid, r, c); }
  }

  lemma ReconcilingStep(cfg: Config, s: Slice, l: Label, rid: RunId)
    requires SliceOk(cfg, s) && Enabled(cfg, s, l)
    requires s.sh.row.status.Cancelled?
    requires rid in s.runs && 0 < s.runs[rid].own && Reconciling(s.runs[rid])
    ensures var s' := Step(cfg, s, l);
      rid in s'.runs && s'.runs[rid].own == s.runs[rid].own && Reconciling(s'.runs[rid])
  {
    if l.ActRun? {
      if l.rid == rid {
        assert RunOk(cfg, s.sh, rid, s.runs[rid]);
        ReconcilingGoesOn(cfg, s.sh, rid, s.runs[rid], l.choice);
      }
    } else if l != KillRun(rid) {
      EnvLeavesRun(cfg, s, l, rid);
    }
  }

  lemma EnvLeavesRun(cfg: Config, s: Slice, l: Label, rid: RunId)
    requires Enabled(cfg, s, l) && !l.ActRun? && l != KillRun(rid) && rid in s.runs
    ensures var s' := EnvStep(cfg, s, l); rid in s'.runs && s'.runs[rid] == s.runs[rid]
  {
  }

  lemma {:induction false} ReconcilingToTheEnd(cfg: Config, s: Slice, labels: seq<Label>, rid: RunId)
    requires SliceOk(cfg, s) && Legal(cfg, s, labels)
    requires s.sh.row.status.Cancelled?
    requires rid in s.runs && 0 < s.runs[rid].own && Reconciling(s.runs[rid])
    ensures var s' := After(cfg, s, labels);
      && s'.sh.row == s.sh.row
      && rid in s'.runs && s'.runs[rid].own == s.runs[rid].own && Reconciling(s'.runs[rid])
    decreases |labels|
  {
    if labels != [] {
      var l := labels[0];
      StepOk(cfg, s, l);
      TerminalStep(cfg, s, l);
      ReconcilingStep(cfg, s, l, rid);
      ReconcilingToTheEnd(cfg, Step(cfg, s, l), labels[1..], rid);
    }
  }

  /**
   The loser of a race, from the stale transition to its end.  The scan has been cancelled;
   every further attempt to move it is stale too; unless the run is killed it is reconciled
   by `_handle_stale_state`, and when it is done it has returned, not raised, with the
   cancelled row as it was.
   */
  lemma LoserIsReconciled(cfg: Config, s: Slice, rid: RunId, c: Choice, labels: seq<Label>)
    requires Reachable(cfg, s) && Enabled(cfg, s, ActRun(rid, c)) && !c.act.Expire?
    requires GuardedCas(s.runs[rid].pc)
    requires TryTransition(s.sh.row, s.runs[rid].mem, TargetAt(s.runs[rid].pc), c.stamp).Stale?
    requires Legal(cfg, Step(cfg, s, ActRun(rid, c)), labels)
    ensures var s' := After(cfg, Step(cfg, s, ActRun(rid, c)), labels);
      && s.sh.row.status.Cancelled? && s'.sh.row == s.sh.row
      && rid in s'.runs && Reconciling(s'.runs[rid])
      && s'.runs[rid].pc != Done(true)
      && (s'.runs[rid].pc == Done(false) ==> s'.runs[rid].exit.LostToCancel?)
  {
    ReachableOk(cfg, s);
    assert RunOk(cfg, s.sh, rid, s.runs[rid]);
    StaleLeadsToReconciling(cfg, s.sh, rid, s.runs[rid], c);
    StepOk(cfg, s, ActRun(rid, c));
    ReconcilingToTheEnd(cfg, Step(cfg, s, ActRun(rid, c)), labels, rid);
  }

  /** A cancel request that has been granted and answered: the scan is CANCELLED, and scan.cancelled is out. */
  lemma GrantedCancelsAreSaid(cfg: Config, s: Slice, cid: CancelId)
    requires Reachable(cfg, s) && cid in s.cancels && s.cancels[cid].pc == Answered(true)
    ensures s.sh.row.status.Cancelled? && ScanCancelled in s.sh.log
  {
    ReachableOk(cfg, s);
    assert CancelOk(s.sh, s.cancels[cid]);
  }

  // --------------------------------------------------- cancellation and clean-up

  /**
   Cooperative cancellation.  A cancelled row stays as it is; of all the runs working on
   the scan, now or later, at most one begins a plugin stage after the cancel, and at most
   one stage; and a run that entered the guarded block and was not killed has called
   `cleanup` exactly once.
   */
  lemma CooperativeCancellation(cfg: Config, s: Slice, labels: seq<Label>, rid: RunId, other: RunId)
    requires Reachable(cfg, s) && Legal(cfg, s, labels)
    requires s.sh.row.status.Cancelled?
    ensures var s' := After(cfg, s, labels);
      && s'.sh.row == s.sh.row
      && (rid in s'.runs ==>
          && s'.runs[rid].lateStages <= 1
          && s'.runs[rid].cleanups <= 1
          && (s'.runs[rid].entered && s'.runs[rid].pc.Done? ==> s'.runs[rid].cleanups == 1))
      && (rid in s'.runs && other in s'.runs && s'.runs[rid].lateStages > 0 && s'.runs[other].lateStages > 0
          ==> rid == other)
  {
    ReachableOk(cfg, s);
    HistoryOk(cfg, s, labels);
    TerminalForever(cfg, s, labels);
    LateRunsAgree(cfg, After(cfg, s, labels), rid, other);
  }

  lemma LateRunsAgree(cfg: Config, s: Slice, rid: RunId, other: RunId)
    requires SliceOk(cfg, s)
    ensures rid in s.runs ==>
      && s.runs[rid].lateStages <= 1 && s.runs[rid].cleanups <= 1
      && (s.runs[rid].entered && s.runs[rid].pc.Done? ==> s.runs[rid].cleanups == 1)
    ensures rid in s.runs && other in s.runs && s.runs[rid].lateStages > 0 && s.runs[other].lateStages > 0
      ==> rid == other
  {
    if rid in s.runs { assert RunOk(cfg, s.sh, rid, s.runs[rid]); }
    if other in s.runs { assert RunOk(cfg, s.sh, other, s.runs[other]); }
  }

  // -------------------------------------------------------------- lost wake-ups

  /**
   No lost wake-up: while no delivery has been lost before its claim, a QUEUED scan has its
   row unpublished and its message still to be sent, a message on the queue, or a run that
   will take it out of QUEUED if nobody does so before: one on its way to a claim that can
   win, or one that does not know the scanner and is about to fail the scan.
   */
  lemma NoLostWakeUp(cfg: Config, s: Slice)
    requires Reachable(cfg, s)
    requires s.sh.row.status.Queued? && !s.sh.lostDelivery
    ensures
      || (s.sh.row.attempt in s.sh.outbox && !s.sh.outbox[s.sh.row.attempt].published
          && !SentFor(s, s.sh.row.attempt))
      || s.sh.messages > 0
      || exists rid :: rid in s.runs && Waker(s.sh, s.runs[rid])
  {
    ReachableOk(cfg, s);
  }

  // ----------------------------------------------------- the measure and its bound

  /** Every step changes the status at most once, along an edge, and lowers the measure. */
  lemma EveryStepDescends(cfg: Config, s: Slice, l: Label)
    requires Reachable(cfg, s) && Enabled(cfg, s, l)
    ensures var s' := Step(cfg, s, l);
      || (s'.sh.row == s.sh.row && s'.sh.changes == s.sh.changes)
      || (ValidEdge(s.sh.row.status, s'.sh.row.status) && Below(s'.sh.row, s.sh.row)
          && s'.sh.changes == s.sh.changes + 1)
  {
    ReachableOk(cfg, s);
    StepOk(cfg, s, l);
  }

  /** The attempts claimed are 1..n, so there are n of them. */
  lemma {:induction false} CountUpTo(claimed: set<nat>, n: nat)
    requires forall i: nat :: i in claimed <==> 1 <= i <= n
    ensures |claimed| == n
  {
    if n == 0 {
      assert claimed == {};
    } else {
      CountUpTo(claimed - {n}, n - 1);
    }
  }

  /**
   However many messages are delivered, a scan is claimed `attempt` times, at most
   `maxAttempts` times, each attempt by one run, and changes its status at most
   4 * maxAttempts + 2 times.
   */
  lemma BoundedLife(cfg: Config, s: Slice)
    requires Reachable(cfg, s)
    ensures |s.sh.claims| == s.sh.row.attempt <= s.sh.row.maxAttempts
    ensures s.sh.row.status.Queued? ==> s.sh.row.attempt < s.sh.row.maxAttempts
    ensures s.sh.changes <= 4 * s.sh.row.maxAttempts + 2
  {
    ReachableOk(cfg, s);
    CountUpTo(s.sh.claims.Keys, s.sh.row.attempt);
  }

  /** An attempt, once claimed, stays with the run that claimed it. */
  lemma {:induction false} ClaimedOnce(cfg: Config, s: Slice, labels: seq<Label>, attempt: nat)
    requires SliceOk(cfg, s) && Legal(cfg, s, labels)
    requires attempt in s.sh.claims
    ensures var s' := After(cfg, s, labels);
      attempt in s'.sh.claims && s'.sh.claims[attempt] == s.sh.claims[attempt]
    decreases |labels|
  {
    if labels != [] {
      StepOk(cfg, s, labels[0]);
      ClaimedOnce(cfg, Step(cfg, s, labels[0]), labels[1..], attempt);
    }
  }

  // -------------------------------------------------------------------- the outbox

  /**
   The outbox rows of a scan are a gap-free prefix of its attempts, and the unique
   constraint on (tenant, scan, attempt) has never fired.
   */
  lemma OutboxIsAPrefix(cfg: Config, s: Slice)
    requires Reachable(cfg, s)
    ensures !s.sh.uniqueViolated
    ensures s.sh.row.status.Queued? ==> Prefix(s.sh.outbox, s.sh.row.attempt + 1)
    ensures Active(s.sh.row.status) || s.sh.row.status.Succeeded? || s.sh.row.status.TimedOut? ==>
      Prefix(s.sh.outbox, s.sh.row.attempt)
    ensures s.sh.row.status.Failed? || s.sh.row.status.Cancelled? ==>
      Prefix(s.sh.outbox, s.sh.row.attempt) || Prefix(s.sh.outbox, s.sh.row.attempt + 1)
    ensures forall a :: a in s.sh.outbox ==> a < s.sh.row.maxAttempts
  {
    ReachableOk(cfg, s);
  }

  /** `after` has one row more than `before`: an unpublished one, for attempt `a`. */
  ghost predicate OneNewRow(before: map<nat, OutboxRow>, after: map<nat, OutboxRow>, a: nat) {
    && a !in before
    && after.Keys == before.Keys + {a}
    && !after[a].published && after[a].sends == 0
    && forall b :: b in before ==> after[b] == before[b]
  }

  /** A requeue commits the QUEUED row and exactly one new outbox row, with a delay of the policy, or neither. */
  lemma RequeueAddsOneRow(cfg: Config, s: Slice, rid: RunId, c: Choice)
    requires Reachable(cfg, s) && Enabled(cfg, s, ActRun(rid, c))
    requires s.runs[rid].pc.RequeueCas?
    ensures var s' := Step(cfg, s, ActRun(rid, c));
      if s'.sh.row == s.sh.row then s'.sh.outbox == s.sh.outbox
      else s'.sh.row.status.Queued? && s'.sh.row.attempt == s.runs[rid].own
           && OneNewRow(s.sh.outbox, s'.sh.outbox, s.runs[rid].own)
           && cfg.drawable(s.runs[rid].own, s'.sh.outbox[s.runs[rid].own].countdown)
  {
    ReachableOk(cfg, s);
    assert RunOk(cfg, s.sh, rid, s.runs[rid]);
    RequeueStep(cfg, s.sh, rid, s.runs[rid], c);
  }

  lemma RequeueStep(cfg: Config, sh: Shared, rid: RunId, r: Run, c: Choice)
    requires RunOk(cfg, sh, rid, r) && RunEnabled(cfg, sh, r, c)
    requires r.pc.RequeueCas?
    ensures var sh' := RunStep(cfg, sh, rid, r, c).0;
      if sh'.row == sh.row then sh'.outbox == sh.outbox
      else sh'.row.status.Queued? && sh'.row.attempt == r.own && OneNewRow(sh.outbox, sh'.outbox, r.own)
           && cfg.drawable(r.own, sh'.outbox[r.own].countdown)
  {
  }
}
