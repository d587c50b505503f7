/** The invariant of a whole slice, and its preservation along every history. */
module ProtocolSlices {
  import opened ScanModel
  import opened Retry
  import opened Protocol
  import opened ProtocolInvariant
  import opened ProtocolRuns

  // ------------------------------------------------------------------- invariant

  /** What a cancel request has read was a row, and its clock reading is later than the stamps on it. */
  ghost predicate CancelOk(sh: Shared, q: CancelRequest) {
    && q.seen <= sh.now
    && Since(q.mem, sh.row)
    && !q.mem.status.Pending?
    && (q.mem.status.Running? || q.mem.status.Collecting? || q.mem.status.Processing? ==> q.mem.startedAt.Some?)
    && q.mem.queuedAt.Some? && q.mem.queuedAt.value <= q.seen
    && (q.mem.startedAt.Some? ==> q.mem.startedAt.value <= q.seen)
    && (q.pc.PublishIt? ==> sh.row.status.Cancelled?)
    && (q.pc == Answered(true) ==> sh.row.status.Cancelled? && ScanCancelled in sh.log)
  }

  ghost predicate SentFor(s: Slice, attempt: nat) {
    exists d :: d in s.dispatchers && s.dispatchers[d] == Sent(attempt)
  }

  /** SKIP LOCKED: whoever is at work holds an unpublished row, and holds it alone. */
  ghost predicate LocksOk(s: Slice) {
    && (forall d :: d in s.dispatchers ==>
          s.dispatchers[d].attempt in s.sh.outbox && !s.sh.outbox[s.dispatchers[d].attempt].published)
    && (forall d, e :: d in s.dispatchers && e in s.dispatchers && d != e ==>
          s.dispatchers[d].attempt != s.dispatchers[e].attempt)
  }

  /** Every send is recorded, about to be recorded, or was made by a dispatcher that died. */
  ghost predicate RowSendsOk(s: Slice, a: nat)
    requires a in s.sh.outbox
  {
    s.sh.outbox[a].sends == s.sh.outbox[a].deaths
      + (if s.sh.outbox[a].published then 1 else 0) + (if SentFor(s, a) then 1 else 0)
  }

  ghost predicate SendsOk(s: Slice) {
    forall a :: a in s.sh.outbox ==> RowSendsOk(s, a)
  }

  /** Was the scan started later than `t`? */
  predicate StartedAfter(row: Scan, t: Time) {
    row.startedAt.Some? && t < row.startedAt.value
  }

  /** A run that will still take the scan out of QUEUED, if nobody does so before. */
  ghost predicate Waker(sh: Shared, r: Run) {
    || r.pc.Delivered?
    || (r.pc.ReadQueued? && r.mem.attempt == sh.row.attempt)
    || (r.pc.FailCas? && r.pc.origin.Unregistered? && !StartedAfter(sh.row, r.seen))
  }

  ghost predicate RowPending(s: Slice) {
    && s.sh.row.attempt in s.sh.outbox
    && !s.sh.outbox[s.sh.row.attempt].published
    && !SentFor(s, s.sh.row.attempt)
  }

  ghost predicate WakerRuns(s: Slice) {
    exists rid :: rid in s.runs && Waker(s.sh, s.runs[rid])
  }

  /** No lost wake-up. */
  ghost predicate Awake(s: Slice) {
    s.sh.row.status.Queued? && !s.sh.lostDelivery ==>
      RowPending(s) || s.sh.messages > 0 || WakerRuns(s)
  }

  ghost predicate RunsOk(cfg: Config, s: Slice) {
    forall rid :: rid in s.runs ==> RunOk(cfg, s.sh, rid, s.runs[rid])
  }

  ghost predicate CancelsOk(s: Slice) {
    forall cid :: cid in s.cancels ==> CancelOk(s.sh, s.cancels[cid])
  }

  ghost predicate SliceOk(cfg: Config, s: Slice) {
    && SharedOk(cfg, s.sh)
    && RunsOk(cfg, s)
    && CancelsOk(s)
    && LocksOk(s)
    && SendsOk(s)
    && Awake(s)
  }

  // ---------------------------------------------------------------- worker steps

  /** What a worker leaves alone: messages, and every outbox row already there. */
  ghost predicate WorkerFrame(sh: Shared, sh': Shared) {
    && sh'.messages == sh.messages
    && (sh.lostDelivery ==> sh'.lostDelivery)
    && (forall a :: a in sh.outbox ==> a in sh'.outbox && sh'.outbox[a] == sh.outbox[a])
    && (forall a :: a in sh'.outbox && a !in sh.outbox ==>
          sh'.outbox[a] == OutboxRow(sh'.outbox[a].countdown, false, 0, 0, 0))
    && (sh'.row.status.Queued? ==>
          sh'.row == sh.row || (sh'.row.attempt in sh'.outbox && sh'.row.attempt !in sh.outbox))
  }

  /** Whatever a run does, it changes the outbox only by committing what it flushed. */
  ghost predicate WorkerShape(sh: Shared, r: Run, sh': Shared) {
    && sh'.messages == sh.messages
    && (sh.lostDelivery ==> sh'.lostDelivery)
    && (sh'.outbox == sh.outbox
        || (sh'.outbox == Commit(sh, r.pending).outbox && r.pc != Finish(true) && !r.pc.Cleanup?))
    && (sh'.row == sh.row || !sh'.row.status.Queued? || (r.pc.RequeueCas? && sh'.row.attempt == sh.row.attempt
          && sh'.outbox == Commit(sh, r.pending).outbox))
  }

  lemma StageMoveShape(sh: Shared, rid: RunId, r: Run, c: Choice)
    requires r.pc.Advance? || r.pc.Succeed?
    ensures WorkerShape(sh, r, StageStep(sh, rid, r, c).0)
  {
  }

  lemma StageShape(sh: Shared, rid: RunId, r: Run, c: Choice)
    requires InTimeoutBlock(r.pc)
    ensures WorkerShape(sh, r, StageStep(sh, rid, r, c).0)
  {
    if r.pc.Advance? || r.pc.Succeed? { StageMoveShape(sh, rid, r, c); }
  }

  lemma MoveShape(sh: Shared, rid: RunId, r: Run, row: Scan, exit: Exit, next: PC)
    requires InHandler(r.pc) && row.attempt == sh.row.attempt
    requires row.status.Queued? ==> r.pc.RequeueCas?
    ensures WorkerShape(sh, r, Move(sh, rid, r, row, exit, next).0)
  {
  }

  lemma HandlerMoveShape(sh: Shared, rid: RunId, r: Run, plan: Plan, stamp: Time)
    requires InHandler(r.pc) && (plan.target.Queued? ==> r.pc.RequeueCas?)
    ensures WorkerShape(sh, r, HandlerMove(sh, rid, r, plan, stamp).0)
  {
    match TryTransition(sh.row, r.mem, plan.target, stamp)
    case Moved(row) => MoveShape(sh, rid, r, row, plan.exit, plan.next);
    case _ =>
  }

  lemma HandlerShape(cfg: Config, sh: Shared, rid: RunId, r: Run, c: Choice)
    requires InHandler(r.pc)
    ensures WorkerShape(sh, r, HandlerStep(cfg, sh, rid, r, c).0)
  {
    if HandlerCas(r.pc) { HandlerMoveShape(sh, rid, r, PlanOf(r.pc), c.stamp); }
  }

  lemma StepShape(cfg: Config, sh: Shared, rid: RunId, r: Run, c: Choice)
    requires RunEnabled(cfg, sh, r, c)
    ensures WorkerShape(sh, r, RunStep(cfg, sh, rid, r, c).0)
  {
    if c.act.Expire? {
    } else if InTimeoutBlock(r.pc) {
      StageShape(sh, rid, r, c);
    } else if InHandler(r.pc) {
      HandlerShape(cfg, sh, rid, r, c);
    }
  }

  lemma WorkersFrame(cfg: Config, sh: Shared, rid: RunId, r: Run, c: Choice)
    requires RunOk(cfg, sh, rid, r) && RunEnabled(cfg, sh, r, c)
    ensures WorkerFrame(sh, RunStep(cfg, sh, rid, r, c).0)
  {
    StepShape(cfg, sh, rid, r, c);
  }

  /** A run that is going to wake its scan either does, or can still do so, or its message is lost. */
  ghost predicate StillWakes(sh: Shared, r: Run, sh': Shared, r': Run) {
    sh.row.status.Queued? && Waker(sh, r) && sh'.row.status.Queued? ==> Waker(sh', r') || sh'.lostDelivery
  }

  lemma WakerStays(cfg: Config, sh: Shared, rid: RunId, r: Run, c: Choice)
    requires SharedOk(cfg, sh) && RunOk(cfg, sh, rid, r) && RunEnabled(cfg, sh, r, c)
    ensures var (sh', r') := RunStep(cfg, sh, rid, r, c); StillWakes(sh, r, sh', r')
  {
  }

  ghost function Moved1(s: Slice, rid: RunId, sh': Shared, r': Run): Slice {
    s.(sh := sh', runs := s.runs[rid := r'])
  }

  lemma RunsAfter(cfg: Config, s: Slice, rid: RunId, sh': Shared, r': Run)
    requires SharedOk(cfg, s.sh) && RunsOk(cfg, s)
    requires Guarantee(cfg, s.sh, sh', Some(rid)) && RunOk(cfg, sh', rid, r')
    ensures RunsOk(cfg, Moved1(s, rid, sh', r'))
  {
    var s' := Moved1(s, rid, sh', r');
    forall x | x in s'.runs ensures RunOk(cfg, sh', x, s'.runs[x]) {
      if x != rid {
        OthersKeepRun(cfg, s.sh, sh', Some(rid), x, s.runs[x]);
      }
    }
  }

  lemma RestAfter(cfg: Config, s: Slice, rid: RunId, sh': Shared, r': Run)
    requires CancelsOk(s) && LocksOk(s) && SendsOk(s)
    requires Guarantee(cfg, s.sh, sh', Some(rid)) && WorkerFrame(s.sh, sh')
    ensures var s' := Moved1(s, rid, sh', r'); CancelsOk(s') && LocksOk(s') && SendsOk(s')
  {
    var s' := Moved1(s, rid, sh', r');
    forall a | a in sh'.outbox ensures RowSendsOk(s', a) {
      assert SentFor(s', a) == SentFor(s, a);
      if a in s.sh.outbox { assert RowSendsOk(s, a); }
    }
  }

  lemma AwakeAfter(cfg: Config, s: Slice, rid: RunId, sh': Shared, r': Run)
    requires rid in s.runs && LocksOk(s) && Awake(s) && WorkerFrame(s.sh, sh')
    requires StillWakes(s.sh, s.runs[rid], sh', r')
    ensures Awake(Moved1(s, rid, sh', r'))
  {
    var s' := Moved1(s, rid, sh', r');
    assert forall a :: SentFor(s', a) == SentFor(s, a);
    if sh'.row.status.Queued? && !sh'.lostDelivery {
      if sh'.row != s.sh.row || RowPending(s) {
        assert RowPending(s');
      } else if s.sh.messages == 0 {
        var w :| w in s.runs && Waker(s.sh, s.runs[w]);
        assert w in s'.runs && Waker(sh', s'.runs[w]);
      }
    }
  }

  lemma SliceAfter(cfg: Config, s: Slice, rid: RunId, sh': Shared, r': Run)
    requires SliceOk(cfg, s) && rid in s.runs
    requires SharedOk(cfg, sh') && RunOk(cfg, sh', rid, r')
    requires Guarantee(cfg, s.sh, sh', Some(rid)) && WorkerFrame(s.sh, sh')
    requires StillWakes(s.sh, s.runs[rid], sh', r')
    ensures SliceOk(cfg, Moved1(s, rid, sh', r'))
  {
    RunsAfter(cfg, s, rid, sh', r');
    RestAfter(cfg, s, rid, sh', r');
    AwakeAfter(cfg, s, rid, sh', r');
  }

  lemma WorkerStepOk(cfg: Config, s: Slice, rid: RunId, c: Choice)
    requires SliceOk(cfg, s) && Enabled(cfg, s, ActRun(rid, c))
    ensures SliceOk(cfg, Step(cfg, s, ActRun(rid, c)))
    ensures Guarantee(cfg, s.sh, Step(cfg, s, ActRun(rid, c)).sh, Some(rid))
  {
    var r := s.runs[rid];
    assert RunOk(cfg, s.sh, rid, r);
    RunStepKeeps(cfg, s.sh, rid, r, c);
    WorkersFrame(cfg, s.sh, rid, r, c);
    WakerStays(cfg, s.sh, rid, r, c);
    var (sh', r') := RunStep(cfg, s.sh, rid, r, c);
    SliceAfter(cfg, s, rid, sh', r');
  }

  // ----------------------------------------------------- everybody else's steps

  /** A step nobody's run takes leaves every run able to rely on what it relied on. */
  lemma RunsUndisturbed(cfg: Config, s: Slice, s': Slice)
    requires SharedOk(cfg, s.sh) && RunsOk(cfg, s)
    requires Guarantee(cfg, s.sh, s'.sh, None) && s'.runs == s.runs
    ensures RunsOk(cfg, s')
  {
    forall x | x in s'.runs ensures RunOk(cfg, s'.sh, x, s'.runs[x]) {
      OthersKeepRun(cfg, s.sh, s'.sh, None, x, s.runs[x]);
    }
  }

  lemma TickOk(cfg: Config, s: Slice, seconds: nat)
    requires SliceOk(cfg, s)
    ensures var s' := EnvStep(cfg, s, Tick(seconds)); SliceOk(cfg, s') && Guarantee(cfg, s.sh, s'.sh, None)
  {
    var s' := EnvStep(cfg, s, Tick(seconds));
    RunsUndisturbed(cfg, s, s');
    SameDispatch(s, s');
  }

  /** Nothing about dispatch changed: the locks, the sends and the wake-up carry over. */
  lemma SameDispatch(s: Slice, s': Slice)
    requires LocksOk(s) && SendsOk(s) && Awake(s)
    requires s'.sh.outbox == s.sh.outbox && s'.dispatchers == s.dispatchers && s'.runs == s.runs
    requires s'.sh.row == s.sh.row || !s'.sh.row.status.Queued?
    requires s'.sh.messages == s.sh.messages || s'.sh.messages > 0 || !s'.sh.row.status.Queued?
    requires s.sh.lostDelivery ==> s'.sh.lostDelivery
    ensures LocksOk(s') && SendsOk(s') && Awake(s')
  {
    forall a ensures SentFor(s', a) == SentFor(s, a) {}
    forall a | a in s'.sh.outbox ensures RowSendsOk(s', a) {
      assert RowSendsOk(s, a);
    }
    if s'.sh.row.status.Queued? && !s'.sh.lostDelivery && s'.sh.messages == 0 && !RowPending(s) {
      var w :| w in s.runs && Waker(s.sh, s.runs[w]);
      assert w in s'.runs && Waker(s'.sh, s'.runs[w]);
    }
  }

  lemma NewRunOk(cfg: Config, s: Slice, rid: RunId, knows: bool)
    requires SharedOk(cfg, s.sh) && s.sh.messages > 0
    ensures RunOk(cfg, s.sh.(messages := s.sh.messages - 1), rid, NewRun(s.sh.now, knows))
  {
  }

  lemma DeliverOk(cfg: Config, s: Slice, rid: RunId, knows: bool)
    requires SliceOk(cfg, s) && Enabled(cfg, s, Deliver(rid, knows))
    ensures var s' := EnvStep(cfg, s, Deliver(rid, knows)); SliceOk(cfg, s') && Guarantee(cfg, s.sh, s'.sh, None)
  {
    var s' := EnvStep(cfg, s, Deliver(rid, knows));
    NewRunOk(cfg, s, rid, knows);
    MessagesShared(cfg, s.sh, s.sh.messages - 1);
    RunReplaced(cfg, s, s'.sh, rid, s'.runs[rid]);
    forall a ensures SentFor(s', a) == SentFor(s, a) {}
    forall a | a in s'.sh.outbox ensures RowSendsOk(s', a) {
      assert RowSendsOk(s, a);
    }
    assert rid in s'.runs && Waker(s'.sh, s'.runs[rid]);
  }

  lemma MessagesShared(cfg: Config, sh: Shared, messages: nat)
    requires SharedOk(cfg, sh)
    ensures var sh' := sh.(messages := messages); SharedOk(cfg, sh') && Guarantee(cfg, sh, sh', None)
  {
  }

  lemma DuplicateOk(cfg: Config, s: Slice)
    requires SliceOk(cfg, s) && Enabled(cfg, s, Duplicate)
    ensures var s' := EnvStep(cfg, s, Duplicate); SliceOk(cfg, s') && Guarantee(cfg, s.sh, s'.sh, None)
  {
    var s' := EnvStep(cfg, s, Duplicate);
    MessagesShared(cfg, s.sh, s.sh.messages + 1);
    RunsUndisturbed(cfg, s, s');
    SameDispatch(s, s');
  }

  lemma RevokeOk(cfg: Config, s: Slice)
    requires SliceOk(cfg, s) && Enabled(cfg, s, Revoke)
    ensures var s' := EnvStep(cfg, s, Revoke); SliceOk(cfg, s') && Guarantee(cfg, s.sh, s'.sh, None)
  {
    var s' := EnvStep(cfg, s, Revoke);
    MessagesShared(cfg, s.sh, s.sh.messages - 1);
    RunsUndisturbed(cfg, s, s');
    SameDispatch(s, s');
  }

  /** A delivery or a death changes one run, and nothing any other run relies on. */
  lemma RunReplaced(cfg: Config, s: Slice, sh': Shared, rid: RunId, r': Run)
    requires SharedOk(cfg, s.sh) && RunsOk(cfg, s)
    requires Guarantee(cfg, s.sh, sh', None) && RunOk(cfg, sh', rid, r')
    ensures RunsOk(cfg, Moved1(s, rid, sh', r'))
  {
    RunsUndisturbed(cfg, s, s.(sh := sh'));
    assert RunsOk(cfg, s.(sh := sh'));
  }

  lemma DeadRunOk(cfg: Config, sh: Shared, rid: RunId, r: Run, lost: bool)
    requires RunOk(cfg, sh, rid, r)
    ensures RunOk(cfg, sh.(lostDelivery := lost), rid, r.(pc := Dead, pending := None))
  {
  }

  /** A run dies: the scan may sleep forever only if it had not yet got to its claim. */
  lemma KilledAwake(s: Slice, rid: RunId, r': Run, lost: bool)
    requires LocksOk(s) && SendsOk(s) && Awake(s) && rid in s.runs
    requires s.sh.lostDelivery || BeforeClaim(s.runs[rid].pc) ==> lost
    ensures var s' := s.(sh := s.sh.(lostDelivery := lost), runs := s.runs[rid := r']);
      LocksOk(s') && SendsOk(s') && Awake(s')
  {
    var s' := s.(sh := s.sh.(lostDelivery := lost), runs := s.runs[rid := r']);
    forall a ensures SentFor(s', a) == SentFor(s, a) {}
    forall a | a in s'.sh.outbox ensures RowSendsOk(s', a) {
      assert RowSendsOk(s, a);
    }
    if s'.sh.row.status.Queued? && !lost && s'.sh.messages == 0 && !RowPending(s) {
      var w :| w in s.runs && Waker(s.sh, s.runs[w]);
      assert w != rid;
      assert w in s'.runs && Waker(s'.sh, s'.runs[w]);
    }
  }

  lemma LossIsHarmless(cfg: Config, sh: Shared, lost: bool)
    requires SharedOk(cfg, sh)
    ensures var sh' := sh.(lostDelivery := lost); SharedOk(cfg, sh') && Guarantee(cfg, sh, sh', None)
  {
  }

  lemma KilledOk(cfg: Config, s: Slice, rid: RunId, r: Run, lost: bool)
    requires SliceOk(cfg, s) && rid in s.runs && r == s.runs[rid]
    requires s.sh.lostDelivery || BeforeClaim(r.pc) ==> lost
    ensures SliceOk(cfg, Moved1(s, rid, s.sh.(lostDelivery := lost), r.(pc := Dead, pending := None)))
  {
    var sh', r' := s.sh.(lostDelivery := lost), r.(pc := Dead, pending := None);
    LossIsHarmless(cfg, s.sh, lost);
    assert RunOk(cfg, s.sh, rid, r);
    DeadRunOk(cfg, s.sh, rid, r, lost);
    RunReplaced(cfg, s, sh', rid, r');
    KilledAwake(s, rid, r', lost);
  }

  lemma KillRunOk(cfg: Config, s: Slice, rid: RunId)
    requires SliceOk(cfg, s) && Enabled(cfg, s, KillRun(rid))
    ensures var s' := EnvStep(cfg, s, KillRun(rid)); SliceOk(cfg, s') && Guarantee(cfg, s.sh, s'.sh, None)
  {
    var lost := s.sh.lostDelivery || BeforeClaim(s.runs[rid].pc);
    LossIsHarmless(cfg, s.sh, lost);
    KilledOk(cfg, s, rid, s.runs[rid], lost);
  }

  lemma CancelledRow(cfg: Config, sh: Shared, q: CancelRequest, stamp: Time)
    requires SharedOk(cfg, sh) && CancelOk(sh, q) && q.seen <= stamp <= sh.now
    requires TryTransition(sh.row, q.mem, Cancelled, stamp).Moved?
    ensures var row := TryTransition(sh.row, q.mem, Cancelled, stamp).row;
      && CancelledFrom(row, sh.row) && !Terminal(sh.row.status)
      && RowOk(row) && TimesOk(row, sh.now)
      && 1 + Remaining(row) <= Remaining(sh.row)
  {
  }

  /** The row-level part of a cancel: it hits exactly a scan that is not over. */
  lemma CancelShared(cfg: Config, sh: Shared, row: Scan)
    requires SharedOk(cfg, sh)
    requires CancelledFrom(row, sh.row) && !Terminal(sh.row.status)
    requires RowOk(row) && TimesOk(row, sh.now) && 1 + Remaining(row) <= Remaining(sh.row)
    ensures var sh' := sh.(row := row, changes := sh.changes + 1);
      SharedOk(cfg, sh') && Guarantee(cfg, sh, sh', None)
  {
    var sh' := sh.(row := row, changes := sh.changes + 1);
    forall e | e in sh.log ensures Truthful(e, Cancelled) {
      assert Truthful(e, sh.row.status);
    }
    assert LogOk(sh') && OutboxOk(sh') && ClaimsOk(sh');
  }

  /** What one step of a cancel request does to what others see. */
  ghost predicate CancelFrame(cfg: Config, sh: Shared, sh': Shared) {
    && SharedOk(cfg, sh') && Guarantee(cfg, sh, sh', None)
    && sh' == sh.(row := sh'.row, changes := sh'.changes, log := sh'.log)
    && (sh'.row == sh.row || !sh'.row.status.Queued?)
  }

  lemma CancelSaid(cfg: Config, sh: Shared)
    requires SharedOk(cfg, sh) && sh.row.status.Cancelled?
    ensures CancelFrame(cfg, sh, sh.(log := sh.log + [ScanCancelled]))
  {
    OutcomesAppend(sh.log, ScanCancelled);
    var sh' := sh.(log := sh.log + [ScanCancelled]);
    assert LogOk(sh');
  }

  lemma CancelStays(sh: Shared, q: CancelRequest, stamp: Time)
    requires CancelOk(sh, q) && q.seen <= stamp <= sh.now
    ensures var (sh', q') := CancelStep(sh, q, stamp); CancelOk(sh', q')
  {
  }

  lemma CancelLands(cfg: Config, sh: Shared, q: CancelRequest, stamp: Time)
    requires SharedOk(cfg, sh) && CancelOk(sh, q) && q.seen <= stamp <= sh.now
    requires q.pc.Fetched? && TryTransition(sh.row, q.mem, Cancelled, stamp).Moved?
    ensures var row := TryTransition(sh.row, q.mem, Cancelled, stamp).row;
      CancelFrame(cfg, sh, sh.(row := row, changes := sh.changes + 1))
  {
    CancelledRow(cfg, sh, q, stamp);
    CancelShared(cfg, sh, TryTransition(sh.row, q.mem, Cancelled, stamp).row);
  }

  lemma CancelIdles(cfg: Config, sh: Shared)
    requires SharedOk(cfg, sh)
    ensures CancelFrame(cfg, sh, sh)
  {
    Stutter(cfg, sh, None);
  }

  lemma CancelFrames(cfg: Config, sh: Shared, q: CancelRequest, stamp: Time)
    requires SharedOk(cfg, sh) && CancelOk(sh, q) && q.seen <= stamp <= sh.now
    ensures CancelFrame(cfg, sh, CancelStep(sh, q, stamp).0)
  {
    if q.pc.PublishIt? {
      CancelSaid(cfg, sh);
    } else if q.pc.Fetched? && TryTransition(sh.row, q.mem, Cancelled, stamp).Moved? {
      CancelLands(cfg, sh, q, stamp);
    } else {
      CancelIdles(cfg, sh);
      assert CancelStep(sh, q, stamp).0 == sh;
    }
  }

  lemma CancelStepOk(cfg: Config, sh: Shared, q: CancelRequest, stamp: Time)
    requires SharedOk(cfg, sh) && CancelOk(sh, q) && q.seen <= stamp <= sh.now
    ensures var (sh', q') := CancelStep(sh, q, stamp); CancelFrame(cfg, sh, sh') && CancelOk(sh', q')
  {
    CancelFrames(cfg, sh, q, stamp);
    CancelStays(sh, q, stamp);
  }

  lemma CancelsAfter(cfg: Config, s: Slice, cid: CancelId, sh': Shared, q': CancelRequest)
    requires CancelsOk(s) && Guarantee(cfg, s.sh, sh', None) && CancelOk(sh', q')
    ensures CancelsOk(s.(sh := sh', cancels := s.cancels[cid := q']))
  {
    var s' := s.(sh := sh', cancels := s.cancels[cid := q']);
    forall c | c in s'.cancels ensures CancelOk(sh', s'.cancels[c]) {
      if c != cid { assert CancelOk(s.sh, s.cancels[c]); }
    }
  }

  lemma ActCancelOk(cfg: Config, s: Slice, cid: CancelId, stamp: Time)
    requires SliceOk(cfg, s) && Enabled(cfg, s, ActCancel(cid, stamp))
    ensures var s' := EnvStep(cfg, s, ActCancel(cid, stamp)); SliceOk(cfg, s') && Guarantee(cfg, s.sh, s'.sh, None)
  {
    assert CancelOk(s.sh, s.cancels[cid]);
    CancelStepOk(cfg, s.sh, s.cancels[cid], stamp);
    var (sh', q') := CancelStep(s.sh, s.cancels[cid], stamp);
    var s' := s.(sh := sh', cancels := s.cancels[cid := q']);
    CancelsAfter(cfg, s, cid, sh', q');
    RunsUndisturbed(cfg, s, s');
    SameDispatch(s, s');
  }

  lemma ReadForCancelOk(cfg: Config, s: Slice, cid: CancelId)
    requires SliceOk(cfg, s) && Enabled(cfg, s, ReadForCancel(cid))
    ensures var s' := EnvStep(cfg, s, ReadForCancel(cid)); SliceOk(cfg, s') && Guarantee(cfg, s.sh, s'.sh, None)
  {
    var s' := EnvStep(cfg, s, ReadForCancel(cid));
    RunsUndisturbed(cfg, s, s');
    SameDispatch(s, s');
  }

  // ------------------------------------------------------------------ dispatchers

  /** A dispatcher's step changes the history and delivery columns of rows, nothing else. */
  ghost predicate DispatcherFrame(sh: Shared, sh': Shared) {
    && sh' == sh.(messages := sh'.messages, outbox := sh'.outbox)
    && sh'.outbox.Keys == sh.outbox.Keys
    && sh.messages <= sh'.messages
    && (forall a :: a in sh.outbox ==> sh'.outbox[a].countdown == sh.outbox[a].countdown)
  }

  lemma DispatcherShared(cfg: Config, s: Slice, s': Slice)
    requires SliceOk(cfg, s) && DispatcherFrame(s.sh, s'.sh)
    requires s'.runs == s.runs && s'.cancels == s.cancels
    ensures SharedOk(cfg, s'.sh) && Guarantee(cfg, s.sh, s'.sh, None) && RunsOk(cfg, s') && CancelsOk(s')
  {
    forall a: nat ensures a in s'.sh.outbox <==> a in s.sh.outbox {
      assert a in s'.sh.outbox.Keys <==> a in s.sh.outbox.Keys;
    }
    assert OutboxOk(s'.sh) && CountdownsOk(cfg, s'.sh.outbox);
    RunsUndisturbed(cfg, s, s');
  }

  lemma LockOk(cfg: Config, s: Slice, did: DispatcherId, a: nat)
    requires SliceOk(cfg, s) && Enabled(cfg, s, Lock(did, a))
    ensures var s' := EnvStep(cfg, s, Lock(did, a)); SliceOk(cfg, s') && Guarantee(cfg, s.sh, s'.sh, None)
  {
    var s' := EnvStep(cfg, s, Lock(did, a));
    DispatcherShared(cfg, s, s');
    forall b ensures SentFor(s', b) == SentFor(s, b) {
      if SentFor(s, b) {
        var d :| d in s.dispatchers && s.dispatchers[d] == Sent(b);
        assert d in s'.dispatchers && s'.dispatchers[d] == Sent(b);
      }
    }
    SendsKept(s, s');
    AwakeKept(s, s');
  }

  lemma SendsKept(s: Slice, s': Slice)
    requires SendsOk(s) && s'.sh.outbox == s.sh.outbox
    requires forall a :: SentFor(s', a) == SentFor(s, a)
    ensures SendsOk(s')
  {
    forall a | a in s'.sh.outbox ensures RowSendsOk(s', a) {
      assert RowSendsOk(s, a);
    }
  }

  /** The wake-up survives if there is a message, or the pending row is still pending. */
  lemma AwakeKept(s: Slice, s': Slice)
    requires Awake(s)
    requires s'.runs == s.runs && s'.sh.row == s.sh.row && s'.sh.lostDelivery == s.sh.lostDelivery
    requires s'.sh.messages >= s.sh.messages
    requires RowPending(s) ==> RowPending(s') || s'.sh.messages > 0
    ensures Awake(s')
  {
    if WakerRuns(s) {
      var w :| w in s.runs && Waker(s.sh, s.runs[w]);
      assert w in s'.runs && Waker(s'.sh, s'.runs[w]);
    }
  }

  /** A row is about to be recorded by the one dispatcher that holds it, if at all. */
  lemma SentForHolder(s: Slice, d: DispatcherId, a: nat)
    requires LocksOk(s) && d in s.dispatchers
    ensures a == s.dispatchers[d].attempt ==> SentFor(s, a) == s.dispatchers[d].Sent?
  {
    if a == s.dispatchers[d].attempt && SentFor(s, a) {
      var e :| e in s.dispatchers && s.dispatchers[e] == Sent(a);
      assert e == d;
    }
  }

  /** A dispatcher's move concerns nobody's row but its own. */
  lemma SentForOthers(s: Slice, s': Slice, d: DispatcherId, a: nat)
    requires d in s.dispatchers && a != s.dispatchers[d].attempt
    requires s'.dispatchers == s.dispatchers - {d} ||
      (d in s'.dispatchers && s'.dispatchers == s.dispatchers[d := s'.dispatchers[d]]
       && s'.dispatchers[d].attempt == s.dispatchers[d].attempt)
    ensures SentFor(s', a) == SentFor(s, a)
  {
    if SentFor(s, a) {
      var e :| e in s.dispatchers && s.dispatchers[e] == Sent(a);
      assert e in s'.dispatchers && s'.dispatchers[e] == Sent(a);
    }
    if SentFor(s', a) {
      var e :| e in s'.dispatchers && s'.dispatchers[e] == Sent(a);
      assert e in s.dispatchers && s.dispatchers[e] == Sent(a);
    }
  }

  lemma SentSends(cfg: Config, s: Slice, did: DispatcherId, ok: bool)
    requires SliceOk(cfg, s) && Enabled(cfg, s, Send(did, ok))
    ensures SendsOk(EnvStep(cfg, s, Send(did, ok)))
  {
    var s' := EnvStep(cfg, s, Send(did, ok));
    forall a | a in s'.sh.outbox ensures RowSendsOk(s', a) {
      assert RowSendsOk(s, a);
      SentForHolder(s, did, a);
      if a != s.dispatchers[did].attempt {
        SentForOthers(s, s', did, a);
      } else if ok {
        assert s'.dispatchers[did] == Sent(a);
      } else {
        NotSent(s', did, a);
      }
    }
  }

  lemma SentAwake(cfg: Config, s: Slice, did: DispatcherId, ok: bool)
    requires SliceOk(cfg, s) && Enabled(cfg, s, Send(did, ok))
    ensures Awake(EnvStep(cfg, s, Send(did, ok)))
  {
    var s' := EnvStep(cfg, s, Send(did, ok));
    if RowPending(s) && !ok {
      if s.sh.row.attempt != s.dispatchers[did].attempt {
        SentForOthers(s, s', did, s.sh.row.attempt);
      } else {
        NotSent(s', did, s.sh.row.attempt);
      }
    }
    AwakeKept(s, s');
  }

  lemma SendFrame(sh: Shared, a: nat)
    requires a in sh.outbox
    ensures DispatcherFrame(sh, SendMessage(sh, a)) && DispatcherFrame(sh, sh)
  {
  }

  lemma SentShared(cfg: Config, s: Slice, did: DispatcherId, ok: bool)
    requires SliceOk(cfg, s) && Enabled(cfg, s, Send(did, ok))
    ensures var s' := EnvStep(cfg, s, Send(did, ok));
      && SharedOk(cfg, s'.sh) && RunsOk(cfg, s') && CancelsOk(s') && LocksOk(s')
      && Guarantee(cfg, s.sh, s'.sh, None)
  {
    SendFrame(s.sh, s.dispatchers[did].attempt);
    DispatcherShared(cfg, s, EnvStep(cfg, s, Send(did, ok)));
  }

  lemma SendOk(cfg: Config, s: Slice, did: DispatcherId, ok: bool)
    requires SliceOk(cfg, s) && Enabled(cfg, s, Send(did, ok))
    ensures var s' := EnvStep(cfg, s, Send(did, ok)); SliceOk(cfg, s') && Guarantee(cfg, s.sh, s'.sh, None)
  {
    SentShared(cfg, s, did, ok);
    SentSends(cfg, s, did, ok);
    SentAwake(cfg, s, did, ok);
  }

  lemma NotSent(s: Slice, d: DispatcherId, a: nat)
    requires d in s.dispatchers && s.dispatchers[d] == Refused(a)
    requires forall e :: e in s.dispatchers && e != d ==> s.dispatchers[e].attempt != a
    ensures !SentFor(s, a)
  {
  }

  /** The dispatcher is gone: it has recorded its send, or died and left it in the history. */
  lemma ReleasedSends(s: Slice, s': Slice, did: DispatcherId)
    requires LocksOk(s) && SendsOk(s) && did in s.dispatchers
    requires s'.dispatchers == s.dispatchers - {did} && s'.sh.outbox.Keys == s.sh.outbox.Keys
    requires forall a :: a in s.sh.outbox && a != s.dispatchers[did].attempt ==> s'.sh.outbox[a] == s.sh.outbox[a]
    requires
      var before, after := s.sh.outbox[s.dispatchers[did].attempt], s'.sh.outbox[s.dispatchers[did].attempt];
      && after.sends == before.sends
      && after.deaths + (if after.published then 1 else 0)
        == before.deaths + (if before.published then 1 else 0) + (if s.dispatchers[did].Sent? then 1 else 0)
    ensures SendsOk(s')
    ensures forall a :: a != s.dispatchers[did].attempt ==> SentFor(s', a) == SentFor(s, a)
    ensures !SentFor(s', s.dispatchers[did].attempt)
  {
    var mine := s.dispatchers[did].attempt;
    forall a | a != mine ensures SentFor(s', a) == SentFor(s, a) {
      SentForOthers(s, s', did, a);
    }
    forall a | a in s'.sh.outbox ensures RowSendsOk(s', a) {
      assert a in s.sh.outbox.Keys;
      assert RowSendsOk(s, a);
      SentForHolder(s, did, a);
    }
  }

  lemma RecordOk(cfg: Config, s: Slice, did: DispatcherId)
    requires SliceOk(cfg, s) && Enabled(cfg, s, Record(did))
    ensures var s' := EnvStep(cfg, s, Record(did)); SliceOk(cfg, s') && Guarantee(cfg, s.sh, s'.sh, None)
  {
    var s' := EnvStep(cfg, s, Record(did));
    DispatcherShared(cfg, s, s');
    ReleasedSends(s, s', did);
    RecordedAwake(s, s', did);
  }

  /** A published row has had its message sent, so the scan has another way to wake. */
  lemma RecordedAwake(s: Slice, s': Slice, did: DispatcherId)
    requires LocksOk(s) && Awake(s) && did in s.dispatchers
    requires !SentFor(s', s.dispatchers[did].attempt)
    requires forall a :: a != s.dispatchers[did].attempt ==> SentFor(s', a) == SentFor(s, a)
    requires forall a :: a in s.sh.outbox ==> a in s'.sh.outbox
    requires forall a :: a in s.sh.outbox && (a != s.dispatchers[did].attempt || !s.dispatchers[did].Sent?) ==>
      s'.sh.outbox[a].published == s.sh.outbox[a].published
    requires s'.runs == s.runs && s'.sh.row == s.sh.row && s'.sh.lostDelivery == s.sh.lostDelivery
    requires s'.sh.messages == s.sh.messages
    ensures Awake(s')
  {
    if RowPending(s) {
      SentForHolder(s, did, s.sh.row.attempt);
      assert RowPending(s');
    }
    AwakeKept(s, s');
  }

  lemma ForgottenSends(cfg: Config, s: Slice, did: DispatcherId)
    requires SliceOk(cfg, s) && Enabled(cfg, s, KillDispatcher(did))
    ensures var s' := EnvStep(cfg, s, KillDispatcher(did)); SendsOk(s') && Awake(s')
  {
    var s' := EnvStep(cfg, s, KillDispatcher(did));
    ReleasedSends(s, s', did);
    RecordedAwake(s, s', did);
  }

  lemma ForgetFrame(sh: Shared, d: Dispatcher)
    requires d.attempt in sh.outbox
    ensures DispatcherFrame(sh, ForgetDispatcher(sh, d))
  {
  }

  lemma ReleasedLocks(s: Slice, s': Slice, did: DispatcherId)
    requires LocksOk(s) && s'.dispatchers == s.dispatchers - {did}
    requires forall a :: a in s.sh.outbox ==> a in s'.sh.outbox && s'.sh.outbox[a].published == s.sh.outbox[a].published
    ensures LocksOk(s')
  {
  }

  lemma ForgottenShared(cfg: Config, s: Slice, did: DispatcherId)
    requires SliceOk(cfg, s) && Enabled(cfg, s, KillDispatcher(did))
    ensures var s' := EnvStep(cfg, s, KillDispatcher(did));
      && SharedOk(cfg, s'.sh) && RunsOk(cfg, s') && CancelsOk(s') && LocksOk(s')
      && Guarantee(cfg, s.sh, s'.sh, None)
  {
    var s' := EnvStep(cfg, s, KillDispatcher(did));
    ForgetFrame(s.sh, s.dispatchers[did]);
    DispatcherShared(cfg, s, s');
    ReleasedLocks(s, s', did);
  }

  lemma KillDispatcherOk(cfg: Config, s: Slice, did: DispatcherId)
    requires SliceOk(cfg, s) && Enabled(cfg, s, KillDispatcher(did))
    ensures var s' := EnvStep(cfg, s, KillDispatcher(did)); SliceOk(cfg, s') && Guarantee(cfg, s.sh, s'.sh, None)
  {
    ForgottenShared(cfg, s, did);
    ForgottenSends(cfg, s, did);
  }

  // --------------------------------------------------------------- whole histories

  function Actor(l: Label): Option<RunId> {
    if l.ActRun? then Some(l.rid) else None
  }

  lemma StepOk(cfg: Config, s: Slice, l: Label)
    requires SliceOk(cfg, s) && Enabled(cfg, s, l)
    ensures SliceOk(cfg, Step(cfg, s, l))
    ensures Guarantee(cfg, s.sh, Step(cfg, s, l).sh, Actor(l))
  {
    if l.ActRun? { WorkerStepOk(cfg, s, l.rid, l.choice); } else { EnvStepOk(cfg, s, l); }
  }

  lemma EnvStepOk(cfg: Config, s: Slice, l: Label)
    requires SliceOk(cfg, s) && Enabled(cfg, s, l) && !l.ActRun?
    ensures var s' := EnvStep(cfg, s, l); SliceOk(cfg, s') && Guarantee(cfg, s.sh, s'.sh, None)
  {
    match l
    case Tick(d) => TickOk(cfg, s, d);
    case Deliver(rid, knows) => DeliverOk(cfg, s, rid, knows);
    case Duplicate => DuplicateOk(cfg, s);
    case Revoke => RevokeOk(cfg, s);
    case KillRun(rid) => KillRunOk(cfg, s, rid);
    case ReadForCancel(cid) => ReadForCancelOk(cfg, s, cid);
    case ActCancel(cid, stamp) => ActCancelOk(cfg, s, cid, stamp);
    case Lock(did, a) => LockOk(cfg, s, did, a);
    case Send(did, ok) => SendOk(cfg, s, did, ok);
    case Record(did) => RecordOk(cfg, s, did);
    case KillDispatcher(did) => KillDispatcherOk(cfg, s, did);
  }

  lemma CreatedOk(cfg: Config, maxAttempts: nat, now: Time)
    requires 1 <= maxAttempts
    ensures SliceOk(cfg, Created(maxAttempts, now))
  {
    var s := Created(maxAttempts, now);
    assert RowPending(s);
  }

  /** The invariant holds after every history. */
  lemma {:induction false} HistoryOk(cfg: Config, s: Slice, labels: seq<Label>)
    requires SliceOk(cfg, s) && Legal(cfg, s, labels)
    ensures SliceOk(cfg, After(cfg, s, labels))
    decreases |labels|
  {
    if labels != [] {
      StepOk(cfg, s, labels[0]);
      HistoryOk(cfg, Step(cfg, s, labels[0]), labels[1..]);
    }
  }
}
