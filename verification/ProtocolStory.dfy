/**
 What a run has done besides moving the row, step by step: the events it has published,
 its dead letter, the outbox row it has flushed, its clean-up.  `Tally` counts what its
 steps have brought about; `StoryOk` says what that comes to at each program point.
 */
module ProtocolStory {
  import opened ScanModel
  import opened Retry
  import opened Protocol
  import opened ProtocolInvariant
  import opened ProtocolRuns
  import opened ProtocolOutcomes

  /**
   `said`: what the run's own steps have added to the log; `stages`: how many stages it has
   announced; `letter`: its attempt at a dead letter, and whether the send worked;
   `flushed`: it has flushed an outbox row.
   */
  datatype Tally = Tally(said: seq<Event>, stages: nat, letter: Option<bool>, flushed: bool) {
    /** After one more step of the run. */
    function Then(sh: Shared, r: Run, c: Choice, sh': Shared, r': Run): Tally {
      Tally(
        if |sh.log| <= |sh'.log| then said + sh'.log[|sh.log|..] else said,
        if r.pc.Announce? && r'.pc.Plugin? then stages + 1 else stages,
        if r.pc.DeadLetter? then Some(c.ok) else letter,
        flushed || r'.pending.Some?)
    }
  }

  const NOTHING_DONE := Tally([], 0, None, false)

  /** The progress events of an attempt, in order. */
  const STAGES := [ScanProgress(Running), ScanProgress(Collecting), ScanProgress(Processing)]

  // ------------------------------------------------------------------------ the events

  /** The event that announces a terminal status. */
  function EventOf(status: Status): seq<Event> {
    match status
    case Succeeded => [ScanCompleted]
    case Failed => [ScanFailed]
    case TimedOut => [ScanTimedOut]
    case Cancelled => [ScanCancelled]
    case _ => []
  }

  /** The last event of a run that has come to its end. */
  function Closing(r: Run): seq<Event> {
    if r.pc == Cleanup(false) || r.pc == Finish(false) || r.pc == Done(false) then
      match r.exit
      case Finalized => EventOf(r.mem.status)
      case LostToCancel => [ScanCancelled]
      case Requeued => [ScanProgress(Queued)]
      case _ => []
    else if r.pc.DeadLetter? then [ScanFailed]
    else []
  }

  /** The first events of a run that has announced `n` stages. */
  function Opening(r: Run, n: nat): seq<Event>
    requires n <= 3
  {
    if r.own == 0 || r.pc.Claimed? then [] else [ScanStarted] + STAGES[..n]
  }

  /** All a run has said by now. */
  function Script(r: Run, n: nat): seq<Event>
    requires n <= 3
  {
    Opening(r, n) + Closing(r)
  }

  /** On the straight line the number of announced stages is known. */
  function Reached(stage: Stage): nat {
    match stage
    case Prepare => 0
    case Execute => 1
    case Collect => 2
    case Normalize => 3
  }

  predicate StagesOk(r: Run, n: nat) {
    && n <= 3
    && (r.pc.Check? && !r.pc.stage.Prepare? ==> n == Reached(r.pc.stage) - 1)
    && (r.pc.Check? && r.pc.stage.Prepare? ==> n == 0)
    && (r.pc.Advance? || r.pc.Announce? ==> n + 1 == Reached(r.pc.stage))
    && (r.pc.Plugin? ==> n == Reached(r.pc.stage))
    && (r.pc.Persisting? || r.pc.Succeed? || r.pc.PublishCompleted? ==> n == 3)
    && (0 < r.own && r.mem.status.Succeeded? ==> n == 3)
    && (0 < r.own && r.mem.status.Processing? ==> 2 <= n)
    && (Early(r.pc) ==> n == 0)
  }

  /** Before the guarded block, or on the way out past it. */
  predicate Early(pc: PC) {
    || pc.Delivered? || pc.ReadQueued? || pc.Claimed? || pc.Validating?
    || (pc.FailCas? && !pc.origin.Guarded?) || (pc.PublishFailed? && !pc.origin.Guarded?)
    || (pc.DeadLetter? && !pc.origin.Guarded?)
  }

  /** What the run has in memory at the points where it announces, and what an unclaimed run can be at. */
  predicate MemoryOk(r: Run) {
    && (r.pc.PublishCompleted? ==> r.mem.status.Succeeded?)
    && (r.pc.PublishTimedOut? ==> r.mem.status.TimedOut?)
    && (r.pc.PublishFailed? || r.pc.DeadLetter? ==> r.mem.status.Failed?)
    && (r.pc.PublishCancelled? && r.exit.Finalized? ==> r.mem.status.Cancelled?)
    && (r.own == 0 && !r.pc.Dead? ==> Unowned(r))
    && (0 < r.own ==> !r.pc.Delivered? && !r.pc.ReadQueued? && !AtUnregistered(r.pc))
  }

  predicate AtUnregistered(pc: PC) {
    || pc == FailCas(Unregistered) || pc == PublishFailed(Unregistered) || pc == DeadLetter(Unregistered)
  }

  predicate Unowned(r: Run) {
    || r.pc.Delivered? || r.pc.ReadQueued? || r.pc == FailCas(Unregistered)
    || ((r.pc == PublishFailed(Unregistered) || r.pc == DeadLetter(Unregistered)) && r.exit.Finalized?)
    || (PastCleanup(r.pc) && r.exit.Holding?)
    || ((r.pc == Finish(false) || r.pc == Done(false)) && r.exit.Finalized? && r.mem.status.Failed?)
  }

  /** The event a step publishes, by the point it is taken from. */
  function Says(r: Run, c: Choice): seq<Event> {
    if c.act.Expire? then []
    else
      match r.pc
      case Claimed => [ScanStarted]
      case Announce(stage) => [ScanProgress(StatusOf(stage))]
      case PublishCompleted => [ScanCompleted]
      case PublishTimedOut => [ScanTimedOut]
      case PublishCancelled => [ScanCancelled]
      case PublishRequeued => [ScanProgress(Queued)]
      case PublishFailed(_) => [ScanFailed]
      case _ => []
  }

  lemma StageSays(sh: Shared, rid: RunId, r: Run, c: Choice)
    requires InTimeoutBlock(r.pc) && !c.act.Expire?
    ensures StageStep(sh, rid, r, c).0.log == sh.log + Says(r, c)
  {
  }

  lemma HandlerSays(cfg: Config, sh: Shared, rid: RunId, r: Run, c: Choice)
    requires InHandler(r.pc) && !c.act.Expire?
    ensures HandlerStep(cfg, sh, rid, r, c).0.log == sh.log + Says(r, c)
  {
    if HandlerCas(r.pc) { CasSays(sh, rid, r, PlanOf(r.pc), c.stamp); }
  }

  lemma CasSays(sh: Shared, rid: RunId, r: Run, plan: Plan, stamp: Time)
    ensures HandlerMove(sh, rid, r, plan, stamp).0.log == sh.log
  {
  }

  lemma StepSays(cfg: Config, sh: Shared, rid: RunId, r: Run, c: Choice)
    requires RunEnabled(cfg, sh, r, c)
    ensures RunStep(cfg, sh, rid, r, c).0.log == sh.log + Says(r, c)
  {
    if c.act.Expire? {
    } else if InTimeoutBlock(r.pc) {
      StageSays(sh, rid, r, c);
    } else if InHandler(r.pc) {
      HandlerSays(cfg, sh, rid, r, c);
    }
  }

  /** What a step says either belongs to the opening or is the closing. */
  ghost predicate Goes(r: Run, n: nat, said: seq<Event>, r': Run, n': nat)
    requires n <= 3
  {
    && StagesOk(r', n') && MemoryOk(r')
    && ((Opening(r', n') == Opening(r, n) && Closing(r') == Closing(r) + said)
        || (Closing(r) == Closing(r') == [] && Opening(r', n') == Opening(r, n) + said))
  }

  lemma GoesOn(r: Run, n: nat, said: seq<Event>, r': Run, n': nat)
    requires n <= 3 && Goes(r, n, said, r', n')
    ensures Script(r', n') == Script(r, n) + said
  {
    assert Opening(r, n) + (Closing(r) + said) == Opening(r, n) + Closing(r) + said;
    assert Opening(r, n) + [] == Opening(r, n);
    assert Opening(r', n') + [] == Opening(r', n');
  }

  lemma NextStage(stage: Stage)
    requires !stage.Prepare?
    ensures var n := Reached(stage); STAGES[..n] == STAGES[..n - 1] + [ScanProgress(StatusOf(stage))]
  {
  }

  /** What the steps below need to know of a run's point. */
  ghost predicate Knows(sh: Shared, r: Run) {
    && (OwnerPoint(r.pc) && Active(r.mem.status) ==>
          0 < r.own && r.exit.Holding? && StatusAt(r.pc, r.mem.status)
          && (sh.row == r.mem || CancelledFrom(sh.row, r.mem)))
    && (OwnerPoint(r.pc) && !Active(r.mem.status) ==>
          || (r.pc.TimeoutCas? && r.mem.status.Succeeded? && r.exit.Finalized?)
          || (r.pc.SawCancel? && r.mem.status.Cancelled? && r.exit.LostToCancel?))
    && (r.pc.PublishCompleted? || r.pc.PublishTimedOut? || r.pc.PublishFailed? || r.pc.DeadLetter? ==>
          r.exit.Finalized?)
    && (r.pc.PublishCancelled? ==> r.exit.LostToCancel? || r.exit.Finalized?)
    && (r.pc.PublishRequeued? ==> r.exit.Requeued?)
    && (r.pc.Reconcile? ==> r.exit.Holding? && 0 < r.own && sh.row.status.Cancelled?)
    && (r.pc.Delivered? || r.pc.ReadQueued? || r.pc == FailCas(Unregistered) ==> r.own == 0 && r.exit.Holding?)
    && (r.pc.ReadQueued? || r.pc == FailCas(Unregistered) ==> r.mem.status.Queued?)
    && (r.pc == Failure(true) && ShouldRetry(r.mem.attempt, r.mem.maxAttempts) ==> r.mem.attempt !in sh.outbox)
    && (r.pc.DeadLetter? ==> sh.deadLetters == 0)
  }

  lemma RunKnows(cfg: Config, sh: Shared, rid: RunId, r: Run)
    requires RunOk(cfg, sh, rid, r)
    ensures Knows(sh, r)
  {
    if r.pc == Failure(true) { assert Owned(sh, rid, r); }
  }

  ghost predicate Told(sh: Shared, r: Run, n: nat) {
    Knows(sh, r) && StagesOk(r, n) && MemoryOk(r)
  }

  lemma AnnounceGoes(sh: Shared, rid: RunId, r: Run, c: Choice, n: nat)
    requires Told(sh, r, n) && r.pc.Announce? && !c.act.Expire?
    ensures Goes(r, n, Says(r, c), StageStep(sh, rid, r, c).1, n + 1)
  {
    NextStage(r.pc.stage);
  }

  lemma MoveGoes(sh: Shared, rid: RunId, r: Run, c: Choice, n: nat)
    requires Told(sh, r, n) && (r.pc.Advance? || r.pc.Succeed?)
    ensures Goes(r, n, [], StageStep(sh, rid, r, c).1, n)
  {
  }

  lemma PluginGoes(sh: Shared, rid: RunId, r: Run, c: Choice, n: nat)
    requires Told(sh, r, n) && (r.pc.Plugin? || r.pc.Persisting?)
    ensures Goes(r, n, [], StageStep(sh, rid, r, c).1, n)
  {
  }

  lemma CompletedGoes(sh: Shared, rid: RunId, r: Run, c: Choice, n: nat)
    requires Told(sh, r, n) && r.pc.PublishCompleted?
    ensures Goes(r, n, [ScanCompleted], StageStep(sh, rid, r, c).1, n)
  {
  }

  lemma CheckGoes(sh: Shared, rid: RunId, r: Run, c: Choice, n: nat)
    requires Told(sh, r, n) && r.pc.Check?
    ensures Goes(r, n, [], StageStep(sh, rid, r, c).1, n)
  {
  }

  lemma BlockGoes(sh: Shared, rid: RunId, r: Run, c: Choice, n: nat)
    requires Told(sh, r, n) && InTimeoutBlock(r.pc) && !r.pc.Announce? && !c.act.Expire?
    ensures Goes(r, n, Says(r, c), StageStep(sh, rid, r, c).1, n)
  {
    if r.pc.Check? {
      CheckGoes(sh, rid, r, c, n);
    } else if r.pc.Advance? || r.pc.Succeed? {
      MoveGoes(sh, rid, r, c, n);
    } else if r.pc.PublishCompleted? {
      CompletedGoes(sh, rid, r, c, n);
    } else {
      PluginGoes(sh, rid, r, c, n);
    }
  }

  /** The transition of an except clause that has matched: the run has the row it wrote in memory. */
  lemma CasMoves(r: Run, row: Scan, n: nat, sh: Shared)
    requires Told(sh, r, n) && HandlerCas(r.pc) && row.status == PlanOf(r.pc).target
    ensures var r' := r.(mem := row, pending := None, exit := PlanOf(r.pc).exit, pc := PlanOf(r.pc).next);
      Goes(r, n, [], r', n)
  {
  }

  lemma CasFails(r: Run, pc': PC, exit': Exit, n: nat, sh: Shared)
    requires Told(sh, r, n) && HandlerCas(r.pc)
    requires pc' == Reconcile || pc' == Cleanup(true) || pc' == Finish(true)
    requires r.pc == FailCas(Unregistered) ==> pc' == Finish(true) && exit' == r.exit
    ensures var r' := r.(pc := pc', exit := exit'); Goes(r, n, [], r', n)
  {
  }

  lemma CasGoes(sh: Shared, rid: RunId, r: Run, c: Choice, n: nat)
    requires Told(sh, r, n) && HandlerCas(r.pc)
    ensures Goes(r, n, [], HandlerMove(sh, rid, r, PlanOf(r.pc), c.stamp).1, n)
  {
    var r' := HandlerMove(sh, rid, r, PlanOf(r.pc), c.stamp).1;
    match TryTransition(sh.row, r.mem, PlanOf(r.pc).target, c.stamp)
    case Moved(row) => CasMoves(r, row, n, sh);
    case _ => CasFails(r, r'.pc, r'.exit, n, sh);
  }

  predicate SpeaksOut(pc: PC) {
    pc.PublishTimedOut? || pc.PublishCancelled? || pc.PublishRequeued? || pc.PublishFailed?
  }

  lemma PublishGoes(cfg: Config, sh: Shared, rid: RunId, r: Run, c: Choice, n: nat)
    requires Told(sh, r, n) && SpeaksOut(r.pc) && !c.act.Expire?
    ensures Goes(r, n, Says(r, c), HandlerStep(cfg, sh, rid, r, c).1, n)
  {
  }

  lemma LetterGoes(cfg: Config, sh: Shared, rid: RunId, r: Run, c: Choice, n: nat)
    requires Told(sh, r, n) && r.pc.DeadLetter?
    ensures Goes(r, n, [], HandlerStep(cfg, sh, rid, r, c).1, n)
  {
  }

  lemma TurnGoes(cfg: Config, sh: Shared, rid: RunId, r: Run, c: Choice, n: nat)
    requires Told(sh, r, n) && (r.pc.SawCancel? || r.pc.Reconcile?)
    ensures Goes(r, n, [], HandlerStep(cfg, sh, rid, r, c).1, n)
  {
  }

  lemma SilentGoes(cfg: Config, sh: Shared, rid: RunId, r: Run, c: Choice, n: nat)
    requires Told(sh, r, n) && InHandler(r.pc) && !HandlerCas(r.pc) && !SpeaksOut(r.pc)
    ensures Goes(r, n, [], HandlerStep(cfg, sh, rid, r, c).1, n)
  {
    if r.pc.DeadLetter? {
      LetterGoes(cfg, sh, rid, r, c, n);
    } else if !r.pc.Failure? {
      TurnGoes(cfg, sh, rid, r, c, n);
    }
  }

  lemma HandlerGoes(cfg: Config, sh: Shared, rid: RunId, r: Run, c: Choice, n: nat)
    requires Told(sh, r, n) && InHandler(r.pc) && !c.act.Expire?
    ensures Goes(r, n, Says(r, c), HandlerStep(cfg, sh, rid, r, c).1, n)
  {
    if HandlerCas(r.pc) {
      CasGoes(sh, rid, r, c, n);
    } else if SpeaksOut(r.pc) {
      PublishGoes(cfg, sh, rid, r, c, n);
    } else {
      SilentGoes(cfg, sh, rid, r, c, n);
    }
  }

  lemma StartGoes(cfg: Config, sh: Shared, rid: RunId, r: Run, c: Choice, n: nat)
    requires Told(sh, r, n) && r.pc.Claimed?
    ensures Goes(r, n, [ScanStarted], EntryStep(cfg, sh, rid, r, c).1, n)
  {
    assert STAGES[..0] == [];
  }

  lemma ReadGoes(cfg: Config, sh: Shared, rid: RunId, r: Run, c: Choice, n: nat)
    requires Told(sh, r, n) && (r.pc.Delivered? || r.pc.ReadQueued?)
    ensures Goes(r, n, [], EntryStep(cfg, sh, rid, r, c).1, n)
  {
  }

  lemma EntryGoes(cfg: Config, sh: Shared, rid: RunId, r: Run, c: Choice, n: nat)
    requires Told(sh, r, n) && (r.pc.Delivered? || r.pc.ReadQueued? || r.pc.Validating?)
    ensures Goes(r, n, [], EntryStep(cfg, sh, rid, r, c).1, n)
  {
    if !r.pc.Validating? { ReadGoes(cfg, sh, rid, r, c, n); }
  }

  lemma ExitGoes(sh: Shared, r: Run, c: Choice, n: nat)
    requires Told(sh, r, n) && (r.pc.Cleanup? || r.pc.Finish?) && !c.act.Expire?
    ensures Goes(r, n, Says(r, c), ExitStep(sh, r).1, n)
  {
  }

  lemma ExpiryGoes(sh: Shared, r: Run, n: nat)
    requires Told(sh, r, n) && InTimeoutBlock(r.pc)
    ensures Goes(r, n, [], r.(pc := TimeoutCas), n)
  {
  }

  /** Every step of a run either opens, announces the next stage, closes, or says nothing. */
  lemma StepGoes(cfg: Config, sh: Shared, rid: RunId, r: Run, c: Choice, n: nat)
    requires Told(sh, r, n) && RunEnabled(cfg, sh, r, c)
    ensures var (sh', r') := RunAct(cfg, sh, rid, r, c);
      Goes(r, n, Says(r, c), r', if r.pc.Announce? && r'.pc.Plugin? then n + 1 else n)
  {
    if c.act.Expire? {
      ExpiryGoes(sh, r, n);
    } else if r.pc.Announce? {
      AnnounceGoes(sh, rid, r, c, n);
    } else if InTimeoutBlock(r.pc) {
      BlockGoes(sh, rid, r, c, n);
    } else if InHandler(r.pc) {
      HandlerGoes(cfg, sh, rid, r, c, n);
    } else if r.pc.Cleanup? || r.pc.Finish? {
      ExitGoes(sh, r, c, n);
    } else if r.pc.Claimed? {
      StartGoes(cfg, sh, rid, r, c, n);
    } else {
      EntryGoes(cfg, sh, rid, r, c, n);
    }
  }

  // ------------------------------------------------------ dead letter, outbox row, clean-up

  /** The run has failed the scan, said so, and come back from the dead-letter queue. */
  predicate AfterLetter(r: Run) {
    && r.exit.Finalized? && r.mem.status.Failed?
    && (r.pc == Cleanup(false) || r.pc == Finish(false) || r.pc == Done(false))
  }

  /** There is a dead letter if and only if the send worked. */
  ghost predicate LetterOk(sh: Shared, r: Run, t: Tally) {
    && (t.letter.Some? <==> AfterLetter(r))
    && (AfterLetter(r) ==> sh.deadLetters == if t.letter.value then 1 else 0)
  }

  predicate RaisedPath(pc: PC) {
    pc == Cleanup(true) || pc == Finish(true) || pc == Done(true)
  }

  /** Where a run can be that has flushed an outbox row. */
  predicate AfterFlush(pc: PC) {
    pc.RequeueCas? || pc.PublishRequeued? || pc.Reconcile? || pc.PublishCancelled? || pc.Cleanup? || PastCleanup(pc)
  }

  /** What has been flushed is committed sooner or later, unless the run raises. */
  ghost predicate FlushOk(sh: Shared, r: Run, t: Tally) {
    && (r.pending.Some? ==> t.flushed && !r.pc.Done?)
    && (t.flushed ==> AfterFlush(r.pc))
    && (r.own == 0 ==> !t.flushed)
    && (0 < r.own && r.own in sh.outbox ==> t.flushed && !RaisedPath(r.pc))
    && (0 < r.own && t.flushed && !RaisedPath(r.pc) ==> r.pending.Some? || r.own in sh.outbox)
  }

  /** Was there a plugin to clean up after? */
  predicate Tidies(r: Run) {
    r.entered || (0 < r.own && r.exit.Finalized?)
  }

  predicate TidyOk(r: Run) {
    && (InTimeoutBlock(r.pc) || (InHandler(r.pc) && !Early(r.pc)) ==> r.entered && 0 < r.own)
    && (r.pc.Cleanup? ==> Tidies(r))
    && (PastCleanup(r.pc) ==> (r.cleanups == 1 <==> Tidies(r)))
  }

  ghost predicate StoryOk(sh: Shared, r: Run, t: Tally) {
    && StagesOk(r, t.stages) && MemoryOk(r) && t.said == Script(r, t.stages)
    && (r.exit.Finalized? ==> r.mem == sh.row)
    && LetterOk(sh, r, t) && FlushOk(sh, r, t) && TidyOk(r)
  }

  lemma StoryBegins(sh: Shared, knows: bool)
    ensures StoryOk(sh, NewRun(sh.now, knows), NOTHING_DONE)
  {
  }

  /** Nobody else speaks for the run, sends its dead letter or its outbox row, or cleans up for it. */
  lemma OthersKeepStory(cfg: Config, sh: Shared, sh': Shared, actor: Option<RunId>, rid: RunId, r: Run, t: Tally)
    requires SharedOk(cfg, sh) && RunOk(cfg, sh, rid, r) && StoryOk(sh, r, t)
    requires Guarantee(cfg, sh, sh', actor) && actor != Some(rid)
    ensures StoryOk(sh', r, t)
  {
  }

  lemma StageTidy(sh: Shared, rid: RunId, r: Run, c: Choice)
    requires InTimeoutBlock(r.pc) && TidyOk(r) && CleanupOk(r)
    ensures TidyOk(StageStep(sh, rid, r, c).1)
  {
  }

  lemma CasTidy(sh: Shared, rid: RunId, r: Run, c: Choice)
    requires HandlerCas(r.pc) && TidyOk(r) && CleanupOk(r) && Knows(sh, r) && MemoryOk(r)
    ensures TidyOk(HandlerMove(sh, rid, r, PlanOf(r.pc), c.stamp).1)
  {
  }

  lemma HandlerTidy(cfg: Config, sh: Shared, rid: RunId, r: Run, c: Choice)
    requires InHandler(r.pc) && TidyOk(r) && CleanupOk(r) && Knows(sh, r) && MemoryOk(r)
    ensures TidyOk(HandlerStep(cfg, sh, rid, r, c).1)
  {
    if HandlerCas(r.pc) { CasTidy(sh, rid, r, c); }
  }

  lemma StepTidy(cfg: Config, sh: Shared, rid: RunId, r: Run, c: Choice)
    requires RunEnabled(cfg, sh, r, c) && TidyOk(r) && CleanupOk(r) && Knows(sh, r) && MemoryOk(r)
    ensures TidyOk(RunStep(cfg, sh, rid, r, c).1)
  {
    if c.act.Expire? {
    } else if InTimeoutBlock(r.pc) {
      StageTidy(sh, rid, r, c);
    } else if InHandler(r.pc) {
      HandlerTidy(cfg, sh, rid, r, c);
    } else if !r.pc.Cleanup? && !r.pc.Finish? {
      EntryTidy(cfg, sh, rid, r, c);
    }
  }

  lemma EntryTidy(cfg: Config, sh: Shared, rid: RunId, r: Run, c: Choice)
    requires r.pc.Delivered? || r.pc.ReadQueued? || r.pc.Claimed? || r.pc.Validating?
    requires TidyOk(r) && CleanupOk(r) && Knows(sh, r) && MemoryOk(r)
    ensures TidyOk(EntryStep(cfg, sh, rid, r, c).1)
  {
  }

  lemma StageLetters(sh: Shared, rid: RunId, r: Run, c: Choice)
    requires InTimeoutBlock(r.pc) && MemoryOk(r) && Knows(sh, r) && !AfterLetter(r)
    ensures var (sh', r') := StageStep(sh, rid, r, c); sh'.deadLetters == sh.deadLetters && !AfterLetter(r')
  {
  }

  lemma CasLetters(sh: Shared, rid: RunId, r: Run, plan: Plan, stamp: Time)
    requires !plan.next.Cleanup? && !plan.next.Finish? && !plan.next.Done?
    ensures var (sh', r') := HandlerMove(sh, rid, r, plan, stamp);
      sh'.deadLetters == sh.deadLetters && !AfterLetter(r')
  {
  }

  lemma HandlerLetters(cfg: Config, sh: Shared, rid: RunId, r: Run, c: Choice)
    requires InHandler(r.pc) && MemoryOk(r) && Knows(sh, r)
    ensures var (sh', r') := HandlerStep(cfg, sh, rid, r, c);
      && sh'.deadLetters == (if r.pc.DeadLetter? && c.ok then 1 else sh.deadLetters)
      && (AfterLetter(r') <==> r.pc.DeadLetter?)
  {
    if HandlerCas(r.pc) { CasLetters(sh, rid, r, PlanOf(r.pc), c.stamp); }
  }

  lemma ActLetters(cfg: Config, sh: Shared, rid: RunId, r: Run, c: Choice)
    requires RunEnabled(cfg, sh, r, c) && MemoryOk(r) && Knows(sh, r)
    ensures var (sh', r') := RunAct(cfg, sh, rid, r, c);
      && sh'.deadLetters == (if r.pc.DeadLetter? && c.ok then 1 else sh.deadLetters)
      && (AfterLetter(r') <==> r.pc.DeadLetter? || AfterLetter(r))
  {
    if c.act.Expire? {
    } else if InTimeoutBlock(r.pc) {
      StageLetters(sh, rid, r, c);
    } else if InHandler(r.pc) {
      HandlerLetters(cfg, sh, rid, r, c);
    } else if !r.pc.Cleanup? && !r.pc.Finish? {
      EntryLetters(cfg, sh, rid, r, c);
    }
  }

  lemma EntryLetters(cfg: Config, sh: Shared, rid: RunId, r: Run, c: Choice)
    requires r.pc.Delivered? || r.pc.ReadQueued? || r.pc.Claimed? || r.pc.Validating?
    requires MemoryOk(r) && Knows(sh, r)
    ensures var (sh', r') := EntryStep(cfg, sh, rid, r, c);
      sh'.deadLetters == sh.deadLetters && !AfterLetter(r') && !AfterLetter(r)
  {
  }

  lemma StepLetters(cfg: Config, sh: Shared, rid: RunId, r: Run, c: Choice, t: Tally)
    requires RunEnabled(cfg, sh, r, c) && MemoryOk(r) && Knows(sh, r) && LetterOk(sh, r, t)
    ensures var (sh', r') := RunStep(cfg, sh, rid, r, c); LetterOk(sh', r', t.Then(sh, r, c, sh', r'))
  {
    ActLetters(cfg, sh, rid, r, c);
  }

  lemma StageFlushes(cfg: Config, sh: Shared, rid: RunId, r: Run, c: Choice, t: Tally)
    requires RunOk(cfg, sh, rid, r) && InTimeoutBlock(r.pc) && FlushOk(sh, r, t) && r.pending.None? && 0 < r.own
    ensures var (sh', r') := StageStep(sh, rid, r, c);
      FlushOk(sh', r', t) && r'.pending.None?
  {
  }

  lemma MoveFlushes(sh: Shared, rid: RunId, r: Run, c: Choice, row: Scan, t: Tally)
    requires HandlerCas(r.pc) && FlushOk(sh, r, t) && MemoryOk(r) && Knows(sh, r)
    requires r.pending.Some? ==> r.pending.value.attempt == r.own
    requires TryTransition(sh.row, r.mem, PlanOf(r.pc).target, c.stamp) == Moved(row)
    ensures var (sh', r') := Move(sh, rid, r, row, PlanOf(r.pc).exit, PlanOf(r.pc).next);
      FlushOk(sh', r', t) && (r'.pending.Some? ==> t.flushed)
  {
  }

  lemma PendingIsOwn(cfg: Config, sh: Shared, rid: RunId, r: Run)
    requires RunOk(cfg, sh, rid, r) && HandlerCas(r.pc)
    ensures r.pending.Some? ==> r.pending.value.attempt == r.own
    ensures Active(r.mem.status) && 0 < r.own ==> r.own !in sh.outbox
  {
  }

  lemma CasFlushes(cfg: Config, sh: Shared, rid: RunId, r: Run, c: Choice, t: Tally)
    requires RunOk(cfg, sh, rid, r) && HandlerCas(r.pc) && FlushOk(sh, r, t) && MemoryOk(r)
    ensures var (sh', r') := HandlerMove(sh, rid, r, PlanOf(r.pc), c.stamp);
      FlushOk(sh', r', t) && (r'.pending.Some? ==> t.flushed)
  {
    RunKnows(cfg, sh, rid, r);
    PendingIsOwn(cfg, sh, rid, r);
    match TryTransition(sh.row, r.mem, PlanOf(r.pc).target, c.stamp)
    case Moved(row) => MoveFlushes(sh, rid, r, c, row, t);
    case _ => StuckFlushes(sh, rid, r, c, t);
  }

  lemma StuckFlushes(sh: Shared, rid: RunId, r: Run, c: Choice, t: Tally)
    requires HandlerCas(r.pc) && FlushOk(sh, r, t) && MemoryOk(r) && Knows(sh, r)
    requires Active(r.mem.status) && 0 < r.own ==> r.own !in sh.outbox
    requires !TryTransition(sh.row, r.mem, PlanOf(r.pc).target, c.stamp).Moved?
    ensures var (sh', r') := HandlerMove(sh, rid, r, PlanOf(r.pc), c.stamp);
      FlushOk(sh', r', t) && (r'.pending.Some? ==> t.flushed)
  {
  }

  lemma OtherFlushes(cfg: Config, sh: Shared, rid: RunId, r: Run, c: Choice, t: Tally)
    requires RunOk(cfg, sh, rid, r) && InHandler(r.pc) && !HandlerCas(r.pc) && FlushOk(sh, r, t) && MemoryOk(r)
    ensures var (sh', r') := HandlerStep(cfg, sh, rid, r, c);
      FlushOk(sh', r', t.(flushed := t.flushed || r'.pending.Some?))
  {
    RunKnows(cfg, sh, rid, r);
  }

  lemma ExitFlushes(cfg: Config, sh: Shared, rid: RunId, r: Run, t: Tally)
    requires RunOk(cfg, sh, rid, r) && (r.pc.Cleanup? || r.pc.Finish?) && FlushOk(sh, r, t)
    ensures var (sh', r') := ExitStep(sh, r); FlushOk(sh', r', t) && (r'.pending.Some? ==> t.flushed)
  {
  }

  lemma EntryFlushes(cfg: Config, sh: Shared, rid: RunId, r: Run, c: Choice, t: Tally)
    requires SharedOk(cfg, sh) && RunOk(cfg, sh, rid, r) && FlushOk(sh, r, t) && r.pending.None?
    requires r.pc.Delivered? || r.pc.ReadQueued? || r.pc.Claimed? || r.pc.Validating?
    ensures var (sh', r') := EntryStep(cfg, sh, rid, r, c); FlushOk(sh', r', t) && r'.pending.None?
  {
    RunKnows(cfg, sh, rid, r);
  }

  lemma ActFlushes(cfg: Config, sh: Shared, rid: RunId, r: Run, c: Choice, t: Tally)
    requires SharedOk(cfg, sh) && RunOk(cfg, sh, rid, r) && RunEnabled(cfg, sh, r, c)
    requires FlushOk(sh, r, t) && MemoryOk(r) && TidyOk(r)
    ensures var (sh', r') := RunAct(cfg, sh, rid, r, c); FlushOk(sh', r', t.(flushed := t.flushed || r'.pending.Some?))
  {
    if c.act.Expire? {
    } else if InTimeoutBlock(r.pc) {
      StageFlushes(cfg, sh, rid, r, c, t);
    } else if HandlerCas(r.pc) {
      CasFlushes(cfg, sh, rid, r, c, t);
    } else if InHandler(r.pc) {
      OtherFlushes(cfg, sh, rid, r, c, t);
    } else if r.pc.Cleanup? || r.pc.Finish? {
      ExitFlushes(cfg, sh, rid, r, t);
    } else {
      EntryFlushes(cfg, sh, rid, r, c, t);
    }
  }

  lemma StageFinalizes(sh: Shared, rid: RunId, r: Run, c: Choice)
    requires InTimeoutBlock(r.pc) && Knows(sh, r) && (r.exit.Finalized? ==> r.mem == sh.row)
    ensures var (sh', r') := StageStep(sh, rid, r, c); r'.exit.Finalized? ==> r'.mem == sh'.row
  {
  }

  lemma CasFinalizes(sh: Shared, rid: RunId, r: Run, plan: Plan, stamp: Time)
    requires (r.exit.Finalized? ==> r.mem == sh.row) && !plan.stuck.Finalized?
    ensures var (sh', r') := HandlerMove(sh, rid, r, plan, stamp); r'.exit.Finalized? ==> r'.mem == sh'.row
  {
  }

  lemma HandlerFinalizes(cfg: Config, sh: Shared, rid: RunId, r: Run, c: Choice)
    requires InHandler(r.pc) && Knows(sh, r) && (r.exit.Finalized? ==> r.mem == sh.row)
    ensures var (sh', r') := HandlerStep(cfg, sh, rid, r, c); r'.exit.Finalized? ==> r'.mem == sh'.row
  {
    if HandlerCas(r.pc) { CasFinalizes(sh, rid, r, PlanOf(r.pc), c.stamp); }
  }

  lemma EntryFinalizes(cfg: Config, sh: Shared, rid: RunId, r: Run, c: Choice)
    requires r.pc.Delivered? || r.pc.ReadQueued? || r.pc.Claimed? || r.pc.Validating?
    requires Knows(sh, r)
    ensures !EntryStep(cfg, sh, rid, r, c).1.exit.Finalized?
  {
  }

  lemma StepFinalizes(cfg: Config, sh: Shared, rid: RunId, r: Run, c: Choice)
    requires RunEnabled(cfg, sh, r, c) && Knows(sh, r) && (r.exit.Finalized? ==> r.mem == sh.row)
    ensures var (sh', r') := RunStep(cfg, sh, rid, r, c); r'.exit.Finalized? ==> r'.mem == sh'.row
  {
    if c.act.Expire? {
    } else if InTimeoutBlock(r.pc) {
      StageFinalizes(sh, rid, r, c);
    } else if InHandler(r.pc) {
      HandlerFinalizes(cfg, sh, rid, r, c);
    } else if !r.pc.Cleanup? && !r.pc.Finish? {
      EntryFinalizes(cfg, sh, rid, r, c);
    }
  }

  lemma StepTells(cfg: Config, sh: Shared, rid: RunId, r: Run, c: Choice, t: Tally)
    requires Knows(sh, r) && RunEnabled(cfg, sh, r, c)
    requires StagesOk(r, t.stages) && MemoryOk(r) && t.said == Script(r, t.stages)
    ensures var (sh', r') := RunStep(cfg, sh, rid, r, c);
      var t' := t.Then(sh, r, c, sh', r');
      StagesOk(r', t'.stages) && MemoryOk(r') && t'.said == Script(r', t'.stages)
  {
    var (sh', r') := RunAct(cfg, sh, rid, r, c);
    StepSays(cfg, sh, rid, r, c);
    StepGoes(cfg, sh, rid, r, c, t.stages);
    Continues(sh, r, c, sh', r', t);
  }

  lemma Continues(sh: Shared, r: Run, c: Choice, sh': Shared, r': Run, t: Tally)
    requires t.stages <= 3 && t.said == Script(r, t.stages)
    requires sh'.log == sh.log + Says(r, c)
    requires Goes(r, t.stages, Says(r, c), r', if r.pc.Announce? && r'.pc.Plugin? then t.stages + 1 else t.stages)
    ensures var after := r'.(seen := sh'.now);
      var t' := t.Then(sh, r, c, sh', after);
      StagesOk(after, t'.stages) && MemoryOk(after) && t'.said == Script(after, t'.stages)
  {
    GoesOn(r, t.stages, Says(r, c), r', if r.pc.Announce? && r'.pc.Plugin? then t.stages + 1 else t.stages);
    assert sh'.log[|sh.log|..] == Says(r, c);
  }

  /** The story goes on with every step of the run. */
  lemma StoryGoesOn(cfg: Config, sh: Shared, rid: RunId, r: Run, c: Choice, t: Tally)
    requires SharedOk(cfg, sh) && RunOk(cfg, sh, rid, r) && RunEnabled(cfg, sh, r, c) && StoryOk(sh, r, t)
    ensures var (sh', r') := RunStep(cfg, sh, rid, r, c); StoryOk(sh', r', t.Then(sh, r, c, sh', r'))
  {
    RunKnows(cfg, sh, rid, r);
    StepTells(cfg, sh, rid, r, c, t);
    StepLetters(cfg, sh, rid, r, c, t);
    ActFlushes(cfg, sh, rid, r, c, t);
    StepTidy(cfg, sh, rid, r, c);
    StepFinalizes(cfg, sh, rid, r, c);
  }
}
