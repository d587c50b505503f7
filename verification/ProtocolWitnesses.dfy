/**
 Building reachable slices.  Each lemma extends a history by a few steps, for a scan
 with any number of attempts, at any time, under any configuration that registers its
 scanner; `ProtocolStamps` and the exceptions at the end put them together.
 */
module ProtocolWitnesses {
  import opened ScanModel
  import opened Retry
  import opened Protocol
  import opened ProtocolInvariant
  import opened ProtocolRuns
  import opened ProtocolSlices
  import opened ProtocolTheorems
  import opened ProtocolOutcomes
  import opened ScanSystem

  /** For every attempt some countdown can be drawn. */
  ghost predicate Draws(cfg: Config, delays: nat -> real) {
    forall a: nat :: cfg.drawable(a, delays(a))
  }

  /** A row that is not over, as reads find it. */
  function Row(status: Status, attempt: nat, maxAttempts: nat, queuedAt: Time, startedAt: Option<Time>): Scan {
    Scan(status, attempt, maxAttempts, Some(queuedAt), startedAt, None, None, None, None)
  }

  /** Who does not move: all cancel requests, and these runs. */
  datatype Still = Still(cancels: map<CancelId, CancelRequest>, runs: map<RunId, Run>)

  const NOBODY := Still(map[], map[])

  /** One cancel request that has read `row` at `t`. */
  function Reader(row: Scan, t: Time): Still {
    Still(map[0 := CancelRequest(Fetched, row, t)], map[])
  }

  /** Who and what is around, apart from the row: dispatchers none, runs below `n`, these that do not move. */
  ghost predicate Calm(cfg: Config, s: Slice, t: Time, n: RunId, still: Still) {
    && Reachable(cfg, s)
    && s.sh.now == t && s.dispatchers == map[] && s.cancels == still.cancels
    && (forall rid :: rid in s.runs ==> rid < n)
    && (forall rid :: rid in still.runs ==> rid in s.runs && s.runs[rid] == still.runs[rid])
  }

  /** The scan waits to be dispatched. */
  ghost predicate Idle(cfg: Config, s: Slice, t: Time, n: RunId, still: Still, row: Scan) {
    && Calm(cfg, s, t, n, still)
    && s.sh.row == row && row.status.Queued?
    && row.attempt in s.sh.outbox && !s.sh.outbox[row.attempt].published
  }

  /** Run `n` is at `pc` and has the row in memory. */
  ghost predicate At(
      cfg: Config, s: Slice, t: Time, n: RunId, still: Still, pc: PC, row: Scan)
  {
    && Calm(cfg, s, t, n + 1, still) && n !in still.runs
    && s.sh.row == row
    && n in s.runs && s.runs[n].knows && s.runs[n].pc == pc && s.runs[n].seen <= t && s.runs[n].pending.None?
    && (pc.Delivered? || s.runs[n].mem == row)
  }

  lemma Go(cfg: Config, s: Slice, l: Label) returns (s': Slice)
    requires Reachable(cfg, s) && Enabled(cfg, s, l)
    ensures s' == Step(cfg, s, l) && Reachable(cfg, s')
  {
    s' := Step(cfg, s, l);
    ReachableStep(cfg, s, l);
  }

  function Plain(stamp: Time): Choice {
    Choice(Proceed, stamp, 0.0, true)
  }

  /** One step of run `n` that leaves nothing flushed. */
  lemma Acts(
      cfg: Config, s: Slice, t: Time, n: RunId, still: Still, pc: PC, row: Scan,
      c: Choice, pc': PC, row': Scan) returns (s': Slice)
    requires At(cfg, s, t, n, still, pc, row) && RunEnabled(cfg, s.sh, s.runs[n], c)
    requires var (sh', r') := RunAct(cfg, s.sh, n, s.runs[n], c);
      && sh'.now == t && sh'.row == row'
      && r'.knows && r'.pc == pc' && r'.mem == row' && r'.pending.None?
    requires !pc'.Delivered?
    ensures At(cfg, s', t, n, still, pc', row')
  {
    s' := Go(cfg, s, ActRun(n, c));
  }

  // ------------------------------------------------------- clock, cancels and bystanders

  lemma Reads(cfg: Config, s: Slice, t: Time, n: RunId, pc: PC, row: Scan) returns (s': Slice)
    requires At(cfg, s, t, n, NOBODY, pc, row)
    ensures At(cfg, s', t, n, Reader(row, t), pc, row)
  {
    s' := Go(cfg, s, ReadForCancel(0));
  }

  lemma ReadsIdle(cfg: Config, s: Slice, t: Time, n: RunId, row: Scan) returns (s': Slice)
    requires Idle(cfg, s, t, n, NOBODY, row)
    ensures Idle(cfg, s', t, n, Reader(row, t), row)
  {
    s' := Go(cfg, s, ReadForCancel(0));
  }

  lemma Ticks(cfg: Config, s: Slice, t: Time, n: RunId, still: Still, pc: PC, row: Scan)
    returns (s': Slice)
    requires At(cfg, s, t, n, still, pc, row)
    ensures At(cfg, s', t + 1, n, still, pc, row)
  {
    s' := Go(cfg, s, Tick(1));
  }

  lemma TicksIdle(cfg: Config, s: Slice, t: Time, n: RunId, still: Still, row: Scan)
    returns (s': Slice)
    requires Idle(cfg, s, t, n, still, row)
    ensures Idle(cfg, s', t + 1, n, still, row)
  {
    s' := Go(cfg, s, Tick(1));
  }

  // ------------------------------------------------------------- the way of an attempt

  /** Dispatch the row of the waiting attempt. */
  lemma Dispatches(cfg: Config, s: Slice, t: Time, n: RunId, still: Still, row: Scan)
    returns (s': Slice)
    requires Idle(cfg, s, t, n, still, row)
    ensures Calm(cfg, s', t, n, still) && s'.sh.row == row && s'.sh.messages > 0
  {
    s' := Go(cfg, s, Lock(0, row.attempt));
    s' := Go(cfg, s', Send(0, true));
    s' := Go(cfg, s', Record(0));
  }

  lemma Delivers(cfg: Config, s: Slice, t: Time, n: RunId, still: Still, row: Scan)
    returns (s': Slice)
    requires Idle(cfg, s, t, n, still, row)
    ensures At(cfg, s', t, n, still, Delivered, row)
  {
    s' := Dispatches(cfg, s, t, n, still, row);
    s' := Go(cfg, s', Deliver(n, true));
  }

  lemma Claims(cfg: Config, s: Slice, t: Time, n: RunId, still: Still, row: Scan)
    returns (s': Slice)
    requires Idle(cfg, s, t, n, still, row)
    ensures At(cfg, s', t, n, still, Claimed, row.(status := Preparing, attempt := row.attempt + 1))
  {
    s' := Delivers(cfg, s, t, n, still, row);
    s' := Acts(cfg, s', t, n, still, Delivered, row, Plain(t), ReadQueued, row);
    s' := TakesIt(cfg, s', t, n, still, row);
  }

  lemma TakesIt(cfg: Config, s: Slice, t: Time, n: RunId, still: Still, row: Scan) returns (s': Slice)
    requires At(cfg, s, t, n, still, ReadQueued, row) && row.status.Queued?
    ensures At(cfg, s', t, n, still, Claimed, row.(status := Preparing, attempt := row.attempt + 1))
  {
    s' := Acts(cfg, s, t, n, still, ReadQueued, row, Plain(t), Claimed,
               row.(status := Preparing, attempt := row.attempt + 1));
  }

  lemma Validates(cfg: Config, s: Slice, t: Time, n: RunId, still: Still, row: Scan)
    returns (s': Slice)
    requires At(cfg, s, t, n, still, Claimed, row)
    ensures At(cfg, s', t, n, still, Validating(true), row)
  {
    s' := Acts(cfg, s, t, n, still, Claimed, row, Plain(t), Validating(false), row);
    s' := Acts(cfg, s', t, n, still, Validating(false), row, Plain(t), Validating(true), row);
  }

  lemma Prepares(cfg: Config, s: Slice, t: Time, n: RunId, still: Still, row: Scan)
    returns (s': Slice)
    requires At(cfg, s, t, n, still, Validating(true), row) && !row.status.Cancelled?
    ensures At(cfg, s', t, n, still, Plugin(Prepare, true), row)
  {
    s' := Acts(cfg, s, t, n, still, Validating(true), row, Plain(t), Check(Prepare), row);
    s' := Acts(cfg, s', t, n, still, Check(Prepare), row, Plain(t), Plugin(Prepare, false), row);
    s' := Acts(cfg, s', t, n, still, Plugin(Prepare, false), row, Plain(t), Plugin(Prepare, true), row);
  }

  lemma PassesChecks(cfg: Config, s: Slice, t: Time, n: RunId, row: Scan, target: Status)
    requires Reachable(cfg, s) && n in s.runs && OwnerPoint(s.runs[n].pc) && Active(row.status)
    requires s.sh.row == row == s.runs[n].mem && s.runs[n].seen <= t <= s.sh.now
    ensures !TryTransition(row, row, target, t).CheckFailed?
  {
    ReachableOk(cfg, s);
    assert RunOk(cfg, s.sh, n, s.runs[n]);
    OwnersPassChecks(cfg, s.sh, n, s.runs[n], target, t);
  }

  /** The row after the transition that opens a stage. */
  function Opened(row: Scan, stage: Stage, t: Time): Scan {
    row.(status := StatusOf(stage),
         startedAt := if stage.Execute? && row.startedAt.None? then Some(t) else row.startedAt)
  }

  /** From the end of one stage into the next. */
  lemma Enters(
      cfg: Config, s: Slice, t: Time, n: RunId, still: Still, row: Scan, stage: Stage)
    returns (s': Slice)
    requires !stage.Prepare? && row.status == StatusBefore(stage)
    requires At(cfg, s, t, n, still, Check(stage), row)
    ensures At(cfg, s', t, n, still, Plugin(stage, true), Opened(row, stage, t))
  {
    s' := Acts(cfg, s, t, n, still, Check(stage), row, Plain(t), Advance(stage), row);
    s' := Opens(cfg, s', t, n, still, row, stage);
    var row' := Opened(row, stage, t);
    s' := Acts(cfg, s', t, n, still, Announce(stage), row', Plain(t), Plugin(stage, false), row');
    s' := Acts(cfg, s', t, n, still, Plugin(stage, false), row', Plain(t), Plugin(stage, true), row');
  }

  lemma Opens(
      cfg: Config, s: Slice, t: Time, n: RunId, still: Still, row: Scan, stage: Stage)
    returns (s': Slice)
    requires !stage.Prepare? && row.status == StatusBefore(stage)
    requires At(cfg, s, t, n, still, Advance(stage), row)
    ensures At(cfg, s', t, n, still, Announce(stage), Opened(row, stage, t))
  {
    var row' := Opened(row, stage, t);
    PassesChecks(cfg, s, t, n, row, StatusOf(stage));
    assert TryTransition(row, row, StatusOf(stage), t) == Moved(row');
    s' := Acts(cfg, s, t, n, still, Advance(stage), row, Plain(t), Announce(stage), row');
  }

  lemma Starts(cfg: Config, s: Slice, t: Time, n: RunId, still: Still, row: Scan)
    returns (s': Slice)
    requires At(cfg, s, t, n, still, Plugin(Prepare, true), row) && row.status.Preparing?
    ensures At(cfg, s', t, n, still, Plugin(Execute, true), Opened(row, Execute, t))
  {
    s' := Acts(cfg, s, t, n, still, Plugin(Prepare, true), row, Plain(t), Check(Execute), row);
    s' := Enters(cfg, s', t, n, still, row, Execute);
  }

  /** A plugin raises a transient error. */
  lemma FailsTransiently(
      cfg: Config, s: Slice, t: Time, n: RunId, still: Still, row: Scan, stage: Stage)
    returns (s': Slice)
    requires At(cfg, s, t, n, still, Plugin(stage, true), row)
    ensures At(cfg, s', t, n, still, Failure(true), row)
  {
    s' := Acts(cfg, s, t, n, still, Plugin(stage, true), row, Plain(t).(act := Throw(TransientFault)),
               Failure(true), row);
  }

  /** Run `n` has flushed the outbox row of its retry. */
  ghost predicate HasFlushed(
      cfg: Config, s: Slice, t: Time, n: RunId, still: Still, row: Scan)
  {
    && Calm(cfg, s, t, n + 1, still) && n !in still.runs && s.sh.row == row
    && n in s.runs && s.runs[n].pc.RequeueCas? && s.runs[n].seen <= t && s.runs[n].mem == row
    && s.runs[n].pending.Some? && s.runs[n].pending.value.attempt == row.attempt
  }

  lemma FailureIsFree(cfg: Config, s: Slice, n: RunId)
    requires Reachable(cfg, s) && n in s.runs && s.runs[n].pc == Failure(true)
    ensures s.runs[n].mem.attempt !in s.sh.outbox
  {
    ReachableOk(cfg, s);
    assert RunOk(cfg, s.sh, n, s.runs[n]);
    assert Owned(s.sh, n, s.runs[n]);
  }

  lemma Flushes(
      cfg: Config, delays: nat -> real, s: Slice, t: Time, n: RunId, still: Still, row: Scan)
    returns (s': Slice)
    requires Draws(cfg, delays) && At(cfg, s, t, n, still, Failure(true), row) && row.attempt < row.maxAttempts
    ensures HasFlushed(cfg, s', t, n, still, row)
  {
    FailureIsFree(cfg, s, n);
    s' := Go(cfg, s, ActRun(n, Plain(t).(countdown := delays(row.attempt))));
  }

  /** The run gives its attempt back; the scan waits again. */
  lemma Requeues(
      cfg: Config, delays: nat -> real, s: Slice, t: Time, n: RunId, still: Still, row: Scan)
    returns (s': Slice)
    requires Draws(cfg, delays) && At(cfg, s, t, n, still, Failure(true), row) && row.attempt < row.maxAttempts
    requires (row.status.Preparing? || row.status.Running?) && row.queuedAt.Some?
    ensures Idle(cfg, s', t, n + 1, still, row.(status := Queued))
  {
    s' := Flushes(cfg, delays, s, t, n, still, row);
    s' := GivesBack(cfg, s', t, n, still, row);
  }

  lemma GivesBack(cfg: Config, s: Slice, t: Time, n: RunId, still: Still, row: Scan) returns (s': Slice)
    requires HasFlushed(cfg, s, t, n, still, row)
    requires (row.status.Preparing? || row.status.Running?) && row.queuedAt.Some?
    ensures Idle(cfg, s', t, n + 1, still, row.(status := Queued))
  {
    PassesChecks(cfg, s, t, n, row, Queued);
    assert TryTransition(row, row, Queued, t) == Moved(row.(status := Queued));
    s' := Go(cfg, s, ActRun(n, Plain(t)));
  }

  /** One attempt that fails while it prepares: it never starts. */
  lemma AttemptsInVain(
      cfg: Config, delays: nat -> real, s: Slice, t: Time, n: RunId, still: Still, row: Scan)
    returns (s': Slice)
    requires Draws(cfg, delays) && Idle(cfg, s, t, n, still, row)
    requires row.attempt + 1 < row.maxAttempts && row.queuedAt.Some?
    ensures Idle(cfg, s', t, n + 1, still, row.(attempt := row.attempt + 1))
  {
    var preparing := row.(status := Preparing, attempt := row.attempt + 1);
    s' := Claims(cfg, s, t, n, still, row);
    s' := Validates(cfg, s', t, n, still, preparing);
    s' := Prepares(cfg, s', t, n, still, preparing);
    s' := FailsTransiently(cfg, s', t, n, still, preparing, Prepare);
    s' := Requeues(cfg, delays, s', t, n, still, preparing);
  }

  /** A claimed attempt that starts the scan and then fails. */
  lemma StartsInVain(
      cfg: Config, delays: nat -> real, s: Slice, t: Time, n: RunId, still: Still, row: Scan)
    returns (s': Slice)
    requires Draws(cfg, delays) && At(cfg, s, t, n, still, Claimed, row)
    requires row.status.Preparing? && row.attempt < row.maxAttempts && row.queuedAt.Some? && row.startedAt.None?
    ensures Idle(cfg, s', t, n + 1, still, row.(status := Queued, startedAt := Some(t)))
  {
    s' := Validates(cfg, s, t, n, still, row);
    s' := Prepares(cfg, s', t, n, still, row);
    s' := Starts(cfg, s', t, n, still, row);
    s' := FailsTransiently(cfg, s', t, n, still, Opened(row, Execute, t), Execute);
    s' := Requeues(cfg, delays, s', t, n, still, Opened(row, Execute, t));
  }

  /** A worker that does not know the scanner has read the scan; the scan still waits. */
  lemma ReadsUnknowing(cfg: Config, s: Slice, t: Time, n: RunId, row: Scan) returns (s': Slice)
    requires Idle(cfg, s, t, n, NOBODY, row)
    ensures n in s'.runs && s'.runs[n].pc == FailCas(Unregistered) && s'.runs[n].mem == row && s'.runs[n].seen == t
    ensures Idle(cfg, s', t, n + 1, Still(map[], map[n := s'.runs[n]]), row)
  {
    s' := SendsAndForgets(cfg, s, t, n, row);
    s' := Go(cfg, s', Deliver(n, false));
    s' := Go(cfg, s', ActRun(n, Plain(t)));
  }

  /** A dispatcher dies between its send and its commit: the message is there, and the row can be sent again. */
  lemma SendsAndForgets(cfg: Config, s: Slice, t: Time, n: RunId, row: Scan) returns (s': Slice)
    requires Idle(cfg, s, t, n, NOBODY, row)
    ensures Idle(cfg, s', t, n, NOBODY, row) && s'.sh.messages > 0
  {
    s' := Go(cfg, s, Lock(0, row.attempt));
    s' := Go(cfg, s', Send(0, true));
    s' := Go(cfg, s', KillDispatcher(0));
  }

  /** A scan waiting for any of its attempts, never started so far. */
  lemma {:induction false} Climbs(cfg: Config, delays: nat -> real, q: Time, m: nat, a: nat)
    returns (s: Slice, n: RunId)
    requires Draws(cfg, delays) && a < m
    ensures Idle(cfg, s, q, n, NOBODY, Row(Queued, a, m, q, None))
    decreases a
  {
    if a == 0 {
      s, n := Created(m, q), 0;
      CreatedReachable(cfg, m, q);
    } else {
      s, n := Climbs(cfg, delays, q, m, a - 1);
      s := AttemptsInVain(cfg, delays, s, q, n, NOBODY, Row(Queued, a - 1, m, q, None));
      n := n + 1;
    }
  }

  // ------------------------------------------------- the exceptions, each of them reachable

  /** Run `n` is on its way out at `pc`, with exit `e`, and the row is `row`. */
  ghost predicate Leaves(cfg: Config, s: Slice, n: RunId, pc: PC, e: Exit, row: Scan) {
    && Reachable(cfg, s) && s.sh.row == row
    && n in s.runs && s.runs[n].pc == pc && s.runs[n].exit == e && s.runs[n].seen <= s.sh.now
  }

  /** Nothing is left but to clean up, to roll back and to report the error. */
  lemma Escapes(cfg: Config, s: Slice, n: RunId, e: Exit, row: Scan) returns (s': Slice)
    requires Leaves(cfg, s, n, Cleanup(true), e, row)
    ensures Leaves(cfg, s', n, Done(true), e, row)
  {
    s' := Go(cfg, s, ActRun(n, Plain(s.sh.now)));
    s' := Reports(cfg, s', n, e, row);
  }

  lemma Reports(cfg: Config, s: Slice, n: RunId, e: Exit, row: Scan) returns (s': Slice)
    requires Leaves(cfg, s, n, Finish(true), e, row)
    ensures Leaves(cfg, s', n, Done(true), e, row)
  {
    s' := Go(cfg, s, ActRun(n, Plain(s.sh.now)));
  }

  /** Attempt `a + 1` of a scan, at the beginning of its first plugin call. */
  lemma Begins(cfg: Config, delays: nat -> real, q: Time, m: nat, a: nat) returns (s: Slice, n: RunId)
    requires Draws(cfg, delays) && a < m
    ensures At(cfg, s, q, n, NOBODY, Validating(true), Row(Preparing, a + 1, m, q, None))
  {
    s, n := Climbs(cfg, delays, q, m, a);
    s := Claims(cfg, s, q, n, NOBODY, Row(Queued, a, m, q, None));
    s := Validates(cfg, s, q, n, NOBODY, Row(Preparing, a + 1, m, q, None));
  }

  /** The same attempt inside `execute`. */
  lemma Executes(cfg: Config, delays: nat -> real, q: Time, m: nat, a: nat) returns (s: Slice, n: RunId)
    requires Draws(cfg, delays) && a < m
    ensures At(cfg, s, q, n, NOBODY, Plugin(Execute, true), Row(Running, a + 1, m, q, Some(q)))
  {
    s, n := Begins(cfg, delays, q, m, a);
    s := Prepares(cfg, s, q, n, NOBODY, Row(Preparing, a + 1, m, q, None));
    s := Starts(cfg, s, q, n, NOBODY, Row(Preparing, a + 1, m, q, None));
  }

  /** The same attempt inside `normalize_findings`. */
  lemma Processes(cfg: Config, delays: nat -> real, q: Time, m: nat, a: nat) returns (s: Slice, n: RunId)
    requires Draws(cfg, delays) && a < m
    ensures At(cfg, s, q, n, NOBODY, Plugin(Normalize, true), Row(Processing, a + 1, m, q, Some(q)))
  {
    s, n := Executes(cfg, delays, q, m, a);
    var running := Row(Running, a + 1, m, q, Some(q));
    s := Acts(cfg, s, q, n, NOBODY, Plugin(Execute, true), running, Plain(q), Check(Collect), running);
    s := Enters(cfg, s, q, n, NOBODY, running, Collect);
    var collecting := Opened(running, Collect, q);
    s := Acts(cfg, s, q, n, NOBODY, Plugin(Collect, true), collecting, Plain(q), Check(Normalize), collecting);
    s := Enters(cfg, s, q, n, NOBODY, collecting, Normalize);
  }

  lemma HoldsStill(cfg: Config, s: Slice, n: RunId)
    requires Reachable(cfg, s) && n in s.runs && Owner(s.runs[n])
    ensures s.runs[n].exit.Holding?
  {
    ReachableOk(cfg, s);
    assert RunOk(cfg, s.sh, n, s.runs[n]);
    OwnerHolds(cfg, s.sh, n, s.runs[n]);
  }

  /** In any attempt: the timeout expires in PROCESSING, the worker task fails, the row stays. */
  lemma TimeoutStrands(cfg: Config, delays: nat -> real, q: Time, m: nat, a: nat) returns (s: Slice, n: RunId)
    requires Draws(cfg, delays) && a < m
    ensures Leaves(cfg, s, n, Done(true), StuckTimeout, Row(Processing, a + 1, m, q, Some(q)))
  {
    var row := Row(Processing, a + 1, m, q, Some(q));
    s, n := Processes(cfg, delays, q, m, a);
    s := Acts(cfg, s, q, n, NOBODY, Plugin(Normalize, true), row, Plain(q).(act := Expire), TimeoutCas, row);
    s := HasNoEdgeOut(cfg, s, q, n, row);
  }

  /** PROCESSING has no edge to TIMED_OUT. */
  lemma HasNoEdgeOut(cfg: Config, s: Slice, t: Time, n: RunId, row: Scan) returns (s': Slice)
    requires At(cfg, s, t, n, NOBODY, TimeoutCas, row) && row.status.Processing?
    ensures Leaves(cfg, s', n, Done(true), StuckTimeout, row)
  {
    HoldsStill(cfg, s, n);
    s' := Go(cfg, s, ActRun(n, Plain(t)));
    s' := Escapes(cfg, s', n, StuckTimeout, row);
  }

  /** The requeue of a run that has flushed its row in PROCESSING has no edge to follow. */
  lemma HasNoEdgeBack(cfg: Config, s: Slice, t: Time, n: RunId, row: Scan) returns (s': Slice)
    requires HasFlushed(cfg, s, t, n, NOBODY, row) && row.status.Processing?
    ensures Leaves(cfg, s', n, Done(true), StuckTransient, row)
  {
    HoldsStill(cfg, s, n);
    s' := Go(cfg, s, ActRun(n, Plain(t)));
    s' := Escapes(cfg, s', n, StuckTransient, row);
  }

  /** In any attempt but the last: a retryable error in PROCESSING does the same. */
  lemma TransientStrands(cfg: Config, delays: nat -> real, q: Time, m: nat, a: nat) returns (s: Slice, n: RunId)
    requires Draws(cfg, delays) && a + 1 < m
    ensures Leaves(cfg, s, n, Done(true), StuckTransient, Row(Processing, a + 1, m, q, Some(q)))
  {
    var row := Row(Processing, a + 1, m, q, Some(q));
    s, n := Processes(cfg, delays, q, m, a);
    s := FailsTransiently(cfg, s, q, n, NOBODY, row, Normalize);
    s := Flushes(cfg, delays, s, q, n, NOBODY, row);
    s := HasNoEdgeBack(cfg, s, q, n, row);
  }

  /** In any attempt: `validate_config` raises something else than a config error, and the row stays PREPARING. */
  lemma ValidationStrands(cfg: Config, delays: nat -> real, q: Time, m: nat, a: nat) returns (s: Slice, n: RunId)
    requires Draws(cfg, delays) && a < m
    ensures Leaves(cfg, s, n, Done(true), StuckValidate, Row(Preparing, a + 1, m, q, None))
  {
    s, n := Begins(cfg, delays, q, m, a);
    s := Go(cfg, s, ActRun(n, Plain(q).(act := Throw(OtherFault))));
    s := Reports(cfg, s, n, StuckValidate, Row(Preparing, a + 1, m, q, None));
  }

  // --------------------------------------------------- the other errors that get out of `run`

  /** The cancel request that has read `row` is served: nothing but the row changes. */
  lemma Cancels(cfg: Config, s: Slice, t: Time, row: Scan) returns (s': Slice)
    requires Reachable(cfg, s) && s.sh.row == row && s.sh.now == t && !Terminal(row.status)
    requires 0 in s.cancels && s.cancels[0] == CancelRequest(Fetched, row, t)
    ensures Reachable(cfg, s')
    ensures s'.sh == s.sh.(row := row.(status := Cancelled, cancelledAt := Some(t)), changes := s.sh.changes + 1)
    ensures s'.runs == s.runs
  {
    CancelLands(cfg, s, t, row);
    s' := Go(cfg, s, ActCancel(0, t));
  }

  lemma CancelLands(cfg: Config, s: Slice, t: Time, row: Scan)
    requires Reachable(cfg, s) && s.sh.row == row && !Terminal(row.status)
    ensures TryTransition(row, row, Cancelled, t) == Moved(row.(status := Cancelled, cancelledAt := Some(t)))
  {
    ReachableOk(cfg, s);
    TransitionEffect(row, row, Cancelled, t);
  }

  /** A cancel, and the run is where it was. */
  lemma CancelsUnder(cfg: Config, s: Slice, t: Time, n: RunId, pc: PC, row: Scan) returns (s': Slice)
    requires At(cfg, s, t, n, Reader(row, t), pc, row)
    requires Active(row.status) && OwnerPoint(pc)
    ensures Leaves(cfg, s', n, pc, Holding, row.(status := Cancelled, cancelledAt := Some(t)))
  {
    HoldsStill(cfg, s, n);
    s' := Cancels(cfg, s, t, row);
  }

  lemma SavesRegardless(cfg: Config, s: Slice, n: RunId, row: Scan) returns (s': Slice)
    requires Leaves(cfg, s, n, Plugin(Normalize, true), Holding, row)
    ensures Leaves(cfg, s', n, Succeed, Holding, row)
  {
    s' := Go(cfg, s, ActRun(n, Plain(s.sh.now)));
    s' := Go(cfg, s', ActRun(n, Plain(s.sh.now)));
  }

  /** In any attempt: the scan is cancelled inside `normalize_findings`, and its findings are saved all the same. */
  lemma CancelledButSaved(cfg: Config, delays: nat -> real, q: Time, m: nat, a: nat) returns (s: Slice, n: RunId)
    requires Draws(cfg, delays) && a < m
    ensures Leaves(cfg, s, n, Succeed, Holding,
                   Row(Processing, a + 1, m, q, Some(q)).(status := Cancelled, cancelledAt := Some(q)))
  {
    var row := Row(Processing, a + 1, m, q, Some(q));
    s, n := Processes(cfg, delays, q, m, a);
    s := Reads(cfg, s, q, n, Plugin(Normalize, true), row);
    s := CancelsUnder(cfg, s, q, n, Plugin(Normalize, true), row);
    s := SavesRegardless(cfg, s, n, row.(status := Cancelled, cancelledAt := Some(q)));
  }

  /** An attempt whose findings have been saved. */
  lemma Saves(cfg: Config, delays: nat -> real, q: Time, m: nat, a: nat) returns (s: Slice, n: RunId)
    requires Draws(cfg, delays) && a < m
    ensures At(cfg, s, q, n, NOBODY, Succeed, Row(Processing, a + 1, m, q, Some(q)))
  {
    var row := Row(Processing, a + 1, m, q, Some(q));
    s, n := Processes(cfg, delays, q, m, a);
    s := Acts(cfg, s, q, n, NOBODY, Plugin(Normalize, true), row, Plain(q), Persisting, row);
    s := Acts(cfg, s, q, n, NOBODY, Persisting, row, Plain(q), Succeed, row);
  }

  /** The row of a scan whose attempt `a + 1` has committed SUCCEEDED. */
  function SucceededRow(a: nat, m: nat, q: Time): Scan {
    Row(Processing, a + 1, m, q, Some(q)).(status := Succeeded, completedAt := Some(q))
  }

  lemma Succeeds(cfg: Config, delays: nat -> real, q: Time, m: nat, a: nat) returns (s: Slice, n: RunId)
    requires Draws(cfg, delays) && a < m
    ensures At(cfg, s, q, n, NOBODY, PublishCompleted, SucceededRow(a, m, q))
  {
    var row := Row(Processing, a + 1, m, q, Some(q));
    s, n := Saves(cfg, delays, q, m, a);
    assert TryTransition(row, row, Succeeded, q) == Moved(SucceededRow(a, m, q));
    s := Acts(cfg, s, q, n, NOBODY, Succeed, row, Plain(q), PublishCompleted, SucceededRow(a, m, q));
  }

  lemma HasFinalized(cfg: Config, s: Slice, n: RunId)
    requires Reachable(cfg, s) && n in s.runs && s.runs[n].pc.PublishCompleted?
    ensures s.runs[n].exit.Finalized? && s.sh.finalizer == Some(n) && Outcomes(s.sh.log) == 0
  {
    ReachableOk(cfg, s);
    assert RunOk(cfg, s.sh, n, s.runs[n]);
  }

  /** The timeout finds a scan that is already over. */
  lemma ExpiresTooLate(cfg: Config, s: Slice, t: Time, n: RunId, row: Scan) returns (s': Slice)
    requires At(cfg, s, t, n, NOBODY, PublishCompleted, row) && row.status.Succeeded?
    ensures Leaves(cfg, s', n, Cleanup(true), Finalized, row) && Unsaid(s', n)
  {
    HasFinalized(cfg, s, n);
    s' := Go(cfg, s, ActRun(n, Plain(t).(act := Expire)));
    s' := Go(cfg, s', ActRun(n, Plain(t)));
  }

  /**
   In any attempt: the timeout expires after SUCCEEDED is committed and before that is
   announced.  SUCCEEDED has no edge to TIMED_OUT, so the worker task fails although its
   scan has succeeded (and `SuccessNeverAnnounced` says that nobody will announce it).
   */
  lemma SuccessEscapes(cfg: Config, delays: nat -> real, q: Time, m: nat, a: nat) returns (s: Slice, n: RunId)
    requires Draws(cfg, delays) && a < m
    ensures Leaves(cfg, s, n, Done(true), Finalized, SucceededRow(a, m, q))
  {
    s, n := Succeeds(cfg, delays, q, m, a);
    s := ExpiresTooLate(cfg, s, q, n, SucceededRow(a, m, q));
    s := Escapes(cfg, s, n, Finalized, SucceededRow(a, m, q));
  }

  /** Run `n` is about to write FAILED outside the guarded block, and the row is no longer what it has read. */
  ghost predicate Overtaken(cfg: Config, s: Slice, n: RunId, origin: Origin, row: Scan) {
    && Reachable(cfg, s) && s.sh.row == row && !origin.Guarded?
    && n in s.runs && s.runs[n].pc == FailCas(origin) && s.runs[n].seen <= s.sh.now
    && ValidEdge(s.runs[n].mem.status, Failed) && s.runs[n].mem.status != row.status
  }

  lemma OvertakenEscapes(cfg: Config, s: Slice, n: RunId, origin: Origin, row: Scan) returns (s': Slice)
    requires Overtaken(cfg, s, n, origin, row)
    ensures Leaves(cfg, s', n, Done(true), ExitOf(origin), row)
  {
    OvertakenHolds(cfg, s, n, origin, row);
    s' := Go(cfg, s, ActRun(n, Plain(s.sh.now)));
    s' := Reports(cfg, s', n, ExitOf(origin), row);
  }

  /** A run that never claimed has no exit. */
  function ExitOf(origin: Origin): Exit {
    if origin.Unregistered? then Holding else LostToCancel
  }

  lemma OvertakenHolds(cfg: Config, s: Slice, n: RunId, origin: Origin, row: Scan)
    requires Overtaken(cfg, s, n, origin, row)
    ensures s.runs[n].exit.Holding? && (origin.Unregistered? <==> s.runs[n].own == 0)
  {
    ReachableOk(cfg, s);
    assert RunOk(cfg, s.sh, n, s.runs[n]);
  }

  /** `validate_config` raises a config error. */
  lemma FaultsInConfig(
      cfg: Config, s: Slice, t: Time, n: RunId, still: Still, row: Scan)
    returns (s': Slice)
    requires At(cfg, s, t, n, still, Validating(true), row)
    ensures At(cfg, s', t, n, still, FailCas(BadConfig), row)
  {
    s' := Acts(cfg, s, t, n, still, Validating(true), row, Plain(t).(act := Throw(ConfigFault)),
               FailCas(BadConfig), row);
  }

  lemma CancelOvertakes(cfg: Config, s: Slice, t: Time, n: RunId, row: Scan) returns (s': Slice)
    requires row.status.Preparing?
    requires At(cfg, s, t, n, Reader(row, t), FailCas(BadConfig), row)
    ensures Overtaken(cfg, s', n, BadConfig, row.(status := Cancelled, cancelledAt := Some(t)))
  {
    s' := Cancels(cfg, s, t, row);
  }

  /** In any attempt: a cancel comes between a config error and the transition to FAILED. */
  lemma ConfigFaultEscapes(cfg: Config, delays: nat -> real, q: Time, m: nat, a: nat) returns (s: Slice, n: RunId)
    requires Draws(cfg, delays) && a < m
    ensures Leaves(cfg, s, n, Done(true), LostToCancel,
                   Row(Preparing, a + 1, m, q, None).(status := Cancelled, cancelledAt := Some(q)))
  {
    var row := Row(Preparing, a + 1, m, q, None);
    s, n := Begins(cfg, delays, q, m, a);
    s := Reads(cfg, s, q, n, Validating(true), row);
    s := FaultsInConfig(cfg, s, q, n, Reader(row, q), row);
    s := CancelOvertakes(cfg, s, q, n, row);
    s := OvertakenEscapes(cfg, s, n, BadConfig, row.(status := Cancelled, cancelledAt := Some(q)));
  }

  /** Two workers work on the QUEUED scan: the points they are at, and what those that have read it have read. */
  ghost predicate Both(cfg: Config, s: Slice, t: Time, row: Scan, pc: PC, pc': PC) {
    && Reachable(cfg, s) && s.sh.row == row && s.sh.now == t && row.status.Queued?
    && 0 in s.runs && s.runs[0].pc == pc && (!pc.Delivered? ==> s.runs[0].mem == row)
    && 1 in s.runs && s.runs[1].pc == pc' && (!pc'.Delivered? ==> s.runs[1].mem == row)
    && !s.runs[0].knows && !s.runs[1].knows && s.runs[0].seen <= t && s.runs[1].seen <= t
    && s.runs[0].pending.None? && s.runs[1].pending.None?
  }

  lemma DeliversTwice(cfg: Config, q: Time, m: nat) returns (s: Slice)
    requires 0 < m
    ensures Both(cfg, s, q, Row(Queued, 0, m, q, None), Delivered, Delivered)
  {
    CreatedReachable(cfg, m, q);
    s := Dispatches(cfg, Created(m, q), q, 0, NOBODY, Row(Queued, 0, m, q, None));
    s := Go(cfg, s, Duplicate);
    s := Go(cfg, s, Deliver(0, false));
    s := Go(cfg, s, Deliver(1, false));
  }

  lemma ReadsUnregistered(cfg: Config, s: Slice, t: Time, row: Scan) returns (s': Slice)
    requires Both(cfg, s, t, row, Delivered, Delivered)
    ensures Both(cfg, s', t, row, FailCas(Unregistered), FailCas(Unregistered))
  {
    s' := Go(cfg, s, ActRun(0, Plain(t)));
    s' := Go(cfg, s', ActRun(1, Plain(t)));
  }

  lemma OneFails(cfg: Config, s: Slice, t: Time, row: Scan) returns (s': Slice)
    requires Both(cfg, s, t, row, FailCas(Unregistered), FailCas(Unregistered))
    requires row.queuedAt.Some? && Checks(row.(status := Failed, failedAt := Some(t)))
    ensures Overtaken(cfg, s', 1, Unregistered, row.(status := Failed, failedAt := Some(t)))
  {
    assert TryTransition(row, row, Failed, t) == Moved(row.(status := Failed, failedAt := Some(t)));
    s' := Go(cfg, s, ActRun(0, Plain(t)));
  }

  /**
   Where the scanner is not registered, a duplicate is enough: two workers read the QUEUED
   scan, one fails it, and the other's transition to FAILED is stale.
   */
  lemma UnregisteredEscapes(cfg: Config, q: Time, m: nat) returns (s: Slice)
    requires 0 < m
    ensures Leaves(cfg, s, 1, Done(true), Holding,
                   Row(Queued, 0, m, q, None).(status := Failed, failedAt := Some(q)))
  {
    var row := Row(Queued, 0, m, q, None);
    s := DeliversTwice(cfg, q, m);
    s := ReadsUnregistered(cfg, s, q, row);
    s := OneFails(cfg, s, q, row);
    s := OvertakenEscapes(cfg, s, 1, Unregistered, row.(status := Failed, failedAt := Some(q)));
  }
}
