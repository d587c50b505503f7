/**
 The scan execution protocol as a step relation.

 Nothing in the protocol reads another scan's rows, so the state is kept per scan:
 a `Slice` is one scan's row, its outbox rows, its messages on the queue, the
 worker runs, dispatchers and cancel requests working on it, and its event log.
 `ScanSystem` puts the slices together.

 Each step is one awaited call of the code (a statement together with the commit
 that makes it visible), or the part of a plugin call between two such calls.  A
 label resolves all nondeterminism: which actor moves, the clock reading it
 stamps, what a plugin does, whether a worker knows the scanner, whether a send or an
 event insert fails, who dies.
 */
module Protocol {
  import opened ScanModel
  import opened Retry

  type RunId = nat
  type DispatcherId = nat
  type CancelId = nat

  /** What is fixed for a scan: which countdowns `next_delay_seconds` may draw for a failed attempt. */
  datatype Config = Config(drawable: (nat, real) -> bool)

  /**
   A committed outbox row; its key in `Shared.outbox` is `scan_attempt`.  `sends`
   and `deaths` are history: messages sent for the row, and dispatchers that died
   after such a send and before recording it.
   */
  datatype OutboxRow = OutboxRow(
    countdown: real,
    published: bool,
    attemptCount: nat,
    sends: nat,
    deaths: nat)

  datatype Event =
    | ScanStarted
    | ScanProgress(stage: Status)
    | ScanCompleted
    | ScanFailed
    | ScanCancelled
    | ScanTimedOut

  /** Everything more than one actor can see, and (after `deadLetters`) history variables. */
  datatype Shared = Shared(
    row: Scan,
    outbox: map<nat, OutboxRow>,
    messages: nat,
    log: seq<Event>,
    deadLetters: nat,
    now: Time,
    changes: nat,                 // committed status changes
    claims: map<nat, RunId>,      // which run claimed each attempt
    finalizer: Option<RunId>,     // the run that made the row terminal, if a run did
    uniqueViolated: bool,         // the (tenant, scan, attempt) constraint fired
    lostDelivery: bool)           // a worker died, or got no plugin, between delivery and claim

  datatype Stage = Prepare | Execute | Collect | Normalize

  /** Who called `_finalize_failed`; it decides what a stale row and the end of it mean. */
  datatype Origin = Unregistered | BadConfig | Guarded

  datatype PC =
    | Delivered
    | ReadQueued
    | Claimed
    | Validating(begun: bool)
    // inside `asyncio.timeout(...)`
    | Check(stage: Stage)
    | Plugin(stage: Stage, begun: bool)
    | Advance(stage: Stage)
    | Announce(stage: Stage)
    | Persisting
    | Succeed
    | PublishCompleted
    // the except clauses
    | TimeoutCas
    | PublishTimedOut
    | SawCancel
    | CancelCas
    | PublishCancelled
    | Failure(transient: bool)
    | RequeueCas
    | PublishRequeued
    | FailCas(origin: Origin)
    | PublishFailed(origin: Origin)
    | DeadLetter(origin: Origin)
    | Reconcile
    // finally, and the worker task around the run
    | Cleanup(raised: bool)
    | Finish(raised: bool)
    | Done(raised: bool)
    | Dead

  /** How a claimed run gave up its attempt. */
  datatype Exit =
    | Holding
    | Finalized
    | Requeued
    | LostToCancel
    | StuckTimeout
    | StuckTransient
    | StuckValidate
    | Unexplained

  /** A flushed, not yet committed outbox row. */
  datatype Flushed = Flushed(attempt: nat, countdown: real)

  /**
   One `execute_scan` task.  `knows`: the worker has a scanner registered for the scan;
   `mem` is the session's one in-memory `Scan`, `own` the attempt it claimed (0: none),
   `seen` the time of its last step.  `entered`,
   `cleanups`, `lateStages` (plugin stages begun while the row was CANCELLED) and
   `exit` are history.
   */
  datatype Run = Run(
    knows: bool,
    pc: PC,
    own: nat,
    mem: Scan,
    pending: Option<Flushed>,
    seen: Time,
    entered: bool,
    cleanups: nat,
    lateStages: nat,
    exit: Exit)

  datatype Fault = TransientFault | ConfigFault | CancelledFault | OtherFault

  datatype Act = Proceed | Throw(fault: Fault) | Expire

  /** `stamp`: the clock reading used; `countdown`: the drawn delay; `ok`: an insert or send succeeds. */
  datatype Choice = Choice(act: Act, stamp: Time, countdown: real, ok: bool)

  // ---------------------------------------------------------------- worker runs

  /** Is `pc` inside the `asyncio.timeout` block? */
  predicate InTimeoutBlock(pc: PC) {
    pc.Check? || pc.Plugin? || pc.Advance? || pc.Announce? || pc.Persisting? || pc.Succeed? || pc.PublishCompleted?
  }

  /** Is plugin or pipeline code running, or the plugin being made, so that anything may be raised? */
  predicate Raises(pc: PC) {
    pc.ReadQueued? || (pc.Validating? && pc.begun) || (pc.Plugin? && pc.begun) || pc.Persisting?
  }

  predicate RunEnabled(cfg: Config, sh: Shared, r: Run, c: Choice) {
    && !r.pc.Done? && !r.pc.Dead?
    && r.seen <= c.stamp <= sh.now
    && (r.pc == Failure(true) && ShouldRetry(r.mem.attempt, r.mem.maxAttempts) ==>
          cfg.drawable(r.mem.attempt, c.countdown))
    && (c.act.Throw? ==> Raises(r.pc))
    && (c.act.Expire? ==> InTimeoutBlock(r.pc))
  }

  /** Commit whatever the session has flushed. */
  function Commit(sh: Shared, pending: Option<Flushed>): Shared {
    match pending
    case None => sh
    case Some(p) => sh.(outbox := sh.outbox[p.attempt := OutboxRow(p.countdown, false, 0, 0, 0)])
  }

  /** Publish an event; the persister, if its insert works, commits the shared session. */
  function Publish(sh: Shared, r: Run, e: Event, persisted: bool, next: PC): (Shared, Run) {
    var logged := sh.(log := sh.log + [e]);
    if persisted then (Commit(logged, r.pending), r.(pending := None, pc := next))
    else (logged, r.(pc := next))
  }

  /** A transition that matched its row, and its commit. */
  function Move(sh: Shared, rid: RunId, r: Run, row: Scan, exit: Exit, next: PC): (Shared, Run) {
    var moved := sh.(
      row := row,
      changes := sh.changes + 1,
      finalizer := if Terminal(row.status) then Some(rid) else sh.finalizer);
    (Commit(moved, r.pending), r.(mem := row, pending := None, exit := exit, pc := next))
  }

  function Begin(sh: Shared, r: Run, next: PC): (Shared, Run) {
    (sh, r.(pc := next, lateStages := r.lateStages + if sh.row.status.Cancelled? then 1 else 0))
  }

  /** `run` up to the guarded block. */
  function EntryStep(cfg: Config, sh: Shared, rid: RunId, r: Run, c: Choice): (Shared, Run)
    requires r.pc.Delivered? || r.pc.ReadQueued? || r.pc.Claimed? || r.pc.Validating?
  {
    match r.pc
    case Delivered =>
      var read := r.(mem := sh.row);
      if !sh.row.status.Queued? then (sh, read.(pc := Finish(false)))
      else if !r.knows then (sh, read.(pc := FailCas(Unregistered)))
      else (sh, read.(pc := ReadQueued))
    case ReadQueued =>
      if c.act.Throw? then (sh.(lostDelivery := true), r.(pc := Finish(true)))
      else
        (match Claim(sh.row, r.mem.attempt)
         case None => (sh, r.(pc := Finish(false)))
         case Some(row) =>
           (sh.(row := row, changes := sh.changes + 1, claims := sh.claims[row.attempt := rid]),
            r.(mem := row, own := row.attempt, pc := Claimed)))
    case Claimed => Publish(sh, r, ScanStarted, c.ok, Validating(false))
    case Validating(begun) =>
      if !begun then Begin(sh, r, Validating(true))
      else
        match c.act
        case Throw(ConfigFault) => (sh, r.(pc := FailCas(BadConfig)))
        case Throw(_) => (sh, r.(pc := Finish(true), exit := StuckValidate))
        case _ => (sh, r.(pc := Check(Prepare), entered := true))
  }

  function StatusOf(stage: Stage): Status {
    match stage
    case Prepare => Preparing
    case Execute => Running
    case Collect => Collecting
    case Normalize => Processing
  }

  /** What follows a plugin stage that returned. */
  function AfterPlugin(stage: Stage): PC {
    match stage
    case Prepare => Check(Execute)
    case Execute => Check(Collect)
    case Collect => Check(Normalize)
    case Normalize => Persisting
  }

  /** Which except clause of the inner try takes a fault raised by plugin or pipeline code. */
  function Caught(fault: Fault): PC {
    match fault
    case TransientFault => Failure(true)
    case CancelledFault => SawCancel
    case _ => Failure(false)
  }

  /** `_run_stages`, without the timeout. */
  function StageStep(sh: Shared, rid: RunId, r: Run, c: Choice): (Shared, Run)
    requires InTimeoutBlock(r.pc)
  {
    match r.pc
    case Check(stage) =>
      var read := r.(mem := sh.row);
      if sh.row.status.Cancelled? then (sh, read.(pc := SawCancel, exit := LostToCancel))
      else (sh, read.(pc := if stage.Prepare? then Plugin(Prepare, false) else Advance(stage)))
    case Plugin(stage, begun) =>
      if !begun then Begin(sh, r, Plugin(stage, true))
      else if c.act.Throw? then (sh, r.(pc := Caught(c.act.fault)))
      else (sh, r.(pc := AfterPlugin(stage)))
    case Advance(stage) =>
      (match TryTransition(sh.row, r.mem, StatusOf(stage), c.stamp)
       case Moved(row) => Move(sh, rid, r, row, r.exit, Announce(stage))
       case _ => (sh, r.(pc := Failure(false))))
    case Announce(stage) => Publish(sh, r, ScanProgress(StatusOf(stage)), c.ok, Plugin(stage, false))
    case Persisting =>
      if c.act.Throw? then (sh, r.(pc := Caught(c.act.fault)))
      else (sh, r.(pc := Succeed))
    case Succeed =>
      (match TryTransition(sh.row, r.mem, Succeeded, c.stamp)
       case Moved(row) => Move(sh, rid, r, row, Finalized, PublishCompleted)
       case _ => (sh, r.(pc := Failure(false))))
    case PublishCompleted => Publish(sh, r, ScanCompleted, c.ok, Cleanup(false))
  }

  /** Where `_finalize_failed` returns to. */
  function AfterFailed(origin: Origin): PC {
    if origin.Unregistered? then Finish(false) else Cleanup(false)
  }

  predicate InHandler(pc: PC) {
    || pc.TimeoutCas? || pc.PublishTimedOut? || pc.SawCancel? || pc.CancelCas? || pc.PublishCancelled?
    || pc.Failure? || pc.RequeueCas? || pc.PublishRequeued?
    || pc.FailCas? || pc.PublishFailed? || pc.DeadLetter? || pc.Reconcile?
  }

  /** A transition asked for by an except clause or by `_finalize_failed`. */
  datatype Plan = Plan(target: Status, exit: Exit, stuck: Exit, next: PC, guarded: bool)

  predicate HandlerCas(pc: PC) {
    pc.TimeoutCas? || pc.CancelCas? || pc.RequeueCas? || pc.FailCas?
  }

  function PlanOf(pc: PC): Plan
    requires HandlerCas(pc)
  {
    match pc
    case TimeoutCas => Plan(TimedOut, Finalized, StuckTimeout, PublishTimedOut, true)
    case CancelCas => Plan(Cancelled, Finalized, Unexplained, PublishCancelled, true)
    case RequeueCas => Plan(Queued, Requeued, StuckTransient, PublishRequeued, true)
    case FailCas(origin) => Plan(Failed, Finalized, Unexplained, PublishFailed(origin), origin.Guarded?)
  }

  /**
   The transition, and where its failures lead.  Inside the guarded block a stale row
   goes to the outer except clause and anything else escapes past it, through the
   clean-up; outside, whatever is raised escapes `run` at once.
   */
  function HandlerMove(sh: Shared, rid: RunId, r: Run, plan: Plan, stamp: Time): (Shared, Run) {
    match TryTransition(sh.row, r.mem, plan.target, stamp)
    case Moved(row) => Move(sh, rid, r, row, plan.exit, plan.next)
    case Stale =>
      (sh, if plan.guarded then r.(pc := Reconcile)
           else r.(pc := Finish(true), exit := if 0 < r.own then LostToCancel else r.exit))
    case CheckFailed =>
      (sh, r.(pc := if plan.guarded then Cleanup(true) else Finish(true),
              exit := if 0 < r.own then Unexplained else r.exit))
    case InvalidEdge =>
      (sh, r.(pc := if plan.guarded then Cleanup(true) else Finish(true),
              exit := if r.exit.Finalized? then Finalized else plan.stuck))
  }

  /** The except clauses and the helpers they call. */
  function HandlerStep(cfg: Config, sh: Shared, rid: RunId, r: Run, c: Choice): (Shared, Run)
    requires InHandler(r.pc)
  {
    if HandlerCas(r.pc) then HandlerMove(sh, rid, r, PlanOf(r.pc), c.stamp)
    else
      match r.pc
      case PublishTimedOut => Publish(sh, r, ScanTimedOut, c.ok, Cleanup(false))
      case SawCancel => (sh, r.(pc := if r.mem.status.Cancelled? then PublishCancelled else CancelCas))
      case PublishCancelled => Publish(sh, r, ScanCancelled, c.ok, Cleanup(false))
      case Failure(transient) =>
        if transient && ShouldRetry(r.mem.attempt, r.mem.maxAttempts) then
          if r.mem.attempt in sh.outbox then
            (sh.(uniqueViolated := true), r.(pc := Cleanup(true), exit := Unexplained))
          else
            (sh, r.(pending := Some(Flushed(r.mem.attempt, c.countdown)), pc := RequeueCas))
        else (sh, r.(pc := FailCas(Guarded)))
      case PublishRequeued => Publish(sh, r, ScanProgress(Queued), c.ok, Cleanup(false))
      case PublishFailed(origin) => Publish(sh, r, ScanFailed, c.ok, DeadLetter(origin))
      case DeadLetter(origin) =>
        (if c.ok then sh.(deadLetters := sh.deadLetters + 1) else sh, r.(pc := AfterFailed(origin)))
      case Reconcile =>
        var read := r.(mem := sh.row);
        if sh.row.status.Cancelled? then (sh, read.(pc := PublishCancelled, exit := LostToCancel))
        else (sh, read.(pc := Cleanup(false), exit := Unexplained))
  }

  /** `finally: _cleanup`, then the worker task's own commit or rollback. */
  function ExitStep(sh: Shared, r: Run): (Shared, Run)
    requires r.pc.Cleanup? || r.pc.Finish?
  {
    match r.pc
    case Cleanup(raised) => (sh, r.(pc := Finish(raised), cleanups := r.cleanups + 1))
    case Finish(raised) =>
      (if raised then sh else Commit(sh, r.pending), r.(pending := None, pc := Done(raised)))
  }

  function RunAct(cfg: Config, sh: Shared, rid: RunId, r: Run, c: Choice): (Shared, Run)
    requires RunEnabled(cfg, sh, r, c)
  {
    if c.act.Expire? then (sh, r.(pc := TimeoutCas))
    else if InTimeoutBlock(r.pc) then StageStep(sh, rid, r, c)
    else if InHandler(r.pc) then HandlerStep(cfg, sh, rid, r, c)
    else if r.pc.Cleanup? || r.pc.Finish? then ExitStep(sh, r)
    else EntryStep(cfg, sh, rid, r, c)
  }

  /** One step of a run, which then has seen the current time. */
  function RunStep(cfg: Config, sh: Shared, rid: RunId, r: Run, c: Choice): (Shared, Run)
    requires RunEnabled(cfg, sh, r, c)
  {
    var (sh', r') := RunAct(cfg, sh, rid, r, c);
    (sh', r'.(seen := sh'.now))
  }

  // ------------------------------------------------- cancel requests, dispatchers

  datatype CancelPC = Fetched | PublishIt | Answered(ok: bool)

  /** One `cancel_scan` request that has read the row. */
  datatype CancelRequest = CancelRequest(pc: CancelPC, mem: Scan, seen: Time)

  function CancelStep(sh: Shared, q: CancelRequest, stamp: Time): (Shared, CancelRequest) {
    match q.pc
    case Fetched =>
      (match TryTransition(sh.row, q.mem, Cancelled, stamp)
       case Moved(row) => (sh.(row := row, changes := sh.changes + 1), q.(pc := PublishIt, seen := sh.now))
       case _ => (sh, q.(pc := Answered(false), seen := sh.now)))
    case PublishIt => (sh.(log := sh.log + [ScanCancelled]), q.(pc := Answered(true), seen := sh.now))
    case Answered(_) => (sh, q)
  }

  /** A dispatcher inside `_dispatch_one`; one that is not in the map holds nothing. */
  datatype Dispatcher = Locked(attempt: nat) | Sent(attempt: nat) | Refused(attempt: nat)

  // ------------------------------------------------------------------- the slice

  datatype Slice = Slice(
    sh: Shared,
    runs: map<RunId, Run>,
    cancels: map<CancelId, CancelRequest>,
    dispatchers: map<DispatcherId, Dispatcher>)

  datatype Label =
    | Tick(seconds: nat)
    | Deliver(rid: RunId, knows: bool)
    | Duplicate
    | Revoke
    | ActRun(rid: RunId, choice: Choice)
    | KillRun(rid: RunId)
    | ReadForCancel(cid: CancelId)
    | ActCancel(cid: CancelId, stamp: Time)
    | Lock(did: DispatcherId, attempt: nat)
    | Send(did: DispatcherId, ok: bool)
    | Record(did: DispatcherId)
    | KillDispatcher(did: DispatcherId)

  const NOT_READ := NewScan(1)

  function NewRun(now: Time, knows: bool): Run {
    Run(knows, Delivered, 0, NOT_READ, None, now, false, 0, 0, Holding)
  }

  /** Before its claim step, a run's message is the only thing that can wake the scan. */
  predicate BeforeClaim(pc: PC) {
    pc.Delivered? || pc.ReadQueued? || (pc.FailCas? && pc.origin.Unregistered?)
  }

  predicate Held(s: Slice, attempt: nat) {
    exists d :: d in s.dispatchers && s.dispatchers[d].attempt == attempt
  }

  ghost predicate Enabled(cfg: Config, s: Slice, l: Label) {
    match l
    case Tick(_) => true
    case Deliver(rid, _) => rid !in s.runs && s.sh.messages > 0
    case Duplicate => s.sh.messages > 0
    case Revoke => s.sh.messages > 0 && s.sh.row.status.Cancelled?
    case ActRun(rid, c) => rid in s.runs && RunEnabled(cfg, s.sh, s.runs[rid], c)
    case KillRun(rid) => rid in s.runs && !s.runs[rid].pc.Done? && !s.runs[rid].pc.Dead?
    case ReadForCancel(cid) => cid !in s.cancels
    case ActCancel(cid, stamp) => cid in s.cancels && s.cancels[cid].seen <= stamp <= s.sh.now
    case Lock(did, a) => did !in s.dispatchers && a in s.sh.outbox && !s.sh.outbox[a].published && !Held(s, a)
    case Send(did, _) => did in s.dispatchers && s.dispatchers[did].Locked? && s.dispatchers[did].attempt in s.sh.outbox
    case Record(did) => did in s.dispatchers && !s.dispatchers[did].Locked? && s.dispatchers[did].attempt in s.sh.outbox
    case KillDispatcher(did) => did in s.dispatchers && s.dispatchers[did].attempt in s.sh.outbox
  }

  /** Send the held row's message, and note it in the row's history. */
  function SendMessage(sh: Shared, a: nat): Shared
    requires a in sh.outbox
  {
    sh.(messages := sh.messages + 1, outbox := sh.outbox[a := sh.outbox[a].(sends := sh.outbox[a].sends + 1)])
  }

  /** `mark_published` or `mark_failed_attempt`, and the commit that releases the lock. */
  function RecordAttempt(sh: Shared, d: Dispatcher): Shared
    requires d.attempt in sh.outbox
  {
    var row := sh.outbox[d.attempt];
    sh.(outbox := sh.outbox[d.attempt :=
      row.(published := row.published || d.Sent?, attemptCount := row.attemptCount + 1)])
  }

  /** The dead dispatcher's transaction rolls back; only its send is not undone. */
  function ForgetDispatcher(sh: Shared, d: Dispatcher): Shared
    requires d.attempt in sh.outbox
  {
    if d.Sent? then
      sh.(outbox := sh.outbox[d.attempt := sh.outbox[d.attempt].(deaths := sh.outbox[d.attempt].deaths + 1)])
    else sh
  }

  /** A step of anybody but a worker run. */
  ghost function EnvStep(cfg: Config, s: Slice, l: Label): Slice
    requires Enabled(cfg, s, l) && !l.ActRun?
  {
    match l
    case Tick(d) => s.(sh := s.sh.(now := s.sh.now + d))
    case Deliver(rid, knows) =>
      s.(sh := s.sh.(messages := s.sh.messages - 1), runs := s.runs[rid := NewRun(s.sh.now, knows)])
    case Duplicate => s.(sh := s.sh.(messages := s.sh.messages + 1))
    case Revoke => s.(sh := s.sh.(messages := s.sh.messages - 1))
    case KillRun(rid) =>
      s.(sh := s.sh.(lostDelivery := s.sh.lostDelivery || BeforeClaim(s.runs[rid].pc)),
         runs := s.runs[rid := s.runs[rid].(pc := Dead, pending := None)])
    case ReadForCancel(cid) =>
      s.(cancels := s.cancels[cid := CancelRequest(Fetched, s.sh.row, s.sh.now)])
    case ActCancel(cid, stamp) =>
      var (sh', q') := CancelStep(s.sh, s.cancels[cid], stamp);
      s.(sh := sh', cancels := s.cancels[cid := q'])
    case Lock(did, a) => s.(dispatchers := s.dispatchers[did := Locked(a)])
    case Send(did, ok) =>
      var a := s.dispatchers[did].attempt;
      if ok then s.(sh := SendMessage(s.sh, a), dispatchers := s.dispatchers[did := Sent(a)])
      else s.(dispatchers := s.dispatchers[did := Refused(a)])
    case Record(did) =>
      s.(sh := RecordAttempt(s.sh, s.dispatchers[did]), dispatchers := s.dispatchers - {did})
    case KillDispatcher(did) =>
      s.(sh := ForgetDispatcher(s.sh, s.dispatchers[did]), dispatchers := s.dispatchers - {did})
  }

  ghost function Step(cfg: Config, s: Slice, l: Label): Slice
    requires Enabled(cfg, s, l)
  {
    if l.ActRun? then
      var (sh', r') := RunStep(cfg, s.sh, l.rid, s.runs[l.rid], l.choice);
      s.(sh := sh', runs := s.runs[l.rid := r'])
    else EnvStep(cfg, s, l)
  }

  /** The slice as the creation transaction commits it: QUEUED at attempt 0, with outbox row 0. */
  function Created(maxAttempts: nat, now: Time): Slice {
    Slice(
      Shared(QueuedScan(maxAttempts, now), map[0 := OutboxRow(0.0, false, 0, 0, 0)], 0, [], 0, now,
             1, map[], None, false, false),
      map[], map[], map[])
  }

  /** A history is a sequence of labels, each enabled where it is taken. */
  ghost predicate Legal(cfg: Config, s: Slice, labels: seq<Label>)
    decreases |labels|
  {
    labels == [] || (Enabled(cfg, s, labels[0]) && Legal(cfg, Step(cfg, s, labels[0]), labels[1..]))
  }

  ghost function After(cfg: Config, s: Slice, labels: seq<Label>): Slice
    requires Legal(cfg, s, labels)
    decreases |labels|
  {
    if labels == [] then s else After(cfg, Step(cfg, s, labels[0]), labels[1..])
  }
}
