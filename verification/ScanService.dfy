/** The request side of the protocol: create, cancel and retry a scan. */
module ScanService {
  import opened ScanModel
  import opened Protocol
  import opened ProtocolInvariant
  import opened ProtocolSlices
  import opened Persistence

  datatype ServiceError =
    | ProjectNotFound
    | AssetNotFound
    | AssetProjectMismatch
    | ScanNotFound
    | ScanNotCancellable
    | ScanNotRetryable

  datatype Result<+T> = Ok(value: T) | Err(error: ServiceError)

  /** May a scan in this status be retried, as a new scan? */
  predicate Retryable(s: Status) {
    s.Failed? || s.Cancelled? || s.TimedOut?
  }

  /** What a request body and two look-ups say about where the new scan belongs. */
  datatype Placement = Placement(projectExists: bool, projectId: nat, assetProject: Option<nat>)

  /** A new scan: QUEUED since `now`, never claimed or stamped otherwise, and to be dispatched at once. */
  predicate Waits(sh: Shared, maxAttempts: nat, now: Time) {
    && sh.row == Scan(Queued, 0, maxAttempts, Some(now), None, None, None, None, None)
    && sh.outbox == map[0 := OutboxRow(0.0, false, 0, 0, 0)]
    && sh.messages == 0 && sh.log == [] && sh.claims == map[] && sh.deadLetters == 0
  }

  /** The outbox row is flushed first; the transition to QUEUED commits both. */
  method Enqueue(session: Session, stateMachine: ScanStateMachine, now: Time)
    requires stateMachine.session == session && stateMachine.scans.session == session
    requires session.unit == Unit(Some(session.scan), None, 0)
    requires session.scan == NewScan(session.scan.maxAttempts) && 1 <= session.scan.maxAttempts
    requires session.scan.attempt !in session.tables.shared.outbox
    modifies session, session.tables
    ensures session.tables.present
    ensures session.scan == Apply(old(session.scan), UpdateFields(old(session.scan), Queued, now))
    ensures session.tables.shared == Committed(old(session.tables.shared), session.actor,
      Unit(Some(session.scan), Some(Flushed(old(session.scan).attempt, 0.0)), 1))
  {
    var outbox := new ScanOutboxRepository(session);
    var inserted := outbox.Create(session.scan.attempt, 0.0);
    var outcome := stateMachine.Transition(Queued, now);
  }

  /**
   A new scan is committed QUEUED at attempt 0 together with its outbox row, or not at all.
   The request's schema has refused a limit below 1.
   */
  method CreateScan(tenantId: TenantId, placement: Placement, maxAttempts: nat, now: Time)
    returns (created: Result<ScanTables>)
    requires 1 <= maxAttempts
    ensures created == Err(ProjectNotFound) <==> !placement.projectExists
    ensures created == Err(AssetNotFound) <==> placement.projectExists && placement.assetProject.None?
    ensures created == Err(AssetProjectMismatch) <==>
      placement.projectExists && placement.assetProject.Some? && placement.assetProject.value != placement.projectId
    ensures created.Ok? <==> placement.projectExists && placement.assetProject == Some(placement.projectId)
    ensures created.Ok? ==>
      && fresh(created.value) && created.value.tenantId == tenantId && created.value.present
      && created.value.shared == Created(maxAttempts, now).sh && Waits(created.value.shared, maxAttempts, now)
  {
    if !placement.projectExists { return Err(ProjectNotFound); }
    if placement.assetProject.None? { return Err(AssetNotFound); }
    if placement.assetProject.value != placement.projectId { return Err(AssetProjectMismatch); }
    var tables := Insert(tenantId, maxAttempts, now);
    created := Ok(tables);
  }

  method Insert(tenantId: TenantId, maxAttempts: nat, now: Time) returns (tables: ScanTables)
    requires 1 <= maxAttempts
    ensures fresh(tables) && tables.tenantId == tenantId
    ensures tables.present && tables.shared == Created(maxAttempts, now).sh
  {
    tables := new ScanTables.Empty(tenantId, now);
    var session := new Session(tables, None);
    var scans := new ScanRepository(session);
    var stateMachine := new ScanStateMachine(session);
    scans.Create(maxAttempts);
    Enqueue(session, stateMachine, now);
  }

  /**
   A retry is a new scan with the original's settings; the original is only read, and may
   be retried exactly when it ended without success.
   */
  method RetryScan(tables: ScanTables, tenantId: TenantId, now: Time) returns (created: Result<ScanTables>)
    requires tables.present && 1 <= tables.shared.row.maxAttempts
    ensures tenantId != tables.tenantId ==> created == Err(ScanNotFound)
    ensures tenantId == tables.tenantId ==>
      if tables.shared.row.status in {Failed, Cancelled, TimedOut} then
        && created.Ok? && fresh(created.value) && created.value.tenantId == tenantId
        && created.value.present && created.value.shared == Created(tables.shared.row.maxAttempts, now).sh
        && Waits(created.value.shared, tables.shared.row.maxAttempts, now)
      else created == Err(ScanNotRetryable)
  {
    var session := new Session(tables, None);
    var scans := new ScanRepository(session);
    var original := scans.GetById(tenantId);
    if original.None? { return Err(ScanNotFound); }
    if !Retryable(original.value.status) { return Err(ScanNotRetryable); }
    var copy := Insert(tenantId, original.value.maxAttempts, now);
    created := Ok(copy);
  }

  // ---------------------------------------------------------------------- cancel

  /** Time passes and other actors act while the request awaits. */
  method OthersAct(cfg: Config, tables: ScanTables)
    requires SharedOk(cfg, tables.shared)
    modifies tables`shared, tables`jobId
    ensures SharedOk(cfg, tables.shared)
    ensures old(tables.shared.now) <= tables.shared.now
    ensures Since(old(tables.shared.row), tables.shared.row)
    ensures Terminal(old(tables.shared.row.status)) ==> tables.shared.row == old(tables.shared.row)
  {
    var steps: int := *;
    tables.jobId := *;
    for i := 0 to if steps < 0 then 0 else steps
      invariant SharedOk(cfg, tables.shared)
      invariant old(tables.shared.now) <= tables.shared.now
      invariant Since(old(tables.shared.row), tables.shared.row)
      invariant Terminal(old(tables.shared.row.status)) ==> tables.shared.row == old(tables.shared.row)
    {
      var next: Shared := *;
      var actor: Option<RunId> := *;
      if SharedOk(cfg, next) && Guarantee(cfg, tables.shared, next, actor) {
        SinceGoesOn(cfg, tables.shared, next, actor, old(tables.shared.row));
        tables.shared := next;
      }
    }
  }

  /** Committing the cancel's transition is the step relation's `CancelStep`. */
  lemma CancelCommits(cfg: Config, at: Shared, read: CancelRequest, stamp: Time)
    requires SharedOk(cfg, at) && CancelOk(at, read) && read.seen <= stamp <= at.now && read.pc.Fetched?
    ensures var (sh', q') := CancelStep(at, read, stamp);
      match TryTransition(at.row, read.mem, Cancelled, stamp)
      case Moved(row) =>
        && sh' == Committed(at, None, Unit(Some(row), None, 1)) && q'.pc.PublishIt?
        && sh'.row == row && row.status.Cancelled? && SharedOk(cfg, sh')
      case Stale => !q'.pc.PublishIt?
      case CheckFailed => !q'.pc.PublishIt?
      case InvalidEdge => !q'.pc.PublishIt?
    ensures Granted(at, read, stamp)
  {
    CancelStepOk(cfg, at, read, stamp);
    CancelsMatch(cfg, at, read, stamp);
  }

  /** A cancel is granted exactly if the scan was not over when it was read and has the same status still. */
  ghost predicate Granted(at: Shared, read: CancelRequest, stamp: Time) {
    var (sh', q') := CancelStep(at, read, stamp);
    && (q'.pc.PublishIt? <==> !Terminal(read.mem.status) && at.row.status == read.mem.status)
    && (q'.pc.PublishIt? ==> sh'.row == at.row.(status := Cancelled, cancelledAt := Some(stamp)))
  }

  lemma CancelsMatch(cfg: Config, at: Shared, read: CancelRequest, stamp: Time)
    requires SharedOk(cfg, at) && CancelOk(at, read) && read.pc.Fetched?
    ensures Granted(at, read, stamp)
  {
    EdgesByTarget(read.mem.status);
    TransitionEffect(at.row, read.mem, Cancelled, stamp);
  }

  /** The clock is read at once; the update reaches the row only after others have acted. */
  method TakeClock(cfg: Config, tables: ScanTables) returns (ghost read: CancelRequest, now: Time)
    requires SharedOk(cfg, tables.shared)
    modifies tables`shared, tables`jobId
    ensures SharedOk(cfg, tables.shared)
    ensures read == CancelRequest(Fetched, old(tables.shared.row), old(tables.shared.now))
    ensures CancelOk(tables.shared, read) && read.seen <= now <= tables.shared.now
  {
    read := CancelRequest(Fetched, tables.shared.row, tables.shared.now);
    now := tables.shared.now;
    OthersAct(cfg, tables);
  }

  /** Revoking a job takes one message off the queue, if it is still there and the broker hears of it. */
  predicate Revoked(before: Shared, after: Shared, jobId: Option<nat>) {
    after == before || (jobId.Some? && before.messages > 0 && after == before.(messages := before.messages - 1))
  }

  /**
   One `cancel_scan` request, from its read (`read`) over its compare-and-set at `at` to
   what it leaves when the event is out (`said`), and the job the read row knows is revoked.
   */
  method CancelScan(cfg: Config, tables: ScanTables, tenantId: TenantId)
    returns (answer: Result<Scan>, ghost read: CancelRequest, ghost at: Shared, ghost stamp: Time, ghost said: Shared)
    requires tables.present && SharedOk(cfg, tables.shared)
    modifies tables
    ensures SharedOk(cfg, tables.shared)
    ensures tenantId != tables.tenantId ==> answer == Err(ScanNotFound) && tables.shared == old(tables.shared)
    ensures tenantId == tables.tenantId ==>
      && read.pc.Fetched? && read.mem == old(tables.shared.row)
      && CancelOk(at, read) && read.seen <= stamp <= at.now
      && var (sh', q') := CancelStep(at, read, stamp);
         if q'.pc.PublishIt? then answer == Ok(sh'.row) && tables.shared.row == sh'.row
         else answer == Err(ScanNotCancellable)
    ensures tenantId == tables.tenantId ==>
      && (answer.Ok? <==> !Terminal(read.mem.status) && at.row.status == read.mem.status)
      && (answer.Ok? ==> answer.value == at.row.(status := Cancelled, cancelledAt := Some(stamp)))
    ensures answer.Ok? ==>
      && tables.shared.row.status.Cancelled? && ScanCancelled in tables.shared.log
      && ScanCancelled in said.log && Revoked(said, tables.shared, old(tables.jobId))
  {
    var session := new Session(tables, None);
    var scans := new ScanRepository(session);
    said := tables.shared;
    var found := scans.GetById(tenantId);
    if found.None? { return Err(ScanNotFound), CancelRequest(Fetched, NOT_READ, 0), tables.shared, 0, said; }
    var jobId := tables.jobId;
    var cancelled;
    cancelled, read, at, stamp := TransitionToCancelled(cfg, session);
    if !cancelled { return Err(ScanNotCancellable), read, at, stamp, said; }
    answer := Ok(session.scan);
    PublishCancelled(cfg, tables);
    said := tables.shared;
    if jobId.Some? { RevokeJob(cfg, tables, jobId); }
  }

  /** `JobQueue.cancel`; that it fails is logged and changes nothing. */
  method RevokeJob(cfg: Config, tables: ScanTables, jobId: Option<nat>)
    requires SharedOk(cfg, tables.shared) && jobId.Some?
    modifies tables`shared
    ensures SharedOk(cfg, tables.shared) && Revoked(old(tables.shared), tables.shared, jobId)
  {
    var found: bool := *;
    if found && tables.shared.messages > 0 {
      MessagesShared(cfg, tables.shared, tables.shared.messages - 1);
      tables.shared := tables.shared.(messages := tables.shared.messages - 1);
    }
  }

  /** The state machine's transition; a stale or invalid one is the request's 409. */
  method TransitionToCancelled(cfg: Config, session: Session)
    returns (cancelled: bool, ghost read: CancelRequest, ghost at: Shared, ghost stamp: Time)
    requires session.unit == NOTHING_FLUSHED && session.actor == None
    requires session.scan == session.tables.shared.row && SharedOk(cfg, session.tables.shared)
    modifies session, session.tables
    ensures SharedOk(cfg, session.tables.shared)
    ensures read.pc.Fetched? && read.mem == old(session.tables.shared.row)
    ensures CancelOk(at, read) && read.seen <= stamp <= at.now
    ensures var (sh', q') := CancelStep(at, read, stamp);
      && (cancelled <==> q'.pc.PublishIt?)
      && (cancelled ==> session.tables.shared == sh' && session.scan == sh'.row && sh'.row.status.Cancelled?)
    ensures Granted(at, read, stamp)
  {
    var stateMachine := new ScanStateMachine(session);
    var now;
    read, now := TakeClock(cfg, session.tables);
    stamp, at := now, session.tables.shared;
    CancelCommits(cfg, at, read, stamp);
    var outcome := stateMachine.Transition(Cancelled, now);
    cancelled := outcome.Returned?;
  }

  /** By the time the event is out, others may have acted again; the row stays cancelled. */
  method PublishCancelled(cfg: Config, tables: ScanTables)
    requires SharedOk(cfg, tables.shared) && tables.shared.row.status.Cancelled?
    modifies tables`shared, tables`jobId
    ensures SharedOk(cfg, tables.shared)
    ensures tables.shared.row == old(tables.shared.row) && ScanCancelled in tables.shared.log
  {
    OthersAct(cfg, tables);
    CancelSaid(cfg, tables.shared);
    tables.shared := tables.shared.(log := tables.shared.log + [ScanCancelled]);
  }
}
