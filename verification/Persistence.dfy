/**
 The database as one scan sees it, the session through which one task or request
 works on it, and the repositories and state machine that write through a session.

 A session keeps one in-memory `Scan` (its identity map has one entry for the scan)
 and whatever it has flushed and not yet committed.  Nobody else sees the latter.
 */
module Persistence {
  import opened ScanModel
  import opened Protocol

  type TenantId = nat

  /** What a session has flushed: the scan's row, its outbox row, and how often it changed the status. */
  datatype Unit = Unit(row: Option<Scan>, pending: Option<Flushed>, moves: nat)

  const NOTHING_FLUSHED := Unit(None, None, 0)

  /**
   What a commit of `unit` leaves behind.  The history columns follow from the write:
   a row whose attempt moved on was claimed, and a row that became terminal was
   finished, by the run the session belongs to.
   */
  function Committed(sh: Shared, actor: Option<RunId>, unit: Unit): Shared {
    match unit.row
    case None => Commit(sh, unit.pending)
    case Some(row) =>
      Commit(sh.(
        row := row,
        changes := sh.changes + unit.moves,
        claims := if actor.Some? && row.attempt != sh.row.attempt then sh.claims[row.attempt := actor.value]
                  else sh.claims,
        finalizer := if actor.Some? && Terminal(row.status) then actor else sh.finalizer),
        unit.pending)
  }

  /** The committed rows of one scan: its own, its outbox rows, its events; `jobId` is what its last dispatch left. */
  class ScanTables {
    const tenantId: TenantId
    var present: bool
    var jobId: Option<nat>
    var shared: Shared

    /** A scan nobody has committed yet. */
    constructor Empty(tenantId: TenantId, now: Time)
      ensures this.tenantId == tenantId && !present && jobId.None?
      ensures shared == Shared(NewScan(1), map[], 0, [], 0, now, 0, map[], None, false, false)
    {
      this.tenantId := tenantId;
      present := false;
      jobId := None;
      shared := Shared(NewScan(1), map[], 0, [], 0, now, 0, map[], None, false, false);
    }
  }

  class Session {
    const tables: ScanTables
    const actor: Option<RunId>
    var scan: Scan
    var unit: Unit

    constructor (tables: ScanTables, actor: Option<RunId>)
      ensures this.tables == tables && this.actor == actor
      ensures unit == NOTHING_FLUSHED && scan == NOT_READ
    {
      this.tables := tables;
      this.actor := actor;
      scan := NOT_READ;
      unit := NOTHING_FLUSHED;
    }

    /** The row as this session's own statements see it. */
    function Row(): Scan
      reads this, tables
    {
      if unit.row.Some? then unit.row.value else tables.shared.row
    }

    method Commit()
      modifies this`unit, tables
      ensures tables.shared == Committed(old(tables.shared), actor, old(unit))
      ensures tables.present == (old(tables.present) || old(unit).row.Some?)
      ensures unit == NOTHING_FLUSHED
    {
      if unit.row.Some? { tables.present := true; }
      tables.shared := Committed(tables.shared, actor, unit);
      unit := NOTHING_FLUSHED;
    }

    method Rollback()
      modifies this`unit
      ensures unit == NOTHING_FLUSHED
    {
      unit := NOTHING_FLUSHED;
    }
  }

  class ScanRepository {
    const session: Session

    constructor (session: Session)
      ensures this.session == session
    {
      this.session := session;
    }

    method Create(maxAttempts: nat)
      modifies session`scan, session`unit
      ensures session.scan == NewScan(maxAttempts)
      ensures session.unit == old(session.unit).(row := Some(NewScan(maxAttempts)))
    {
      session.scan := NewScan(maxAttempts);
      session.unit := session.unit.(row := Some(NewScan(maxAttempts)));
    }

    /** `populate_existing`: the one in-memory scan is refreshed from the row. */
    method GetById(tenantId: TenantId) returns (found: Option<Scan>)
      modifies session`scan
      ensures found ==
        if tenantId == session.tables.tenantId && (session.tables.present || session.unit.row.Some?)
        then Some(session.Row()) else None
      ensures session.scan == if found.Some? then found.value else old(session.scan)
    {
      if tenantId != session.tables.tenantId || !(session.tables.present || session.unit.row.Some?) {
        return None;
      }
      session.scan := session.Row();
      found := Some(session.scan);
    }

    /** The status-guarded update: all of it, or nothing, or a CHECK refuses what it would write. */
    method ConditionalUpdate(expected: Status, data: ScanUpdate) returns (outcome: Outcome, updated: Option<Scan>)
      modifies session`scan, session`unit
      ensures var matched := ScanModel.ConditionalUpdate(old(session.Row()), expected, data);
        if matched.Some? && !Checks(matched.value) then outcome == Raised(CheckViolation) && updated.None?
        else outcome == Returned && updated == matched
      ensures updated.None? ==> session.scan == old(session.scan) && session.unit == old(session.unit)
      ensures updated.Some? ==>
        && session.scan == updated.value
        && session.unit == old(session.unit).(row := updated, moves := old(session.unit).moves + 1)
    {
      outcome, updated := Returned, None;
      var row := session.Row();
      if row.status != expected { return; }
      row := row.(status := data.status);
      if data.queuedAt.Some? { row := row.(queuedAt := data.queuedAt); }
      if data.startedAt.Some? { row := row.(startedAt := data.startedAt); }
      if data.completedAt.Some? { row := row.(completedAt := data.completedAt); }
      if data.failedAt.Some? { row := row.(failedAt := data.failedAt); }
      if data.cancelledAt.Some? { row := row.(cancelledAt := data.cancelledAt); }
      if data.timedOutAt.Some? { row := row.(timedOutAt := data.timedOutAt); }
      if !Checks(row) { return Raised(CheckViolation), None; }
      session.scan := row;
      session.unit := session.unit.(row := Some(row), moves := session.unit.moves + 1);
      updated := Some(row);
    }

    /** The claim: guarded by status and attempt, and the only writer of the attempt. */
    method ClaimForExecution(expectedAttempt: nat) returns (claimed: Option<Scan>)
      modifies session`scan, session`unit
      ensures claimed == Claim(old(session.Row()), expectedAttempt)
      ensures claimed.Some? <==> old(session.Row()).status == Queued && old(session.Row()).attempt == expectedAttempt
      ensures claimed.Some? ==>
        claimed.value == old(session.Row()).(status := Preparing, attempt := expectedAttempt + 1)
      ensures claimed.None? ==> session.scan == old(session.scan) && session.unit == old(session.unit)
      ensures claimed.Some? ==>
        && session.scan == claimed.value
        && session.unit == old(session.unit).(row := claimed, moves := old(session.unit).moves + 1)
    {
      var row := session.Row();
      if !row.status.Queued? || row.attempt != expectedAttempt { return None; }
      row := row.(status := Preparing, attempt := expectedAttempt + 1);
      session.scan := row;
      session.unit := session.unit.(row := Some(row), moves := session.unit.moves + 1);
      claimed := Some(row);
    }
  }

  class ScanOutboxRepository {
    const session: Session

    constructor (session: Session)
      ensures this.session == session
    {
      this.session := session;
    }

    /** Flush one outbox row; the unique constraint on the attempt may refuse it. */
    method Create(attempt: nat, countdown: real) returns (inserted: bool)
      requires session.unit.pending.None?
      modifies session`unit
      ensures inserted <==> attempt !in session.tables.shared.outbox
      ensures session.unit ==
        if inserted then old(session.unit).(pending := Some(Flushed(attempt, countdown))) else old(session.unit)
    {
      inserted := attempt !in session.tables.shared.outbox;
      if inserted {
        session.unit := session.unit.(pending := Some(Flushed(attempt, countdown)));
      }
    }
  }

  datatype Error =
    | PluginFault(fault: Fault)
    | Timeout
    | InvalidScanTransition
    | StaleScanState
    | CheckViolation

  /** How a call ends: it returns, or raises. */
  datatype Outcome = Returned | Raised(error: Error)

  class ScanStateMachine {
    const session: Session
    const scans: ScanRepository

    constructor (session: Session)
      ensures this.session == session && scans.session == session
      ensures fresh(scans)
    {
      this.session := session;
      scans := new ScanRepository(session);
    }

    method AssertValid(current: Status, target: Status) returns (outcome: Outcome)
      ensures outcome == if ValidEdge(current, target) then Returned else Raised(InvalidScanTransition)
    {
      outcome := if target in Targets(current) then Returned else Raised(InvalidScanTransition);
    }

    /**
     One transition: it moves the row and commits at once together with whatever else
     the session has flushed, or changes nothing at all.  `now` is the clock reading
     taken while the update is being put together.
     */
    method Transition(target: Status, now: Time) returns (outcome: Outcome)
      requires scans.session == session
      modifies session, session.tables
      ensures session.tables.present == (old(session.tables.present) || outcome.Returned?)
      ensures match TryTransition(old(session.Row()), old(session.scan), target, now)
        case InvalidEdge => outcome == Raised(InvalidScanTransition)
        case Stale => outcome == Raised(StaleScanState)
        case CheckFailed => outcome == Raised(CheckViolation)
        case Moved(row) =>
          && outcome == Returned
          && session.scan == row
          && session.unit == NOTHING_FLUSHED
          && var unit := old(session.unit);
             session.tables.shared == Committed(old(session.tables.shared), session.actor,
                                                unit.(row := Some(row), moves := unit.moves + 1))
      ensures outcome.Raised? ==>
        && session.scan == old(session.scan) && session.unit == old(session.unit)
        && session.tables.shared == old(session.tables.shared)
    {
      var scan := session.scan;
      outcome := AssertValid(scan.status, target);
      if outcome.Raised? { return; }

      var fields := ScanUpdate(target, None, None, None, None, None, None);
      match target {
        case Succeeded => fields := fields.(completedAt := Some(now));
        case Failed => fields := fields.(failedAt := Some(now));
        case Cancelled => fields := fields.(cancelledAt := Some(now));
        case TimedOut => fields := fields.(timedOutAt := Some(now));
        case _ =>
      }
      if target == Queued && scan.queuedAt == None { fields := fields.(queuedAt := Some(now)); }
      if target == Running && scan.startedAt == None { fields := fields.(startedAt := Some(now)); }

      var updated;
      outcome, updated := scans.ConditionalUpdate(scan.status, fields);
      if outcome.Raised? { return; }
      if updated.None? {
        return Raised(StaleScanState);
      }
      session.Commit();
      outcome := Returned;
    }
  }
}
