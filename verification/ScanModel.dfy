/**
 The `Scan` row, the edge table of its state machine, and the three ways a row
 is written: an insert, a conditional update guarded by the status, and a claim
 guarded by status and attempt.  Both the step relation of `Protocol` and the
 classes of `Persistence` are written in terms of these functions.
 */
module ScanModel {

  datatype Option<+T> = None | Some(value: T)

  /** Seconds on one monotone clock. */
  type Time = nat

  datatype Status =
    | Pending | Queued
    | Preparing | Running | Collecting | Processing
    | Succeeded | Failed | Cancelled | TimedOut

  predicate Terminal(s: Status) {
    s.Succeeded? || s.Failed? || s.Cancelled? || s.TimedOut?
  }

  predicate Active(s: Status) {
    s.Preparing? || s.Running? || s.Collecting? || s.Processing?
  }

  /** The edge table of the scan state machine. */
  function Targets(current: Status): set<Status> {
    match current
    case Pending => {Queued, Cancelled}
    case Queued => {Preparing, Cancelled, Failed}
    case Preparing => {Running, Queued, Cancelled, Failed, TimedOut}
    case Running => {Collecting, Queued, Cancelled, Failed, TimedOut}
    case Collecting => {Processing, Queued, Cancelled, Failed, TimedOut}
    case Processing => {Succeeded, Failed, Cancelled}
    case _ => {}
  }

  predicate ValidEdge(current: Status, target: Status) {
    target in Targets(current)
  }

  /**
   The table read the other way, as the documentation has it: how each status is reached.
   A terminal status is never left; PROCESSING has no way back to QUEUED and none to TIMED_OUT.
   */
  lemma EdgesByTarget(current: Status)
    ensures ValidEdge(current, Queued)
      <==> current in {Pending, Preparing, Running, Collecting}
    ensures ValidEdge(current, Preparing) <==> current == Queued
    ensures ValidEdge(current, Running) <==> current == Preparing
    ensures ValidEdge(current, Collecting) <==> current == Running
    ensures ValidEdge(current, Processing) <==> current == Collecting
    ensures ValidEdge(current, Succeeded) <==> current == Processing
    ensures ValidEdge(current, Failed) <==> current in {Queued, Preparing, Running, Collecting, Processing}
    ensures ValidEdge(current, Cancelled) <==> !Terminal(current)
    ensures ValidEdge(current, TimedOut) <==> current in {Preparing, Running, Collecting}
    ensures !ValidEdge(current, Pending)
  {
  }

  datatype Scan = Scan(
    status: Status,
    attempt: nat,
    maxAttempts: nat,
    queuedAt: Option<Time>,
    startedAt: Option<Time>,
    completedAt: Option<Time>,
    failedAt: Option<Time>,
    cancelledAt: Option<Time>,
    timedOutAt: Option<Time>)

  /** The row `ScanRepository.create` inserts. */
  function NewScan(maxAttempts: nat): Scan {
    Scan(Pending, 0, maxAttempts, None, None, None, None, None, None)
  }

  /** The fields one transition writes; `None` leaves the column as it is. */
  datatype ScanUpdate = ScanUpdate(
    status: Status,
    queuedAt: Option<Time>,
    startedAt: Option<Time>,
    completedAt: Option<Time>,
    failedAt: Option<Time>,
    cancelledAt: Option<Time>,
    timedOutAt: Option<Time>)

  /**
   What `transition` decides to write, from the caller's in-memory copy `mem`
   (never from the row) and the clock reading `now`.
   */
  function UpdateFields(mem: Scan, target: Status, now: Time): ScanUpdate {
    ScanUpdate(
      target,
      if target.Queued? && mem.queuedAt.None? then Some(now) else None,
      if target.Running? && mem.startedAt.None? then Some(now) else None,
      if target.Succeeded? then Some(now) else None,
      if target.Failed? then Some(now) else None,
      if target.Cancelled? then Some(now) else None,
      if target.TimedOut? then Some(now) else None)
  }

  function Written(column: Option<Time>, update: Option<Time>): Option<Time> {
    if update.Some? then update else column
  }

  function Apply(row: Scan, u: ScanUpdate): Scan {
    Scan(
      u.status, row.attempt, row.maxAttempts,
      Written(row.queuedAt, u.queuedAt),
      Written(row.startedAt, u.startedAt),
      Written(row.completedAt, u.completedAt),
      Written(row.failedAt, u.failedAt),
      Written(row.cancelledAt, u.cancelledAt),
      Written(row.timedOutAt, u.timedOutAt))
  }

  /** `UPDATE ... WHERE status = expected`; `None` is "zero rows matched". */
  function ConditionalUpdate(row: Scan, expected: Status, u: ScanUpdate): Option<Scan> {
    if row.status == expected then Some(Apply(row, u)) else None
  }

  /** `UPDATE ... WHERE status = 'QUEUED' AND attempt = expectedAttempt`. */
  function Claim(row: Scan, expectedAttempt: nat): Option<Scan> {
    if row.status.Queued? && row.attempt == expectedAttempt
    then Some(row.(status := Preparing, attempt := expectedAttempt + 1))
    else None
  }

  function SetCount(t: Option<Time>): nat {
    if t.Some? then 1 else 0
  }

  /** The table's CHECK constraints on the timestamps of a row. */
  predicate Checks(row: Scan) {
    && (row.startedAt.Some? && row.queuedAt.Some? ==> row.startedAt.value >= row.queuedAt.value)
    && (row.completedAt.Some? && row.startedAt.Some? ==> row.completedAt.value >= row.startedAt.value)
    && (row.failedAt.Some? && row.startedAt.Some? ==> row.failedAt.value >= row.startedAt.value)
    && (row.timedOutAt.Some? && row.startedAt.Some? ==> row.timedOutAt.value >= row.startedAt.value)
    && SetCount(row.completedAt) + SetCount(row.failedAt) + SetCount(row.cancelledAt) + SetCount(row.timedOutAt) <= 1
    && 1 <= row.maxAttempts
  }

  /** Why a transition moves nothing, or what it makes of the row; `CheckFailed` is the table refusing it. */
  datatype Transition = InvalidEdge | Stale | CheckFailed | Moved(row: Scan)

  /** The whole of `ScanStateMachine.transition`, as a decision about one row. */
  function TryTransition(row: Scan, mem: Scan, target: Status, now: Time): Transition {
    if !ValidEdge(mem.status, target) then InvalidEdge
    else
      match ConditionalUpdate(row, mem.status, UpdateFields(mem, target, now))
      case None => Stale
      case Some(updated) => if Checks(updated) then Moved(updated) else CheckFailed
  }

  /** The creation transaction: insert, outbox row, PENDING -> QUEUED, one commit. */
  function QueuedScan(maxAttempts: nat, now: Time): Scan {
    NewScan(maxAttempts).(status := Queued, queuedAt := Some(now))
  }

  /**
   How many more status changes a row can make: four for every attempt still to
   come, and the rank of the stage inside the current one.
   */
  function Remaining(row: Scan): nat
    requires row.attempt <= row.maxAttempts
  {
    4 * (row.maxAttempts - row.attempt) + Rank(row.status)
  }

  function Rank(s: Status): nat {
    match s
    case Pending => 2
    case Queued => 1
    case Preparing => 4
    case Running => 3
    case Collecting => 2
    case Processing => 1
    case _ => 0
  }

  /** The lexicographic measure: attempts left first, then the stage rank. */
  predicate Below(after: Scan, before: Scan) {
    || after.maxAttempts - after.attempt < before.maxAttempts - before.attempt
    || (after.attempt == before.attempt && after.maxAttempts == before.maxAttempts
        && Rank(after.status) < Rank(before.status))
  }

  /**
   The guard makes a transition sound: what it moves is exactly a row still in
   the state the caller believed it was in, along an edge of the table, and it
   touches neither the attempt nor any stamp already written by an earlier one.  What
   a CHECK refuses is a stamp that lies before the row's own start, and nothing else.
   */
  lemma TransitionEffect(row: Scan, mem: Scan, target: Status, now: Time)
    ensures TryTransition(row, mem, target, now).Moved? || TryTransition(row, mem, target, now).CheckFailed?
      <==> ValidEdge(row.status, target) && row.status == mem.status
    ensures TryTransition(row, mem, target, now).InvalidEdge? <==> !ValidEdge(mem.status, target)
    ensures match TryTransition(row, mem, target, now)
      case InvalidEdge => !ValidEdge(mem.status, target)
      case Stale => row.status != mem.status
      case CheckFailed => !Checks(Apply(row, UpdateFields(mem, target, now)))
      case Moved(r) =>
        && r.status == target
        && (target.Succeeded? ==> r == row.(status := target, completedAt := Some(now)))
        && (target.Failed? ==> r == row.(status := target, failedAt := Some(now)))
        && (target.Cancelled? ==> r == row.(status := target, cancelledAt := Some(now)))
        && (target.TimedOut? ==> r == row.(status := target, timedOutAt := Some(now)))
        && (target.Running? && mem.startedAt.None? ==> r == row.(status := target, startedAt := Some(now)))
        && (target.Running? && mem.startedAt.Some? ==> r == row.(status := target))
        && (target.Queued? && mem.queuedAt.None? ==> r == row.(status := target, queuedAt := Some(now)))
        && (target.Queued? && mem.queuedAt.Some? ==> r == row.(status := target))
        && (target.Collecting? || target.Processing? || target.Preparing? ==> r == row.(status := target))
        && r.attempt == row.attempt && r.maxAttempts == row.maxAttempts
        && (mem.queuedAt.Some? ==> r.queuedAt == row.queuedAt)
        && (mem.startedAt.Some? || !target.Running? ==> r.startedAt == row.startedAt)
        && (row.attempt <= row.maxAttempts && !target.Preparing? ==>
            Below(r, row) && Remaining(r) < Remaining(row))
  {
  }
}
