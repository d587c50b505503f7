/**
 The same theorems without history variables: what a history does is counted from its
 labels and the states they are taken in, and the history variables are shown to record it.
 */
module ProtocolLedger {
  import opened ScanModel
  import opened Retry
  import opened Protocol
  import opened ProtocolInvariant
  import opened ProtocolSlices
  import opened ProtocolTheorems

  // ----------------------------------------------------------------------- late stages

  /** Does the label begin plugin code, of `validate_config` or of a stage, on a cancelled scan? */
  predicate BeginsLate(s: Slice, l: Label) {
    && l.ActRun? && l.rid in s.runs && l.choice.act.Proceed? && s.sh.row.status.Cancelled?
    && (s.runs[l.rid].pc == Validating(false) || (s.runs[l.rid].pc.Plugin? && !s.runs[l.rid].pc.begun))
  }

  /** How often a history begins plugin code on a cancelled scan. */
  ghost function LateBegins(cfg: Config, s: Slice, labels: seq<Label>): nat
    requires Legal(cfg, s, labels)
    decreases |labels|
  {
    if labels == [] then 0
    else (if BeginsLate(s, labels[0]) then 1 else 0) + LateBegins(cfg, Step(cfg, s, labels[0]), labels[1..])
  }

  /** The runs of `s` have begun `n` late stages, all of them the same run. */
  ghost predicate LateSoFar(s: Slice, n: nat) {
    if n == 0 then forall rid :: rid in s.runs ==> s.runs[rid].lateStages == 0
    else exists rid :: rid in s.runs && s.runs[rid].lateStages == n
  }

  /** What a run's own step adds to what is recorded of it, of lost deliveries and of messages. */
  predicate Recorded(sh: Shared, r: Run, c: Choice, sh': Shared, r': Run) {
    && r'.cleanups == r.cleanups + (if r.pc.Cleanup? then 1 else 0)
    && r'.lateStages == r.lateStages
         + (if sh.row.status.Cancelled? && c.act.Proceed?
               && (r.pc == Validating(false) || (r.pc.Plugin? && !r.pc.begun)) then 1 else 0)
    && (sh'.lostDelivery <==> sh.lostDelivery || (r.pc == ReadQueued && c.act.Throw?))
    && sh'.messages == sh.messages
  }

  lemma EntryIsRecorded(cfg: Config, sh: Shared, rid: RunId, r: Run, c: Choice)
    requires r.pc.Delivered? || r.pc.ReadQueued? || r.pc.Claimed? || r.pc.Validating?
    requires RunEnabled(cfg, sh, r, c)
    ensures var (sh', r') := EntryStep(cfg, sh, rid, r, c); Recorded(sh, r, c, sh', r')
  {
  }

  lemma StageIsRecorded(cfg: Config, sh: Shared, rid: RunId, r: Run, c: Choice)
    requires InTimeoutBlock(r.pc) && RunEnabled(cfg, sh, r, c) && !c.act.Expire?
    ensures var (sh', r') := StageStep(sh, rid, r, c); Recorded(sh, r, c, sh', r')
  {
  }

  lemma MoveIsRecorded(sh: Shared, rid: RunId, r: Run, plan: Plan, c: Choice)
    requires HandlerCas(r.pc)
    ensures var (sh', r') := HandlerMove(sh, rid, r, plan, c.stamp); Recorded(sh, r, c, sh', r')
  {
  }

  lemma HandlerIsRecorded(cfg: Config, sh: Shared, rid: RunId, r: Run, c: Choice)
    requires InHandler(r.pc)
    ensures var (sh', r') := HandlerStep(cfg, sh, rid, r, c); Recorded(sh, r, c, sh', r')
  {
    if HandlerCas(r.pc) { MoveIsRecorded(sh, rid, r, PlanOf(r.pc), c); }
  }

  lemma ActIsRecorded(cfg: Config, sh: Shared, rid: RunId, r: Run, c: Choice)
    requires RunEnabled(cfg, sh, r, c)
    ensures var (sh', r') := RunStep(cfg, sh, rid, r, c); Recorded(sh, r, c, sh', r')
  {
    if c.act.Expire? {
    } else if InTimeoutBlock(r.pc) {
      StageIsRecorded(cfg, sh, rid, r, c);
    } else if InHandler(r.pc) {
      HandlerIsRecorded(cfg, sh, rid, r, c);
    } else if !r.pc.Cleanup? && !r.pc.Finish? {
      EntryIsRecorded(cfg, sh, rid, r, c);
    }
  }

  /** One step, and the late stages of one run. */
  lemma LateIsRecorded(cfg: Config, s: Slice, l: Label, rid: RunId)
    requires Enabled(cfg, s, l) && rid in Step(cfg, s, l).runs
    ensures var before := if rid in s.runs then s.runs[rid].lateStages else 0;
      Step(cfg, s, l).runs[rid].lateStages
        == before + if BeginsLate(s, l) && l.rid == rid then 1 else 0
  {
    if l.ActRun? { ActIsRecorded(cfg, s.sh, l.rid, s.runs[l.rid], l.choice); }
  }

  lemma RunsStay(cfg: Config, s: Slice, l: Label, rid: RunId)
    requires Enabled(cfg, s, l) && rid in s.runs
    ensures rid in Step(cfg, s, l).runs
  {
  }

  /** Every run of `after` has begun as many late stages as in `before`, but for `who`, which has begun one more. */
  ghost predicate OneMoreBegun(before: Slice, after: Slice, who: Option<RunId>) {
    && before.runs.Keys <= after.runs.Keys
    && (who.Some? ==> who.value in before.runs)
    && forall rid :: rid in after.runs ==>
         after.runs[rid].lateStages
           == (if rid in before.runs then before.runs[rid].lateStages else 0) + if who == Some(rid) then 1 else 0
  }

  lemma StepBegins(cfg: Config, s: Slice, l: Label)
    requires Enabled(cfg, s, l)
    ensures OneMoreBegun(s, Step(cfg, s, l), if BeginsLate(s, l) then Some(l.rid) else None)
  {
    forall rid | rid in s.runs ensures rid in Step(cfg, s, l).runs { RunsStay(cfg, s, l, rid); }
    forall rid | rid in Step(cfg, s, l).runs
      ensures Step(cfg, s, l).runs[rid].lateStages == (if rid in s.runs then s.runs[rid].lateStages else 0)
                + if BeginsLate(s, l) && l.rid == rid then 1 else 0
    {
      LateIsRecorded(cfg, s, l, rid);
    }
  }

  lemma LateStep(cfg: Config, before: Slice, after: Slice, who: Option<RunId>, n: nat)
    requires SliceOk(cfg, after) && OneMoreBegun(before, after, who) && LateSoFar(before, n)
    ensures LateSoFar(after, n + if who.Some? then 1 else 0)
  {
    if n > 0 {
      var rid :| rid in before.runs && before.runs[rid].lateStages == n;
      match who
      case None =>
      case Some(late) => LateRunsAgree(cfg, after, late, rid);
    }
  }

  lemma {:induction false} LateHistory(cfg: Config, s: Slice, labels: seq<Label>, n: nat)
    requires SliceOk(cfg, s) && Legal(cfg, s, labels) && LateSoFar(s, n)
    ensures LateSoFar(After(cfg, s, labels), n + LateBegins(cfg, s, labels))
    decreases |labels|
  {
    if labels != [] {
      var s' := Step(cfg, s, labels[0]);
      var k := LateNext(cfg, s, labels[0], n);
      LateHistory(cfg, s', labels[1..], k);
    }
  }

  lemma LateNext(cfg: Config, s: Slice, l: Label, n: nat) returns (k: nat)
    requires SliceOk(cfg, s) && Enabled(cfg, s, l) && LateSoFar(s, n)
    ensures k == n + if BeginsLate(s, l) then 1 else 0
    ensures SliceOk(cfg, Step(cfg, s, l)) && LateSoFar(Step(cfg, s, l), k)
  {
    k := n + if BeginsLate(s, l) then 1 else 0;
    StepOk(cfg, s, l);
    StepBegins(cfg, s, l);
    LateStep(cfg, s, Step(cfg, s, l), if BeginsLate(s, l) then Some(l.rid) else None, n);
  }

  /** In the whole history of a scan, whatever its runs do, plugin code is begun at most once after a cancel. */
  lemma OneLateStage(cfg: Config, maxAttempts: nat, now: Time, labels: seq<Label>)
    requires 1 <= maxAttempts && Legal(cfg, Created(maxAttempts, now), labels)
    ensures LateBegins(cfg, Created(maxAttempts, now), labels) <= 1
  {
    var s := Created(maxAttempts, now);
    CreatedOk(cfg, maxAttempts, now);
    LateHistory(cfg, s, labels, 0);
    HistoryOk(cfg, s, labels);
    var s', n := After(cfg, s, labels), LateBegins(cfg, s, labels);
    if n > 0 {
      var rid :| rid in s'.runs && s'.runs[rid].lateStages == n;
      LateRunsAgree(cfg, s', rid, rid);
    }
  }

  // ------------------------------------------------------------------- lost deliveries

  /**
   Does the label lose a delivery: kill a run that has taken a message and has neither
   claimed the scan, nor failed it, nor left it alone, or have its plugin's factory raise?
   */
  predicate LosesDelivery(s: Slice, l: Label) {
    || (l.KillRun? && l.rid in s.runs
        && s.runs[l.rid].pc in {Delivered, ReadQueued, FailCas(Unregistered)})
    || (l.ActRun? && l.rid in s.runs && s.runs[l.rid].pc == ReadQueued && l.choice.act.Throw?)
  }

  ghost predicate NeverLoses(cfg: Config, s: Slice, labels: seq<Label>)
    requires Legal(cfg, s, labels)
    decreases |labels|
  {
    labels == [] || (!LosesDelivery(s, labels[0]) && NeverLoses(cfg, Step(cfg, s, labels[0]), labels[1..]))
  }

  lemma LossIsRecorded(cfg: Config, s: Slice, l: Label)
    requires Enabled(cfg, s, l)
    ensures Step(cfg, s, l).sh.lostDelivery <==> s.sh.lostDelivery || LosesDelivery(s, l)
  {
    if l.ActRun? { ActIsRecorded(cfg, s.sh, l.rid, s.runs[l.rid], l.choice); }
  }

  lemma {:induction false} LossesAreRecorded(cfg: Config, s: Slice, labels: seq<Label>)
    requires Legal(cfg, s, labels)
    ensures After(cfg, s, labels).sh.lostDelivery <==> s.sh.lostDelivery || !NeverLoses(cfg, s, labels)
    decreases |labels|
  {
    if labels != [] {
      LossIsRecorded(cfg, s, labels[0]);
      LossesAreRecorded(cfg, Step(cfg, s, labels[0]), labels[1..]);
    }
  }

  /** In every history that loses no delivery before its claim, a QUEUED scan is on its way to a worker. */
  lemma NothingLostNoWaiting(cfg: Config, maxAttempts: nat, now: Time, labels: seq<Label>)
    requires 1 <= maxAttempts && Legal(cfg, Created(maxAttempts, now), labels)
    requires NeverLoses(cfg, Created(maxAttempts, now), labels)
    ensures var s := After(cfg, Created(maxAttempts, now), labels);
      s.sh.row.status.Queued? ==>
        || (s.sh.row.attempt in s.sh.outbox && !s.sh.outbox[s.sh.row.attempt].published
            && !SentFor(s, s.sh.row.attempt))
        || s.sh.messages > 0
        || exists rid ::
             && rid in s.runs
             && var r := s.runs[rid];
                || r.pc == Delivered
                || (r.pc == ReadQueued && r.mem.attempt == s.sh.row.attempt)
                || (r.pc == FailCas(Unregistered) && !StartedAfter(s.sh.row, r.seen))
  {
    LossesAreRecorded(cfg, Created(maxAttempts, now), labels);
    var s := After(cfg, Created(maxAttempts, now), labels);
    assert Reachable(cfg, s);
    if s.sh.row.status.Queued? { NoLostWakeUp(cfg, s); }
  }

  // -------------------------------------------------------------------------- messages

  ghost function Count(labels: seq<Label>, what: Label -> bool): nat {
    if labels == [] then 0 else (if what(labels[0]) then 1 else 0) + Count(labels[1..], what)
  }

  /** A message is put on the queue by a dispatcher's send or by the queue itself, and leaves it once. */
  lemma MessageStep(cfg: Config, s: Slice, l: Label)
    requires Enabled(cfg, s, l)
    ensures Step(cfg, s, l).sh.messages + (if l.Deliver? || l.Revoke? then 1 else 0)
      == s.sh.messages + (if l.Duplicate? || (l.Send? && l.ok) then 1 else 0)
  {
    if l.ActRun? { ActIsRecorded(cfg, s.sh, l.rid, s.runs[l.rid], l.choice); }
  }

  lemma EnvStarts(cfg: Config, s: Slice, l: Label)
    requires Enabled(cfg, s, l) && !l.ActRun?
    ensures EnvStep(cfg, s, l).runs.Keys == s.runs.Keys + (if l.Deliver? then {l.rid} else {})
  {
  }

  lemma ActStartsNone(cfg: Config, s: Slice, l: Label)
    requires Enabled(cfg, s, l) && l.ActRun?
    ensures Step(cfg, s, l).runs.Keys == s.runs.Keys
  {
    var r' := RunStep(cfg, s.sh, l.rid, s.runs[l.rid], l.choice).1;
    assert Step(cfg, s, l).runs == s.runs[l.rid := r'];
  }

  lemma RunStarts(cfg: Config, s: Slice, l: Label)
    requires Enabled(cfg, s, l)
    ensures |Step(cfg, s, l).runs.Keys| == |s.runs.Keys| + (if l.Deliver? then 1 else 0)
  {
    if l.ActRun? { ActStartsNone(cfg, s, l); } else { EnvStarts(cfg, s, l); }
  }

  /**
   Messages are conserved over every history: what was sent or duplicated is on the queue,
   was delivered, or was revoked; and there is one run for each delivery.
   */
  lemma {:induction false} MessagesAreConserved(cfg: Config, s: Slice, labels: seq<Label>)
    requires Legal(cfg, s, labels)
    ensures var s' := After(cfg, s, labels);
      && s'.sh.messages + Count(labels, (l: Label) => l.Deliver?) + Count(labels, (l: Label) => l.Revoke?)
         == s.sh.messages + Count(labels, (l: Label) => l.Duplicate?) + Count(labels, (l: Label) => l.Send? && l.ok)
      && |s'.runs.Keys| == |s.runs.Keys| + Count(labels, (l: Label) => l.Deliver?)
    decreases |labels|
  {
    if labels != [] {
      MessageStep(cfg, s, labels[0]);
      RunStarts(cfg, s, labels[0]);
      MessagesAreConserved(cfg, Step(cfg, s, labels[0]), labels[1..]);
    }
  }

  // ------------------------------------------------------------------------ outbox rows

  predicate Holds(s: Slice, did: DispatcherId, d: Dispatcher) {
    did in s.dispatchers && s.dispatchers[did] == d
  }

  /** Row `a` in `before` and `after` a step: only dispatchers write it. */
  predicate RowRecorded(s: Slice, l: Label, a: nat, after: Shared) {
    a in s.sh.outbox ==>
      var row := s.sh.outbox[a];
      && a in after.outbox
      && after.outbox[a] == row.(
           sends := row.sends + (if l.Send? && l.ok && Holds(s, l.did, Locked(a)) then 1 else 0),
           attemptCount := row.attemptCount
             + (if l.Record? && (Holds(s, l.did, Sent(a)) || Holds(s, l.did, Refused(a))) then 1 else 0),
           published := row.published || (l.Record? && Holds(s, l.did, Sent(a))),
           deaths := row.deaths + (if l.KillDispatcher? && Holds(s, l.did, Sent(a)) then 1 else 0))
  }

  lemma EnvRecordsRow(cfg: Config, s: Slice, l: Label, a: nat)
    requires Enabled(cfg, s, l) && !l.ActRun?
    ensures RowRecorded(s, l, a, EnvStep(cfg, s, l).sh)
  {
  }

  /** What a step does to an outbox row that is there. */
  lemma RowIsRecorded(cfg: Config, s: Slice, l: Label, a: nat)
    requires SliceOk(cfg, s) && Enabled(cfg, s, l)
    ensures RowRecorded(s, l, a, Step(cfg, s, l).sh)
  {
    if !l.ActRun? {
      EnvRecordsRow(cfg, s, l, a);
    } else if a in s.sh.outbox {
      assert RunOk(cfg, s.sh, l.rid, s.runs[l.rid]);
      RunsKeepRows(cfg, s.sh, l.rid, s.runs[l.rid], l.choice, a);
    }
  }

  lemma RunsKeepRows(cfg: Config, sh: Shared, rid: RunId, r: Run, c: Choice, a: nat)
    requires SharedOk(cfg, sh) && RunOk(cfg, sh, rid, r) && RunEnabled(cfg, sh, r, c) && a in sh.outbox
    ensures a in RunStep(cfg, sh, rid, r, c).0.outbox && RunStep(cfg, sh, rid, r, c).0.outbox[a] == sh.outbox[a]
  {
    PendingIsNew(cfg, sh, rid, r);
    if c.act.Expire? {
    } else if InTimeoutBlock(r.pc) {
      StageKeepsRows(sh, rid, r, c, a);
    } else if InHandler(r.pc) {
      HandlerKeepsRows(cfg, sh, rid, r, c, a);
    }
  }

  lemma PendingIsNew(cfg: Config, sh: Shared, rid: RunId, r: Run)
    requires SharedOk(cfg, sh) && RunOk(cfg, sh, rid, r)
    ensures r.pending.Some? ==>
      || r.pending.value.attempt !in sh.outbox
      || ((r.pc.Cleanup? || r.pc.Finish?) && r.pc.raised)
  {
  }

  lemma StageKeepsRows(sh: Shared, rid: RunId, r: Run, c: Choice, a: nat)
    requires InTimeoutBlock(r.pc) && a in sh.outbox
    requires r.pending.Some? ==> r.pending.value.attempt !in sh.outbox
    ensures var sh' := StageStep(sh, rid, r, c).0; a in sh'.outbox && sh'.outbox[a] == sh.outbox[a]
  {
  }

  lemma HandlerKeepsRows(cfg: Config, sh: Shared, rid: RunId, r: Run, c: Choice, a: nat)
    requires InHandler(r.pc) && a in sh.outbox
    requires r.pending.Some? ==> r.pending.value.attempt !in sh.outbox
    ensures var sh' := HandlerStep(cfg, sh, rid, r, c).0; a in sh'.outbox && sh'.outbox[a] == sh.outbox[a]
  {
  }
}
