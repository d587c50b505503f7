/**
 The one order of timestamps the code does not keep.  A cancel request takes its clock
 reading before its update reaches the row; if the scan is started and comes back to the
 status the request read in between, the update still matches, and `cancelled_at` lies
 before `started_at`.  Whether that can happen shows in what the request has read.
 */
module ProtocolStamps {
  import opened ScanModel
  import opened Retry
  import opened Protocol
  import opened ProtocolInvariant
  import opened ProtocolRuns
  import opened ProtocolSlices
  import opened ProtocolTheorems
  import opened ProtocolOutcomes
  import opened ProtocolWitnesses

  predicate StartedBeforeCancelled(row: Scan) {
    row.startedAt.Some? && row.cancelledAt.Some? ==> row.startedAt.value <= row.cancelledAt.value
  }

  /** A request that has read `mem` cancels the scan at `stamp` and leaves its stamps in the wrong order. */
  ghost predicate Breaks(cfg: Config, s: Slice, cid: CancelId, stamp: Time, mem: Scan) {
    && Reachable(cfg, s) && Enabled(cfg, s, ActCancel(cid, stamp))
    && s.cancels[cid].pc.Fetched? && s.cancels[cid].mem == mem
    && var s' := Step(cfg, s, ActCancel(cid, stamp));
       s'.cancels[cid].pc.PublishIt? && !StartedBeforeCancelled(s'.sh.row)
  }

  ghost predicate CanBreak(cfg: Config, mem: Scan) {
    exists s, cid, stamp :: Breaks(cfg, s, cid, stamp, mem)
  }

  ghost predicate Readable(cfg: Config, mem: Scan) {
    exists s :: Reachable(cfg, s) && s.sh.row == mem
  }

  /** Can a scan read in this state be started and then be in the same status again? */
  predicate CanComeBack(mem: Scan) {
    && mem.startedAt.None?
    && ((mem.status.Queued? && mem.attempt + 1 < mem.maxAttempts)
        || (mem.status.Preparing? && mem.attempt < mem.maxAttempts))
  }

  // ------------------------------------------------------------------- the safe reads

  /** Whatever happens between the read and the update, a read that cannot come back is safe. */
  lemma CancelKeepsOrder(cfg: Config, s: Slice, cid: CancelId, stamp: Time)
    requires Reachable(cfg, s) && Enabled(cfg, s, ActCancel(cid, stamp))
    requires s.cancels[cid].pc.Fetched?
    requires !CanComeBack(s.cancels[cid].mem) || s.sh.row.startedAt == s.cancels[cid].mem.startedAt
    ensures var s' := Step(cfg, s, ActCancel(cid, stamp));
      s'.cancels[cid].pc.PublishIt? ==> StartedBeforeCancelled(s'.sh.row)
  {
    ReachableOk(cfg, s);
    assert CancelOk(s.sh, s.cancels[cid]);
    assert RowOk(s.sh.row);
  }

  lemma BlockNeverCancels(sh: Shared, rid: RunId, r: Run, c: Choice)
    requires InTimeoutBlock(r.pc) && !sh.row.status.Cancelled?
    ensures !StageStep(sh, rid, r, c).0.row.status.Cancelled?
  {
  }

  lemma HandlerCancels(cfg: Config, sh: Shared, rid: RunId, r: Run, c: Choice)
    requires InHandler(r.pc) && !r.pc.CancelCas? && !sh.row.status.Cancelled?
    ensures !HandlerStep(cfg, sh, rid, r, c).0.row.status.Cancelled?
  {
  }

  lemma OnlyCancelCasCancels(cfg: Config, sh: Shared, rid: RunId, r: Run, c: Choice)
    requires RunEnabled(cfg, sh, r, c) && !r.pc.CancelCas? && !sh.row.status.Cancelled?
    ensures !RunStep(cfg, sh, rid, r, c).0.row.status.Cancelled?
  {
    if c.act.Expire? {
    } else if InTimeoutBlock(r.pc) {
      BlockNeverCancels(sh, rid, r, c);
    } else if InHandler(r.pc) {
      HandlerCancels(cfg, sh, rid, r, c);
    }
  }

  lemma CancelCasKeepsOrder(cfg: Config, sh: Shared, rid: RunId, r: Run, c: Choice)
    requires RunOk(cfg, sh, rid, r) && RunEnabled(cfg, sh, r, c) && r.pc.CancelCas?
    requires StartedBeforeCancelled(sh.row)
    ensures StartedBeforeCancelled(RunStep(cfg, sh, rid, r, c).0.row)
  {
    assert Owned(sh, rid, r);
  }

  lemma RunsKeepOrder(cfg: Config, sh: Shared, rid: RunId, r: Run, c: Choice)
    requires SharedOk(cfg, sh) && RunOk(cfg, sh, rid, r) && RunEnabled(cfg, sh, r, c)
    requires StartedBeforeCancelled(sh.row)
    ensures StartedBeforeCancelled(RunStep(cfg, sh, rid, r, c).0.row)
  {
    if r.pc.CancelCas? {
      CancelCasKeepsOrder(cfg, sh, rid, r, c);
    } else {
      RunStepKeeps(cfg, sh, rid, r, c);
      if !sh.row.status.Cancelled? { OnlyCancelCasCancels(cfg, sh, rid, r, c); }
    }
  }

  /** Nobody but a cancel request ever breaks the order. */
  lemma OnlyRequestsBreak(cfg: Config, s: Slice, l: Label)
    requires Reachable(cfg, s) && Enabled(cfg, s, l) && StartedBeforeCancelled(s.sh.row)
    requires !l.ActCancel?
    ensures StartedBeforeCancelled(Step(cfg, s, l).sh.row)
  {
    ReachableOk(cfg, s);
    if l.ActRun? {
      assert RunOk(cfg, s.sh, l.rid, s.runs[l.rid]);
      RunsKeepOrder(cfg, s.sh, l.rid, s.runs[l.rid], l.choice);
    }
  }

  // ----------------------------------------------------------- a history for the others

  lemma Arrives(cfg: Config, s: Slice, cid: CancelId, stamp: Time)
    requires Reachable(cfg, s) && Enabled(cfg, s, ActCancel(cid, stamp)) && s.cancels[cid].pc.Fetched?
    requires s.sh.row.status == s.cancels[cid].mem.status
    requires s.sh.row.status.Queued? || s.sh.row.status.Preparing?
    requires s.sh.row.startedAt.Some? && stamp < s.sh.row.startedAt.value
    ensures Breaks(cfg, s, cid, stamp, s.cancels[cid].mem)
  {
    ReachableOk(cfg, s);
  }

  /** Read QUEUED, claimed, started, failed, QUEUED again. */
  lemma QueuedBreaks(cfg: Config, delays: nat -> real, q: Time, m: nat, a: nat) returns (s: Slice)
    requires Draws(cfg, delays) && a + 1 < m
    ensures Breaks(cfg, s, 0, q, Row(Queued, a, m, q, None))
    ensures s.sh.row == Row(Queued, a + 1, m, q, Some(q + 1))
  {
    var n;
    var mem := Row(Queued, a, m, q, None);
    s, n := Climbs(cfg, delays, q, m, a);
    s := ReadsIdle(cfg, s, q, n, mem);
    var still := Reader(mem, q);
    s := TicksIdle(cfg, s, q, n, still, mem);
    s := Claims(cfg, s, q + 1, n, still, mem);
    s := StartsInVain(cfg, delays, s, q + 1, n, still, Row(Preparing, a + 1, m, q, None));
    Arrives(cfg, s, 0, q);
  }

  /** Read PREPARING, started, failed, requeued, claimed: PREPARING again. */
  lemma PreparingBreaks(cfg: Config, delays: nat -> real, q: Time, m: nat, a: nat) returns (s: Slice)
    requires Draws(cfg, delays) && 1 <= a < m
    ensures Breaks(cfg, s, 0, q, Row(Preparing, a, m, q, None))
  {
    var n;
    var mem := Row(Preparing, a, m, q, None);
    s, n := Climbs(cfg, delays, q, m, a - 1);
    s := Claims(cfg, s, q, n, NOBODY, Row(Queued, a - 1, m, q, None));
    s := Reads(cfg, s, q, n, Claimed, mem);
    var still := Reader(mem, q);
    s := Ticks(cfg, s, q, n, still, Claimed, mem);
    s := StartsInVain(cfg, delays, s, q + 1, n, still, mem);
    s := Claims(cfg, s, q + 1, n + 1, still, Row(Queued, a, m, q, Some(q + 1)));
    Arrives(cfg, s, 0, q);
  }

  /** A row that is waiting or preparing and was never started carries no other stamp. */
  lemma ReadableRow(cfg: Config, mem: Scan)
    requires Readable(cfg, mem) && CanComeBack(mem)
    ensures mem.queuedAt.Some? && mem == Row(mem.status, mem.attempt, mem.maxAttempts, mem.queuedAt.value, None)
    ensures mem.status.Preparing? ==> 1 <= mem.attempt
  {
    var s :| Reachable(cfg, s) && s.sh.row == mem;
    ReachableOk(cfg, s);
  }

  /**
   Exactly which cancels can put `cancelled_at` before `started_at`: those of a scan that
   was read before its first start, QUEUED with a further attempt left after the coming
   one, or PREPARING with a further attempt left.
   */
  lemma CancelOrderExactly(cfg: Config, delays: nat -> real, mem: Scan)
    requires Draws(cfg, delays) && Readable(cfg, mem)
    ensures CanBreak(cfg, mem) <==> CanComeBack(mem)
  {
    if CanComeBack(mem) {
      ReadableRow(cfg, mem);
      var s;
      if mem.status.Queued? {
        s := QueuedBreaks(cfg, delays, mem.queuedAt.value, mem.maxAttempts, mem.attempt);
      } else {
        s := PreparingBreaks(cfg, delays, mem.queuedAt.value, mem.maxAttempts, mem.attempt);
      }
      assert Breaks(cfg, s, 0, mem.queuedAt.value, mem);
    } else if CanBreak(cfg, mem) {
      var s, cid, stamp :| Breaks(cfg, s, cid, stamp, mem);
      CancelKeepsOrder(cfg, s, cid, stamp);
    }
  }

  /** The smallest instance: two attempts, one of them started in second 1, and a cancel stamped 0. */
  lemma CancelCanPrecedeStart() returns (cfg: Config, s: Slice)
    ensures Reachable(cfg, s)
    ensures s.sh.row.status.Cancelled? && s.sh.row.cancelledAt == Some(0) && s.sh.row.startedAt == Some(1)
    ensures !StartedBeforeCancelled(s.sh.row)
  {
    cfg := Config((attempt: nat, delay: real) => delay == 0.0);
    s := QueuedBreaks(cfg, attempt => 0.0, 0, 2, 0);
    s := Go(cfg, s, ActCancel(0, 0));
  }

  // ------------------------------------------ writers that check the status and nothing else

  /**
   A cancel request that has read the scan QUEUED checks the status only.  Its update
   matches exactly a QUEUED row, and that is the row it read or a later attempt.
   */
  lemma CancelHits(cfg: Config, s: Slice, cid: CancelId, stamp: Time)
    requires Reachable(cfg, s) && Enabled(cfg, s, ActCancel(cid, stamp))
    requires s.cancels[cid].pc.Fetched? && s.cancels[cid].mem.status.Queued?
    ensures var mem := s.cancels[cid].mem;
      && (Step(cfg, s, ActCancel(cid, stamp)).sh.row != s.sh.row <==> s.sh.row.status.Queued?)
      && (s.sh.row.status.Queued? ==> s.sh.row == mem || mem.attempt < s.sh.row.attempt < mem.maxAttempts)
  {
    ReachableOk(cfg, s);
    assert CancelOk(s.sh, s.cancels[cid]);
  }

  /**
   So does the transition to FAILED of a worker that does not know the scanner.  It moves
   exactly a QUEUED row, the one it read or a later attempt; but if the scan has been
   started in between, later than the stamp it writes, a CHECK refuses the update and the
   worker task fails.
   */
  lemma UnregisteredHits(cfg: Config, s: Slice, rid: RunId, c: Choice)
    requires Reachable(cfg, s) && Enabled(cfg, s, ActRun(rid, c)) && s.runs[rid].pc == FailCas(Unregistered)
    ensures var mem, s' := s.runs[rid].mem, Step(cfg, s, ActRun(rid, c));
      && (s'.sh.row != s.sh.row <==> s.sh.row.status.Queued? && !StartedAfter(s.sh.row, c.stamp))
      && (s'.sh.row != s.sh.row ==> s'.sh.row == s.sh.row.(status := Failed, failedAt := Some(c.stamp)))
      && (s'.sh.row == s.sh.row ==> s'.runs[rid].pc == Finish(true))
      && (s.sh.row.status.Queued? ==> s.sh.row == mem || mem.attempt < s.sh.row.attempt < mem.maxAttempts)
      && (s.sh.row.status.Queued? && StartedAfter(s.sh.row, c.stamp) ==> mem.startedAt.None? && s.sh.row != mem)
  {
    ReachableOk(cfg, s);
    assert RunOk(cfg, s.sh, rid, s.runs[rid]);
    UnregisteredStep(cfg, s.sh, rid, s.runs[rid], c);
    if s.sh.row.status.Queued? { ReadBefore(s.sh.row, s.runs[rid].mem); }
  }

  lemma UnregisteredStep(cfg: Config, sh: Shared, rid: RunId, r: Run, c: Choice)
    requires SharedOk(cfg, sh) && RunOk(cfg, sh, rid, r) && RunEnabled(cfg, sh, r, c)
    requires r.pc == FailCas(Unregistered)
    ensures var (sh', r') := RunStep(cfg, sh, rid, r, c);
      if sh.row.status.Queued? && !StartedAfter(sh.row, c.stamp) then
        sh'.row == sh.row.(status := Failed, failedAt := Some(c.stamp))
      else sh'.row == sh.row && r'.pc == Finish(true)
  {
    RefusedExactly(cfg, sh, rid, r, c.stamp);
  }

  /** What a reader of a QUEUED row may find, if it is QUEUED again. */
  lemma ReadBefore(row: Scan, mem: Scan)
    requires Since(mem, row) && mem.status.Queued? && row.status.Queued?
    ensures row == mem || mem.attempt < row.attempt
    ensures mem.startedAt.Some? ==> row.startedAt == mem.startedAt
  {
  }

  /** A worker that does not know the scanner and read `mem` fails a later attempt. */
  ghost predicate FailsLater(cfg: Config, s: Slice, rid: RunId, c: Choice, mem: Scan) {
    && Reachable(cfg, s) && Enabled(cfg, s, ActRun(rid, c))
    && s.runs[rid].pc == FailCas(Unregistered) && s.runs[rid].mem == mem
    && s.sh.row.attempt != mem.attempt && Step(cfg, s, ActRun(rid, c)).sh.row.status.Failed?
    && !s.sh.row.status.Failed?
  }

  /** Or a CHECK refuses its update. */
  ghost predicate IsRefused(cfg: Config, s: Slice, rid: RunId, c: Choice, mem: Scan) {
    && Reachable(cfg, s) && Enabled(cfg, s, ActRun(rid, c))
    && s.runs[rid].pc == FailCas(Unregistered) && s.runs[rid].mem == mem
    && TryTransition(s.sh.row, mem, Failed, c.stamp).CheckFailed?
  }

  /** Read QUEUED; then claimed by another worker, started, failed and QUEUED again. */
  lemma UnknowingIsLate(cfg: Config, delays: nat -> real, q: Time, m: nat, a: nat) returns (s: Slice, n: RunId)
    requires Draws(cfg, delays) && a + 1 < m
    ensures Reachable(cfg, s) && s.sh.row == Row(Queued, a + 1, m, q, Some(q + 1)) && s.sh.now == q + 1
    ensures n in s.runs && s.runs[n].pc == FailCas(Unregistered) && s.runs[n].seen == q
    ensures s.runs[n].mem == Row(Queued, a, m, q, None)
  {
    var mem := Row(Queued, a, m, q, None);
    s, n := Climbs(cfg, delays, q, m, a);
    s := ReadsUnknowing(cfg, s, q, n, mem);
    var still := Still(map[], map[n := s.runs[n]]);
    s := TicksIdle(cfg, s, q, n + 1, still, mem);
    s := Claims(cfg, s, q + 1, n + 1, still, mem);
    s := StartsInVain(cfg, delays, s, q + 1, n + 1, still, Row(Preparing, a + 1, m, q, None));
  }

  /** Either can happen to a scan read waiting for attempt `a + 1` if and only if an attempt is left after that. */
  lemma UnregisteredExactly(cfg: Config, delays: nat -> real, q: Time, m: nat, a: nat)
    requires Draws(cfg, delays) && a < m
    ensures (exists s, rid, c :: FailsLater(cfg, s, rid, c, Row(Queued, a, m, q, None))) <==> a + 1 < m
    ensures (exists s, rid, c :: IsRefused(cfg, s, rid, c, Row(Queued, a, m, q, None))) <==> a + 1 < m
  {
    var mem := Row(Queued, a, m, q, None);
    if a + 1 < m {
      var s, n := UnknowingIsLate(cfg, delays, q, m, a);
      assert IsRefused(cfg, s, n, Plain(q), mem);
      assert FailsLater(cfg, s, n, Plain(q + 1), mem);
    } else {
      forall s, rid, c ensures !FailsLater(cfg, s, rid, c, mem) && !IsRefused(cfg, s, rid, c, mem) {
        if FailsLater(cfg, s, rid, c, mem) || IsRefused(cfg, s, rid, c, mem) { UnregisteredHits(cfg, s, rid, c); }
      }
    }
  }
}
