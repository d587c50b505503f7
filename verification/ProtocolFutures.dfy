/** What can still become of a scan: which continuations there are, and which there are not. */
module ProtocolFutures {
  import opened ScanModel
  import opened Retry
  import opened Protocol
  import opened ProtocolInvariant
  import opened ProtocolRuns
  import opened ProtocolSlices
  import opened ProtocolTheorems
  import opened ProtocolOutcomes
  import opened ScanSystem

  /** A run goes on as if nothing were wrong, and whatever it asks for works. */
  function Plainly(now: Time, countdown: real): Choice {
    Choice(Proceed, now, countdown, true)
  }

  // --------------------------------------------------------- a cancel seen at a boundary

  /** The points a run passes from a boundary at which it found its scan cancelled to its end. */
  predicate Noticed(r: Run) {
    || r.pc.Dead?
    || (r.exit.LostToCancel? && r.mem.status.Cancelled?
        && (r.pc == SawCancel || r.pc == PublishCancelled || r.pc == Cleanup(false) || r.pc == Finish(false)
            || r.pc == Done(false)))
  }

  lemma NoticedGoesOn(cfg: Config, sh: Shared, rid: RunId, r: Run, c: Choice)
    requires RunEnabled(cfg, sh, r, c) && Noticed(r)
    ensures var (sh', r') := RunStep(cfg, sh, rid, r, c);
      Noticed(r') && sh'.row == sh.row && r'.lateStages == r.lateStages
  {
  }

  lemma NoticedStep(cfg: Config, s: Slice, l: Label, rid: RunId)
    requires Enabled(cfg, s, l) && rid in s.runs && Noticed(s.runs[rid])
    ensures var s' := Step(cfg, s, l);
      rid in s'.runs && Noticed(s'.runs[rid]) && s'.runs[rid].lateStages == s.runs[rid].lateStages
  {
    if l.ActRun? {
      if l.rid == rid { NoticedGoesOn(cfg, s.sh, rid, s.runs[rid], l.choice); }
    } else if l != KillRun(rid) {
      EnvLeavesRun(cfg, s, l, rid);
    }
  }

  lemma {:induction false} NoticedToTheEnd(cfg: Config, s: Slice, labels: seq<Label>, rid: RunId)
    requires Legal(cfg, s, labels) && rid in s.runs && Noticed(s.runs[rid])
    ensures var s' := After(cfg, s, labels);
      rid in s'.runs && Noticed(s'.runs[rid]) && s'.runs[rid].lateStages == s.runs[rid].lateStages
    decreases |labels|
  {
    if labels != [] {
      NoticedStep(cfg, s, labels[0], rid);
      NoticedToTheEnd(cfg, Step(cfg, s, labels[0]), labels[1..], rid);
    }
  }

  /**
   A stage boundary sees a cancel.  Whatever happens after a run has passed its check on a
   CANCELLED row: it begins no further stage and asks for no further transition, and unless
   it is killed it says scan.cancelled, cleans up and returns.
   */
  lemma BoundarySeesCancel(cfg: Config, s: Slice, rid: RunId, c: Choice, labels: seq<Label>)
    requires Enabled(cfg, s, ActRun(rid, c)) && s.runs[rid].pc.Check? && !c.act.Expire?
    requires s.sh.row.status.Cancelled?
    requires Legal(cfg, Step(cfg, s, ActRun(rid, c)), labels)
    ensures var s' := After(cfg, Step(cfg, s, ActRun(rid, c)), labels);
      && rid in s'.runs && Noticed(s'.runs[rid]) && s'.runs[rid].lateStages == s.runs[rid].lateStages
      && !HandlerCas(s'.runs[rid].pc) && !InTimeoutBlock(s'.runs[rid].pc) && s'.runs[rid].pc != Done(true)
  {
    NoticedToTheEnd(cfg, Step(cfg, s, ActRun(rid, c)), labels, rid);
  }

  // --------------------------------------------------- the findings of a cancelled scan

  /** From the transition to PROCESSING up to the end of the pipeline nobody looks at the row again. */
  predicate Saving(pc: PC) {
    pc == Announce(Normalize) || pc == Plugin(Normalize, false) || pc == Plugin(Normalize, true) || pc == Persisting
  }

  /** The pipeline of run `rid` returns in this step: its findings are saved. */
  ghost predicate Saves(cfg: Config, s: Slice, rid: RunId, c: Choice) {
    && Enabled(cfg, s, ActRun(rid, c)) && s.runs[rid].pc.Persisting?
    && Step(cfg, s, ActRun(rid, c)).runs[rid].pc.Succeed?
  }

  /** In some continuation run `rid` saves its findings. */
  ghost predicate MaySave(cfg: Config, s: Slice, rid: RunId) {
    exists labels: seq<Label>, c: Choice :: Legal(cfg, s, labels) && Saves(cfg, After(cfg, s, labels), rid, c)
  }

  lemma MaySaveLater(cfg: Config, s: Slice, l: Label, rid: RunId)
    requires Enabled(cfg, s, l) && MaySave(cfg, Step(cfg, s, l), rid)
    ensures MaySave(cfg, s, rid)
  {
    var labels: seq<Label>, c: Choice :|
      Legal(cfg, Step(cfg, s, l), labels) && Saves(cfg, After(cfg, Step(cfg, s, l), labels), rid, c);
    var all := [l] + labels;
    assert all[0] == l && all[1..] == labels;
    assert Legal(cfg, s, all) && Saves(cfg, After(cfg, s, all), rid, c);
  }

  lemma SavesNow(cfg: Config, s: Slice, rid: RunId)
    requires SliceOk(cfg, s) && rid in s.runs && s.runs[rid].pc.Persisting?
    ensures MaySave(cfg, s, rid)
  {
    assert RunOk(cfg, s.sh, rid, s.runs[rid]);
    assert Saves(cfg, s, rid, Plainly(s.sh.now, 0.0));
    assert Legal(cfg, s, []) && After(cfg, s, []) == s;
  }

  lemma SavingGoesOn(cfg: Config, sh: Shared, rid: RunId, r: Run)
    requires RunOk(cfg, sh, rid, r) && Saving(r.pc) && !r.pc.Persisting?
    ensures RunEnabled(cfg, sh, r, Plainly(sh.now, 0.0))
    ensures Saving(RunStep(cfg, sh, rid, r, Plainly(sh.now, 0.0)).1.pc)
  {
  }

  lemma {:induction false} SavingMaySave(cfg: Config, s: Slice, rid: RunId)
    requires SliceOk(cfg, s) && rid in s.runs && Saving(s.runs[rid].pc)
    ensures MaySave(cfg, s, rid)
    decreases Distance(s.runs[rid].pc)
  {
    if s.runs[rid].pc.Persisting? {
      SavesNow(cfg, s, rid);
    } else {
      var c := Plainly(s.sh.now, 0.0);
      assert RunOk(cfg, s.sh, rid, s.runs[rid]);
      SavingGoesOn(cfg, s.sh, rid, s.runs[rid]);
      RunAdvances(cfg, s.sh, rid, s.runs[rid], c);
      StepOk(cfg, s, ActRun(rid, c));
      SavingMaySave(cfg, Step(cfg, s, ActRun(rid, c)), rid);
      MaySaveLater(cfg, s, ActRun(rid, c), rid);
    }
  }

  lemma HandlersSaveNothing(cfg: Config, sh: Shared, rid: RunId, r: Run, c: Choice)
    requires InHandler(r.pc)
    ensures !Saving(HandlerStep(cfg, sh, rid, r, c).1.pc)
  {
  }

  /** On a cancelled row no run gets to where it would save its findings. */
  lemma NotSavingStays(cfg: Config, sh: Shared, rid: RunId, r: Run, c: Choice)
    requires RunOk(cfg, sh, rid, r) && RunEnabled(cfg, sh, r, c)
    requires sh.row.status.Cancelled? && !Saving(r.pc)
    ensures !Saving(RunStep(cfg, sh, rid, r, c).1.pc)
  {
    if InHandler(r.pc) { HandlersSaveNothing(cfg, sh, rid, r, c); }
  }

  lemma NotSavingStep(cfg: Config, s: Slice, l: Label, rid: RunId)
    requires SliceOk(cfg, s) && Enabled(cfg, s, l)
    requires s.sh.row.status.Cancelled? && (rid in s.runs ==> !Saving(s.runs[rid].pc))
    ensures var s' := Step(cfg, s, l); rid in s'.runs ==> !Saving(s'.runs[rid].pc)
  {
    if l.ActRun? {
      if l.rid == rid {
        assert RunOk(cfg, s.sh, rid, s.runs[rid]);
        NotSavingStays(cfg, s.sh, rid, s.runs[rid], l.choice);
      }
    } else if rid in s.runs && l != KillRun(rid) {
      EnvLeavesRun(cfg, s, l, rid);
    }
  }

  lemma {:induction false} NotSavingForGood(cfg: Config, s: Slice, labels: seq<Label>, rid: RunId)
    requires SliceOk(cfg, s) && Legal(cfg, s, labels)
    requires s.sh.row.status.Cancelled? && (rid in s.runs ==> !Saving(s.runs[rid].pc))
    ensures var s' := After(cfg, s, labels); rid in s'.runs ==> !Saving(s'.runs[rid].pc)
    decreases |labels|
  {
    if labels != [] {
      StepOk(cfg, s, labels[0]);
      TerminalStep(cfg, s, labels[0]);
      NotSavingStep(cfg, s, labels[0], rid);
      NotSavingForGood(cfg, Step(cfg, s, labels[0]), labels[1..], rid);
    }
  }

  lemma NotSavingNeverSaves(cfg: Config, s: Slice, rid: RunId)
    requires SliceOk(cfg, s) && s.sh.row.status.Cancelled? && MaySave(cfg, s, rid)
    ensures rid in s.runs && Saving(s.runs[rid].pc)
  {
    if rid in s.runs ==> !Saving(s.runs[rid].pc) {
      var labels: seq<Label>, c: Choice :| Legal(cfg, s, labels) && Saves(cfg, After(cfg, s, labels), rid, c);
      NotSavingForGood(cfg, s, labels, rid);
    }
  }

  lemma SavingIsProcessing(cfg: Config, sh: Shared, rid: RunId, r: Run)
    requires RunOk(cfg, sh, rid, r) && Saving(r.pc)
    ensures r.mem.status.Processing? && (sh.row == r.mem || CancelledFrom(sh.row, r.mem))
  {
  }

  /**
   The findings of a cancelled scan: a run can still save them if and only if it has made
   the transition to PROCESSING and its pipeline has not returned.  It was PROCESSING, by
   this run, that was cancelled then, and nothing else about the row has changed.
   */
  lemma LateFindingsExactly(cfg: Config, s: Slice, rid: RunId)
    requires Reachable(cfg, s) && s.sh.row.status.Cancelled?
    ensures MaySave(cfg, s, rid) <==> rid in s.runs && Saving(s.runs[rid].pc)
    ensures MaySave(cfg, s, rid) ==>
      s.runs[rid].mem.status.Processing? && CancelledFrom(s.sh.row, s.runs[rid].mem)
  {
    ReachableOk(cfg, s);
    if rid in s.runs && Saving(s.runs[rid].pc) {
      SavingMaySave(cfg, s, rid);
      assert RunOk(cfg, s.sh, rid, s.runs[rid]);
      SavingIsProcessing(cfg, s.sh, rid, s.runs[rid]);
    } else if MaySave(cfg, s, rid) {
      NotSavingNeverSaves(cfg, s, rid);
    }
  }

  /** A cancel that does not find the scan in PROCESSING comes in time: no run saves anything after it. */
  lemma CancelledInTime(cfg: Config, s: Slice, cid: CancelId, stamp: Time, rid: RunId)
    requires Reachable(cfg, s) && Enabled(cfg, s, ActCancel(cid, stamp))
    requires Step(cfg, s, ActCancel(cid, stamp)).sh.row != s.sh.row
    ensures MaySave(cfg, Step(cfg, s, ActCancel(cid, stamp)), rid) ==> s.sh.row.status.Processing?
    ensures MaySave(cfg, Step(cfg, s, ActCancel(cid, stamp)), rid) <==> rid in s.runs && Saving(s.runs[rid].pc)
  {
    ReachableStep(cfg, s, ActCancel(cid, stamp));
    ReachableOk(cfg, s);
    CancelMoves(cfg, s, cid, stamp);
    LateFindingsExactly(cfg, Step(cfg, s, ActCancel(cid, stamp)), rid);
    if rid in s.runs && Saving(s.runs[rid].pc) {
      assert RunOk(cfg, s.sh, rid, s.runs[rid]);
      SavingIsProcessing(cfg, s.sh, rid, s.runs[rid]);
    }
  }

  lemma CancelMoves(cfg: Config, s: Slice, cid: CancelId, stamp: Time)
    requires Enabled(cfg, s, ActCancel(cid, stamp))
    requires Step(cfg, s, ActCancel(cid, stamp)).sh.row != s.sh.row
    ensures var s' := Step(cfg, s, ActCancel(cid, stamp));
      s'.runs == s.runs && s'.sh.row.status.Cancelled? && !s.sh.row.status.Cancelled?
  {
  }
}
