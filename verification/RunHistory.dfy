/**
 One run's history as seen from inside a worker: its own steps, each a `RunStep` of
 the step relation, with steps of other actors in between, each within what others
 guarantee.  `Orchestrator` shows that executing the code builds such a history.
 */
module RunHistory {
  import opened ScanModel
  import opened Protocol
  import opened ProtocolInvariant
  import opened ProtocolRuns
  import opened ProtocolOutcomes
  import opened ProtocolSlices
  import opened ProtocolStory
  import opened ProtocolCauses
  import opened ProtocolTheorems

  datatype How = Began | Own(choice: Choice) | Others(actor: Option<RunId>)

  datatype Moment = Moment(sh: Shared, run: Run, how: How)

  /** The state a history has led to, and the history. */
  datatype Past = Past(sh: Shared, run: Run, trail: seq<Moment>) {
    function Then(sh: Shared, run: Run, how: How): Past {
      Past(sh, run, trail + [Moment(sh, run, how)])
    }
  }

  function Beginning(sh: Shared, knows: bool): Past {
    Past(sh, NewRun(sh.now, knows), [Moment(sh, NewRun(sh.now, knows), Began)])
  }

  /** Does `m` follow from `before`, by the run's own step or by others'? */
  ghost predicate Succeeds(cfg: Config, rid: RunId, before: Moment, m: Moment) {
    match m.how
    case Began => false
    case Own(choice) =>
      && RunEnabled(cfg, before.sh, before.run, choice)
      && (m.sh, m.run) == RunStep(cfg, before.sh, rid, before.run, choice)
    case Others(actor) =>
      && SharedOk(cfg, m.sh) && Guarantee(cfg, before.sh, m.sh, actor) && actor != Some(rid)
      && m.run == before.run
  }

  /** Does moment `i` follow from the one before it? */
  ghost predicate Follows(cfg: Config, rid: RunId, trail: seq<Moment>, i: nat)
    requires i < |trail|
  {
    var m := trail[i];
    if i == 0 then m.how.Began? && SharedOk(cfg, m.sh) && m.run == NewRun(m.sh.now, m.run.knows)
    else Succeeds(cfg, rid, trail[i - 1], m)
  }

  ghost predicate Lawful(cfg: Config, rid: RunId, p: Past) {
    && p.trail != []
    && p.sh == p.trail[|p.trail| - 1].sh
    && p.run == p.trail[|p.trail| - 1].run
    && forall i :: 0 <= i < |p.trail| ==> Follows(cfg, rid, p.trail, i)
  }

  lemma BeginningIsLawful(cfg: Config, rid: RunId, sh: Shared, knows: bool)
    requires SharedOk(cfg, sh)
    ensures Lawful(cfg, rid, Beginning(sh, knows))
  {
  }

  lemma Extended(cfg: Config, rid: RunId, p: Past, sh: Shared, run: Run, how: How)
    requires Lawful(cfg, rid, p)
    requires Follows(cfg, rid, p.Then(sh, run, how).trail, |p.trail|)
    ensures Lawful(cfg, rid, p.Then(sh, run, how))
  {
    var trail := p.Then(sh, run, how).trail;
    forall i | 0 <= i < |trail| ensures Follows(cfg, rid, trail, i) {
      if i < |p.trail| { assert Follows(cfg, rid, p.trail, i); }
    }
  }

  lemma OwnStepIsLawful(cfg: Config, rid: RunId, p: Past, c: Choice)
    requires Lawful(cfg, rid, p) && RunEnabled(cfg, p.sh, p.run, c)
    ensures var (sh, run) := RunStep(cfg, p.sh, rid, p.run, c); Lawful(cfg, rid, p.Then(sh, run, Own(c)))
  {
    var (sh, run) := RunStep(cfg, p.sh, rid, p.run, c);
    Extended(cfg, rid, p, sh, run, Own(c));
  }

  lemma OthersAreLawful(cfg: Config, rid: RunId, p: Past, sh: Shared, actor: Option<RunId>)
    requires Lawful(cfg, rid, p)
    requires SharedOk(cfg, sh) && Guarantee(cfg, p.sh, sh, actor) && actor != Some(rid)
    ensures Lawful(cfg, rid, p.Then(sh, p.run, Others(actor)))
  {
    Extended(cfg, rid, p, sh, p.run, Others(actor));
  }

  lemma FirstMoment(cfg: Config, rid: RunId, p: Past)
    requires Lawful(cfg, rid, p)
    ensures SharedOk(cfg, p.trail[0].sh) && RunOk(cfg, p.trail[0].sh, rid, p.trail[0].run)
    ensures p.trail[0].run == NewRun(p.trail[0].sh.now, p.trail[0].run.knows)
  {
    assert Follows(cfg, rid, p.trail, 0);
    StartOk(cfg, rid, p.trail[0].sh, p.trail[0].run.knows);
  }

  lemma NextMoment(cfg: Config, rid: RunId, p: Past, i: nat)
    requires Lawful(cfg, rid, p) && 0 < i < |p.trail|
    ensures Succeeds(cfg, rid, p.trail[i - 1], p.trail[i])
  {
    assert Follows(cfg, rid, p.trail, i);
  }

  /** Whatever happened, the invariant holds at every moment. */
  lemma {:induction false} MomentOk(cfg: Config, rid: RunId, p: Past, i: nat)
    requires Lawful(cfg, rid, p) && i < |p.trail|
    ensures SharedOk(cfg, p.trail[i].sh) && RunOk(cfg, p.trail[i].sh, rid, p.trail[i].run)
  {
    if i == 0 {
      FirstMoment(cfg, rid, p);
    } else {
      MomentOk(cfg, rid, p, i - 1);
      NextMoment(cfg, rid, p, i);
      NextMomentOk(cfg, rid, p.trail[i - 1], p.trail[i]);
    }
  }

  lemma NextMomentOk(cfg: Config, rid: RunId, before: Moment, m: Moment)
    requires SharedOk(cfg, before.sh) && RunOk(cfg, before.sh, rid, before.run) && Succeeds(cfg, rid, before, m)
    ensures SharedOk(cfg, m.sh) && RunOk(cfg, m.sh, rid, m.run)
  {
    if m.how.Own? {
      RunStepKeeps(cfg, before.sh, rid, before.run, m.how.choice);
    } else {
      OthersKeepRun(cfg, before.sh, m.sh, m.how.actor, rid, before.run);
    }
  }

  lemma PastOk(cfg: Config, rid: RunId, p: Past)
    requires Lawful(cfg, rid, p)
    ensures SharedOk(cfg, p.sh) && RunOk(cfg, p.sh, rid, p.run)
  {
    MomentOk(cfg, rid, p, |p.trail| - 1);
  }

  lemma StartOk(cfg: Config, rid: RunId, sh: Shared, knows: bool)
    requires SharedOk(cfg, sh)
    ensures RunOk(cfg, sh, rid, NewRun(sh.now, knows))
  {
  }

  /** The steps the run itself has taken up to moment `i`. */
  function OwnSteps(trail: seq<Moment>, i: nat): nat
    requires i < |trail|
  {
    (if i == 0 then 0 else OwnSteps(trail, i - 1)) + if trail[i].how.Own? then 1 else 0
  }

  /** Whatever the plugin raises and whoever interferes, a run takes at most 32 steps. */
  lemma {:induction false} FewSteps(cfg: Config, rid: RunId, p: Past, i: nat)
    requires Lawful(cfg, rid, p) && i < |p.trail|
    ensures OwnSteps(p.trail, i) + Distance(p.trail[i].run.pc) <= 32
  {
    assert Follows(cfg, rid, p.trail, i);
    if i > 0 {
      FewSteps(cfg, rid, p, i - 1);
      var before := p.trail[i - 1];
      if p.trail[i].how.Own? { RunAdvances(cfg, before.sh, rid, before.run, p.trail[i].how.choice); }
    }
  }

  lemma {:induction false} NoStepSoFar(trail: seq<Moment>, i: nat, j: nat)
    requires j <= i < |trail| && OwnSteps(trail, i) == 0
    ensures !trail[j].how.Own?
  {
    if j < i { NoStepSoFar(trail, i - 1, j); }
  }

  /** A run that is still where it was delivered has done nothing: whatever has changed, others changed. */
  lemma OnlyOthers(cfg: Config, rid: RunId, p: Past)
    requires Lawful(cfg, rid, p) && p.run.pc.Delivered?
    ensures forall i :: 0 <= i < |p.trail| ==> !p.trail[i].how.Own?
  {
    FewSteps(cfg, rid, p, |p.trail| - 1);
    forall i | 0 <= i < |p.trail| ensures !p.trail[i].how.Own? { NoStepSoFar(p.trail, |p.trail| - 1, i); }
  }

  /** Is moment `i` the run's own step in which exception `e` is triggered? */
  ghost predicate TriggeredAt(trail: seq<Moment>, i: nat, e: Exit)
    requires i < |trail|
  {
    0 < i && trail[i].how.Own? && Trigger(trail[i - 1].run, trail[i].how.choice) == Some(e)
  }

  lemma DoomFollows(cfg: Config, rid: RunId, p: Past, i: nat, e: Exit)
    requires Lawful(cfg, rid, p) && 0 < i < |p.trail|
    ensures Doom(p.trail[i].run) == Some(e)
      <==> Doom(p.trail[i - 1].run) == Some(e) || TriggeredAt(p.trail, i, e)
  {
    var before := p.trail[i - 1];
    assert Follows(cfg, rid, p.trail, i);
    MomentOk(cfg, rid, p, i - 1);
    if p.trail[i].how.Own? {
      var c := p.trail[i].how.choice;
      DoomStep(cfg, before.sh, rid, before.run, c);
      if Trigger(before.run, c).Some? { TriggersOnce(cfg, before.sh, rid, before.run, c); }
    }
  }

  lemma {:induction false} DoomHasItsMoment(cfg: Config, rid: RunId, p: Past, i: nat, e: Exit)
    requires Lawful(cfg, rid, p) && i < |p.trail|
    ensures Doom(p.trail[i].run) == Some(e) <==> exists j :: 0 <= j <= i && TriggeredAt(p.trail, j, e)
  {
    if i == 0 {
      assert Follows(cfg, rid, p.trail, 0);
    } else {
      DoomHasItsMoment(cfg, rid, p, i - 1, e);
      DoomFollows(cfg, rid, p, i, e);
    }
  }

  /**
   The exceptions, over a whole run: a finished run is stuck with exception `e` if and only
   if in some step of its own a timeout came in PROCESSING, or plugin code raised a
   retryable error in PROCESSING with attempts left, or `validate_config` raised anything
   but a config error, and that step was the one `e` belongs to.
   */
  lemma StuckExactly(cfg: Config, rid: RunId, p: Past, e: Exit)
    requires Lawful(cfg, rid, p) && p.run.pc.Done? && Stuck(e)
    ensures p.run.exit == e <==> exists j :: 0 <= j < |p.trail| && TriggeredAt(p.trail, j, e)
  {
    DoomHasItsMoment(cfg, rid, p, |p.trail| - 1, e);
  }

  /** Is moment `i` the run's own step in which an error arises that nothing will catch? */
  ghost predicate EscapesAt(trail: seq<Moment>, i: nat)
    requires i < |trail|
  {
    0 < i && trail[i].how.Own? && LetsEscape(trail[i - 1].sh, trail[i - 1].run, trail[i].how.choice)
  }

  lemma EscapeFollows(cfg: Config, rid: RunId, p: Past, i: nat)
    requires Lawful(cfg, rid, p) && 0 < i < |p.trail|
    ensures Escaping(p.trail[i].run) <==> Escaping(p.trail[i - 1].run) || EscapesAt(p.trail, i)
  {
    var before := p.trail[i - 1];
    assert Follows(cfg, rid, p.trail, i);
    MomentOk(cfg, rid, p, i - 1);
    if p.trail[i].how.Own? { EscapeStep(cfg, before.sh, rid, before.run, p.trail[i].how.choice); }
  }

  lemma {:induction false} EscapeHasItsMoment(cfg: Config, rid: RunId, p: Past, i: nat)
    requires Lawful(cfg, rid, p) && i < |p.trail|
    ensures Escaping(p.trail[i].run) <==> exists j :: 0 <= j <= i && EscapesAt(p.trail, j)
  {
    if i == 0 {
      assert Follows(cfg, rid, p.trail, 0);
    } else {
      EscapeHasItsMoment(cfg, rid, p, i - 1);
      EscapeFollows(cfg, rid, p, i);
    }
  }

  /**
   When a worker task raises, over a whole run: if and only if in some step of its own one
   of the three exceptions was triggered, or the timeout came after SUCCEEDED was committed
   and before that was announced, or the plugin could not be made, or a transition to FAILED
   outside the guarded block found the row changed or was stamped before its start.
   */
  lemma RaisesExactly(cfg: Config, rid: RunId, p: Past)
    requires Lawful(cfg, rid, p) && p.run.pc.Done?
    ensures p.run.pc.raised <==> exists j :: 0 <= j < |p.trail| && EscapesAt(p.trail, j)
  {
    EscapeHasItsMoment(cfg, rid, p, |p.trail| - 1);
    PastOk(cfg, rid, p);
    DoneRaises(cfg, p.sh, rid, p.run);
  }

  // ------------------------------------------------------------ what a run says and does

  /** What the run's own steps up to moment `i` have brought about. */
  function TallyAt(trail: seq<Moment>, i: nat): Tally
    requires i < |trail|
  {
    if i == 0 then NOTHING_DONE
    else
      var t, before, m := TallyAt(trail, i - 1), trail[i - 1], trail[i];
      if m.how.Own? then t.Then(before.sh, before.run, m.how.choice, m.sh, m.run) else t
  }

  lemma {:induction false} StoryHolds(cfg: Config, rid: RunId, p: Past, i: nat)
    requires Lawful(cfg, rid, p) && i < |p.trail|
    ensures StoryOk(p.trail[i].sh, p.trail[i].run, TallyAt(p.trail, i))
  {
    if i == 0 {
      StoryFirst(cfg, rid, p);
    } else {
      StoryHolds(cfg, rid, p, i - 1);
      StoryNext(cfg, rid, p, i, TallyAt(p.trail, i - 1));
    }
  }

  lemma StoryFirst(cfg: Config, rid: RunId, p: Past)
    requires Lawful(cfg, rid, p)
    ensures StoryOk(p.trail[0].sh, p.trail[0].run, NOTHING_DONE)
  {
    FirstMoment(cfg, rid, p);
    StoryBegins(p.trail[0].sh, p.trail[0].run.knows);
  }

  lemma StoryNext(cfg: Config, rid: RunId, p: Past, i: nat, t: Tally)
    requires Lawful(cfg, rid, p) && 0 < i < |p.trail|
    requires StoryOk(p.trail[i - 1].sh, p.trail[i - 1].run, t)
    ensures var before, m := p.trail[i - 1], p.trail[i];
      StoryOk(m.sh, m.run, if m.how.Own? then t.Then(before.sh, before.run, m.how.choice, m.sh, m.run) else t)
  {
    MomentOk(cfg, rid, p, i - 1);
    NextMoment(cfg, rid, p, i);
    StoryOfNext(cfg, rid, p.trail[i - 1], p.trail[i], t);
  }

  lemma StoryOfNext(cfg: Config, rid: RunId, before: Moment, m: Moment, t: Tally)
    requires SharedOk(cfg, before.sh) && RunOk(cfg, before.sh, rid, before.run) && Succeeds(cfg, rid, before, m)
    requires StoryOk(before.sh, before.run, t)
    ensures StoryOk(m.sh, m.run,
      if m.how.Own? then t.Then(before.sh, before.run, m.how.choice, m.sh, m.run) else t)
  {
    if m.how.Own? {
      StoryGoesOn(cfg, before.sh, rid, before.run, m.how.choice, t);
    } else {
      OthersKeepStory(cfg, before.sh, m.sh, m.how.actor, rid, before.run, t);
    }
  }

  /** The log only grows, so what a run has said stays said. */
  lemma {:induction false} SaidStays(cfg: Config, rid: RunId, p: Past, i: nat, e: Event)
    requires Lawful(cfg, rid, p) && i < |p.trail| && e in TallyAt(p.trail, i).said
    ensures e in p.trail[i].sh.log
  {
    assert Follows(cfg, rid, p.trail, i);
    if i > 0 {
      LogGrowsNext(cfg, rid, p.trail[i - 1], p.trail[i]);
      if e in TallyAt(p.trail, i - 1).said { SaidStays(cfg, rid, p, i - 1, e); }
    }
  }

  lemma LogGrowsNext(cfg: Config, rid: RunId, before: Moment, m: Moment)
    requires Succeeds(cfg, rid, before, m)
    ensures before.sh.log <= m.sh.log
  {
    if m.how.Own? { StepSays(cfg, before.sh, rid, before.run, m.how.choice); }
  }

  /**
   All a finished run has said, in order.  A run that claimed an attempt begins with
   scan.started, then the stages it opened (of RUNNING, COLLECTING, PROCESSING, in this
   order), and closes with the event of the status it wrote, with scan.cancelled if it
   lost to a cancel, with the QUEUED progress of a requeue, or, if it raises, with nothing.
   A run that never claimed says nothing, except that it failed an unregistered scanner's scan.
   */
  lemma SaysExactly(cfg: Config, rid: RunId, p: Past) returns (n: nat)
    requires Lawful(cfg, rid, p) && p.run.pc.Done?
    ensures n <= 3
    ensures var said := TallyAt(p.trail, |p.trail| - 1).said;
      var opening := [ScanStarted] + [ScanProgress(Running), ScanProgress(Collecting), ScanProgress(Processing)][..n];
      && (p.run.own == 0 ==> said == if p.run.exit.Finalized? then [ScanFailed] else [])
      && (0 < p.run.own && p.run.pc.raised ==> said == opening)
      && (0 < p.run.own && !p.run.pc.raised ==>
          p.run.exit.Finalized? || p.run.exit.LostToCancel? || p.run.exit.Requeued?)
      && (0 < p.run.own && !p.run.pc.raised && p.run.exit.Requeued? ==> said == opening + [ScanProgress(Queued)])
      && (0 < p.run.own && !p.run.pc.raised && p.run.exit.LostToCancel? ==> said == opening + [ScanCancelled])
    ensures 0 < p.run.own && !p.run.pc.raised && p.run.exit.Finalized? ==>
      var said := TallyAt(p.trail, |p.trail| - 1).said;
      var opening := [ScanStarted] + [ScanProgress(Running), ScanProgress(Collecting), ScanProgress(Processing)][..n];
      && Terminal(p.sh.row.status)
      && (p.sh.row.status.Succeeded? ==> n == 3 && said == opening + [ScanCompleted])
      && (p.sh.row.status.Failed? ==> said == opening + [ScanFailed])
      && (p.sh.row.status.TimedOut? ==> said == opening + [ScanTimedOut])
      && (p.sh.row.status.Cancelled? ==> said == opening + [ScanCancelled])
  {
    var t := TallyAt(p.trail, |p.trail| - 1);
    n := t.stages;
    StoryHolds(cfg, rid, p, |p.trail| - 1);
    SaysByExit(p.sh, p.run, t);
    if 0 < p.run.own {
      PastOk(cfg, rid, p);
      OutcomeOf(cfg, p.sh, rid, p.run);
      if p.run.exit.Finalized? && !p.run.pc.raised { SaysTheEnd(p.sh, p.run, t); }
    }
  }

  /** The words of a finished run, by how it gave up its attempt. */
  lemma SaysByExit(sh: Shared, r: Run, t: Tally)
    requires StoryOk(sh, r, t) && r.pc.Done?
    ensures t.stages <= 3
    ensures var opening :=
        [ScanStarted] + [ScanProgress(Running), ScanProgress(Collecting), ScanProgress(Processing)][..t.stages];
      && (r.own == 0 ==> t.said == if r.exit.Finalized? then [ScanFailed] else [])
      && (0 < r.own && r.pc.raised ==> t.said == opening)
      && (0 < r.own && !r.pc.raised && r.exit.Requeued? ==> t.said == opening + [ScanProgress(Queued)])
      && (0 < r.own && !r.pc.raised && r.exit.LostToCancel? ==> t.said == opening + [ScanCancelled])
  {
    assert Opening(r, t.stages) + [] == Opening(r, t.stages);
  }

  lemma SaysTheEnd(sh: Shared, r: Run, t: Tally)
    requires StoryOk(sh, r, t) && r.pc == Done(false) && 0 < r.own && r.exit.Finalized? && Terminal(sh.row.status)
    ensures t.stages <= 3
    ensures var opening :=
        [ScanStarted] + [ScanProgress(Running), ScanProgress(Collecting), ScanProgress(Processing)][..t.stages];
      && (sh.row.status.Succeeded? ==> t.stages == 3 && t.said == opening + [ScanCompleted])
      && (sh.row.status.Failed? ==> t.said == opening + [ScanFailed])
      && (sh.row.status.TimedOut? ==> t.said == opening + [ScanTimedOut])
      && (sh.row.status.Cancelled? ==> t.said == opening + [ScanCancelled])
  {
  }

  /** Is moment `j` the run's own attempt to queue a dead letter? */
  ghost predicate LetterAt(trail: seq<Moment>, j: nat)
    requires j < |trail|
  {
    0 < j && trail[j].how.Own? && trail[j - 1].run.pc.DeadLetter?
  }

  lemma {:induction false} LetterHasItsMoment(trail: seq<Moment>, i: nat)
    requires i < |trail| && TallyAt(trail, i).letter.Some?
    ensures exists j :: 0 <= j <= i && LetterAt(trail, j) && trail[j].how.choice.ok == TallyAt(trail, i).letter.value
  {
    if !LetterAt(trail, i) { LetterHasItsMoment(trail, i - 1); }
  }

  /** Whoever fails a scan, and says so, has tried to queue its dead letter; there is one if the send worked. */
  lemma DeadLetterExactly(cfg: Config, rid: RunId, p: Past)
    requires Lawful(cfg, rid, p) && p.run.pc == Done(false)
    requires p.run.exit.Finalized? && p.sh.row.status.Failed?
    ensures exists j ::
      0 <= j < |p.trail| && LetterAt(p.trail, j) && p.sh.deadLetters == if p.trail[j].how.choice.ok then 1 else 0
  {
    StoryHolds(cfg, rid, p, |p.trail| - 1);
    LetterHasItsMoment(p.trail, |p.trail| - 1);
  }

  lemma {:induction false} FlushHasItsMoment(cfg: Config, rid: RunId, p: Past, i: nat)
    requires Lawful(cfg, rid, p) && i < |p.trail|
    ensures TallyAt(p.trail, i).flushed <==> exists j :: 0 <= j <= i && p.trail[j].run.pending.Some?
  {
    assert Follows(cfg, rid, p.trail, i);
    if i > 0 { FlushHasItsMoment(cfg, rid, p, i - 1); }
  }

  /** What a run has flushed is committed by the time it is done, unless it raises; then it is rolled back. */
  lemma FlushedExactly(cfg: Config, rid: RunId, p: Past)
    requires Lawful(cfg, rid, p) && p.run.pc.Done? && 0 < p.run.own
    ensures p.run.own in p.sh.outbox
      <==> !p.run.pc.raised && exists j :: 0 <= j < |p.trail| && p.trail[j].run.pending.Some?
  {
    var i := |p.trail| - 1;
    StoryHolds(cfg, rid, p, i);
    PastOk(cfg, rid, p);
    FlushHasItsMoment(cfg, rid, p, i);
  }

  // ------------------------------------------------------------------ why a run ended

  /** What the run's own steps up to moment `i` have been through. */
  function CourseAt(trail: seq<Moment>, i: nat): Course
    requires i < |trail|
  {
    if i == 0 then NOTHING_BEGUN
    else
      var t, before, m := CourseAt(trail, i - 1), trail[i - 1], trail[i];
      if m.how.Own? then t.Then(before.run, m.how.choice, m.run) else t
  }

  lemma {:induction false} CauseHolds(cfg: Config, rid: RunId, p: Past, i: nat)
    requires Lawful(cfg, rid, p) && i < |p.trail|
    ensures CauseOk(p.trail[i].sh, p.trail[i].run, CourseAt(p.trail, i))
  {
    if i == 0 {
      CauseFirst(cfg, rid, p);
    } else {
      CauseHolds(cfg, rid, p, i - 1);
      CauseNext(cfg, rid, p, i, CourseAt(p.trail, i - 1));
    }
  }

  lemma CauseFirst(cfg: Config, rid: RunId, p: Past)
    requires Lawful(cfg, rid, p)
    ensures CauseOk(p.trail[0].sh, p.trail[0].run, NOTHING_BEGUN)
  {
    FirstMoment(cfg, rid, p);
    CauseBegins(p.trail[0].sh, p.trail[0].run.knows);
  }

  lemma CauseNext(cfg: Config, rid: RunId, p: Past, i: nat, t: Course)
    requires Lawful(cfg, rid, p) && 0 < i < |p.trail|
    requires CauseOk(p.trail[i - 1].sh, p.trail[i - 1].run, t)
    ensures CauseOk(p.trail[i].sh, p.trail[i].run,
      if p.trail[i].how.Own? then t.Then(p.trail[i - 1].run, p.trail[i].how.choice, p.trail[i].run) else t)
  {
    MomentOk(cfg, rid, p, i - 1);
    MemoryHolds(cfg, rid, p, i - 1);
    NextMoment(cfg, rid, p, i);
    CauseOfNext(cfg, rid, p.trail[i - 1], p.trail[i], t);
  }

  lemma MemoryHolds(cfg: Config, rid: RunId, p: Past, i: nat)
    requires Lawful(cfg, rid, p) && i < |p.trail|
    ensures MemoryOk(p.trail[i].run)
  {
    StoryHolds(cfg, rid, p, i);
  }

  lemma CauseOfNext(cfg: Config, rid: RunId, before: Moment, m: Moment, t: Course)
    requires SharedOk(cfg, before.sh) && RunOk(cfg, before.sh, rid, before.run) && Succeeds(cfg, rid, before, m)
    requires MemoryOk(before.run) && CauseOk(before.sh, before.run, t)
    ensures CauseOk(m.sh, m.run, if m.how.Own? then t.Then(before.run, m.how.choice, m.run) else t)
  {
    if m.how.Own? {
      CauseGoesOn(cfg, before.sh, rid, before.run, m.how.choice, t);
    } else {
      OthersKeepCause(cfg, before.sh, m.sh, m.how.actor, before.run, t);
    }
  }

  /**
   Why a run that returned ended as it did, unless it lost its scan to a cancel.  It
   succeeded exactly if nothing was raised in its steps and the timeout did not expire, and
   then all four plugin calls were begun in their order and the findings are saved; it timed
   out exactly if the timeout expired; it cancelled the scan itself exactly if plugin code
   raised the cancellation error; it requeued the scan only for a retryable error, and failed
   it for one exactly if no attempt was left, and otherwise for any other error.
   */
  lemma WhyItEnded(cfg: Config, rid: RunId, p: Past)
    requires Lawful(cfg, rid, p) && p.run.pc == Done(false) && 0 < p.run.own && !p.run.exit.LostToCancel?
    ensures var t, row, ended := CourseAt(p.trail, |p.trail| - 1), p.sh.row, p.run.exit.Finalized?;
      && (ended && row.status.Succeeded? <==> t.fault.None? && !t.expired)
      && (ended && row.status.Succeeded? ==> t.begun == [Prepare, Execute, Collect, Normalize] && t.saved)
      && (ended && row.status.TimedOut? <==> t.expired)
      && (ended && row.status.Cancelled? <==> t.fault == Some(CancelledFault))
      && (t.fault == Some(TransientFault) <==>
            p.run.exit.Requeued? || (ended && row.status.Failed? && t.fault == Some(TransientFault)))
      && (ended && row.status.Failed? && t.fault == Some(TransientFault) ==> row.attempt == row.maxAttempts)
      && (t.fault == Some(ConfigFault) || t.fault == Some(OtherFault) ==> ended && row.status.Failed?)
      && (ended && row.status.Failed? ==> t.fault.Some? && !t.fault.value.CancelledFault?)
  {
    var i := |p.trail| - 1;
    PastOk(cfg, rid, p);
    StoryHolds(cfg, rid, p, i);
    CauseHolds(cfg, rid, p, i);
    OutcomeOf(cfg, p.sh, rid, p.run);
    assert CALLS[..4] == CALLS;
  }

  /** What has been announced of a scan that is over: the event of its status, and of no other. */
  ghost predicate Announced(sh: Shared) {
    && (ScanCompleted in sh.log <==> sh.row.status.Succeeded?)
    && (ScanFailed in sh.log <==> sh.row.status.Failed?)
    && (ScanTimedOut in sh.log <==> sh.row.status.TimedOut?)
    && (ScanCancelled in sh.log <==> sh.row.status.Cancelled?)
  }

  lemma FinishedSpeaks(cfg: Config, rid: RunId, p: Past)
    requires Lawful(cfg, rid, p) && p.run.pc.Done? && 0 < p.run.own
    ensures ScanStarted in p.sh.log
    ensures !p.run.pc.raised && (p.run.exit.Finalized? || p.run.exit.LostToCancel?) ==> Announced(p.sh)
  {
    var i := |p.trail| - 1;
    var n := SaysExactly(cfg, rid, p);
    var said := TallyAt(p.trail, i).said;
    PastOk(cfg, rid, p);
    assert said[0] == ScanStarted;
    SaidStays(cfg, rid, p, i, ScanStarted);
    assert said[|said| - 1] in said;
    SaidStays(cfg, rid, p, i, said[|said| - 1]);
    OutcomeOf(cfg, p.sh, rid, p.run);
  }

  /**
   What a finished run leaves behind.  If it claimed an attempt, the scan is over, or
   requeued with its outbox row in place, or the worker task has raised and the row is stuck in
   PROCESSING or PREPARING (unless cancelled meanwhile).  scan.started is in the log, and if
   the run has made the scan terminal, or lost it to a cancel, without raising, so is the
   event of the row's status; a FAILED one has had its dead letter tried.  Its outbox row is
   there exactly if it has flushed it and not raised, and the plugin was cleaned up, once,
   exactly if the guarded block was entered or the run has written the last status.  It began
   at most one stage on a cancelled scan, and then it is the claimant of the scan's last
   attempt, so no other run did.  The worker task raises exactly if an error arose in one of
   its steps that nothing catches.
   */
  lemma FinishedRun(cfg: Config, rid: RunId, p: Past)
    requires Lawful(cfg, rid, p) && p.run.pc.Done? && 0 < p.run.own
    ensures
      || Terminal(p.sh.row.status)
      || (p.run.exit.Requeued? && p.run.own in p.sh.outbox
          && (p.sh.row.attempt == p.run.own ==> !Active(p.sh.row.status)))
      || (p.run.pc.raised && Stuck(p.run.exit) && p.sh.row.attempt == p.run.own
          && (p.sh.row.status.Processing? || p.sh.row.status.Preparing?))
    ensures p.run.own in p.sh.claims && p.sh.claims[p.run.own] == rid
    ensures ScanStarted in p.sh.log
    ensures !p.run.pc.raised && (p.run.exit.Finalized? || p.run.exit.LostToCancel?) ==>
      && (ScanCompleted in p.sh.log <==> p.sh.row.status.Succeeded?)
      && (ScanFailed in p.sh.log <==> p.sh.row.status.Failed?)
      && (ScanTimedOut in p.sh.log <==> p.sh.row.status.TimedOut?)
      && (ScanCancelled in p.sh.log <==> p.sh.row.status.Cancelled?)
    ensures !p.run.pc.raised && p.run.exit.Finalized? && p.sh.row.status.Failed? ==>
      exists j ::
        0 <= j < |p.trail| && LetterAt(p.trail, j) && p.sh.deadLetters == if p.trail[j].how.choice.ok then 1 else 0
    ensures p.run.own in p.sh.outbox
      <==> !p.run.pc.raised && exists j :: 0 <= j < |p.trail| && p.trail[j].run.pending.Some?
    ensures p.run.cleanups == if p.run.entered || p.run.exit.Finalized? then 1 else 0
    ensures p.run.lateStages <= 1
    ensures p.run.lateStages > 0 ==> p.sh.row.status.Cancelled? && p.run.own == p.sh.row.attempt
    ensures OwnSteps(p.trail, |p.trail| - 1) <= 32
    ensures p.run.pc.raised <==> exists j :: 0 <= j < |p.trail| && EscapesAt(p.trail, j)
  {
    PastOk(cfg, rid, p);
    RaisesExactly(cfg, rid, p);
    OutcomeOf(cfg, p.sh, rid, p.run);
    FewSteps(cfg, rid, p, |p.trail| - 1);
    FinishedSpeaks(cfg, rid, p);
    FlushedExactly(cfg, rid, p);
    FinishedTidies(cfg, rid, p);
    if p.run.pc == Done(false) && p.run.exit.Finalized? && p.sh.row.status.Failed? { DeadLetterExactly(cfg, rid, p); }
  }

  lemma FinishedTidies(cfg: Config, rid: RunId, p: Past)
    requires Lawful(cfg, rid, p) && p.run.pc.Done? && 0 < p.run.own
    ensures p.run.cleanups == if p.run.entered || p.run.exit.Finalized? then 1 else 0
  {
    StoryHolds(cfg, rid, p, |p.trail| - 1);
    PastOk(cfg, rid, p);
    assert CleanupOk(p.run);
  }

  /** How run `rid` experiences a step of its slice. */
  function HowOf(l: Label, rid: RunId): How {
    if l.ActRun? && l.rid == rid then Own(l.choice) else Others(Actor(l))
  }

  lemma RunsKeepToThemselves(cfg: Config, s: Slice, l: Label, rid: RunId)
    requires Enabled(cfg, s, l) && rid in s.runs && l != KillRun(rid) && !(l.ActRun? && l.rid == rid)
    ensures rid in Step(cfg, s, l).runs && Step(cfg, s, l).runs[rid] == s.runs[rid]
  {
  }

  /** The runs of the step relation live exactly such histories, whoever else is in the slice. */
  lemma SliceStepIsLawful(cfg: Config, s: Slice, l: Label, rid: RunId, p: Past)
    requires SliceOk(cfg, s) && Enabled(cfg, s, l)
    requires rid in s.runs && l != KillRun(rid)
    requires Lawful(cfg, rid, p) && p.sh == s.sh && p.run == s.runs[rid]
    ensures var s' := Step(cfg, s, l);
      rid in s'.runs && Lawful(cfg, rid, p.Then(s'.sh, s'.runs[rid], HowOf(l, rid)))
  {
    var s' := Step(cfg, s, l);
    StepOk(cfg, s, l);
    if l.ActRun? && l.rid == rid {
      OwnStepIsLawful(cfg, rid, p, l.choice);
    } else {
      RunsKeepToThemselves(cfg, s, l, rid);
      OthersAreLawful(cfg, rid, p, s'.sh, Actor(l));
    }
  }

  // ---------------------------------------------------------- every run of every slice

  /** Does some lawful history end in what run `rid` is, and in what it sees, in `s`? */
  ghost predicate HasPast(cfg: Config, s: Slice, rid: RunId) {
    exists p :: Lawful(cfg, rid, p) && rid in s.runs && p.sh == s.sh && p.run == s.runs[rid]
  }

  lemma PastGoesOn(cfg: Config, s: Slice, l: Label, rid: RunId)
    requires SliceOk(cfg, s) && Enabled(cfg, s, l) && l != KillRun(rid) && HasPast(cfg, s, rid)
    ensures HasPast(cfg, Step(cfg, s, l), rid)
  {
    var p :| Lawful(cfg, rid, p) && p.sh == s.sh && p.run == s.runs[rid];
    SliceStepIsLawful(cfg, s, l, rid, p);
    var s' := Step(cfg, s, l);
    var p' := p.Then(s'.sh, s'.runs[rid], HowOf(l, rid));
    assert Lawful(cfg, rid, p') && p'.sh == s'.sh && p'.run == s'.runs[rid];
  }

  lemma PastBegins(cfg: Config, s: Slice, rid: RunId, knows: bool)
    requires SliceOk(cfg, s) && Enabled(cfg, s, Deliver(rid, knows))
    ensures HasPast(cfg, Step(cfg, s, Deliver(rid, knows)), rid)
  {
    var s' := Step(cfg, s, Deliver(rid, knows));
    StepOk(cfg, s, Deliver(rid, knows));
    BeginningIsLawful(cfg, rid, s'.sh, knows);
    var p := Beginning(s'.sh, knows);
    assert Lawful(cfg, rid, p) && p.sh == s'.sh && p.run == s'.runs[rid];
  }

  /** A run that is there after a step was there before, or has just been delivered. */
  lemma NoRunFromNowhere(cfg: Config, s: Slice, l: Label, rid: RunId)
    requires Enabled(cfg, s, l) && rid in Step(cfg, s, l).runs && !Step(cfg, s, l).runs[rid].pc.Dead?
    ensures (rid in s.runs && !s.runs[rid].pc.Dead? && l != KillRun(rid)) || (l.Deliver? && l.rid == rid)
  {
  }

  lemma {:induction false} RunsHavePasts(cfg: Config, s: Slice, labels: seq<Label>, rid: RunId)
    requires SliceOk(cfg, s) && Legal(cfg, s, labels)
    requires rid in s.runs && !s.runs[rid].pc.Dead? ==> HasPast(cfg, s, rid)
    ensures var s' := After(cfg, s, labels); rid in s'.runs && !s'.runs[rid].pc.Dead? ==> HasPast(cfg, s', rid)
    decreases |labels|
  {
    if labels != [] {
      var l, s1 := labels[0], Step(cfg, s, labels[0]);
      StepOk(cfg, s, l);
      if rid in s1.runs && !s1.runs[rid].pc.Dead? {
        NoRunFromNowhere(cfg, s, l, rid);
        if rid in s.runs { PastGoesOn(cfg, s, l, rid); } else { PastBegins(cfg, s, rid, l.knows); }
      }
      RunsHavePasts(cfg, s1, labels[1..], rid);
    }
  }

  /** So what is true of every history is true of every run of every reachable slice that was not killed. */
  lemma EveryRunHasAPast(cfg: Config, s: Slice, rid: RunId) returns (p: Past)
    requires Reachable(cfg, s) && rid in s.runs && !s.runs[rid].pc.Dead?
    ensures Lawful(cfg, rid, p) && p.sh == s.sh && p.run == s.runs[rid]
  {
    var maxAttempts: nat, now: Time, labels: seq<Label> :|
      1 <= maxAttempts && Legal(cfg, Created(maxAttempts, now), labels)
      && After(cfg, Created(maxAttempts, now), labels) == s;
    CreatedOk(cfg, maxAttempts, now);
    RunsHavePasts(cfg, Created(maxAttempts, now), labels, rid);
    p :| Lawful(cfg, rid, p) && p.sh == s.sh && p.run == s.runs[rid];
  }

  /**
   In every reachable slice: a run that claimed an attempt and went on has said
   scan.started; one that ended the scan itself and has returned has said how it ended, and
   no event names another end.
   */
  lemma EndsAreAnnounced(cfg: Config, s: Slice, rid: RunId)
    requires Reachable(cfg, s) && rid in s.runs && 0 < s.runs[rid].own
    ensures !s.runs[rid].pc.Dead? && !s.runs[rid].pc.Claimed? ==> ScanStarted in s.sh.log
    ensures s.runs[rid].pc == Done(false) && s.runs[rid].exit.Finalized? ==>
      && (ScanCompleted in s.sh.log <==> s.sh.row.status.Succeeded?)
      && (ScanFailed in s.sh.log <==> s.sh.row.status.Failed?)
      && (ScanTimedOut in s.sh.log <==> s.sh.row.status.TimedOut?)
      && (ScanCancelled in s.sh.log <==> s.sh.row.status.Cancelled?)
  {
    if !s.runs[rid].pc.Dead? && !s.runs[rid].pc.Claimed? {
      var p := EveryRunHasAPast(cfg, s, rid);
      var i := |p.trail| - 1;
      StoryHolds(cfg, rid, p, i);
      assert TallyAt(p.trail, i).said[0] == ScanStarted;
      SaidStays(cfg, rid, p, i, ScanStarted);
      if p.run.pc.Done? { FinishedSpeaks(cfg, rid, p); }
    }
  }
}
