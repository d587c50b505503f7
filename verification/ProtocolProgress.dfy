/**
 Which scans can still be finished without a cancel.  Either side is by steps: a scan
 with hope has a next step that brings it closer to its end, and no step of anybody gives
 hope to one that has none.
 */
module ProtocolProgress {
  import opened ScanModel
  import opened Retry
  import opened Protocol
  import opened ProtocolInvariant
  import opened ProtocolRuns
  import opened ProtocolSlices
  import opened ProtocolTheorems
  import opened ProtocolOutcomes
  import opened ProtocolFutures
  import opened ProtocolWitnesses
  import opened ScanSystem

  // -------------------------------------------------------- every claimant is known

  /** The run that claimed an attempt is there, and has claimed no other. */
  ghost predicate Known(s: Slice) {
    forall i :: i in s.sh.claims ==> s.sh.claims[i] in s.runs && s.runs[s.sh.claims[i]].own == i
  }

  lemma StagesClaimNothing(sh: Shared, rid: RunId, r: Run, c: Choice)
    requires InTimeoutBlock(r.pc)
    ensures var (sh', r') := StageStep(sh, rid, r, c); sh'.claims == sh.claims && r'.own == r.own
  {
  }

  lemma HandlersClaimNothing(cfg: Config, sh: Shared, rid: RunId, r: Run, c: Choice)
    requires InHandler(r.pc)
    ensures var (sh', r') := HandlerStep(cfg, sh, rid, r, c); sh'.claims == sh.claims && r'.own == r.own
  {
  }

  /** A run claims at most once, and then nobody has claimed this attempt before. */
  lemma ClaimsOnce(cfg: Config, sh: Shared, rid: RunId, r: Run, c: Choice)
    requires RunOk(cfg, sh, rid, r) && RunEnabled(cfg, sh, r, c) && ClaimsOk(sh)
    ensures var (sh', r') := RunStep(cfg, sh, rid, r, c);
      || (sh'.claims == sh.claims && r'.own == r.own)
      || (r.own == 0 && r'.own !in sh.claims && sh'.claims == sh.claims[r'.own := rid])
  {
    if InTimeoutBlock(r.pc) {
      if !c.act.Expire? { StagesClaimNothing(sh, rid, r, c); }
    } else if InHandler(r.pc) {
      HandlersClaimNothing(cfg, sh, rid, r, c);
    }
  }

  lemma KnownAfterRun(cfg: Config, s: Slice, rid: RunId, c: Choice)
    requires SliceOk(cfg, s) && Known(s) && Enabled(cfg, s, ActRun(rid, c))
    ensures Known(Step(cfg, s, ActRun(rid, c)))
  {
    assert RunOk(cfg, s.sh, rid, s.runs[rid]);
    ClaimsOnce(cfg, s.sh, rid, s.runs[rid], c);
    var (sh', r') := RunStep(cfg, s.sh, rid, s.runs[rid], c);
    KnownAfter(s, rid, sh', r');
  }

  lemma KnownAfter(s: Slice, rid: RunId, sh': Shared, r': Run)
    requires Known(s) && rid in s.runs && forall i :: i in s.sh.claims ==> 1 <= i
    requires
      || (sh'.claims == s.sh.claims && r'.own == s.runs[rid].own)
      || (s.runs[rid].own == 0 && r'.own !in s.sh.claims && sh'.claims == s.sh.claims[r'.own := rid])
    ensures Known(Moved1(s, rid, sh', r'))
  {
  }

  lemma KnownStep(cfg: Config, s: Slice, l: Label)
    requires SliceOk(cfg, s) && Known(s) && Enabled(cfg, s, l)
    ensures Known(Step(cfg, s, l))
  {
    if l.ActRun? {
      KnownAfterRun(cfg, s, l.rid, l.choice);
    } else {
      EnvClaimsNothing(cfg, s, l);
    }
  }

  lemma EnvClaimsNothing(cfg: Config, s: Slice, l: Label)
    requires Enabled(cfg, s, l) && !l.ActRun?
    ensures var s' := EnvStep(cfg, s, l);
      && s'.sh.claims == s.sh.claims
      && forall rid :: rid in s.runs ==> rid in s'.runs && s'.runs[rid].own == s.runs[rid].own
  {
  }

  lemma {:induction false} KnownForGood(cfg: Config, s: Slice, labels: seq<Label>)
    requires SliceOk(cfg, s) && Known(s) && Legal(cfg, s, labels)
    ensures Known(After(cfg, s, labels))
    decreases |labels|
  {
    if labels != [] {
      StepOk(cfg, s, labels[0]);
      KnownStep(cfg, s, labels[0]);
      KnownForGood(cfg, Step(cfg, s, labels[0]), labels[1..]);
    }
  }

  lemma ReachableKnown(cfg: Config, s: Slice)
    requires Reachable(cfg, s)
    ensures Known(s)
  {
    var maxAttempts: nat, now: Time, labels: seq<Label> :|
      1 <= maxAttempts && Legal(cfg, Created(maxAttempts, now), labels)
      && After(cfg, Created(maxAttempts, now), labels) == s;
    CreatedOk(cfg, maxAttempts, now);
    KnownForGood(cfg, Created(maxAttempts, now), labels);
  }

  // ----------------------------------------------------------------- finishing, and hope

  /** Nobody cancels and nobody dies. */
  predicate Peaceful(l: Label) {
    !l.ActCancel? && !l.KillRun? && !l.KillDispatcher?
  }

  /** Besides, nothing is raised, the timeout does not expire, and every send and insert works. */
  predicate Smooth(l: Label) {
    && Peaceful(l)
    && (l.ActRun? ==> l.choice.act.Proceed? && l.choice.ok)
    && (l.Send? ==> l.ok)
  }

  ghost predicate Ends(cfg: Config, s: Slice, labels: seq<Label>) {
    Legal(cfg, s, labels) && Terminal(After(cfg, s, labels).sh.row.status)
  }

  ghost predicate MayFinish(cfg: Config, s: Slice) {
    exists labels: seq<Label> :: Ends(cfg, s, labels) && forall l :: l in labels ==> Peaceful(l)
  }

  ghost predicate MayFinishSmoothly(cfg: Config, s: Slice) {
    exists labels: seq<Label> :: Ends(cfg, s, labels) && forall l :: l in labels ==> Smooth(l)
  }

  /** A run that can take the scan out of QUEUED, if its transition is stamped late enough. */
  ghost predicate CanWake(sh: Shared, r: Run) {
    || r.pc.Delivered?
    || (r.pc.ReadQueued? && r.mem.attempt == sh.row.attempt)
    || (r.pc.FailCas? && r.pc.origin.Unregistered?)
  }

  ghost predicate MayWake(s: Slice) {
    exists rid :: rid in s.runs && CanWake(s.sh, s.runs[rid])
  }

  /** Some outbox row, of whatever attempt, will still be sent. */
  ghost predicate Promised(s: Slice) {
    exists a :: a in s.sh.outbox && !s.sh.outbox[a].published && !SentFor(s, a)
  }

  /** The claimant of the current attempt is alive and not bound to strand it. */
  ghost predicate InGoodHands(s: Slice) {
    var a := s.sh.row.attempt;
    && a in s.sh.claims && s.sh.claims[a] in s.runs
    && !s.runs[s.sh.claims[a]].pc.Dead? && Doom(s.runs[s.sh.claims[a]]).None?
  }

  ghost predicate Hope(s: Slice) {
    || Terminal(s.sh.row.status)
    || (s.sh.row.status.Queued? && (Promised(s) || s.sh.messages > 0 || MayWake(s)))
    || (Active(s.sh.row.status) && InGoodHands(s))
  }

  // ------------------------------------------------------------- hope is enough

  lemma FinishesLater(cfg: Config, s: Slice, l: Label)
    requires Enabled(cfg, s, l) && Smooth(l) && MayFinishSmoothly(cfg, Step(cfg, s, l))
    ensures MayFinishSmoothly(cfg, s)
  {
    var labels: seq<Label> :| Ends(cfg, Step(cfg, s, l), labels) && forall k :: k in labels ==> Smooth(k);
    var all := [l] + labels;
    assert all[0] == l && all[1..] == labels;
    assert Ends(cfg, s, all);
  }

  lemma FinishedAlready(cfg: Config, s: Slice)
    requires Terminal(s.sh.row.status)
    ensures MayFinishSmoothly(cfg, s)
  {
    assert Ends(cfg, s, []);
  }

  /** What the lemmas below start from. */
  ghost predicate Sound(cfg: Config, delays: nat -> real, s: Slice) {
    SliceOk(cfg, s) && Known(s) && forall a: nat :: cfg.drawable(a, delays(a))
  }

  lemma SoundStep(cfg: Config, delays: nat -> real, s: Slice, l: Label)
    requires Sound(cfg, delays, s) && Enabled(cfg, s, l)
    ensures Sound(cfg, delays, Step(cfg, s, l))
  {
    StepOk(cfg, s, l);
    KnownStep(cfg, s, l);
  }

  lemma BelowRemains(after: Scan, before: Scan)
    requires after.attempt <= after.maxAttempts == before.maxAttempts && before.attempt <= before.maxAttempts
    requires Below(after, before) && !before.status.Pending? && !after.status.Pending? && !Terminal(before.status)
    ensures Remaining(after) < Remaining(before)
  {
  }

  /** A status change brings the scan closer to its end. */
  lemma ChangeRemains(cfg: Config, s: Slice, l: Label)
    requires SliceOk(cfg, s) && Enabled(cfg, s, l)
    requires Step(cfg, s, l).sh.row != s.sh.row && !Terminal(s.sh.row.status)
    ensures SharedOk(cfg, Step(cfg, s, l).sh)
    ensures Remaining(Step(cfg, s, l).sh.row) < Remaining(s.sh.row)
  {
    StepOk(cfg, s, l);
    BelowRemains(Step(cfg, s, l).sh.row, s.sh.row);
  }

  /** The choice of a run that goes on: the countdown is used where one is drawn. */
  function Onward(delays: nat -> real, sh: Shared, r: Run): Choice {
    Plainly(sh.now, delays(r.mem.attempt))
  }

  /** In good hands, the run is neither done nor dead and has the row in memory. */
  lemma ClaimantWorks(cfg: Config, sh: Shared, rid: RunId, r: Run)
    requires RunOk(cfg, sh, rid, r) && Active(sh.row.status) && r.own == sh.row.attempt && 0 < r.own
    requires !r.pc.Dead? && Doom(r).None?
    ensures !r.pc.Done?
  {
  }

  lemma ClaimantGoesOn(cfg: Config, delays: nat -> real, s: Slice, rid: RunId)
    requires Sound(cfg, delays, s) && Active(s.sh.row.status) && InGoodHands(s)
    requires rid == s.sh.claims[s.sh.row.attempt]
    ensures var c := Onward(delays, s.sh, s.runs[rid]);
      && Enabled(cfg, s, ActRun(rid, c))
      && var s' := Step(cfg, s, ActRun(rid, c));
         Doom(s'.runs[rid]).None? && !s'.runs[rid].pc.Dead? && rid in s'.runs
         && Distance(s'.runs[rid].pc) < Distance(s.runs[rid].pc)
  {
    var r := s.runs[rid];
    var c := Onward(delays, s.sh, r);
    assert RunOk(cfg, s.sh, rid, r) && ClaimsOk(s.sh);
    ClaimantWorks(cfg, s.sh, rid, r);
    DoomStep(cfg, s.sh, rid, r, c);
    RunAdvances(cfg, s.sh, rid, r, c);
    NobodyDies(cfg, s.sh, rid, r, c);
  }

  lemma StagesKillNobody(sh: Shared, rid: RunId, r: Run, c: Choice)
    requires InTimeoutBlock(r.pc)
    ensures !StageStep(sh, rid, r, c).1.pc.Dead?
  {
  }

  lemma HandlersKillNobody(cfg: Config, sh: Shared, rid: RunId, r: Run, c: Choice)
    requires InHandler(r.pc)
    ensures !HandlerStep(cfg, sh, rid, r, c).1.pc.Dead?
  {
    if HandlerCas(r.pc) { HandlerMoveAdvances(sh, rid, r, PlanOf(r.pc), c.stamp); }
  }

  lemma NobodyDies(cfg: Config, sh: Shared, rid: RunId, r: Run, c: Choice)
    requires RunEnabled(cfg, sh, r, c)
    ensures !RunStep(cfg, sh, rid, r, c).1.pc.Dead?
  {
    if InTimeoutBlock(r.pc) {
      StagesKillNobody(sh, rid, r, c);
    } else if InHandler(r.pc) {
      HandlersKillNobody(cfg, sh, rid, r, c);
    }
  }

  /** After the claimant's step there is still hope. */
  lemma ClaimantKeepsHope(cfg: Config, delays: nat -> real, s: Slice, rid: RunId)
    requires Sound(cfg, delays, s) && Active(s.sh.row.status) && InGoodHands(s)
    requires rid == s.sh.claims[s.sh.row.attempt]
    ensures var c := Onward(delays, s.sh, s.runs[rid]);
      Enabled(cfg, s, ActRun(rid, c)) && Hope(Step(cfg, s, ActRun(rid, c)))
  {
    var c := Onward(delays, s.sh, s.runs[rid]);
    ClaimantGoesOn(cfg, delays, s, rid);
    var s' := Step(cfg, s, ActRun(rid, c));
    StepOk(cfg, s, ActRun(rid, c));
    KnownStep(cfg, s, ActRun(rid, c));
    if s'.sh.row.status.Queued? {
      assert RunOk(cfg, s.sh, rid, s.runs[rid]);
      WorkersFrame(cfg, s.sh, rid, s.runs[rid], c);
      assert !SentFor(s', s'.sh.row.attempt);
      assert Promised(s');
    }
  }

  lemma {:induction false} FinishActive(cfg: Config, delays: nat -> real, s: Slice, rid: RunId)
    requires Sound(cfg, delays, s) && Active(s.sh.row.status) && InGoodHands(s)
    requires rid == s.sh.claims[s.sh.row.attempt]
    ensures MayFinishSmoothly(cfg, s)
    decreases Remaining(s.sh.row), Distance(s.runs[rid].pc)
  {
    var c := Onward(delays, s.sh, s.runs[rid]);
    ClaimantGoesOn(cfg, delays, s, rid);
    ClaimantKeepsHope(cfg, delays, s, rid);
    SoundStep(cfg, delays, s, ActRun(rid, c));
    var s' := Step(cfg, s, ActRun(rid, c));
    if s'.sh.row != s.sh.row {
      ChangeRemains(cfg, s, ActRun(rid, c));
      HopeFinishes(cfg, delays, s');
    } else {
      assert Guarantee(cfg, s.sh, s'.sh, Some(rid)) by { StepOk(cfg, s, ActRun(rid, c)); }
      FinishActive(cfg, delays, s', rid);
    }
    FinishesLater(cfg, s, ActRun(rid, c));
  }

  /** A run that can wake the scan takes it out of QUEUED, or comes closer to it. */
  lemma WakerWakes(cfg: Config, sh: Shared, rid: RunId, r: Run, c: Choice)
    requires SharedOk(cfg, sh) && RunOk(cfg, sh, rid, r) && sh.row.status.Queued? && CanWake(sh, r)
    requires c.stamp == sh.now && c.act.Proceed?
    ensures RunEnabled(cfg, sh, r, c)
    ensures var (sh', r') := RunStep(cfg, sh, rid, r, c);
      || (sh'.row == sh.row && CanWake(sh', r'))
      || sh'.row.status.Failed?
      || (sh'.row.status.Preparing? && sh'.row.attempt in sh'.claims && sh'.claims[sh'.row.attempt] == rid
          && Doom(r').None? && !r'.pc.Dead?)
  {
  }

  lemma {:induction false} FinishFromWaker(cfg: Config, delays: nat -> real, s: Slice, rid: RunId)
    requires Sound(cfg, delays, s) && s.sh.row.status.Queued? && rid in s.runs && CanWake(s.sh, s.runs[rid])
    ensures MayFinishSmoothly(cfg, s)
    decreases Remaining(s.sh.row), Distance(s.runs[rid].pc)
  {
    var c := Onward(delays, s.sh, s.runs[rid]);
    assert RunOk(cfg, s.sh, rid, s.runs[rid]);
    WakerWakes(cfg, s.sh, rid, s.runs[rid], c);
    RunAdvances(cfg, s.sh, rid, s.runs[rid], c);
    SoundStep(cfg, delays, s, ActRun(rid, c));
    var s' := Step(cfg, s, ActRun(rid, c));
    if s'.sh.row == s.sh.row {
      FinishFromWaker(cfg, delays, s', rid);
    } else {
      ChangeRemains(cfg, s, ActRun(rid, c));
      HopeFinishes(cfg, delays, s');
    }
    FinishesLater(cfg, s, ActRun(rid, c));
  }

  lemma {:induction false} FreshRun(ids: set<RunId>) returns (rid: RunId)
    ensures rid !in ids && forall i :: i in ids ==> i < rid
  {
    if ids == {} {
      rid := 0;
    } else {
      var x :| x in ids;
      rid := FreshRun(ids - {x});
      if rid <= x { rid := x + 1; }
      assert ids == (ids - {x}) + {x};
    }
  }

  lemma FinishFromMessage(cfg: Config, delays: nat -> real, s: Slice)
    requires Sound(cfg, delays, s) && s.sh.row.status.Queued? && s.sh.messages > 0
    ensures MayFinishSmoothly(cfg, s)
    decreases Remaining(s.sh.row), 33
  {
    var rid := FreshRun(s.runs.Keys);
    SoundStep(cfg, delays, s, Deliver(rid, true));
    FinishFromWaker(cfg, delays, Step(cfg, s, Deliver(rid, true)), rid);
    FinishesLater(cfg, s, Deliver(rid, true));
  }

  lemma FinishFromLocked(cfg: Config, delays: nat -> real, s: Slice, d: DispatcherId)
    requires Sound(cfg, delays, s) && s.sh.row.status.Queued? && d in s.dispatchers && s.dispatchers[d].Locked?
    ensures MayFinishSmoothly(cfg, s)
    decreases Remaining(s.sh.row), 34
  {
    assert s.dispatchers[d].attempt in s.sh.outbox;
    SoundStep(cfg, delays, s, Send(d, true));
    FinishFromMessage(cfg, delays, Step(cfg, s, Send(d, true)));
    FinishesLater(cfg, s, Send(d, true));
  }

  lemma FinishFromFree(cfg: Config, delays: nat -> real, s: Slice, a: nat)
    requires Sound(cfg, delays, s) && s.sh.row.status.Queued?
    requires a in s.sh.outbox && !s.sh.outbox[a].published && !Held(s, a)
    ensures MayFinishSmoothly(cfg, s)
    decreases Remaining(s.sh.row), 35
  {
    var d := FreshRun(s.dispatchers.Keys);
    SoundStep(cfg, delays, s, Lock(d, a));
    FinishFromLocked(cfg, delays, Step(cfg, s, Lock(d, a)), d);
    FinishesLater(cfg, s, Lock(d, a));
  }

  lemma FinishFromRefused(cfg: Config, delays: nat -> real, s: Slice, d: DispatcherId)
    requires Sound(cfg, delays, s) && s.sh.row.status.Queued? && d in s.dispatchers && s.dispatchers[d].Refused?
    ensures MayFinishSmoothly(cfg, s)
    decreases Remaining(s.sh.row), 36
  {
    var a := s.dispatchers[d].attempt;
    assert a in s.sh.outbox && !s.sh.outbox[a].published;
    SoundStep(cfg, delays, s, Record(d));
    FinishFromFree(cfg, delays, Step(cfg, s, Record(d)), a);
    FinishesLater(cfg, s, Record(d));
  }

  lemma FinishFromPromise(cfg: Config, delays: nat -> real, s: Slice)
    requires Sound(cfg, delays, s) && s.sh.row.status.Queued? && Promised(s)
    ensures MayFinishSmoothly(cfg, s)
    decreases Remaining(s.sh.row), 37
  {
    var a :| a in s.sh.outbox && !s.sh.outbox[a].published && !SentFor(s, a);
    if Held(s, a) {
      var d :| d in s.dispatchers && s.dispatchers[d].attempt == a;
      if s.dispatchers[d].Locked? {
        FinishFromLocked(cfg, delays, s, d);
      } else {
        assert s.dispatchers[d] != Sent(a);
        FinishFromRefused(cfg, delays, s, d);
      }
    } else {
      FinishFromFree(cfg, delays, s, a);
    }
  }

  lemma FinishQueued(cfg: Config, delays: nat -> real, s: Slice)
    requires Sound(cfg, delays, s) && s.sh.row.status.Queued?
    requires Promised(s) || s.sh.messages > 0 || MayWake(s)
    ensures MayFinishSmoothly(cfg, s)
    decreases Remaining(s.sh.row), 38
  {
    if MayWake(s) {
      var rid :| rid in s.runs && CanWake(s.sh, s.runs[rid]);
      FinishFromWaker(cfg, delays, s, rid);
    } else if s.sh.messages > 0 {
      FinishFromMessage(cfg, delays, s);
    } else {
      FinishFromPromise(cfg, delays, s);
    }
  }

  /** Whoever is to move next, with hope there is a way to the end. */
  lemma HopeFinishes(cfg: Config, delays: nat -> real, s: Slice)
    requires Sound(cfg, delays, s) && Hope(s)
    ensures MayFinishSmoothly(cfg, s)
    decreases Remaining(s.sh.row), 39
  {
    if Active(s.sh.row.status) {
      FinishActive(cfg, delays, s, s.sh.claims[s.sh.row.attempt]);
    } else if s.sh.row.status.Queued? {
      FinishQueued(cfg, delays, s);
    } else {
      FinishedAlready(cfg, s);
    }
  }

  // ------------------------------------------------------- without hope there is none

  /** A run that is not to wake the scan leaves a QUEUED scan and its outbox alone. */
  lemma SleepersSleep(cfg: Config, sh: Shared, rid: RunId, r: Run, c: Choice)
    requires RunOk(cfg, sh, rid, r) && RunEnabled(cfg, sh, r, c)
    requires sh.row.status.Queued? && !CanWake(sh, r)
    ensures var (sh', r') := RunStep(cfg, sh, rid, r, c);
      sh'.row == sh.row && sh'.outbox == sh.outbox && sh'.messages == sh.messages && !CanWake(sh', r')
  {
    StepShape(cfg, sh, rid, r, c);
    SleepersRow(cfg, sh, rid, r, c);
  }

  lemma SleepersRow(cfg: Config, sh: Shared, rid: RunId, r: Run, c: Choice)
    requires RunOk(cfg, sh, rid, r) && RunEnabled(cfg, sh, r, c)
    requires sh.row.status.Queued? && !CanWake(sh, r)
    ensures var (sh', r') := RunStep(cfg, sh, rid, r, c); sh'.row == sh.row && !CanWake(sh', r')
  {
    if 0 < r.own && RunStep(cfg, sh, rid, r, c).0.row != sh.row { WritersOwn(cfg, sh, rid, r, c); }
  }

  /** Nobody has anything to do with a QUEUED scan any more. */
  ghost predicate Asleep(s: Slice) {
    s.sh.row.status.Queued? && !Promised(s) && s.sh.messages == 0 && !MayWake(s)
  }

  lemma AsleepAfterRun(cfg: Config, s: Slice, rid: RunId, c: Choice)
    requires SliceOk(cfg, s) && Enabled(cfg, s, ActRun(rid, c)) && Asleep(s)
    ensures var s' := Step(cfg, s, ActRun(rid, c)); Asleep(s') && s'.sh.row == s.sh.row
  {
    assert RunOk(cfg, s.sh, rid, s.runs[rid]);
    SleepersSleep(cfg, s.sh, rid, s.runs[rid], c);
    var s' := Step(cfg, s, ActRun(rid, c));
    SamePromises(s, s');
  }

  lemma SamePromises(s: Slice, s': Slice)
    requires s'.sh.outbox == s.sh.outbox && s'.dispatchers == s.dispatchers
    ensures Promised(s') ==> Promised(s)
  {
    if Promised(s') {
      var a :| a in s'.sh.outbox && !s'.sh.outbox[a].published && !SentFor(s', a);
      assert !SentFor(s, a);
    }
  }

  /** Every dispatcher still at work has sent its message, and nothing is left to be locked. */
  lemma OnlyRecords(cfg: Config, s: Slice, l: Label)
    requires SliceOk(cfg, s) && Enabled(cfg, s, l) && Asleep(s) && (l.Lock? || l.Send? || l.Record?)
    ensures l.Record? && s.dispatchers[l.did].Sent?
  {
    if !l.Lock? { SentForHolder(s, l.did, s.dispatchers[l.did].attempt); }
  }

  lemma AsleepAfterRecord(cfg: Config, s: Slice, d: DispatcherId)
    requires SliceOk(cfg, s) && Enabled(cfg, s, Record(d)) && Asleep(s) && s.dispatchers[d].Sent?
    ensures var s' := EnvStep(cfg, s, Record(d)); Asleep(s') && s'.sh.row == s.sh.row
  {
    var s' := EnvStep(cfg, s, Record(d));
    if Promised(s') {
      var a :| a in s'.sh.outbox && !s'.sh.outbox[a].published && !SentFor(s', a);
      SentForOthers(s, s', d, a);
      assert Promised(s);
    }
    SameWakers(s, s');
  }

  lemma SameWakers(s: Slice, s': Slice)
    requires s'.runs == s.runs && s'.sh.row == s.sh.row
    ensures MayWake(s') ==> MayWake(s)
  {
  }

  lemma AsleepStep(cfg: Config, s: Slice, l: Label)
    requires SliceOk(cfg, s) && Enabled(cfg, s, l) && Peaceful(l) && Asleep(s)
    ensures var s' := Step(cfg, s, l); Asleep(s') && s'.sh.row == s.sh.row
  {
    if l.ActRun? {
      AsleepAfterRun(cfg, s, l.rid, l.choice);
    } else if l.Lock? || l.Send? || l.Record? {
      OnlyRecords(cfg, s, l);
      AsleepAfterRecord(cfg, s, l.did);
    } else {
      SamePromises(s, EnvStep(cfg, s, l));
      SameWakers(s, EnvStep(cfg, s, l));
    }
  }

  /** The claimant of the attempt is dead, or bound to leave the scan where it is. */
  ghost predicate Abandoned(s: Slice, rid: RunId) {
    && Active(s.sh.row.status)
    && s.sh.row.attempt in s.sh.claims && s.sh.claims[s.sh.row.attempt] == rid
    && rid in s.runs && s.runs[rid].own == s.sh.row.attempt
    && (s.runs[rid].pc.Dead? || Doom(s.runs[rid]).Some?)
  }

  lemma DoomedWritesNothing(cfg: Config, sh: Shared, rid: RunId, r: Run, c: Choice)
    requires RunOk(cfg, sh, rid, r) && RunEnabled(cfg, sh, r, c)
    requires Active(sh.row.status) && 0 < r.own == sh.row.attempt && Doom(r).Some?
    ensures RunStep(cfg, sh, rid, r, c).0.row == sh.row
  {
    if RunStep(cfg, sh, rid, r, c).0.row != sh.row { WritersOwn(cfg, sh, rid, r, c); }
  }

  lemma StrangerWritesNothing(cfg: Config, sh: Shared, rid: RunId, r: Run, c: Choice)
    requires RunOk(cfg, sh, rid, r) && RunEnabled(cfg, sh, r, c) && Active(sh.row.status)
    requires sh.row.attempt in sh.claims && sh.claims[sh.row.attempt] != rid
    ensures RunStep(cfg, sh, rid, r, c).0.row == sh.row
  {
    if 0 < r.own && RunStep(cfg, sh, rid, r, c).0.row != sh.row { WritersOwn(cfg, sh, rid, r, c); }
  }

  lemma AbandonedAfterRun(cfg: Config, s: Slice, actor: RunId, c: Choice, rid: RunId)
    requires SliceOk(cfg, s) && Enabled(cfg, s, ActRun(actor, c)) && Abandoned(s, rid)
    ensures var s' := Step(cfg, s, ActRun(actor, c)); Abandoned(s', rid) && s'.sh.row == s.sh.row
  {
    assert RunOk(cfg, s.sh, actor, s.runs[actor]) && ClaimsOk(s.sh);
    ClaimsOnce(cfg, s.sh, actor, s.runs[actor], c);
    if actor == rid {
      DoomedWritesNothing(cfg, s.sh, rid, s.runs[rid], c);
      DoomStep(cfg, s.sh, rid, s.runs[rid], c);
    } else {
      StrangerWritesNothing(cfg, s.sh, actor, s.runs[actor], c);
    }
  }

  lemma AbandonedStep(cfg: Config, s: Slice, l: Label, rid: RunId)
    requires SliceOk(cfg, s) && Enabled(cfg, s, l) && Peaceful(l) && Abandoned(s, rid)
    ensures var s' := Step(cfg, s, l); Abandoned(s', rid) && s'.sh.row == s.sh.row
  {
    if l.ActRun? {
      AbandonedAfterRun(cfg, s, l.rid, l.choice, rid);
    } else {
      EnvClaimsNothing(cfg, s, l);
      EnvLeavesRun(cfg, s, l, rid);
    }
  }

  ghost predicate Hopeless(s: Slice) {
    Asleep(s) || exists rid :: Abandoned(s, rid)
  }

  lemma {:induction false} HopelessForGood(cfg: Config, s: Slice, labels: seq<Label>)
    requires SliceOk(cfg, s) && Legal(cfg, s, labels) && Hopeless(s)
    requires forall l :: l in labels ==> Peaceful(l)
    ensures After(cfg, s, labels).sh.row == s.sh.row
    decreases |labels|
  {
    if labels != [] {
      var l, s' := labels[0], Step(cfg, s, labels[0]);
      StepOk(cfg, s, l);
      if Asleep(s) {
        AsleepStep(cfg, s, l);
      } else {
        var rid :| Abandoned(s, rid);
        AbandonedStep(cfg, s, l, rid);
      }
      HopelessForGood(cfg, s', labels[1..]);
    }
  }

  lemma HopelessNeverFinishes(cfg: Config, s: Slice)
    requires SliceOk(cfg, s) && Hopeless(s)
    ensures !MayFinish(cfg, s)
  {
    if MayFinish(cfg, s) {
      var labels: seq<Label> :| Ends(cfg, s, labels) && forall l :: l in labels ==> Peaceful(l);
      HopelessForGood(cfg, s, labels);
    }
  }

  /** Between hope and none there is nothing. */
  lemma HopeOrNone(cfg: Config, s: Slice)
    requires SliceOk(cfg, s) && Known(s) && !Hope(s)
    ensures Hopeless(s)
  {
    if !s.sh.row.status.Queued? {
      assert ClaimsOk(s.sh);
      assert Abandoned(s, s.sh.claims[s.sh.row.attempt]);
    }
  }

  /**
   Which scans can still be finished without a cancel and without a death: a QUEUED scan
   if and only if some outbox row is still to be sent, a message is queued or a run is on
   its way to a claim that can win; an active one if and only if the claimant of its
   attempt is alive and not bound to one of the three exceptions.  If it can be finished
   at all, it can be finished with nothing going wrong.
   */
  lemma FinishesExactly(cfg: Config, delays: nat -> real, s: Slice)
    requires Reachable(cfg, s) && forall a: nat :: cfg.drawable(a, delays(a))
    ensures MayFinish(cfg, s) <==> Hope(s)
    ensures MayFinishSmoothly(cfg, s) <==> Hope(s)
  {
    ReachableOk(cfg, s);
    ReachableKnown(cfg, s);
    if Hope(s) {
      HopeFinishes(cfg, delays, s);
    } else {
      HopeOrNone(cfg, s);
      HopelessNeverFinishes(cfg, s);
    }
    SmoothIsPeaceful(cfg, s);
  }

  lemma SmoothIsPeaceful(cfg: Config, s: Slice)
    ensures MayFinishSmoothly(cfg, s) ==> MayFinish(cfg, s)
  {
    if MayFinishSmoothly(cfg, s) {
      var labels: seq<Label> :| Ends(cfg, s, labels) && forall l :: l in labels ==> Smooth(l);
      assert forall l :: l in labels ==> Peaceful(l);
    }
  }

  /** So a QUEUED scan can be finished unless a worker has died between delivery and claim. */
  lemma QueuedMayFinish(cfg: Config, delays: nat -> real, s: Slice)
    requires Reachable(cfg, s) && forall a: nat :: cfg.drawable(a, delays(a))
    requires s.sh.row.status.Queued? && !s.sh.lostDelivery
    ensures MayFinishSmoothly(cfg, s)
  {
    ReachableOk(cfg, s);
    if RowPending(s) {
      assert Promised(s);
    } else if WakerRuns(s) {
      var rid :| rid in s.runs && Waker(s.sh, s.runs[rid]);
      assert CanWake(s.sh, s.runs[rid]);
    }
    FinishesExactly(cfg, delays, s);
  }

  /** The one worker there is has taken the one message there was. */
  ghost predicate Alone(cfg: Config, s: Slice, pc: PC, row: Scan) {
    && Reachable(cfg, s) && s.sh.row == row && s.sh.messages == 0 && s.dispatchers == map[]
    && (forall a :: a in s.sh.outbox ==> s.sh.outbox[a].published)
    && (forall rid :: rid in s.runs ==> rid == 0)
    && 0 in s.runs && s.runs[0].knows && s.runs[0].pc == pc && s.runs[0].seen <= s.sh.now
    && s.runs[0].pending.None? && s.runs[0].exit.Holding?
  }

  lemma DeliveredAlone(cfg: Config, q: Time, m: nat) returns (s: Slice)
    requires 0 < m
    ensures Alone(cfg, s, Delivered, Row(Queued, 0, m, q, None))
  {
    s := DispatchedAlone(cfg, q, m);
    s := Go(cfg, s, Deliver(0, true));
  }

  lemma DispatchedAlone(cfg: Config, q: Time, m: nat) returns (s: Slice)
    requires 0 < m
    ensures Reachable(cfg, s) && s.sh.row == Row(Queued, 0, m, q, None)
    ensures s.sh.messages == 1 && s.dispatchers == map[] && s.runs == map[]
    ensures forall a :: a in s.sh.outbox ==> s.sh.outbox[a].published
  {
    CreatedReachable(cfg, m, q);
    s := Go(cfg, Created(m, q), Lock(0, 0));
    s := Go(cfg, s, Send(0, true));
    s := Go(cfg, s, Record(0));
  }

  lemma ActsAlone(cfg: Config, s: Slice, pc: PC, row: Scan, c: Choice, pc': PC) returns (s': Slice)
    requires Alone(cfg, s, pc, row) && RunEnabled(cfg, s.sh, s.runs[0], c)
    requires var (sh', r') := RunAct(cfg, s.sh, 0, s.runs[0], c);
      && sh' == s.sh.(lostDelivery := sh'.lostDelivery)
      && r'.pc == pc' && r'.knows && r'.pending.None? && r'.exit.Holding?
    ensures Alone(cfg, s', pc', row)
  {
    s' := Go(cfg, s, ActRun(0, c));
  }

  lemma ReadsAlone(cfg: Config, s: Slice, row: Scan) returns (s': Slice)
    requires Alone(cfg, s, Delivered, row) && row.status.Queued?
    ensures Alone(cfg, s', ReadQueued, row)
  {
    s' := ActsAlone(cfg, s, Delivered, row, Plain(s.sh.now), ReadQueued);
  }

  lemma FactoryRaises(cfg: Config, s: Slice, row: Scan) returns (s': Slice)
    requires Alone(cfg, s, ReadQueued, row)
    ensures Alone(cfg, s', Finish(true), row)
  {
    s' := ActsAlone(cfg, s, ReadQueued, row, Plain(s.sh.now).(act := Throw(OtherFault)), Finish(true));
  }

  lemma ReportsAlone(cfg: Config, s: Slice, row: Scan) returns (s': Slice)
    requires Alone(cfg, s, Finish(true), row)
    ensures Alone(cfg, s', Done(true), row)
  {
    s' := ActsAlone(cfg, s, Finish(true), row, Plain(s.sh.now), Done(true));
  }

  /**
   And a delivery is lost without anybody dying where the scanner's factory raises: the
   worker task fails, the scan stays QUEUED, and without a cancel it stays so for good.
   */
  lemma NoPluginNoEnd(cfg: Config, q: Time, m: nat) returns (s: Slice)
    requires 0 < m
    ensures Leaves(cfg, s, 0, Done(true), Holding, Row(Queued, 0, m, q, None)) && !MayFinish(cfg, s)
  {
    var row := Row(Queued, 0, m, q, None);
    s := DeliveredAlone(cfg, q, m);
    s := ReadsAlone(cfg, s, row);
    s := FactoryRaises(cfg, s, row);
    s := ReportsAlone(cfg, s, row);
    NobodyLeft(cfg, s, row);
  }

  lemma NobodyLeft(cfg: Config, s: Slice, row: Scan)
    requires Alone(cfg, s, Done(true), row) && row.status.Queued?
    ensures !MayFinish(cfg, s)
  {
    ReachableOk(cfg, s);
    assert Asleep(s);
    HopelessNeverFinishes(cfg, s);
  }
}
