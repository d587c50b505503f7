/**
 All the scans of a deployment.  Slices do not interact, so whatever holds of every
 reachable slice holds of every scan of every reachable system; creating and retrying
 scans only adds slices.
 */
module ScanSystem {
  import opened ScanModel
  import opened Protocol
  import opened ProtocolInvariant
  import opened ProtocolSlices
  import opened ProtocolTheorems
  import opened ScanService

  type ScanId = nat

  datatype System = System(scans: map<ScanId, Slice>, retryOf: map<ScanId, ScanId>)

  datatype Action =
    | Create(id: ScanId, maxAttempts: nat, now: Time)
    | Retry(id: ScanId, original: ScanId, now: Time)
    | On(id: ScanId, what: Label)

  ghost predicate Possible(cfgs: ScanId -> Config, s: System, a: Action) {
    match a
    case Create(id, maxAttempts, _) => id !in s.scans && 1 <= maxAttempts
    case Retry(id, original, _) =>
      id !in s.scans && original in s.scans && Retryable(s.scans[original].sh.row.status)
    case On(id, what) => id in s.scans && Enabled(cfgs(id), s.scans[id], what)
  }

  ghost function Next(cfgs: ScanId -> Config, s: System, a: Action): System
    requires Possible(cfgs, s, a)
  {
    match a
    case Create(id, maxAttempts, now) => s.(scans := s.scans[id := Created(maxAttempts, now)])
    case Retry(id, original, now) =>
      System(s.scans[id := Created(s.scans[original].sh.row.maxAttempts, now)], s.retryOf[id := original])
    case On(id, what) => s.(scans := s.scans[id := Step(cfgs(id), s.scans[id], what)])
  }

  ghost predicate Run(cfgs: ScanId -> Config, s: System, actions: seq<Action>)
    decreases |actions|
  {
    actions == [] || (Possible(cfgs, s, actions[0]) && Run(cfgs, Next(cfgs, s, actions[0]), actions[1..]))
  }

  ghost function Final(cfgs: ScanId -> Config, s: System, actions: seq<Action>): System
    requires Run(cfgs, s, actions)
    decreases |actions|
  {
    if actions == [] then s else Final(cfgs, Next(cfgs, s, actions[0]), actions[1..])
  }

  const NOTHING := System(map[], map[])

  ghost predicate SystemOk(cfgs: ScanId -> Config, s: System) {
    && (forall id :: id in s.scans ==> Reachable(cfgs(id), s.scans[id]))
    && (forall id :: id in s.retryOf ==>
          && id in s.scans && s.retryOf[id] in s.scans
          && Retryable(s.scans[s.retryOf[id]].sh.row.status)
          && s.scans[s.retryOf[id]].sh.row.maxAttempts == s.scans[id].sh.row.maxAttempts)
  }

  lemma {:induction false} AppendStep(cfg: Config, s: Slice, labels: seq<Label>, l: Label)
    requires Legal(cfg, s, labels) && Enabled(cfg, After(cfg, s, labels), l)
    ensures Legal(cfg, s, labels + [l]) && After(cfg, s, labels + [l]) == Step(cfg, After(cfg, s, labels), l)
    decreases |labels|
  {
    if labels == [] {
      assert [l][1..] == [];
    } else {
      AppendStep(cfg, Step(cfg, s, labels[0]), labels[1..], l);
      assert (labels + [l])[0] == labels[0] && (labels + [l])[1..] == labels[1..] + [l];
    }
  }

  lemma ReachableStep(cfg: Config, s: Slice, l: Label)
    requires Reachable(cfg, s) && Enabled(cfg, s, l)
    ensures Reachable(cfg, Step(cfg, s, l))
  {
    var maxAttempts: nat, now: Time, labels: seq<Label> :|
      1 <= maxAttempts && Legal(cfg, Created(maxAttempts, now), labels)
      && After(cfg, Created(maxAttempts, now), labels) == s;
    AppendStep(cfg, Created(maxAttempts, now), labels, l);
  }

  lemma CreatedReachable(cfg: Config, maxAttempts: nat, now: Time)
    requires 1 <= maxAttempts
    ensures Reachable(cfg, Created(maxAttempts, now))
  {
    assert Legal(cfg, Created(maxAttempts, now), []);
  }

  /** What a step of one scan means to the others and to its retries. */
  ghost predicate Stands(cfg: Config, before: Slice, after: Slice) {
    && Reachable(cfg, after)
    && after.sh.row.maxAttempts == before.sh.row.maxAttempts
    && (Terminal(before.sh.row.status) ==> after.sh.row == before.sh.row)
  }

  lemma StepStands(cfg: Config, s: Slice, l: Label)
    requires Reachable(cfg, s) && Enabled(cfg, s, l)
    ensures Stands(cfg, s, Step(cfg, s, l))
  {
    ReachableStep(cfg, s, l);
    ReachableOk(cfg, s);
    StepOk(cfg, s, l);
    if Terminal(s.sh.row.status) { TerminalStep(cfg, s, l); }
  }

  lemma Replaced(cfgs: ScanId -> Config, s: System, id: ScanId, after: Slice)
    requires SystemOk(cfgs, s) && id in s.scans && Stands(cfgs(id), s.scans[id], after)
    ensures SystemOk(cfgs, s.(scans := s.scans[id := after]))
  {
  }

  lemma Added(cfgs: ScanId -> Config, s: System, id: ScanId, maxAttempts: nat, now: Time)
    requires SystemOk(cfgs, s) && id !in s.scans && 1 <= maxAttempts
    ensures SystemOk(cfgs, s.(scans := s.scans[id := Created(maxAttempts, now)]))
  {
    CreatedReachable(cfgs(id), maxAttempts, now);
  }

  lemma Traced(cfgs: ScanId -> Config, s: System, id: ScanId, original: ScanId)
    requires SystemOk(cfgs, s) && id in s.scans && original in s.scans
    requires Retryable(s.scans[original].sh.row.status)
    requires s.scans[original].sh.row.maxAttempts == s.scans[id].sh.row.maxAttempts
    ensures SystemOk(cfgs, s.(retryOf := s.retryOf[id := original]))
  {
  }

  lemma RetryOk(cfgs: ScanId -> Config, s: System, id: ScanId, original: ScanId, now: Time, s': System)
    requires SystemOk(cfgs, s) && Possible(cfgs, s, Retry(id, original, now))
    requires s' == Next(cfgs, s, Retry(id, original, now))
    ensures SystemOk(cfgs, s')
  {
    var m := s.scans[original].sh.row.maxAttempts;
    assert 1 <= m by { ReachableOk(cfgs(original), s.scans[original]); }
    Added(cfgs, s, id, m, now);
    Traced(cfgs, s.(scans := s.scans[id := Created(m, now)]), id, original);
  }

  lemma NextOk(cfgs: ScanId -> Config, s: System, a: Action)
    requires SystemOk(cfgs, s) && Possible(cfgs, s, a)
    ensures SystemOk(cfgs, Next(cfgs, s, a))
  {
    if a.Create? {
      Added(cfgs, s, a.id, a.maxAttempts, a.now);
    } else if a.Retry? {
      RetryOk(cfgs, s, a.id, a.original, a.now, Next(cfgs, s, a));
    } else {
      var after := Step(cfgs(a.id), s.scans[a.id], a.what);
      StepStands(cfgs(a.id), s.scans[a.id], a.what);
      Replaced(cfgs, s, a.id, after);
      assert Next(cfgs, s, a) == s.(scans := s.scans[a.id := after]);
    }
  }

  /** Is the scan in `s'` what it was in `s`? */
  predicate Unchanged(s: System, s': System, id: ScanId) {
    id in s.scans && id in s'.scans && s'.scans[id].sh.row == s.scans[id].sh.row
  }

  lemma OverStaysOver(cfgs: ScanId -> Config, s: System, a: Action, id: ScanId)
    requires SystemOk(cfgs, s) && Possible(cfgs, s, a)
    requires id in s.scans && Terminal(s.scans[id].sh.row.status)
    ensures Unchanged(s, Next(cfgs, s, a), id)
  {
    if a.On? && a.id == id { StepStands(cfgs(id), s.scans[id], a.what); }
  }

  /**
   Whatever is created, retried and done: every scan of the system is a reachable slice,
   every retry points to a scan that ended without success and has the same number of
   attempts, and a scan that has ended is never changed again, by a retry or otherwise.
   */
  lemma {:induction false} EveryScanIsReachable(cfgs: ScanId -> Config, s: System, actions: seq<Action>, id: ScanId)
    requires SystemOk(cfgs, s) && Run(cfgs, s, actions)
    ensures SystemOk(cfgs, Final(cfgs, s, actions))
    ensures id in s.scans && Terminal(s.scans[id].sh.row.status) ==> Unchanged(s, Final(cfgs, s, actions), id)
    decreases |actions|
  {
    if actions != [] {
      NextOk(cfgs, s, actions[0]);
      if id in s.scans && Terminal(s.scans[id].sh.row.status) { OverStaysOver(cfgs, s, actions[0], id); }
      EveryScanIsReachable(cfgs, Next(cfgs, s, actions[0]), actions[1..], id);
    }
  }

  /** Has `id` been created as a retry of `original`? */
  predicate Retried(actions: seq<Action>, id: ScanId, original: ScanId) {
    exists i :: 0 <= i < |actions| && actions[i].Retry? && actions[i].id == id && actions[i].original == original
  }

  lemma RetriedSplit(actions: seq<Action>, id: ScanId, original: ScanId)
    requires actions != []
    ensures Retried(actions, id, original) <==>
      || (actions[0].Retry? && actions[0].id == id && actions[0].original == original)
      || Retried(actions[1..], id, original)
  {
    var rest := actions[1..];
    if Retried(rest, id, original) {
      var i :| 0 <= i < |rest| && rest[i].Retry? && rest[i].id == id && rest[i].original == original;
      assert actions[i + 1] == rest[i];
    }
    if Retried(actions, id, original) {
      var i :| 0 <= i < |actions| && actions[i].Retry? && actions[i].id == id && actions[i].original == original;
      if i > 0 { assert rest[i - 1] == actions[i]; }
    }
  }

  predicate TracedTo(s: System, id: ScanId, original: ScanId) {
    id in s.retryOf && s.retryOf[id] == original
  }

  lemma TracedStep(cfgs: ScanId -> Config, s: System, a: Action, id: ScanId, original: ScanId)
    requires Possible(cfgs, s, a) && (id in s.retryOf ==> id in s.scans)
    ensures TracedTo(Next(cfgs, s, a), id, original)
      <==> TracedTo(s, id, original) || (a.Retry? && a.id == id && a.original == original)
    ensures var s' := Next(cfgs, s, a); id in s'.retryOf ==> id in s'.scans
  {
  }

  /** A scan is known as a retry of another exactly if it was created as one. */
  lemma {:induction false} TracedExactly(
      cfgs: ScanId -> Config, s: System, actions: seq<Action>, id: ScanId, original: ScanId)
    requires Run(cfgs, s, actions) && (id in s.retryOf ==> id in s.scans)
    ensures TracedTo(Final(cfgs, s, actions), id, original)
      <==> TracedTo(s, id, original) || Retried(actions, id, original)
    decreases |actions|
  {
    if actions != [] {
      TracedStep(cfgs, s, actions[0], id, original);
      RetriedSplit(actions, id, original);
      TracedExactly(cfgs, Next(cfgs, s, actions[0]), actions[1..], id, original);
    }
  }

  lemma FromNothing(cfgs: ScanId -> Config, actions: seq<Action>, id: ScanId)
    requires Run(cfgs, NOTHING, actions)
    requires id in Final(cfgs, NOTHING, actions).scans
    ensures Reachable(cfgs(id), Final(cfgs, NOTHING, actions).scans[id])
  {
    EveryScanIsReachable(cfgs, NOTHING, actions, id);
  }
}
