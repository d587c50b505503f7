/**
 The finding pipeline: a loop that looks every normalized finding up by its fingerprint
 and inserts or updates a row, against its specification, a fold of `Upsert` over a map.
 Rows are objects: a finding met twice in one list is one object in the result.
 */
module Findings {
  import opened ScanModel
  import opened Fingerprint

  type Id = nat

  datatype Key = Key(tenantId: Id, assetId: Id, fingerprint: Fingerprint)

  datatype ScanContext = ScanContext(tenantId: Id, projectId: Id, assetId: Id, scanId: Id, scannerType: string)

  /** What the plugin reports; `rest` is title, severity, confidence and the other descriptive columns. */
  datatype NormalizedFinding = NormalizedFinding(
    ruleId: string, locator: string, description: Option<string>, rest: string)

  datatype Finding = Finding(
    id: Id,
    key: Key,
    projectId: Id,
    description: Option<string>,
    rest: string,
    scanId: Id,
    firstSeenAt: Time,
    lastSeenAt: Time)

  type Table = map<Key, Finding>

  /** The clock and the id generator, as one item of the list is processed. */
  datatype Draw = Draw(now: Time, id: Id)

  datatype Event = FindingCreated(findingId: Id, key: Key) | FindingUpdated(findingId: Id, key: Key)

  function Detail(n: NormalizedFinding): string {
    if n.description.Some? then n.description.value else ""
  }

  function KeyOf(c: ScanContext, n: NormalizedFinding): Key {
    Key(c.tenantId, c.assetId, Compute(Identity(c.scannerType, n.ruleId, n.locator, Detail(n))))
  }

  /** Does no component of the finding's identity contain the separator? */
  predicate PlainFinding(c: ScanContext, n: NormalizedFinding) {
    && Plain(c.scannerType) && Plain(n.ruleId) && Plain(n.locator)
    && (n.description.Some? ==> Plain(n.description.value))
  }

  /** Are these, as far as deduplication goes, the same finding of the same asset? */
  predicate SameFinding(c: ScanContext, n: NormalizedFinding, c': ScanContext, n': NormalizedFinding) {
    && c.tenantId == c'.tenantId && c.assetId == c'.assetId && c.scannerType == c'.scannerType
    && n.ruleId == n'.ruleId && n.locator == n'.locator
    && (if n.description.Some? then n.description.value else "")
       == (if n'.description.Some? then n'.description.value else "")
  }

  /** What the key is made of. */
  lemma KeySpelledOut(c: ScanContext, n: NormalizedFinding)
    ensures KeyOf(c, n).tenantId == c.tenantId && KeyOf(c, n).assetId == c.assetId
    ensures KeyOf(c, n).fingerprint
      == c.scannerType + ['\U{1F}'] + n.ruleId + ['\U{1F}'] + n.locator + ['\U{1F}']
         + if n.description.Some? then n.description.value else ""
  {
    var detail := if n.description.Some? then n.description.value else "";
    var inner := n.locator + ['\U{1F}'] + detail;
    assert c.scannerType + ['\U{1F}'] + (n.ruleId + ['\U{1F}'] + inner)
      == c.scannerType + ['\U{1F}'] + n.ruleId + ['\U{1F}'] + inner;
    assert c.scannerType + ['\U{1F}'] + n.ruleId + ['\U{1F}'] + inner
      == c.scannerType + ['\U{1F}'] + n.ruleId + ['\U{1F}'] + n.locator + ['\U{1F}'] + detail;
  }

  /** Of findings without separators, exactly the same ones share a key. */
  lemma KeyIdentifies(c: ScanContext, n: NormalizedFinding, c': ScanContext, n': NormalizedFinding)
    requires PlainFinding(c, n)
    ensures KeyOf(c, n) == KeyOf(c', n') <==> SameFinding(c, n, c', n')
  {
    if KeyOf(c, n) == KeyOf(c', n') {
      SeparatorFreeIsUnique(
        Identity(c.scannerType, n.ruleId, n.locator, Detail(n)),
        Identity(c'.scannerType, n'.ruleId, n'.locator, Detail(n')));
    }
  }

  // --------------------------------------------------------------- the specification

  function Detected(c: ScanContext, n: NormalizedFinding, d: Draw): Finding {
    Finding(d.id, KeyOf(c, n), c.projectId, n.description, n.rest, c.scanId, d.now, d.now)
  }

  function Redetected(f: Finding, c: ScanContext, d: Draw): Finding {
    f.(scanId := c.scanId, lastSeenAt := d.now)
  }

  function Upsert(t: Table, c: ScanContext, n: NormalizedFinding, d: Draw): Table {
    var k := KeyOf(c, n);
    t[k := if k in t then Redetected(t[k], c, d) else Detected(c, n, d)]
  }

  function EventFor(t: Table, c: ScanContext, n: NormalizedFinding, d: Draw): Event {
    var k := KeyOf(c, n);
    if k in t then FindingUpdated(t[k].id, k) else FindingCreated(d.id, k)
  }

  function Fold(t: Table, c: ScanContext, ns: seq<NormalizedFinding>, ds: seq<Draw>): Table
    requires |ns| == |ds|
    decreases |ns|
  {
    if ns == [] then t else Fold(Upsert(t, c, ns[0], ds[0]), c, ns[1..], ds[1..])
  }

  function Events(t: Table, c: ScanContext, ns: seq<NormalizedFinding>, ds: seq<Draw>): seq<Event>
    requires |ns| == |ds|
    decreases |ns|
  {
    if ns == [] then [] else [EventFor(t, c, ns[0], ds[0])] + Events(Upsert(t, c, ns[0], ds[0]), c, ns[1..], ds[1..])
  }

  lemma Reassociate<A>(xs: seq<A>, ys: seq<A>, zs: seq<A>)
    ensures xs + ys + zs == xs + (ys + zs)
  {
  }

  lemma Tails<A>(xs: seq<A>, ys: seq<A>)
    requires xs != []
    ensures (xs + ys)[0] == xs[0] && (xs + ys)[1..] == xs[1..] + ys
  {
  }

  /** Processing a list in two parts is processing it whole: the same table, the same events. */
  lemma {:induction false} FoldInParts(
      t: Table, c: ScanContext, xs: seq<NormalizedFinding>, ds: seq<Draw>, ys: seq<NormalizedFinding>, es: seq<Draw>)
    requires |xs| == |ds| && |ys| == |es|
    ensures Fold(t, c, xs + ys, ds + es) == Fold(Fold(t, c, xs, ds), c, ys, es)
    decreases |xs|
  {
    if xs == [] {
      assert xs + ys == ys && ds + es == es;
    } else {
      FoldInParts(Upsert(t, c, xs[0], ds[0]), c, xs[1..], ds[1..], ys, es);
      Tails(xs, ys);
      Tails(ds, es);
    }
  }

  lemma {:induction false} EventsInParts(
      t: Table, c: ScanContext, xs: seq<NormalizedFinding>, ds: seq<Draw>, ys: seq<NormalizedFinding>, es: seq<Draw>)
    requires |xs| == |ds| && |ys| == |es|
    ensures Events(t, c, xs + ys, ds + es) == Events(t, c, xs, ds) + Events(Fold(t, c, xs, ds), c, ys, es)
    decreases |xs|
  {
    if xs == [] {
      assert xs + ys == ys && ds + es == es;
    } else {
      EventsInParts(Upsert(t, c, xs[0], ds[0]), c, xs[1..], ds[1..], ys, es);
      Tails(xs, ys);
      Tails(ds, es);
    }
  }

  /** Does the key occur in the list? */
  predicate Occurs(c: ScanContext, ns: seq<NormalizedFinding>, k: Key) {
    exists i :: 0 <= i < |ns| && KeyOf(c, ns[i]) == k
  }

  /**
   What a whole list comes to, key by key.  Exactly the keys of the list are added; a row
   that was there keeps its id, its `first_seen_at` and its description and only moves to
   this scan; rows of other assets and tenants, like any other key, are untouched.
   */
  lemma {:induction false} FoldByKey(t: Table, c: ScanContext, ns: seq<NormalizedFinding>, ds: seq<Draw>, k: Key)
    requires |ns| == |ds|
    ensures var t' := Fold(t, c, ns, ds);
      && (k in t' <==> k in t || Occurs(c, ns, k))
      && (k in t && !Occurs(c, ns, k) ==> t'[k] == t[k])
      && (k in t && Occurs(c, ns, k) ==> t'[k] == t[k].(scanId := c.scanId, lastSeenAt := t'[k].lastSeenAt))
      && (k !in t && Occurs(c, ns, k) ==> t'[k].key == k && t'[k].scanId == c.scanId)
    decreases |ns|
  {
    if ns != [] {
      var t1 := Upsert(t, c, ns[0], ds[0]);
      FoldByKey(t1, c, ns[1..], ds[1..], k);
      OccursSplit(c, ns, k);
    }
  }

  lemma OccursSplit(c: ScanContext, ns: seq<NormalizedFinding>, k: Key)
    requires ns != []
    ensures Occurs(c, ns, k) <==> KeyOf(c, ns[0]) == k || Occurs(c, ns[1..], k)
  {
    if KeyOf(c, ns[0]) == k { assert Occurs(c, ns, k); }
    if Occurs(c, ns[1..], k) {
      var i :| 0 <= i < |ns[1..]| && KeyOf(c, ns[1..][i]) == k;
      assert KeyOf(c, ns[i + 1]) == k;
    }
    if Occurs(c, ns, k) && KeyOf(c, ns[0]) != k {
      var i :| 0 <= i < |ns| && KeyOf(c, ns[i]) == k;
      assert KeyOf(c, ns[1..][i - 1]) == k;
    }
  }

  /**
   Events tell what really changed: the i-th event creates exactly when its key was
   neither in the table nor earlier in the list, so every new key is created once, at
   its first occurrence, and everything else is an update.
   */
  lemma {:induction false} CreatedAtFirstOccurrence(
      t: Table, c: ScanContext, ns: seq<NormalizedFinding>, ds: seq<Draw>, i: nat)
    requires |ns| == |ds| && i < |ns|
    ensures |Events(t, c, ns, ds)| == |ns|
    ensures var e := Events(t, c, ns, ds)[i];
      && e.key == KeyOf(c, ns[i])
      && (e.FindingCreated? <==> e.key !in t && !Occurs(c, ns[..i], e.key))
      && e.key in Fold(t, c, ns, ds) && e.findingId == Fold(t, c, ns, ds)[e.key].id
    decreases |ns|
  {
    EventCount(t, c, ns, ds);
    var t1 := Upsert(t, c, ns[0], ds[0]);
    var k := KeyOf(c, ns[i]);
    if i == 0 {
      FoldByKey(t1, c, ns[1..], ds[1..], k);
    } else {
      CreatedAtFirstOccurrence(t1, c, ns[1..], ds[1..], i - 1);
      assert ns[..i][0] == ns[0] && ns[..i][1..] == ns[1..][..i - 1];
      OccursSplit(c, ns[..i], k);
    }
  }

  /** A new key is born with what its first occurrence said, and only with that. */
  lemma {:induction false} BornAtFirstOccurrence(
      t: Table, c: ScanContext, ns: seq<NormalizedFinding>, ds: seq<Draw>, i: nat)
    requires |ns| == |ds| && i < |ns|
    requires KeyOf(c, ns[i]) !in t && !Occurs(c, ns[..i], KeyOf(c, ns[i]))
    ensures KeyOf(c, ns[i]) in Fold(t, c, ns, ds)
    ensures var f := Fold(t, c, ns, ds)[KeyOf(c, ns[i])];
      && f.id == ds[i].id && f.key == KeyOf(c, ns[i]) && f.projectId == c.projectId && f.scanId == c.scanId
      && f.description == ns[i].description && f.rest == ns[i].rest && f.firstSeenAt == ds[i].now
    decreases |ns|
  {
    var t1, k := Upsert(t, c, ns[0], ds[0]), KeyOf(c, ns[i]);
    if i == 0 {
      FoldByKey(t1, c, ns[1..], ds[1..], k);
    } else {
      assert ns[..i][0] == ns[0] && ns[..i][1..] == ns[1..][..i - 1];
      OccursSplit(c, ns[..i], k);
      BornAtFirstOccurrence(t1, c, ns[1..], ds[1..], i - 1);
    }
  }

  /** `last_seen_at` is the time of the key's last occurrence. */
  lemma {:induction false} SeenAtLastOccurrence(
      t: Table, c: ScanContext, ns: seq<NormalizedFinding>, ds: seq<Draw>, i: nat)
    requires |ns| == |ds| && i < |ns|
    requires !Occurs(c, ns[i + 1..], KeyOf(c, ns[i]))
    ensures KeyOf(c, ns[i]) in Fold(t, c, ns, ds)
    ensures Fold(t, c, ns, ds)[KeyOf(c, ns[i])].lastSeenAt == ds[i].now
    decreases |ns|
  {
    var t1, k := Upsert(t, c, ns[0], ds[0]), KeyOf(c, ns[i]);
    if i == 0 {
      FoldByKey(t1, c, ns[1..], ds[1..], k);
    } else {
      assert ns[1..][i..] == ns[i + 1..];
      SeenAtLastOccurrence(t1, c, ns[1..], ds[1..], i - 1);
    }
  }

  lemma {:induction false} EventCount(t: Table, c: ScanContext, ns: seq<NormalizedFinding>, ds: seq<Draw>)
    requires |ns| == |ds|
    ensures |Events(t, c, ns, ds)| == |ns|
    decreases |ns|
  {
    if ns != [] { EventCount(Upsert(t, c, ns[0], ds[0]), c, ns[1..], ds[1..]); }
  }

  predicate SeenInOrder(t: Table, now: Time) {
    forall k :: k in t ==> t[k].firstSeenAt <= t[k].lastSeenAt <= now
  }

  /** On a monotone clock the table's CHECK on the two times cannot fail. */
  lemma {:induction false} SeenInOrderKept(
      t: Table, c: ScanContext, ns: seq<NormalizedFinding>, ds: seq<Draw>, now: Time)
    requires |ns| == |ds| && SeenInOrder(t, now)
    requires forall i :: 0 <= i < |ds| ==> now <= ds[i].now
    requires forall i, j :: 0 <= i < j < |ds| ==> ds[i].now <= ds[j].now
    ensures SeenInOrder(Fold(t, c, ns, ds), if ds == [] then now else ds[|ds| - 1].now)
    decreases |ns|
  {
    if ns != [] {
      var t1 := Upsert(t, c, ns[0], ds[0]);
      assert SeenInOrder(t1, ds[0].now);
      SeenInOrderKept(t1, c, ns[1..], ds[1..], ds[0].now);
    }
  }

  /** `t` and `events` are what the first `i` items come to. */
  ghost predicate Folded(
      t0: Table, c: ScanContext, ns: seq<NormalizedFinding>, ds: seq<Draw>, i: nat, t: Table, events: seq<Event>)
    requires i <= |ns| == |ds|
  {
    t == Fold(t0, c, ns[..i], ds[..i]) && events == Events(t0, c, ns[..i], ds[..i])
  }

  lemma FoldedOneMore(
      t0: Table, c: ScanContext, ns: seq<NormalizedFinding>, ds: seq<Draw>, i: nat, t: Table, events: seq<Event>)
    requires i < |ns| == |ds| && Folded(t0, c, ns, ds, i, t, events)
    ensures Folded(t0, c, ns, ds, i + 1, Upsert(t, c, ns[i], ds[i]), events + [EventFor(t, c, ns[i], ds[i])])
  {
    assert ns[..i + 1] == ns[..i] + [ns[i]] && ds[..i + 1] == ds[..i] + [ds[i]];
    FoldInParts(t0, c, ns[..i], ds[..i], [ns[i]], [ds[i]]);
    EventsInParts(t0, c, ns[..i], ds[..i], [ns[i]], [ds[i]]);
    assert [ns[i]][1..] == [] && [ds[i]][1..] == [];
  }

  lemma FoldedAll(t0: Table, c: ScanContext, ns: seq<NormalizedFinding>, ds: seq<Draw>, t: Table, events: seq<Event>)
    requires |ns| == |ds| && Folded(t0, c, ns, ds, |ns|, t, events)
    ensures t == Fold(t0, c, ns, ds) && events == Events(t0, c, ns, ds)
  {
    assert ns[..|ns|] == ns && ds[..|ds|] == ds;
  }

  // ---------------------------------------------------------------- rows and the loop

  /** Only two columns of a row are ever written again. */
  class FindingRow {
    const id: Id
    const key: Key
    const projectId: Id
    const description: Option<string>
    const rest: string
    const firstSeenAt: Time
    var scanId: Id
    var lastSeenAt: Time

    constructor (f: Finding)
      ensures Value() == f
    {
      id, key, projectId, description, rest, firstSeenAt :=
        f.id, f.key, f.projectId, f.description, f.rest, f.firstSeenAt;
      scanId, lastSeenAt := f.scanId, f.lastSeenAt;
    }

    function Value(): Finding
      reads this
    {
      Finding(id, key, projectId, description, rest, scanId, firstSeenAt, lastSeenAt)
    }
  }

  /** No row is lost or replaced. */
  predicate Grown(before: map<Key, FindingRow>, after: map<Key, FindingRow>) {
    forall k :: k in before ==> k in after && after[k] == before[k]
  }

  /** Is `found[i]` the one row of the i-th item's key? */
  predicate RowsFound(c: ScanContext, ns: seq<NormalizedFinding>, found: seq<FindingRow>, rows: map<Key, FindingRow>)
    requires |found| == |ns|
  {
    forall i :: 0 <= i < |ns| ==> KeyOf(c, ns[i]) in rows && found[i] == rows[KeyOf(c, ns[i])]
  }

  /** Two items come back as one row exactly if they are the same finding. */
  ghost predicate Merged(c: ScanContext, ns: seq<NormalizedFinding>, found: seq<FindingRow>)
    requires |found| == |ns|
  {
    forall i, j :: 0 <= i < |ns| && 0 <= j < |ns| && PlainFinding(c, ns[i]) ==>
      (found[i] == found[j] <==> SameFinding(c, ns[i], c, ns[j]))
  }

  lemma RowsMerge(c: ScanContext, ns: seq<NormalizedFinding>, found: seq<FindingRow>, rows: map<Key, FindingRow>)
    requires |found| == |ns| && RowsFound(c, ns, found, rows)
    requires forall k :: k in rows ==> rows[k].key == k
    ensures Merged(c, ns, found)
  {
    forall i, j | 0 <= i < |ns| && 0 <= j < |ns| && PlainFinding(c, ns[i])
      ensures found[i] == found[j] <==> SameFinding(c, ns[i], c, ns[j])
    {
      KeyIdentifies(c, ns[i], c, ns[j]);
      assert KeyOf(c, ns[i]) in rows && KeyOf(c, ns[j]) in rows;
      assert found[i].key == KeyOf(c, ns[i]) && found[j].key == KeyOf(c, ns[j]);
    }
  }

  lemma RowsStillFound(
      c: ScanContext, ns: seq<NormalizedFinding>, i: nat, found: seq<FindingRow>, finding: FindingRow,
      rows: map<Key, FindingRow>, rows': map<Key, FindingRow>)
    requires i < |ns| && |found| == i && RowsFound(c, ns[..i], found, rows) && Grown(rows, rows')
    requires KeyOf(c, ns[i]) in rows' && finding == rows'[KeyOf(c, ns[i])]
    ensures RowsFound(c, ns[..i + 1], found + [finding], rows')
  {
    forall j | 0 <= j < i ensures KeyOf(c, ns[j]) in rows' && found[j] == rows'[KeyOf(c, ns[j])] {
      assert KeyOf(c, ns[..i][j]) in rows;
    }
  }

  class FindingRepository {
    var rows: map<Key, FindingRow>
    ghost var table: Table
    ghost var repr: set<FindingRow>

    constructor ()
      ensures Valid() && rows == map[] && table == map[] && repr == {}
    {
      rows, table, repr := map[], map[], {};
    }

    ghost predicate Valid()
      reads this, repr
    {
      && rows.Keys == table.Keys
      && forall k :: k in rows ==> rows[k] in repr && rows[k].key == k && rows[k].Value() == table[k]
    }

    method GetByFingerprint(k: Key) returns (found: FindingRow?)
      ensures if k in rows then found == rows[k] else found == null
    {
      if k in rows { found := rows[k]; } else { found := null; }
    }

    method RecordDetection(c: ScanContext, n: NormalizedFinding, d: Draw) returns (finding: FindingRow)
      requires Valid()
      modifies this, repr
      ensures Valid() && table == Upsert(old(table), c, n, d)
      ensures KeyOf(c, n) in rows && finding == rows[KeyOf(c, n)]
      ensures Grown(old(rows), rows)
      ensures fresh(repr - old(repr))
    {
      var k := KeyOf(c, n);
      var existing := GetByFingerprint(k);
      if existing != null {
        existing.scanId := c.scanId;
        existing.lastSeenAt := d.now;
        finding := existing;
        table := table[k := Redetected(table[k], c, d)];
      } else {
        finding := Add(Detected(c, n, d));
      }
    }

    /** `session.add`, and the flush. */
    method Add(f: Finding) returns (finding: FindingRow)
      requires Valid() && f.key !in rows
      modifies this
      ensures Valid() && table == old(table)[f.key := f]
      ensures rows == old(rows)[f.key := finding]
      ensures fresh(repr - old(repr))
    {
      finding := new FindingRow(f);
      rows := rows[f.key := finding];
      repr := repr + {finding};
      table := table[f.key := f];
    }
  }

  class FindingPipeline {
    const findings: FindingRepository
    var published: seq<Event>

    constructor (findings: FindingRepository)
      ensures this.findings == findings && published == []
    {
      this.findings := findings;
      published := [];
    }

    /** One turn of the loop: look up, upsert, publish what the look-up said. */
    method ProcessOne(c: ScanContext, n: NormalizedFinding, d: Draw) returns (finding: FindingRow)
      requires findings.Valid()
      modifies this, findings, findings.repr
      ensures findings.Valid() && findings.table == Upsert(old(findings.table), c, n, d)
      ensures published == old(published) + [EventFor(old(findings.table), c, n, d)]
      ensures KeyOf(c, n) in findings.rows && finding == findings.rows[KeyOf(c, n)]
      ensures Grown(old(findings.rows), findings.rows)
      ensures fresh(findings.repr - old(findings.repr))
    {
      var existing := findings.GetByFingerprint(KeyOf(c, n));
      var isRedetection := existing != null;
      finding := findings.RecordDetection(c, n, d);
      var e :=
        if isRedetection then FindingUpdated(finding.id, finding.key) else FindingCreated(finding.id, finding.key);
      published := published + [e];
    }

    /**
     The loop computes the fold, publishes the fold's events, and returns for every item
     the row of its key: the same object for equal keys.
     */
    method Process(c: ScanContext, ns: seq<NormalizedFinding>, ds: seq<Draw>) returns (found: seq<FindingRow>)
      requires findings.Valid() && |ns| == |ds|
      modifies this, findings, findings.repr
      ensures findings.Valid() && findings.table == Fold(old(findings.table), c, ns, ds)
      ensures published == old(published) + Events(old(findings.table), c, ns, ds)
      ensures |found| == |ns| && RowsFound(c, ns, found, findings.rows) && Merged(c, ns, found)
      ensures Grown(old(findings.rows), findings.rows)
    {
      ghost var t0, said := findings.table, published;
      ghost var t, events := t0, [];
      found := [];
      for i := 0 to |ns|
        invariant findings.Valid() && findings.table == t && published == said + events
        invariant Folded(t0, c, ns, ds, i, t, events)
        invariant |found| == i && RowsFound(c, ns[..i], found, findings.rows)
        invariant Grown(old(findings.rows), findings.rows)
        invariant fresh(findings.repr - old(findings.repr))
      {
        ghost var rows := findings.rows;
        var finding := ProcessOne(c, ns[i], ds[i]);
        RowsStillFound(c, ns, i, found, finding, rows, findings.rows);
        found := found + [finding];
        FoldedOneMore(t0, c, ns, ds, i, t, events);
        ghost var e := EventFor(t, c, ns[i], ds[i]);
        Reassociate(said, events, [e]);
        t, events := findings.table, events + [e];
      }
      FoldedAll(t0, c, ns, ds, t, events);
      assert ns[..|ns|] == ns;
      RowsMerge(c, ns, found, findings.rows);
    }
  }
}
