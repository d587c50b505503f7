/**
 The outbox dispatcher: claim the oldest unpublished row, send its message, record what
 happened, commit; at most `batchSize` times.  Rows and scans are objects updated in
 place; `Snapshot` is the table as values, in the order of `created_at`.

 This is one dispatcher working alone against a queue that fails as it likes.  Several
 of them at once, and their deaths, are in `Protocol`.
 */
module Dispatcher {
  import opened ScanModel
  import Protocol
  import ProtocolInvariant
  import ProtocolOutcomes
  import ProtocolTheorems
  import Retry

  type JobId = nat
  type ScanId = nat

  /** One `scan_job_outbox` row. */
  datatype Job = Job(
    scanId: ScanId,
    attempt: nat,
    countdown: real,
    publishedAt: Option<Time>,
    attemptCount: nat,
    lastAttemptAt: Option<Time>,
    lastError: Option<string>)
  {
    predicate Pending() { publishedAt.None? }

    /** The row after one attempt to send it. */
    function Tried(error: Option<string>, now: Time): Job {
      var tried := this.(attemptCount := attemptCount + 1, lastAttemptAt := Some(now));
      if error.None? then tried.(publishedAt := Some(now)) else tried.(lastError := error)
    }
  }

  /** The message `enqueue_scan` puts on the queue; it carries no attempt. */
  datatype Message = Message(scanId: ScanId, countdown: real)

  /** The message an attempt at row `j` sends, if the send works. */
  function Outgoing(j: Job, error: Option<string>): seq<Message> {
    if error.None? then [Message(j.scanId, j.countdown)] else []
  }

  /** The row as the step relation has it, with its history columns. */
  function AsOutboxRow(j: Job, sends: nat, deaths: nat): Protocol.OutboxRow {
    Protocol.OutboxRow(j.countdown, !j.Pending(), j.attemptCount, sends, deaths)
  }

  /** One attempt here is a send and its recording there: the two describe the same protocol. */
  lemma TryIsSendAndRecord(
      sh: Protocol.Shared, j: Job, sends: nat, deaths: nat, error: Option<string>, now: Time)
    requires j.attempt in sh.outbox && sh.outbox[j.attempt] == AsOutboxRow(j, sends, deaths) && j.Pending()
    ensures var sent := error.None?;
      var sh' := Protocol.RecordAttempt(
        if sent then Protocol.SendMessage(sh, j.attempt) else sh,
        if sent then Protocol.Sent(j.attempt) else Protocol.Refused(j.attempt));
      && sh'.outbox[j.attempt] == AsOutboxRow(j.Tried(error, now), if sent then sends + 1 else sends, deaths)
      && sh'.row == sh.row && sh'.messages == sh.messages + (if sent then 1 else 0)
      && Outgoing(j, error) == if sent then [Message(j.scanId, sh.outbox[j.attempt].countdown)] else []
  {
  }

  // ------------------------------------------------------------------- as values

  /** The oldest pending row, or the length of the table. */
  function FirstPending(t: seq<Job>): (k: nat)
    ensures k <= |t|
    ensures forall i :: 0 <= i < k ==> !t[i].Pending()
    ensures k < |t| ==> t[k].Pending()
  {
    if t == [] then 0 else if t[0].Pending() then 0 else 1 + FirstPending(t[1..])
  }

  /** How often rows have been tried, all together. */
  function Attempts(t: seq<Job>): nat {
    if t == [] then 0 else Attempts(t[..|t| - 1]) + t[|t| - 1].attemptCount
  }

  /** The messages of the rows pending in `before` and published in `after`, oldest first. */
  function NewMessages(before: seq<Job>, after: seq<Job>): seq<Message>
    requires |before| == |after|
  {
    if before == [] then []
    else
      var n := |before| - 1;
      NewMessages(before[..n], after[..n])
      + if before[n].Pending() && !after[n].Pending() then Outgoing(after[n], None) else []
  }

  /** The rows pending in `before` and published in `after`, oldest first. */
  function Published(before: seq<Job>, after: seq<Job>): (ks: seq<nat>)
    requires |before| == |after|
    ensures forall i :: 0 <= i < |ks| ==> ks[i] < |before|
  {
    if before == [] then []
    else
      var n := |before| - 1;
      var ks := Published(before[..n], after[..n]);
      if before[n].Pending() && !after[n].Pending() then ks + [n] else ks
  }

  lemma {:induction false} PublishedExactly(before: seq<Job>, after: seq<Job>, k: nat)
    requires |before| == |after| && k < |before|
    ensures k in Published(before, after) <==> before[k].Pending() && !after[k].Pending()
    ensures var ks := Published(before, after); forall i, j :: 0 <= i < j < |ks| ==> ks[i] < ks[j]
  {
    var n := |before| - 1;
    if k < n {
      PublishedExactly(before[..n], after[..n], k);
    } else if 0 < n {
      PublishedExactly(before[..n], after[..n], 0);
    }
  }

  /** Each new message is for the scan of the row it was sent for, and is delayed as that row says. */
  lemma {:induction false} MessagesMatchRows(before: seq<Job>, after: seq<Job>, i: nat)
    requires Drained(before, after) && i < |Published(before, after)|
    ensures |NewMessages(before, after)| == |Published(before, after)|
    ensures var m, j := NewMessages(before, after)[i], before[Published(before, after)[i]];
      m.scanId == j.scanId && m.countdown == j.countdown
  {
    SameCount(before, after);
    var n := |before| - 1;
    assert Continues(before[n], after[n]);
    if i < |Published(before[..n], after[..n])| {
      DrainedInit(before, after);
      MessagesMatchRows(before[..n], after[..n], i);
    } else {
      SameCount(before[..n], after[..n]);
    }
  }

  /** On the queue there is one more message for each row published: for its scan, and with its countdown. */
  ghost predicate SentForRows(before: seq<Job>, after: seq<Job>, was: seq<Message>, messages: seq<Message>)
    requires |before| == |after|
  {
    var ks := Published(before, after);
    && was <= messages && |messages| == |was| + |ks|
    && forall i :: 0 <= i < |ks| ==>
         && messages[|was| + i].scanId == before[ks[i]].scanId
         && messages[|was| + i].countdown == before[ks[i]].countdown
  }

  lemma NewMessagesAreForRows(before: seq<Job>, after: seq<Job>, was: seq<Message>, messages: seq<Message>)
    requires Drained(before, after) && messages == was + NewMessages(before, after)
    ensures SentForRows(before, after, was, messages)
  {
    SameCount(before, after);
    var ks := Published(before, after);
    forall i | 0 <= i < |ks|
      ensures messages[|was| + i].scanId == before[ks[i]].scanId
      ensures messages[|was| + i].countdown == before[ks[i]].countdown
    {
      MessagesMatchRows(before, after, i);
    }
  }

  lemma DrainedInit(before: seq<Job>, after: seq<Job>)
    requires Drained(before, after) && before != []
    ensures Drained(before[..|before| - 1], after[..|after| - 1])
  {
    forall i | 0 <= i < |before| - 1 ensures Continues(before[i], after[i]) {}
  }

  lemma {:induction false} SameCount(before: seq<Job>, after: seq<Job>)
    requires |before| == |after|
    ensures |NewMessages(before, after)| == |Published(before, after)|
  {
    if before != [] { SameCount(before[..|before| - 1], after[..|after| - 1]); }
  }

  /** What dispatching may make of a table: rows keep their identity, and publication is in order and for good. */
  ghost predicate Drained(before: seq<Job>, after: seq<Job>) {
    && |after| == |before|
    && (forall i :: 0 <= i < |before| ==> Continues(before[i], after[i]))
    && (forall i, j :: 0 <= i < j < |before| && before[i].Pending() && before[j].Pending() && !after[j].Pending()
          ==> !after[i].Pending())
  }

  ghost predicate Continues(j: Job, j': Job) {
    && j'.scanId == j.scanId && j'.attempt == j.attempt && j'.countdown == j.countdown
    && j.attemptCount <= j'.attemptCount
    && (!j.Pending() ==> j' == j)
    && (j.Pending() && !j'.Pending() ==> j.attemptCount < j'.attemptCount)
  }

  lemma {:induction false} AttemptsAt(t: seq<Job>, k: nat, j: Job)
    requires k < |t|
    ensures Attempts(t[k := j]) == Attempts(t) - t[k].attemptCount + j.attemptCount
  {
    var n := |t| - 1;
    if k < n {
      AttemptsAt(t[..n], k, j);
      assert t[k := j][..n] == t[..n][k := j];
    } else {
      assert t[k := j][..n] == t[..n];
    }
  }

  /** Failed attempts send nothing. */
  lemma {:induction false} RefusedAt(before: seq<Job>, after: seq<Job>, k: nat, j: Job)
    requires |before| == |after| && k < |after|
    requires after[k].Pending() && j.Pending()
    ensures NewMessages(before, after[k := j]) == NewMessages(before, after)
  {
    var n := |before| - 1;
    if k < n {
      RefusedAt(before[..n], after[..n], k, j);
      assert after[k := j][..n] == after[..n][k := j];
    } else {
      assert after[k := j][..n] == after[..n];
    }
  }

  /** Publishing the first pending row sends the next message. */
  lemma {:induction false} SentAt(before: seq<Job>, after: seq<Job>, k: nat, j: Job)
    requires |before| == |after| && k < |after|
    requires before[k].Pending() && after[k].Pending() && !j.Pending()
    requires forall i :: k < i < |after| && before[i].Pending() ==> after[i].Pending()
    ensures NewMessages(before, after[k := j]) == NewMessages(before, after) + Outgoing(j, None)
  {
    var n := |before| - 1;
    if k < n {
      SentAt(before[..n], after[..n], k, j);
      assert after[k := j][..n] == after[..n][k := j];
    } else {
      assert after[k := j][..n] == after[..n];
    }
  }

  /** One more attempt at the oldest pending row keeps the table drained in order. */
  lemma TriedFirst(before: seq<Job>, t: seq<Job>, k: nat, error: Option<string>, now: Time)
    requires Drained(before, t) && k < |t| && k == FirstPending(t)
    ensures var t' := t[k := t[k].Tried(error, now)];
      && Drained(before, t')
      && Attempts(t') == Attempts(t) + 1
      && NewMessages(before, t')
         == NewMessages(before, t) + Outgoing(t[k], error)
  {
    var j := t[k].Tried(error, now);
    AttemptsAt(t, k, j);
    assert Continues(before[k], t[k]);
    if error.None? {
      SentAt(before, t, k, j);
    } else {
      RefusedAt(before, t, k, j);
    }
    forall i | 0 <= i < |t| ensures Continues(before[i], t[k := j][i]) { assert Continues(before[i], t[i]); }
  }

  lemma {:induction false} NothingSent(t: seq<Job>)
    ensures NewMessages(t, t) == []
  {
    if t != [] { NothingSent(t[..|t| - 1]); }
  }

  lemma Reassociate<A>(xs: seq<A>, ys: seq<A>, zs: seq<A>)
    ensures xs + ys + zs == xs + (ys + zs)
  {
  }

  /** One attempt: the error of the send, if it failed, and the time it was made. */
  datatype Try = Try(error: Option<string>, now: Time)

  /** The table after a sequence of attempts, each at the oldest row pending by then. */
  ghost function After(t: seq<Job>, tries: seq<Try>): (t': seq<Job>)
    ensures |t'| == |t|
    decreases |tries|
  {
    if tries == [] then t
    else
      var u, last := After(t, tries[..|tries| - 1]), tries[|tries| - 1];
      var k := FirstPending(u);
      if k < |u| then u[k := u[k].Tried(last.error, last.now)] else u
  }

  /** The messages those attempts send. */
  ghost function Sent(t: seq<Job>, tries: seq<Try>): seq<Message>
    decreases |tries|
  {
    if tries == [] then []
    else
      var init := tries[..|tries| - 1];
      var k := FirstPending(After(t, init));
      Sent(t, init) + if k < |t| then Outgoing(After(t, init)[k], tries[|tries| - 1].error) else []
  }

  /** Did every attempt find a row to try? */
  ghost predicate Possible(t: seq<Job>, tries: seq<Try>)
    decreases |tries|
  {
    tries == [] ||
    (Possible(t, tries[..|tries| - 1]) && FirstPending(After(t, tries[..|tries| - 1])) < |t|)
  }

  lemma OneMore(t: seq<Job>, tries: seq<Try>, x: Try, tries': seq<Try>)
    requires Possible(t, tries) && tries' == tries + [x]
    requires FirstPending(After(t, tries)) < |t|
    ensures Possible(t, tries')
    ensures var k := FirstPending(After(t, tries));
      && After(t, tries') == After(t, tries)[k := After(t, tries)[k].Tried(x.error, x.now)]
      && Sent(t, tries') == Sent(t, tries) + Outgoing(After(t, tries)[k], x.error)
  {
    assert tries'[..|tries'| - 1] == tries;
  }

  /**
   Whatever fails, attempts publish rows in order and for good, one message each: what has
   been published is a prefix of what was pending.
   */
  lemma {:induction false} BatchDrains(t: seq<Job>, tries: seq<Try>)
    requires Possible(t, tries)
    ensures Drained(t, After(t, tries))
    ensures Attempts(After(t, tries)) == Attempts(t) + |tries|
    ensures Sent(t, tries) == NewMessages(t, After(t, tries))
    decreases |tries|
  {
    if tries == [] {
      NothingSent(t);
    } else {
      var init, last := tries[..|tries| - 1], tries[|tries| - 1];
      BatchDrains(t, init);
      var u := After(t, init);
      TriedFirst(t, u, FirstPending(u), last.error, last.now);
    }
  }

  // ------------------------------------------------------------ what is queued for a scan

  /** Are the rows for scan `id` those of its outbox in the step relation, one for an attempt? */
  ghost predicate RowsOf(t: seq<Job>, id: ScanId, outbox: map<nat, Protocol.OutboxRow>) {
    && (forall k :: 0 <= k < |t| && t[k].scanId == id ==>
          t[k].attempt in outbox && outbox[t[k].attempt].countdown == t[k].countdown)
    && (forall j, k :: 0 <= j < k < |t| && t[j].scanId == id && t[k].scanId == id ==> t[j].attempt != t[k].attempt)
  }

  /** The delays of the messages for scan `id`, added up. */
  function Delays(ms: seq<Message>, id: ScanId): real {
    if ms == [] then 0.0
    else Delays(ms[..|ms| - 1], id) + if ms[|ms| - 1].scanId == id then ms[|ms| - 1].countdown else 0.0
  }

  /** The countdowns of the chosen attempts below `n`, added up. */
  function Selected(outbox: map<nat, Protocol.OutboxRow>, chosen: set<nat>, n: nat): real {
    if n == 0 then 0.0
    else
      Selected(outbox, chosen, n - 1)
      + if n - 1 in chosen && n - 1 in outbox then outbox[n - 1].countdown else 0.0
  }

  lemma {:induction false} SelectedOne(outbox: map<nat, Protocol.OutboxRow>, chosen: set<nat>, a: nat, n: nat)
    requires a in outbox && a !in chosen
    ensures Selected(outbox, chosen + {a}, n)
      == Selected(outbox, chosen, n) + if a < n then outbox[a].countdown else 0.0
  {
    if n > 0 { SelectedOne(outbox, chosen, a, n - 1); }
  }

  lemma {:induction false} SelectedBelowAll(outbox: map<nat, Protocol.OutboxRow>, chosen: set<nat>, n: nat)
    requires forall a :: a in outbox ==> 0.0 <= outbox[a].countdown
    ensures Selected(outbox, chosen, n) <= ProtocolOutcomes.Countdowns(outbox, n)
  {
    if n > 0 { SelectedBelowAll(outbox, chosen, n - 1); }
  }

  lemma {:induction false} SelectedNone(outbox: map<nat, Protocol.OutboxRow>, n: nat)
    ensures Selected(outbox, {}, n) == 0.0
  {
    if n > 0 { SelectedNone(outbox, n - 1); }
  }

  /** The attempts of scan `id` published between two tables. */
  function Chosen(before: seq<Job>, after: seq<Job>, id: ScanId): set<nat>
    requires |before| == |after|
  {
    if before == [] then {}
    else
      var n := |before| - 1;
      Chosen(before[..n], after[..n], id)
      + if before[n].Pending() && !after[n].Pending() && before[n].scanId == id then {before[n].attempt} else {}
  }

  lemma {:induction false} ChosenFrom(before: seq<Job>, after: seq<Job>, id: ScanId, a: nat)
    requires |before| == |after| && a in Chosen(before, after, id)
    ensures exists k :: 0 <= k < |before| && before[k].scanId == id && before[k].attempt == a
  {
    var n := |before| - 1;
    if a in Chosen(before[..n], after[..n], id) {
      ChosenFrom(before[..n], after[..n], id, a);
      var k :| 0 <= k < n && before[..n][k].scanId == id && before[..n][k].attempt == a;
      assert before[k].scanId == id;
    }
  }

  lemma DelaysAppend(ms: seq<Message>, m: Message, id: ScanId)
    ensures Delays(ms + [m], id) == Delays(ms, id) + if m.scanId == id then m.countdown else 0.0
  {
    assert (ms + [m])[..|ms|] == ms;
  }

  lemma {:induction false} DelaysAreSelected(
      before: seq<Job>, after: seq<Job>, id: ScanId, outbox: map<nat, Protocol.OutboxRow>, m: nat)
    requires Drained(before, after) && RowsOf(before, id, outbox)
    requires forall a :: a in outbox ==> a < m
    ensures Delays(NewMessages(before, after), id) == Selected(outbox, Chosen(before, after, id), m)
  {
    if before == [] {
      SelectedNone(outbox, m);
    } else {
      var n := |before| - 1;
      var was, chosen := NewMessages(before[..n], after[..n]), Chosen(before[..n], after[..n], id);
      DrainedInit(before, after);
      DelaysAreSelected(before[..n], after[..n], id, outbox, m);
      assert Continues(before[n], after[n]);
      if before[n].scanId == id { NotChosenBefore(before, after, id, outbox); }
      DelaysStep(was, chosen, before[n], after[n], id, outbox, m);
    }
  }

  /** One row more: its message, if it was published, adds its countdown. */
  lemma DelaysStep(
      was: seq<Message>, chosen: set<nat>, j: Job, j': Job, id: ScanId, outbox: map<nat, Protocol.OutboxRow>, m: nat)
    requires Continues(j, j') && Delays(was, id) == Selected(outbox, chosen, m)
    requires j.scanId == id ==>
      j.attempt in outbox && j.attempt < m && outbox[j.attempt].countdown == j.countdown && j.attempt !in chosen
    ensures var published := j.Pending() && !j'.Pending();
      Delays(was + if published then Outgoing(j', None) else [], id)
      == Selected(outbox, chosen + if published && j.scanId == id then {j.attempt} else {}, m)
  {
    assert was + [] == was && chosen + {} == chosen;
    DelaysAppend(was, Message(j'.scanId, j'.countdown), id);
    if j.scanId == id { SelectedOne(outbox, chosen, j.attempt, m); }
  }

  lemma NotChosenBefore(before: seq<Job>, after: seq<Job>, id: ScanId, outbox: map<nat, Protocol.OutboxRow>)
    requires |before| == |after| && before != [] && RowsOf(before, id, outbox)
    requires before[|before| - 1].scanId == id
    ensures before[|before| - 1].attempt !in Chosen(before[..|before| - 1], after[..|before| - 1], id)
  {
    var n := |before| - 1;
    if before[n].attempt in Chosen(before[..n], after[..n], id) {
      ChosenFrom(before[..n], after[..n], id, before[n].attempt);
    }
  }

  /**
   So what a batch queues for a scan waits, all together, no longer than its whole life may:
   the closed forms of `ProtocolOutcomes.BackoffOfALife` bound the delays of the messages.
   */
  lemma QueuedBackoff(
      cfg: Protocol.Config, p: Retry.RetryPolicy, s: Protocol.Slice, t: seq<Job>, id: ScanId, tries: seq<Try>)
    requires ProtocolTheorems.Reachable(cfg, s) && p.Valid()
    requires forall a: nat, d: real :: cfg.drawable(a, d) ==> p.MayReturn(a, d)
    requires RowsOf(t, id, s.sh.outbox) && Possible(t, tries)
    ensures var m := s.sh.row.maxAttempts;
      && 1 <= m
      && Delays(Sent(t, tries), id) <= Retry.Geometric(p, m - 1)
      && Delays(Sent(t, tries), id) <= Retry.Linear(p, m - 1)
  {
    BatchDrains(t, tries);
    ProtocolOutcomes.BackoffOfALife(cfg, p, s);
    CountdownsNonNegative(cfg, p, s);
    DelaysAreSelected(t, After(t, tries), id, s.sh.outbox, s.sh.row.maxAttempts);
    SelectedBelowAll(s.sh.outbox, Chosen(t, After(t, tries), id), s.sh.row.maxAttempts);
  }

  lemma CountdownsNonNegative(cfg: Protocol.Config, p: Retry.RetryPolicy, s: Protocol.Slice)
    requires ProtocolTheorems.Reachable(cfg, s) && p.Valid()
    requires forall a: nat, d: real :: cfg.drawable(a, d) ==> p.MayReturn(a, d)
    ensures forall a :: a in s.sh.outbox ==> 0.0 <= s.sh.outbox[a].countdown
  {
    ProtocolTheorems.ReachableOk(cfg, s);
    forall a | a in s.sh.outbox ensures 0.0 <= s.sh.outbox[a].countdown {
      assert ProtocolInvariant.CountdownOk(cfg, a, s.sh.outbox[a].countdown);
      Retry.DelayIsNonNegative(p, a);
    }
  }

  // -------------------------------------------------------------- the mutable objects

  /** The columns of a scan a dispatcher reads or writes. */
  class ScanRow {
    var status: Status
    var attempt: nat
    var jobId: Option<JobId>

    constructor (status: Status, attempt: nat)
      ensures this.status == status && this.attempt == attempt && jobId == None
    {
      this.status, this.attempt, jobId := status, attempt, None;
    }
  }

  class JobQueue {
    var messages: seq<Message>
    var issued: nat

    constructor ()
      ensures messages == [] && issued == 0
    {
      messages, issued := [], 0;
    }

    /** Sends, or fails and sends nothing. */
    method EnqueueScan(m: Message) returns (sent: Option<JobId>, error: Option<string>)
      modifies this
      ensures sent.Some? <==> error.None?
      ensures messages == if error.None? then old(messages) + [m] else old(messages)
      ensures if error.None? then issued == old(issued) + 1 && sent == Some(issued) else issued == old(issued)
    {
      var broken: bool := *;
      if broken { return None, Some("sanitized"); }
      messages, issued := messages + [m], issued + 1;
      return Some(issued), None;
    }
  }

  /** The outbox table, oldest row first; rows are updated in place. */
  class ScanOutboxRepository {
    const rows: array<Job>

    constructor (rows: array<Job>)
      ensures this.rows == rows
    {
      this.rows := rows;
    }

    method ClaimNextPending() returns (claimed: Option<nat>)
      ensures var k := FirstPending(rows[..]); claimed == if k == rows.Length then None else Some(k)
    {
      for i := 0 to rows.Length
        invariant forall j :: 0 <= j < i ==> !rows[j].Pending()
      {
        if rows[i].Pending() { return Some(i); }
      }
      return None;
    }

    method MarkPublished(k: nat, publishedAt: Time, attemptCount: nat)
      requires k < rows.Length
      modifies rows
      ensures rows[..] == old(rows[..])[k := old(rows[k]).(
        publishedAt := Some(publishedAt), attemptCount := attemptCount, lastAttemptAt := Some(publishedAt))]
    {
      rows[k] := rows[k].(publishedAt := Some(publishedAt));
      rows[k] := rows[k].(attemptCount := attemptCount);
      rows[k] := rows[k].(lastAttemptAt := Some(publishedAt));
    }

    method MarkFailedAttempt(k: nat, attemptCount: nat, lastAttemptAt: Time, lastError: string)
      requires k < rows.Length
      modifies rows
      ensures rows[..] == old(rows[..])[k := old(rows[k]).(
        attemptCount := attemptCount, lastAttemptAt := Some(lastAttemptAt), lastError := Some(lastError))]
    {
      rows[k] := rows[k].(attemptCount := attemptCount);
      rows[k] := rows[k].(lastAttemptAt := Some(lastAttemptAt));
      rows[k] := rows[k].(lastError := Some(lastError));
    }
  }

  class OutboxDispatcher {
    const outbox: ScanOutboxRepository
    const scans: map<ScanId, ScanRow>
    const queue: JobQueue

    constructor (outbox: ScanOutboxRepository, scans: map<ScanId, ScanRow>, queue: JobQueue)
      ensures this.outbox == outbox && this.scans == scans && this.queue == queue
    {
      this.outbox, this.scans, this.queue := outbox, scans, queue;
    }

    /** Send the claimed row's message: what becomes of the row, of the queue and of its scan's job id. */
    method Publish(k: nat) returns (ghost attempt: Try)
      requires k < outbox.rows.Length && outbox.rows[k].Pending()
      modifies outbox.rows, scans.Values`jobId, queue
      ensures outbox.rows[..] == old(outbox.rows[..])[k := old(outbox.rows[k]).Tried(attempt.error, attempt.now)]
      ensures var j := old(outbox.rows[k]);
        if attempt.error.None? then
          && outbox.rows[k] == j.(publishedAt := Some(attempt.now), attemptCount := j.attemptCount + 1,
                                  lastAttemptAt := Some(attempt.now))
          && queue.messages == old(queue.messages) + [Message(j.scanId, j.countdown)]
          && (j.scanId in scans ==> scans[j.scanId].jobId == Some(queue.issued))
        else
          && outbox.rows[k] == j.(attemptCount := j.attemptCount + 1, lastAttemptAt := Some(attempt.now),
                                  lastError := attempt.error)
          && queue.messages == old(queue.messages)
      ensures forall r :: r in scans.Values ==>
        || r.jobId == old(r.jobId)
        || (attempt.error.None? && old(outbox.rows[k]).scanId in scans && r == scans[old(outbox.rows[k]).scanId])
    {
      var row := outbox.rows[k];
      var now: nat := *;
      var sent, error := queue.EnqueueScan(Message(row.scanId, row.countdown));
      if error.Some? {
        outbox.MarkFailedAttempt(k, row.attemptCount + 1, now, error.value);
      } else {
        if row.scanId in scans {
          scans[row.scanId].jobId := sent;
        }
        outbox.MarkPublished(k, now, row.attemptCount + 1);
      }
      return Try(error, now);
    }

    /**
     The oldest pending row is tried once, and only it is touched; its scan gets a job id
     if the message went out, and keeps its status and attempt by the frame.
     */
    method DispatchOne() returns (claimed: bool, ghost attempt: Try)
      modifies outbox.rows, scans.Values`jobId, queue
      ensures claimed <==> FirstPending(old(outbox.rows[..])) < outbox.rows.Length
      ensures !claimed ==> outbox.rows[..] == old(outbox.rows[..]) && queue.messages == old(queue.messages)
      ensures claimed ==>
        var t := old(outbox.rows[..]);
        var k := FirstPending(t);
        && outbox.rows[..] == t[k := t[k].Tried(attempt.error, attempt.now)]
        && queue.messages == old(queue.messages) + Outgoing(t[k], attempt.error)
        && (attempt.error.None? ==>
              var m := queue.messages[|queue.messages| - 1];
              m.scanId == t[k].scanId && m.countdown == t[k].countdown)
        && (attempt.error.None? && t[k].scanId in scans ==> scans[t[k].scanId].jobId == Some(queue.issued))
    {
      var found := outbox.ClaimNextPending();
      if found.None? { return false, Try(None, 0); }
      claimed := true;
      attempt := Publish(found.value);
    }

    /**
     At most `batchSize` attempts, oldest row first: what is published is published in
     order, each publication with its one message; the result is the number of attempts
     made, and falls short of the limit only when nothing is left to publish.
     */
    method RunBatch(batchSize: nat) returns (dispatched: nat)
      modifies outbox.rows, scans.Values`jobId, queue
      ensures dispatched <= batchSize
      ensures Attempts(outbox.rows[..]) == Attempts(old(outbox.rows[..])) + dispatched
      ensures dispatched < batchSize ==> FirstPending(outbox.rows[..]) == outbox.rows.Length
      ensures Drained(old(outbox.rows[..]), outbox.rows[..])
      ensures SentForRows(old(outbox.rows[..]), outbox.rows[..], old(queue.messages), queue.messages)
    {
      ghost var before, was := outbox.rows[..], queue.messages;
      ghost var tries: seq<Try> := [];
      dispatched := 0;
      for i := 0 to batchSize
        invariant dispatched == i == |tries| && Possible(before, tries)
        invariant outbox.rows[..] == After(before, tries)
        invariant queue.messages == was + Sent(before, tries)
      {
        var claimed, attempt := DispatchOne();
        if !claimed { break; }
        ghost var extended := tries + [attempt];
        OneMore(before, tries, attempt, extended);
        Reassociate(was, Sent(before, tries), Sent(before, extended)[|Sent(before, tries)|..]);
        tries := extended;
        dispatched := dispatched + 1;
      }
      BatchDrains(before, tries);
      NewMessagesAreForRows(before, outbox.rows[..], was, queue.messages);
    }
  }
}
