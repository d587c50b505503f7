/** The in-process event bus and the subscribers every session wires to it. */
module Events {
  import opened ScanModel
  import opened Protocol
  import opened Persistence

  /** The event classes; the first and the last two are published outside a scan's own protocol. */
  datatype Kind =
    | Enqueued | Started | Progress | Completed | Failing | Cancellation | Expiry | FindingNew | FindingSeen

  const KINDS := [Enqueued, Started, Progress, Completed, Failing, Cancellation, Expiry, FindingNew, FindingSeen]

  function KindOf(e: Event): Kind {
    match e
    case ScanStarted => Started
    case ScanProgress(_) => Progress
    case ScanCompleted => Completed
    case ScanFailed => Failing
    case ScanCancelled => Cancellation
    case ScanTimedOut => Expiry
  }

  function Index(k: Kind): (i: nat)
    ensures i < |KINDS| && KINDS[i] == k
  {
    match k
    case Enqueued => 0
    case Started => 1
    case Progress => 2
    case Completed => 3
    case Failing => 4
    case Cancellation => 5
    case Expiry => 6
    case FindingNew => 7
    case FindingSeen => 8
  }

  lemma KindsAreDistinct()
    ensures forall i, j :: 0 <= i < j < |KINDS| ==> KINDS[i] != KINDS[j]
  {
    forall i | 0 <= i < |KINDS| ensures Index(KINDS[i]) == i {}
  }

  /** `Persist` inserts the event and commits the session; the other two touch no database state. */
  datatype Subscriber = Persist | Observe | Log

  class InMemoryEventBus {
    const session: Session
    var subscribers: map<Kind, seq<Subscriber>>

    constructor (session: Session)
      ensures this.session == session && subscribers == map[]
    {
      this.session := session;
      subscribers := map[];
    }

    function HandlersFor(kind: Kind): seq<Subscriber>
      reads this
    {
      if kind in subscribers then subscribers[kind] else []
    }

    method Subscribe(kind: Kind, handler: Subscriber)
      modifies this
      ensures HandlersFor(kind) == old(HandlersFor(kind)) + [handler]
      ensures forall k :: k != kind ==> HandlersFor(k) == old(HandlersFor(k))
    {
      subscribers := subscribers[kind := HandlersFor(kind) + [handler]];
    }

    method WireSubscribers()
      requires subscribers == map[]
      modifies this
      ensures forall k :: HandlersFor(k) == [Persist, Observe, Log]
    {
      KindsAreDistinct();
      WireAll(KINDS);
      forall k ensures HandlersFor(k) == [Persist, Observe, Log] { assert KINDS[Index(k)] == k; }
    }

    method WireAll(kinds: seq<Kind>)
      requires subscribers == map[]
      requires forall i, j :: 0 <= i < j < |kinds| ==> kinds[i] != kinds[j]
      modifies this
      ensures forall j :: 0 <= j < |kinds| ==> HandlersFor(kinds[j]) == [Persist, Observe, Log]
    {
      for i := 0 to |kinds|
        invariant forall j :: 0 <= j < i ==> HandlersFor(kinds[j]) == [Persist, Observe, Log]
        invariant forall j :: i <= j < |kinds| ==> HandlersFor(kinds[j]) == []
      {
        Subscribe(kinds[i], Persist);
        Subscribe(kinds[i], Observe);
        Subscribe(kinds[i], Log);
      }
    }

    /**
     Every handler of the event's kind is called once, in subscription order, whichever of
     them raise, and nothing is raised to the publisher.  The session is committed exactly
     when a persisting handler's insert works.
     */
    method Publish(e: Event) returns (called: seq<Subscriber>, raised: seq<bool>, persisted: bool)
      requires session.unit.row.None?
      modifies session`unit, session.tables
      ensures called == HandlersFor(KindOf(e))
      ensures |raised| == |called|
      ensures persisted <==> exists i :: 0 <= i < |called| && called[i] == Persist && !raised[i]
      ensures session.tables.present == old(session.tables.present)
      ensures var logged := old(session.tables.shared).(log := old(session.tables.shared).log + [e]);
        session.tables.shared == if persisted then Protocol.Commit(logged, old(session.unit).pending) else logged
      ensures session.unit == if persisted then NOTHING_FLUSHED else old(session.unit)
    {
      session.tables.shared := session.tables.shared.(log := session.tables.shared.log + [e]);
      called, raised, persisted := [], [], false;
      var handlers := HandlersFor(KindOf(e));
      for i := 0 to |handlers|
        invariant called == handlers[..i] && |raised| == i
        invariant persisted <==> exists j :: 0 <= j < i && called[j] == Persist && !raised[j]
        invariant session.tables.present == old(session.tables.present)
        invariant var logged := old(session.tables.shared).(log := old(session.tables.shared).log + [e]);
          session.tables.shared == if persisted then Protocol.Commit(logged, old(session.unit).pending) else logged
        invariant session.unit == if persisted then NOTHING_FLUSHED else old(session.unit)
      {
        var raises: bool := *;
        if handlers[i].Persist? && !raises {
          session.Commit();
          persisted := true;
        }
        called, raised := called + [handlers[i]], raised + [raises];
        assert called[i] == handlers[i] && raised[i] == raises;
      }
    }
  }
}
