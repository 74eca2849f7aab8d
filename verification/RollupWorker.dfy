/** The rollup worker: one transaction per batch. */
module RollupWorkers {
  import opened Calendar
  import opened Events
  import opened Database
  import opened EventRepositories
  import opened Aggregation
  import opened RollupRepositories

  function MarkersFor(consumerId: ConsumerId, events: seq<RawEvent>): set<Marker> {
    set e | e in events :: Marker(consumerId, e.id)
  }

  /** [e for e in events if e.id in new_ids], where new_ids are the markers the insert returned. */
  function NewEvents(markers: set<Marker>, consumerId: ConsumerId, events: seq<RawEvent>): seq<RawEvent> {
    if events == [] then []
    else
      var rest := NewEvents(markers, consumerId, events[..|events| - 1]);
      if Marker(consumerId, events[|events| - 1].id) in markers then rest else rest + [events[|events| - 1]]
  }

  /** The tables after a batch commits: markers, three upserts and the offset, atomically. */
  function Committed(db: Db, consumerId: ConsumerId, events: seq<RawEvent>): Db
    requires events != []
  {
    var last := events[|events| - 1];
    db.(markers := db.markers + MarkersFor(consumerId, events),
        rollups := AddEvents(db.rollups, NewEvents(db.markers, consumerId, events)),
        offsets := db.offsets[consumerId := Offset(last.id, last.occurredAt)])
  }

  lemma {:induction false} NewEventsAre(markers: set<Marker>, consumerId: ConsumerId, events: seq<RawEvent>,
                                        e: RawEvent)
    ensures e in NewEvents(markers, consumerId, events) <==> e in events && Marker(consumerId, e.id) !in markers
  {
    if events != [] {
      assert events == events[..|events| - 1] + [events[|events| - 1]];
      NewEventsAre(markers, consumerId, events[..|events| - 1], e);
    }
  }

  /** [e for e in events if e.id in new_ids] */
  method EventsWithIds(events: seq<RawEvent>, newIds: set<EventId>, ghost markers: set<Marker>,
                       ghost consumerId: ConsumerId)
    returns (newEvents: seq<RawEvent>)
    requires forall e :: e in events ==> (e.id in newIds <==> Marker(consumerId, e.id) !in markers)
    ensures newEvents == NewEvents(markers, consumerId, events)
  {
    newEvents := [];
    for i := 0 to |events|
      invariant newEvents == NewEvents(markers, consumerId, events[..i])
    {
      assert events[..i + 1][..i] == events[..i];
      if events[i].id in newIds {
        newEvents := newEvents + [events[i]];
      }
    }
    assert events[..|events|] == events;
  }

  class RollupWorker {
    const session: Session
    const workerId: ConsumerId
    const rollupRepo: RollupRepository
    const eventRepo: EventRepository

    constructor (session: Session, workerId: ConsumerId)
      ensures this.session == session && this.workerId == workerId
      ensures rollupRepo.session == session && eventRepo.session == session
    {
      this.session := session;
      this.workerId := workerId;
      rollupRepo := new RollupRepository(session);
      eventRepo := new EventRepository(session);
    }

    predicate Connected() {
      rollupRepo.session == session && eventRepo.session == session
    }

    /** INSERT ... ON CONFLICT DO NOTHING RETURNING event_id. */
    method InsertProcessedMarkers(events: seq<RawEvent>) returns (newIds: set<EventId>)
      modifies session
      ensures session.committed == old(session.committed)
      ensures session.db == old(session.db).(markers := old(session.db).markers + MarkersFor(workerId, events))
      ensures forall e :: e in events ==> (e.id in newIds <==> Marker(workerId, e.id) !in old(session.db).markers)
    {
      newIds := set e | e in events && Marker(workerId, e.id) !in session.db.markers :: e.id;
      session.db := session.db.(markers := session.db.markers + MarkersFor(workerId, events));
    }

    /** Aggregate the new events and upsert the deltas of all three granularities. */
    method UpsertRollups(newEvents: seq<RawEvent>)
      requires Connected()
      modifies session
      ensures session.committed == old(session.committed)
      ensures session.db == old(session.db).(rollups := AddEvents(old(session.db).rollups, newEvents))
    {
      AddNoEvents(session.db.rollups);
      if newEvents != [] {
        var minuteAgg, hourAgg, dayAgg := AggregateBatch(newEvents);
        rollupRepo.BatchUpsert(Minute, minuteAgg);
        rollupRepo.BatchUpsert(Hour, hourAgg);
        rollupRepo.BatchUpsert(Day, dayAgg);
      }
    }

    /** Fetch, filter, aggregate and upsert one batch; returns the events fetched and those aggregated. */
    method ProcessBatch(limit: nat) returns (events: seq<RawEvent>, newEvents: seq<RawEvent>)
      requires Connected() && session.db == session.committed && DistinctIds(session.db.rawEvents)
      modifies session
      ensures session.db == session.committed
      ensures IsWindow(old(session.db).rawEvents, CursorOf(old(session.db), workerId), limit, events)
      ensures events == [] ==> session.db == old(session.db)
      ensures events != [] ==> session.db == Committed(old(session.db), workerId, events)
      ensures events != [] ==>
                session.db.offsets == old(session.db).offsets[workerId :=
                  Offset(events[|events| - 1].id, events[|events| - 1].occurredAt)]
      ensures newEvents == NewEvents(old(session.db).markers, workerId, events)
    {
      // An empty window leaves the transaction without effect.
      var offset := rollupRepo.GetConsumerOffset(workerId);
      var lastEventId := if offset.Some? then Some(offset.value.lastEventId) else None;
      events := eventRepo.GetEventsAfter(lastEventId, limit);
      newEvents := [];
      if events == [] {
        return;
      }

      // The markers decide which events this transaction may count.
      var newIds := InsertProcessedMarkers(events);

      // The tables gain exactly those events.
      newEvents := EventsWithIds(events, newIds, old(session.db).markers, workerId);
      UpsertRollups(newEvents);

      // Markers, tables and cursor become visible together.
      var last := events[|events| - 1];
      rollupRepo.UpsertConsumerOffset(workerId, last.id, last.occurredAt);
      session.Commit();
    }
  }
}
