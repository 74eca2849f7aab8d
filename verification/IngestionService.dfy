/** POST /events and POST /events/batch, each one transaction. */
module Ingestion {
  import opened Calendar
  import opened Events
  import opened FiniteSets
  import opened Database
  import opened EventRepositories

  datatype Response = Response(eventId: EventId, idempotencyKey: string, occurredAt: DateTime, duplicate: bool)

  datatype BatchResponse = BatchResponse(accepted: int, duplicates: int, events: seq<Response>)

  datatype IngestError = MerchantNotFound | Storage(error: DbError)

  function ResponseOf(row: RawEvent, duplicate: bool): Response {
    Response(row.id, row.idempotencyKey, row.occurredAt, duplicate)
  }

  // ----- What one request does to the committed tables -----

  function Single(db: Db, ev: EventIngest, id: EventId, occurredAt: DateTime, createdAt: Instant)
    : (Db, Result<Response, IngestError>)
  {
    var row := RowFor(ev, id, occurredAt, createdAt);
    if ev.merchantId !in db.merchants then (db, Err(MerchantNotFound))
    else if ev.idempotencyKey in db.idempotency then
      match FindById(db.rawEvents, db.idempotency[ev.idempotencyKey])
      case Some(existing) => (db, Ok(ResponseOf(existing, true)))
      case None => (db, Err(Storage(NoResultFound)))
    else if !FitsInteger(ev.amountCents) then (db, Err(Storage(NumericOutOfRange)))
    else if !PrimaryKeyHolds(db.rawEvents + [row]) then (db, Err(Storage(UniqueViolation)))
    else
      (db.(idempotency := db.idempotency[ev.idempotencyKey := id], rawEvents := db.rawEvents + [row]),
       Ok(ResponseOf(row, false)))
  }

  function ResponseFor(inserted: map<string, RawEvent>, existing: map<string, RawEvent>, ev: EventIngest,
                       occurredAt: DateTime)
    : Response
  {
    if ev.idempotencyKey in inserted then ResponseOf(inserted[ev.idempotencyKey], false)
    else if ev.idempotencyKey in existing then
      var row := existing[ev.idempotencyKey];
      Response(row.id, ev.idempotencyKey, row.occurredAt, true)
    else Response(NIL_ID, ev.idempotencyKey, occurredAt, true)
  }

  function Responses(inserted: map<string, RawEvent>, existing: map<string, RawEvent>, events: seq<EventIngest>,
                     occurredAt: DateTime)
    : seq<Response>
  {
    if events == [] then []
    else
      Responses(inserted, existing, Prefix(events), occurredAt)
      + [ResponseFor(inserted, existing, Last(events), occurredAt)]
  }

  function MissingMerchants(db: Db, events: seq<EventIngest>): set<MerchantId> {
    (set e | e in events :: e.merchantId) - db.merchants
  }

  /** Existing rows for the keys of the batch that were not inserted by it. */
  function ExistingByKey(db: Db, events: seq<EventIngest>, inserted: map<string, RawEvent>): map<string, RawEvent> {
    ByKey(RowsWithKeyIn(db.rawEvents, KeysOf(events) - inserted.Keys))
  }

  function Batch(db: Db, events: seq<EventIngest>, ids: string -> EventId, occurredAt: DateTime, createdAt: Instant)
    : (Db, Result<BatchResponse, IngestError>)
  {
    var rows := BatchRows(db, events, ids, occurredAt, createdAt);
    var after := BatchInserted(db, events, ids, rows);
    if MissingMerchants(db, events) != {} then (db, Err(MerchantNotFound))
    else if !AmountsFit(rows) then (db, Err(Storage(NumericOutOfRange)))
    else if !PrimaryKeyHolds(db.rawEvents + rows) then (db, Err(Storage(UniqueViolation)))
    else
      (after,
       Ok(BatchResponse(
            |rows|,
            |events| - |Unclaimed(db, events)|,
            Responses(ByKey(rows), ExistingByKey(after, events, ByKey(rows)), events, occurredAt))))
  }

  // ----- The service -----

  class IngestionService {
    const session: Session
    const eventRepo: EventRepository

    constructor (session: Session)
      ensures this.session == session && eventRepo.session == session
    {
      this.session := session;
      eventRepo := new EventRepository(session);
    }

    method IngestEvent(ev: EventIngest, eventId: EventId, now: DateTime, createdAt: Instant)
      returns (r: Result<Response, IngestError>)
      requires eventRepo.session == session
      modifies session
      ensures session.committed == old(session.committed)
      ensures r == Single(old(session.db), ev, eventId, now, createdAt).1
      ensures r.Ok? ==> session.db == Single(old(session.db), ev, eventId, now, createdAt).0
    {
      if ev.merchantId !in session.db.merchants {
        return Err(MerchantNotFound);
      }
      var inserted := eventRepo.InsertEvent(ev, eventId, now, createdAt);
      match inserted
      case Err(error) => return Err(Storage(error));
      case Ok((row, isDuplicate)) => return Ok(ResponseOf(row, isDuplicate));
    }

    method IngestBatch(events: seq<EventIngest>, ids: string -> EventId, now: DateTime, createdAt: Instant)
      returns (r: Result<BatchResponse, IngestError>)
      requires eventRepo.session == session && PrimaryKeyHolds(session.db.rawEvents)
      modifies session
      ensures session.committed == old(session.committed)
      ensures r == Batch(old(session.db), events, ids, now, createdAt).1
      ensures r.Ok? ==> session.db == Batch(old(session.db), events, ids, now, createdAt).0
    {
      ghost var expected := Batch(session.db, events, ids, now, createdAt);
      if MissingMerchants(session.db, events) != {} {
        assert expected.1 == Err(MerchantNotFound);
        return Err(MerchantNotFound);
      }
      var result := eventRepo.InsertBatch(events, ids, now, createdAt);
      if result.Err? {
        assert expected.1 == Err(Storage(result.error));
        return Err(Storage(result.error));
      }
      var rows, duplicateCount := result.value.0, result.value.1;
      assert rows == BatchRows(old(session.db), events, ids, now, createdAt);
      assert session.db == BatchInserted(old(session.db), events, ids, rows);
      var insertedByKey := ByKey(rows);
      var existingByKey := ExistingByKey(session.db, events, insertedByKey);
      var responses: seq<Response> := [];
      for i := 0 to |events|
        invariant responses == Responses(insertedByKey, existingByKey, events[..i], now)
      {
        assert Prefix(events[..i + 1]) == events[..i];
        responses := responses + [ResponseFor(insertedByKey, existingByKey, events[i], now)];
      }
      assert events[..|events|] == events;
      assert expected.1.Ok?;
      assert expected.1.value.events == responses;
      assert expected.1.value.accepted == |rows|;
      assert expected.1.value.duplicates == duplicateCount;
      return Ok(BatchResponse(|rows|, duplicateCount, responses));
    }
  }

  /** The request handler around the single path: commit on success, roll back on any exception. */
  method PostEvent(service: IngestionService, ev: EventIngest, eventId: EventId, now: DateTime, createdAt: Instant)
    returns (r: Result<Response, IngestError>)
    requires service.eventRepo.session == service.session
    requires service.session.db == service.session.committed
    modifies service.session
    ensures (service.session.db, r) == Single(old(service.session.db), ev, eventId, now, createdAt)
    ensures service.session.committed == service.session.db
  {
    r := service.IngestEvent(ev, eventId, now, createdAt);
    if r.Ok? {
      service.session.Commit();
    } else {
      service.session.Rollback();
    }
  }

  /** The request handler around the batch path. */
  method PostBatch(service: IngestionService, events: seq<EventIngest>, ids: string -> EventId, now: DateTime,
                   createdAt: Instant)
    returns (r: Result<BatchResponse, IngestError>)
    requires service.eventRepo.session == service.session
    requires service.session.db == service.session.committed && PrimaryKeyHolds(service.session.db.rawEvents)
    modifies service.session
    ensures (service.session.db, r) == Batch(old(service.session.db), events, ids, now, createdAt)
    ensures service.session.committed == service.session.db
  {
    r := service.IngestBatch(events, ids, now, createdAt);
    if r.Ok? {
      service.session.Commit();
    } else {
      service.session.Rollback();
    }
  }

  // ----- Idempotency -----

  /** uuid4 never repeats an identifier and never returns the nil UUID. */
  predicate FreshId(db: Db, id: EventId) {
    id != NIL_ID && id !in IdsOf(db.rawEvents)
  }

  predicate FreshIds(db: Db, events: seq<EventIngest>, ids: string -> EventId) {
    && (forall k :: k in KeysOf(events) ==> FreshId(db, ids(k)))
    && (forall k, l :: k in KeysOf(events) && l in KeysOf(events) && ids(k) == ids(l) ==> k == l)
  }

  /** The row the key was first accepted with. */
  function FirstAccepted(db: Db, key: string): RawEvent
    requires key in ByKey(db.rawEvents)
  {
    ByKey(db.rawEvents)[key]
  }

  lemma DuplicateFindsFirst(db: Db, key: string)
    requires OneToOne(db) && key in db.idempotency
    ensures FindById(db.rawEvents, db.idempotency[key]) == Some(FirstAccepted(db, key))
  {
    ByKeyRow(db.rawEvents, key);
    FindByIdFindsRow(db.rawEvents, FirstAccepted(db, key));
  }

  lemma AppendKeepsOneToOne(db: Db, row: RawEvent)
    requires OneToOne(db) && FreshId(db, row.id) && row.idempotencyKey !in db.idempotency
    ensures OneToOne(db.(idempotency := db.idempotency[row.idempotencyKey := row.id],
                         rawEvents := db.rawEvents + [row]))
  {
    AppendKeepsDistinctIds(db.rawEvents, row);
    AppendKeepsDistinctKeys(db.rawEvents, row);
    IdsOfAppend(db.rawEvents, row);
    ByKeyOfSnoc(db.rawEvents, row);
  }

  /** A single submission fails only for an unknown merchant or a new key with an amount beyond INTEGER; a repeat gets
      the first submission's id and time and changes nothing; a new key gets the fresh id and the server's time. */
  lemma SingleOutcome(db: Db, ev: EventIngest, id: EventId, occurredAt: DateTime, createdAt: Instant)
    requires OneToOne(db) && FreshId(db, id)
    ensures var (after, r) := Single(db, ev, id, occurredAt, createdAt);
            && OneToOne(after)
            && (r == Err(MerchantNotFound) <==> ev.merchantId !in db.merchants)
            && (r == Err(Storage(NumericOutOfRange)) <==>
                  && ev.merchantId in db.merchants && ev.idempotencyKey !in db.idempotency
                  && ev.amountCents > 0x7fff_ffff)
            && (r.Err? ==> after == db && r.error in {MerchantNotFound, Storage(NumericOutOfRange)})
            && (r.Ok? && ev.idempotencyKey in db.idempotency ==>
                  after == db && r == Ok(ResponseOf(FirstAccepted(db, ev.idempotencyKey), true)))
            && (r.Ok? && ev.idempotencyKey !in db.idempotency ==>
                  && r == Ok(Response(id, ev.idempotencyKey, occurredAt, false))
                  && Stores(RowFor(ev, id, occurredAt, createdAt), ev, id, occurredAt, createdAt)
                  && after == db.(idempotency := db.idempotency[ev.idempotencyKey := id],
                                  rawEvents := db.rawEvents + [RowFor(ev, id, occurredAt, createdAt)]))
  {
    if ev.idempotencyKey in db.idempotency {
      DuplicateFindsFirst(db, ev.idempotencyKey);
    } else {
      AppendKeepsOneToOne(db, RowFor(ev, id, occurredAt, createdAt));
    }
  }

  // ----- Batches -----

  /** Some event's key is unclaimed and already occurs earlier in the batch. */
  predicate RepeatsUnclaimed(db: Db, events: seq<EventIngest>) {
    events != []
    && (RepeatsUnclaimed(db, Prefix(events))
        || (Last(events).idempotencyKey !in db.idempotency && Last(events).idempotencyKey in KeysOf(Prefix(events))))
  }

  /** Every amount that would be inserted fits its INTEGER column. */
  predicate NewAmountsFit(db: Db, events: seq<EventIngest>) {
    forall ev :: ev in events && ev.idempotencyKey !in db.idempotency ==> FitsInteger(ev.amountCents)
  }

  /** The answer an event of the batch should get: its key's first acceptance. */
  function Expected(db: Db, ev: EventIngest, ids: string -> EventId, occurredAt: DateTime): Response {
    if ev.idempotencyKey in ByKey(db.rawEvents) then ResponseOf(FirstAccepted(db, ev.idempotencyKey), true)
    else Response(ids(ev.idempotencyKey), ev.idempotencyKey, occurredAt, false)
  }

  function ExpectedAnswers(db: Db, events: seq<EventIngest>, ids: string -> EventId, occurredAt: DateTime)
    : seq<Result<Response, IngestError>>
  {
    if events == [] then []
    else ExpectedAnswers(db, Prefix(events), ids, occurredAt) + [Ok(Expected(db, Last(events), ids, occurredAt))]
  }

  /** Each response as the successful result of one request. */
  function AllOk(responses: seq<Response>): seq<Result<Response, IngestError>> {
    if responses == [] then []
    else AllOk(responses[..|responses| - 1]) + [Ok(responses[|responses| - 1])]
  }

  /** The same events submitted one request at a time, in order, with the same identifiers and time. */
  function Singles(db: Db, events: seq<EventIngest>, ids: string -> EventId, occurredAt: DateTime, createdAt: Instant)
    : (Db, seq<Result<Response, IngestError>>)
  {
    if events == [] then (db, [])
    else
      var ev := Last(events);
      var (before, answers) := Singles(db, Prefix(events), ids, occurredAt, createdAt);
      var (after, answer) := Single(before, ev, ids(ev.idempotencyKey), occurredAt, createdAt);
      (after, answers + [answer])
  }

  lemma {:induction false} SameKeysKept(events: seq<EventIngest>, keys: set<string>, others: set<string>,
                                        ids: string -> EventId, occurredAt: DateTime, createdAt: Instant)
    requires forall k :: k in KeysOf(events) ==> (k in keys <==> k in others)
    ensures RowsFor(events, keys, ids, occurredAt, createdAt) == RowsFor(events, others, ids, occurredAt, createdAt)
  {
    if events != [] {
      KeysOfPrefix(events);
      SameKeysKept(Prefix(events), keys, others, ids, occurredAt, createdAt);
    }
  }

  /** The batch's rows grow by one row exactly when the next event's key is unclaimed. */
  lemma BatchRowsOfPrefix(db: Db, events: seq<EventIngest>, ids: string -> EventId, occurredAt: DateTime,
                          createdAt: Instant)
    requires events != []
    ensures var ev := Last(events);
            var before := BatchRows(db, Prefix(events), ids, occurredAt, createdAt);
            BatchRows(db, events, ids, occurredAt, createdAt)
            == if ev.idempotencyKey in db.idempotency then before
               else before + [RowFor(ev, ids(ev.idempotencyKey), occurredAt, createdAt)]
  {
    KeysOfPrefix(events);
    SameKeysKept(Prefix(events), Unclaimed(db, events), Unclaimed(db, Prefix(events)), ids, occurredAt, createdAt);
  }

  /** One row per key, carrying that key's identifier. */
  ghost predicate OneRowPerKey(keys: set<string>, ids: string -> EventId, rows: seq<RawEvent>) {
    && |rows| == |keys|
    && ByKey(rows).Keys == keys
    && forall row :: row in rows ==> row.idempotencyKey in keys && row.id == ids(row.idempotencyKey)
  }

  lemma OneRowMore(keys: set<string>, ids: string -> EventId, rows: seq<RawEvent>, row: RawEvent)
    requires OneRowPerKey(keys, ids, rows)
    requires row.idempotencyKey !in keys && row.id == ids(row.idempotencyKey)
    ensures OneRowPerKey(keys + {row.idempotencyKey}, ids, rows + [row])
  {
  }

  lemma UnclaimedOfPrefix(db: Db, events: seq<EventIngest>)
    requires events != []
    ensures Last(events).idempotencyKey in db.idempotency ==> Unclaimed(db, events) == Unclaimed(db, Prefix(events))
    ensures Last(events).idempotencyKey !in db.idempotency ==>
              Unclaimed(db, events) == Unclaimed(db, Prefix(events)) + {Last(events).idempotencyKey}
  {
  }

  lemma {:induction false} BatchRowsMatchKeys(db: Db, events: seq<EventIngest>, ids: string -> EventId,
                                              occurredAt: DateTime, createdAt: Instant)
    requires !RepeatsUnclaimed(db, events)
    ensures OneRowPerKey(Unclaimed(db, events), ids, BatchRows(db, events, ids, occurredAt, createdAt))
    decreases |events|
  {
    if events == [] {
      NothingUnclaimed(db, events, ids, occurredAt, createdAt);
    } else {
      var key := Last(events).idempotencyKey;
      var before := BatchRows(db, Prefix(events), ids, occurredAt, createdAt);
      BatchRowsMatchKeys(db, Prefix(events), ids, occurredAt, createdAt);
      BatchRowsOfPrefix(db, events, ids, occurredAt, createdAt);
      UnclaimedOfPrefix(db, events);
      if key !in db.idempotency {
        OneRowMore(Unclaimed(db, Prefix(events)), ids, before, RowFor(Last(events), ids(key), occurredAt, createdAt));
      }
    }
  }

  /** The tables after an accepted batch. */
  function AfterBatch(db: Db, events: seq<EventIngest>, ids: string -> EventId, occurredAt: DateTime,
                      createdAt: Instant): Db {
    BatchInserted(db, events, ids, BatchRows(db, events, ids, occurredAt, createdAt))
  }

  /** One more event changes the accepted tables only if its key is unclaimed. */
  lemma AfterBatchOfPrefix(db: Db, events: seq<EventIngest>, ids: string -> EventId, occurredAt: DateTime,
                           createdAt: Instant)
    requires events != [] && !RepeatsUnclaimed(db, events)
    ensures var key, mid := Last(events).idempotencyKey, AfterBatch(db, Prefix(events), ids, occurredAt, createdAt);
            var after := AfterBatch(db, events, ids, occurredAt, createdAt);
            if key in db.idempotency then after == mid && key in mid.idempotency
            else
              && key !in mid.idempotency
              && after == mid.(idempotency := mid.idempotency[key := ids(key)],
                               rawEvents := mid.rawEvents + [RowFor(Last(events), ids(key), occurredAt, createdAt)])
  {
    var key := Last(events).idempotencyKey;
    var rows := BatchRows(db, Prefix(events), ids, occurredAt, createdAt);
    BatchRowsOfPrefix(db, events, ids, occurredAt, createdAt);
    UnclaimedOfPrefix(db, events);
    if key !in db.idempotency {
      InsertedOneMore(db, events, ids, rows, RowFor(Last(events), ids(key), occurredAt, createdAt));
    }
  }

  lemma NextIdIsFresh(db: Db, events: seq<EventIngest>, ids: string -> EventId, occurredAt: DateTime,
                      createdAt: Instant)
    requires FreshIds(db, events, ids) && events != [] && !RepeatsUnclaimed(db, events)
    requires Last(events).idempotencyKey !in db.idempotency
    ensures FreshId(AfterBatch(db, Prefix(events), ids, occurredAt, createdAt), ids(Last(events).idempotencyKey))
  {
    BatchRowsMatchKeys(db, Prefix(events), ids, occurredAt, createdAt);
    StillFresh(db, events, ids, BatchRows(db, Prefix(events), ids, occurredAt, createdAt));
  }

  lemma {:induction false} BatchKeepsOneToOne(db: Db, events: seq<EventIngest>, ids: string -> EventId,
                                              occurredAt: DateTime, createdAt: Instant)
    requires OneToOne(db) && FreshIds(db, events, ids) && !RepeatsUnclaimed(db, events)
    ensures OneToOne(AfterBatch(db, events, ids, occurredAt, createdAt))
    decreases |events|
  {
    if events == [] {
      NothingUnclaimed(db, events, ids, occurredAt, createdAt);
    } else {
      var key := Last(events).idempotencyKey;
      KeysOfPrefix(events);
      BatchKeepsOneToOne(db, Prefix(events), ids, occurredAt, createdAt);
      AfterBatchOfPrefix(db, events, ids, occurredAt, createdAt);
      if key !in db.idempotency {
        NextIdIsFresh(db, events, ids, occurredAt, createdAt);
        AppendKeepsOneToOne(AfterBatch(db, Prefix(events), ids, occurredAt, createdAt),
                            RowFor(Last(events), ids(key), occurredAt, createdAt));
      }
    }
  }

  /** Submitting the events one request at a time leaves the tables, and gives the answers, of the batch. */
  lemma {:induction false} BatchInsertsInOrder(db: Db, events: seq<EventIngest>, ids: string -> EventId,
                                               occurredAt: DateTime, createdAt: Instant)
    requires OneToOne(db) && FreshIds(db, events, ids)
    requires MissingMerchants(db, events) == {} && !RepeatsUnclaimed(db, events) && NewAmountsFit(db, events)
    ensures Singles(db, events, ids, occurredAt, createdAt)
         == (AfterBatch(db, events, ids, occurredAt, createdAt), ExpectedAnswers(db, events, ids, occurredAt))
    decreases |events|
  {
    if events == [] {
      NothingUnclaimed(db, events, ids, occurredAt, createdAt);
    } else {
      KeysOfPrefix(events);
      PrefixMerchants(db, events);
      BatchInsertsInOrder(db, Prefix(events), ids, occurredAt, createdAt);
      NextSingle(db, events, ids, occurredAt, createdAt);
    }
  }

  /** The next event, submitted alone to the tables of the batch before it, extends them to the batch with it. */
  lemma NextSingle(db: Db, events: seq<EventIngest>, ids: string -> EventId, occurredAt: DateTime, createdAt: Instant)
    requires OneToOne(db) && FreshIds(db, events, ids) && events != []
    requires Last(events).merchantId in db.merchants && !RepeatsUnclaimed(db, events) && NewAmountsFit(db, events)
    ensures var mid := AfterBatch(db, Prefix(events), ids, occurredAt, createdAt);
            Single(mid, Last(events), ids(Last(events).idempotencyKey), occurredAt, createdAt)
            == (AfterBatch(db, events, ids, occurredAt, createdAt), Ok(Expected(db, Last(events), ids, occurredAt)))
  {
    var ev, mid := Last(events), AfterBatch(db, Prefix(events), ids, occurredAt, createdAt);
    var key := ev.idempotencyKey;
    KeysOfPrefix(events);
    AfterBatchOfPrefix(db, events, ids, occurredAt, createdAt);
    BatchKeepsOneToOne(db, Prefix(events), ids, occurredAt, createdAt);
    if key in db.idempotency {
      FirstStays(db, mid, key);
      DuplicateFindsFirst(mid, key);
    } else {
      assert ev in events;
      NextIdIsFresh(db, events, ids, occurredAt, createdAt);
      SingleOutcome(mid, ev, ids(key), occurredAt, createdAt);
    }
  }

  /** A key's first row stays its first row when rows are appended. */
  lemma FirstStays(db: Db, after: Db, key: string)
    requires OneToOne(db) && OneToOne(after) && key in db.idempotency && db.rawEvents <= after.rawEvents
    ensures key in ByKey(after.rawEvents) && FirstAccepted(after, key) == FirstAccepted(db, key)
  {
    ByKeyRow(db.rawEvents, key);
    assert FirstAccepted(db, key) in after.rawEvents;
    ByKeyFindsRow(after.rawEvents, FirstAccepted(db, key));
  }

  lemma PrefixMerchants(db: Db, events: seq<EventIngest>)
    requires MissingMerchants(db, events) == {} && events != []
    ensures MissingMerchants(db, Prefix(events)) == {} && Last(events).merchantId in db.merchants
  {
    forall e | e in events
      ensures e.merchantId in db.merchants
    {
      assert e.merchantId !in MissingMerchants(db, events);
    }
    assert forall e :: e in Prefix(events) ==> e in events;
    assert Last(events) in events;
  }

  lemma InsertedOneMore(db: Db, events: seq<EventIngest>, ids: string -> EventId, rows: seq<RawEvent>, row: RawEvent)
    requires events != [] && row.idempotencyKey == Last(events).idempotencyKey && row.id == ids(row.idempotencyKey)
    requires row.idempotencyKey !in db.idempotency && row.idempotencyKey !in KeysOf(Prefix(events))
    ensures var mid := BatchInserted(db, Prefix(events), ids, rows);
            && row.idempotencyKey !in mid.idempotency
            && BatchInserted(db, events, ids, rows + [row])
               == mid.(idempotency := mid.idempotency[row.idempotencyKey := row.id], rawEvents := mid.rawEvents + [row])
  {
    UnclaimedOfPrefix(db, events);
    ClaimOneMore(db.idempotency, Unclaimed(db, Prefix(events)), row.idempotencyKey, ids);
    assert db.rawEvents + (rows + [row]) == (db.rawEvents + rows) + [row];
  }

  lemma ClaimOneMore(idempotency: map<string, EventId>, keys: set<string>, key: string, ids: string -> EventId)
    requires key !in idempotency
    ensures ClaimKeys(idempotency, keys + {key}, ids) == ClaimKeys(idempotency, keys, ids)[key := ids(key)]
  {
  }

  lemma StillFresh(db: Db, events: seq<EventIngest>, ids: string -> EventId, rows: seq<RawEvent>)
    requires FreshIds(db, events, ids) && events != []
    requires Last(events).idempotencyKey !in KeysOf(Prefix(events))
    requires forall row :: row in rows ==>
               row.idempotencyKey in Unclaimed(db, Prefix(events)) && row.id == ids(row.idempotencyKey)
    ensures FreshId(BatchInserted(db, Prefix(events), ids, rows), ids(Last(events).idempotencyKey))
  {
    KeysOfPrefix(events);
    var id := ids(Last(events).idempotencyKey);
    forall row | row in db.rawEvents + rows
      ensures row.id != id
    {
      if row in db.rawEvents {
        assert row.id in IdsOf(db.rawEvents);
      }
    }
  }

  // ----- Failing batches -----

  lemma {:induction false} UnclaimedHasRow(events: seq<EventIngest>, keys: set<string>, ids: string -> EventId,
                                           occurredAt: DateTime, createdAt: Instant, key: string) returns (a: nat)
    requires key in KeysOf(events) && key in keys
    ensures var rows := RowsFor(events, keys, ids, occurredAt, createdAt);
            a < |rows| && rows[a].idempotencyKey == key && rows[a].id == ids(key) && rows[a].occurredAt == occurredAt
    decreases |events|
  {
    KeysOfPrefix(events);
    if key == Last(events).idempotencyKey {
      a := |RowsFor(Prefix(events), keys, ids, occurredAt, createdAt)|;
    } else {
      a := UnclaimedHasRow(Prefix(events), keys, ids, occurredAt, createdAt, key);
    }
  }

  lemma {:induction false} RepeatsBreakPrimaryKey(db: Db, events: seq<EventIngest>, ids: string -> EventId,
                                                  occurredAt: DateTime, createdAt: Instant)
    requires RepeatsUnclaimed(db, events)
    ensures !PrimaryKeyHolds(BatchRows(db, events, ids, occurredAt, createdAt))
    decreases |events|
  {
    var init, ev := Prefix(events), Last(events);
    var before := BatchRows(db, init, ids, occurredAt, createdAt);
    var rows := BatchRows(db, events, ids, occurredAt, createdAt);
    BatchRowsOfPrefix(db, events, ids, occurredAt, createdAt);
    if RepeatsUnclaimed(db, init) {
      RepeatsBreakPrimaryKey(db, init, ids, occurredAt, createdAt);
      var i, j :| 0 <= i < j < |before| && SamePrimaryKey(before[i], before[j]);
      assert SamePrimaryKey(rows[i], rows[j]);
    } else {
      var a := UnclaimedHasRow(init, Unclaimed(db, init), ids, occurredAt, createdAt, ev.idempotencyKey);
      assert SamePrimaryKey(rows[a], rows[|before|]);
    }
  }

  lemma PrimaryKeyOfPart(stored: seq<RawEvent>, rows: seq<RawEvent>)
    requires PrimaryKeyHolds(stored + rows)
    ensures PrimaryKeyHolds(rows)
  {
    var all, n := stored + rows, |stored|;
    forall i, j | 0 <= i < j < |rows|
      ensures !SamePrimaryKey(rows[i], rows[j])
    {
      assert !SamePrimaryKey(all[n + i], all[n + j]);
    }
  }

  /** The batch's rows break PRIMARY KEY (id, occurred_at) exactly when an unclaimed key occurs twice. */
  lemma BatchFailsIff(db: Db, events: seq<EventIngest>, ids: string -> EventId, occurredAt: DateTime,
                      createdAt: Instant)
    requires OneToOne(db) && FreshIds(db, events, ids)
    ensures PrimaryKeyHolds(db.rawEvents + BatchRows(db, events, ids, occurredAt, createdAt))
       <==> !RepeatsUnclaimed(db, events)
  {
    if RepeatsUnclaimed(db, events) {
      RepeatsBreakPrimaryKey(db, events, ids, occurredAt, createdAt);
      if PrimaryKeyHolds(db.rawEvents + BatchRows(db, events, ids, occurredAt, createdAt)) {
        PrimaryKeyOfPart(db.rawEvents, BatchRows(db, events, ids, occurredAt, createdAt));
      }
    } else {
      BatchKeepsOneToOne(db, events, ids, occurredAt, createdAt);
    }
  }

  lemma {:induction false} AmountsFitIff(db: Db, events: seq<EventIngest>, ids: string -> EventId, occurredAt: DateTime,
                                         createdAt: Instant)
    ensures AmountsFit(BatchRows(db, events, ids, occurredAt, createdAt)) <==> NewAmountsFit(db, events)
    decreases |events|
  {
    if events == [] {
      NothingUnclaimed(db, events, ids, occurredAt, createdAt);
    } else {
      assert events == Prefix(events) + [Last(events)];
      AmountsFitIff(db, Prefix(events), ids, occurredAt, createdAt);
      BatchRowsOfPrefix(db, events, ids, occurredAt, createdAt);
    }
  }

  /** A batch whose rows can be stored adds exactly them to the log. */
  lemma AcceptedBatch(db: Db, events: seq<EventIngest>, ids: string -> EventId, now: DateTime, createdAt: Instant,
                      rows: seq<RawEvent>)
    requires MissingMerchants(db, events) == {} && rows == BatchRows(db, events, ids, now, createdAt)
    requires AmountsFit(rows) && PrimaryKeyHolds(db.rawEvents + rows)
    ensures var (after, r) := Batch(db, events, ids, now, createdAt);
            r.Ok? && after == db.(idempotency := after.idempotency, rawEvents := db.rawEvents + rows)
  {
  }

  /** Two events of the batch share a key that is not claimed yet. */
  predicate ClashAt(db: Db, events: seq<EventIngest>, i: int, j: int) {
    && 0 <= i < j < |events|
    && events[i].idempotencyKey == events[j].idempotencyKey
    && events[j].idempotencyKey !in db.idempotency
  }

  /** Which error a batch gets: an unknown merchant first, then an amount beyond INTEGER, then a repeated key. */
  lemma BatchErrors(db: Db, events: seq<EventIngest>, ids: string -> EventId, occurredAt: DateTime, createdAt: Instant)
    requires OneToOne(db) && FreshIds(db, events, ids)
    ensures var r := Batch(db, events, ids, occurredAt, createdAt).1;
            var unknown := exists ev :: ev in events && ev.merchantId !in db.merchants;
            var tooLarge :=
              exists ev :: ev in events && ev.idempotencyKey !in db.idempotency && ev.amountCents > 0x7fff_ffff;
            var repeats := exists i, j :: ClashAt(db, events, i, j);
            && (r == Err(MerchantNotFound) <==> unknown)
            && (r == Err(Storage(NumericOutOfRange)) <==> !unknown && tooLarge)
            && (r == Err(Storage(UniqueViolation)) <==> !unknown && !tooLarge && repeats)
  {
    BatchFailsIff(db, events, ids, occurredAt, createdAt);
    AmountsFitIff(db, events, ids, occurredAt, createdAt);
    UnknownMerchantIff(db, events);
    RepeatsIff(db, events);
    assert NewAmountsFit(db, events) <==>
           !exists ev :: ev in events && ev.idempotencyKey !in db.idempotency && ev.amountCents > 0x7fff_ffff;
  }

  lemma {:induction false} RepeatsIff(db: Db, events: seq<EventIngest>)
    ensures RepeatsUnclaimed(db, events) <==> exists i, j :: ClashAt(db, events, i, j)
    decreases |events|
  {
    if events != [] {
      RepeatsIff(db, Prefix(events));
      LastClashes(db, events, |events| - 1);
      forall i, j
        ensures ClashAt(db, Prefix(events), i, j) <==> ClashAt(db, events, i, j) && j < |events| - 1
      {
      }
    }
  }

  lemma LastClashes(db: Db, events: seq<EventIngest>, n: nat)
    requires n + 1 == |events|
    ensures Last(events).idempotencyKey !in db.idempotency && Last(events).idempotencyKey in KeysOf(Prefix(events))
       <==> exists i :: ClashAt(db, events, i, n)
  {
    var init := Prefix(events);
    if Last(events).idempotencyKey !in db.idempotency && Last(events).idempotencyKey in KeysOf(init) {
      var i :| 0 <= i < n && init[i].idempotencyKey == events[n].idempotencyKey;
      assert ClashAt(db, events, i, n);
    }
    forall i | ClashAt(db, events, i, n)
      ensures Last(events).idempotencyKey in KeysOf(init)
    {
      assert init[i] in init;
    }
  }

  lemma UnknownMerchantIff(db: Db, events: seq<EventIngest>)
    ensures MissingMerchants(db, events) != {} <==> exists ev :: ev in events && ev.merchantId !in db.merchants
  {
    if ev :| ev in events && ev.merchantId !in db.merchants {
      assert ev.merchantId in MissingMerchants(db, events);
    }
    if MissingMerchants(db, events) != {} {
      var m := Member(MissingMerchants(db, events));
    }
  }

  /** The batch endpoint fails exactly for an unknown merchant, a new amount beyond INTEGER or an unclaimed key that
      repeats, and then changes nothing; otherwise tables and answers are those of the single endpoint, event by
      event. */
  lemma BatchRefinesSingles(db: Db, events: seq<EventIngest>, ids: string -> EventId, occurredAt: DateTime,
                            createdAt: Instant)
    requires OneToOne(db) && FreshIds(db, events, ids)
    ensures var (after, r) := Batch(db, events, ids, occurredAt, createdAt);
            && OneToOne(after)
            && (r.Err? <==> MissingMerchants(db, events) != {} || !NewAmountsFit(db, events)
                            || RepeatsUnclaimed(db, events))
            && (r.Err? ==> after == db)
            && (r.Ok? ==>
                  && Singles(db, events, ids, occurredAt, createdAt) == (after, AllOk(r.value.events))
                  && r.value.accepted == |Unclaimed(db, events)|
                  && r.value.accepted + r.value.duplicates == |events|)
  {
    BatchFailsIff(db, events, ids, occurredAt, createdAt);
    AmountsFitIff(db, events, ids, occurredAt, createdAt);
    if Batch(db, events, ids, occurredAt, createdAt).1.Ok? {
      BatchRowsMatchKeys(db, events, ids, occurredAt, createdAt);
      BatchKeepsOneToOne(db, events, ids, occurredAt, createdAt);
      BatchInsertsInOrder(db, events, ids, occurredAt, createdAt);
      AnswersAreExpected(db, events, events, ids, occurredAt, createdAt);
    }
  }

  /** Responses come in the order of the events. */
  lemma {:induction false} ResponseAt(inserted: map<string, RawEvent>, existing: map<string, RawEvent>,
                                      events: seq<EventIngest>, occurredAt: DateTime, i: nat)
    requires i < |events|
    ensures |Responses(inserted, existing, events, occurredAt)| == |events|
    ensures Responses(inserted, existing, events, occurredAt)[i]
         == ResponseFor(inserted, existing, events[i], occurredAt)
    decreases |events|
  {
    if |events| == 1 {
      assert Prefix(events) == [];
    } else {
      ResponseAt(inserted, existing, Prefix(events), occurredAt, if i < |events| - 1 then i else 0);
    }
  }

  lemma {:induction false} AnswersAreExpected(db: Db, events: seq<EventIngest>, part: seq<EventIngest>,
                                              ids: string -> EventId,
                                              occurredAt: DateTime, createdAt: Instant)
    requires OneToOne(db) && FreshIds(db, events, ids) && !RepeatsUnclaimed(db, events)
    requires forall ev :: ev in part ==> ev in events
    ensures var rows := BatchRows(db, events, ids, occurredAt, createdAt);
            var existing := ExistingByKey(BatchInserted(db, events, ids, rows), events, ByKey(rows));
            AllOk(Responses(ByKey(rows), existing, part, occurredAt))
            == ExpectedAnswers(db, part, ids, occurredAt)
    decreases |part|
  {
    if part != [] {
      assert Last(part) in part;
      AnswersAreExpected(db, events, Prefix(part), ids, occurredAt, createdAt);
      AnswerIsFirstAcceptance(db, events, ids, occurredAt, createdAt, Last(part));
      var rows := BatchRows(db, events, ids, occurredAt, createdAt);
      var existing := ExistingByKey(BatchInserted(db, events, ids, rows), events, ByKey(rows));
      var before := Responses(ByKey(rows), existing, Prefix(part), occurredAt);
      assert (before + [BatchAnswer(db, events, ids, occurredAt, createdAt, Last(part))])[..|before|] == before;
    }
  }

  /** The answer an accepted batch assembles for one of its events. */
  function BatchAnswer(db: Db, events: seq<EventIngest>, ids: string -> EventId, occurredAt: DateTime,
                       createdAt: Instant, ev: EventIngest)
    : Response
  {
    var rows := BatchRows(db, events, ids, occurredAt, createdAt);
    ResponseFor(ByKey(rows), ExistingByKey(BatchInserted(db, events, ids, rows), events, ByKey(rows)), ev, occurredAt)
  }

  /** Every answer of an accepted batch names the row its key was first accepted with; in particular the
      nil-UUID fallback is never taken. */
  lemma AnswerIsFirstAcceptance(db: Db, events: seq<EventIngest>, ids: string -> EventId, occurredAt: DateTime,
                                createdAt: Instant,
                                ev: EventIngest)
    requires OneToOne(db) && FreshIds(db, events, ids) && ev in events && !RepeatsUnclaimed(db, events)
    ensures var answer := BatchAnswer(db, events, ids, occurredAt, createdAt, ev);
            && answer == Expected(db, ev, ids, occurredAt)
            && answer.eventId != NIL_ID
  {
    BatchKeepsOneToOne(db, events, ids, occurredAt, createdAt);
    BatchRowsMatchKeys(db, events, ids, occurredAt, createdAt);
    var rows := BatchRows(db, events, ids, occurredAt, createdAt);
    var key := ev.idempotencyKey;
    assert key in KeysOf(events);
    if key in db.idempotency {
      ExistingIsFirst(db, events, ids, rows, key);
      ByKeyRow(db.rawEvents, key);
      assert FirstAccepted(db, key).id in IdsOf(db.rawEvents);
    } else {
      ByKeyRow(rows, key);
      RowTimes(events, Unclaimed(db, events), ids, occurredAt, createdAt);
    }
  }

  /** An accepted batch answers each event, at its position, with its key's first acceptance. */
  lemma BatchAnswersAt(db: Db, events: seq<EventIngest>, ids: string -> EventId, occurredAt: DateTime,
                       createdAt: Instant, i: nat)
    requires OneToOne(db) && FreshIds(db, events, ids) && i < |events|
    ensures var r := Batch(db, events, ids, occurredAt, createdAt).1;
            r.Ok? ==> |r.value.events| == |events| && r.value.events[i] == Expected(db, events[i], ids, occurredAt)
  {
    BatchRefinesSingles(db, events, ids, occurredAt, createdAt);
    if Batch(db, events, ids, occurredAt, createdAt).1.Ok? {
      AnswerIsFirstAcceptance(db, events, ids, occurredAt, createdAt, events[i]);
      var rows := BatchRows(db, events, ids, occurredAt, createdAt);
      var existing := ExistingByKey(BatchInserted(db, events, ids, rows), events, ByKey(rows));
      ResponseAt(ByKey(rows), existing, events, occurredAt, i);
    }
  }

  lemma {:induction false} RowTimes(events: seq<EventIngest>, keys: set<string>, ids: string -> EventId,
                                    occurredAt: DateTime, createdAt: Instant)
    ensures forall row :: row in RowsFor(events, keys, ids, occurredAt, createdAt) ==>
              row.occurredAt == occurredAt && row.createdAt == createdAt
  {
    if events != [] {
      RowTimes(Prefix(events), keys, ids, occurredAt, createdAt);
    }
  }

  lemma ExistingIsFirst(db: Db, events: seq<EventIngest>, ids: string -> EventId, rows: seq<RawEvent>, key: string)
    requires OneToOne(db) && OneToOne(BatchInserted(db, events, ids, rows))
    requires key in db.idempotency && key in KeysOf(events) && key !in ByKey(rows)
    ensures var existing := ExistingByKey(BatchInserted(db, events, ids, rows), events, ByKey(rows));
            key in existing && existing[key] == FirstAccepted(db, key)
  {
    var log := db.rawEvents + rows;
    var keys := KeysOf(events) - ByKey(rows).Keys;
    var first := FirstAccepted(db, key);
    ByKeyRow(db.rawEvents, key);
    RowsWithKey(log, keys, first);
    ByKeyHas(RowsWithKeyIn(log, keys), first);
    ByKeyRow(RowsWithKeyIn(log, keys), key);
    var found := ByKey(RowsWithKeyIn(log, keys))[key];
    RowsWithKey(log, keys, found);
    ByKeyFindsRow(log, first);
    ByKeyFindsRow(log, found);
  }
}
