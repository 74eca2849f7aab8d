/** Writes and cursor reads of raw_events. */
module EventRepositories {
  import opened Calendar
  import opened Events
  import opened Database

  datatype DbError = UniqueViolation | NumericOutOfRange | NoResultFound

  function RowFor(ev: EventIngest, id: EventId, occurredAt: DateTime, createdAt: Instant): RawEvent {
    RawEvent(id, ev.eventType, ev.merchantId, ev.amountCents, ev.idempotencyKey, occurredAt, ev.clientTimestamp,
             createdAt)
  }

  /** The row stores what was submitted, field by field. */
  predicate Stores(row: RawEvent, ev: EventIngest, id: EventId, occurredAt: DateTime, createdAt: Instant) {
    && row.id == id
    && row.eventType == ev.eventType
    && row.merchantId == ev.merchantId
    && row.amountCents == ev.amountCents
    && row.idempotencyKey == ev.idempotencyKey
    && row.clientTimestamp == ev.clientTimestamp
    && row.occurredAt == occurredAt
    && row.createdAt == createdAt
  }

  lemma RowStoresSubmission(ev: EventIngest, id: EventId, occurredAt: DateTime, createdAt: Instant)
    ensures Stores(RowFor(ev, id, occurredAt, createdAt), ev, id, occurredAt, createdAt)
  {
  }

  predicate SamePrimaryKey(e: RawEvent, f: RawEvent) {
    e.id == f.id && e.occurredAt == f.occurredAt
  }

  /** PRIMARY KEY (id, occurred_at) */
  predicate PrimaryKeyHolds(rows: seq<RawEvent>) {
    forall i, j :: 0 <= i < j < |rows| ==> !SamePrimaryKey(rows[i], rows[j])
  }

  /** One more row breaks the key exactly when a row has its id and its time. */
  lemma KeyBreaksIff(rows: seq<RawEvent>, row: RawEvent)
    requires PrimaryKeyHolds(rows)
    ensures !PrimaryKeyHolds(rows + [row])
       <==> exists e :: e in rows && e.id == row.id && e.occurredAt == row.occurredAt
  {
    var all := rows + [row];
    forall i | 0 <= i < |rows| && SamePrimaryKey(rows[i], row)
      ensures !PrimaryKeyHolds(all)
    {
      assert all[i] == rows[i] && all[|rows|] == row;
    }
  }

  function KeysOf(events: seq<EventIngest>): set<string> {
    set e | e in events :: e.idempotencyKey
  }

  function Prefix(events: seq<EventIngest>): seq<EventIngest>
    requires events != []
  {
    events[..|events| - 1]
  }

  function Last(events: seq<EventIngest>): EventIngest
    requires events != []
  {
    events[|events| - 1]
  }

  lemma KeysOfPrefix(events: seq<EventIngest>)
    requires events != []
    ensures KeysOf(events) == KeysOf(Prefix(events)) + {Last(events).idempotencyKey}
  {
  }

  /** raw_events rows for the events whose key is in `keys`, in order; `ids` is the fresh uuid4 drawn for each key. */
  function RowsFor(events: seq<EventIngest>, keys: set<string>, ids: string -> EventId, occurredAt: DateTime,
                   createdAt: Instant)
    : seq<RawEvent>
  {
    if events == [] then []
    else
      var ev := Last(events);
      RowsFor(Prefix(events), keys, ids, occurredAt, createdAt)
      + if ev.idempotencyKey in keys then [RowFor(ev, ids(ev.idempotencyKey), occurredAt, createdAt)] else []
  }

  /** Every row of a batch stores one of its events that has one of the keys. */
  lemma {:induction false} RowsStoreEvents(events: seq<EventIngest>, keys: set<string>, ids: string -> EventId,
                                           occurredAt: DateTime, createdAt: Instant, row: RawEvent)
    requires row in RowsFor(events, keys, ids, occurredAt, createdAt)
    ensures exists ev :: ev in events && ev.idempotencyKey in keys
                         && Stores(row, ev, ids(ev.idempotencyKey), occurredAt, createdAt)
  {
    var init, last := Prefix(events), Last(events);
    assert events == init + [last];
    if row in RowsFor(init, keys, ids, occurredAt, createdAt) {
      RowsStoreEvents(init, keys, ids, occurredAt, createdAt, row);
    } else {
      RowStoresSubmission(last, ids(last.idempotencyKey), occurredAt, createdAt);
      assert last in events;
    }
  }

  /** The batch's keys that event_idempotency does not hold yet. */
  function Unclaimed(db: Db, events: seq<EventIngest>): set<string> {
    KeysOf(events) - db.idempotency.Keys
  }

  function BatchRows(db: Db, events: seq<EventIngest>, ids: string -> EventId, occurredAt: DateTime, createdAt: Instant)
    : seq<RawEvent>
  {
    RowsFor(events, Unclaimed(db, events), ids, occurredAt, createdAt)
  }

  function ClaimKeys(idempotency: map<string, EventId>, keys: set<string>, ids: string -> EventId)
    : map<string, EventId>
  {
    map k | k in idempotency.Keys + keys :: if k in idempotency then idempotency[k] else ids(k)
  }

  function BatchInserted(db: Db, events: seq<EventIngest>, ids: string -> EventId, rows: seq<RawEvent>): Db {
    db.(idempotency := ClaimKeys(db.idempotency, Unclaimed(db, events), ids),
        rawEvents := db.rawEvents + rows)
  }

  lemma {:induction false} NoRowsForNoKeys(events: seq<EventIngest>, ids: string -> EventId, occurredAt: DateTime,
                                           createdAt: Instant)
    ensures RowsFor(events, {}, ids, occurredAt, createdAt) == []
  {
    if events != [] {
      NoRowsForNoKeys(Prefix(events), ids, occurredAt, createdAt);
    }
  }

  lemma NothingUnclaimed(db: Db, events: seq<EventIngest>, ids: string -> EventId, occurredAt: DateTime,
                         createdAt: Instant)
    requires Unclaimed(db, events) == {}
    ensures BatchRows(db, events, ids, occurredAt, createdAt) == []
    ensures BatchInserted(db, events, ids, []) == db
  {
    NoRowsForNoKeys(events, ids, occurredAt, createdAt);
    assert ClaimKeys(db.idempotency, {}, ids) == db.idempotency;
    assert db.rawEvents + [] == db.rawEvents;
  }

  /** Rows of raw_events whose key is one of the given keys. */
  function RowsWithKeyIn(rows: seq<RawEvent>, keys: set<string>): seq<RawEvent> {
    if rows == [] then []
    else
      var last := rows[|rows| - 1];
      RowsWithKeyIn(rows[..|rows| - 1], keys) + if last.idempotencyKey in keys then [last] else []
  }

  lemma {:induction false} RowsWithKey(rows: seq<RawEvent>, keys: set<string>, e: RawEvent)
    ensures e in RowsWithKeyIn(rows, keys) <==> e in rows && e.idempotencyKey in keys
  {
    if rows != [] {
      assert rows == rows[..|rows| - 1] + [rows[|rows| - 1]];
      RowsWithKey(rows[..|rows| - 1], keys, e);
    }
  }

  // ----- The cursor query -----

  /** created_at > (SELECT created_at FROM raw_events WHERE id = :last_event_id); true when there is no cursor. */
  predicate IsAfter(log: seq<RawEvent>, after: Option<EventId>, e: RawEvent) {
    match after
    case None => true
    case Some(id) =>
      var cursor := FindById(log, id);
      cursor.Some? && e.createdAt > cursor.value.createdAt
  }

  lemma AfterCursorIff(log: seq<RawEvent>, cursor: RawEvent, e: RawEvent)
    requires DistinctIds(log) && cursor in log
    ensures IsAfter(log, Some(cursor.id), e) <==> e.createdAt > cursor.createdAt
  {
    FindByIdFindsRow(log, cursor);
  }

  /** ORDER BY created_at, and by id as well when there is a cursor. */
  predicate InOrder(after: Option<EventId>, e: RawEvent, f: RawEvent) {
    e.createdAt < f.createdAt || (e.createdAt == f.createdAt && (after.Some? ==> e.id <= f.id))
  }

  /** w is a possible answer to the cursor query: some first `limit` rows in order among those after the cursor. */
  predicate IsWindow(log: seq<RawEvent>, after: Option<EventId>, limit: nat, w: seq<RawEvent>) {
    && |w| <= limit
    && DistinctIds(w)
    && (forall e :: e in w ==> e in log && IsAfter(log, after, e))
    && (forall i, j :: 0 <= i < j < |w| ==> InOrder(after, w[i], w[j]))
    && (forall e :: e in log && IsAfter(log, after, e) && e !in w ==>
          |w| == limit && forall i :: 0 <= i < |w| ==> InOrder(after, w[i], e))
  }

  /** Insert e into a list ordered by (created_at, id). */
  function InsertInOrder(s: seq<RawEvent>, e: RawEvent): (r: seq<RawEvent>)
    ensures |r| == |s| + 1 && forall x :: x in r <==> x in s || x == e
  {
    if s == [] then [e]
    else
      var init, last := s[..|s| - 1], s[|s| - 1];
      assert s == init + [last];
      if InOrder(Some(0), last, e) then s + [e] else InsertInOrder(init, e) + [last]
  }

  predicate Ordered(s: seq<RawEvent>) {
    forall i, j :: 0 <= i < j < |s| ==> InOrder(Some(0), s[i], s[j])
  }

  lemma AppendLast(s: seq<RawEvent>, e: RawEvent)
    requires Ordered(s) && DistinctIds(s)
    requires forall x :: x in s ==> InOrder(Some(0), x, e) && x.id != e.id
    ensures Ordered(s + [e]) && DistinctIds(s + [e])
  {
  }

  lemma {:induction false} InsertKeepsOrder(s: seq<RawEvent>, e: RawEvent)
    requires Ordered(s) && DistinctIds(s)
    requires forall x :: x in s ==> x.id != e.id
    ensures Ordered(InsertInOrder(s, e)) && DistinctIds(InsertInOrder(s, e))
  {
    if s != [] {
      var init, last := s[..|s| - 1], s[|s| - 1];
      assert forall x :: x in init ==> x in s && InOrder(Some(0), x, last) && x.id != last.id;
      assert last in s;
      if InOrder(Some(0), last, e) {
        AppendLast(s, e);
      } else {
        InsertKeepsOrder(init, e);
        AppendLast(InsertInOrder(init, e), last);
      }
    }
  }

  /** The rows after the cursor, ordered by (created_at, id). */
  function RowsAfter(log: seq<RawEvent>, rows: seq<RawEvent>, after: Option<EventId>): (r: seq<RawEvent>)
    ensures forall e :: e in r <==> e in rows && IsAfter(log, after, e)
  {
    if rows == [] then []
    else
      var init, last := rows[..|rows| - 1], rows[|rows| - 1];
      assert rows == init + [last];
      if IsAfter(log, after, last) then InsertInOrder(RowsAfter(log, init, after), last)
      else RowsAfter(log, init, after)
  }

  lemma {:induction false} RowsAfterOrdered(log: seq<RawEvent>, rows: seq<RawEvent>, after: Option<EventId>)
    requires DistinctIds(rows)
    ensures Ordered(RowsAfter(log, rows, after)) && DistinctIds(RowsAfter(log, rows, after))
  {
    if rows != [] {
      var init, last := rows[..|rows| - 1], rows[|rows| - 1];
      RowsAfterOrdered(log, init, after);
      if IsAfter(log, after, last) {
        assert forall x :: x in init ==> x.id != last.id;
        InsertKeepsOrder(RowsAfter(log, init, after), last);
      }
    }
  }

  function FirstRowsAfter(log: seq<RawEvent>, after: Option<EventId>, limit: nat): seq<RawEvent> {
    var all := RowsAfter(log, log, after);
    if |all| <= limit then all else all[..limit]
  }

  /** The cursor query always has an answer. */
  lemma WindowExists(log: seq<RawEvent>, after: Option<EventId>, limit: nat)
    requires DistinctIds(log)
    ensures IsWindow(log, after, limit, FirstRowsAfter(log, after, limit))
  {
    RowsAfterOrdered(log, log, after);
    var all, w := RowsAfter(log, log, after), FirstRowsAfter(log, after, limit);
    forall e | e in log && IsAfter(log, after, e) && e !in w
      ensures |w| == limit && forall i :: 0 <= i < |w| ==> InOrder(after, w[i], e)
    {
      var j :| 0 <= j < |all| && all[j] == e;
      assert forall i :: 0 <= i < |w| ==> w[i] == all[i];
      assert forall i :: 0 <= i < |w| ==> all[i] in w;
    }
  }

  // ----- The repository -----

  class EventRepository {
    const session: Session

    constructor (session: Session)
      ensures this.session == session
    {
      this.session := session;
    }

    /** Two-phase insert of one event; `eventId` is the fresh uuid4. Returns the row and whether it is a duplicate. */
    method InsertEvent(ev: EventIngest, eventId: EventId, occurredAt: DateTime, createdAt: Instant)
      returns (r: Result<(RawEvent, bool), DbError>)
      modifies session
      ensures session.committed == old(session.committed)
      ensures ev.idempotencyKey in old(session.db).idempotency ==>
                && session.db == old(session.db)
                && r == match FindById(session.db.rawEvents, session.db.idempotency[ev.idempotencyKey])
                        case Some(row) => Ok((row, true))
                        case None => Err(NoResultFound)
      ensures ev.idempotencyKey !in old(session.db).idempotency ==>
                var row := RowFor(ev, eventId, occurredAt, createdAt);
                if !FitsInteger(ev.amountCents) then r == Err(NumericOutOfRange)
                else if PrimaryKeyHolds(old(session.db).rawEvents + [row])
                then r == Ok((row, false)) && session.db == old(session.db).(
                       idempotency := old(session.db).idempotency[ev.idempotencyKey := eventId],
                       rawEvents := old(session.db).rawEvents + [row])
                else r == Err(UniqueViolation)
      ensures ev.idempotencyKey !in old(session.db).idempotency && r.Ok? ==>
                Stores(r.value.0, ev, eventId, occurredAt, createdAt)
    {
      // The key table decides: a key it knows names the row to answer with.
      if ev.idempotencyKey in session.db.idempotency {
        var existing := FindById(session.db.rawEvents, session.db.idempotency[ev.idempotencyKey]);
        return match existing case Some(row) => Ok((row, true)) case None => Err(NoResultFound);
      }
      session.db := session.db.(idempotency := session.db.idempotency[ev.idempotencyKey := eventId]);

      // The key is ours, so the log has no row for it yet.
      var row := RowFor(ev, eventId, occurredAt, createdAt);
      if !FitsInteger(ev.amountCents) {
        return Err(NumericOutOfRange);
      }
      if !PrimaryKeyHolds(session.db.rawEvents + [row]) {
        return Err(UniqueViolation);
      }
      session.db := session.db.(rawEvents := session.db.rawEvents + [row]);
      return Ok((row, false));
    }

    /** Two-phase bulk insert. Returns the inserted rows and the duplicate count. */
    method InsertBatch(events: seq<EventIngest>, ids: string -> EventId, occurredAt: DateTime, createdAt: Instant)
      returns (r: Result<(seq<RawEvent>, int), DbError>)
      requires PrimaryKeyHolds(session.db.rawEvents)
      modifies session
      ensures session.committed == old(session.committed)
      ensures var rows := BatchRows(old(session.db), events, ids, occurredAt, createdAt);
              if !AmountsFit(rows) then r == Err(NumericOutOfRange)
              else if PrimaryKeyHolds(old(session.db).rawEvents + rows)
              then
                && r == Ok((rows, |events| - |Unclaimed(old(session.db), events)|))
                && session.db == BatchInserted(old(session.db), events, ids, rows)
              else r == Err(UniqueViolation)
      ensures r.Ok? ==> forall row :: row in r.value.0 ==>
                exists ev :: ev in events && ev.idempotencyKey !in old(session.db).idempotency
                             && Stores(row, ev, ids(ev.idempotencyKey), occurredAt, createdAt)
    {
      forall row | row in BatchRows(session.db, events, ids, occurredAt, createdAt)
        ensures exists ev :: ev in events && ev.idempotencyKey !in session.db.idempotency
                             && Stores(row, ev, ids(ev.idempotencyKey), occurredAt, createdAt)
      {
        RowsStoreEvents(events, Unclaimed(session.db, events), ids, occurredAt, createdAt, row);
      }

      // From here on `claimed` are this batch's keys and nobody else's.
      var claimed := Unclaimed(session.db, events);
      session.db := session.db.(idempotency := ClaimKeys(session.db.idempotency, claimed, ids));
      var duplicateCount := |events| - |claimed|;
      if claimed == {} {
        NothingUnclaimed(old(session.db), events, ids, occurredAt, createdAt);
        assert session.db.rawEvents + [] == session.db.rawEvents;
        return Ok(([], duplicateCount));
      }

      // One row per event that carries such a key; a key that occurs twice clashes with itself.
      var rows := RowsFor(events, claimed, ids, occurredAt, createdAt);
      if !AmountsFit(rows) {
        return Err(NumericOutOfRange);
      }
      if !PrimaryKeyHolds(session.db.rawEvents + rows) {
        return Err(UniqueViolation);
      }
      session.db := session.db.(rawEvents := session.db.rawEvents + rows);
      return Ok((rows, duplicateCount));
    }

    /** The next window of events for the rollup worker. */
    method GetEventsAfter(lastEventId: Option<EventId>, limit: nat) returns (w: seq<RawEvent>)
      requires DistinctIds(session.db.rawEvents)
      ensures IsWindow(session.db.rawEvents, lastEventId, limit, w)
      ensures forall i, j :: 0 <= i < j < |w| ==>
                || w[i].createdAt < w[j].createdAt
                || (w[i].createdAt == w[j].createdAt && (lastEventId.Some? ==> w[i].id < w[j].id))
    {
      WindowExists(session.db.rawEvents, lastEventId, limit);
      w := FirstRowsAfter(session.db.rawEvents, lastEventId, limit);
    }
  }
}
