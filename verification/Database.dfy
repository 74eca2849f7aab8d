/** The PostgreSQL tables, and a session whose transaction works on them. */
module Database {
  import opened Calendar
  import opened Events
  import opened RollupAlgebra

  datatype Rollups = Rollups(minute: Table, hour: Table, day: Table) {
    function At(g: Granularity): Table {
      match g
      case Minute => minute
      case Hour => hour
      case Day => day
    }
  }

  /** Primary key of processed_rollup_events. */
  datatype Marker = Marker(consumerId: ConsumerId, eventId: EventId)

  datatype Offset = Offset(lastEventId: EventId, lastEventAt: DateTime)

  /** Table contents. rawEvents is in the order in which rows became visible. */
  datatype Db = Db(
    merchants: set<MerchantId>,
    idempotency: map<string, EventId>,
    rawEvents: seq<RawEvent>,
    markers: set<Marker>,
    offsets: map<ConsumerId, Offset>,
    rollups: Rollups)

  /** The cursor a batch starts from. */
  function CursorOf(db: Db, consumerId: ConsumerId): Option<EventId> {
    if consumerId in db.offsets then Some(db.offsets[consumerId].lastEventId) else None
  }

  /** Dict comprehension {row.idempotency_key: row for row in rows}. */
  function ByKey(rows: seq<RawEvent>): map<string, RawEvent> {
    if rows == [] then map[]
    else ByKey(rows[..|rows| - 1])[rows[|rows| - 1].idempotencyKey := rows[|rows| - 1]]
  }

  lemma {:induction false} ByKeyRow(rows: seq<RawEvent>, k: string)
    requires k in ByKey(rows)
    ensures ByKey(rows)[k] in rows && ByKey(rows)[k].idempotencyKey == k
  {
    var init, last := rows[..|rows| - 1], rows[|rows| - 1];
    assert last in rows;
    if k != last.idempotencyKey {
      ByKeyRow(init, k);
    }
  }

  lemma {:induction false} ByKeyHas(rows: seq<RawEvent>, e: RawEvent)
    requires e in rows
    ensures e.idempotencyKey in ByKey(rows)
  {
    var init, last := rows[..|rows| - 1], rows[|rows| - 1];
    assert rows == init + [last];
    if e != last {
      ByKeyHas(init, e);
    }
  }

  predicate DistinctKeys(rows: seq<RawEvent>) {
    forall i, j :: 0 <= i < j < |rows| ==> rows[i].idempotencyKey != rows[j].idempotencyKey
  }

  lemma ByKeyFindsRow(rows: seq<RawEvent>, e: RawEvent)
    requires DistinctKeys(rows) && e in rows
    ensures e.idempotencyKey in ByKey(rows) && ByKey(rows)[e.idempotencyKey] == e
  {
  }

  lemma UpdateOfUnion<K, V>(m: map<K, V>, n: map<K, V>, k: K, v: V)
    ensures (m + n)[k := v] == m + n[k := v]
  {
  }

  lemma ByKeyOfSnoc(rows: seq<RawEvent>, e: RawEvent)
    ensures ByKey(rows + [e]) == ByKey(rows)[e.idempotencyKey := e]
  {
  }

  lemma {:induction false} ByKeyOfConcat(rows: seq<RawEvent>, more: seq<RawEvent>)
    ensures ByKey(rows + more) == ByKey(rows) + ByKey(more)
  {
    if more == [] {
      assert rows + more == rows;
    } else {
      var init, last := more[..|more| - 1], more[|more| - 1];
      assert rows + more == (rows + init) + [last];
      ByKeyOfConcat(rows, init);
      ByKeyOfSnoc(rows + init, last);
      UpdateOfUnion(ByKey(rows), ByKey(init), last.idempotencyKey, last);
    }
  }

  /** SELECT ... WHERE id = :id */
  function FindById(rows: seq<RawEvent>, id: EventId): Option<RawEvent> {
    if rows == [] then None
    else if rows[|rows| - 1].id == id then Some(rows[|rows| - 1])
    else FindById(rows[..|rows| - 1], id)
  }

  lemma {:induction false} FindByIdRow(rows: seq<RawEvent>, id: EventId)
    ensures FindById(rows, id).Some? ==> FindById(rows, id).value in rows && FindById(rows, id).value.id == id
    ensures FindById(rows, id).None? ==> forall e :: e in rows ==> e.id != id
  {
    if rows != [] {
      var init, last := rows[..|rows| - 1], rows[|rows| - 1];
      assert rows == init + [last];
      FindByIdRow(init, id);
    }
  }

  lemma FindByIdFindsRow(rows: seq<RawEvent>, e: RawEvent)
    requires DistinctIds(rows) && e in rows
    ensures FindById(rows, e.id) == Some(e)
  {
  }

  /** event_idempotency and raw_events are in one-to-one correspondence by (key, id). */
  predicate OneToOne(db: Db) {
    && DistinctIds(db.rawEvents)
    && DistinctKeys(db.rawEvents)
    && NIL_ID !in IdsOf(db.rawEvents)
    && db.idempotency.Keys == ByKey(db.rawEvents).Keys
    && forall k :: k in db.idempotency ==> db.idempotency[k] == ByKey(db.rawEvents)[k].id
  }

  lemma AppendKeepsDistinctIds(rows: seq<RawEvent>, row: RawEvent)
    requires DistinctIds(rows) && row.id !in IdsOf(rows)
    ensures DistinctIds(rows + [row])
  {
  }

  lemma AppendKeepsDistinctKeys(rows: seq<RawEvent>, row: RawEvent)
    requires DistinctKeys(rows) && row.idempotencyKey !in ByKey(rows)
    ensures DistinctKeys(rows + [row])
  {
    forall i | 0 <= i < |rows|
      ensures rows[i].idempotencyKey in ByKey(rows)
    {
      ByKeyHas(rows, rows[i]);
    }
  }

  lemma IdsOfAppend(rows: seq<RawEvent>, row: RawEvent)
    ensures IdsOf(rows + [row]) == IdsOf(rows) + {row.id}
  {
  }

  /** A session: the tables as its transaction sees them, and as they were at the last commit. */
  class Session {
    var db: Db
    var committed: Db

    constructor (start: Db)
      ensures db == committed == start
    {
      db, committed := start, start;
    }

    method Commit()
      modifies this
      ensures db == committed == old(db)
    {
      committed := db;
    }

    method Rollback()
      modifies this
      ensures db == committed == old(committed)
    {
      db := committed;
    }
  }
}
