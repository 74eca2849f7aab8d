/** The records that flow through the pipeline. */
module Events {
  import opened Calendar

  datatype Option<+T> = None | Some(value: T)

  datatype Result<+T, +E> = Ok(value: T) | Err(error: E)

  type EventId = int
  type MerchantId = int
  type ConsumerId = string

  /** The nil UUID, which `uuid4` never returns. */
  const NIL_ID: EventId := 0

  datatype EventType = PaymentInitiated | PaymentConfirmed | PaymentFailed

  /** A validated submission. */
  datatype EventIngest = EventIngest(
    eventType: EventType,
    merchantId: MerchantId,
    amountCents: nat,
    idempotencyKey: string,
    clientTimestamp: Option<DateTime>)

  /** A row of raw_events; createdAt is the start of the inserting transaction. */
  datatype RawEvent = RawEvent(
    id: EventId,
    eventType: EventType,
    merchantId: MerchantId,
    amountCents: int,
    idempotencyKey: string,
    occurredAt: DateTime,
    clientTimestamp: Option<DateTime>,
    createdAt: Instant)

  function BucketTs(e: RawEvent): DateTime {
    if e.clientTimestamp.Some? then e.clientTimestamp.value else e.occurredAt
  }

  function EventInstant(e: RawEvent): Instant {
    ToInstant(BucketTs(e))
  }

  /** The primary key of the three rollup tables. */
  datatype Key = Key(merchantId: MerchantId, bucket: Instant, eventType: EventType)

  function KeyOf(g: Granularity, e: RawEvent): Key {
    Key(e.merchantId, ToInstant(Bucket(g, BucketTs(e))), e.eventType)
  }

  /** An event is bucketed by its client timestamp if it has one, and by the server's otherwise. */
  lemma BucketedByClientTime(g: Granularity, e: RawEvent)
    ensures var time := if e.clientTimestamp.Some? then e.clientTimestamp.value else e.occurredAt;
            KeyOf(g, e) == Key(e.merchantId, Floor(g, ToInstant(time)), e.eventType)
  {
    BucketIsFloor(g, BucketTs(e));
  }

  lemma KeyOfFloor(g: Granularity, e: RawEvent)
    ensures KeyOf(g, e) == Key(e.merchantId, Floor(g, EventInstant(e)), e.eventType)
  {
    BucketIsFloor(g, BucketTs(e));
  }

  const INTEGER_MIN := -0x8000_0000
  const INTEGER_MAX := 0x7fff_ffff

  /** amount_cents fits its INTEGER column. */
  predicate FitsInteger(amountCents: int) {
    INTEGER_MIN <= amountCents <= INTEGER_MAX
  }

  predicate AmountsFit(s: seq<RawEvent>) {
    forall e :: e in s ==> FitsInteger(e.amountCents)
  }

  predicate DistinctIds(s: seq<RawEvent>) {
    forall i, j :: 0 <= i < j < |s| ==> s[i].id != s[j].id
  }

  function IdsOf(s: seq<RawEvent>): set<EventId> {
    set e | e in s :: e.id
  }
}
