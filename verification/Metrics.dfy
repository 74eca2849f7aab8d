/** Merchant metrics on a cache miss: granularity by range, grouped rollup rows, totals, and what they count. */
module Metrics {
  import opened Calendar
  import opened Events
  import opened FiniteSets
  import opened RollupAlgebra
  import opened Grouping
  import opened Database
  import opened Pipeline

  datatype DataPoint = DataPoint(bucket: Instant, volumeCents: int, count: int)

  datatype MetricsResponse = MetricsResponse(
    granularity: Granularity,
    totalVolumeCents: int,
    totalCount: int,
    successRate: Option<real>,
    data: seq<DataPoint>)

  /** At most 3 hours reads minutes, at most 720 hours reads hours, anything longer reads days. */
  function SelectGranularity(start: Instant, end: Instant): Granularity {
    if end - start <= 3 * HOUR then Minute
    else if end - start <= 720 * HOUR then Hour
    else Day
  }

  /** GROUP BY bucket, or by the bucket truncated to the granularity. */
  function GroupBucket(g: Granularity, bucket: Instant): Instant {
    if g == Minute then bucket else Floor(g, bucket)
  }

  /** A group is the whole minute, hour or day, read as a multiple of its length; minutes are taken as they are. */
  lemma GroupIsWholeBucket(g: Granularity, bucket: Instant)
    ensures g == Minute ==> GroupBucket(g, bucket) == bucket
    ensures g == Hour ==> GroupBucket(g, bucket) % HOUR == 0 && 0 <= bucket - GroupBucket(g, bucket) < HOUR
    ensures g == Day ==> GroupBucket(g, bucket) % DAY == 0 && 0 <= bucket - GroupBucket(g, bucket) < DAY
  {
  }

  /** WHERE merchant_id = :merchant_id AND bucket BETWEEN :start AND :end */
  predicate Asked(merchantId: MerchantId, start: Instant, end: Instant, k: Key) {
    k.merchantId == merchantId && start <= k.bucket <= end
  }

  function RowsAsked(t: Table, merchantId: MerchantId, start: Instant, end: Instant): set<Key> {
    RowsWhere(t, (k: Key) => Asked(merchantId, start, end, k))
  }

  function RowsOfBucket(g: Granularity, rows: set<Key>, b: Instant): set<Key> {
    Members(rows, (k: Key) => GroupBucket(g, k.bucket), b)
  }

  /** One data point per group of rows, in strictly increasing bucket order. */
  ghost predicate Answers(t: Table, g: Granularity, rows: set<Key>, points: seq<DataPoint>) {
    && (forall i, j :: 0 <= i < j < |points| ==> points[i].bucket < points[j].bucket)
    && (forall k :: k in rows ==> exists i :: 0 <= i < |points| && points[i].bucket == GroupBucket(g, k.bucket))
    && (forall p :: p in points ==> Describes(t, g, rows, p))
  }

  /** The data point is the sum over a group that has rows. */
  ghost predicate Describes(t: Table, g: Granularity, rows: set<Key>, p: DataPoint) {
    var total := Total(t, RowsOfBucket(g, rows, p.bucket));
    RowsOfBucket(g, rows, p.bucket) != {} && p.count == CountIn(total) && p.volumeCents == SumIn(total)
  }

  lemma {:induction false} Smallest(s: set<Instant>) returns (least: Instant)
    requires s != {}
    ensures least in s && forall x :: x in s ==> least <= x
    decreases |s|
  {
    var some := Member(s);
    if s == {some} {
      least := some;
    } else {
      var rest := Smallest(s - {some});
      least := if rest < some then rest else some;
      assert forall x :: x in s ==> x == some || x in s - {some};
    }
  }

  /** ORDER BY */
  method InIncreasingOrder(s: set<Instant>) returns (order: seq<Instant>)
    ensures forall i, j :: 0 <= i < j < |order| ==> order[i] < order[j]
    ensures forall b :: b in order <==> b in s
  {
    order := [];
    var todo := s;
    while todo != {}
      invariant todo <= s
      invariant forall i, j :: 0 <= i < j < |order| ==> order[i] < order[j]
      invariant forall i, b :: 0 <= i < |order| && b in todo ==> order[i] < b
      invariant forall b :: b in order <==> b in s - todo
    {
      ghost var least := Smallest(todo);
      var b :| b in todo && forall c :: c in todo ==> b <= c;
      order := order + [b];
      todo := todo - {b};
    }
  }

  /** query_minute, query_hour and query_day. */
  method QueryRange(t: Table, g: Granularity, merchantId: MerchantId, start: Instant,
                    end: Instant) returns (points: seq<DataPoint>)
    ensures Answers(t, g, RowsAsked(t, merchantId, start, end), points)
  {
    var rows := RowsAsked(t, merchantId, start, end);
    var groups := GroupBy(t, rows, (k: Key) => GroupBucket(g, k.bucket));
    var order := InIncreasingOrder(groups.Keys);
    points := [];
    for i := 0 to |order|
      invariant |points| == i
      invariant forall j :: 0 <= j < i ==> points[j].bucket == order[j] && Describes(t, g, rows, points[j])
    {
      var b := order[i];
      assert b in groups;
      points := points + [DataPoint(b, groups[b].sum, groups[b].count)];
    }
    forall k | k in rows
      ensures exists i :: 0 <= i < |points| && points[i].bucket == GroupBucket(g, k.bucket)
    {
      var b := GroupBucket(g, k.bucket);
      assert k in RowsOfBucket(g, rows, b);
      assert b in groups;
      var i :| 0 <= i < |order| && order[i] == b;
      assert points[i].bucket == b;
    }
  }

  function VolumeOf(points: seq<DataPoint>): int {
    if points == [] then 0 else VolumeOf(points[..|points| - 1]) + points[|points| - 1].volumeCents
  }

  function CountOf(points: seq<DataPoint>): int {
    if points == [] then 0 else CountOf(points[..|points| - 1]) + points[|points| - 1].count
  }

  // ----- Success rate -----

  /** Confirmed over confirmed and failed, before rounding; None when there are neither. */
  function RateOf(confirmed: int, failed: int): Option<real> {
    if confirmed + failed > 0 then Some(confirmed as real / (confirmed + failed) as real) else None
  }

  function RowsOfType(rows: set<Key>, eventType: EventType): set<Key> {
    Members(rows, (k: Key) => k.eventType, eventType)
  }

  /** SUM(CASE WHEN event_type = ... THEN count ELSE 0 END) */
  ghost function CountOfType(t: Table, rows: set<Key>, eventType: EventType): int {
    CountIn(Total(t, RowsOfType(rows, eventType)))
  }

  /** rate is confirmed over confirmed and failed, and absent when there are neither. */
  predicate IsRate(rate: Option<real>, confirmed: int, failed: int) {
    && (rate.Some? <==> confirmed + failed > 0)
    && (rate.Some? ==> rate.value * (confirmed + failed) as real == confirmed as real)
  }

  lemma RateIsConfirmedShare(confirmed: int, failed: int)
    ensures IsRate(RateOf(confirmed, failed), confirmed, failed)
  {
  }

  /** query_success_rate always reads rollup_hour, whatever the granularity of the data points. */
  method QuerySuccessRate(hours: Table, merchantId: MerchantId, start: Instant, end: Instant)
    returns (rate: Option<real>)
    ensures var rows := RowsAsked(hours, merchantId, start, end);
            IsRate(rate, CountOfType(hours, rows, PaymentConfirmed), CountOfType(hours, rows, PaymentFailed))
  {
    var groups := GroupBy(hours, RowsAsked(hours, merchantId, start, end), (k: Key) => k.eventType);
    var confirmed := if PaymentConfirmed in groups then groups[PaymentConfirmed].count else 0;
    var failed := if PaymentFailed in groups then groups[PaymentFailed].count else 0;
    rate := RateOf(confirmed, failed);
    RateIsConfirmedShare(confirmed, failed);
  }

  method GetMerchantMetrics(rollups: Rollups, merchantId: MerchantId, start: Instant, end: Instant)
    returns (r: MetricsResponse)
    ensures r.granularity == Minute <==> end - start <= 3 * HOUR
    ensures r.granularity == Hour <==> 3 * HOUR < end - start <= 720 * HOUR
    ensures r.granularity == Day <==> end - start > 720 * HOUR
    ensures var t := rollups.At(r.granularity);
            Answers(t, r.granularity, RowsAsked(t, merchantId, start, end), r.data)
    ensures r.totalVolumeCents == VolumeOf(r.data) && r.totalCount == CountOf(r.data)
    ensures var rows := RowsAsked(rollups.hour, merchantId, start, end);
            IsRate(r.successRate, CountOfType(rollups.hour, rows, PaymentConfirmed),
                   CountOfType(rollups.hour, rows, PaymentFailed))
  {
    var g := SelectGranularity(start, end);
    var data := QueryRange(rollups.At(g), g, merchantId, start, end);
    var volume, count := 0, 0;
    for i := 0 to |data|
      invariant volume == VolumeOf(data[..i]) && count == CountOf(data[..i])
    {
      assert data[..i + 1][..i] == data[..i];
      volume, count := volume + data[i].volumeCents, count + data[i].count;
    }
    assert data[..|data|] == data;
    var rate := QuerySuccessRate(rollups.hour, merchantId, start, end);
    r := MetricsResponse(g, volume, count, rate, data);
  }

  // ----- What the totals mean -----

  /** Dropping the last data point drops exactly its group. */
  lemma AnswersWithoutLast(t: Table, g: Granularity, rows: set<Key>, points: seq<DataPoint>)
    requires points != [] && Answers(t, g, rows, points)
    ensures var last := points[|points| - 1];
            Answers(t, g, rows - RowsOfBucket(g, rows, last.bucket), points[..|points| - 1])
  {
    var init, last := points[..|points| - 1], points[|points| - 1];
    var rest := rows - RowsOfBucket(g, rows, last.bucket);
    forall p | p in init
      ensures Describes(t, g, rest, p)
    {
      assert p in points && p.bucket < last.bucket;
      assert RowsOfBucket(g, rest, p.bucket) == RowsOfBucket(g, rows, p.bucket);
    }
    forall k | k in rest
      ensures exists i :: 0 <= i < |init| && init[i].bucket == GroupBucket(g, k.bucket)
    {
      var i :| 0 <= i < |points| && points[i].bucket == GroupBucket(g, k.bucket);
      assert i < |init| && init[i] == points[i];
    }
  }

  lemma SumsOfMerge(a: Option<Row>, b: Option<Row>)
    ensures CountIn(MergeCell(a, b)) == CountIn(a) + CountIn(b)
    ensures SumIn(MergeCell(a, b)) == SumIn(a) + SumIn(b)
  {
  }

  lemma TotalsSplit(t: Table, rows: set<Key>, group: set<Key>)
    requires group <= rows
    ensures CountIn(Total(t, rows)) == CountIn(Total(t, rows - group)) + CountIn(Total(t, group))
    ensures SumIn(Total(t, rows)) == SumIn(Total(t, rows - group)) + SumIn(Total(t, group))
  {
    TotalUnion(t, rows - group, group);
    assert (rows - group) + group == rows;
    SumsOfMerge(Total(t, rows - group), Total(t, group));
  }

  lemma NoPointsNoRows(t: Table, g: Granularity, rows: set<Key>)
    requires Answers(t, g, rows, [])
    ensures rows == {}
  {
  }

  /** The totals are the sums over all the rows asked for: grouping and ordering lose and repeat nothing. */
  lemma {:induction false} TotalsOfAnswer(t: Table, g: Granularity, rows: set<Key>, points: seq<DataPoint>)
    requires Answers(t, g, rows, points)
    ensures CountOf(points) == CountIn(Total(t, rows)) && VolumeOf(points) == SumIn(Total(t, rows))
    decreases |points|
  {
    if points == [] {
      NoPointsNoRows(t, g, rows);
    } else {
      var last := points[|points| - 1];
      var group := RowsOfBucket(g, rows, last.bucket);
      AnswersWithoutLast(t, g, rows, points);
      TotalsOfAnswer(t, g, rows - group, points[..|points| - 1]);
      assert last in points && Describes(t, g, rows, last);
      TotalsSplit(t, rows, group);
    }
  }

  /** Whether a metrics query counts the event: its merchant, and its bucket within the asked range. */
  predicate Counted(g: Granularity, merchantId: MerchantId, start: Instant, end: Instant, e: RawEvent) {
    e.merchantId == merchantId && Ceil(g, start) <= EventInstant(e) < Floor(g, end) + Width(g)
  }

  /** In every reachable state the totals are the count and sum over exactly the ledger's events of the merchant whose
      instant lies from the first bucket start at or after `start` to the end of `end`'s bucket. */
  lemma MetricsReadTheLedger(s: State, merchantId: MerchantId, start: Instant, end: Instant, points: seq<DataPoint>)
    requires Inv(s)
    requires var g := SelectGranularity(start, end);
             Answers(s.db.rollups.At(g), g, RowsAsked(s.db.rollups.At(g), merchantId, start, end), points)
    ensures var g := SelectGranularity(start, end);
            && CountOf(points) == CountWhere(LedgerOf(s), e => Counted(g, merchantId, start, end, e))
            && VolumeOf(points) == SumWhere(LedgerOf(s), e => Counted(g, merchantId, start, end, e))
  {
    var g, ledger := SelectGranularity(start, end), LedgerOf(s);
    var t := s.db.rollups.At(g);
    var asked := (k: Key) => Asked(merchantId, start, end, k);
    TotalsOfAnswer(t, g, RowsAsked(t, merchantId, start, end), points);
    RowsReadEvents(g, ledger, asked);
    AggOfCounts(ledger, e => asked(KeyOf(g, e)));
    forall e
      ensures asked(KeyOf(g, e)) <==> Counted(g, merchantId, start, end, e)
    {
      KeyOfFloor(g, e);
      BetweenOnBuckets(g, start, end, EventInstant(e));
    }
    AggOfSamePredicate(ledger, e => asked(KeyOf(g, e)), e => Counted(g, merchantId, start, end, e));
  }

  /** How many events of the merchant and type the ledger has from the first hour at or after `start` to the end of
      `end`'s hour. */
  function LedgerCount(s: State, merchantId: MerchantId, start: Instant, end: Instant, eventType: EventType): nat {
    CountWhere(LedgerOf(s), e => Counted(Hour, merchantId, start, end, e) && e.eventType == eventType)
  }

  /** In every reachable state the counts by event type read the ledger by whole hours. */
  lemma CountsReadTheLedger(s: State, merchantId: MerchantId, start: Instant, end: Instant, eventType: EventType)
    requires Inv(s)
    ensures CountOfType(s.db.rollups.At(Hour), RowsAsked(s.db.rollups.At(Hour), merchantId, start, end), eventType)
         == LedgerCount(s, merchantId, start, end, eventType)
  {
    var hours, ledger := s.db.rollups.At(Hour), LedgerOf(s);
    var sel := (k: Key) => Asked(merchantId, start, end, k) && k.eventType == eventType;
    assert RowsOfType(RowsAsked(hours, merchantId, start, end), eventType) == RowsWhere(hours, sel);
    RowsReadEvents(Hour, ledger, sel);
    AggOfCounts(ledger, e => sel(KeyOf(Hour, e)));
    forall e
      ensures sel(KeyOf(Hour, e)) <==> Counted(Hour, merchantId, start, end, e) && e.eventType == eventType
    {
      KeyOfFloor(Hour, e);
      BetweenOnBuckets(Hour, start, end, EventInstant(e));
    }
    AggOfSamePredicate(ledger, e => sel(KeyOf(Hour, e)),
                       e => Counted(Hour, merchantId, start, end, e) && e.eventType == eventType);
  }

  /** In every reachable state the success rate is the confirmed share of the ledger's confirmed and failed events from
      the first hour at or after `start` to the end of `end`'s hour, whatever granularity the totals use. */
  lemma SuccessRateReadsTheLedger(s: State, merchantId: MerchantId, start: Instant, end: Instant, rate: Option<real>)
    requires Inv(s)
    requires var hours := s.db.rollups.At(Hour);
             var rows := RowsAsked(hours, merchantId, start, end);
             IsRate(rate, CountOfType(hours, rows, PaymentConfirmed), CountOfType(hours, rows, PaymentFailed))
    ensures IsRate(rate, LedgerCount(s, merchantId, start, end, PaymentConfirmed),
                   LedgerCount(s, merchantId, start, end, PaymentFailed))
  {
    CountsReadTheLedger(s, merchantId, start, end, PaymentConfirmed);
    CountsReadTheLedger(s, merchantId, start, end, PaymentFailed);
  }

  /** A confirmed share of counts lies between 0 and 1. */
  lemma ShareIsProper(rate: Option<real>, confirmed: nat, failed: nat)
    requires IsRate(rate, confirmed, failed)
    ensures rate.Some? ==> 0.0 <= rate.value <= 1.0
  {
    if rate.Some? {
      assert rate.value == confirmed as real / (confirmed + failed) as real;
    }
  }

  /** The event is the merchant's and falls into the bucket. */
  predicate InBucket(g: Granularity, merchantId: MerchantId, bucket: Instant, e: RawEvent) {
    && e.merchantId == merchantId
    && Floor(g, ToInstant(if e.clientTimestamp.Some? then e.clientTimestamp.value else e.occurredAt)) == bucket
  }

  /** The exact window that the request asks for. */
  predicate InWindow(merchantId: MerchantId, start: Instant, end: Instant, e: RawEvent) {
    e.merchantId == merchantId && start <= EventInstant(e) <= end
  }

  /** Events of `end`'s bucket that come after `end`. */
  predicate Overshoots(g: Granularity, merchantId: MerchantId, start: Instant, end: Instant, e: RawEvent) {
    var t := EventInstant(e);
    e.merchantId == merchantId && end < t && Floor(g, t) == Floor(g, end) && Ceil(g, start) <= t
  }

  /** Events of the window that fall into a first bucket which begins before `start`. */
  predicate Omitted(g: Granularity, merchantId: MerchantId, start: Instant, end: Instant, e: RawEvent) {
    InWindow(merchantId, start, end, e) && Floor(g, EventInstant(e)) == Floor(g, start) != start
  }

  lemma EdgeInstants(g: Granularity, start: Instant, end: Instant, t: Instant)
    requires start <= end
    ensures var inAnswer, inWindow := Ceil(g, start) <= t < Floor(g, end) + Width(g), start <= t <= end;
            && (inAnswer && !inWindow <==> end < t && Floor(g, t) == Floor(g, end) && Ceil(g, start) <= t)
            && (inWindow && !inAnswer <==> inWindow && Floor(g, t) == Floor(g, start) != start)
  {
    FloorBounds(g, t);
    FloorBounds(g, start);
    FloorBounds(g, end);
    if Floor(g, start) < Floor(g, t) {
      BucketStartsApart(g, start, t);
    } else if Floor(g, t) < Floor(g, start) {
      BucketStartsApart(g, t, start);
    }
    if Floor(g, end) < Floor(g, t) {
      BucketStartsApart(g, end, t);
    } else if Floor(g, t) < Floor(g, end) {
      BucketStartsApart(g, t, end);
    }
  }

  /** The answer's totals are those of the exact window, plus the events after `end` in `end`'s bucket, less those of a
      first bucket that begins before `start`. */
  lemma DiffersOnlyAtTheEdges(s: State, merchantId: MerchantId, start: Instant, end: Instant, points: seq<DataPoint>)
    requires Inv(s) && start <= end
    requires var g := SelectGranularity(start, end);
             Answers(s.db.rollups.At(g), g, RowsAsked(s.db.rollups.At(g), merchantId, start, end), points)
    ensures var g, ledger := SelectGranularity(start, end), LedgerOf(s);
            && CountOf(points) == CountWhere(ledger, e => InWindow(merchantId, start, end, e))
                                  + CountWhere(ledger, e => Overshoots(g, merchantId, start, end, e))
                                  - CountWhere(ledger, e => Omitted(g, merchantId, start, end, e))
            && VolumeOf(points) == SumWhere(ledger, e => InWindow(merchantId, start, end, e))
                                   + SumWhere(ledger, e => Overshoots(g, merchantId, start, end, e))
                                   - SumWhere(ledger, e => Omitted(g, merchantId, start, end, e))
  {
    var g, ledger := SelectGranularity(start, end), LedgerOf(s);
    MetricsReadTheLedger(s, merchantId, start, end, points);
    var counted := (e: RawEvent) => Counted(g, merchantId, start, end, e);
    var window := (e: RawEvent) => InWindow(merchantId, start, end, e);
    var over := (e: RawEvent) => Overshoots(g, merchantId, start, end, e);
    var omitted := (e: RawEvent) => Omitted(g, merchantId, start, end, e);
    forall e
      ensures counted(e) && !window(e) <==> over(e)
      ensures window(e) && !counted(e) <==> omitted(e)
    {
      EdgeInstants(g, start, end, EventInstant(e));
    }
    CountsBalance(ledger, counted, window, over, omitted);
    AggOfSamePredicate(ledger, counted, e => Counted(g, merchantId, start, end, e));
    AggOfSamePredicate(ledger, window, e => InWindow(merchantId, start, end, e));
    AggOfSamePredicate(ledger, over, e => Overshoots(g, merchantId, start, end, e));
    AggOfSamePredicate(ledger, omitted, e => Omitted(g, merchantId, start, end, e));
  }

  lemma {:induction false} CountsBalance(events: seq<RawEvent>, p: RawEvent -> bool, q: RawEvent -> bool,
                                         pNotQ: RawEvent -> bool, qNotP: RawEvent -> bool)
    requires forall e :: pNotQ(e) <==> p(e) && !q(e)
    requires forall e :: qNotP(e) <==> q(e) && !p(e)
    ensures CountWhere(events, p) == CountWhere(events, q) + CountWhere(events, pNotQ) - CountWhere(events, qNotP)
    ensures SumWhere(events, p) == SumWhere(events, q) + SumWhere(events, pNotQ) - SumWhere(events, qNotP)
  {
    if events != [] {
      CountsBalance(events[..|events| - 1], p, q, pNotQ, qNotP);
    }
  }

  // ----- How long an answer can get -----

  /** In an aggregated table every bucket is already truncated, so GROUP BY date_trunc(bucket) is GROUP BY bucket. */
  lemma {:induction false} BucketsAreTruncated(g: Granularity, events: seq<RawEvent>, k: Key)
    requires k in TableOf(g, events)
    ensures Floor(g, k.bucket) == k.bucket
  {
    var init, last := events[..|events| - 1], events[|events| - 1];
    if k == KeyOf(g, last) {
      KeyOfFloor(g, last);
      FloorIdempotent(g, EventInstant(last));
    } else {
      BucketsAreTruncated(g, init, k);
    }
  }

  lemma {:induction false} PointsAreSpaced(g: Granularity, points: seq<DataPoint>, i: nat)
    requires i < |points|
    requires forall j :: 0 <= j < |points| ==> Floor(g, points[j].bucket) == points[j].bucket
    requires forall j, k :: 0 <= j < k < |points| ==> points[j].bucket < points[k].bucket
    ensures points[0].bucket + i * Width(g) <= points[i].bucket
  {
    if i > 0 {
      PointsAreSpaced(g, points, i - 1);
      BucketStartsApart(g, points[i - 1].bucket, points[i].bucket);
      assert i * Width(g) == (i - 1) * Width(g) + Width(g);
    }
  }

  lemma PointInRange(s: State, g: Granularity, merchantId: MerchantId, start: Instant, end: Instant, p: DataPoint)
    requires Inv(s) && Describes(s.db.rollups.At(g), g, RowsAsked(s.db.rollups.At(g), merchantId, start, end), p)
    ensures start <= p.bucket <= end && Floor(g, p.bucket) == p.bucket
  {
    var t := s.db.rollups.At(g);
    var k :| k in RowsOfBucket(g, RowsAsked(t, merchantId, start, end), p.bucket);
    BucketsAreTruncated(g, LedgerOf(s), k);
  }

  lemma {:induction false} CountedWhenSome(events: seq<RawEvent>, p: RawEvent -> bool)
    requires AggOf(events, p).Some?
    ensures CountWhere(events, p) > 0
  {
    if !p(events[|events| - 1]) {
      CountedWhenSome(events[..|events| - 1], p);
    }
  }

  /** In every reachable state a data point counts exactly the ledger's events of the merchant in its bucket. */
  lemma PointReadsTheLedger(s: State, g: Granularity, merchantId: MerchantId, start: Instant, end: Instant,
                            p: DataPoint)
    requires Inv(s) && Describes(s.db.rollups.At(g), g, RowsAsked(s.db.rollups.At(g), merchantId, start, end), p)
    ensures start <= p.bucket <= end && Floor(g, p.bucket) == p.bucket
    ensures p.count == CountWhere(LedgerOf(s), e => InBucket(g, merchantId, p.bucket, e)) > 0
    ensures p.volumeCents == SumWhere(LedgerOf(s), e => InBucket(g, merchantId, p.bucket, e))
  {
    var t, ledger := s.db.rollups.At(g), LedgerOf(s);
    var sel := (k: Key) => k.merchantId == merchantId && k.bucket == p.bucket;
    PointInRange(s, g, merchantId, start, end, p);
    forall k | k in t
      ensures Floor(g, k.bucket) == k.bucket
    {
      BucketsAreTruncated(g, ledger, k);
    }
    assert RowsOfBucket(g, RowsAsked(t, merchantId, start, end), p.bucket) == RowsWhere(t, sel);
    RowsReadEvents(g, ledger, sel);
    AggOfCounts(ledger, e => sel(KeyOf(g, e)));
    forall e
      ensures sel(KeyOf(g, e)) <==> InBucket(g, merchantId, p.bucket, e)
    {
      BucketedByClientTime(g, e);
    }
    AggOfSamePredicate(ledger, e => sel(KeyOf(g, e)), e => InBucket(g, merchantId, p.bucket, e));
    var k :| k in RowsWhere(t, sel);
    TotalPick(t, RowsWhere(t, sel), k);
    CountedWhenSome(ledger, e => sel(KeyOf(g, e)));
  }

  /** Over a range that the endpoint admits, the granularity it picks keeps the answer short. */
  lemma AnswerIsShort(s: State, merchantId: MerchantId, start: Instant, end: Instant, points: seq<DataPoint>)
    requires Inv(s) && start < end && (end - start) / DAY <= 365
    requires var g := SelectGranularity(start, end);
             Answers(s.db.rollups.At(g), g, RowsAsked(s.db.rollups.At(g), merchantId, start, end), points)
    ensures |points| <= match SelectGranularity(start, end) case Minute => 181 case Hour => 721 case Day => 366
  {
    var g := SelectGranularity(start, end);
    if points != [] {
      forall i | 0 <= i < |points|
        ensures start <= points[i].bucket <= end && Floor(g, points[i].bucket) == points[i].bucket
      {
        assert points[i] in points;
        PointInRange(s, g, merchantId, start, end, points[i]);
      }
      PointsAreSpaced(g, points, |points| - 1);
      assert (|points| - 1) * Width(g) <= end - start;
    }
  }

  // ----- Why that granularity -----

  /** How many bucket widths a range may span before the next granularity is taken: 180 minutes, 720 hours. */
  function WidthsAllowed(g: Granularity): Option<int> {
    match g
    case Minute => Some(180)
    case Hour => Some(720)
    case Day => None
  }

  predicate Finer(g: Granularity, h: Granularity) {
    Width(g) < Width(h)
  }

  /** Bucket starts from `start` to `end`: the most data points the range can have. */
  function BucketStarts(g: Granularity, start: Instant, end: Instant): int {
    BucketNumber(g, end) - BucketNumber(g, Ceil(g, start)) + 1
  }

  /** The granularity is the finest one of which the range spans no more widths than allowed; any finer one could need
      that many data points, the chosen one at most one more. */
  lemma GranularityIsFinestAllowed(start: Instant, end: Instant, h: Granularity)
    requires start <= end
    ensures var g := SelectGranularity(start, end);
            && (WidthsAllowed(g).Some? ==> && end - start <= WidthsAllowed(g).value * Width(g)
                                           && BucketStarts(g, start, end) <= WidthsAllowed(g).value + 1)
            && (Finer(h, g) ==> && WidthsAllowed(h).Some? && end - start > WidthsAllowed(h).value * Width(h)
                                && BucketStarts(h, start, end) >= WidthsAllowed(h).value)
  {
  }
}
