/** The nightly job's rewrite of one day of rollup_day from rollup_hour. */
module Compaction {
  import opened Calendar
  import opened Events
  import opened RollupAlgebra
  import opened Grouping
  import opened Database
  import opened RollupRepositories

  predicate IsDayStart(start: Instant) {
    Floor(Day, start) == start
  }

  /** WHERE bucket >= :start AND bucket < :end, for the day starting at `start`. */
  predicate OnDate(bucket: Instant, start: Instant) {
    start <= bucket < start + Width(Day)
  }

  lemma OnDateIff(bucket: Instant, start: Instant)
    requires IsDayStart(start)
    ensures OnDate(bucket, start) <==> Floor(Day, bucket) == start
  {
    FloorBounds(Day, bucket);
    if OnDate(bucket, start) {
      FloorUnique(Day, bucket, BucketNumber(Day, start));
    }
  }

  /** The hour rows that GROUP BY merchant_id, date_trunc('day', bucket), event_type collects under the day key k. */
  function HourRowsUnder(hours: Table, k: Key): set<Key> {
    RowsWhere(hours, (j: Key) => CoarserKey(Day, j) == k)
  }

  /** Day keys of the groups of one date. */
  function Groups(hours: Table, start: Instant): set<Key> {
    set j | j in hours && OnDate(j.bucket, start) :: CoarserKey(Day, j)
  }

  /** SUM(count), SUM(amount_sum_cents), MIN(amount_min_cents), MAX(amount_max_cents) of one group. */
  ghost function GroupRow(hours: Table, k: Key): Row {
    var total := Total(hours, HourRowsUnder(hours, k));
    if total.Some? then total.value else Row(0, 0, 0, 0)
  }

  /** rollup_day after the INSERT ... SELECT ... ON CONFLICT DO UPDATE SET count = EXCLUDED.count, ... */
  ghost function Compacted(hours: Table, days: Table, start: Instant): Table {
    days + map k | k in Groups(hours, start) :: GroupRow(hours, k)
  }

  lemma TotalOfRows(t: Table, ks: set<Key>)
    requires ks != {} && ks <= t.Keys
    ensures Total(t, ks).Some?
  {
  }

  lemma GroupHasRows(hours: Table, start: Instant, k: Key)
    requires IsDayStart(start)
    ensures k in Groups(hours, start) <==> k.bucket == start && HourRowsUnder(hours, k) != {}
    ensures k in Groups(hours, start) ==> Total(hours, HourRowsUnder(hours, k)) == Some(GroupRow(hours, k))
  {
    forall j: Key
      ensures OnDate(j.bucket, start) <==> CoarserKey(Day, j).bucket == start
    {
      OnDateIff(j.bucket, start);
    }
    if k.bucket == start && HourRowsUnder(hours, k) != {} {
      var j :| j in HourRowsUnder(hours, k);
      assert j in hours && OnDate(j.bucket, start) && CoarserKey(Day, j) == k;
    }
    if k in Groups(hours, start) {
      var j :| j in hours && OnDate(j.bucket, start) && CoarserKey(Day, j) == k;
      assert j in HourRowsUnder(hours, k);
      TotalOfRows(hours, HourRowsUnder(hours, k));
    }
  }

  /** From any rollup_day: every key of the date with hour rows becomes exactly their aggregate, nothing else moves. */
  lemma CompactionIsExact(hours: Table, days: Table, start: Instant, k: Key)
    requires IsDayStart(start)
    ensures Cell(Compacted(hours, days, start), k)
         == if k.bucket == start && HourRowsUnder(hours, k) != {} then Total(hours, HourRowsUnder(hours, k))
            else Cell(days, k)
  {
    GroupHasRows(hours, start, k);
  }

  /** Running the job again changes nothing. */
  lemma CompactionIsIdempotent(hours: Table, days: Table, start: Instant)
    requires IsDayStart(start)
    ensures Compacted(hours, Compacted(hours, days, start), start) == Compacted(hours, days, start)
  {
  }

  // ----- The discrepancy report -----

  /** COALESCE(h.hour_count, 0) of the date for a merchant and event type. */
  ghost function HourCount(hours: Table, start: Instant, merchantId: MerchantId, eventType: EventType): int {
    CountIn(Total(hours, RowsWhere(hours, (j: Key) =>
                    OnDate(j.bucket, start) && j.merchantId == merchantId && j.eventType == eventType)))
  }

  ghost function Delta(hours: Table, days: Table, start: Instant, k: Key): int
    requires k in days
  {
    var d := days[k].count - HourCount(hours, start, k.merchantId, k.eventType);
    if d < 0 then -d else d
  }

  /** Day rows of the date whose count disagrees with their hour rows (before LIMIT 10). */
  ghost function Discrepancies(hours: Table, days: Table, start: Instant): set<Key> {
    set k | k in days && k.bucket == start && Delta(hours, days, start, k) > 0
  }

  lemma HourCountOfGroup(hours: Table, start: Instant, k: Key)
    requires IsDayStart(start) && k.bucket == start
    ensures HourCount(hours, start, k.merchantId, k.eventType) == CountIn(Total(hours, HourRowsUnder(hours, k)))
  {
    var onDate := RowsWhere(hours, (j: Key) =>
                    OnDate(j.bucket, start) && j.merchantId == k.merchantId && j.eventType == k.eventType);
    forall j
      ensures j in onDate <==> j in HourRowsUnder(hours, k)
    {
      OnDateIff(j.bucket, start);
    }
    assert onDate == HourRowsUnder(hours, k);
  }

  /** After the rewrite the report lists exactly the nonzero day rows of the date that have no hour rows. */
  lemma DiscrepanciesAfterCompaction(hours: Table, days: Table, start: Instant, k: Key)
    requires IsDayStart(start)
    ensures k in Discrepancies(hours, Compacted(hours, days, start), start)
       <==> k in days && k.bucket == start && days[k].count != 0 && HourRowsUnder(hours, k) == {}
  {
    GroupHasRows(hours, start, k);
    if k.bucket == start {
      HourCountOfGroup(hours, start, k);
    }
  }

  /** On tables the pipeline maintains, the job changes no value and reports nothing. */
  lemma CompactionOfAggregates(s: seq<RawEvent>, hours: Table, days: Table, start: Instant)
    requires IsDayStart(start) && hours == TableOf(Hour, s) && days == TableOf(Day, s)
    ensures Compacted(hours, days, start) == days
    ensures Discrepancies(hours, days, start) == {}
  {
    forall k
      ensures Cell(days, k) == Total(hours, HourRowsUnder(hours, k))
    {
      CoarseRowsAggregateFiner(Hour, Day, s, k);
    }
    forall k
      ensures Cell(Compacted(hours, days, start), k) == Cell(days, k)
    {
      CompactionIsExact(hours, days, start, k);
    }
    SameCells(Compacted(hours, days, start), days);
    forall k
      ensures k !in Discrepancies(hours, days, start)
    {
      DiscrepanciesAfterCompaction(hours, days, start, k);
    }
  }

  // ----- The job -----

  /** Hour rows of the date. */
  function DateRows(hours: Table, start: Instant): set<Key> {
    set j | j in hours && OnDate(j.bucket, start)
  }

  /** INSERT ... SELECT ... GROUP BY ... ON CONFLICT DO UPDATE: overwrite the day rows of the date's groups. */
  method CompactDayRollup(session: Session, start: Instant)
    requires IsDayStart(start)
    modifies session
    ensures session.db == old(session.db).(rollups := WithTable(old(session.db).rollups, Day,
              Compacted(old(session.db).rollups.hour, old(session.db).rollups.day, start)))
  {
    var hours := session.db.rollups.hour;
    var groups := GroupBy(hours, DateRows(hours, start), (j: Key) => CoarserKey(Day, j));
    GroupsOfDate(hours, groups, start);
    session.db := session.db.(rollups := WithTable(session.db.rollups, Day, session.db.rollups.day + groups));
  }

  lemma GroupsOfDate(hours: Table, groups: Table, start: Instant)
    requires IsDayStart(start)
    requires IsGrouping(hours, DateRows(hours, start), (j: Key) => CoarserKey(Day, j), groups)
    ensures groups == map k | k in Groups(hours, start) :: GroupRow(hours, k)
  {
    var day := (j: Key) => CoarserKey(Day, j);
    forall k
      ensures k in groups <==> k in Groups(hours, start)
      ensures k in groups ==> groups[k] == GroupRow(hours, k)
    {
      var members := Members(DateRows(hours, start), day, k);
      forall j
        ensures j in members <==> k.bucket == start && j in HourRowsUnder(hours, k)
      {
        OnDateIff(j.bucket, start);
      }
      assert members == if k.bucket == start then HourRowsUnder(hours, k) else {};
      GroupHasRows(hours, start, k);
    }
  }
}
