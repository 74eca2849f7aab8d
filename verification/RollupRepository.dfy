/** Upserts into the rollup tables and the consumer offsets. */
module RollupRepositories {
  import opened Calendar
  import opened Events
  import opened RollupAlgebra
  import opened Database
  import opened Aggregation

  function WithTable(r: Rollups, g: Granularity, t: Table): (s: Rollups)
    ensures s.At(g) == t && forall h :: h != g ==> s.At(h) == r.At(h)
  {
    match g
    case Minute => r.(minute := t)
    case Hour => r.(hour := t)
    case Day => r.(day := t)
  }

  /** The three tables after aggregating further events into them. */
  function AddEvents(r: Rollups, s: seq<RawEvent>): Rollups {
    Rollups(Merge(r.minute, TableOf(Minute, s)), Merge(r.hour, TableOf(Hour, s)), Merge(r.day, TableOf(Day, s)))
  }

  lemma AddEventsAt(r: Rollups, s: seq<RawEvent>, g: Granularity)
    ensures AddEvents(r, s).At(g) == Merge(r.At(g), TableOf(g, s))
  {
  }

  lemma AddNoEvents(r: Rollups)
    ensures AddEvents(r, []) == r
  {
  }

  /** The additive upserts alone are not replay-safe: adding any events again changes the tables. */
  lemma AddingTwiceIff(r: Rollups, s: seq<RawEvent>)
    ensures AddEvents(AddEvents(r, s), s) == AddEvents(r, s) <==> s == []
  {
    if s == [] {
      AddNoEvents(r);
    } else {
      var k := KeyOf(Day, s[|s| - 1]);
      TableInBounds(Day, s);
      assert k in TableOf(Day, s);
      assert AddEvents(AddEvents(r, s), s).day[k].count == AddEvents(r, s).day[k].count + TableOf(Day, s)[k].count;
    }
  }

  lemma OneEventUpsert(t: Table, g: Granularity, e: RawEvent)
    ensures Upsert(t, KeyOf(g, e), Unit(e.amountCents)) == Merge(t, TableOf(g, [e]))
  {
  }

  class RollupRepository {
    const session: Session

    constructor (session: Session)
      ensures this.session == session
    {
      this.session := session;
    }

    /** Single-row path: INSERT (count_delta, amount, amount, amount) ON CONFLICT DO UPDATE. */
    method UpsertRollup(g: Granularity, merchantId: MerchantId, bucket: Instant, eventType: EventType,
                        countDelta: int, amountCents: int)
      modifies session
      ensures session.committed == old(session.committed)
      ensures session.db == old(session.db).(rollups := WithTable(old(session.db).rollups, g,
                Upsert(old(session.db).rollups.At(g), Key(merchantId, bucket, eventType),
                       Row(countDelta, amountCents, amountCents, amountCents))))
    {
      var k := Key(merchantId, bucket, eventType);
      var table := session.db.rollups.At(g);
      var row := if k in table
                 then Row(table[k].count + countDelta, table[k].sum + amountCents,
                          Min(table[k].min, amountCents), Max(table[k].max, amountCents))
                 else Row(countDelta, amountCents, amountCents, amountCents);
      session.db := session.db.(rollups := WithTable(session.db.rollups, g, table[k := row]));
    }

    /** One event into all three tables, as backfill callers do it. */
    method UpsertAllGranularities(e: RawEvent)
      modifies session
      ensures session.committed == old(session.committed)
      ensures session.db == old(session.db).(rollups := AddEvents(old(session.db).rollups, [e]))
    {
      var ts := BucketTs(e);
      UpsertRollup(Minute, e.merchantId, ToInstant(MinuteBucket(ts)), e.eventType, 1, e.amountCents);
      UpsertRollup(Hour, e.merchantId, ToInstant(HourBucket(ts)), e.eventType, 1, e.amountCents);
      UpsertRollup(Day, e.merchantId, ToInstant(DayBucket(ts)), e.eventType, 1, e.amountCents);
      OneEventUpsert(old(session.db).rollups.minute, Minute, e);
      OneEventUpsert(old(session.db).rollups.hour, Hour, e);
      OneEventUpsert(old(session.db).rollups.day, Day, e);
    }

    /** Multi-row path: one statement for all accumulated deltas of one granularity. */
    method BatchUpsert(g: Granularity, agg: AggMap)
      requires agg.Valid()
      modifies session
      ensures session.committed == old(session.committed)
      ensures session.db == old(session.db).(rollups :=
                WithTable(old(session.db).rollups, g, Merge(old(session.db).rollups.At(g), old(agg.Contents))))
    {
      if agg.cells == map[] {
        MergeEmpty(session.db.rollups.At(g));
        assert agg.Contents == map[];
        return;
      }
      var values := map k | k in agg.cells ::
          Row(agg.cells[k].count, agg.cells[k].amountSum, agg.cells[k].amountMin, agg.cells[k].amountMax);
      assert values == agg.Contents;
      session.db := session.db.(rollups := WithTable(session.db.rollups, g, Merge(session.db.rollups.At(g), values)));
    }

    /** The stored offset names the cursor that the consumer's next batch starts from. */
    method GetConsumerOffset(consumerId: ConsumerId) returns (offset: Option<Offset>)
      ensures offset.Some? <==> consumerId in session.db.offsets
      ensures offset.Some? ==> offset.value == session.db.offsets[consumerId]
      ensures CursorOf(session.db, consumerId) == if offset.Some? then Some(offset.value.lastEventId) else None
    {
      offset := if consumerId in session.db.offsets then Some(session.db.offsets[consumerId]) else None;
    }

    method UpsertConsumerOffset(consumerId: ConsumerId, lastEventId: EventId, lastEventAt: DateTime)
      modifies session
      ensures session.committed == old(session.committed)
      ensures session.db == old(session.db).(offsets :=
                old(session.db).offsets[consumerId := Offset(lastEventId, lastEventAt)])
    {
      session.db := session.db.(offsets := session.db.offsets[consumerId := Offset(lastEventId, lastEventAt)]);
    }
  }

  /** Replaying a list of events through the single-row path. */
  method BackfillEvents(repo: RollupRepository, events: seq<RawEvent>)
    modifies repo.session
    ensures repo.session.db == old(repo.session.db).(rollups := AddEvents(old(repo.session.db).rollups, events))
  {
    ghost var start := repo.session.db;
    AddNoEvents(start.rollups);
    for i := 0 to |events|
      invariant repo.session.db == start.(rollups := AddEvents(start.rollups, events[..i]))
    {
      repo.UpsertAllGranularities(events[i]);
      AddNext(start.rollups, events, i);
    }
    assert events[..|events|] == events;
  }

  /** Adding the next event to the aggregate of a prefix gives the aggregate of the longer prefix. */
  lemma AddNext(r: Rollups, events: seq<RawEvent>, i: nat)
    requires i < |events|
    ensures AddEvents(AddEvents(r, events[..i]), [events[i]]) == AddEvents(r, events[..i + 1])
  {
    assert events[..i + 1] == events[..i] + [events[i]];
    MergeOneMore(r.minute, Minute, events[..i], events[i], events[..i + 1]);
    MergeOneMore(r.hour, Hour, events[..i], events[i], events[..i + 1]);
    MergeOneMore(r.day, Day, events[..i], events[i], events[..i + 1]);
  }

  lemma MergeOneMore(t: Table, g: Granularity, s: seq<RawEvent>, e: RawEvent, longer: seq<RawEvent>)
    requires longer == s + [e]
    ensures Merge(Merge(t, TableOf(g, s)), TableOf(g, [e])) == Merge(t, TableOf(g, longer))
  {
    TableOfConcat(g, s, [e]);
    MergeAssociates(t, TableOf(g, s), TableOf(g, [e]));
  }
}
