/** What every run of the pipeline guarantees about the rollup tables and the answers of the ingest endpoints. */
module ExactlyOnce {
  import opened Calendar
  import opened Events
  import opened RollupAlgebra
  import opened Database
  import opened EventRepositories
  import opened Ingestion
  import opened RollupWorkers
  import opened Ledger
  import opened Pipeline
  import opened NoLoss

  // ----- Accepted keys -----

  /** Idempotency keys a step's request answers successfully. */
  ghost function AcceptedBy(s: State, step: Step): set<string> {
    match step
    case IngestOne(event, id, now, createdAt) =>
      if Single(s.db, event, id, now, createdAt).1.Ok? then {event.idempotencyKey} else {}
    case IngestMany(events, ids, now, createdAt) =>
      if Batch(s.db, events, ids, now, createdAt).1.Ok? then KeysOf(events) else {}
    case _ => {}
  }

  ghost function AcceptedKeys(s: State, steps: seq<Step>): set<string>
    requires CanRun(s, steps)
    decreases |steps|
  {
    if steps == [] then {}
    else AcceptedKeys(s, steps[..|steps| - 1]) + AcceptedBy(Run(s, steps[..|steps| - 1]), steps[|steps| - 1])
  }

  lemma SingleClaimsKey(db: Db, event: EventIngest, id: EventId, now: DateTime, createdAt: Instant)
    requires OneToOne(db) && FreshId(db, id)
    ensures var (after, r) := Single(db, event, id, now, createdAt);
            after.idempotency.Keys == db.idempotency.Keys + if r.Ok? then {event.idempotencyKey} else {}
  {
  }

  lemma BatchClaimsKeys(db: Db, events: seq<EventIngest>, ids: string -> EventId, now: DateTime, createdAt: Instant)
    ensures var (after, r) := Batch(db, events, ids, now, createdAt);
            after.idempotency.Keys == db.idempotency.Keys + if r.Ok? then KeysOf(events) else {}
  {
  }

  lemma OthersClaimNothing(s: State, step: Step)
    requires Enabled(s, step) && !IsIngest(step)
    ensures Apply(s, step).db.idempotency == s.db.idempotency
  {
  }

  lemma StepClaimsKeys(s: State, step: Step)
    requires Inv(s) && Enabled(s, step)
    ensures Apply(s, step).db.idempotency.Keys == s.db.idempotency.Keys + AcceptedBy(s, step)
  {
    match step
    case IngestOne(event, id, now, createdAt) => SingleClaimsKey(s.db, event, id, now, createdAt);
    case IngestMany(events, ids, now, createdAt) => BatchClaimsKeys(s.db, events, ids, now, createdAt);
    case _ => OthersClaimNothing(s, step);
  }

  /** event_idempotency holds exactly the keys accepted so far, and raw_events one row for each. */
  lemma {:induction false} OneRowPerAcceptedKey(s: State, steps: seq<Step>)
    requires Inv(s) && s.db.idempotency == map[] && CanRun(s, steps)
    ensures ByKey(Run(s, steps).db.rawEvents).Keys == AcceptedKeys(s, steps)
    ensures DistinctKeys(Run(s, steps).db.rawEvents)
    decreases |steps|
  {
    RunKeepsInv(s, steps);
    if steps != [] {
      var init := steps[..|steps| - 1];
      OneRowPerAcceptedKey(s, init);
      RunKeepsInv(s, init);
      StepClaimsKeys(Run(s, init), steps[|steps| - 1]);
    }
  }

  /** Once accepted, a key keeps its row: no later step changes its id, time or content. */
  lemma {:induction false} FirstAcceptanceStands(s: State, steps: seq<Step>, key: string)
    requires Inv(s) && CanRun(s, steps) && key in ByKey(s.db.rawEvents)
    ensures key in ByKey(Run(s, steps).db.rawEvents)
    ensures FirstAccepted(Run(s, steps).db, key) == FirstAccepted(s.db, key)
    decreases |steps|
  {
    if steps != [] {
      var init, last := steps[..|steps| - 1], steps[|steps| - 1];
      FirstAcceptanceStands(s, init, key);
      RunKeepsInv(s, init);
      StepKeepsRow(Run(s, init), last, key);
    }
  }

  lemma StepKeepsRow(s: State, step: Step, key: string)
    requires Inv(s) && Enabled(s, step) && key in ByKey(s.db.rawEvents)
    ensures key in ByKey(Apply(s, step).db.rawEvents)
    ensures FirstAccepted(Apply(s, step).db, key) == FirstAccepted(s.db, key)
  {
    if IsIngest(step) {
      RequestAppends(s, step);
      ByKeyRow(s.db.rawEvents, key);
      var row := FirstAccepted(s.db, key);
      assert row in Apply(s, step).db.rawEvents;
      ByKeyFindsRow(Apply(s, step).db.rawEvents, row);
    }
  }

  /** A retry at any later point of any run gets the first acceptance's id and time, and changes nothing. */
  lemma RetryGetsFirstAnswer(s: State, steps: seq<Step>, ev: EventIngest, id: EventId, now: DateTime,
                             createdAt: Instant)
    requires Inv(s) && CanRun(s, steps)
    requires ev.idempotencyKey in ByKey(s.db.rawEvents) && ev.merchantId in Run(s, steps).db.merchants
    requires FreshId(Run(s, steps).db, id)
    ensures var row := FirstAccepted(s.db, ev.idempotencyKey);
            Single(Run(s, steps).db, ev, id, now, createdAt)
            == (Run(s, steps).db, Ok(Response(row.id, row.idempotencyKey, row.occurredAt, true)))
  {
    RunKeepsInv(s, steps);
    FirstAcceptanceStands(s, steps, ev.idempotencyKey);
    SingleOutcome(Run(s, steps).db, ev, id, now, createdAt);
  }

  /** So does a retry inside an accepted batch, at its position among the answers. */
  lemma RetryInBatchGetsFirstAnswer(s: State, steps: seq<Step>, events: seq<EventIngest>, ids: string -> EventId,
                                    now: DateTime, createdAt: Instant, i: nat)
    requires Inv(s) && CanRun(s, steps) && i < |events| && events[i].idempotencyKey in ByKey(s.db.rawEvents)
    requires FreshIds(Run(s, steps).db, events, ids)
    ensures var row := FirstAccepted(s.db, events[i].idempotencyKey);
            var r := Batch(Run(s, steps).db, events, ids, now, createdAt).1;
            r.Ok? ==> && |r.value.events| == |events|
                      && r.value.events[i] == Response(row.id, row.idempotencyKey, row.occurredAt, true)
  {
    RunKeepsInv(s, steps);
    FirstAcceptanceStands(s, steps, events[i].idempotencyKey);
    BatchAnswersAt(Run(s, steps).db, events, ids, now, createdAt, i);
  }

  // ----- The tables of every reachable state -----

  /** Every row of every reachable table is bounded: count >= 1 and count*min <= sum <= count*max. */
  lemma RowsInBounds(s: State, g: Granularity, k: Key)
    requires Inv(s) && k in s.db.rollups.At(g)
    ensures RowInBounds(s.db.rollups.At(g)[k])
  {
    TableInBounds(g, LedgerOf(s));
  }

  const BIGINT_MIN := -0x8000_0000_0000_0000
  const BIGINT_MAX := 0x7fff_ffff_ffff_ffff

  /** The BIGINT sum of INTEGER amounts cannot overflow in a row that counts at most 2^32 events. */
  lemma SumsFitBigint(s: State, g: Granularity, k: Key)
    requires Inv(s) && k in s.db.rollups.At(g)
    requires s.db.rollups.At(g)[k].count <= 0x1_0000_0000
    ensures BIGINT_MIN <= s.db.rollups.At(g)[k].sum <= BIGINT_MAX
  {
    var row := s.db.rollups.At(g)[k];
    RowsInBounds(s, g, k);
    forall e | e in LedgerOf(s)
      ensures INTEGER_MIN <= e.amountCents <= INTEGER_MAX
    {
      LedgerEventsAreLogged(s.consumers, s.db.rawEvents, s.db.markers, e);
    }
    AmountsWithin(g, LedgerOf(s), INTEGER_MIN, INTEGER_MAX, k);
    SumWithin(row);
  }

  lemma {:induction false} AmountsWithin(g: Granularity, events: seq<RawEvent>, lo: int, hi: int, k: Key)
    requires k in TableOf(g, events) && forall e :: e in events ==> lo <= e.amountCents <= hi
    ensures lo <= TableOf(g, events)[k].min && TableOf(g, events)[k].max <= hi
  {
    var init, last := events[..|events| - 1], events[|events| - 1];
    assert last in events;
    if k in TableOf(g, init) {
      AmountsWithin(g, init, lo, hi, k);
    }
  }

  lemma SumWithin(row: Row)
    requires RowInBounds(row) && row.count <= 0x1_0000_0000 && INTEGER_MIN <= row.min && row.max <= INTEGER_MAX
    ensures BIGINT_MIN <= row.sum <= BIGINT_MAX
  {
    ProductBound(row.count, row.min, INTEGER_MIN, 0x1_0000_0000);
    ProductBound(row.count, -row.max, -INTEGER_MAX, 0x1_0000_0000);
    assert row.count * -row.max == -(row.count * row.max);
  }

  lemma ProductBound(count: int, amount: int, least: int, most: int)
    requires 0 <= count <= most && least <= amount && least <= 0
    ensures count * amount >= most * least
  {
    assert count * amount >= count * least;
    assert most * least == count * least + (most - count) * least;
    assert (most - count) * least <= 0;
  }

  /** Every hour row of a reachable state aggregates its minute rows, every day row its hour rows, with no orphans. */
  lemma GranularitiesAgree(s: State, fine: Granularity, coarse: Granularity, k: Key)
    requires Inv(s) && (fine, coarse) in {(Minute, Hour), (Hour, Day)}
    ensures Cell(s.db.rollups.At(coarse), k)
         == Total(s.db.rollups.At(fine), RowsWhere(s.db.rollups.At(fine), (j: Key) => CoarserKey(coarse, j) == k))
  {
    CoarseRowsAggregateFiner(fine, coarse, LedgerOf(s), k);
  }

  // ----- Drained states -----

  /** With every consumer drained, counts and sums are the raw ones times the number of consumers, min and max exact. */
  lemma DrainedTables(s: State, g: Granularity, k: Key)
    requires Inv(s) && NothingLost(s)
    requires forall c :: c in s.consumers ==> Drained(s.db, c)
    ensures Cell(s.db.rollups.At(g), k)
         == ScaleCell(|s.consumers|, AggOf(s.db.rawEvents, e => KeyOf(g, e) == k))
  {
    forall c | c in s.consumers
      ensures AllMarked(s.db.rawEvents, s.db.markers, c)
    {
      DrainedIsAllMarked(s.db, c);
    }
    LedgerOfDrainedConsumers(g, s.consumers, s.db.rawEvents, s.db.markers, k);
    CellReadsEvents(g, s.db.rawEvents, k);
  }

  /** With every consumer drained, a cell counts its events once each exactly for one consumer id, or no event. */
  lemma CountedOnceIff(s: State, g: Granularity, k: Key)
    requires Inv(s) && NothingLost(s)
    requires forall c :: c in s.consumers ==> Drained(s.db, c)
    ensures var events := AggOf(s.db.rawEvents, e => KeyOf(g, e) == k);
            Cell(s.db.rollups.At(g), k) == events <==> |s.consumers| == 1 || events.None?
  {
    DrainedTables(s, g, k);
    CellReadsEvents(g, s.db.rawEvents, k);
    TableInBounds(g, s.db.rawEvents);
    ScaledIsSameIff(|s.consumers|, Cell(TableOf(g, s.db.rawEvents), k));
  }

  lemma ScaledIsSameIff(n: nat, c: Option<Row>)
    requires c.Some? ==> c.value.count >= 1
    ensures ScaleCell(n, c) == c <==> n == 1 || c.None?
  {
    if c.Some? && n > 1 {
      assert n * c.value.count == c.value.count + (n - 1) * c.value.count;
      assert (n - 1) * c.value.count >= 1;
    }
  }

  /** A drained single consumer has credited the log itself, and its markers are exactly those of the log. */
  lemma DrainedLedger(s: State, c: ConsumerId)
    requires Inv(s) && NothingLostFor(s, c) && s.consumers == [c] && Drained(s.db, c)
    ensures LedgerOf(s) == s.db.rawEvents
    ensures s.db.markers == MarkersFor(c, s.db.rawEvents)
    ensures forall g :: s.db.rollups.At(g) == TableOf(g, s.db.rawEvents)
  {
    DrainedIsAllMarked(s.db, c);
    LedgerOfOne(c, s.db.rawEvents, s.db.markers);
    CreditedWhenAllMarked(s.db.rawEvents, s.db.markers, c);
    MarkersAreOfTheLog(s, c);
  }

  lemma MarkersAreOfTheLog(s: State, c: ConsumerId)
    requires References(s) && s.consumers == [c] && AllMarked(s.db.rawEvents, s.db.markers, c)
    ensures s.db.markers == MarkersFor(c, s.db.rawEvents)
  {
    forall m | m in s.db.markers
      ensures m in MarkersFor(c, s.db.rawEvents)
    {
      var e :| e in s.db.rawEvents && e.id == m.eventId;
      assert m == Marker(c, e.id);
    }
  }

  /** End to end: every interleaving of submissions, retries, fetches, commits, crashes, replays and compactions of one
      consumer id whose steps are harmless leaves on draining the count, sum, min and max over the accepted idempotency
      keys, each counted once. */
  lemma ExactlyOncePerAcceptedKey(merchants: set<MerchantId>, c: ConsumerId, workers: seq<Worker>, steps: seq<Step>,
                                  g: Granularity, k: Key)
    requires WellDeployed([c], workers)
    requires CanRun(Start(merchants, [c], workers), steps) && HarmlessRun(Start(merchants, [c], workers), steps, c)
    requires Drained(Run(Start(merchants, [c], workers), steps).db, c)
    ensures var start := Start(merchants, [c], workers);
            var db := Run(start, steps).db;
            && Cell(db.rollups.At(g), k) == AggOf(db.rawEvents, e => KeyOf(g, e) == k)
            && DistinctKeys(db.rawEvents) && ByKey(db.rawEvents).Keys == AcceptedKeys(start, steps)
            && db.markers == MarkersFor(c, db.rawEvents)
  {
    var start := Start(merchants, [c], workers);
    StartInv(merchants, [c], workers);
    ConsumersStay(start, steps);
    RunKeepsInv(start, steps);
    HarmlessRunLosesNothing(start, steps, c);
    DrainedLedger(Run(start, steps), c);
    CellReadsEvents(g, Run(start, steps).db.rawEvents, k);
    OneRowPerAcceptedKey(start, steps);
  }

  /** In particular runs in which rows become visible in created_at order and no fetch cuts off an unmarked row. */
  lemma InOrderRunsCountOnce(merchants: set<MerchantId>, c: ConsumerId, workers: seq<Worker>, steps: seq<Step>,
                             g: Granularity, k: Key)
    requires WellDeployed([c], workers)
    requires CanRun(Start(merchants, [c], workers), steps) && InOrderRun(Start(merchants, [c], workers), steps)
    requires Drained(Run(Start(merchants, [c], workers), steps).db, c)
    ensures var db := Run(Start(merchants, [c], workers), steps).db;
            Cell(db.rollups.At(g), k) == AggOf(db.rawEvents, e => KeyOf(g, e) == k)
  {
    StartInv(merchants, [c], workers);
    InOrderRunIsHarmless(Start(merchants, [c], workers), steps, c);
    ExactlyOncePerAcceptedKey(merchants, c, workers, steps, g, k);
  }

  // ----- What a loss does to the tables -----

  lemma {:induction false} CreditedAgg(log: seq<RawEvent>, markers: set<Marker>, c: ConsumerId, p: RawEvent -> bool)
    requires forall e :: e in log && p(e) ==> Marker(c, e.id) in markers
    ensures AggOf(Credited(log, markers, c), p) == AggOf(log, p)
  {
    if log != [] {
      var init, last := log[..|log| - 1], log[|log| - 1];
      assert log == init + [last] && last in log;
      CreditedAgg(init, markers, c, p);
      var credited := Credited(log, markers, c);
      if Marker(c, last.id) in markers {
        assert credited[..|credited| - 1] == Credited(init, markers, c);
      }
    }
  }

  lemma {:induction false} CreditedFewer(log: seq<RawEvent>, markers: set<Marker>, c: ConsumerId, p: RawEvent -> bool)
    ensures CountWhere(Credited(log, markers, c), p) <= CountWhere(log, p)
    ensures (exists e :: e in log && p(e) && Marker(c, e.id) !in markers) ==>
              CountWhere(Credited(log, markers, c), p) < CountWhere(log, p)
  {
    if log != [] {
      var init, last := log[..|log| - 1], log[|log| - 1];
      assert log == init + [last];
      CreditedFewer(init, markers, c, p);
      var credited := Credited(log, markers, c);
      if Marker(c, last.id) in markers {
        assert credited[..|credited| - 1] == Credited(init, markers, c);
      }
    }
  }

  /** Whatever the run was: once its consumer is drained with no batch in flight, a cell is exact if and only if none of
      its events was lost. */
  lemma CellIsExactIff(s: State, c: ConsumerId, g: Granularity, k: Key)
    requires Inv(s) && s.consumers == [c] && Drained(s.db, c) && NoBatchInFlight(s, c)
    ensures Cell(s.db.rollups.At(g), k) == AggOf(s.db.rawEvents, e => KeyOf(g, e) == k)
       <==> forall e :: e in s.db.rawEvents && KeyOf(g, e) == k ==> !Skipped(s, c, e)
  {
    var log, here := s.db.rawEvents, (e: RawEvent) => KeyOf(g, e) == k;
    var credited := Credited(log, s.db.markers, c);
    LedgerOfOne(c, log, s.db.markers);
    CellReadsEvents(g, credited, k);
    AggOfSamePredicate(credited, e => KeyOf(g, e) == k, here);
    AggOfSamePredicate(log, e => KeyOf(g, e) == k, here);
    forall e | e in log
      ensures Marker(c, e.id) !in s.db.markers <==> Skipped(s, c, e)
    {
      UnmarkedIsSkipped(s, c, e);
    }
    if forall e :: e in log && here(e) ==> Marker(c, e.id) in s.db.markers {
      CreditedAgg(log, s.db.markers, c, here);
    } else {
      CreditedFewer(log, s.db.markers, c, here);
      AggOfCounts(log, here);
      AggOfCounts(credited, here);
    }
  }

  lemma StepKeepsConsumers(s: State, step: Step)
    requires Enabled(s, step)
    ensures Apply(s, step).consumers == s.consumers
  {
  }

  lemma {:induction false} ConsumersStay(s: State, steps: seq<Step>)
    requires CanRun(s, steps)
    ensures Run(s, steps).consumers == s.consumers
    decreases |steps|
  {
    if steps != [] {
      ConsumersStay(s, steps[..|steps| - 1]);
      StepKeepsConsumers(Run(s, steps[..|steps| - 1]), steps[|steps| - 1]);
    }
  }

  // ----- Confluence -----

  /** A run from empty tables that is harmless for every consumer and ends with every consumer drained. */
  ghost predicate DrainedRun(start: State, steps: seq<Step>) {
    && WellDeployed(start.consumers, start.workers)
    && start == Start(start.db.merchants, start.consumers, start.workers)
    && CanRun(start, steps)
    && forall c :: c in start.consumers ==> HarmlessRun(start, steps, c) && Drained(Run(start, steps).db, c)
  }

  lemma DrainedRunMarksAll(start: State, steps: seq<Step>)
    requires DrainedRun(start, steps)
    ensures Inv(Run(start, steps)) && Run(start, steps).consumers == start.consumers
    ensures forall c :: c in start.consumers ==>
              AllMarked(Run(start, steps).db.rawEvents, Run(start, steps).db.markers, c)
  {
    StartInv(start.db.merchants, start.consumers, start.workers);
    ConsumersStay(start, steps);
    RunKeepsInv(start, steps);
    forall c | c in start.consumers
      ensures AllMarked(Run(start, steps).db.rawEvents, Run(start, steps).db.markers, c)
    {
      HarmlessRunLosesNothing(start, steps, c);
      DrainedIsAllMarked(Run(start, steps).db, c);
    }
  }

  /** Any two drained runs of the same consumers over the same events end with the same tables and markers, whatever
      their batch sizes, crashes, offset resets and interleavings of workers, and whoever their workers were. */
  lemma Confluence(start: State, steps: seq<Step>, other: State, others: seq<Step>)
    requires DrainedRun(start, steps) && DrainedRun(other, others) && start.consumers == other.consumers
    requires multiset(Run(start, steps).db.rawEvents) == multiset(Run(other, others).db.rawEvents)
    ensures Run(start, steps).db.rollups == Run(other, others).db.rollups
    ensures Run(start, steps).db.markers == Run(other, others).db.markers
  {
    DrainedRunMarksAll(start, steps);
    DrainedRunMarksAll(other, others);
    MarkedStatesAgree(Run(start, steps), Run(other, others));
  }

  lemma MarkedStatesAgree(s: State, t: State)
    requires Inv(s) && Inv(t) && s.consumers == t.consumers
    requires forall c :: c in s.consumers ==> AllMarked(s.db.rawEvents, s.db.markers, c)
    requires forall c :: c in t.consumers ==> AllMarked(t.db.rawEvents, t.db.markers, c)
    requires multiset(s.db.rawEvents) == multiset(t.db.rawEvents)
    ensures s.db.rollups == t.db.rollups && s.db.markers == t.db.markers
  {
    forall g
      ensures s.db.rollups.At(g) == t.db.rollups.At(g)
    {
      SameTables(s, t, g);
    }
    assert s.db.rollups.At(Minute) == t.db.rollups.At(Minute);
    assert s.db.rollups.At(Hour) == t.db.rollups.At(Hour);
    assert s.db.rollups.At(Day) == t.db.rollups.At(Day);
    SameMembers(s.db.rawEvents, t.db.rawEvents);
    MarkersCarryOver(s, t);
    MarkersCarryOver(t, s);
  }

  lemma SameTables(s: State, t: State, g: Granularity)
    requires Inv(s) && Inv(t) && s.consumers == t.consumers
    requires forall c :: c in s.consumers ==> AllMarked(s.db.rawEvents, s.db.markers, c)
    requires forall c :: c in t.consumers ==> AllMarked(t.db.rawEvents, t.db.markers, c)
    requires multiset(s.db.rawEvents) == multiset(t.db.rawEvents)
    ensures s.db.rollups.At(g) == t.db.rollups.At(g)
  {
    TableOfPermutation(g, s.db.rawEvents, t.db.rawEvents);
    forall k
      ensures Cell(s.db.rollups.At(g), k) == Cell(t.db.rollups.At(g), k)
    {
      LedgerOfDrainedConsumers(g, s.consumers, s.db.rawEvents, s.db.markers, k);
      LedgerOfDrainedConsumers(g, t.consumers, t.db.rawEvents, t.db.markers, k);
    }
    SameCells(s.db.rollups.At(g), t.db.rollups.At(g));
  }

  lemma SameMembers(log: seq<RawEvent>, other: seq<RawEvent>)
    requires multiset(log) == multiset(other)
    ensures forall e :: e in log <==> e in other
  {
    forall e
      ensures e in log <==> e in other
    {
      assert e in log <==> e in multiset(log);
      assert e in other <==> e in multiset(other);
    }
  }

  lemma MarkersCarryOver(s: State, t: State)
    requires References(s) && s.consumers == t.consumers
    requires forall e :: e in s.db.rawEvents ==> e in t.db.rawEvents
    requires forall c :: c in t.consumers ==> AllMarked(t.db.rawEvents, t.db.markers, c)
    ensures s.db.markers <= t.db.markers
  {
    forall m | m in s.db.markers
      ensures m in t.db.markers
    {
      var e :| e in s.db.rawEvents && e.id == m.eventId;
      assert m == Marker(m.consumerId, e.id);
    }
  }

  /** A drained consumer's tables and markers are those of one clean pass over the whole log. */
  lemma OneCleanPass(s: State, c: ConsumerId)
    requires Inv(s) && NothingLostFor(s, c) && s.consumers == [c] && Drained(s.db, c) && s.db.rawEvents != []
    ensures var untouched := s.db.(markers := {}, offsets := map[], rollups := Rollups(map[], map[], map[]));
            var pass := Committed(untouched, c, s.db.rawEvents);
            pass.rollups == s.db.rollups && pass.markers == s.db.markers
  {
    DrainedLedger(s, c);
    AllAreNew(c, s.db.rawEvents);
    var log := s.db.rawEvents;
    MergeEmpty(TableOf(Minute, log));
    MergeEmpty(TableOf(Hour, log));
    MergeEmpty(TableOf(Day, log));
    assert s.db.rollups.At(Minute) == TableOf(Minute, log);
    assert s.db.rollups.At(Hour) == TableOf(Hour, log);
    assert s.db.rollups.At(Day) == TableOf(Day, log);
  }

  lemma {:induction false} AllAreNew(c: ConsumerId, events: seq<RawEvent>)
    ensures NewEvents({}, c, events) == events
  {
    if events != [] {
      AllAreNew(c, events[..|events| - 1]);
      assert events == events[..|events| - 1] + [events[|events| - 1]];
    }
  }

  /** Replaying after an offset reset changes no rollup row: a commit of marked events only moves the cursor. */
  lemma ReplayChangesNothing(s: State, w: nat)
    requires Inv(s) && Enabled(s, CommitBatch(w))
    requires AllMarked(s.workers[w].phase.events, s.db.markers, s.workers[w].consumerId)
    ensures var t := Apply(s, CommitBatch(w));
            t.db.rollups == s.db.rollups && t.db.markers == s.db.markers && t.workers[w].phase == Publishing([])
  {
    var c, events := s.workers[w].consumerId, s.workers[w].phase.events;
    NoneAreNew(s.db.markers, c, events);
    RollupRepositories.AddNoEvents(s.db.rollups);
    assert MarkersFor(c, events) <= s.db.markers;
  }
}
