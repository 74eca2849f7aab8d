/** Runs in which a view shows more, or less, than the events: two consumer ids, the first day of the next month, and a
    rebuild that LIMIT truncates. */
module Overcounts {
  import opened Calendar
  import opened Events
  import opened RollupAlgebra
  import opened Database
  import opened EventRepositories
  import opened RollupWorkers
  import opened Ranking
  import opened Ledger
  import opened Leaderboard
  import opened Pipeline
  import opened NoLoss
  import opened BoardAccounts
  import opened LeaderboardQueries
  import opened SampleRuns

  const MAY := Period(2026, 5)
  const IN_MAY: DateTime := Fields(2026, 5, 20, 12, 0, 0, 0)
  const ON_JUNE_1: DateTime := Fields(2026, 6, 1, 12, 0, 0, 0)

  function Payment(merchantId: MerchantId, amountCents: nat, key: string): EventIngest {
    EventIngest(PaymentConfirmed, merchantId, amountCents, key, None)
  }

  // ----- Two consumer ids -----

  function TwoConsumers(): State {
    Start({7}, ["first", "second"], [Worker("first", Idle), Worker("second", Idle)])
  }

  /** One payment, and one batch of each consumer. */
  function BothProcess(x: EventIngest): seq<Step> {
    var e := RowFor(x, 1, IN_MAY, 10);
    [IngestOne(x, 1, IN_MAY, 10)] + BatchOf(0, 1, [e]) + BatchOf(1, 1, [e])
  }

  /** Both consumers have marked the one row, and are drained. */
  predicate BothDone(end: State, e: RawEvent) {
    && end.db.rawEvents == [e] && end.consumers == TwoConsumers().consumers
    && forall c :: c in end.consumers ==> AllMarked([e], end.db.markers, c) && Drained(end.db, c)
  }

  lemma BothProcessed(s: State, x: EventIngest)
    requires s == TwoConsumers() && x.merchantId == 7 && FitsInteger(x.amountCents)
    ensures CanRun(s, BothProcess(x)) && BothDone(Run(s, BothProcess(x)), RowFor(x, 1, IN_MAY, 10))
    ensures Inv(Run(s, BothProcess(x)))
  {
    StartInv({7}, ["first", "second"], s.workers);
    RunOnePayment(s, x, 1, IN_MAY, 10);
    BothTake(s, [IngestOne(x, 1, IN_MAY, 10)], RowFor(x, 1, IN_MAY, 10));
    RunKeepsInv(s, BothProcess(x));
  }

  lemma CountedTwice(end: State, e: RawEvent, g: Granularity)
    requires Inv(end) && BothDone(end, e)
    ensures Cell(end.db.rollups.At(g), KeyOf(g, e)) == Some(Row(2, 2 * e.amountCents, e.amountCents, e.amountCents))
  {
    LedgerOfDrainedConsumers(g, end.consumers, [e], end.db.markers, KeyOf(g, e));
    TableOfOne(g, e);
  }

  /** Whatever the event, both consumers end drained, and it is counted twice in each of its cells. */
  lemma TwoConsumersCountTwice(x: EventIngest, g: Granularity)
    requires x.merchantId == 7 && FitsInteger(x.amountCents)
    ensures CanRun(TwoConsumers(), BothProcess(x))
    ensures var e, end := RowFor(x, 1, IN_MAY, 10), Run(TwoConsumers(), BothProcess(x));
            && BothDone(end, e)
            && Cell(end.db.rollups.At(g), KeyOf(g, e)) == Some(Row(2, 2 * x.amountCents, x.amountCents, x.amountCents))
  {
    BothProcessed(TwoConsumers(), x);
    CountedTwice(Run(TwoConsumers(), BothProcess(x)), RowFor(x, 1, IN_MAY, 10), g);
  }

  lemma RunOnePayment(s: State, event: EventIngest, id: EventId, now: DateTime, createdAt: Instant)
    requires Inv(s) && s.db.rawEvents == [] && s.db.idempotency == map[] && event.merchantId in s.db.merchants
    requires id != NIL_ID && FitsInteger(event.amountCents)
    ensures CanRun(s, [IngestOne(event, id, now, createdAt)])
    ensures var t := Run(s, [IngestOne(event, id, now, createdAt)]);
            && t == s.(db := t.db) && t.db.rawEvents == [RowFor(event, id, now, createdAt)]
            && t.db == s.db.(idempotency := t.db.idempotency, rawEvents := t.db.rawEvents)
            && t.db.idempotency == map[event.idempotencyKey := id]
  {
    RunNothing(s);
    RunRequest(s, [], event, id, now, createdAt);
    assert [] + [IngestOne(event, id, now, createdAt)] == [IngestOne(event, id, now, createdAt)];
  }

  /** A consumer without an offset takes the only row. */
  lemma OneTakes(s: State, steps: seq<Step>, w: nat, c: ConsumerId, e: RawEvent)
    requires CanRun(s, steps)
    requires var t := Run(s, steps);
             && w < |t.workers| && t.workers[w] == Worker(c, Idle)
             && t.db.rawEvents == [e] && c !in t.db.offsets
    ensures CanRun(s, steps + BatchOf(w, 1, [e]))
    ensures var t, end := Run(s, steps), Run(s, steps + BatchOf(w, 1, [e]));
            end.db == Committed(t.db, c, [e]) && end.workers == t.workers && end.consumers == t.consumers
  {
    assert IsWindow([e], None, 1, [e]);
    RunBatch(s, steps, w, 1, [e]);
  }

  lemma BothTake(s: State, steps: seq<Step>, e: RawEvent)
    requires CanRun(s, steps)
    requires var t := Run(s, steps);
             && t.db.rawEvents == [e] && t.db.markers == {} && t.db.offsets == map[]
             && t.workers == TwoConsumers().workers && t.consumers == TwoConsumers().consumers
    ensures CanRun(s, steps + BatchOf(0, 1, [e]) + BatchOf(1, 1, [e]))
    ensures BothDone(Run(s, steps + BatchOf(0, 1, [e]) + BatchOf(1, 1, [e])), e)
  {
    var before, mid := Run(s, steps).db, steps + BatchOf(0, 1, [e]);
    OneTakes(s, steps, 0, "first", e);
    CommitOfOnly(before, "first", e);
    OneTakes(s, mid, 1, "second", e);
    BothAreDone(Run(s, mid + BatchOf(1, 1, [e])), before, e);
  }

  lemma BothAreDone(end: State, before: Db, e: RawEvent)
    requires before.rawEvents == [e] && before.offsets == map[] && end.consumers == TwoConsumers().consumers
    requires end.db == Committed(Committed(before, "first", [e]), "second", [e])
    ensures BothDone(end, e)
  {
    BothCommitted(before, e);
  }

  lemma BothCommitted(db: Db, e: RawEvent)
    requires db.rawEvents == [e] && db.offsets == map[]
    ensures var after := Committed(Committed(db, "first", [e]), "second", [e]);
            && after.rawEvents == [e]
            && AllMarked([e], after.markers, "first") && Drained(after, "first")
            && AllMarked([e], after.markers, "second") && Drained(after, "second")
  {
    var mid := Committed(db, "first", [e]);
    CommitOfOnly(db, "first", e);
    CommitOfOnly(mid, "second", e);
    CursorAtOnly(Committed(mid, "second", [e]), "first", e);
    CursorAtOnly(Committed(mid, "second", [e]), "second", e);
  }

  lemma CommitOfOnly(db: Db, c: ConsumerId, e: RawEvent)
    requires db.rawEvents == [e]
    ensures var after := Committed(db, c, [e]);
            && after.markers == db.markers + {Marker(c, e.id)}
            && after.offsets == db.offsets[c := Offset(e.id, e.occurredAt)]
  {
    assert MarkersFor(c, [e]) == {Marker(c, e.id)};
  }

  lemma CursorAtOnly(db: Db, c: ConsumerId, e: RawEvent)
    requires db.rawEvents == [e] && c in db.offsets && db.offsets[c].lastEventId == e.id
    ensures Drained(db, c)
  {
    FindByIdFindsRow(db.rawEvents, e);
  }

  // ----- One consumer that has credited the whole log -----

  function OneConsumer(): State {
    Start({7, 8}, ["rollup"], [Worker("rollup", Idle)])
  }

  /** One batch takes the whole log, and rollup_day is its aggregate. */
  lemma TakeAll(s: State, steps: seq<Step>, log: seq<RawEvent>)
    requires Inv(s) && CanRun(s, steps) && log != [] && IsWindow(log, None, |log|, log)
    requires var t := Run(s, steps);
             && t.db.rawEvents == log && t.db.offsets == map[]
             && t.workers == OneConsumer().workers && t.consumers == ["rollup"]
    ensures CanRun(s, steps + BatchOf(0, |log|, log))
    ensures Run(s, steps + BatchOf(0, |log|, log)).db.rollups.At(Day) == TableOf(Day, log)
  {
    RunBatch(s, steps, 0, |log|, log);
    var end := Run(s, steps + BatchOf(0, |log|, log));
    RunKeepsInv(s, steps + BatchOf(0, |log|, log));
    assert forall e :: e in log ==> Marker("rollup", e.id) in MarkersFor("rollup", log);
    LedgerOfOne("rollup", log, end.db.markers);
    CreditedWhenAllMarked(log, end.db.markers, "rollup");
    assert end.db.rollups.At(Day) == TableOf(Day, LedgerOf(end));
  }

  // ----- The first day of the next month -----

  /** A payment of June 1 is counted by the query for May, in which nothing was confirmed. */
  lemma JuneCountsInMay()
    ensures var e := RowFor(Payment(7, 100, "a"), 1, ON_JUNE_1, 10);
            var steps := [IngestOne(Payment(7, 100, "a"), 1, ON_JUNE_1, 10)] + BatchOf(0, 1, [e]);
            && CanRun(OneConsumer(), steps)
            && var days := Run(OneConsumer(), steps).db.rollups.At(Day);
            && MonthVolume(days, BoardKey(MAY, 7)) == 0
            && ScoreIn(Queried(days, MAY), 7) == 100
  {
    var s, e := OneConsumer(), RowFor(Payment(7, 100, "a"), 1, ON_JUNE_1, 10);
    var first := [IngestOne(Payment(7, 100, "a"), 1, ON_JUNE_1, 10)];
    StartInv({7, 8}, ["rollup"], s.workers);
    RunOnePayment(s, Payment(7, 100, "a"), 1, ON_JUNE_1, 10);
    assert IsWindow([e], None, 1, [e]);
    TakeAll(s, first, [e]);
    PaymentOfNextFirstDay(e, BoardKey(MAY, 7));
  }

  /** A single confirmed payment on the day after the month: the query for the month counts it, the month does not. */
  lemma PaymentOfNextFirstDay(e: RawEvent, k: BoardKey)
    requires IsMonth(k.period) && e.eventType == PaymentConfirmed && e.merchantId == k.merchantId
    requires BucketTs(e).day == 1 && PeriodKey(BucketTs(e)) == NextMonth(k.period)
    ensures MonthVolume(TableOf(Day, [e]), k) == 0
    ensures ScoreIn(Queried(TableOf(Day, [e]), k.period), k.merchantId) == e.amountCents
  {
    var days := TableOf(Day, [e]);
    assert PeriodKey(BucketTs(e)) != k.period;
    assert [e][..0] == [];
    MonthRowsHoldVolume([e], k);
    TableOfOne(Day, e);
    assert KeyOf(Day, e) == Key(k.merchantId, PeriodEnd(k.period), PaymentConfirmed);
    QueryAddsNextFirstDay(days, k);
  }

  // ----- A truncated rebuild -----

  /** Two merchants, 7 with the larger volume, and one batch of both payments. */
  function TwoPayments(a: RawEvent, b: RawEvent): seq<Step> {
    [IngestOne(Payment(7, 100, "a"), 1, IN_MAY, 10)] + [IngestOne(Payment(8, 50, "b"), 2, IN_MAY, 20)]
    + BatchOf(0, 2, [a, b])
  }

  /** Every rebuild from a top-1 answer leaves merchant 8 without a score, although its month holds 50 and nothing was
      confirmed on June 1. */
  lemma RebuildDropsTheSecond()
    ensures var a, b := RowFor(Payment(7, 100, "a"), 1, IN_MAY, 10), RowFor(Payment(8, 50, "b"), 2, IN_MAY, 20);
            && CanRun(OneConsumer(), TwoPayments(a, b))
            && var days := Run(OneConsumer(), TwoPayments(a, b)).db.rollups.At(Day);
            && MonthVolume(days, BoardKey(MAY, 8)) == 50 && NextFirstDay(days, BoardKey(MAY, 8)) == 0
            && forall top :: IsTop(Queried(days, MAY), 1, top) ==> ScoreIn(ScoresOf(top), 8) == 0
  {
    var s := OneConsumer();
    var a, b := RowFor(Payment(7, 100, "a"), 1, IN_MAY, 10), RowFor(Payment(8, 50, "b"), 2, IN_MAY, 20);
    TwoPaymentsRun(s, Payment(7, 100, "a"), Payment(8, 50, "b"));
    assert TwoPayments(a, b) == TwoRequests(Payment(7, 100, "a"), Payment(8, 50, "b")) + BatchOf(0, 2, [a, b]);
    SecondIsDropped(a, b, MAY);
  }

  function TwoRequests(x: EventIngest, y: EventIngest): seq<Step> {
    [IngestOne(x, 1, IN_MAY, 10)] + [IngestOne(y, 2, IN_MAY, 20)]
  }

  lemma TwoPaymentsRun(s: State, x: EventIngest, y: EventIngest)
    requires s == OneConsumer() && x.merchantId == 7 && y.merchantId == 8 && x.idempotencyKey != y.idempotencyKey
    requires FitsInteger(x.amountCents) && FitsInteger(y.amountCents)
    ensures var a, b := RowFor(x, 1, IN_MAY, 10), RowFor(y, 2, IN_MAY, 20);
            && CanRun(s, TwoRequests(x, y) + BatchOf(0, 2, [a, b]))
            && Run(s, TwoRequests(x, y) + BatchOf(0, 2, [a, b])).db.rollups.At(Day) == TableOf(Day, [a, b])
  {
    var a, b := RowFor(x, 1, IN_MAY, 10), RowFor(y, 2, IN_MAY, 20);
    StartInv({7, 8}, ["rollup"], s.workers);
    RunOnePayment(s, x, 1, IN_MAY, 10);
    assert IdsOf([a]) == {1};
    RunRequest(s, [IngestOne(x, 1, IN_MAY, 10)], y, 2, IN_MAY, 20);
    assert [a] + [b] == [a, b];
    InOrderWindow(a, b);
    TakeAll(s, TwoRequests(x, y), [a, b]);
  }

  lemma InOrderWindow(a: RawEvent, b: RawEvent)
    requires a.createdAt <= b.createdAt && a.id != b.id
    ensures IsWindow([a, b], None, 2, [a, b])
  {
  }

  /** Of two merchants with a confirmed payment each in the month, the smaller never survives a top-1 rebuild. */
  lemma SecondIsDropped(a: RawEvent, b: RawEvent, p: Period)
    requires IsMonth(p) && a.merchantId != b.merchantId && 0 < b.amountCents < a.amountCents
    requires a.eventType == b.eventType == PaymentConfirmed && PeriodKey(BucketTs(a)) == PeriodKey(BucketTs(b)) == p
    ensures var days, k := TableOf(Day, [a, b]), BoardKey(p, b.merchantId);
            && MonthVolume(days, k) == b.amountCents && NextFirstDay(days, k) == 0
            && forall top :: IsTop(Queried(days, p), 1, top) ==> ScoreIn(ScoresOf(top), b.merchantId) == 0
  {
    var days, k, q := TableOf(Day, [a, b]), BoardKey(p, b.merchantId), Queried(TableOf(Day, [a, b]), p);
    MonthOfPair(a, b, p, BoardKey(p, a.merchantId));
    MonthOfPair(a, b, p, k);
    assert a.merchantId in Above(q, q[b.merchantId]);
    assert |Above(q, q[b.merchantId])| >= 1;
    NeverListedIff(q, 1, b.merchantId);
    forall top: seq<Entry> | IsTop(q, 1, top)
      ensures ScoreIn(ScoresOf(top), b.merchantId) == 0
    {
      RebuiltScore(days, 1, top, k);
    }
  }

  lemma MonthOfPair(a: RawEvent, b: RawEvent, p: Period, k: BoardKey)
    requires IsMonth(p) && k.period == p && a.merchantId != b.merchantId
    requires a.eventType == b.eventType == PaymentConfirmed && PeriodKey(BucketTs(a)) == PeriodKey(BucketTs(b)) == p
    ensures var days := TableOf(Day, [a, b]);
            && NextFirstDay(days, k) == 0
            && ScoreIn(Queried(days, p), k.merchantId) == MonthVolume(days, k)
            && MonthVolume(days, k) == if k.merchantId == a.merchantId then a.amountCents
                                       else if k.merchantId == b.merchantId then b.amountCents else 0
  {
    var pair := [a, b];
    assert pair == [a] + [b];
    VolumeOfConcat([a], [b], k);
    VolumeOfOne(a, k);
    VolumeOfOne(b, k);
    MonthRowsHoldVolume(pair, k);
    NothingAfterTheMonth(pair, k);
    QueryAddsNextFirstDay(TableOf(Day, pair), k);
  }

  lemma VolumeOfOne(e: RawEvent, k: BoardKey)
    ensures Volume([e], k) == if Moves(e, k) then e.amountCents else 0
  {
    assert [e][..0] == [];
  }

  lemma NothingAfterTheMonth(events: seq<RawEvent>, k: BoardKey)
    requires IsMonth(k.period) && forall e :: e in events ==> PeriodKey(BucketTs(e)) == k.period
    ensures NextFirstDay(TableOf(Day, events), k) == 0
  {
    var next := Key(k.merchantId, PeriodEnd(k.period), PaymentConfirmed);
    CellReadsEvents(Day, events, next);
    AggOfBounds(events, e => KeyOf(Day, e) == next);
    forall e | e in events
      ensures KeyOf(Day, e) != next
    {
      KeyOfFloor(Day, e);
      PeriodKeyIffDayInMonth(BucketTs(e), k.period);
    }
  }
}
