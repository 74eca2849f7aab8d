/** Runs that lose an event: the cursor passes it although the consumer never marks it. */
module LostEvents {
  import opened Calendar
  import opened Events
  import opened Database
  import opened EventRepositories
  import opened Ingestion
  import opened RollupWorkers
  import opened Leaderboard
  import opened Pipeline
  import opened NoLoss
  import opened SampleRuns

  const NOW: DateTime := Fields(2026, 5, 1, 12, 0, 0, 0)

  function Payment(key: string): EventIngest {
    EventIngest(PaymentConfirmed, 7, 100, key, None)
  }

  function Stored(key: string, id: EventId, createdAt: Instant): RawEvent {
    RowFor(Payment(key), id, NOW, createdAt)
  }

  function OneWorker(): State {
    Start({7}, ["rollup"], [Worker("rollup", Idle)])
  }

  lemma OneWorkerInv()
    ensures Inv(OneWorker())
  {
    StartInv({7}, ["rollup"], [Worker("rollup", Idle)]);
  }

  /** The consumer has marked the first of two rows, its cursor is there, and the other row is no later. */
  predicate StuckAtFirst(t: State, a: RawEvent, b: RawEvent) {
    && t.db.rawEvents == [a, b] && a.id != b.id && b.createdAt <= a.createdAt
    && t.db.markers == {Marker("rollup", a.id)} && t.db.offsets == map["rollup" := Offset(a.id, a.occurredAt)]
    && t.workers == OneWorker().workers
  }

  /** Then the consumer is drained and the other row is lost. */
  lemma StuckIsLost(t: State, a: RawEvent, b: RawEvent)
    requires StuckAtFirst(t, a, b)
    ensures Drained(t.db, "rollup") && Skipped(t, "rollup", b)
  {
    assert a in t.db.rawEvents;
    FindByIdFindsRow(t.db.rawEvents, a);
  }

  // ----- LIMIT cuts a group of equal created_at -----

  function Ids(key: string): EventId {
    if key == "a" then 1 else 2
  }

  /** One batch request inserts two rows with the same created_at. */
  function TiedRequest(): Step {
    IngestMany([Payment("a"), Payment("b")], Ids, NOW, 10)
  }

  /** A fetch of one row takes the first. */
  function TiedRun(): seq<Step> {
    [TiedRequest()] + BatchOf(0, 1, [Stored("a", 1, 10)])
  }

  function PairRows(x: EventIngest, y: EventIngest, ids: string -> EventId, now: DateTime,
                    createdAt: Instant): seq<RawEvent> {
    [RowFor(x, ids(x.idempotencyKey), now, createdAt), RowFor(y, ids(y.idempotencyKey), now, createdAt)]
  }

  lemma RowsOfPair(db: Db, x: EventIngest, y: EventIngest, ids: string -> EventId, now: DateTime, createdAt: Instant)
    requires db.idempotency == map[]
    ensures BatchRows(db, [x, y], ids, now, createdAt) == PairRows(x, y, ids, now, createdAt)
  {
    assert Prefix([x, y]) == [x] && Prefix([x]) == [];
    BatchRowsOfPrefix(db, [x, y], ids, now, createdAt);
    BatchRowsOfPrefix(db, [x], ids, now, createdAt);
    NothingUnclaimed(db, [], ids, now, createdAt);
  }

  lemma TwoRowsFit(a: RawEvent, b: RawEvent)
    requires FitsInteger(a.amountCents) && FitsInteger(b.amountCents) && a.id != b.id
    ensures AmountsFit([a, b]) && PrimaryKeyHolds([a, b])
  {
  }

  lemma PairMerchants(db: Db, x: EventIngest, y: EventIngest)
    requires x.merchantId in db.merchants && y.merchantId in db.merchants
    ensures MissingMerchants(db, [x, y]) == {}
  {
    assert forall e :: e in [x, y] ==> e == x || e == y;
  }

  /** Two new payments in one request become two rows with the same created_at. */
  lemma PairInserts(db: Db, x: EventIngest, y: EventIngest, ids: string -> EventId, now: DateTime, createdAt: Instant)
    requires x.merchantId in db.merchants && y.merchantId in db.merchants && db.idempotency == map[]
    requires db.rawEvents == []
    requires FitsInteger(x.amountCents) && FitsInteger(y.amountCents) && ids(x.idempotencyKey) != ids(y.idempotencyKey)
    ensures var after := Batch(db, [x, y], ids, now, createdAt).0;
            after == db.(idempotency := after.idempotency, rawEvents := PairRows(x, y, ids, now, createdAt))
  {
    var rows := PairRows(x, y, ids, now, createdAt);
    RowsOfPair(db, x, y, ids, now, createdAt);
    PairMerchants(db, x, y);
    assert db.rawEvents + rows == rows;
    TwoRowsFit(rows[0], rows[1]);
    assert rows == [rows[0], rows[1]];
    AcceptedBatch(db, [x, y], ids, now, createdAt, rows);
  }

  lemma PairIsFresh(db: Db)
    requires db.rawEvents == []
    ensures FreshIds(db, [Payment("a"), Payment("b")], Ids)
  {
  }

  lemma AfterTiedRequest()
    ensures Enabled(OneWorker(), TiedRequest())
    ensures var t := Apply(OneWorker(), TiedRequest());
            && t.db.rawEvents == [Stored("a", 1, 10), Stored("b", 2, 10)]
            && t.db.offsets == map[] && t.db.markers == {} && t.workers == OneWorker().workers
  {
    PairIsFresh(OneWorker().db);
    PairInserts(OneWorker().db, Payment("a"), Payment("b"), Ids, NOW, 10);
  }

  lemma FirstOfTwo(a: RawEvent, b: RawEvent)
    requires a.createdAt <= b.createdAt
    ensures IsWindow([a, b], None, 1, [a])
  {
  }

  /** The consumer ends drained, and the second row is lost. */
  lemma TieLosesAnEvent()
    ensures CanRun(OneWorker(), TiedRun())
    ensures var end := Run(OneWorker(), TiedRun());
            Drained(end.db, "rollup") && Skipped(end, "rollup", Stored("b", 2, 10))
  {
    AfterTiedRun();
    StuckIsLost(Run(OneWorker(), TiedRun()), Stored("a", 1, 10), Stored("b", 2, 10));
  }

  lemma AfterTiedRun()
    ensures CanRun(OneWorker(), TiedRun())
    ensures StuckAtFirst(Run(OneWorker(), TiedRun()), Stored("a", 1, 10), Stored("b", 2, 10))
  {
    AfterTiedRequest();
    RunNothing(OneWorker());
    OneMoreStep(OneWorker(), [], TiedRequest());
    assert [] + [TiedRequest()] == [TiedRequest()];
    TakeFirst(OneWorker(), [TiedRequest()], Stored("a", 1, 10), Stored("b", 2, 10));
  }

  /** With no cursor, a batch of one may take the first of two tied rows and get stuck there. */
  lemma TakeFirst(s: State, steps: seq<Step>, a: RawEvent, b: RawEvent)
    requires CanRun(s, steps) && a.id != b.id && a.createdAt == b.createdAt
    requires var t := Run(s, steps);
             && t.db.rawEvents == [a, b] && t.db.markers <= {Marker("rollup", a.id)}
             && t.db.offsets == map[] && t.workers == OneWorker().workers
    ensures CanRun(s, steps + BatchOf(0, 1, [a])) && StuckAtFirst(Run(s, steps + BatchOf(0, 1, [a])), a, b)
  {
    FirstOfTwo(a, b);
    RunBatch(s, steps, 0, 1, [a]);
    CommitOfOne(Run(s, steps).db, a);
  }

  lemma CommitOfOne(db: Db, e: RawEvent)
    ensures var after := Committed(db, "rollup", [e]);
            after == db.(markers := db.markers + {Marker("rollup", e.id)}, rollups := after.rollups,
                         offsets := db.offsets["rollup" := Offset(e.id, e.occurredAt)])
  {
    assert MarkersFor("rollup", [e]) == {Marker("rollup", e.id)};
  }

  // ----- A reset alone does not help -----

  /** After the loss, the offset is deleted and the first row fetched again with the same limit. */
  function ReplayedRun(): seq<Step> {
    TiedRun() + [ResetOffset("rollup")] + BatchOf(0, 1, [Stored("a", 1, 10)])
  }

  /** The replay cuts the same tie, and the second row is lost again. */
  lemma ReplayLosesItAgain()
    ensures CanRun(OneWorker(), ReplayedRun())
    ensures var end := Run(OneWorker(), ReplayedRun());
            Drained(end.db, "rollup") && Skipped(end, "rollup", Stored("b", 2, 10))
  {
    AfterTiedRun();
    OneMoreStep(OneWorker(), TiedRun(), ResetOffset("rollup"));
    TakeFirst(OneWorker(), TiedRun() + [ResetOffset("rollup")], Stored("a", 1, 10), Stored("b", 2, 10));
    StuckIsLost(Run(OneWorker(), ReplayedRun()), Stored("a", 1, 10), Stored("b", 2, 10));
  }

  // ----- A reset and enough room do -----

  /** What follows the reset when the limit holds both rows. */
  function RoomyBatch(): seq<Step> {
    BatchOf(0, 2, [Stored("a", 1, 10), Stored("b", 2, 10)])
  }

  /** After the loss, a reset followed by a batch of two is a harmless run that drains the consumer, and the lost row is
      marked. */
  lemma ReplayWithRoomRecovers()
    ensures CanRun(OneWorker(), TiedRun())
    ensures var lost := Run(OneWorker(), TiedRun());
            && Skipped(lost, "rollup", Stored("b", 2, 10))
            && var reset := Apply(lost, ResetOffset("rollup"));
            && CanRun(reset, RoomyBatch()) && HarmlessRun(reset, RoomyBatch(), "rollup")
            && Drained(Run(reset, RoomyBatch()).db, "rollup")
            && Marker("rollup", 2) in Run(reset, RoomyBatch()).db.markers
  {
    TieLosesAnEvent();
    OneWorkerInv();
    RunKeepsInv(OneWorker(), TiedRun());
    AfterTiedRun();
    RoomRecovers(Run(OneWorker(), TiedRun()), Stored("a", 1, 10), Stored("b", 2, 10));
  }

  lemma RoomRecovers(lost: State, a: RawEvent, b: RawEvent)
    requires Inv(lost) && StuckAtFirst(lost, a, b) && a.createdAt == b.createdAt
    ensures var reset, steps := Apply(lost, ResetOffset("rollup")), BatchOf(0, 2, [a, b]);
            && CanRun(reset, steps) && HarmlessRun(reset, steps, "rollup")
            && Drained(Run(reset, steps).db, "rollup") && Marker("rollup", b.id) in Run(reset, steps).db.markers
  {
    var reset := Apply(lost, ResetOffset("rollup"));
    BothFit(a, b);
    HarmlessBatch(reset, 0, 2, [a, b]);
    RunNothing(reset);
    RunBatch(reset, [], 0, 2, [a, b]);
    assert [] + BatchOf(0, 2, [a, b]) == BatchOf(0, 2, [a, b]);
    DrainedAtSecond(reset.db, a, b);
    ResetRestores(lost, "rollup", BatchOf(0, 2, [a, b]), b);
  }

  lemma BothFit(a: RawEvent, b: RawEvent)
    requires a.id != b.id && a.createdAt == b.createdAt
    ensures IsWindow([a, b], None, 2, [a, b])
  {
  }

  lemma DrainedAtSecond(db: Db, a: RawEvent, b: RawEvent)
    requires db.rawEvents == [a, b] && a.id != b.id && a.createdAt == b.createdAt
    ensures Drained(Committed(db, "rollup", [a, b]), "rollup")
  {
    FindByIdFindsRow(db.rawEvents, b);
  }

  /** A batch whose window leaves nothing out is a harmless run. */
  lemma HarmlessBatch(t: State, w: nat, limit: nat, window: seq<RawEvent>)
    requires MayFetch(t, w, limit, window) && forall e :: e in t.db.rawEvents ==> e in window
    ensures CanRun(t, BatchOf(w, limit, window)) && HarmlessRun(t, BatchOf(w, limit, window), t.workers[w].consumerId)
  {
    var fetched := FetchWindow(t, w, limit, window);
    var end := CommitWindow(t, fetched, w, window);
    FetchIsHarmless(t, w, limit, window);
    HarmlessFour(t, ReadOffset(w), FetchEvents(w, limit, window), CommitBatch(w), Publish(w, Touched(window)), fetched,
                 t.workers[w].consumerId);
  }

  lemma HarmlessFour(s: State, a: Step, b: Step, d: Step, e: Step, mid: State, c: ConsumerId)
    requires Enabled(s, a) && Harmless(s, a, c)
    requires Enabled(Apply(s, a), b) && Harmless(Apply(s, a), b, c) && mid == Apply(Apply(s, a), b)
    requires Enabled(mid, d) && Harmless(mid, d, c)
    requires Enabled(Apply(mid, d), e) && Harmless(Apply(mid, d), e, c)
    ensures CanRun(s, [a, b, d, e]) && HarmlessRun(s, [a, b, d, e], c)
  {
    RunNothing(s);
    HarmlessTwoMore(s, [], a, b, c);
    assert [] + [a, b] == [a, b];
    HarmlessTwoMore(s, [a, b], d, e, c);
    assert [a, b] + [d, e] == [a, b, d, e];
  }

  lemma FetchIsHarmless(t: State, w: nat, limit: nat, window: seq<RawEvent>)
    requires MayFetch(t, w, limit, window) && forall e :: e in t.db.rawEvents ==> e in window
    requires Enabled(t, ReadOffset(w)) && Enabled(Apply(t, ReadOffset(w)), FetchEvents(w, limit, window))
    ensures Harmless(Apply(t, ReadOffset(w)), FetchEvents(w, limit, window), t.workers[w].consumerId)
  {
  }

  lemma HarmlessTwoMore(s: State, steps: seq<Step>, first: Step, second: Step, c: ConsumerId)
    requires CanRun(s, steps) && HarmlessRun(s, steps, c)
    requires Enabled(Run(s, steps), first) && Harmless(Run(s, steps), first, c)
    requires Enabled(Apply(Run(s, steps), first), second) && Harmless(Apply(Run(s, steps), first), second, c)
    ensures CanRun(s, steps + [first, second]) && HarmlessRun(s, steps + [first, second], c)
    ensures Run(s, steps + [first, second]) == Apply(Apply(Run(s, steps), first), second)
  {
    HarmlessOneMore(s, steps, first, c);
    HarmlessOneMore(s, steps + [first], second, c);
    assert steps + [first] + [second] == steps + [first, second];
  }

  lemma HarmlessOneMore(s: State, steps: seq<Step>, step: Step, c: ConsumerId)
    requires CanRun(s, steps) && HarmlessRun(s, steps, c)
    requires Enabled(Run(s, steps), step) && Harmless(Run(s, steps), step, c)
    ensures CanRun(s, steps + [step]) && Run(s, steps + [step]) == Apply(Run(s, steps), step)
    ensures HarmlessRun(s, steps + [step], c)
  {
    OneMoreStep(s, steps, step);
    assert (steps + [step])[..|steps|] == steps;
  }

  // ----- A row becomes visible after a later one -----

  /** The request that began first commits only after the other's row has been processed. */
  function LateRun(): seq<Step> {
    [IngestOne(Payment("a"), 1, NOW, 20)] + BatchOf(0, 1, [Stored("a", 1, 20)]) + [IngestOne(Payment("b"), 2, NOW, 10)]
  }

  lemma LateRowIsLost()
    ensures CanRun(OneWorker(), LateRun())
    ensures var end := Run(OneWorker(), LateRun());
            Drained(end.db, "rollup") && Skipped(end, "rollup", Stored("b", 2, 10))
  {
    LateAfterFirst(OneWorker(), Payment("a"), 1, 20, Payment("b"), 2, 10);
    StuckIsLost(Run(OneWorker(), LateRun()), Stored("a", 1, 20), Stored("b", 2, 10));
  }

  lemma LateAfterFirst(s: State, x: EventIngest, id: EventId, late: Instant, y: EventIngest, other: EventId,
                       early: Instant)
    requires s == OneWorker() && x.merchantId == y.merchantId == 7 && x.idempotencyKey != y.idempotencyKey
    requires FitsInteger(x.amountCents) && FitsInteger(y.amountCents)
    requires id != NIL_ID && other != NIL_ID && id != other && early <= late
    ensures var a, b := RowFor(x, id, NOW, late), RowFor(y, other, NOW, early);
            var steps := [IngestOne(x, id, NOW, late)] + BatchOf(0, 1, [a]) + [IngestOne(y, other, NOW, early)];
            CanRun(s, steps) && StuckAtFirst(Run(s, steps), a, b)
  {
    var a := RowFor(x, id, NOW, late);
    var taken := [IngestOne(x, id, NOW, late)] + BatchOf(0, 1, [a]);
    OneWorkerInv();
    TakeOnly(s, x, id, late);
    assert IdsOf([a]) == {id};
    RunRequest(s, taken, y, other, NOW, early);
  }

  /** One request, and a batch that takes its row. */
  lemma TakeOnly(s: State, x: EventIngest, id: EventId, createdAt: Instant)
    requires s == OneWorker() && x.merchantId == 7 && FitsInteger(x.amountCents) && id != NIL_ID
    ensures var a := RowFor(x, id, NOW, createdAt);
            var steps := [IngestOne(x, id, NOW, createdAt)] + BatchOf(0, 1, [a]);
            && CanRun(s, steps)
            && var t := Run(s, steps);
            && t.db.rawEvents == [a] && t.db.idempotency == map[x.idempotencyKey := id] && t.db.merchants == {7}
            && t.db.markers == {Marker("rollup", id)} && t.db.offsets == map["rollup" := Offset(id, NOW)]
            && t.workers == s.workers
  {
    var a := RowFor(x, id, NOW, createdAt);
    var first := [IngestOne(x, id, NOW, createdAt)];
    OneWorkerInv();
    RunNothing(s);
    RunRequest(s, [], x, id, NOW, createdAt);
    assert [] + first == first;
    OnlyRow(a);
    RunBatch(s, first, 0, 1, [a]);
    CommitOfOne(Run(s, first).db, a);
  }

  lemma OnlyRow(a: RawEvent)
    ensures IsWindow([a], None, 1, [a])
  {
  }
}
