/** What a drained run says about the submissions that clients made, each counted once and with the fields it had when
    its key was first accepted. */
module Submissions {
  import opened Calendar
  import opened Events
  import opened RollupAlgebra
  import opened Database
  import opened EventRepositories
  import opened Ingestion
  import opened Leaderboard
  import opened Pipeline
  import opened NoLoss
  import opened ExactlyOnce
  import opened BoardAccounts
  import opened Metrics

  /** A submitted event and when the server received it. */
  datatype Submission = Submission(event: EventIngest, receivedAt: DateTime)

  // ----- The submissions of a run -----

  function EventsOf(step: Step): seq<EventIngest>
    requires IsIngest(step)
  {
    match step
    case IngestOne(event, _, _, _) => [event]
    case IngestMany(events, _, _, _) => events
  }

  /** The request of the step is answered successfully. */
  ghost predicate Accepts(s: State, step: Step) {
    match step
    case IngestOne(event, id, now, createdAt) => Single(s.db, event, id, now, createdAt).1.Ok?
    case IngestMany(events, ids, now, createdAt) => Batch(s.db, events, ids, now, createdAt).1.Ok?
    case _ => false
  }

  /** The events whose key was not accepted before, as received now. */
  function NewAmong(events: seq<EventIngest>, accepted: set<string>, now: DateTime): seq<Submission> {
    if events == [] then []
    else
      NewAmong(Prefix(events), accepted, now)
      + if Last(events).idempotencyKey in accepted then [] else [Submission(Last(events), now)]
  }

  /** Of each accepted idempotency key, the submission first accepted under it. */
  ghost function FirstSubmissions(s: State, steps: seq<Step>): seq<Submission>
    requires CanRun(s, steps)
    decreases |steps|
  {
    if steps == [] then []
    else
      var init, last := steps[..|steps| - 1], steps[|steps| - 1];
      FirstSubmissions(s, init)
      + if Accepts(Run(s, init), last) then NewAmong(EventsOf(last), AcceptedKeys(s, init), last.now) else []
  }

  // ----- The log stores them -----

  /** The row has every field of the submission. */
  predicate StoresIt(row: RawEvent, x: Submission) {
    Stores(row, x.event, row.id, x.receivedAt, row.createdAt)
  }

  /** One row per submission, in order. */
  predicate StoreAll(rows: seq<RawEvent>, xs: seq<Submission>) {
    |rows| == |xs| && forall i :: 0 <= i < |rows| ==> StoresIt(rows[i], xs[i])
  }

  lemma StoreMore(rows: seq<RawEvent>, xs: seq<Submission>, more: seq<RawEvent>, ys: seq<Submission>)
    requires StoreAll(rows, xs) && StoreAll(more, ys)
    ensures StoreAll(rows + more, xs + ys)
  {
  }

  lemma {:induction false} RowsStoreNew(events: seq<EventIngest>, keys: set<string>, accepted: set<string>,
                                        ids: string -> EventId, now: DateTime, createdAt: Instant)
    requires forall key :: key in KeysOf(events) ==> (key in keys <==> key !in accepted)
    ensures StoreAll(RowsFor(events, keys, ids, now, createdAt), NewAmong(events, accepted, now))
  {
    if events != [] {
      var last := Last(events);
      KeysOfPrefix(events);
      RowsStoreNew(Prefix(events), keys, accepted, ids, now, createdAt);
      if last.idempotencyKey in keys {
        var row := RowFor(last, ids(last.idempotencyKey), now, createdAt);
        RowStoresSubmission(last, ids(last.idempotencyKey), now, createdAt);
        StoreMore(RowsFor(Prefix(events), keys, ids, now, createdAt), NewAmong(Prefix(events), accepted, now),
                  [row], [Submission(last, now)]);
      }
    }
  }

  lemma NewOfOne(event: EventIngest, accepted: set<string>, now: DateTime)
    ensures NewAmong([event], accepted, now)
         == if event.idempotencyKey in accepted then [] else [Submission(event, now)]
  {
    assert Prefix([event]) == [];
  }

  lemma SingleStoresNew(s: State, step: Step)
    requires Enabled(s, step) && step.IngestOne?
    ensures StoreAll(AppendedRows(s.db, step),
                     if Accepts(s, step) then NewAmong([step.event], s.db.idempotency.Keys, step.now) else [])
  {
    RowStoresSubmission(step.event, step.id, step.now, step.createdAt);
    NewOfOne(step.event, s.db.idempotency.Keys, step.now);
  }

  lemma AppendedStoreNew(s: State, step: Step)
    requires OneToOne(s.db) && Enabled(s, step) && IsIngest(step)
    ensures StoreAll(AppendedRows(s.db, step),
                     if Accepts(s, step) then NewAmong(EventsOf(step), s.db.idempotency.Keys, step.now) else [])
  {
    match step
    case IngestOne(_, _, _, _) => SingleStoresNew(s, step);
    case IngestMany(events, ids, now, createdAt) =>
      RowsStoreNew(events, Unclaimed(s.db, events), s.db.idempotency.Keys, ids, now, createdAt);
  }

  lemma OthersAppendNothing(s: State, step: Step)
    requires Enabled(s, step) && !IsIngest(step)
    ensures Apply(s, step).db.rawEvents == s.db.rawEvents
  {
  }

  /** After every run raw_events holds, row by row, the fields of the submissions first accepted under their keys. */
  lemma {:induction false} LogStoresFirstSubmissions(s: State, steps: seq<Step>)
    requires Inv(s) && s.db.rawEvents == [] && CanRun(s, steps)
    ensures StoreAll(Run(s, steps).db.rawEvents, FirstSubmissions(s, steps))
    decreases |steps|
  {
    if steps != [] {
      var init, last := steps[..|steps| - 1], steps[|steps| - 1];
      var before := Run(s, init);
      LogStoresFirstSubmissions(s, init);
      RunKeepsInv(s, init);
      OneRowPerAcceptedKey(s, init);
      if IsIngest(last) {
        RequestAppends(before, last);
        AppendedStoreNew(before, last);
        StoreMore(before.db.rawEvents, FirstSubmissions(s, init), AppendedRows(before.db, last),
                  if Accepts(before, last) then NewAmong(EventsOf(last), AcceptedKeys(s, init), last.now) else []);
      } else {
        OthersAppendNothing(before, last);
      }
    }
  }

  /** After any run a batch of known merchants and INTEGER amounts that repeats no new key can come, and adds its events
      with new keys, in order. */
  lemma BatchAddsItsNewEvents(s: State, steps: seq<Step>, events: seq<EventIngest>, ids: string -> EventId,
                              now: DateTime, createdAt: Instant)
    requires Inv(s) && CanRun(s, steps)
    requires var db := Run(s, steps).db;
             && FreshIds(db, events, ids) && NewAmountsFit(db, events) && !RepeatsUnclaimed(db, events)
             && forall ev :: ev in events ==> ev.merchantId in db.merchants
    ensures var longer := steps + [IngestMany(events, ids, now, createdAt)];
            && CanRun(s, longer)
            && FirstSubmissions(s, longer) == FirstSubmissions(s, steps) + NewAmong(events, AcceptedKeys(s, steps), now)
  {
    var step := IngestMany(events, ids, now, createdAt);
    assert (steps + [step])[..|steps|] == steps;
    RunKeepsInv(s, steps);
    UnknownMerchantIff(Run(s, steps).db, events);
    BatchRefinesSingles(Run(s, steps).db, events, ids, now, createdAt);
  }

  /** Rows of distinct keys store exactly one submission under each. */
  lemma StoredUnderKey(rows: seq<RawEvent>, xs: seq<Submission>, key: string) returns (x: Submission)
    requires StoreAll(rows, xs) && DistinctKeys(rows) && key in ByKey(rows)
    ensures x in xs && x.event.idempotencyKey == key && StoresIt(ByKey(rows)[key], x)
    ensures forall y :: y in xs && y.event.idempotencyKey == key ==> y == x
  {
    ByKeyRow(rows, key);
    var i :| 0 <= i < |rows| && rows[i] == ByKey(rows)[key];
    x := xs[i];
    assert StoresIt(rows[i], x);
    forall y | y in xs && y.event.idempotencyKey == key
      ensures y == x
    {
      var j :| 0 <= j < |xs| && xs[j] == y;
      assert StoresIt(rows[j], y);
    }
  }

  /** x is the only first submission of the key, and the row that answers every retry of the key has its fields. */
  ghost predicate FirstUnder(xs: seq<Submission>, db: Db, key: string, x: Submission) {
    && x in xs && x.event.idempotencyKey == key
    && (forall y :: y in xs && y.event.idempotencyKey == key ==> y == x)
    && key in ByKey(db.rawEvents) && StoresIt(FirstAccepted(db, key), x)
  }

  /** Each accepted key has one first submission, and each first submission an accepted key. */
  lemma FirstAcceptedIsSubmitted(s: State, steps: seq<Step>, key: string)
    requires Inv(s) && s.db.rawEvents == [] && CanRun(s, steps)
    ensures key in AcceptedKeys(s, steps)
       <==> exists x :: FirstUnder(FirstSubmissions(s, steps), Run(s, steps).db, key, x)
  {
    LogStoresFirstSubmissions(s, steps);
    OneRowPerAcceptedKey(s, steps);
    if key in AcceptedKeys(s, steps) {
      var x := StoredUnderKey(Run(s, steps).db.rawEvents, FirstSubmissions(s, steps), key);
      assert FirstUnder(FirstSubmissions(s, steps), Run(s, steps).db, key, x);
    }
  }

  // ----- Counting submissions -----

  /** Amounts of the submissions that satisfy a condition. */
  function Amounts(xs: seq<Submission>, p: Submission -> bool): seq<int> {
    if xs == [] then []
    else
      var last := xs[|xs| - 1];
      Amounts(xs[..|xs| - 1], p) + if p(last) then [last.event.amountCents] else []
  }

  function SumOf(amounts: seq<int>): int {
    if amounts == [] then 0 else SumOf(amounts[..|amounts| - 1]) + amounts[|amounts| - 1]
  }

  /** No row for no amounts, otherwise their number, sum, least and greatest. */
  predicate Summarises(cell: Option<Row>, amounts: seq<int>) {
    match cell
    case None => amounts == []
    case Some(row) =>
      && row.count == |amounts| > 0
      && row.sum == SumOf(amounts)
      && row.min in amounts && row.max in amounts
      && forall a :: a in amounts ==> row.min <= a <= row.max
  }

  lemma OneMoreAmount(cell: Option<Row>, amounts: seq<int>, a: int)
    requires Summarises(cell, amounts)
    ensures Summarises(MergeCell(cell, Some(Unit(a))), amounts + [a])
    ensures SumOf(amounts + [a]) == SumOf(amounts) + a
  {
    assert (amounts + [a])[..|amounts|] == amounts;
    assert (amounts + [a])[|amounts|] == a;
    assert forall b :: b in amounts + [a] <==> b in amounts || b == a;
  }

  /** Aggregating rows that store the submissions summarises the submissions' amounts. */
  lemma {:induction false} RowsSummarise(rows: seq<RawEvent>, xs: seq<Submission>, p: RawEvent -> bool,
                                         q: Submission -> bool)
    requires StoreAll(rows, xs)
    requires forall row, x :: StoresIt(row, x) ==> p(row) == q(x)
    ensures Summarises(AggOf(rows, p), Amounts(xs, q))
    ensures SumWhere(rows, p) == SumOf(Amounts(xs, q)) && CountWhere(rows, p) == |Amounts(xs, q)|
  {
    if rows != [] {
      var n := |rows| - 1;
      RowsSummarise(rows[..n], xs[..n], p, q);
      assert StoresIt(rows[n], xs[n]);
      var amounts, a := Amounts(xs[..n], q), rows[n].amountCents;
      OneMoreAmount(AggOf(rows[..n], p), amounts, a);
      assert Amounts(xs, q) == if q(xs[n]) then amounts + [a] else amounts;
    }
  }

  /** The timestamp that places a submission: the client's if it sent one, the server's otherwise. */
  function DecidingTime(x: Submission): DateTime {
    if x.event.clientTimestamp.Some? then x.event.clientTimestamp.value else x.receivedAt
  }

  /** The submission belongs to the rollup row. */
  predicate FallsInto(g: Granularity, k: Key, x: Submission) {
    && x.event.merchantId == k.merchantId
    && x.event.eventType == k.eventType
    && Floor(g, ToInstant(DecidingTime(x))) == k.bucket
  }

  /** A confirmed payment of the member, in its month. */
  predicate CreditedTo(k: BoardKey, x: Submission) {
    && x.event.merchantId == k.merchantId
    && x.event.eventType == PaymentConfirmed
    && DecidingTime(x).year == k.period.year
    && DecidingTime(x).month == k.period.month
  }

  /** Whether a metrics query over whole buckets is about the submission. */
  predicate AskedFor(g: Granularity, merchantId: MerchantId, start: Instant, end: Instant, x: Submission) {
    && x.event.merchantId == merchantId
    && Ceil(g, start) <= ToInstant(DecidingTime(x)) < Floor(g, end) + Width(g)
  }

  lemma StoredFallsInto(g: Granularity, k: Key, row: RawEvent, x: Submission)
    requires StoresIt(row, x)
    ensures KeyOf(g, row) == k <==> FallsInto(g, k, x)
  {
    BucketedByClientTime(g, row);
  }

  lemma StoredIsCredited(k: BoardKey, row: RawEvent, x: Submission)
    requires StoresIt(row, x)
    ensures Moves(row, k) <==> CreditedTo(k, x)
  {
    CreditedByClientTime(row);
  }

  // ----- End to end -----

  /** A harmless run of one consumer id from empty tables, which ends drained. */
  ghost predicate DrainsHarmlessly(start: State, c: ConsumerId, steps: seq<Step>) {
    && start == Start(start.db.merchants, [c], start.workers) && WellDeployed([c], start.workers)
    && CanRun(start, steps) && HarmlessRun(start, steps, c) && Drained(Run(start, steps).db, c)
  }

  lemma DrainedLogIsLedger(start: State, c: ConsumerId, steps: seq<Step>)
    requires DrainsHarmlessly(start, c, steps)
    ensures var s := Run(start, steps);
            && Inv(s) && LedgerOf(s) == s.db.rawEvents && StoreAll(s.db.rawEvents, FirstSubmissions(start, steps))
            && forall g :: s.db.rollups.At(g) == TableOf(g, s.db.rawEvents)
  {
    StartInv(start.db.merchants, [c], start.workers);
    ConsumersStay(start, steps);
    RunKeepsInv(start, steps);
    HarmlessRunLosesNothing(start, steps, c);
    DrainedLedger(Run(start, steps), c);
    LogStoresFirstSubmissions(start, steps);
  }

  /** End to end: whatever the requests, retries, batches, crashes, resets and compactions of a harmless run that ends
      drained, each rollup row holds the number, sum, least and greatest amount of the submissions that belong to it,
      one for each accepted idempotency key. */
  lemma ExactlyOncePerSubmission(start: State, c: ConsumerId, steps: seq<Step>, g: Granularity, k: Key)
    requires DrainsHarmlessly(start, c, steps)
    ensures Summarises(Cell(Run(start, steps).db.rollups.At(g), k),
                       Amounts(FirstSubmissions(start, steps), x => FallsInto(g, k, x)))
  {
    var log, xs := Run(start, steps).db.rawEvents, FirstSubmissions(start, steps);
    DrainedLogIsLedger(start, c, steps);
    CellReadsEvents(g, log, k);
    forall row, x | StoresIt(row, x)
      ensures KeyOf(g, row) == k <==> FallsInto(g, k, x)
    {
      StoredFallsInto(g, k, row, x);
    }
    RowsSummarise(log, xs, e => KeyOf(g, e) == k, x => FallsInto(g, k, x));
  }

  /** If Redis lost nothing either and nothing is in flight, a member's score is the sum of its month's confirmed
      submissions. */
  lemma ScoreOfSubmissions(start: State, c: ConsumerId, steps: seq<Step>, k: BoardKey)
    requires DrainsHarmlessly(start, c, steps) && IsMonth(k.period)
    requires LosslessRun(start, steps) && forall w :: w in Run(start, steps).workers ==> !w.phase.Publishing?
    ensures Score(Run(start, steps).board, k) == SumOf(Amounts(FirstSubmissions(start, steps), x => CreditedTo(k, x)))
  {
    var log, xs := Run(start, steps).db.rawEvents, FirstSubmissions(start, steps);
    DrainedLogIsLedger(start, c, steps);
    LeaderboardAgrees(start.db.merchants, [c], start.workers, steps, k);
    MonthRowsHoldVolume(log, k);
    VolumeIsSum(log, k);
    forall row, x | StoresIt(row, x)
      ensures Moves(row, k) <==> CreditedTo(k, x)
    {
      StoredIsCredited(k, row, x);
    }
    RowsSummarise(log, xs, e => Moves(e, k), x => CreditedTo(k, x));
  }

  /** The totals of a metrics answer are the number and sum of the merchant's submissions over the buckets asked. */
  lemma MetricsOfSubmissions(start: State, c: ConsumerId, steps: seq<Step>, merchantId: MerchantId, from: Instant,
                             to: Instant, r: MetricsResponse)
    requires DrainsHarmlessly(start, c, steps)
    requires var t := Run(start, steps).db.rollups.At(r.granularity);
             && r.granularity == SelectGranularity(from, to)
             && Answers(t, r.granularity, RowsAsked(t, merchantId, from, to), r.data)
             && r.totalVolumeCents == VolumeOf(r.data) && r.totalCount == CountOf(r.data)
    ensures var xs := FirstSubmissions(start, steps);
            var amounts := Amounts(xs, x => AskedFor(r.granularity, merchantId, from, to, x));
            r.totalCount == |amounts| && r.totalVolumeCents == SumOf(amounts)
  {
    var g, log, xs := r.granularity, Run(start, steps).db.rawEvents, FirstSubmissions(start, steps);
    DrainedLogIsLedger(start, c, steps);
    MetricsReadTheLedger(Run(start, steps), merchantId, from, to, r.data);
    RowsSummarise(log, xs, e => Counted(g, merchantId, from, to, e), x => AskedFor(g, merchantId, from, to, x));
  }

  /** A type's submissions among those asked for. */
  function OfType(xs: seq<Submission>, merchantId: MerchantId, from: Instant, to: Instant, eventType: EventType)
    : seq<int>
  {
    Amounts(xs, x => AskedFor(Hour, merchantId, from, to, x) && x.event.eventType == eventType)
  }

  /** The success rate is the confirmed share of the merchant's confirmed and failed submissions over whole hours. */
  lemma SuccessRateOfSubmissions(start: State, c: ConsumerId, steps: seq<Step>, merchantId: MerchantId, from: Instant,
                                 to: Instant, rate: Option<real>)
    requires DrainsHarmlessly(start, c, steps)
    requires var hours := Run(start, steps).db.rollups.At(Hour);
             var rows := RowsAsked(hours, merchantId, from, to);
             IsRate(rate, CountOfType(hours, rows, PaymentConfirmed), CountOfType(hours, rows, PaymentFailed))
    ensures var xs := FirstSubmissions(start, steps);
            IsRate(rate, |OfType(xs, merchantId, from, to, PaymentConfirmed)|,
                   |OfType(xs, merchantId, from, to, PaymentFailed)|)
  {
    DrainedLogIsLedger(start, c, steps);
    CountsOfSubmissions(start, c, steps, merchantId, from, to, PaymentConfirmed);
    CountsOfSubmissions(start, c, steps, merchantId, from, to, PaymentFailed);
    SuccessRateReadsTheLedger(Run(start, steps), merchantId, from, to, rate);
  }

  lemma CountsOfSubmissions(start: State, c: ConsumerId, steps: seq<Step>, merchantId: MerchantId, from: Instant,
                            to: Instant, eventType: EventType)
    requires DrainsHarmlessly(start, c, steps)
    ensures LedgerCount(Run(start, steps), merchantId, from, to, eventType)
         == |OfType(FirstSubmissions(start, steps), merchantId, from, to, eventType)|
  {
    DrainedLogIsLedger(start, c, steps);
    RowsSummarise(Run(start, steps).db.rawEvents, FirstSubmissions(start, steps),
                  e => Counted(Hour, merchantId, from, to, e) && e.eventType == eventType,
                  x => AskedFor(Hour, merchantId, from, to, x) && x.event.eventType == eventType);
  }
}
