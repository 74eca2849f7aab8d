/** The whole write path as a state machine: requests, any number of workers and consumers, crashes, replays,
    leaderboard publishing and compaction, interleaved at transaction boundaries. */
module Pipeline {
  import opened Calendar
  import opened Events
  import opened RollupAlgebra
  import opened Database
  import opened EventRepositories
  import opened Ingestion
  import opened RollupRepositories
  import opened RollupWorkers
  import opened Ledger
  import opened Leaderboard
  import opened Compaction

  // ----- States and steps -----

  /** Where a worker is in its batch. */
  datatype Phase =
    | Idle
    | OffsetRead(after: Option<EventId>)
    | Fetched(events: seq<RawEvent>)
    | Publishing(newEvents: seq<RawEvent>)

  datatype Worker = Worker(consumerId: ConsumerId, phase: Phase)

  /** wiped and lost account for scores that expired and for increments that never reached Redis. */
  datatype State = State(
    db: Db,
    consumers: seq<ConsumerId>,
    workers: seq<Worker>,
    board: Board,
    wiped: Board,
    lost: Board)

  datatype Step =
    | IngestOne(event: EventIngest, id: EventId, now: DateTime, createdAt: Instant)
    | IngestMany(events: seq<EventIngest>, ids: string -> EventId, now: DateTime, createdAt: Instant)
    | ReadOffset(worker: nat)
    | FetchEvents(worker: nat, limit: nat, window: seq<RawEvent>)
    | CommitBatch(worker: nat)
    | Publish(worker: nat, delivered: set<BoardKey>)
    | Crash(worker: nat)
    | ResetOffset(consumerId: ConsumerId)
    | ExpireBoard(period: Period)
    | CompactDay(start: Instant)

  predicate IsIngest(step: Step) {
    step.IngestOne? || step.IngestMany?
  }

  ghost predicate Enabled(s: State, step: Step) {
    match step
    case IngestOne(_, id, _, _) => FreshId(s.db, id)
    case IngestMany(events, ids, _, _) => FreshIds(s.db, events, ids)
    case ReadOffset(w) => w < |s.workers| && s.workers[w].phase.Idle?
    case FetchEvents(w, limit, window) =>
      && w < |s.workers| && s.workers[w].phase.OffsetRead?
      && IsWindow(s.db.rawEvents, s.workers[w].phase.after, limit, window)
    case CommitBatch(w) => w < |s.workers| && s.workers[w].phase.Fetched? && s.workers[w].phase.events != []
    case Publish(w, _) => w < |s.workers| && s.workers[w].phase.Publishing?
    case Crash(w) => w < |s.workers|
    case ResetOffset(_) => true
    case ExpireBoard(_) => true
    case CompactDay(start) => IsDayStart(start)
  }

  function SetPhase(s: State, w: nat, phase: Phase): State
    requires w < |s.workers|
  {
    s.(workers := s.workers[w := s.workers[w].(phase := phase)])
  }

  /** The tables after a request's transaction, committed or rolled back. */
  function AfterRequest(db: Db, step: Step): Db
    requires IsIngest(step)
  {
    match step
    case IngestOne(event, id, now, createdAt) => Single(db, event, id, now, createdAt).0
    case IngestMany(events, ids, now, createdAt) => Batch(db, events, ids, now, createdAt).0
  }

  function AfterPublish(s: State, w: nat, delivered: set<BoardKey>): State
    requires w < |s.workers| && s.workers[w].phase.Publishing?
  {
    var events := s.workers[w].phase.newEvents;
    SetPhase(s, w, Idle).(board := AddVolume(s.board, events, delivered),
                          lost := AddVolume(s.lost, events, Touched(events) - delivered))
  }

  /** The month's key expires or is flushed. */
  function AfterExpiry(s: State, period: Period): State {
    s.(board := map k | k in s.board && k.period != period :: s.board[k],
       wiped := map k | k in s.wiped.Keys + s.board.Keys ::
                  Score(s.wiped, k) + if k.period == period then Score(s.board, k) else 0)
  }

  ghost function Apply(s: State, step: Step): State
    requires Enabled(s, step)
  {
    match step
    case IngestOne(_, _, _, _) => s.(db := AfterRequest(s.db, step))
    case IngestMany(_, _, _, _) => s.(db := AfterRequest(s.db, step))
    case ReadOffset(w) => SetPhase(s, w, OffsetRead(CursorOf(s.db, s.workers[w].consumerId)))
    case FetchEvents(w, _, window) => SetPhase(s, w, if window == [] then Idle else Fetched(window))
    case CommitBatch(w) =>
      var c, events := s.workers[w].consumerId, s.workers[w].phase.events;
      SetPhase(s, w, Publishing(NewEvents(s.db.markers, c, events))).(db := Committed(s.db, c, events))
    case Publish(w, delivered) => AfterPublish(s, w, delivered)
    case Crash(w) => if s.workers[w].phase.Publishing? then AfterPublish(s, w, {}) else SetPhase(s, w, Idle)
    case ResetOffset(c) => s.(db := s.db.(offsets := s.db.offsets - {c}))
    case ExpireBoard(period) => AfterExpiry(s, period)
    case CompactDay(start) =>
      s.(db := s.db.(rollups := s.db.rollups.(day := Compacted(s.db.rollups.hour, s.db.rollups.day, start))))
  }

  /** Empty tables, idle workers. */
  function Start(merchants: set<MerchantId>, consumers: seq<ConsumerId>, workers: seq<Worker>): State {
    State(Db(merchants, map[], [], {}, map[], Rollups(map[], map[], map[])), consumers, workers, map[], map[], map[])
  }

  predicate WellDeployed(consumers: seq<ConsumerId>, workers: seq<Worker>) {
    Distinct(consumers) && forall w :: w in workers ==> w.consumerId in consumers && w.phase.Idle?
  }

  // ----- Runs -----

  ghost predicate CanRun(s: State, steps: seq<Step>)
    decreases |steps|, 0
  {
    steps == [] || (CanRun(s, steps[..|steps| - 1]) && Enabled(Run(s, steps[..|steps| - 1]), steps[|steps| - 1]))
  }

  ghost function Run(s: State, steps: seq<Step>): State
    requires CanRun(s, steps)
    decreases |steps|, 1
  {
    if steps == [] then s else Apply(Run(s, steps[..|steps| - 1]), steps[|steps| - 1])
  }

  // ----- The ledger invariant -----

  function LedgerOf(s: State): seq<RawEvent> {
    LedgerEvents(s.consumers, s.db.rawEvents, s.db.markers)
  }

  predicate PhaseHolds(log: seq<RawEvent>, phase: Phase) {
    match phase
    case OffsetRead(after) => after.Some? ==> after.value in IdsOf(log)
    case Fetched(events) => events != [] && DistinctIds(events) && forall e :: e in events ==> e in log
    case _ => true
  }

  /** Keys, markers, cursors and windows all refer to rows of the log, whose amounts are INTEGERs. */
  predicate References(s: State) {
    && OneToOne(s.db)
    && AmountsFit(s.db.rawEvents)
    && Distinct(s.consumers)
    && (forall w :: w in s.workers ==> w.consumerId in s.consumers && PhaseHolds(s.db.rawEvents, w.phase))
    && (forall m :: m in s.db.markers ==> m.consumerId in s.consumers && m.eventId in IdsOf(s.db.rawEvents))
    && (forall c :: c in s.db.offsets ==> c in s.consumers && s.db.offsets[c].lastEventId in IdsOf(s.db.rawEvents))
  }

  /** Each rollup table is the aggregate over the (consumer, event) markers. */
  predicate LedgerHolds(db: Db, consumers: seq<ConsumerId>) {
    forall g :: db.rollups.At(g) == TableOf(g, LedgerEvents(consumers, db.rawEvents, db.markers))
  }

  predicate Inv(s: State) {
    References(s) && LedgerHolds(s.db, s.consumers)
  }

  lemma StartInv(merchants: set<MerchantId>, consumers: seq<ConsumerId>, workers: seq<Worker>)
    requires WellDeployed(consumers, workers)
    ensures Inv(Start(merchants, consumers, workers))
  {
    var s := Start(merchants, consumers, workers);
    NothingCredited(consumers);
    assert forall g :: s.db.rollups.At(g) == map[];
  }

  lemma {:induction false} NothingCredited(consumers: seq<ConsumerId>)
    ensures LedgerEvents(consumers, [], {}) == []
  {
    if consumers != [] {
      NothingCredited(consumers[..|consumers| - 1]);
    }
  }

  /** The rows a request appends. */
  function AppendedRows(db: Db, step: Step): seq<RawEvent>
    requires IsIngest(step)
  {
    match step
    case IngestOne(event, id, now, createdAt) =>
      if Single(db, event, id, now, createdAt).1.Ok? && event.idempotencyKey !in db.idempotency
      then [RowFor(event, id, now, createdAt)] else []
    case IngestMany(events, ids, now, createdAt) =>
      if Batch(db, events, ids, now, createdAt).1.Ok? then BatchRows(db, events, ids, now, createdAt) else []
  }

  /** The tables after appending the rows of a transaction that began at createdAt. */
  predicate Appends(db: Db, after: Db, rows: seq<RawEvent>, createdAt: Instant) {
    && OneToOne(after)
    && after == db.(idempotency := after.idempotency, rawEvents := db.rawEvents + rows)
    && AmountsFit(rows)
    && forall e :: e in rows ==> e.createdAt == createdAt && e.id !in IdsOf(db.rawEvents)
  }

  lemma NothingAppended(db: Db, createdAt: Instant)
    requires OneToOne(db)
    ensures Appends(db, db, [], createdAt)
  {
  }

  lemma SingleAppends(db: Db, event: EventIngest, id: EventId, now: DateTime, createdAt: Instant)
    requires OneToOne(db) && FreshId(db, id)
    ensures Appends(db, Single(db, event, id, now, createdAt).0,
                    if Single(db, event, id, now, createdAt).1.Ok? && event.idempotencyKey !in db.idempotency
                    then [RowFor(event, id, now, createdAt)] else [], createdAt)
  {
    SingleOutcome(db, event, id, now, createdAt);
    NothingAppended(db, createdAt);
  }

  lemma BatchAppends(db: Db, events: seq<EventIngest>, ids: string -> EventId, now: DateTime, createdAt: Instant)
    requires OneToOne(db) && FreshIds(db, events, ids)
    ensures var (after, r) := Batch(db, events, ids, now, createdAt);
            Appends(db, after, if r.Ok? then BatchRows(db, events, ids, now, createdAt) else [], createdAt)
  {
    BatchRefinesSingles(db, events, ids, now, createdAt);
    var rows := BatchRows(db, events, ids, now, createdAt);
    if Batch(db, events, ids, now, createdAt).1.Ok? {
      AcceptedBatch(db, events, ids, now, createdAt, rows);
      RowTimes(events, Unclaimed(db, events), ids, now, createdAt);
      AppendedAreFresh(db.rawEvents, rows);
    } else {
      NothingAppended(db, createdAt);
    }
  }

  /** A request appends fresh rows stamped with its transaction's start and touches only the two ingest tables. */
  lemma RequestAppends(s: State, step: Step)
    requires OneToOne(s.db) && IsIngest(step) && Enabled(s, step)
    ensures Appends(s.db, AfterRequest(s.db, step), AppendedRows(s.db, step), step.createdAt)
  {
    match step
    case IngestOne(event, id, now, createdAt) => SingleAppends(s.db, event, id, now, createdAt);
    case IngestMany(events, ids, now, createdAt) => BatchAppends(s.db, events, ids, now, createdAt);
  }

  lemma AppendedAreFresh(log: seq<RawEvent>, rows: seq<RawEvent>)
    requires DistinctIds(log + rows)
    ensures forall e :: e in rows ==> e.id !in IdsOf(log)
  {
    var all := log + rows;
    forall e | e in rows
      ensures e.id !in IdsOf(log)
    {
      var j :| 0 <= j < |rows| && rows[j] == e;
      assert all[|log| + j] == e;
      assert forall i :: 0 <= i < |log| ==> all[i] == log[i] && log[i].id != e.id;
    }
  }

  lemma IdsOfConcat(log: seq<RawEvent>, rows: seq<RawEvent>)
    ensures IdsOf(log) <= IdsOf(log + rows)
  {
  }

  lemma RequestKeepsInv(s: State, step: Step)
    requires Inv(s) && IsIngest(step) && Enabled(s, step)
    ensures Inv(Apply(s, step))
  {
    var t, rows := Apply(s, step), AppendedRows(s.db, step);
    RequestAppends(s, step);
    IdsOfConcat(s.db.rawEvents, rows);
    assert forall e :: e in s.db.rawEvents ==> e in t.db.rawEvents;
    assert forall w :: w in t.workers ==> PhaseHolds(t.db.rawEvents, w.phase);
    UnmarkedRowsAddNothing(s.consumers, s.db.rawEvents, rows, s.db.markers);
  }

  /** Aggregating a committed batch keeps every rollup table the aggregate over the markers. */
  lemma CommitKeepsTable(consumers: seq<ConsumerId>, db: Db, c: ConsumerId, events: seq<RawEvent>, g: Granularity)
    requires Distinct(consumers) && c in consumers
    requires DistinctIds(db.rawEvents) && DistinctIds(events) && events != []
    requires forall e :: e in events ==> e in db.rawEvents
    requires db.rollups.At(g) == TableOf(g, LedgerEvents(consumers, db.rawEvents, db.markers))
    ensures var after := Committed(db, c, events);
            after.rollups.At(g) == TableOf(g, LedgerEvents(consumers, after.rawEvents, after.markers))
  {
    var ledger, added := LedgerEvents(consumers, db.rawEvents, db.markers), NewEvents(db.markers, c, events);
    var after := Committed(db, c, events);
    CommitAddsToLedger(consumers, db.rawEvents, db.markers, c, events);
    TableOfPermutation(g, LedgerEvents(consumers, after.rawEvents, after.markers), ledger + added);
    TableOfConcat(g, ledger, added);
    AddEventsAt(db.rollups, added, g);
  }

  lemma CommitKeepsLedger(consumers: seq<ConsumerId>, db: Db, c: ConsumerId, events: seq<RawEvent>)
    requires LedgerHolds(db, consumers) && Distinct(consumers) && c in consumers
    requires DistinctIds(db.rawEvents) && DistinctIds(events) && events != []
    requires forall e :: e in events ==> e in db.rawEvents
    ensures LedgerHolds(Committed(db, c, events), consumers)
  {
    var after := Committed(db, c, events);
    forall g
      ensures after.rollups.At(g) == TableOf(g, LedgerEvents(consumers, after.rawEvents, after.markers))
    {
      CommitKeepsTable(consumers, db, c, events, g);
    }
  }

  lemma CommitKeepsInv(s: State, w: nat)
    requires Inv(s) && Enabled(s, CommitBatch(w))
    ensures Inv(Apply(s, CommitBatch(w)))
  {
    assert s.workers[w] in s.workers;
    CommitReferences(s, w);
    CommitKeepsLedger(s.consumers, s.db, s.workers[w].consumerId, s.workers[w].phase.events);
  }

  lemma CommitReferences(s: State, w: nat)
    requires References(s) && Enabled(s, CommitBatch(w))
    ensures References(Apply(s, CommitBatch(w)))
  {
    var t := Apply(s, CommitBatch(w));
    var events := s.workers[w].phase.events;
    assert s.workers[w] in s.workers;
    assert events[|events| - 1] in events;
    WorkersAfter(s, t, w);
  }

  /** Changing one worker's phase keeps the others. */
  lemma WorkersAfter(s: State, t: State, w: nat)
    requires w < |s.workers| && |t.workers| == |s.workers| && t.workers == s.workers[w := t.workers[w]]
    ensures forall x :: x in t.workers ==> x in s.workers || x == t.workers[w]
  {
  }

  lemma PhaseChangeKeepsInv(s: State, w: nat, phase: Phase)
    requires Inv(s) && w < |s.workers| && PhaseHolds(s.db.rawEvents, phase)
    ensures Inv(SetPhase(s, w, phase))
  {
  }

  lemma CompactionKeepsInv(s: State, start: Instant)
    requires Inv(s) && IsDayStart(start)
    ensures Apply(s, CompactDay(start)) == s
  {
    assert s.db.rollups.At(Hour) == TableOf(Hour, LedgerOf(s));
    assert s.db.rollups.At(Day) == TableOf(Day, LedgerOf(s));
    CompactionOfAggregates(LedgerOf(s), s.db.rollups.hour, s.db.rollups.day, start);
  }

  /** Every step of every process keeps the ledger exact. */
  lemma StepKeepsInv(s: State, step: Step)
    requires Inv(s) && Enabled(s, step)
    ensures Inv(Apply(s, step))
  {
    match step
    case IngestOne(_, _, _, _) => RequestKeepsInv(s, step);
    case IngestMany(_, _, _, _) => RequestKeepsInv(s, step);
    case ReadOffset(w) => PhaseChangeKeepsInv(s, w, OffsetRead(CursorOf(s.db, s.workers[w].consumerId)));
    case FetchEvents(w, _, window) => PhaseChangeKeepsInv(s, w, if window == [] then Idle else Fetched(window));
    case CommitBatch(w) => CommitKeepsInv(s, w);
    case Publish(w, delivered) => PhaseChangeKeepsInv(s, w, Idle);
    case Crash(w) => PhaseChangeKeepsInv(s, w, Idle);
    case ResetOffset(_) =>
    case ExpireBoard(_) =>
    case CompactDay(start) => CompactionKeepsInv(s, start);
  }

  lemma {:induction false} RunKeepsInv(s: State, steps: seq<Step>)
    requires Inv(s) && CanRun(s, steps)
    ensures Inv(Run(s, steps))
    decreases |steps|
  {
    if steps != [] {
      RunKeepsInv(s, steps[..|steps| - 1]);
      StepKeepsInv(Run(s, steps[..|steps| - 1]), steps[|steps| - 1]);
    }
  }

  /** No worker is ever stuck: in every reachable state its next step can happen, for any batch size, and a crash can
      come instead, which leaves every table as it was. */
  lemma NoWorkerIsStuck(s: State, w: nat, limit: nat) returns (step: Step)
    requires Inv(s) && w < |s.workers|
    ensures Enabled(s, step)
    ensures match s.workers[w].phase
            case Idle => step == ReadOffset(w)
            case OffsetRead(_) => step.FetchEvents? && step.worker == w && step.limit == limit
            case Fetched(_) => step == CommitBatch(w)
            case Publishing(_) => step.Publish? && step.worker == w
    ensures Enabled(s, Crash(w)) && Apply(s, Crash(w)).db == s.db && Apply(s, Crash(w)).workers[w].phase == Idle
  {
    assert s.workers[w] in s.workers;
    match s.workers[w].phase
    case Idle => step := ReadOffset(w);
    case OffsetRead(after) =>
      WindowExists(s.db.rawEvents, after, limit);
      step := FetchEvents(w, limit, FirstRowsAfter(s.db.rawEvents, after, limit));
    case Fetched(_) => step := CommitBatch(w);
    case Publishing(_) => step := Publish(w, {});
  }
}
