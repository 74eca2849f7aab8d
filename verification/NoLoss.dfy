/** No event is lost behind a consumer's cursor: exactly when that holds, when it does not, and for how long. */
module NoLoss {
  import opened Calendar
  import opened Events
  import opened Database
  import opened EventRepositories
  import opened RollupWorkers
  import opened Windows
  import opened Ledger
  import opened Pipeline

  /** created_at of the row a cursor names. */
  function CreatedAt(log: seq<RawEvent>, id: EventId): Instant {
    var row := FindById(log, id);
    if row.Some? then row.value.createdAt else 0
  }

  /** A stored cursor names a row of the log. */
  predicate CursorNamesRow(db: Db, c: ConsumerId) {
    c in db.offsets ==> db.offsets[c].lastEventId in IdsOf(db.rawEvents)
  }

  /** Every visible event up to instant t is marked for the consumer or waits in the window. */
  predicate Covered(db: Db, consumerId: ConsumerId, t: Instant, window: seq<RawEvent>) {
    forall e :: e in db.rawEvents && e.createdAt <= t ==> e in window || Marker(consumerId, e.id) in db.markers
  }

  predicate CursorCovered(db: Db, consumerId: ConsumerId, after: Option<EventId>) {
    after.Some? ==> Covered(db, consumerId, CreatedAt(db.rawEvents, after.value), [])
  }

  predicate WorkerCovered(db: Db, w: Worker) {
    match w.phase
    case OffsetRead(after) => CursorCovered(db, w.consumerId, after)
    case Fetched(events) => events != [] ==> Covered(db, w.consumerId, LastOf(events).createdAt, events)
    case _ => true
  }

  /** For one consumer, nothing is lost behind its stored cursor, nor behind one that a batch of its own would store. */
  predicate NothingLostFor(s: State, c: ConsumerId) {
    && CursorCovered(s.db, c, CursorOf(s.db, c))
    && forall w :: w in s.workers && w.consumerId == c ==> WorkerCovered(s.db, w)
  }

  predicate NothingLost(s: State) {
    forall c :: c in s.consumers ==> NothingLostFor(s, c)
  }

  // ----- The condition -----

  /** Instant t lies beyond the consumer's stored cursor and beyond every cursor and window its workers hold. */
  predicate BeyondHorizons(s: State, c: ConsumerId, t: Instant) {
    && BeyondCursor(s.db.rawEvents, CursorOf(s.db, c), t)
    && forall w :: w in s.workers && w.consumerId == c ==> BeyondWorker(s.db.rawEvents, w, t)
  }

  predicate BeyondCursor(log: seq<RawEvent>, after: Option<EventId>, t: Instant) {
    after.Some? ==> CreatedAt(log, after.value) < t
  }

  predicate BeyondWorker(log: seq<RawEvent>, w: Worker, t: Instant) {
    match w.phase
    case OffsetRead(after) => BeyondCursor(log, after, t)
    case Fetched(events) => events != [] ==> LastOf(events).createdAt < t
    case _ => true
  }

  /** The window cuts off no row that the consumer has yet to mark. */
  predicate CutsNoTie(db: Db, c: ConsumerId, after: Option<EventId>, window: seq<RawEvent>) {
    forall e :: e in db.rawEvents && CutsOff(db.rawEvents, after, window, e) ==> Marker(c, e.id) in db.markers
  }

  /** What must hold of the step: rows that it appends come after every horizon of the consumer, a window that a worker
      of the consumer fetches cuts off no unmarked row. */
  ghost predicate Harmless(s: State, step: Step, c: ConsumerId)
    requires Enabled(s, step)
  {
    match step
    case IngestOne(_, _, _, createdAt) => AppendedRows(s.db, step) != [] ==> BeyondHorizons(s, c, createdAt)
    case IngestMany(_, _, _, createdAt) => AppendedRows(s.db, step) != [] ==> BeyondHorizons(s, c, createdAt)
    case FetchEvents(w, _, window) =>
      s.workers[w].consumerId == c ==> CutsNoTie(s.db, c, s.workers[w].phase.after, window)
    case _ => true
  }

  // ----- It is exact -----

  lemma CreatedAtStable(log: seq<RawEvent>, rows: seq<RawEvent>, id: EventId)
    requires DistinctIds(log + rows) && id in IdsOf(log)
    ensures CreatedAt(log + rows, id) == CreatedAt(log, id)
  {
    FindByIdRow(log, id);
    var e := FindById(log, id).value;
    assert e in log + rows;
    FindByIdFindsRow(log + rows, e);
  }

  /** New unmarked rows leave a time covered exactly when they come after it. */
  lemma CoveredAfterAppend(db: Db, after: Db, rows: seq<RawEvent>, t: Instant, createdAt: Instant,
                           consumerId: ConsumerId, window: seq<RawEvent>)
    requires after.rawEvents == db.rawEvents + rows && after.markers == db.markers && rows != []
    requires forall e :: e in rows ==> e.createdAt == createdAt && e.id !in IdsOf(db.rawEvents)
    requires forall m :: m in db.markers ==> m.eventId in IdsOf(db.rawEvents)
    requires forall e :: e in window ==> e in db.rawEvents
    requires Covered(db, consumerId, t, window)
    ensures Covered(after, consumerId, t, window) <==> t < createdAt
  {
    var e := rows[0];
    assert e in rows && e in after.rawEvents;
    assert forall x :: x in window ==> x.id in IdsOf(db.rawEvents);
    assert e !in window && Marker(consumerId, e.id) !in after.markers;
  }

  lemma RequestExact(s: State, step: Step, c: ConsumerId)
    requires Inv(s) && NothingLostFor(s, c) && IsIngest(step) && Enabled(s, step)
    ensures NothingLostFor(Apply(s, step), c) <==> Harmless(s, step, c)
  {
    var t := Apply(s, step);
    RequestAppends(s, step);
    if AppendedRows(s.db, step) == [] {
      assert s.db.rawEvents + [] == s.db.rawEvents;
      SameCoverage(s, t, c);
    } else {
      CursorAfterAppend(s.db, t.db, AppendedRows(s.db, step), step.createdAt, c);
      forall w | w in s.workers && w.consumerId == c
        ensures WorkerCovered(t.db, w) <==> BeyondWorker(s.db.rawEvents, w, step.createdAt)
      {
        WorkerAfterAppend(s.db, t.db, AppendedRows(s.db, step), step.createdAt, w);
      }
      AllCovered(s, t, step.createdAt, c);
    }
  }

  lemma SameCoverage(s: State, t: State, c: ConsumerId)
    requires t.workers == s.workers && CursorOf(t.db, c) == CursorOf(s.db, c)
    requires t.db.rawEvents == s.db.rawEvents && t.db.markers == s.db.markers
    ensures NothingLostFor(t, c) <==> NothingLostFor(s, c)
  {
    assert forall d, at, window :: Covered(t.db, d, at, window) <==> Covered(s.db, d, at, window);
  }

  lemma AllCovered(s: State, t: State, createdAt: Instant, c: ConsumerId)
    requires t.workers == s.workers
    requires CursorCovered(t.db, c, CursorOf(t.db, c)) <==> BeyondCursor(s.db.rawEvents, CursorOf(s.db, c), createdAt)
    requires forall w :: w in s.workers && w.consumerId == c ==>
               (WorkerCovered(t.db, w) <==> BeyondWorker(s.db.rawEvents, w, createdAt))
    ensures NothingLostFor(t, c) <==> BeyondHorizons(s, c, createdAt)
  {
  }

  lemma CursorAfterAppend(db: Db, after: Db, rows: seq<RawEvent>, createdAt: Instant, c: ConsumerId)
    requires Appends(db, after, rows, createdAt) && rows != []
    requires forall m :: m in db.markers ==> m.eventId in IdsOf(db.rawEvents)
    requires CursorNamesRow(db, c)
    requires CursorCovered(db, c, CursorOf(db, c))
    ensures CursorCovered(after, c, CursorOf(after, c)) <==> BeyondCursor(db.rawEvents, CursorOf(db, c), createdAt)
  {
    if c in db.offsets {
      var log, id := db.rawEvents, db.offsets[c].lastEventId;
      CreatedAtStable(log, rows, id);
      CoveredAfterAppend(db, after, rows, CreatedAt(log, id), createdAt, c, []);
    }
  }

  lemma WorkerAfterAppend(db: Db, after: Db, rows: seq<RawEvent>, createdAt: Instant, w: Worker)
    requires Appends(db, after, rows, createdAt) && rows != []
    requires forall m :: m in db.markers ==> m.eventId in IdsOf(db.rawEvents)
    requires PhaseHolds(db.rawEvents, w.phase) && WorkerCovered(db, w)
    ensures WorkerCovered(after, w) <==> BeyondWorker(db.rawEvents, w, createdAt)
  {
    match w.phase
    case OffsetRead(from) =>
      if from.Some? {
        CreatedAtStable(db.rawEvents, rows, from.value);
        CoveredAfterAppend(db, after, rows, CreatedAt(db.rawEvents, from.value), createdAt, w.consumerId, []);
      }
    case Fetched(events) =>
      CoveredAfterAppend(db, after, rows, LastOf(events).createdAt, createdAt, w.consumerId, events);
    case _ =>
  }

  lemma FetchExact(s: State, w: nat, limit: nat, window: seq<RawEvent>)
    requires Inv(s) && Enabled(s, FetchEvents(w, limit, window))
    requires NothingLostFor(s, s.workers[w].consumerId)
    ensures NothingLostFor(Apply(s, FetchEvents(w, limit, window)), s.workers[w].consumerId)
       <==> CutsNoTie(s.db, s.workers[w].consumerId, s.workers[w].phase.after, window)
  {
    var t, me := Apply(s, FetchEvents(w, limit, window)), s.workers[w];
    assert me in s.workers && WorkerCovered(s.db, me);
    OthersCovered(s, t, w, me.consumerId);
    if window != [] {
      FetchedCovered(s.db, me, window);
    }
  }

  /** A changed phase matters only to the consumer of the worker that changed. */
  lemma OthersCovered(s: State, t: State, w: nat, c: ConsumerId)
    requires NothingLostFor(s, c) && w < |s.workers| && |t.workers| == |s.workers|
    requires t.workers == s.workers[w := t.workers[w]] && t.db == s.db
    requires t.workers[w].consumerId == s.workers[w].consumerId
    ensures NothingLostFor(t, c) <==> s.workers[w].consumerId != c || WorkerCovered(s.db, t.workers[w])
  {
  }

  lemma FetchedCovered(db: Db, me: Worker, window: seq<RawEvent>)
    requires me.phase.OffsetRead? && PhaseHolds(db.rawEvents, me.phase) && WorkerCovered(db, me) && window != []
    ensures Covered(db, me.consumerId, LastOf(window).createdAt, window)
       <==> CutsNoTie(db, me.consumerId, me.phase.after, window)
  {
    var log, after := db.rawEvents, me.phase.after;
    if after.Some? {
      FindByIdRow(log, after.value);
      assert FindById(log, after.value).Some?;
      assert forall e :: e in log && !IsAfter(log, after, e) ==> Marker(me.consumerId, e.id) in db.markers;
    }
  }

  lemma CommitLosesNothing(s: State, w: nat, c: ConsumerId)
    requires Inv(s) && NothingLostFor(s, c) && Enabled(s, CommitBatch(w))
    ensures NothingLostFor(Apply(s, CommitBatch(w)), c)
  {
    var t := Apply(s, CommitBatch(w));
    var me, events := s.workers[w], s.workers[w].phase.events;
    assert me in s.workers;
    if me.consumerId == c {
      assert WorkerCovered(s.db, me);
      CommittedCovers(s.db, c, events);
    }
    WorkersAfter(s, t, w);
    MoreMarkersCover(s.db, t.db, c);
  }

  /** Marking more rows uncovers nothing. */
  lemma MoreMarkersCover(db: Db, after: Db, c: ConsumerId)
    requires after.rawEvents == db.rawEvents && db.markers <= after.markers
    ensures forall at, window :: Covered(db, c, at, window) ==> Covered(after, c, at, window)
  {
  }

  /** Committing a covered window covers its cursor. */
  lemma CommittedCovers(db: Db, c: ConsumerId, events: seq<RawEvent>)
    requires DistinctIds(db.rawEvents) && events != [] && forall e :: e in events ==> e in db.rawEvents
    requires Covered(db, c, LastOf(events).createdAt, events)
    ensures CursorCovered(Committed(db, c, events), c, CursorOf(Committed(db, c, events), c))
  {
    assert LastOf(events) in events;
    FindByIdFindsRow(db.rawEvents, LastOf(events));
    assert forall e :: e in events ==> Marker(c, e.id) in MarkersFor(c, events);
  }

  /** A step keeps every visible event safe for a consumer exactly when it is harmless for it. */
  lemma NothingLostIff(s: State, step: Step, c: ConsumerId)
    requires Inv(s) && NothingLostFor(s, c) && Enabled(s, step)
    ensures NothingLostFor(Apply(s, step), c) <==> Harmless(s, step, c)
  {
    match step
    case IngestOne(_, _, _, _) => RequestExact(s, step, c);
    case IngestMany(_, _, _, _) => RequestExact(s, step, c);
    case FetchEvents(w, limit, window) =>
      if s.workers[w].consumerId == c {
        FetchExact(s, w, limit, window);
      } else {
        OthersCovered(s, Apply(s, step), w, c);
      }
    case CommitBatch(w) => CommitLosesNothing(s, w, c);
    case ReadOffset(w) => OthersCovered(s, Apply(s, step), w, c);
    case Publish(w, _) => OthersCovered(s, Apply(s, step), w, c);
    case Crash(w) => OthersCovered(s, Apply(s, step), w, c);
    case ResetOffset(d) => ResetLosesNothing(s, d, c);
    case ExpireBoard(_) =>
    case CompactDay(start) => CompactionKeepsInv(s, start);
  }

  lemma ResetLosesNothing(s: State, d: ConsumerId, c: ConsumerId)
    requires CursorCovered(s.db, c, CursorOf(s.db, c)) || d == c
    requires forall w :: w in s.workers && w.consumerId == c ==> WorkerCovered(s.db, w)
    ensures NothingLostFor(Apply(s, ResetOffset(d)), c)
  {
    MoreMarkersCover(s.db, Apply(s, ResetOffset(d)).db, c);
  }

  // ----- The condition, before the query answers -----

  /** The limit cuts no group of equal created_at with a row beyond it that the consumer has yet to mark. */
  predicate LimitCutsNoTie(db: Db, c: ConsumerId, after: Option<EventId>, limit: nat) {
    forall e :: e in db.rawEvents && MayCutOff(db.rawEvents, after, limit, e) ==> Marker(c, e.id) in db.markers
  }

  /** Two steps that make the same call: a fetch may be answered with different windows. */
  ghost predicate SameCall(step: Step, other: Step) {
    if step.FetchEvents? then other.FetchEvents? && other.worker == step.worker && other.limit == step.limit
    else other == step
  }

  /** What can be checked before the call. */
  ghost predicate HarmlessCall(s: State, step: Step, c: ConsumerId)
    requires Enabled(s, step)
  {
    match step
    case FetchEvents(w, limit, _) =>
      s.workers[w].consumerId == c ==> LimitCutsNoTie(s.db, c, s.workers[w].phase.after, limit)
    case _ => Harmless(s, step, c)
  }

  /** Whatever the database answers, a call keeps every visible event safe for a consumer, exactly when the log, the
      cursor, the limit and the markers before it say so. */
  lemma CallIsSafeIff(s: State, step: Step, c: ConsumerId)
    requires Inv(s) && NothingLostFor(s, c) && Enabled(s, step)
    ensures (forall other :: SameCall(step, other) && Enabled(s, other) ==> NothingLostFor(Apply(s, other), c))
       <==> HarmlessCall(s, step, c)
  {
    forall other | SameCall(step, other) && Enabled(s, other)
      ensures NothingLostFor(Apply(s, other), c) <==> Harmless(s, other, c)
    {
      NothingLostIff(s, other, c);
    }
    if step.FetchEvents? && s.workers[step.worker].consumerId == c {
      EveryAnswerIsSafeIff(s.db, c, s.workers[step.worker].phase.after, step.limit);
      forall window
        ensures Enabled(s, FetchEvents(step.worker, step.limit, window))
           <==> IsWindow(s.db.rawEvents, s.workers[step.worker].phase.after, step.limit, window)
        ensures SameCall(step, FetchEvents(step.worker, step.limit, window))
      {
      }
    }
  }

  lemma EveryAnswerIsSafeIff(db: Db, c: ConsumerId, after: Option<EventId>, limit: nat)
    requires DistinctIds(db.rawEvents)
    ensures (forall w :: IsWindow(db.rawEvents, after, limit, w) ==> CutsNoTie(db, c, after, w))
       <==> LimitCutsNoTie(db, c, after, limit)
  {
    forall e
      ensures (forall w :: IsWindow(db.rawEvents, after, limit, w) ==> !CutsOff(db.rawEvents, after, w, e))
         <==> !MayCutOff(db.rawEvents, after, limit, e)
    {
      NoWindowCutsOffIff(db.rawEvents, after, limit, e);
    }
  }

  // ----- Runs -----

  ghost predicate HarmlessRun(s: State, steps: seq<Step>, c: ConsumerId)
    requires CanRun(s, steps)
    decreases |steps|
  {
    steps != [] ==>
      && HarmlessRun(s, steps[..|steps| - 1], c)
      && Harmless(Run(s, steps[..|steps| - 1]), steps[|steps| - 1], c)
  }

  lemma {:induction false} HarmlessRunLosesNothing(s: State, steps: seq<Step>, c: ConsumerId)
    requires Inv(s) && NothingLostFor(s, c) && CanRun(s, steps) && HarmlessRun(s, steps, c)
    ensures NothingLostFor(Run(s, steps), c)
    decreases |steps|
  {
    if steps != [] {
      var init, last := steps[..|steps| - 1], steps[|steps| - 1];
      HarmlessRunLosesNothing(s, init, c);
      RunKeepsInv(s, init);
      NothingLostIff(Run(s, init), last, c);
    }
  }

  // ----- In-order visibility is enough -----

  /** New rows become visible in increasing created_at, and no fetch cuts a group of equal created_at with an unmarked
      row left out. */
  ghost predicate InOrderStep(s: State, step: Step)
    requires Enabled(s, step)
  {
    match step
    case IngestOne(_, _, _, createdAt) => AppendedRows(s.db, step) != [] ==> AllBefore(s.db.rawEvents, createdAt)
    case IngestMany(_, _, _, createdAt) => AppendedRows(s.db, step) != [] ==> AllBefore(s.db.rawEvents, createdAt)
    case FetchEvents(w, _, window) => CutsNoTie(s.db, s.workers[w].consumerId, s.workers[w].phase.after, window)
    case _ => true
  }

  predicate AllBefore(log: seq<RawEvent>, t: Instant) {
    forall e :: e in log ==> e.createdAt < t
  }

  lemma InOrderIsHarmless(s: State, step: Step, c: ConsumerId)
    requires Inv(s) && Enabled(s, step) && InOrderStep(s, step)
    ensures Harmless(s, step, c)
  {
    if IsIngest(step) && AppendedRows(s.db, step) != [] {
      forall id | id in IdsOf(s.db.rawEvents)
        ensures CreatedAt(s.db.rawEvents, id) < step.createdAt
      {
        FindByIdRow(s.db.rawEvents, id);
      }
      assert forall w :: w in s.workers && w.phase.Fetched? ==> LastOf(w.phase.events) in w.phase.events;
    }
  }

  ghost predicate InOrderRun(s: State, steps: seq<Step>)
    requires CanRun(s, steps)
    decreases |steps|
  {
    steps != [] ==>
      && InOrderRun(s, steps[..|steps| - 1])
      && InOrderStep(Run(s, steps[..|steps| - 1]), steps[|steps| - 1])
  }

  lemma {:induction false} InOrderRunIsHarmless(s: State, steps: seq<Step>, c: ConsumerId)
    requires Inv(s) && CanRun(s, steps) && InOrderRun(s, steps)
    ensures HarmlessRun(s, steps, c)
    decreases |steps|
  {
    if steps != [] {
      var init, last := steps[..|steps| - 1], steps[|steps| - 1];
      InOrderRunIsHarmless(s, init, c);
      RunKeepsInv(s, init);
      InOrderIsHarmless(Run(s, init), last, c);
    }
  }

  lemma InOrderRunLosesNothing(s: State, steps: seq<Step>, c: ConsumerId)
    requires Inv(s) && NothingLostFor(s, c) && CanRun(s, steps) && InOrderRun(s, steps)
    ensures NothingLostFor(Run(s, steps), c)
  {
    InOrderRunIsHarmless(s, steps, c);
    HarmlessRunLosesNothing(s, steps, c);
  }

  /** The cursor query of an idle consumer would return nothing. */
  predicate Drained(db: Db, c: ConsumerId) {
    Remaining(db.rawEvents, CursorOf(db, c)) == {}
  }

  lemma DrainedIsAllMarked(db: Db, c: ConsumerId)
    requires Drained(db, c) && CursorCovered(db, c, CursorOf(db, c))
    requires CursorNamesRow(db, c)
    ensures AllMarked(db.rawEvents, db.markers, c)
  {
    forall e | e in db.rawEvents
      ensures Marker(c, e.id) in db.markers
    {
      assert e !in Remaining(db.rawEvents, CursorOf(db, c));
      if c in db.offsets {
        FindByIdRow(db.rawEvents, db.offsets[c].lastEventId);
      }
    }
  }

  // ----- A lost event stays lost until the offset is reset -----

  predicate SkippedByWorker(log: seq<RawEvent>, w: Worker, e: RawEvent) {
    match w.phase
    case OffsetRead(after) => after.Some? && after.value in IdsOf(log) && e.createdAt <= CreatedAt(log, after.value)
    case Fetched(events) =>
      events != [] && e !in events && LastOf(events) in log && e.createdAt <= LastOf(events).createdAt
    case _ => true
  }

  /** e is unmarked although the consumer's cursor, and every batch it has in flight, is already past it. */
  predicate Skipped(s: State, consumerId: ConsumerId, e: RawEvent) {
    && e in s.db.rawEvents
    && Marker(consumerId, e.id) !in s.db.markers
    && consumerId in s.db.offsets
    && s.db.offsets[consumerId].lastEventId in IdsOf(s.db.rawEvents)
    && e.createdAt <= CreatedAt(s.db.rawEvents, s.db.offsets[consumerId].lastEventId)
    && forall w :: w in s.workers && w.consumerId == consumerId ==> SkippedByWorker(s.db.rawEvents, w, e)
  }

  predicate NoBatchInFlight(s: State, c: ConsumerId) {
    forall w :: w in s.workers && w.consumerId == c ==> w.phase.Idle? || w.phase.Publishing?
  }

  /** Once a consumer is drained and has no batch in flight, its unmarked events are exactly the lost ones. */
  lemma UnmarkedIsSkipped(s: State, c: ConsumerId, e: RawEvent)
    requires Inv(s) && Drained(s.db, c) && NoBatchInFlight(s, c) && e in s.db.rawEvents
    ensures Marker(c, e.id) !in s.db.markers <==> Skipped(s, c, e)
  {
    assert e !in Remaining(s.db.rawEvents, CursorOf(s.db, c));
    if c in s.db.offsets {
      FindByIdRow(s.db.rawEvents, s.db.offsets[c].lastEventId);
    }
  }

  lemma SkippedAfterRequest(s: State, step: Step, consumerId: ConsumerId, e: RawEvent)
    requires Inv(s) && IsIngest(step) && Enabled(s, step) && Skipped(s, consumerId, e)
    ensures Skipped(Apply(s, step), consumerId, e)
  {
    var t, rows, log := Apply(s, step), AppendedRows(s.db, step), s.db.rawEvents;
    RequestAppends(s, step);
    IdsOfConcat(log, rows);
    CreatedAtStable(log, rows, s.db.offsets[consumerId].lastEventId);
    forall w | w in s.workers && w.consumerId == consumerId
      ensures SkippedByWorker(t.db.rawEvents, w, e)
    {
      if w.phase.OffsetRead? {
        CreatedAtStable(log, rows, w.phase.after.value);
      }
    }
  }

  lemma SkippedAfterPhase(s: State, t: State, w: nat, consumerId: ConsumerId, e: RawEvent)
    requires Skipped(s, consumerId, e) && w < |s.workers| && |t.workers| == |s.workers|
    requires t.db == s.db && t.workers == s.workers[w := t.workers[w]]
    requires t.workers[w].consumerId == s.workers[w].consumerId
    requires t.workers[w].consumerId == consumerId ==> SkippedByWorker(s.db.rawEvents, t.workers[w], e)
    ensures Skipped(t, consumerId, e)
  {
  }

  lemma SkippedAfterFetch(s: State, w: nat, limit: nat, window: seq<RawEvent>, consumerId: ConsumerId, e: RawEvent)
    requires Inv(s) && Enabled(s, FetchEvents(w, limit, window)) && Skipped(s, consumerId, e)
    ensures Skipped(Apply(s, FetchEvents(w, limit, window)), consumerId, e)
  {
    var me, log := s.workers[w], s.db.rawEvents;
    assert me in s.workers;
    if me.consumerId == consumerId && window != [] {
      assert LastOf(window) in window;
      FindByIdRow(log, me.phase.after.value);
      assert !IsAfter(log, me.phase.after, e);
    }
    SkippedAfterPhase(s, Apply(s, FetchEvents(w, limit, window)), w, consumerId, e);
  }

  lemma SkippedAfterCommit(s: State, w: nat, consumerId: ConsumerId, e: RawEvent)
    requires Inv(s) && Enabled(s, CommitBatch(w)) && Skipped(s, consumerId, e)
    ensures Skipped(Apply(s, CommitBatch(w)), consumerId, e)
  {
    var t := Apply(s, CommitBatch(w));
    var me, events := s.workers[w], s.workers[w].phase.events;
    assert me in s.workers;
    WorkersAfter(s, t, w);
    if me.consumerId == consumerId {
      assert LastOf(events) in events;
      FindByIdFindsRow(s.db.rawEvents, LastOf(events));
      assert Marker(consumerId, e.id) !in MarkersFor(consumerId, events) by {
        if Marker(consumerId, e.id) in MarkersFor(consumerId, events) {
          var x :| x in events && x.id == e.id;
          FindByIdFindsRow(s.db.rawEvents, x);
          FindByIdFindsRow(s.db.rawEvents, e);
        }
      }
    }
  }

  /** No step but a reset of the consumer's offset ever brings a skipped event back. */
  lemma SkippedStaysSkipped(s: State, step: Step, consumerId: ConsumerId, e: RawEvent)
    requires Inv(s) && Enabled(s, step) && Skipped(s, consumerId, e)
    requires step != ResetOffset(consumerId)
    ensures Skipped(Apply(s, step), consumerId, e)
  {
    match step
    case IngestOne(_, _, _, _) => SkippedAfterRequest(s, step, consumerId, e);
    case IngestMany(_, _, _, _) => SkippedAfterRequest(s, step, consumerId, e);
    case ReadOffset(w) => SkippedAfterPhase(s, Apply(s, step), w, consumerId, e);
    case FetchEvents(w, limit, window) => SkippedAfterFetch(s, w, limit, window, consumerId, e);
    case CommitBatch(w) => SkippedAfterCommit(s, w, consumerId, e);
    case Publish(w, _) => SkippedAfterPhase(s, Apply(s, step), w, consumerId, e);
    case Crash(w) => SkippedAfterPhase(s, Apply(s, step), w, consumerId, e);
    case ResetOffset(_) =>
    case ExpireBoard(_) =>
    case CompactDay(start) => CompactionKeepsInv(s, start);
  }

  lemma {:induction false} LostForever(s: State, steps: seq<Step>, consumerId: ConsumerId, e: RawEvent)
    requires Inv(s) && CanRun(s, steps) && Skipped(s, consumerId, e)
    requires forall i :: 0 <= i < |steps| ==> steps[i] != ResetOffset(consumerId)
    ensures Skipped(Run(s, steps), consumerId, e)
    decreases |steps|
  {
    if steps != [] {
      var init := steps[..|steps| - 1];
      LostForever(s, init, consumerId, e);
      RunKeepsInv(s, init);
      SkippedStaysSkipped(Run(s, init), steps[|steps| - 1], consumerId, e);
    }
  }

  /** What a reset gives back: if no batch of the consumer in flight is past an unmarked row, and what follows is
      harmless for the consumer and drains it, every event visible at the reset ends up marked, the skipped ones among
      them. */
  lemma ResetRestores(s: State, c: ConsumerId, steps: seq<Step>, e: RawEvent)
    requires Inv(s) && e in s.db.rawEvents
    requires forall w :: w in s.workers && w.consumerId == c ==> WorkerCovered(s.db, w)
    requires CanRun(Apply(s, ResetOffset(c)), steps) && HarmlessRun(Apply(s, ResetOffset(c)), steps, c)
    requires Drained(Run(Apply(s, ResetOffset(c)), steps).db, c)
    ensures Marker(c, e.id) in Run(Apply(s, ResetOffset(c)), steps).db.markers
  {
    var t := Apply(s, ResetOffset(c));
    StepKeepsInv(s, ResetOffset(c));
    ResetLosesNothing(s, c, c);
    HarmlessRunLosesNothing(t, steps, c);
    RunKeepsInv(t, steps);
    DrainedIsAllMarked(Run(t, steps).db, c);
    RowsStay(t, steps, e);
  }

  lemma {:induction false} RowsStay(s: State, steps: seq<Step>, e: RawEvent)
    requires Inv(s) && CanRun(s, steps) && e in s.db.rawEvents
    ensures e in Run(s, steps).db.rawEvents
    decreases |steps|
  {
    if steps != [] {
      var init, last := steps[..|steps| - 1], steps[|steps| - 1];
      RowsStay(s, init, e);
      RunKeepsInv(s, init);
      RowsStayInStep(Run(s, init), last, e);
    }
  }

  lemma RowsStayInStep(s: State, step: Step, e: RawEvent)
    requires Inv(s) && Enabled(s, step) && e in s.db.rawEvents
    ensures e in Apply(s, step).db.rawEvents
  {
    if IsIngest(step) {
      RequestAppends(s, step);
    }
  }
}
