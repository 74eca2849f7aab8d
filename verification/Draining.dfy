/** Draining a consumer: every batch makes progress, the loop ends with nothing left, a replay ends where it began. */
module Draining {
  import opened Events
  import opened FiniteSets
  import opened RollupAlgebra
  import opened Database
  import opened EventRepositories
  import opened RollupWorkers
  import opened Windows
  import opened Ledger
  import opened Pipeline
  import opened NoLoss

  /** No two rows share created_at. */
  predicate DistinctTimes(log: seq<RawEvent>) {
    forall e, f :: e in log && f in log && e.createdAt == f.createdAt ==> e == f
  }

  /** A batch comes back empty exactly when the consumer is drained. */
  lemma EmptyIffDrained(log: seq<RawEvent>, after: Option<EventId>, limit: nat, w: seq<RawEvent>)
    requires IsWindow(log, after, limit, w) && limit >= 1
    ensures w == [] <==> Remaining(log, after) == {}
  {
    if w == [] {
      forall e
        ensures e !in Remaining(log, after)
      {
      }
    } else {
      assert w[0] in w && w[0] in Remaining(log, after);
    }
  }

  /** Moving the cursor to the last row of a window leaves out at least the whole window... */
  lemma BatchProgress(log: seq<RawEvent>, after: Option<EventId>, limit: nat, w: seq<RawEvent>)
    requires DistinctIds(log) && IsWindow(log, after, limit, w) && w != []
    ensures Remaining(log, Some(LastOf(w).id)) <= Remaining(log, after) - EventsIn(w)
    ensures |Remaining(log, Some(LastOf(w).id))| + |w| <= |Remaining(log, after)|
  {
    var rest, all := Remaining(log, Some(LastOf(w).id)), Remaining(log, after);
    assert LastOf(w) in w;
    FindByIdFindsRow(log, LastOf(w));
    forall e | e in rest
      ensures e in all && e !in w
    {
      if e in w {
        WindowUpToLast(log, after, limit, w, e);
      }
    }
    AsManyEvents(w);
    Fewer(rest, all - EventsIn(w));
    assert EventsIn(w) <= all;
  }

  /** ... and exactly the window when no two rows share created_at. */
  lemma BatchLeavesTheRest(log: seq<RawEvent>, after: Option<EventId>, limit: nat, w: seq<RawEvent>)
    requires DistinctIds(log) && DistinctTimes(log) && IsWindow(log, after, limit, w) && w != []
    ensures Remaining(log, Some(LastOf(w).id)) == Remaining(log, after) - EventsIn(w)
  {
    var rest, all := Remaining(log, Some(LastOf(w).id)), Remaining(log, after);
    BatchProgress(log, after, limit, w);
    assert LastOf(w) in w;
    FindByIdFindsRow(log, LastOf(w));
    forall e | e in all - EventsIn(w)
      ensures e in rest
    {
      assert InOrder(after, w[|w| - 1], e);
    }
  }

  lemma BatchTakesItsShare(log: seq<RawEvent>, after: Option<EventId>, limit: nat, w: seq<RawEvent>)
    requires DistinctIds(log) && DistinctTimes(log) && IsWindow(log, after, limit, w) && w != []
    ensures |w| == Min(limit, |Remaining(log, after)|)
    ensures |Remaining(log, Some(LastOf(w).id))| == |Remaining(log, after)| - |w|
  {
    var all := Remaining(log, after);
    BatchLeavesTheRest(log, after, limit, w);
    AsManyEvents(w);
    assert EventsIn(w) <= all;
    Fewer(EventsIn(w), all);
    if |w| < limit {
      assert all == EventsIn(w);
    }
  }

  /** How many batches of at most `limit` it takes to deliver n rows. */
  function BatchesFor(n: nat, limit: nat): nat
    requires limit >= 1
  {
    if n == 0 then 0 else 1 + BatchesFor(n - Min(limit, n), limit)
  }

  lemma {:induction false} BatchesSuffice(n: nat, limit: nat)
    requires limit >= 1
    ensures n <= BatchesFor(n, limit) * limit < n + limit
  {
    if n != 0 {
      var rest := n - Min(limit, n);
      BatchesSuffice(rest, limit);
      assert (1 + BatchesFor(rest, limit)) * limit == limit + BatchesFor(rest, limit) * limit;
      if n <= limit {
        assert BatchesFor(rest, limit) * limit == 0;
      }
    }
  }

  lemma BatchesRoundUp(n: nat, limit: nat)
    requires limit >= 1
    ensures BatchesFor(n, limit) == (n + limit - 1) / limit
  {
    BatchesSuffice(n, limit);
    Quotient(n + limit - 1, limit, BatchesFor(n, limit));
  }

  lemma Quotient(x: int, d: int, q: int)
    requires d > 0 && q * d <= x < q * d + d
    ensures x / d == q
  {
    var r := x / d;
    assert r * d <= x < r * d + d;
    MultiplesApart(r, q, d);
    MultiplesApart(q, r, d);
  }

  lemma MultiplesApart(q: int, r: int, d: int)
    requires d > 0
    ensures q < r ==> q * d + d <= r * d
    decreases r - q
  {
    if q < r {
      MultiplesApart(q, r - 1, d);
      assert r * d == (r - 1) * d + d;
    }
  }

  // ----- The loop -----

  /** Wherever the cursor stands, no window of this limit can cut off a row that the consumer has yet to mark. */
  ghost predicate NeverCuts(db: Db, c: ConsumerId, limit: nat) {
    forall after :: LimitCutsNoTie(db, c, after, limit)
  }

  /** Distinct created_at are enough. */
  lemma DistinctTimesNeverCut(db: Db, c: ConsumerId, limit: nat)
    requires DistinctTimes(db.rawEvents)
    ensures NeverCuts(db, c, limit)
  {
    forall after, e | e in db.rawEvents && IsAfter(db.rawEvents, after, e)
      ensures !MayCutOff(db.rawEvents, after, limit, e)
    {
      var log := db.rawEvents;
      assert RowsUpTo(log, after, e) == RowsBefore(log, after, e) + {e};
    }
  }

  lemma CommitKeepsCovered(db: Db, c: ConsumerId, limit: nat, events: seq<RawEvent>)
    requires DistinctIds(db.rawEvents) && events != [] && LimitCutsNoTie(db, c, CursorOf(db, c), limit)
    requires CursorNamesRow(db, c)
    requires IsWindow(db.rawEvents, CursorOf(db, c), limit, events) && CursorCovered(db, c, CursorOf(db, c))
    ensures CursorCovered(Committed(db, c, events), c, CursorOf(Committed(db, c, events), c))
  {
    EveryAnswerIsSafeIff(db, c, CursorOf(db, c), limit);
    FetchedCovered(db, Worker(c, OffsetRead(CursorOf(db, c))), events);
    CommittedCovers(db, c, events);
  }

  lemma CommitOfMarked(db: Db, c: ConsumerId, events: seq<RawEvent>)
    requires AllMarked(db.rawEvents, db.markers, c) && events != [] && forall e :: e in events ==> e in db.rawEvents
    ensures Committed(db, c, events) == db.(offsets := Committed(db, c, events).offsets)
  {
    NoneAreNew(db.markers, c, events);
    RollupRepositories.AddNoEvents(db.rollups);
    assert MarkersFor(c, events) <= db.markers;
  }

  /** How much of the work the loop has done after some batches. */
  ghost predicate Counted(start: Db, db: Db, c: ConsumerId, limit: nat, batches: nat)
    requires limit >= 1
  {
    var pending, left := |Remaining(start.rawEvents, CursorOf(start, c))|, |Remaining(db.rawEvents, CursorOf(db, c))|;
    && batches + left <= pending
    && (DistinctTimes(start.rawEvents) ==> batches + BatchesFor(left, limit) == BatchesFor(pending, limit))
  }

  /** What has stayed between the start of the loop and now. */
  ghost predicate Kept(start: Db, db: Db, consumers: seq<ConsumerId>, c: ConsumerId, limit: nat) {
    && db == start.(markers := db.markers, offsets := db.offsets, rollups := db.rollups)
    && db.offsets - {c} == start.offsets - {c}
    && start.markers <= db.markers
    && CursorNamesRow(db, c)
    && LedgerHolds(db, consumers)
    && (CursorCovered(start, c, CursorOf(start, c)) && NeverCuts(start, c, limit) ==>
          CursorCovered(db, c, CursorOf(db, c)))
    && (AllMarked(start.rawEvents, start.markers, c) ==> db == start.(offsets := db.offsets))
  }

  lemma CountOneMore(start: Db, db: Db, c: ConsumerId, limit: nat, batches: nat, events: seq<RawEvent>)
    requires limit >= 1 && DistinctIds(db.rawEvents) && db.rawEvents == start.rawEvents
    requires Counted(start, db, c, limit, batches)
    requires IsWindow(db.rawEvents, CursorOf(db, c), limit, events) && events != []
    ensures Counted(start, Committed(db, c, events), c, limit, batches + 1)
    ensures |Remaining(db.rawEvents, CursorOf(Committed(db, c, events), c))|
          < |Remaining(db.rawEvents, CursorOf(db, c))|
  {
    var log, after := db.rawEvents, CursorOf(db, c);
    assert CursorOf(Committed(db, c, events), c) == Some(LastOf(events).id);
    BatchProgress(log, after, limit, events);
    if DistinctTimes(log) {
      BatchTakesItsShare(log, after, limit, events);
    }
  }

  lemma KeepOneMore(start: Db, db: Db, consumers: seq<ConsumerId>, c: ConsumerId, limit: nat, events: seq<RawEvent>)
    requires Distinct(consumers) && c in consumers && DistinctIds(db.rawEvents)
    requires Kept(start, db, consumers, c, limit)
    requires IsWindow(db.rawEvents, CursorOf(db, c), limit, events) && events != []
    ensures Kept(start, Committed(db, c, events), consumers, c, limit)
  {
    assert LastOf(events) in events;
    CommitKeepsLedger(consumers, db, c, events);
    if CursorCovered(start, c, CursorOf(start, c)) && NeverCuts(start, c, limit) {
      assert LimitCutsNoTie(start, c, CursorOf(db, c), limit);
      CommitKeepsCovered(db, c, limit, events);
    }
    if AllMarked(start.rawEvents, start.markers, c) {
      CommitOfMarked(db, c, events);
    }
  }

  /** The worker's loop up to its first empty batch, with nothing arriving meanwhile. */
  method Drain(worker: RollupWorker, limit: nat, ghost consumers: seq<ConsumerId>) returns (batches: nat)
    requires worker.Connected() && worker.session.db == worker.session.committed && limit >= 1
    requires DistinctIds(worker.session.db.rawEvents)
    requires Distinct(consumers) && worker.workerId in consumers && LedgerHolds(worker.session.db, consumers)
    requires CursorNamesRow(worker.session.db, worker.workerId)
    modifies worker.session
    ensures worker.session.db == worker.session.committed
    ensures Kept(old(worker.session.db), worker.session.db, consumers, worker.workerId, limit)
    ensures Counted(old(worker.session.db), worker.session.db, worker.workerId, limit, batches)
    ensures Drained(worker.session.db, worker.workerId)
  {
    ghost var start, c := worker.session.db, worker.workerId;
    batches := 0;
    while true
      invariant worker.session.db == worker.session.committed && DistinctIds(worker.session.db.rawEvents)
      invariant Kept(start, worker.session.db, consumers, c, limit)
      invariant Counted(start, worker.session.db, c, limit, batches)
      decreases |Remaining(worker.session.db.rawEvents, CursorOf(worker.session.db, c))|
    {
      ghost var db := worker.session.db;
      var events, newEvents := worker.ProcessBatch(limit);
      EmptyIffDrained(db.rawEvents, CursorOf(db, c), limit, events);
      if events == [] {
        return;
      }
      CountOneMore(start, db, c, limit, batches, events);
      KeepOneMore(start, db, consumers, c, limit, events);
      batches := batches + 1;
    }
  }

  /** If nothing was lost before and no window can cut off an unmarked row, the loop leaves every row marked, so the
      tables are the aggregates of the whole log. */
  lemma DrainedResult(start: Db, db: Db, c: ConsumerId, limit: nat)
    requires Kept(start, db, [c], c, limit) && Drained(db, c)
    requires CursorCovered(start, c, CursorOf(start, c)) && NeverCuts(start, c, limit)
    ensures AllMarked(db.rawEvents, db.markers, c)
    ensures forall g :: db.rollups.At(g) == TableOf(g, start.rawEvents)
  {
    DrainedIsAllMarked(db, c);
    LedgerOfOne(c, db.rawEvents, db.markers);
    CreditedWhenAllMarked(db.rawEvents, db.markers, c);
  }

  /** With distinct created_at, n pending rows take exactly ceil(n / limit) batches. */
  lemma BatchesTaken(start: Db, db: Db, c: ConsumerId, limit: nat, batches: nat)
    requires limit >= 1 && Counted(start, db, c, limit, batches) && Drained(db, c) && DistinctTimes(start.rawEvents)
    ensures batches == (|Remaining(start.rawEvents, CursorOf(start, c))| + limit - 1) / limit
  {
    BatchesRoundUp(|Remaining(start.rawEvents, CursorOf(start, c))|, limit);
    assert BatchesFor(|Remaining(db.rawEvents, CursorOf(db, c))|, limit) == 0;
  }

  // ----- Replay -----

  /** A drained cursor names a row that no other row follows. */
  lemma DrainedCursorIsLatest(log: seq<RawEvent>, id: EventId, e: RawEvent)
    requires DistinctIds(log) && id in IdsOf(log) && e in log
    requires Remaining(log, Some(id)) == {}
    ensures e.createdAt <= CreatedAt(log, id)
  {
    FindByIdRow(log, id);
    assert e !in Remaining(log, Some(id));
  }

  /** No other row shares created_at with the one the cursor names. */
  predicate AloneInItsTime(log: seq<RawEvent>, id: EventId) {
    forall e :: e in log && e.createdAt == CreatedAt(log, id) ==> e.id == id
  }

  /** Both cursors exist and name rows with the same created_at, the same row if it is alone with it. */
  predicate SameHorizon(before: Db, after: Db, c: ConsumerId) {
    && c in before.offsets && c in after.offsets
    && var id, other := before.offsets[c].lastEventId, after.offsets[c].lastEventId;
    && CreatedAt(after.rawEvents, other) == CreatedAt(before.rawEvents, id)
    && (AloneInItsTime(before.rawEvents, id) ==> other == id)
  }

  /** Deleting a drained consumer's offset and draining again ends at a row with the created_at of the old cursor, with
      the tables still the aggregates over the markers. If every row was marked, nothing but the consumer's offset
      changes. If no window can cut off an unmarked row, every row ends up marked, so then nothing else changes exactly
      when every row was marked before: rows that had been lost are counted now. */
  method Replay(worker: RollupWorker, limit: nat, ghost consumers: seq<ConsumerId>) returns (batches: nat)
    requires worker.Connected() && worker.session.db == worker.session.committed && limit >= 1
    requires DistinctIds(worker.session.db.rawEvents)
    requires Distinct(consumers) && worker.workerId in consumers && LedgerHolds(worker.session.db, consumers)
    requires CursorNamesRow(worker.session.db, worker.workerId)
    requires worker.workerId in worker.session.db.offsets && Drained(worker.session.db, worker.workerId)
    modifies worker.session
    ensures worker.session.db == worker.session.committed
    ensures var before, after, c := old(worker.session.db), worker.session.db, worker.workerId;
            && after == before.(markers := after.markers, offsets := after.offsets, rollups := after.rollups)
            && after.offsets - {c} == before.offsets - {c}
            && LedgerHolds(after, consumers) && SameHorizon(before, after, c)
            && (AllMarked(before.rawEvents, before.markers, c) ==> after == before.(offsets := after.offsets))
            && (NeverCuts(before, c, limit) ==>
                  && AllMarked(after.rawEvents, after.markers, c)
                  && (after == before.(offsets := after.offsets) <==> AllMarked(before.rawEvents, before.markers, c)))
  {
    ghost var before, c := worker.session.db, worker.workerId;
    worker.session.db := worker.session.db.(offsets := worker.session.db.offsets - {worker.workerId});
    worker.session.Commit();
    ghost var reset := worker.session.db;
    batches := Drain(worker, limit, consumers);
    ReplayedCursor(before, worker.session.db, c);
    if NeverCuts(before, c, limit) {
      ResetNeverCuts(before, reset, c, limit);
      DrainedIsAllMarked(worker.session.db, c);
    }
  }

  lemma ResetNeverCuts(before: Db, reset: Db, c: ConsumerId, limit: nat)
    requires NeverCuts(before, c, limit) && reset == before.(offsets := reset.offsets)
    ensures NeverCuts(reset, c, limit)
  {
    forall after
      ensures LimitCutsNoTie(reset, c, after, limit)
    {
      assert LimitCutsNoTie(before, c, after, limit);
    }
  }

  lemma ReplayedCursor(before: Db, after: Db, c: ConsumerId)
    requires DistinctIds(before.rawEvents) && after.rawEvents == before.rawEvents
    requires c in before.offsets && CursorNamesRow(before, c) && CursorNamesRow(after, c)
    requires Drained(before, c) && Drained(after, c)
    ensures SameHorizon(before, after, c)
  {
    var log, id := before.rawEvents, before.offsets[c].lastEventId;
    FindByIdRow(log, id);
    var e := FindById(log, id).value;
    assert e !in Remaining(log, CursorOf(after, c));
    var other := after.offsets[c].lastEventId;
    FindByIdRow(log, other);
    var f := FindById(log, other).value;
    DrainedCursorIsLatest(log, id, f);
    DrainedCursorIsLatest(log, other, e);
  }
}
