/** Building concrete runs of the pipeline, one request or one batch at a time. */
module SampleRuns {
  import opened Calendar
  import opened Events
  import opened Database
  import opened EventRepositories
  import opened Ingestion
  import opened RollupWorkers
  import opened Leaderboard
  import opened Pipeline

  /** Read the offset, fetch, commit, and publish with every increment reaching Redis. */
  function BatchOf(w: nat, limit: nat, window: seq<RawEvent>): seq<Step> {
    [ReadOffset(w), FetchEvents(w, limit, window), CommitBatch(w), Publish(w, Touched(window))]
  }

  lemma OneMoreStep(s: State, steps: seq<Step>, step: Step)
    requires CanRun(s, steps) && Enabled(Run(s, steps), step)
    ensures CanRun(s, steps + [step]) && Run(s, steps + [step]) == Apply(Run(s, steps), step)
  {
    assert (steps + [step])[..|steps|] == steps;
  }

  lemma TwoMoreSteps(s: State, steps: seq<Step>, first: Step, second: Step)
    requires CanRun(s, steps) && Enabled(Run(s, steps), first) && Enabled(Apply(Run(s, steps), first), second)
    ensures CanRun(s, steps + [first, second])
    ensures Run(s, steps + [first, second]) == Apply(Apply(Run(s, steps), first), second)
  {
    OneMoreStep(s, steps, first);
    OneMoreStep(s, steps + [first], second);
    assert steps + [first] + [second] == steps + [first, second];
  }

  lemma FourMoreSteps(s: State, steps: seq<Step>, a: Step, b: Step, c: Step, d: Step, mid: State, end: State)
    requires CanRun(s, steps)
    requires Enabled(Run(s, steps), a) && Enabled(Apply(Run(s, steps), a), b)
    requires mid == Apply(Apply(Run(s, steps), a), b)
    requires Enabled(mid, c) && Enabled(Apply(mid, c), d) && end == Apply(Apply(mid, c), d)
    ensures CanRun(s, steps + [a, b, c, d]) && Run(s, steps + [a, b, c, d]) == end
  {
    TwoMoreSteps(s, steps, a, b);
    TwoMoreSteps(s, steps + [a, b], c, d);
    assert steps + [a, b] + [c, d] == steps + [a, b, c, d];
  }

  /** An idle worker may fetch this window. */
  ghost predicate MayFetch(t: State, w: nat, limit: nat, window: seq<RawEvent>) {
    && w < |t.workers| && t.workers[w].phase.Idle? && window != []
    && IsWindow(t.db.rawEvents, CursorOf(t.db, t.workers[w].consumerId), limit, window)
  }

  lemma FetchWindow(t: State, w: nat, limit: nat, window: seq<RawEvent>) returns (fetched: State)
    requires MayFetch(t, w, limit, window)
    ensures Enabled(t, ReadOffset(w)) && Enabled(Apply(t, ReadOffset(w)), FetchEvents(w, limit, window))
    ensures fetched == Apply(Apply(t, ReadOffset(w)), FetchEvents(w, limit, window))
    ensures fetched == SetPhase(t, w, Fetched(window))
  {
    var read := Apply(t, ReadOffset(w));
    fetched := Apply(read, FetchEvents(w, limit, window));
  }

  lemma CommitWindow(t: State, fetched: State, w: nat, window: seq<RawEvent>) returns (end: State)
    requires w < |t.workers| && t.workers[w].phase.Idle? && window != [] && fetched == SetPhase(t, w, Fetched(window))
    ensures Enabled(fetched, CommitBatch(w)) && Enabled(Apply(fetched, CommitBatch(w)), Publish(w, Touched(window)))
    ensures end == Apply(Apply(fetched, CommitBatch(w)), Publish(w, Touched(window)))
    ensures end.db == Committed(t.db, t.workers[w].consumerId, window)
    ensures end.workers == t.workers && end.consumers == t.consumers
    ensures end.board == AddVolume(t.board, NewEvents(t.db.markers, t.workers[w].consumerId, window), Touched(window))
  {
    var committed := Apply(fetched, CommitBatch(w));
    end := Apply(committed, Publish(w, Touched(window)));
    assert end.workers[w] == t.workers[w];
    assert end.db == committed.db;
  }

  /** A batch commits its window, publishes its new events, and leaves the workers as they were. */
  lemma RunBatch(s: State, steps: seq<Step>, w: nat, limit: nat, window: seq<RawEvent>)
    requires CanRun(s, steps) && MayFetch(Run(s, steps), w, limit, window)
    ensures CanRun(s, steps + BatchOf(w, limit, window))
    ensures var t, end := Run(s, steps), Run(s, steps + BatchOf(w, limit, window));
            && end.db == Committed(t.db, t.workers[w].consumerId, window)
            && end.workers == t.workers && end.consumers == t.consumers
            && end.board
               == AddVolume(t.board, NewEvents(t.db.markers, t.workers[w].consumerId, window), Touched(window))
  {
    var fetched := FetchWindow(Run(s, steps), w, limit, window);
    var end := CommitWindow(Run(s, steps), fetched, w, window);
    FourMoreSteps(s, steps, ReadOffset(w), FetchEvents(w, limit, window), CommitBatch(w),
                  Publish(w, Touched(window)), fetched, end);
  }

  /** A request for a new key of a known merchant appends its row. */
  lemma RunRequest(s: State, steps: seq<Step>, event: EventIngest, id: EventId, now: DateTime, createdAt: Instant)
    requires Inv(s) && CanRun(s, steps)
    requires FreshId(Run(s, steps).db, id) && FitsInteger(event.amountCents)
    requires event.merchantId in Run(s, steps).db.merchants && event.idempotencyKey !in Run(s, steps).db.idempotency
    ensures CanRun(s, steps + [IngestOne(event, id, now, createdAt)])
    ensures var t := Run(s, steps);
            Run(s, steps + [IngestOne(event, id, now, createdAt)])
            == t.(db := t.db.(idempotency := t.db.idempotency[event.idempotencyKey := id],
                              rawEvents := t.db.rawEvents + [RowFor(event, id, now, createdAt)]))
  {
    RunKeepsInv(s, steps);
    OneMoreStep(s, steps, IngestOne(event, id, now, createdAt));
    SingleOutcome(Run(s, steps).db, event, id, now, createdAt);
  }

  lemma RunNothing(s: State)
    ensures CanRun(s, []) && Run(s, []) == s
  {
  }
}
