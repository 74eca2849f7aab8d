/** Accounting for the best-effort leaderboard: what it shows, what was wiped, lost, or is still in flight. */
module BoardAccounts {
  import opened Calendar
  import opened Events
  import opened Database
  import opened RollupAlgebra
  import opened EventRepositories
  import opened RollupWorkers
  import opened Ledger
  import opened Leaderboard
  import opened Pipeline

  /** Volume that a worker has committed but not yet published. */
  function InFlight(w: Worker, k: BoardKey): int {
    if w.phase.Publishing? then Volume(w.phase.newEvents, k) else 0
  }

  function Pending(workers: seq<Worker>, k: BoardKey): int {
    if workers == [] then 0
    else Pending(workers[..|workers| - 1], k) + InFlight(workers[|workers| - 1], k)
  }

  /** Every confirmed cent of the ledger is on the board, wiped, lost or in flight. */
  predicate Balanced(s: State, k: BoardKey) {
    Score(s.board, k) + Score(s.wiped, k) + Score(s.lost, k) + Pending(s.workers, k) == Volume(LedgerOf(s), k)
  }

  lemma {:induction false} PendingAfter(workers: seq<Worker>, w: nat, worker: Worker, k: BoardKey)
    requires w < |workers|
    ensures Pending(workers[w := worker], k) == Pending(workers, k) - InFlight(workers[w], k) + InFlight(worker, k)
  {
    var changed := workers[w := worker];
    if w == |workers| - 1 {
      assert changed[..w] == workers[..w];
    } else {
      assert changed[..|workers| - 1] == workers[..|workers| - 1][w := worker];
      PendingAfter(workers[..|workers| - 1], w, worker, k);
    }
  }

  lemma {:induction false} NothingPending(workers: seq<Worker>, k: BoardKey)
    requires forall w :: w in workers ==> !w.phase.Publishing?
    ensures Pending(workers, k) == 0
  {
    if workers != [] {
      var init, last := workers[..|workers| - 1], workers[|workers| - 1];
      assert workers == init + [last];
      NothingPending(init, k);
    }
  }

  // ----- Steps keep the balance -----

  lemma RequestKeepsBalance(s: State, step: Step, k: BoardKey)
    requires Inv(s) && IsIngest(step) && Enabled(s, step) && Balanced(s, k)
    ensures Balanced(Apply(s, step), k)
  {
    RequestAppends(s, step);
    UnmarkedRowsAddNothing(s.consumers, s.db.rawEvents, AppendedRows(s.db, step), s.db.markers);
  }

  lemma CommitKeepsBalance(s: State, w: nat, k: BoardKey)
    requires Inv(s) && Enabled(s, CommitBatch(w)) && Balanced(s, k)
    ensures Balanced(Apply(s, CommitBatch(w)), k)
  {
    var t := Apply(s, CommitBatch(w));
    var c, events := s.workers[w].consumerId, s.workers[w].phase.events;
    assert s.workers[w] in s.workers;
    var added := NewEvents(s.db.markers, c, events);
    CommitAddsToLedger(s.consumers, s.db.rawEvents, s.db.markers, c, events);
    VolumeOfPermutation(LedgerOf(t), LedgerOf(s) + added, k);
    VolumeOfConcat(LedgerOf(s), added, k);
    PendingAfter(s.workers, w, t.workers[w], k);
  }

  lemma PublishKeepsBalance(s: State, w: nat, delivered: set<BoardKey>, k: BoardKey)
    requires Balanced(s, k) && w < |s.workers| && s.workers[w].phase.Publishing?
    ensures Balanced(AfterPublish(s, w, delivered), k)
  {
    var events := s.workers[w].phase.newEvents;
    PendingAfter(s.workers, w, s.workers[w].(phase := Idle), k);
    ScoreAfterAdding(s.board, events, delivered, k);
    ScoreAfterAdding(s.lost, events, Touched(events) - delivered, k);
    if k !in Touched(events) {
      UntouchedHasNoVolume(events, k);
    }
  }

  /** A change of phase that publishes nothing moves no money. */
  lemma QuietPhaseKeepsBalance(s: State, w: nat, phase: Phase, k: BoardKey)
    requires Balanced(s, k) && w < |s.workers| && !s.workers[w].phase.Publishing? && !phase.Publishing?
    ensures Balanced(SetPhase(s, w, phase), k)
  {
    PendingAfter(s.workers, w, s.workers[w].(phase := phase), k);
  }

  lemma ExpiryKeepsBalance(s: State, period: Period, k: BoardKey)
    requires Balanced(s, k)
    ensures Balanced(AfterExpiry(s, period), k)
  {
  }

  lemma StepKeepsBalance(s: State, step: Step, k: BoardKey)
    requires Inv(s) && Enabled(s, step) && Balanced(s, k)
    ensures Balanced(Apply(s, step), k)
  {
    match step
    case IngestOne(_, _, _, _) => RequestKeepsBalance(s, step, k);
    case IngestMany(_, _, _, _) => RequestKeepsBalance(s, step, k);
    case ReadOffset(w) => QuietPhaseKeepsBalance(s, w, OffsetRead(CursorOf(s.db, s.workers[w].consumerId)), k);
    case FetchEvents(w, _, window) => QuietPhaseKeepsBalance(s, w, if window == [] then Idle else Fetched(window), k);
    case CommitBatch(w) => CommitKeepsBalance(s, w, k);
    case Publish(w, delivered) => PublishKeepsBalance(s, w, delivered, k);
    case Crash(w) =>
      if s.workers[w].phase.Publishing? {
        PublishKeepsBalance(s, w, {}, k);
      } else {
        QuietPhaseKeepsBalance(s, w, Idle, k);
      }
    case ResetOffset(_) =>
    case ExpireBoard(period) => ExpiryKeepsBalance(s, period, k);
    case CompactDay(start) => CompactionKeepsInv(s, start);
  }

  lemma {:induction false} RunKeepsBalance(s: State, steps: seq<Step>, k: BoardKey)
    requires Inv(s) && CanRun(s, steps) && Balanced(s, k)
    ensures Balanced(Run(s, steps), k)
    decreases |steps|
  {
    if steps != [] {
      var init := steps[..|steps| - 1];
      RunKeepsBalance(s, init, k);
      RunKeepsInv(s, init);
      StepKeepsBalance(Run(s, init), steps[|steps| - 1], k);
    }
  }

  lemma StartBalanced(merchants: set<MerchantId>, consumers: seq<ConsumerId>, workers: seq<Worker>, k: BoardKey)
    requires WellDeployed(consumers, workers)
    ensures Balanced(Start(merchants, consumers, workers), k)
  {
    NothingCredited(consumers);
    NothingPending(workers, k);
  }

  /** What a step does to a member: publishing adds what is delivered, expiry clears its month, and nothing else touches
      its score; what publishing does not deliver, a crash before publishing or an expiry takes is gone. */
  lemma StepMovesScore(s: State, step: Step, k: BoardKey)
    requires Enabled(s, step)
    ensures Score(Apply(s, step).board, k)
         == match step
            case Publish(w, delivered) => Score(s.board, k) + if k in delivered then InFlight(s.workers[w], k) else 0
            case ExpireBoard(period) => if k.period == period then 0 else Score(s.board, k)
            case _ => Score(s.board, k)
    ensures Score(Apply(s, step).wiped, k) + Score(Apply(s, step).lost, k) - Score(s.wiped, k) - Score(s.lost, k)
         == match step
            case Publish(w, delivered) => if k in delivered then 0 else InFlight(s.workers[w], k)
            case Crash(w) => InFlight(s.workers[w], k)
            case ExpireBoard(period) => if k.period == period then Score(s.board, k) else 0
            case _ => 0
  {
    match step
    case Publish(w, delivered) => PublishMovesScore(s, w, delivered, k);
    case Crash(w) =>
      if s.workers[w].phase.Publishing? {
        PublishMovesScore(s, w, {}, k);
      }
    case _ =>
  }

  lemma PublishMovesScore(s: State, w: nat, delivered: set<BoardKey>, k: BoardKey)
    requires w < |s.workers| && s.workers[w].phase.Publishing?
    ensures var t, volume := AfterPublish(s, w, delivered), InFlight(s.workers[w], k);
            && Score(t.board, k) == Score(s.board, k) + (if k in delivered then volume else 0)
            && Score(t.lost, k) == Score(s.lost, k) + (if k in delivered then 0 else volume)
            && t.wiped == s.wiped
  {
    var events := s.workers[w].phase.newEvents;
    ScoreAfterAdding(s.board, events, delivered, k);
    ScoreAfterAdding(s.lost, events, Touched(events) - delivered, k);
    if k !in Touched(events) {
      UntouchedHasNoVolume(events, k);
    }
  }

  // ----- Nothing is ever overstated -----

  predicate NonNegative(events: seq<RawEvent>) {
    forall e :: e in events ==> e.amountCents >= 0
  }

  predicate NoDebts(b: Board) {
    forall k :: k in b ==> b[k] >= 0
  }

  /** Amounts, scores, losses and volumes in flight are all at least zero. */
  predicate Solvent(s: State) {
    && NonNegative(s.db.rawEvents)
    && NoDebts(s.board) && NoDebts(s.wiped) && NoDebts(s.lost)
    && forall w :: w in s.workers && w.phase.Publishing? ==> NonNegative(w.phase.newEvents)
  }

  lemma {:induction false} VolumeNonNegative(events: seq<RawEvent>, k: BoardKey)
    requires NonNegative(events)
    ensures Volume(events, k) >= 0
  {
    if events != [] {
      assert events == events[..|events| - 1] + [events[|events| - 1]];
      VolumeNonNegative(events[..|events| - 1], k);
    }
  }

  lemma AddVolumeNoDebts(b: Board, events: seq<RawEvent>, delivered: set<BoardKey>)
    requires NoDebts(b) && NonNegative(events)
    ensures NoDebts(AddVolume(b, events, delivered))
  {
    forall k
      ensures Volume(events, k) >= 0
    {
      VolumeNonNegative(events, k);
    }
  }

  lemma {:induction false} PendingNonNegative(workers: seq<Worker>, k: BoardKey)
    requires forall w :: w in workers && w.phase.Publishing? ==> NonNegative(w.phase.newEvents)
    ensures Pending(workers, k) >= 0
  {
    if workers != [] {
      var init, last := workers[..|workers| - 1], workers[|workers| - 1];
      assert workers == init + [last];
      PendingNonNegative(init, k);
      if last.phase.Publishing? {
        VolumeNonNegative(last.phase.newEvents, k);
      }
    }
  }

  lemma {:induction false} RowAmounts(events: seq<EventIngest>, keys: set<string>, ids: string -> EventId,
                                      occurredAt: DateTime, createdAt: Instant)
    ensures NonNegative(RowsFor(events, keys, ids, occurredAt, createdAt))
  {
    if events != [] {
      RowAmounts(Prefix(events), keys, ids, occurredAt, createdAt);
    }
  }

  lemma RequestKeepsSolvent(s: State, step: Step)
    requires Inv(s) && IsIngest(step) && Enabled(s, step) && Solvent(s)
    ensures Solvent(Apply(s, step))
  {
    RequestAppends(s, step);
    if step.IngestMany? {
      RowAmounts(step.events, Unclaimed(s.db, step.events), step.ids, step.now, step.createdAt);
    }
    assert NonNegative(AppendedRows(s.db, step));
  }

  lemma CommitKeepsSolvent(s: State, w: nat)
    requires Inv(s) && Enabled(s, CommitBatch(w)) && Solvent(s)
    ensures Solvent(Apply(s, CommitBatch(w)))
  {
    var t := Apply(s, CommitBatch(w));
    var c, events := s.workers[w].consumerId, s.workers[w].phase.events;
    assert s.workers[w] in s.workers;
    forall e | e in NewEvents(s.db.markers, c, events)
      ensures e.amountCents >= 0
    {
      NewEventsAre(s.db.markers, c, events, e);
    }
    WorkersAfter(s, t, w);
  }

  lemma PublishKeepsSolvent(s: State, w: nat, delivered: set<BoardKey>)
    requires Solvent(s) && w < |s.workers| && s.workers[w].phase.Publishing?
    ensures Solvent(AfterPublish(s, w, delivered))
  {
    var events := s.workers[w].phase.newEvents;
    assert s.workers[w] in s.workers;
    AddVolumeNoDebts(s.board, events, delivered);
    AddVolumeNoDebts(s.lost, events, Touched(events) - delivered);
    WorkersAfter(s, AfterPublish(s, w, delivered), w);
  }

  lemma StepKeepsSolvent(s: State, step: Step)
    requires Inv(s) && Enabled(s, step) && Solvent(s)
    ensures Solvent(Apply(s, step))
  {
    match step
    case IngestOne(_, _, _, _) => RequestKeepsSolvent(s, step);
    case IngestMany(_, _, _, _) => RequestKeepsSolvent(s, step);
    case ReadOffset(w) => WorkersAfter(s, Apply(s, step), w);
    case FetchEvents(w, _, _) => WorkersAfter(s, Apply(s, step), w);
    case CommitBatch(w) => CommitKeepsSolvent(s, w);
    case Publish(w, delivered) => PublishKeepsSolvent(s, w, delivered);
    case Crash(w) =>
      if s.workers[w].phase.Publishing? {
        PublishKeepsSolvent(s, w, {});
      } else {
        WorkersAfter(s, Apply(s, step), w);
      }
    case ResetOffset(_) =>
    case ExpireBoard(_) =>
    case CompactDay(start) => CompactionKeepsInv(s, start);
  }

  lemma {:induction false} RunKeepsSolvent(s: State, steps: seq<Step>)
    requires Inv(s) && CanRun(s, steps) && Solvent(s)
    ensures Solvent(Run(s, steps))
    decreases |steps|
  {
    if steps != [] {
      var init := steps[..|steps| - 1];
      RunKeepsSolvent(s, init);
      RunKeepsInv(s, init);
      StepKeepsSolvent(Run(s, init), steps[|steps| - 1]);
    }
  }

  // ----- The board against rollup_day -----

  /** A day row of the member's confirmed payments within its month. */
  predicate InMonth(k: BoardKey, j: Key)
    requires IsMonth(k.period)
  {
    && j.merchantId == k.merchantId && j.eventType == PaymentConfirmed
    && PeriodStart(k.period) <= j.bucket < PeriodEnd(k.period)
  }

  /** SUM(amount_sum_cents) of the member's confirmed day rows with period_start <= bucket < period_end. */
  ghost function MonthVolume(days: Table, k: BoardKey): int
    requires IsMonth(k.period)
  {
    SumIn(Total(days, RowsWhere(days, (j: Key) => InMonth(k, j))))
  }

  lemma {:induction false} VolumeIsSum(events: seq<RawEvent>, k: BoardKey)
    ensures Volume(events, k) == SumWhere(events, e => Moves(e, k))
  {
    if events != [] {
      VolumeIsSum(events[..|events| - 1], k);
    }
  }

  /** The month's rows of an aggregated rollup_day hold exactly the volume the leaderboard credits to the month. */
  lemma MonthRowsHoldVolume(events: seq<RawEvent>, k: BoardKey)
    requires IsMonth(k.period)
    ensures MonthVolume(TableOf(Day, events), k) == Volume(events, k)
  {
    var sel := (j: Key) => InMonth(k, j);
    forall e
      ensures sel(KeyOf(Day, e)) <==> Moves(e, k)
    {
      KeyOfFloor(Day, e);
      PeriodKeyIffDayInMonth(BucketTs(e), k.period);
    }
    RowsReadEvents(Day, events, sel);
    AggOfCounts(events, e => sel(KeyOf(Day, e)));
    AggOfSamePredicate(events, e => sel(KeyOf(Day, e)), e => Moves(e, k));
    VolumeIsSum(events, k);
  }

  /** In every run a score is the true month volume of rollup_day less what was wiped, lost or is in flight, none of
      which is negative: no score is ever too high. */
  lemma BoardNeverOverstates(merchants: set<MerchantId>, consumers: seq<ConsumerId>, workers: seq<Worker>,
                             steps: seq<Step>, k: BoardKey)
    requires WellDeployed(consumers, workers) && IsMonth(k.period)
    requires CanRun(Start(merchants, consumers, workers), steps)
    ensures var s := Run(Start(merchants, consumers, workers), steps);
            && Score(s.board, k) == MonthVolume(s.db.rollups.At(Day), k)
                                    - Score(s.wiped, k) - Score(s.lost, k) - Pending(s.workers, k)
            && 0 <= Score(s.board, k) <= MonthVolume(s.db.rollups.At(Day), k)
            && Score(s.wiped, k) >= 0 && Score(s.lost, k) >= 0 && Pending(s.workers, k) >= 0
  {
    var start := Start(merchants, consumers, workers);
    StartInv(merchants, consumers, workers);
    StartBalanced(merchants, consumers, workers, k);
    RunKeepsInv(start, steps);
    RunKeepsBalance(start, steps, k);
    RunKeepsSolvent(start, steps);
    var s := Run(start, steps);
    MonthRowsHoldVolume(LedgerOf(s), k);
    PendingNonNegative(s.workers, k);
  }

  // ----- Publishing without loss -----

  /** Redis loses nothing in the step: every increment arrives, no worker dies before publishing, no key expires. */
  predicate Lossless(s: State, step: Step) {
    match step
    case Publish(w, delivered) =>
      w < |s.workers| && s.workers[w].phase.Publishing? && Touched(s.workers[w].phase.newEvents) <= delivered
    case Crash(w) => w < |s.workers| && !s.workers[w].phase.Publishing?
    case ExpireBoard(_) => false
    case _ => true
  }

  ghost predicate LosslessRun(s: State, steps: seq<Step>)
    requires CanRun(s, steps)
    decreases |steps|
  {
    steps != [] ==> LosslessRun(s, steps[..|steps| - 1]) && Lossless(Run(s, steps[..|steps| - 1]), steps[|steps| - 1])
  }

  lemma {:induction false} LosslessRunLosesNothing(s: State, steps: seq<Step>, k: BoardKey)
    requires CanRun(s, steps) && LosslessRun(s, steps) && Score(s.wiped, k) == 0 && Score(s.lost, k) == 0
    ensures Score(Run(s, steps).wiped, k) == 0 && Score(Run(s, steps).lost, k) == 0
    decreases |steps|
  {
    if steps != [] {
      var init, last := steps[..|steps| - 1], steps[|steps| - 1];
      LosslessRunLosesNothing(s, init, k);
      var before := Run(s, init);
      if last.Publish? {
        var events := before.workers[last.worker].phase.newEvents;
        ScoreAfterAdding(before.lost, events, Touched(events) - last.delivered, k);
      }
    }
  }

  /** Without Redis loss, once nothing is in flight, every score is exactly the month's sum over rollup_day. */
  lemma LeaderboardAgrees(merchants: set<MerchantId>, consumers: seq<ConsumerId>, workers: seq<Worker>,
                          steps: seq<Step>, k: BoardKey)
    requires WellDeployed(consumers, workers) && IsMonth(k.period)
    requires CanRun(Start(merchants, consumers, workers), steps)
    requires LosslessRun(Start(merchants, consumers, workers), steps)
    requires forall w :: w in Run(Start(merchants, consumers, workers), steps).workers ==> !w.phase.Publishing?
    ensures var s := Run(Start(merchants, consumers, workers), steps);
            Score(s.board, k) == MonthVolume(s.db.rollups.At(Day), k)
  {
    BoardNeverOverstates(merchants, consumers, workers, steps, k);
    LosslessRunLosesNothing(Start(merchants, consumers, workers), steps, k);
    NothingPending(Run(Start(merchants, consumers, workers), steps).workers, k);
  }
}
