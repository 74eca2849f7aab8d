/** Runs of one payment: which day and month it counts for when it arrives late, and what Redis shows once the month's
    key has expired. */
module LateEvents {
  import opened Calendar
  import opened Events
  import opened RollupAlgebra
  import opened EventRepositories
  import opened RollupWorkers
  import opened Leaderboard
  import opened Pipeline
  import opened BoardAccounts
  import opened SampleRuns
  import opened Overcounts

  /** One request, received at `now`, and one batch that publishes it. */
  function OneRequest(x: EventIngest, now: DateTime): seq<Step> {
    [IngestOne(x, 1, now, 10)] + BatchOf(0, 1, [RowFor(x, 1, now, 10)])
  }

  lemma RunOneRequest(s: State, x: EventIngest, now: DateTime)
    requires s == OneConsumer() && x.merchantId == 7 && FitsInteger(x.amountCents)
    ensures CanRun(s, OneRequest(x, now))
    ensures var end, e := Run(s, OneRequest(x, now)), RowFor(x, 1, now, 10);
            end.db.rollups.At(Day) == TableOf(Day, [e]) && end.board == AddVolume(map[], [e], Touched([e]))
  {
    var e, first := RowFor(x, 1, now, 10), [IngestOne(x, 1, now, 10)];
    StartInv({7, 8}, ["rollup"], s.workers);
    RunOnePayment(s, x, 1, now, 10);
    assert IsWindow([e], None, 1, [e]);
    RunBatch(s, first, 0, 1, [e]);
    TakeAll(s, first, [e]);
    assert [e][..0] == [];
    assert NewEvents({}, "rollup", [e]) == [e];
  }

  /** A confirmed payment with a client timestamp is credited to the client's day and month, and to no other, whenever
      the server received it. */
  lemma LatePayment(x: EventIngest, now: DateTime, k: Key, b: BoardKey)
    requires x.eventType == PaymentConfirmed && x.merchantId == 7 && FitsInteger(x.amountCents)
    requires x.clientTimestamp.Some? && IsMonth(b.period)
    ensures CanRun(OneConsumer(), OneRequest(x, now))
    ensures var end, at := Run(OneConsumer(), OneRequest(x, now)), x.clientTimestamp.value;
            && Cell(end.db.rollups.At(Day), k)
               == (if k == Key(7, Floor(Day, ToInstant(at)), PaymentConfirmed)
                   then Some(Row(1, x.amountCents, x.amountCents, x.amountCents)) else None)
            && Score(end.board, b) == MonthVolume(end.db.rollups.At(Day), b)
               == if b == BoardKey(Period(at.year, at.month), 7) then x.amountCents else 0
  {
    var e := RowFor(x, 1, now, 10);
    RunOneRequest(OneConsumer(), x, now);
    TableOfOne(Day, e);
    BucketedByClientTime(Day, e);
    CreditedByClientTime(e);
    MonthRowsHoldVolume([e], b);
    ScoreAfterAdding(map[], [e], Touched([e]), b);
    VolumeOfOne(e, b);
    if b !in Touched([e]) {
      UntouchedHasNoVolume([e], b);
    }
  }

  /** Once the month's key expires Redis shows nothing, although rollup_day still holds the payment: the score is the
      month's sum less what was wiped. */
  lemma ExpiredMonth(x: EventIngest, now: DateTime, b: BoardKey)
    requires x.eventType == PaymentConfirmed && x.merchantId == 7 && FitsInteger(x.amountCents)
    requires x.clientTimestamp.Some? && b == BoardKey(PeriodKey(x.clientTimestamp.value), 7)
    ensures CanRun(OneConsumer(), OneRequest(x, now) + [ExpireBoard(b.period)])
    ensures var end := Run(OneConsumer(), OneRequest(x, now) + [ExpireBoard(b.period)]);
            Score(end.board, b) == 0 && MonthVolume(end.db.rollups.At(Day), b) == x.amountCents
  {
    LatePayment(x, now, Key(7, 0, PaymentConfirmed), b);
    OneMoreStep(OneConsumer(), OneRequest(x, now), ExpireBoard(b.period));
    StepMovesScore(Run(OneConsumer(), OneRequest(x, now)), ExpireBoard(b.period), b);
  }

  /** Merchant 7 has the amount on that day and for that month, on Redis too, and nothing on the other day or for the
      month after. */
  ghost predicate CountsOn(day: Instant, other: Instant, p: Period, s: State, amountCents: int)
    requires IsMonth(p)
  {
    var days, may, june := s.db.rollups.At(Day), BoardKey(p, 7), BoardKey(NextMonth(p), 7);
    && Cell(days, Key(7, day, PaymentConfirmed)) == Some(Row(1, amountCents, amountCents, amountCents))
    && Cell(days, Key(7, other, PaymentConfirmed)) == None
    && MonthVolume(days, may) == Score(s.board, may) == amountCents
    && MonthVolume(days, june) == Score(s.board, june) == 0
  }

  lemma CountsOnItsDay(x: EventIngest, now: DateTime, p: Period, other: Instant)
    requires x.eventType == PaymentConfirmed && x.merchantId == 7 && FitsInteger(x.amountCents)
    requires x.clientTimestamp.Some? && IsMonth(p) && PeriodKey(x.clientTimestamp.value) == p
    requires other != Floor(Day, ToInstant(x.clientTimestamp.value))
    ensures CanRun(OneConsumer(), OneRequest(x, now))
    ensures CountsOn(Floor(Day, ToInstant(x.clientTimestamp.value)), other, p, Run(OneConsumer(), OneRequest(x, now)),
                     x.amountCents)
  {
    var day := Floor(Day, ToInstant(x.clientTimestamp.value));
    LatePayment(x, now, Key(7, day, PaymentConfirmed), BoardKey(p, 7));
    LatePayment(x, now, Key(7, other, PaymentConfirmed), BoardKey(NextMonth(p), 7));
  }

  lemma LastDayOf(p: Period, t: Instant)
    requires IsMonth(p) && PeriodEnd(p) - DAY <= t < PeriodEnd(p)
    ensures Floor(Day, t) == PeriodEnd(p) - DAY
  {
    FloorUnique(Day, t, FirstDay(NextMonth(p)) - 1);
  }

  /** A payment made on the last day of a month and received in the next counts for the month in which it was made. */
  lemma LateEventLandsInItsMonth(x: EventIngest, now: DateTime, p: Period)
    requires x.eventType == PaymentConfirmed && x.merchantId == 7 && FitsInteger(x.amountCents)
    requires x.clientTimestamp.Some? && IsMonth(p) && PeriodKey(x.clientTimestamp.value) == p
    requires PeriodEnd(p) - DAY <= ToInstant(x.clientTimestamp.value) < PeriodEnd(p) <= ToInstant(now)
    ensures CanRun(OneConsumer(), OneRequest(x, now))
    ensures CountsOn(PeriodEnd(p) - DAY, PeriodEnd(p), p, Run(OneConsumer(), OneRequest(x, now)), x.amountCents)
  {
    LastDayOf(p, ToInstant(x.clientTimestamp.value));
    CountsOnItsDay(x, now, p, PeriodEnd(p));
  }

  /** Such a payment: 100 cents, made at 2026-05-31T23:59:30 and received at 2026-06-01T00:00:10. */
  lemma HalfAMinuteBeforeJune(x: EventIngest, now: DateTime, may: Period)
    requires x.eventType == PaymentConfirmed && x.merchantId == 7 && x.amountCents == 100
    requires x.clientTimestamp == Some(Fields(2026, 5, 31, 23, 59, 30, 0))
    requires now == Fields(2026, 6, 1, 0, 0, 10, 0) && may == Period(2026, 5)
    ensures CanRun(OneConsumer(), OneRequest(x, now))
    ensures CountsOn(PeriodEnd(may) - DAY, PeriodEnd(may), may, Run(OneConsumer(), OneRequest(x, now)), 100)
  {
    AroundTheEndOfMay(x.clientTimestamp.value, now, may);
    LateEventLandsInItsMonth(x, now, may);
  }

  lemma AroundTheEndOfMay(made: DateTime, received: DateTime, may: Period)
    requires made == Fields(2026, 5, 31, 23, 59, 30, 0) && received == Fields(2026, 6, 1, 0, 0, 10, 0)
    requires may == Period(2026, 5)
    ensures ToInstant(made) == PeriodEnd(may) - 30 * SECOND
    ensures ToInstant(received) == PeriodEnd(may) + 10 * SECOND
  {
  }
}
