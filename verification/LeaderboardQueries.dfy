/** Serving the leaderboard from Redis or from rollup_day, the nightly snapshot, and how they relate. */
module LeaderboardQueries {
  import opened Calendar
  import opened Events
  import opened RollupAlgebra
  import opened Grouping
  import opened Ranking
  import opened Leaderboard
  import opened Compaction
  import opened Pipeline
  import opened BoardAccounts

  // ----- Confirmed volumes per merchant -----

  /** event_type = 'PAYMENT_CONFIRMED' and from <= bucket <= to */
  predicate ConfirmedWithin(from: Instant, to: Instant, k: Key) {
    k.eventType == PaymentConfirmed && from <= k.bucket <= to
  }

  function ConfirmedRows(days: Table, from: Instant, to: Instant): set<Key> {
    RowsWhere(days, (k: Key) => ConfirmedWithin(from, to, k))
  }

  function RowsOfMerchant(rows: set<Key>, merchantId: MerchantId): set<Key> {
    Members(rows, (k: Key) => k.merchantId, merchantId)
  }

  /** SUM(amount_sum_cents) ... GROUP BY merchant_id */
  ghost function VolumesBy(t: Table, rows: set<Key>): Scores {
    map m | m in (set k | k in rows :: k.merchantId) :: SumIn(Total(t, RowsOfMerchant(rows, m)))
  }

  lemma GroupedVolumes(t: Table, rows: set<Key>, groups: map<MerchantId, Row>)
    requires IsGrouping(t, rows, (k: Key) => k.merchantId, groups)
    ensures VolumesBy(t, rows) == map m | m in groups :: groups[m].sum
  {
    forall m
      ensures m in groups <==> m in VolumesBy(t, rows)
      ensures m in groups ==> VolumesBy(t, rows)[m] == groups[m].sum
    {
      if m in VolumesBy(t, rows) {
        var k :| k in rows && k.merchantId == m;
        assert k in RowsOfMerchant(rows, m);
      }
      if m in groups {
        var k :| k in RowsOfMerchant(rows, m);
        assert k in rows && k.merchantId == m;
      }
    }
  }

  // ----- What the query and a rebuild say about a month -----

  function ScoreIn(scores: Scores, merchantId: MerchantId): int {
    if merchantId in scores then scores[merchantId] else 0
  }

  lemma VolumeOfMerchant(t: Table, rows: set<Key>, merchantId: MerchantId)
    ensures ScoreIn(VolumesBy(t, rows), merchantId) == SumIn(Total(t, RowsOfMerchant(rows, merchantId)))
  {
    if merchantId !in VolumesBy(t, rows) {
      forall k | k in rows
        ensures k.merchantId != merchantId
      {
        assert k.merchantId in VolumesBy(t, rows);
      }
      assert RowsOfMerchant(rows, merchantId) == {};
    } else {
      var k :| k in rows && k.merchantId == merchantId;
    }
  }

  /** The merchants' volumes that the leaderboard query computes for a month, before LIMIT. */
  ghost function Queried(days: Table, period: Period): Scores
    requires IsMonth(period)
  {
    VolumesBy(days, ConfirmedRows(days, PeriodStart(period), PeriodEnd(period)))
  }

  /** Confirmed volume of the day row at period_end, the first day of the next month. */
  function NextFirstDay(days: Table, k: BoardKey): int
    requires IsMonth(k.period)
  {
    SumIn(Cell(days, Key(k.merchantId, PeriodEnd(k.period), PaymentConfirmed)))
  }

  /** BETWEEN includes period_end: the query adds the day row of the next month's first day to the month's volume. */
  lemma QueryAddsNextFirstDay(days: Table, k: BoardKey)
    requires IsMonth(k.period)
    ensures ScoreIn(Queried(days, k.period), k.merchantId) == MonthVolume(days, k) + NextFirstDay(days, k)
  {
    var start, end := PeriodStart(k.period), PeriodEnd(k.period);
    var next := Key(k.merchantId, end, PaymentConfirmed);
    var month := RowsWhere(days, (j: Key) => InMonth(k, j));
    PeriodBoundsAreDays(k.period);
    VolumeOfMerchant(days, ConfirmedRows(days, start, end), k.merchantId);
    var extra := if next in days then {next} else {};
    assert RowsOfMerchant(ConfirmedRows(days, start, end), k.merchantId) == month + extra;
    TotalUnion(days, month, extra);
    TotalOne(days, next);
  }

  lemma {:induction false} ScoresOfLeaders(scores: Scores, top: seq<Entry>)
    requires forall x :: x in top ==> x.merchantId in scores && x.volume == scores[x.merchantId]
    ensures ScoresOf(top) == map m | m in Listed(top) :: scores[m]
  {
    if top != [] {
      var init, last := top[..|top| - 1], top[|top| - 1];
      assert top == init + [last] && last in top;
      ScoresOfLeaders(scores, init);
      assert Listed(top) == Listed(init) + {last.merchantId};
    }
  }

  /** The score a rebuild from these entries leaves is the merchant's true month volume exactly when the merchant is
      listed and has nothing on the next month's first day, or is not listed and has nothing in the month. */
  lemma RebuiltScore(days: Table, n: nat, top: seq<Entry>, k: BoardKey)
    requires IsMonth(k.period) && IsTop(Queried(days, k.period), n, top)
    ensures ScoreIn(ScoresOf(top), k.merchantId)
         == if k.merchantId in Listed(top) then MonthVolume(days, k) + NextFirstDay(days, k) else 0
    ensures ScoreIn(ScoresOf(top), k.merchantId) == MonthVolume(days, k)
       <==> if k.merchantId in Listed(top) then NextFirstDay(days, k) == 0 else MonthVolume(days, k) == 0
  {
    ScoresOfLeaders(Queried(days, k.period), top);
    QueryAddsNextFirstDay(days, k);
  }

  /** Every rebuild from rollup_day leaves the merchant's true month volume exactly when two things hold. If fewer than
      n merchants stand above it, so that it may be listed, it has nothing on the next month's first day. If more than n
      stand as high, itself included, so that it may be left out, it has nothing in the month. Between the two, ties
      decide. */
  lemma RebuildAgreesIff(days: Table, n: nat, k: BoardKey)
    requires IsMonth(k.period)
    ensures var q, m := Queried(days, k.period), k.merchantId;
            (forall top :: IsTop(q, n, top) ==> ScoreIn(ScoresOf(top), m) == MonthVolume(days, k))
            <==> (m in q ==> && (|Above(q, q[m])| < n ==> NextFirstDay(days, k) == 0)
                             && (|AtLeast(q, q[m])| > n ==> MonthVolume(days, k) == 0))
  {
    var q, m := Queried(days, k.period), k.merchantId;
    forall top: seq<Entry> | IsTop(q, n, top)
      ensures ScoreIn(ScoresOf(top), m) == MonthVolume(days, k)
         <==> if m in Listed(top) then NextFirstDay(days, k) == 0 else MonthVolume(days, k) == 0
    {
      RebuiltScore(days, n, top, k);
    }
    if m in q {
      AlwaysListedIff(q, n, m);
      NeverListedIff(q, n, m);
    } else {
      MonthVolumeIsQueried(days, k);
    }
  }

  lemma MonthVolumeIsQueried(days: Table, k: BoardKey)
    requires IsMonth(k.period)
    ensures MonthVolume(days, k) == 0 || k.merchantId in Queried(days, k.period)
  {
    var rows := RowsWhere(days, (j: Key) => InMonth(k, j));
    if rows != {} {
      var j :| j in rows;
      assert j in ConfirmedRows(days, PeriodStart(k.period), PeriodEnd(k.period)) && j.merchantId == k.merchantId;
    }
  }

  // ----- GET /leaderboard -----

  datatype LeaderboardEntry = LeaderboardEntry(rank: nat, entry: Entry, transactionCount: Option<int>)

  datatype Source = Redis | RollupDay

  datatype LeaderboardResponse = LeaderboardResponse(
    periodStart: Instant,
    periodEnd: Instant,
    entries: seq<LeaderboardEntry>,
    source: Source)

  /** The selected entries in order, ranked from 1; only those read from rollup_day carry a transaction count. */
  ghost predicate Ranks(entries: seq<LeaderboardEntry>, top: seq<Entry>, counts: Option<map<MerchantId, Row>>) {
    && |entries| == |top|
    && forall i :: 0 <= i < |top| ==>
         && entries[i].rank == i + 1
         && entries[i].entry == top[i]
         && entries[i].transactionCount
            == if counts.Some? && top[i].merchantId in counts.value
               then Some(counts.value[top[i].merchantId].count) else None
  }

  method RankEntries(top: seq<Entry>, counts: Option<map<MerchantId, Row>>) returns (entries: seq<LeaderboardEntry>)
    ensures Ranks(entries, top, counts)
  {
    entries := [];
    for i := 0 to |top|
      invariant Ranks(entries, top[..i], counts)
    {
      var count := if counts.Some? && top[i].merchantId in counts.value
                   then Some(counts.value[top[i].merchantId].count) else None;
      entries := entries + [LeaderboardEntry(i + 1, top[i], count)];
    }
    assert top[..|top|] == top;
  }

  /** SELECT merchant_id, SUM, SUM ... BETWEEN :start AND :end ... ORDER BY volume_cents DESC LIMIT :top_n */
  method QueryLeaderboardFromDb(days: Table, start: Instant, end: Instant, n: nat)
    returns (top: seq<Entry>, groups: map<MerchantId, Row>)
    ensures IsGrouping(days, ConfirmedRows(days, start, end), (k: Key) => k.merchantId, groups)
    ensures IsTop(VolumesBy(days, ConfirmedRows(days, start, end)), n, top)
  {
    var rows := ConfirmedRows(days, start, end);
    groups := GroupBy(days, rows, (k: Key) => k.merchantId);
    GroupedVolumes(days, rows, groups);
    top := TopN(map m | m in groups :: groups[m].sum, n);
  }

  const DEFAULT_TOP_N := 10

  /** None is the ValueError of a period without bounds. Redis when it holds the month, otherwise rollup_day and a
      rebuild, after which each merchant's score is its true month volume exactly as RebuiltScore says. `top` is the
      selection before ranks are attached; a top_n of zero means the default of ten. */
  method GetLeaderboard(redis: RedisRepository, days: Table, period: Period, topN: nat)
    returns (r: Option<LeaderboardResponse>, ghost top: seq<Entry>)
    modifies redis`board
    ensures r.Some? <==> && 1 <= period.year <= 9999 && 1 <= period.month <= 12
                         && !(period.year == 9999 && period.month == 12)
    ensures r.None? ==> redis.board == old(redis.board)
    ensures r.Some? ==> r.value.periodStart == PeriodStart(period) && r.value.periodEnd == PeriodEnd(period)
    ensures r.Some? && PeriodScores(old(redis.board), period) != map[] ==>
              && r.value.source == Redis && redis.board == old(redis.board)
              && IsTop(PeriodScores(redis.board, period), if topN > 0 then topN else 10, top)
              && Ranks(r.value.entries, top, None)
    ensures r.Some? && PeriodScores(old(redis.board), period) == map[] ==>
              var rows := ConfirmedRows(days, PeriodStart(period), PeriodEnd(period));
              && r.value.source == RollupDay
              && IsTop(Queried(days, period), if topN > 0 then topN else 10, top)
              && (exists groups :: IsGrouping(days, rows, (k: Key) => k.merchantId, groups)
                                   && Ranks(r.value.entries, top, Some(groups)))
              && PeriodScores(redis.board, period) == ScoresOf(top)
              && forall k: BoardKey :: k.period != period ==>
                   (k in redis.board <==> k in old(redis.board)) && Score(redis.board, k) == Score(old(redis.board), k)
    ensures r.Some? && PeriodScores(old(redis.board), period) == map[] ==>
              forall k: BoardKey :: k.period == period ==>
                (Score(redis.board, k) == MonthVolume(days, k)
                 <==> if k.merchantId in Listed(top) then NextFirstDay(days, k) == 0 else MonthVolume(days, k) == 0)
  {
    top := [];
    if !(1 <= period.year <= 9999 && IsMonth(period) && period != Period(9999, 12)) {
      return None, top;
    }
    var start, end := PeriodStart(period), PeriodEnd(period);
    var n := if topN == 0 then DEFAULT_TOP_N else topN;
    var cached := redis.LeaderboardExists(period);
    if cached {
      var listed := redis.LeaderboardTopN(period, n);
      var entries := RankEntries(listed, None);
      return Some(LeaderboardResponse(start, end, entries, Redis)), listed;
    }
    var listed, groups := QueryLeaderboardFromDb(days, start, end, n);
    if listed != [] {
      redis.LeaderboardRebuild(period, listed);
    }
    var entries := RankEntries(listed, Some(groups));
    forall k: BoardKey | k.period == period
      ensures Score(redis.board, k) == MonthVolume(days, k)
         <==> if k.merchantId in Listed(listed) then NextFirstDay(days, k) == 0 else MonthVolume(days, k) == 0
    {
      RebuiltScore(days, n, listed, k);
      PeriodHas(redis.board, period, k.merchantId);
    }
    return Some(LeaderboardResponse(start, end, entries, RollupDay)), listed;
  }

  // ----- Redis against rollup_day -----

  /** Served from a Redis that lost nothing, the leaderboard lists true month volumes and leaves out nobody larger. */
  lemma RedisLeaderboardIsTrue(merchants: set<MerchantId>, consumers: seq<ConsumerId>, workers: seq<Worker>,
                               steps: seq<Step>,
                               period: Period, n: nat, entries: seq<Entry>, merchantId: MerchantId)
    requires WellDeployed(consumers, workers) && IsMonth(period)
    requires CanRun(Start(merchants, consumers, workers), steps)
    requires LosslessRun(Start(merchants, consumers, workers), steps)
    requires forall w :: w in Run(Start(merchants, consumers, workers), steps).workers ==> !w.phase.Publishing?
    requires IsTop(PeriodScores(Run(Start(merchants, consumers, workers), steps).board, period), n, entries)
    ensures var days := Run(Start(merchants, consumers, workers), steps).db.rollups.At(Day);
            && (forall x :: x in entries ==> x.volume == MonthVolume(days, BoardKey(period, x.merchantId)))
            && (merchantId !in Listed(entries) ==>
                  forall x :: x in entries ==> MonthVolume(days, BoardKey(period, merchantId)) <= x.volume)
  {
    var s := Run(Start(merchants, consumers, workers), steps);
    forall x | x in entries
      ensures x.volume == MonthVolume(s.db.rollups.At(Day), BoardKey(period, x.merchantId)) && x.volume >= 0
    {
      LeaderboardAgrees(merchants, consumers, workers, steps, BoardKey(period, x.merchantId));
      BoardNeverOverstates(merchants, consumers, workers, steps, BoardKey(period, x.merchantId));
      PeriodHas(s.board, period, x.merchantId);
    }
    LeaderboardAgrees(merchants, consumers, workers, steps, BoardKey(period, merchantId));
    PeriodHas(s.board, period, merchantId);
  }

  // ----- The nightly snapshot -----

  datatype SnapshotKey = SnapshotKey(periodStart: Instant, merchantId: MerchantId)

  datatype Snapshot = Snapshot(rank: nat, amountSumCents: int)

  /** The daily rows of leaderboard_snapshots. */
  class SnapshotTable {
    var rows: map<SnapshotKey, Snapshot>

    constructor ()
      ensures rows == map[]
    {
      rows := map[];
    }
  }

  /** INSERT ... ON CONFLICT DO UPDATE of one row per entry. */
  function Recorded(rows: map<SnapshotKey, Snapshot>, start: Instant, scores: Scores,
                    top: seq<Entry>): map<SnapshotKey, Snapshot>
    requires forall x :: x in top ==> x.merchantId in scores
  {
    if top == [] then rows
    else
      var last := top[|top| - 1];
      var snapshot := Snapshot(Rank(scores, last.merchantId), last.volume);
      Recorded(rows, start, scores, top[..|top| - 1])[SnapshotKey(start, last.merchantId) := snapshot]
  }

  method RecordEntries(snapshots: SnapshotTable, start: Instant, scores: Scores, top: seq<Entry>)
    requires forall x :: x in top ==> x.merchantId in scores
    modifies snapshots
    ensures snapshots.rows == Recorded(old(snapshots.rows), start, scores, top)
  {
    for i := 0 to |top|
      invariant snapshots.rows == Recorded(old(snapshots.rows), start, scores, top[..i])
    {
      assert top[..i + 1][..i] == top[..i];
      assert top[i] in top;
      var snapshot := Snapshot(Rank(scores, top[i].merchantId), top[i].volume);
      snapshots.rows := snapshots.rows[SnapshotKey(start, top[i].merchantId) := snapshot];
    }
    assert top[..|top|] == top;
  }

  /** WHERE bucket >= :start AND bucket < :end for the day, RANK() over the group sums, then LIMIT 100. */
  method SnapshotLeaderboard(days: Table, snapshots: SnapshotTable, start: Instant) returns (n: nat,
                             ghost top: seq<Entry>)
    modifies snapshots
    ensures var volumes := VolumesBy(days, ConfirmedRows(days, start, start + DAY - 1));
            && IsTop(volumes, 100, top) && n == |top|
            && snapshots.rows == Recorded(old(snapshots.rows), start, volumes, top)
  {
    var listed, groups := QueryLeaderboardFromDb(days, start, start + DAY - 1, 100);
    GroupedVolumes(days, ConfirmedRows(days, start, start + DAY - 1), groups);
    RecordEntries(snapshots, start, map m | m in groups :: groups[m].sum, listed);
    return |listed|, listed;
  }

  /** After the job a listed merchant's row holds its volume and its rank over all merchants, listed or not; every other
      row, including those of merchants that an earlier run of the day listed, is as before. */
  lemma {:induction false} RecordedRow(rows: map<SnapshotKey, Snapshot>, start: Instant, scores: Scores,
                                       top: seq<Entry>, k: SnapshotKey)
    requires forall x :: x in top ==> x.merchantId in scores && x.volume == scores[x.merchantId]
    ensures var after := Recorded(rows, start, scores, top);
            if k.periodStart == start && k.merchantId in Listed(top)
            then k.merchantId in scores && k in after
                 && after[k] == Snapshot(Rank(scores, k.merchantId), scores[k.merchantId])
            else (k in after <==> k in rows) && (k in rows ==> after[k] == rows[k])
    decreases |top|
  {
    if top != [] {
      var init, last := top[..|top| - 1], top[|top| - 1];
      assert top == init + [last] && last in top;
      RecordedRow(rows, start, scores, init, k);
      assert Listed(top) == Listed(init) + {last.merchantId};
    }
  }

  /** Confirmed volume of the merchant among the events of one day. */
  predicate ConfirmedOnDay(start: Instant, merchantId: MerchantId, e: RawEvent) {
    e.eventType == PaymentConfirmed && e.merchantId == merchantId && start <= EventInstant(e) < start + DAY
  }

  /** In every reachable state the volumes that a snapshot ranks are those of the ledger's events of the day. */
  lemma SnapshotReadsTheLedger(s: State, start: Instant, merchantId: MerchantId)
    requires Inv(s) && IsDayStart(start)
    ensures var days := s.db.rollups.At(Day);
            ScoreIn(VolumesBy(days, ConfirmedRows(days, start, start + DAY - 1)), merchantId)
            == SumWhere(LedgerOf(s), e => ConfirmedOnDay(start, merchantId, e))
  {
    var days, ledger := s.db.rollups.At(Day), LedgerOf(s);
    var sel := (k: Key) => ConfirmedWithin(start, start + DAY - 1, k) && k.merchantId == merchantId;
    var rows := ConfirmedRows(days, start, start + DAY - 1);
    VolumeOfMerchant(days, rows, merchantId);
    assert RowsOfMerchant(rows, merchantId) == RowsWhere(days, sel);
    RowsReadEvents(Day, ledger, sel);
    AggOfCounts(ledger, e => sel(KeyOf(Day, e)));
    forall e
      ensures sel(KeyOf(Day, e)) <==> ConfirmedOnDay(start, merchantId, e)
    {
      KeyOfFloor(Day, e);
      OnDateIff(Floor(Day, EventInstant(e)), start);
      OnDateIff(EventInstant(e), start);
      FloorIdempotent(Day, EventInstant(e));
    }
    AggOfSamePredicate(ledger, e => sel(KeyOf(Day, e)), e => ConfirmedOnDay(start, merchantId, e));
  }
}
