/** The Redis leaderboard: one sorted set of merchant scores per month. */
module Leaderboard {
  import opened Calendar
  import opened Events
  import opened FiniteSets
  import opened RollupAlgebra
  import opened Ranking

  datatype BoardKey = BoardKey(period: Period, merchantId: MerchantId)

  /** All sorted sets together; a member that is absent scores nothing. */
  type Board = map<BoardKey, int>

  function Score(b: Board, k: BoardKey): int {
    if k in b then b[k] else 0
  }

  function BoardKeyOf(e: RawEvent): BoardKey {
    BoardKey(PeriodKey(BucketTs(e)), e.merchantId)
  }

  /** The month credited is the client timestamp's if there is one, and the server's otherwise. */
  lemma CreditedByClientTime(e: RawEvent)
    ensures var time := if e.clientTimestamp.Some? then e.clientTimestamp.value else e.occurredAt;
            BoardKeyOf(e) == BoardKey(Period(time.year, time.month), e.merchantId)
  {
  }

  /** Does the event move member k? */
  predicate Moves(e: RawEvent, k: BoardKey) {
    e.eventType == PaymentConfirmed && BoardKeyOf(e) == k
  }

  /** Confirmed payment volume of member k among the events. */
  function Volume(events: seq<RawEvent>, k: BoardKey): int {
    if events == [] then 0
    else
      var rest := Volume(events[..|events| - 1], k);
      if Moves(events[|events| - 1], k) then rest + events[|events| - 1].amountCents else rest
  }

  /** Members moved by the events. */
  function Touched(events: seq<RawEvent>): set<BoardKey> {
    if events == [] then {}
    else
      var rest := Touched(events[..|events| - 1]);
      if events[|events| - 1].eventType == PaymentConfirmed then rest + {BoardKeyOf(events[|events| - 1])} else rest
  }

  /** The board after the events' increments reached it for the delivered members only. */
  function AddVolume(b: Board, events: seq<RawEvent>, delivered: set<BoardKey>): Board {
    map k | k in b.Keys + Touched(events) * delivered :: Score(b, k) + if k in delivered then Volume(events, k) else 0
  }

  lemma {:induction false} UntouchedHasNoVolume(events: seq<RawEvent>, k: BoardKey)
    requires k !in Touched(events)
    ensures Volume(events, k) == 0
  {
    if events != [] {
      UntouchedHasNoVolume(events[..|events| - 1], k);
    }
  }

  lemma ScoreAfterAdding(b: Board, events: seq<RawEvent>, delivered: set<BoardKey>, k: BoardKey)
    ensures Score(AddVolume(b, events, delivered), k) == Score(b, k) + if k in delivered then Volume(events, k) else 0
  {
    if k !in Touched(events) {
      UntouchedHasNoVolume(events, k);
    }
  }

  lemma {:induction false} VolumeOfConcat(s: seq<RawEvent>, u: seq<RawEvent>, k: BoardKey)
    ensures Volume(s + u, k) == Volume(s, k) + Volume(u, k)
  {
    if u == [] {
      assert s + u == s;
    } else {
      assert (s + u)[..|s + u| - 1] == s + u[..|u| - 1];
      VolumeOfConcat(s, u[..|u| - 1], k);
    }
  }

  lemma {:induction false} VolumeOfPermutation(s: seq<RawEvent>, u: seq<RawEvent>, k: BoardKey)
    requires multiset(s) == multiset(u)
    ensures Volume(s, k) == Volume(u, k)
  {
    if s == [] {
      assert |multiset(u)| == 0;
    } else {
      var init, e := s[..|s| - 1], s[|s| - 1];
      assert s == init + [e];
      assert e in multiset(u);
      var i :| 0 <= i < |u| && u[i] == e;
      var before, after := u[..i], u[i + 1..];
      assert u == (before + [e]) + after;
      DropFromBoth(init, before, after, e);
      VolumeOfPermutation(init, before + after, k);
      VolumeOfConcat(before + [e], after, k);
      VolumeOfConcat(before, [e], k);
      VolumeOfConcat(before, after, k);
      VolumeOfConcat(init, [e], k);
    }
  }

  lemma VolumeOfStep(events: seq<RawEvent>, i: nat, k: BoardKey)
    requires i < |events|
    ensures Volume(events[..i + 1], k)
         == Volume(events[..i], k) + if Moves(events[i], k) then events[i].amountCents else 0
    ensures Touched(events[..i + 1])
         == Touched(events[..i]) + if events[i].eventType == PaymentConfirmed then {BoardKeyOf(events[i])} else {}
  {
    assert events[..i + 1][..i] == events[..i];
  }

  /** What _update_leaderboard has accumulated per period and merchant. */
  ghost predicate Accumulated(increments: map<Period, map<MerchantId, int>>, events: seq<RawEvent>) {
    && (forall p, m :: p in increments && m in increments[p] ==>
          BoardKey(p, m) in Touched(events) && increments[p][m] == Volume(events, BoardKey(p, m)))
    && (forall k :: k in Touched(events) ==> k.period in increments && k.merchantId in increments[k.period])
  }

  lemma AccumulateConfirmed(increments: map<Period, map<MerchantId, int>>, events: seq<RawEvent>, i: nat)
    requires i < |events| && Accumulated(increments, events[..i]) && events[i].eventType == PaymentConfirmed
    ensures var period, merchant := PeriodKey(BucketTs(events[i])), events[i].merchantId;
            var merchants := if period in increments then increments[period] else map[];
            var before := if merchant in merchants then merchants[merchant] else 0;
            Accumulated(increments[period := merchants[merchant := before + events[i].amountCents]], events[..i + 1])
  {
    var key := BoardKeyOf(events[i]);
    if key !in Touched(events[..i]) {
      UntouchedHasNoVolume(events[..i], key);
    }
    forall p, m
      ensures Volume(events[..i + 1], BoardKey(p, m))
           == Volume(events[..i], BoardKey(p, m)) + if key == BoardKey(p, m) then events[i].amountCents else 0
    {
      VolumeOfStep(events, i, BoardKey(p, m));
    }
    VolumeOfStep(events, i, key);
  }

  lemma AccumulateOther(increments: map<Period, map<MerchantId, int>>, events: seq<RawEvent>, i: nat)
    requires i < |events| && Accumulated(increments, events[..i]) && events[i].eventType != PaymentConfirmed
    ensures Accumulated(increments, events[..i + 1])
  {
    forall p, m
      ensures Volume(events[..i + 1], BoardKey(p, m)) == Volume(events[..i], BoardKey(p, m))
    {
      VolumeOfStep(events, i, BoardKey(p, m));
    }
    VolumeOfStep(events, i, BoardKeyOf(events[i]));
  }

  lemma SameBoard(b: Board, c: Board)
    requires b.Keys == c.Keys && forall k :: Score(b, k) == Score(c, k)
    ensures b == c
  {
    forall k | k in b
      ensures b[k] == c[k]
    {
      assert Score(b, k) == Score(c, k);
    }
  }

  /** The sorted set of one month. */
  function PeriodScores(b: Board, period: Period): Scores {
    map m | m in (set k | k in b && k.period == period :: k.merchantId) :: b[BoardKey(period, m)]
  }

  function OtherPeriods(b: Board, period: Period): Board {
    map k | k in b && k.period != period :: b[k]
  }

  /** The scores that adding the entries one after the other leaves. */
  function ScoresOf(entries: seq<Entry>): Scores {
    if entries == [] then map[]
    else ScoresOf(entries[..|entries| - 1])[entries[|entries| - 1].merchantId := entries[|entries| - 1].volume]
  }

  lemma PeriodCleared(b: Board, period: Period)
    ensures PeriodScores(OtherPeriods(b, period), period) == map[]
  {
  }

  lemma PeriodHas(b: Board, period: Period, merchantId: MerchantId)
    ensures merchantId in PeriodScores(b, period) <==> BoardKey(period, merchantId) in b
  {
    if BoardKey(period, merchantId) in b {
      assert BoardKey(period, merchantId).merchantId in PeriodScores(b, period);
    }
  }

  lemma MemberAdded(b: Board, period: Period, merchantId: MerchantId, score: int)
    ensures PeriodScores(b[BoardKey(period, merchantId) := score], period)
         == PeriodScores(b, period)[merchantId := score]
  {
    var c := b[BoardKey(period, merchantId) := score];
    var before, after := PeriodScores(b, period), PeriodScores(c, period);
    forall m
      ensures m in after <==> m == merchantId || m in before
      ensures m in after ==> after[m] == before[merchantId := score][m]
    {
      PeriodHas(b, period, m);
      PeriodHas(c, period, m);
    }
    assert after == before[merchantId := score];
  }

  function MembersOf(period: Period, merchants: set<MerchantId>): set<BoardKey> {
    set m | m in merchants :: BoardKey(period, m)
  }

  /** The board after the increments of the applied merchants. */
  function Incremented(start: Board, period: Period, increments: map<MerchantId, int>, applied: set<MerchantId>): Board
    requires applied <= increments.Keys
  {
    map k | k in start.Keys + MembersOf(period, applied) ::
      Score(start, k) + if k.period == period && k.merchantId in applied then increments[k.merchantId] else 0
  }

  lemma IncrementedOneMore(start: Board, period: Period, increments: map<MerchantId, int>, applied: set<MerchantId>,
                           m: MerchantId)
    requires applied <= increments.Keys && m in increments && m !in applied
    ensures var k, board := BoardKey(period, m), Incremented(start, period, increments, applied);
            Incremented(start, period, increments, applied + {m}) == board[k := Score(board, k) + increments[m]]
  {
  }

  lemma NothingIncremented(start: Board, period: Period, increments: map<MerchantId, int>)
    ensures Incremented(start, period, increments, {}) == start
  {
  }

  /** A Redis connection. `survives` is how many more commands it executes before it fails; None when it does not. */
  class RedisRepository {
    var board: Board
    var survives: Option<nat>

    constructor ()
      ensures board == map[] && survives == None
    {
      board, survives := map[], None;
    }

    /** ZINCRBY */
    method Zincrby(period: Period, merchantId: MerchantId, amount: int) returns (ok: bool)
      modifies this
      ensures ok <==> old(survives) != Some(0)
      ensures survives == if ok && old(survives).Some? then Some(old(survives).value - 1) else old(survives)
      ensures !ok ==> board == old(board)
      ensures ok ==> var k := BoardKey(period, merchantId);
                     board == old(board)[k := Score(old(board), k) + amount]
    {
      if survives == Some(0) {
        return false;
      }
      if survives.Some? {
        survives := Some(survives.value - 1);
      }
      board := board[BoardKey(period, merchantId) := Score(board, BoardKey(period, merchantId)) + amount];
      return true;
    }

    /** The pipelined increments of one period; when the connection fails an arbitrary part of them has been applied. */
    method LeaderboardIncrementBatch(period: Period, increments: map<MerchantId, int>) returns (ok: bool,
                                     ghost applied: set<MerchantId>)
      modifies this
      ensures (old(survives).None? ==> ok && survives.None?) && (!ok ==> survives == Some(0))
      ensures applied <= increments.Keys && (ok ==> applied == increments.Keys)
      ensures board == Incremented(old(board), period, increments, applied)
    {
      applied := {};
      var waiting := increments.Keys;
      ghost var start := board;
      NothingIncremented(board, period, increments);
      while waiting != {}
        invariant waiting !! applied && waiting + applied == increments.Keys
        invariant old(survives).None? ==> survives.None?
        invariant board == Incremented(start, period, increments, applied)
      {
        ghost var some := Member(waiting);
        var m :| m in waiting;
        ok := Zincrby(period, m, increments[m]);
        if !ok {
          return;
        }
        IncrementedOneMore(start, period, increments, applied, m);
        waiting := waiting - {m};
        applied := applied + {m};
      }
      ok := true;
    }

    /** ZREVRANGE 0 n-1 WITHSCORES; an end of -1 is the last member, so n = 0 asks for all of them. */
    method LeaderboardTopN(period: Period, n: nat) returns (entries: seq<Entry>)
      ensures IsTop(PeriodScores(board, period), if n == 0 then |PeriodScores(board, period)| else n, entries)
    {
      var scores := PeriodScores(board, period);
      entries := TopN(scores, if n == 0 then |scores| else n);
    }

    method LeaderboardExists(period: Period) returns (r: bool)
      ensures r <==> PeriodScores(board, period) != map[]
    {
      r := exists k :: k in board && k.period == period;
      if r {
        ghost var k :| k in board && k.period == period;
        assert k.merchantId in PeriodScores(board, period);
      }
    }

    /** DEL and one ZADD per entry, in one MULTI/EXEC. */
    method LeaderboardRebuild(period: Period, entries: seq<Entry>)
      modifies `board
      ensures PeriodScores(board, period) == ScoresOf(entries)
      ensures forall k: BoardKey :: k.period != period ==>
                (k in board <==> k in old(board)) && Score(board, k) == Score(old(board), k)
    {
      PeriodCleared(board, period);
      board := OtherPeriods(board, period);
      for i := 0 to |entries|
        invariant PeriodScores(board, period) == ScoresOf(entries[..i])
        invariant forall k: BoardKey :: k.period != period ==>
                    (k in board <==> k in old(board)) && Score(board, k) == Score(old(board), k)
      {
        assert entries[..i + 1][..i] == entries[..i];
        MemberAdded(board, period, entries[i].merchantId, entries[i].volume);
        board := board[BoardKey(period, entries[i].merchantId) := entries[i].volume];
      }
      assert entries[..|entries|] == entries;
    }
  }

  /** Confirmed payments per period and merchant. */
  method PeriodIncrements(events: seq<RawEvent>) returns (increments: map<Period, map<MerchantId, int>>)
    ensures Accumulated(increments, events)
  {
    increments := map[];
    for i := 0 to |events|
      invariant Accumulated(increments, events[..i])
    {
      var event := events[i];
      if event.eventType == PaymentConfirmed {
        var period := PeriodKey(BucketTs(event));
        var merchants := if period in increments then increments[period] else map[];
        var before := if event.merchantId in merchants then merchants[event.merchantId] else 0;
        AccumulateConfirmed(increments, events, i);
        increments := increments[period := merchants[event.merchantId := before + event.amountCents]];
      } else {
        AccumulateOther(increments, events, i);
      }
    }
    assert events[..|events|] == events;
  }

  /** Accumulate a batch's increments, then publish them period by period; a Redis failure is swallowed.
      Returns the members whose increments arrived: all of them unless the connection failed. */
  method UpdateLeaderboard(redis: RedisRepository, events: seq<RawEvent>) returns (ghost delivered: set<BoardKey>)
    modifies redis
    ensures redis.board == AddVolume(old(redis.board), events, delivered)
    ensures delivered <= Touched(events)
    ensures old(redis.survives).None? ==> delivered == Touched(events)
    ensures delivered == Touched(events) || redis.survives == Some(0)
  {
    var increments := PeriodIncrements(events);
    delivered := {};
    var periods := increments.Keys;
    ghost var start := redis.board;
    assert redis.board == AddVolume(start, events, {});
    while periods != {}
      invariant periods <= increments.Keys
      invariant redis.board == AddVolume(start, events, delivered)
      invariant Published(events, periods, delivered) && (old(redis.survives).None? ==> redis.survives.None?)
    {
      var period :| period in periods;
      var ok;
      ghost var applied;
      ghost var before := redis.board;
      ok, applied := redis.LeaderboardIncrementBatch(period, increments[period]);
      PublishedMore(start, before, redis.board, events, delivered, period, applied, increments[period]);
      PublishedPeriod(events, periods, delivered, period, applied, increments[period].Keys);
      delivered := delivered + MembersOf(period, applied);
      periods := periods - {period};
      if !ok {
        break;
      }
    }
  }

  /** The members of the periods no longer waiting have been delivered, and no others. */
  predicate Published(events: seq<RawEvent>, waiting: set<Period>, delivered: set<BoardKey>) {
    && delivered <= Touched(events)
    && (forall k :: k in Touched(events) && k.period !in waiting ==> k in delivered)
    && (forall k :: k in delivered ==> k.period !in waiting)
  }

  lemma PublishedMore(start: Board, before: Board, board: Board, events: seq<RawEvent>, delivered: set<BoardKey>,
                      period: Period, applied: set<MerchantId>, increments: map<MerchantId, int>)
    requires before == AddVolume(start, events, delivered) && applied <= increments.Keys
    requires forall m :: m in increments ==>
               && BoardKey(period, m) in Touched(events) && BoardKey(period, m) !in delivered
               && increments[m] == Volume(events, BoardKey(period, m))
    requires board == Incremented(before, period, increments, applied)
    ensures board == AddVolume(start, events, delivered + MembersOf(period, applied))
  {
    var more := MembersOf(period, applied);
    forall k
      ensures k in more <==> k.period == period && k.merchantId in applied
      ensures Score(AddVolume(start, events, delivered + more), k) == Score(board, k)
    {
      assert k == BoardKey(k.period, k.merchantId);
      ScoreAfterAdding(start, events, delivered, k);
      ScoreAfterAdding(start, events, delivered + more, k);
    }
    SameBoard(board, AddVolume(start, events, delivered + more));
  }

  lemma PublishedPeriod(events: seq<RawEvent>, waiting: set<Period>, delivered: set<BoardKey>, period: Period,
                        applied: set<MerchantId>, due: set<MerchantId>)
    requires Published(events, waiting, delivered) && period in waiting && applied <= due
    requires forall m :: m in due <==> BoardKey(period, m) in Touched(events)
    ensures applied == due ==> Published(events, waiting - {period}, delivered + MembersOf(period, applied))
    ensures delivered + MembersOf(period, applied) <= Touched(events)
  {
    var more := MembersOf(period, applied);
    forall k | k in Touched(events) && k.period == period && applied == due
      ensures k in more
    {
      assert k == BoardKey(period, k.merchantId);
    }
  }
}
