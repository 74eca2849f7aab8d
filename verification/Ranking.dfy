/** Top-N selections: ORDER BY score DESC LIMIT n, ZREVRANGE 0 n-1, and RANK(). */
module Ranking {
  import opened Events
  import opened FiniteSets
  import opened RollupAlgebra

  datatype Entry = Entry(merchantId: MerchantId, volume: int)

  type Scores = map<MerchantId, int>

  /** The entries are distinct, carry their scores, never increase, and no merchant left out scores more than one
      listed. */
  predicate Leads(scores: Scores, entries: seq<Entry>) {
    && (forall i, j :: 0 <= i < j < |entries| ==> entries[i].merchantId != entries[j].merchantId)
    && (forall x :: x in entries ==> x.merchantId in scores && x.volume == scores[x.merchantId])
    && (forall i, j :: 0 <= i < j < |entries| ==> entries[i].volume >= entries[j].volume)
    && (forall m, x :: m in scores && m !in Listed(entries) && x in entries ==> scores[m] <= x.volume)
  }

  /** A possible answer: min(n, merchants) entries in the lead; the order among equal scores is left open. */
  predicate IsTop(scores: Scores, n: nat, entries: seq<Entry>) {
    |entries| == Min(n, |scores|) && Leads(scores, entries)
  }

  function Listed(entries: seq<Entry>): set<MerchantId> {
    set x | x in entries :: x.merchantId
  }

  lemma {:induction false} AsManyListed(entries: seq<Entry>)
    requires forall i, j :: 0 <= i < j < |entries| ==> entries[i].merchantId != entries[j].merchantId
    ensures |Listed(entries)| == |entries|
  {
    if entries != [] {
      var init, last := entries[..|entries| - 1], entries[|entries| - 1];
      assert entries == init + [last];
      AsManyListed(init);
      assert last.merchantId !in Listed(init);
      assert Listed(entries) == Listed(init) + {last.merchantId};
    }
  }

  lemma {:induction false} Largest(scores: Scores, s: set<MerchantId>) returns (best: MerchantId)
    requires s != {} && s <= scores.Keys
    ensures best in s && forall m :: m in s ==> scores[m] <= scores[best]
    decreases |s|
  {
    var some := Member(s);
    if s == {some} {
      best := some;
    } else {
      var rest := Largest(scores, s - {some});
      best := if scores[rest] > scores[some] then rest else some;
      assert forall m :: m in s ==> m == some || m in s - {some};
    }
  }

  lemma ListedOneMore(entries: seq<Entry>, last: Entry)
    ensures Listed(entries + [last]) == Listed(entries) + {last.merchantId}
    ensures forall x :: x in entries + [last] <==> x in entries || x == last
  {
    var longer := entries + [last];
    assert longer[|entries|] == last;
    forall x | x in entries
      ensures x in longer
    {
      var i :| 0 <= i < |entries| && entries[i] == x;
      assert longer[i] == x;
    }
  }

  /** The best of those not listed differs from every entry and scores no more. */
  lemma ComesAfter(scores: Scores, entries: seq<Entry>, best: MerchantId, i: nat)
    requires Leads(scores, entries) && best in scores && best !in Listed(entries) && i < |entries|
    ensures entries[i].merchantId != best && entries[i].volume >= scores[best]
  {
    assert entries[i] in entries;
    assert entries[i].merchantId in Listed(entries);
  }

  lemma LeadOneMore(scores: Scores, entries: seq<Entry>, best: MerchantId)
    requires Leads(scores, entries) && best in scores && best !in Listed(entries)
    requires forall m :: m in scores && m !in Listed(entries) ==> scores[m] <= scores[best]
    ensures Leads(scores, entries + [Entry(best, scores[best])])
    ensures Listed(entries + [Entry(best, scores[best])]) == Listed(entries) + {best}
  {
    ListedOneMore(entries, Entry(best, scores[best]));
    forall i | 0 <= i < |entries|
      ensures entries[i].merchantId != best && entries[i].volume >= scores[best]
    {
      ComesAfter(scores, entries, best, i);
    }
  }

  lemma LeadersAreTop(scores: Scores, n: nat, entries: seq<Entry>)
    requires Leads(scores, entries) && |entries| <= n
    requires |entries| == n || scores.Keys - Listed(entries) == {}
    ensures IsTop(scores, n, entries)
  {
    AsManyListed(entries);
    Fewer(Listed(entries), scores.Keys);
    if |entries| < n {
      forall m | m in scores.Keys
        ensures m in Listed(entries)
      {
        assert m !in scores.Keys - Listed(entries);
      }
      assert Listed(entries) == scores.Keys;
    }
  }

  method Best(scores: Scores, s: set<MerchantId>) returns (best: MerchantId)
    requires s != {} && s <= scores.Keys
    ensures best in s && forall m :: m in s ==> scores[m] <= scores[best]
  {
    ghost var largest := Largest(scores, s);
    best :| best in s && forall m :: m in s ==> scores[m] <= scores[best];
  }

  /** The best of the merchants not yet listed comes next. */
  method AddBest(scores: Scores, entries: seq<Entry>) returns (longer: seq<Entry>)
    requires Leads(scores, entries) && scores.Keys - Listed(entries) != {}
    ensures Leads(scores, longer) && |longer| == |entries| + 1
  {
    var best := Best(scores, scores.Keys - Listed(entries));
    LeadOneMore(scores, entries, best);
    longer := entries + [Entry(best, scores[best])];
  }

  method TopN(scores: Scores, n: nat) returns (entries: seq<Entry>)
    ensures IsTop(scores, n, entries)
  {
    entries := [];
    while |entries| < n && scores.Keys - Listed(entries) != {}
      invariant Leads(scores, entries) && |entries| <= n
    {
      entries := AddBest(scores, entries);
    }
    LeadersAreTop(scores, n, entries);
  }

  // ----- RANK() -----

  function Above(scores: Scores, v: int): set<MerchantId> {
    set m | m in scores && scores[m] > v
  }

  function AtLeast(scores: Scores, v: int): set<MerchantId> {
    set m | m in scores && scores[m] >= v
  }

  /** RANK() OVER (ORDER BY score DESC) */
  function Rank(scores: Scores, merchantId: MerchantId): nat
    requires merchantId in scores
  {
    1 + |Above(scores, scores[merchantId])|
  }

  lemma AboveAreBefore(scores: Scores, n: nat, entries: seq<Entry>, i: nat)
    requires IsTop(scores, n, entries) && i < |entries|
    ensures Above(scores, entries[i].volume) <= Listed(entries[..i])
  {
    forall m | m in Above(scores, entries[i].volume)
      ensures m in Listed(entries[..i])
    {
      assert entries[i] in entries;
      var x :| x in entries && x.merchantId == m;
      var j :| 0 <= j < |entries| && entries[j] == x;
      assert j < i;
      assert entries[..i][j] == x;
    }
  }

  lemma BeforeAreAtLeast(scores: Scores, n: nat, entries: seq<Entry>, i: nat)
    requires IsTop(scores, n, entries) && i < |entries|
    ensures Listed(entries[..i + 1]) <= AtLeast(scores, entries[i].volume)
  {
    forall m | m in Listed(entries[..i + 1])
      ensures m in AtLeast(scores, entries[i].volume)
    {
      var x :| x in entries[..i + 1] && x.merchantId == m;
      assert x in entries;
    }
  }

  /** The entry at position i stands above all but i scores, and i + 1 scores stand at least as high. */
  lemma PositionAmongScores(scores: Scores, n: nat, entries: seq<Entry>, i: nat)
    requires IsTop(scores, n, entries) && i < |entries|
    ensures |Above(scores, entries[i].volume)| <= i < |AtLeast(scores, entries[i].volume)|
  {
    var v := entries[i].volume;
    AboveAreBefore(scores, n, entries, i);
    AsManyListed(entries[..i]);
    Fewer(Above(scores, v), Listed(entries[..i]));
    BeforeAreAtLeast(scores, n, entries, i);
    AsManyListed(entries[..i + 1]);
    Fewer(Listed(entries[..i + 1]), AtLeast(scores, v));
  }

  /** Ties apart the answer is determined: any two answers list the same volumes. */
  lemma TopVolumesAreDetermined(scores: Scores, n: nat, x: seq<Entry>, y: seq<Entry>, i: nat)
    requires IsTop(scores, n, x) && IsTop(scores, n, y) && i < |x|
    ensures |x| == |y| && x[i].volume == y[i].volume
  {
    PositionAmongScores(scores, n, x, i);
    PositionAmongScores(scores, n, y, i);
    if x[i].volume > y[i].volume {
      Fewer(AtLeast(scores, x[i].volume), Above(scores, y[i].volume));
    } else if y[i].volume > x[i].volume {
      Fewer(AtLeast(scores, y[i].volume), Above(scores, x[i].volume));
    }
  }

  /** An entry's RANK is its position, counted from 1, exactly when it does not tie with the entry before it, and is
      smaller otherwise. */
  lemma RankAgainstPosition(scores: Scores, n: nat, entries: seq<Entry>, i: nat)
    requires IsTop(scores, n, entries) && i < |entries|
    ensures entries[i].merchantId in scores
    ensures Rank(scores, entries[i].merchantId) <= i + 1
    ensures Rank(scores, entries[i].merchantId) == i + 1 <==> i == 0 || entries[i - 1].volume > entries[i].volume
  {
    assert entries[i] in entries;
    PositionAmongScores(scores, n, entries, i);
    if i > 0 {
      PositionAmongScores(scores, n, entries, i - 1);
      if entries[i - 1].volume > entries[i].volume {
        Fewer(AtLeast(scores, entries[i - 1].volume), Above(scores, entries[i].volume));
      }
    }
  }

  // ----- Who is listed, before the answer is known -----

  /** Entries in the lead can be extended to a full answer. */
  lemma {:induction false} ExtendToTop(scores: Scores, n: nat, entries: seq<Entry>) returns (top: seq<Entry>)
    requires Leads(scores, entries) && |entries| <= n
    ensures IsTop(scores, n, top) && entries <= top
    decreases n - |entries|
  {
    if |entries| == n || scores.Keys - Listed(entries) == {} {
      LeadersAreTop(scores, n, entries);
      top := entries;
    } else {
      var best := Largest(scores, scores.Keys - Listed(entries));
      LeadOneMore(scores, entries, best);
      top := ExtendToTop(scores, n, entries + [Entry(best, scores[best])]);
    }
  }

  /** Somebody left out of an answer is one too many among those who score at least as much. */
  lemma LeftOutIsOneTooMany(scores: Scores, n: nat, top: seq<Entry>, m: MerchantId)
    requires IsTop(scores, n, top) && m in scores && m !in Listed(top)
    ensures |AtLeast(scores, scores[m])| > n
  {
    assert Listed(top) + {m} <= AtLeast(scores, scores[m]);
    AsManyListed(top);
    Fewer(Listed(top) + {m}, AtLeast(scores, scores[m]));
    Fewer(Listed(top) + {m}, scores.Keys);
  }

  /** With n others who score at least as much, an answer can leave m out. */
  lemma TopWithout(scores: Scores, n: nat, m: MerchantId) returns (top: seq<Entry>)
    requires m in scores && |AtLeast(scores, scores[m])| > n
    ensures IsTop(scores, n, top) && m !in Listed(top)
  {
    var others: Scores := scores - {m};
    top := ExtendToTop(others, n, []);
    var rivals := AtLeast(others, scores[m]);
    assert rivals == AtLeast(scores, scores[m]) - {m};
    Fewer(rivals, others.Keys);
    assert others.Keys == scores.Keys - {m};
    assert |scores| == |scores.Keys| && |others| == |others.Keys|;
    forall i | 0 <= i < |top|
      ensures top[i].volume >= scores[m]
    {
      PositionAmongScores(others, n, top, i);
      if top[i].volume < scores[m] {
        Fewer(rivals, Above(others, top[i].volume));
      }
    }
  }

  /** With fewer than n above, an answer can list m. */
  lemma TopWith(scores: Scores, n: nat, m: MerchantId) returns (top: seq<Entry>)
    requires m in scores && |Above(scores, scores[m])| < n
    ensures IsTop(scores, n, top) && m in Listed(top)
  {
    var above := Above(scores, scores[m]);
    var leaders := ExtendToTop(scores, |above|, []);
    LeadersAreAbove(scores, leaders, m);
    LeadOneMore(scores, leaders, m);
    var longer := leaders + [Entry(m, scores[m])];
    top := ExtendToTop(scores, n, longer);
    assert longer[|leaders|] == top[|leaders|] && top[|leaders|] in top;
  }

  lemma LeadersAreAbove(scores: Scores, leaders: seq<Entry>, m: MerchantId)
    requires m in scores && IsTop(scores, |Above(scores, scores[m])|, leaders)
    ensures Listed(leaders) == Above(scores, scores[m])
  {
    var above := Above(scores, scores[m]);
    Fewer(above, scores.Keys);
    AsManyListed(leaders);
    forall a | a in above
      ensures a in Listed(leaders)
    {
      if a !in Listed(leaders) {
        assert Listed(leaders) <= above - {a};
        Fewer(Listed(leaders), above - {a});
      }
    }
    SameSize(above, Listed(leaders));
  }

  /** Every answer lists m exactly when at most n, m included, score at least as much. */
  lemma AlwaysListedIff(scores: Scores, n: nat, m: MerchantId)
    requires m in scores
    ensures (forall top :: IsTop(scores, n, top) ==> m in Listed(top)) <==> |AtLeast(scores, scores[m])| <= n
  {
    forall top: seq<Entry> | IsTop(scores, n, top) && m !in Listed(top)
      ensures |AtLeast(scores, scores[m])| > n
    {
      LeftOutIsOneTooMany(scores, n, top, m);
    }
    if |AtLeast(scores, scores[m])| > n {
      var top := TopWithout(scores, n, m);
    }
  }

  /** No answer lists m exactly when at least n score more; in between, ties decide. */
  lemma NeverListedIff(scores: Scores, n: nat, m: MerchantId)
    requires m in scores
    ensures (forall top :: IsTop(scores, n, top) ==> m !in Listed(top)) <==> n <= |Above(scores, scores[m])|
  {
    forall top: seq<Entry> | IsTop(scores, n, top) && m in Listed(top)
      ensures |Above(scores, scores[m])| < n
    {
      var x :| x in top && x.merchantId == m;
      var i :| 0 <= i < |top| && top[i] == x;
      PositionAmongScores(scores, n, top, i);
    }
    if |Above(scores, scores[m])| < n {
      var top := TopWith(scores, n, m);
    }
  }
}
