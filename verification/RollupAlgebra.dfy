/** Rollup tables as a commutative monoid: upserts, the fold of a list of events into a table,
    and what GROUP BY queries read back from it. */
module RollupAlgebra {
  import opened Calendar
  import opened Events

  /** The non-key columns of a rollup row. */
  datatype Row = Row(count: int, sum: int, min: int, max: int)

  type Table = map<Key, Row>

  function Unit(amount: int): Row {
    Row(1, amount, amount, amount)
  }

  function Min(a: int, b: int): int {
    if a <= b then a else b
  }

  function Max(a: int, b: int): int {
    if a >= b then a else b
  }

  /** count + EXCLUDED.count, sum + EXCLUDED.sum, LEAST and GREATEST. */
  function MergeRow(a: Row, b: Row): Row {
    Row(a.count + b.count, a.sum + b.sum, Min(a.min, b.min), Max(a.max, b.max))
  }

  function MergeCell(a: Option<Row>, b: Option<Row>): Option<Row> {
    match (a, b)
    case (None, _) => b
    case (_, None) => a
    case (Some(x), Some(y)) => Some(MergeRow(x, y))
  }

  function Cell(t: Table, k: Key): Option<Row> {
    if k in t then Some(t[k]) else None
  }

  /** INSERT ... ON CONFLICT DO UPDATE of one row. */
  function Upsert(t: Table, k: Key, r: Row): Table {
    t[k := if k in t then MergeRow(t[k], r) else r]
  }

  /** The multi-row upsert of a delta map with distinct keys. */
  function Merge(t: Table, delta: Table): Table {
    map k | k in t.Keys + delta.Keys ::
      if k !in delta then t[k] else if k !in t then delta[k] else MergeRow(t[k], delta[k])
  }

  /** Aggregating a list of events, last event last, into a table of granularity g. */
  function TableOf(g: Granularity, s: seq<RawEvent>): Table {
    if s == [] then map[]
    else
      var e := s[|s| - 1];
      Upsert(TableOf(g, s[..|s| - 1]), KeyOf(g, e), Unit(e.amountCents))
  }

  // ----- The monoid laws -----

  lemma CellOfMerge(t: Table, u: Table, k: Key)
    ensures Cell(Merge(t, u), k) == MergeCell(Cell(t, k), Cell(u, k))
  {
  }

  lemma SameCells(t: Table, u: Table)
    requires forall k :: Cell(t, k) == Cell(u, k)
    ensures t == u
  {
    forall k
      ensures k in t <==> k in u
      ensures k in t && k in u ==> t[k] == u[k]
    {
      assert Cell(t, k) == Cell(u, k);
    }
  }

  lemma MergeCommutes(t: Table, u: Table)
    ensures Merge(t, u) == Merge(u, t)
  {
  }

  lemma MergeAssociates(t: Table, u: Table, v: Table)
    ensures Merge(Merge(t, u), v) == Merge(t, Merge(u, v))
  {
  }

  lemma MergeEmpty(t: Table)
    ensures Merge(t, map[]) == t && Merge(map[], t) == t
  {
  }

  /** (t + u) + v == (t + v) + u */
  lemma MergeSwapsLast(t: Table, u: Table, v: Table)
    ensures Merge(Merge(t, u), v) == Merge(Merge(t, v), u)
  {
    MergeAssociates(t, u, v);
    MergeAssociates(t, v, u);
    MergeCommutes(u, v);
  }

  lemma UpsertIsMerge(t: Table, k: Key, r: Row)
    ensures Upsert(t, k, r) == Merge(t, map[k := r])
  {
  }

  // ----- Aggregating lists -----

  lemma TableOfOne(g: Granularity, e: RawEvent)
    ensures TableOf(g, [e]) == map[KeyOf(g, e) := Unit(e.amountCents)]
  {
  }

  lemma TableOfSnoc(g: Granularity, s: seq<RawEvent>, e: RawEvent)
    ensures TableOf(g, s + [e]) == Upsert(TableOf(g, s), KeyOf(g, e), Unit(e.amountCents))
    ensures TableOf(g, s + [e]) == Merge(TableOf(g, s), TableOf(g, [e]))
  {
    assert (s + [e])[..|s|] == s;
    TableOfOne(g, e);
    UpsertIsMerge(TableOf(g, s), KeyOf(g, e), Unit(e.amountCents));
  }

  /** Splitting a batch anywhere and merging the parts changes nothing. */
  lemma {:induction false} TableOfConcat(g: Granularity, s: seq<RawEvent>, u: seq<RawEvent>)
    ensures TableOf(g, s + u) == Merge(TableOf(g, s), TableOf(g, u))
  {
    if u == [] {
      assert s + u == s;
      MergeEmpty(TableOf(g, s));
    } else {
      var init, e := u[..|u| - 1], u[|u| - 1];
      assert u == init + [e] && s + u == (s + init) + [e];
      TableOfConcat(g, s, init);
      TableOfSnoc(g, s + init, e);
      TableOfSnoc(g, init, e);
      MergeAssociates(TableOf(g, s), TableOf(g, init), TableOf(g, [e]));
    }
  }

  lemma DropFromBoth(init: seq<RawEvent>, before: seq<RawEvent>, after: seq<RawEvent>, e: RawEvent)
    requires multiset(init + [e]) == multiset((before + [e]) + after)
    ensures multiset(init) == multiset(before + after)
  {
    assert multiset(init + [e]) == multiset(init) + multiset{e};
    assert multiset((before + [e]) + after) == multiset(before) + multiset{e} + multiset(after);
    assert multiset(before + after) == multiset(before) + multiset(after);
    assert multiset(init) == multiset(init + [e]) - multiset{e};
  }

  /** The order of the events is irrelevant. */
  lemma {:induction false} TableOfPermutation(g: Granularity, s: seq<RawEvent>, u: seq<RawEvent>)
    requires multiset(s) == multiset(u)
    ensures TableOf(g, s) == TableOf(g, u)
  {
    if s == [] {
      assert |multiset(u)| == 0;
    } else {
      var init, e := s[..|s| - 1], s[|s| - 1];
      assert s == init + [e];
      assert e in multiset(u);
      var i :| 0 <= i < |u| && u[i] == e;
      var before, after := u[..i], u[i + 1..];
      assert u == (before + [e]) + after;
      DropFromBoth(init, before, after, e);
      TableOfPermutation(g, init, before + after);
      TableOfSnoc(g, init, e);
      TableOfSnoc(g, before, e);
      TableOfConcat(g, before + [e], after);
      TableOfConcat(g, before, after);
      MergeSwapsLast(TableOf(g, before), TableOf(g, [e]), TableOf(g, after));
    }
  }

  // ----- Aggregating the events that satisfy a condition -----

  function AggOf(s: seq<RawEvent>, p: RawEvent -> bool): Option<Row> {
    if s == [] then None
    else
      var e := s[|s| - 1];
      var rest := AggOf(s[..|s| - 1], p);
      if p(e) then MergeCell(rest, Some(Unit(e.amountCents))) else rest
  }

  function CountWhere(s: seq<RawEvent>, p: RawEvent -> bool): nat {
    if s == [] then 0
    else CountWhere(s[..|s| - 1], p) + if p(s[|s| - 1]) then 1 else 0
  }

  function SumWhere(s: seq<RawEvent>, p: RawEvent -> bool): int {
    if s == [] then 0
    else SumWhere(s[..|s| - 1], p) + if p(s[|s| - 1]) then s[|s| - 1].amountCents else 0
  }

  function CountIn(a: Option<Row>): int {
    if a.Some? then a.value.count else 0
  }

  function SumIn(a: Option<Row>): int {
    if a.Some? then a.value.sum else 0
  }

  /** The row's count and sum are the number and the total of the matching amounts. */
  lemma {:induction false} AggOfCounts(s: seq<RawEvent>, p: RawEvent -> bool)
    ensures CountIn(AggOf(s, p)) == CountWhere(s, p)
    ensures SumIn(AggOf(s, p)) == SumWhere(s, p)
  {
    if s != [] {
      AggOfCounts(s[..|s| - 1], p);
    }
  }

  /** There is a row exactly when some event matches, and its min and max are attained bounds. */
  lemma {:induction false} AggOfBounds(s: seq<RawEvent>, p: RawEvent -> bool)
    ensures AggOf(s, p).None? <==> forall e :: e in s ==> !p(e)
    ensures AggOf(s, p).Some? ==>
              var r := AggOf(s, p).value;
              && (forall e :: e in s && p(e) ==> r.min <= e.amountCents <= r.max)
              && (exists e :: e in s && p(e) && e.amountCents == r.min)
              && (exists e :: e in s && p(e) && e.amountCents == r.max)
  {
    if s != [] {
      var init, last := s[..|s| - 1], s[|s| - 1];
      AggOfBounds(init, p);
      assert s == init + [last];
      assert last in s;
      assert forall e :: e in s <==> e in init || e == last;
      if AggOf(init, p).Some? {
        var lo :| lo in init && p(lo) && lo.amountCents == AggOf(init, p).value.min;
        var hi :| hi in init && p(hi) && hi.amountCents == AggOf(init, p).value.max;
        assert lo in s && hi in s;
      }
    }
  }

  lemma {:induction false} AggOfSamePredicate(s: seq<RawEvent>, p: RawEvent -> bool, q: RawEvent -> bool)
    requires forall e :: e in s ==> p(e) == q(e)
    ensures AggOf(s, p) == AggOf(s, q)
    ensures CountWhere(s, p) == CountWhere(s, q) && SumWhere(s, p) == SumWhere(s, q)
  {
    if s != [] {
      AggOfSamePredicate(s[..|s| - 1], p, q);
    }
  }

  // ----- GROUP BY over a table -----

  /** The aggregate (sum, sum, min, max) of the rows of t under the keys ks. */
  ghost function Total(t: Table, ks: set<Key>): Option<Row> {
    if ks == {} then None
    else
      var k :| k in ks;
      MergeCell(Cell(t, k), Total(t, ks - {k}))
  }

  lemma MergeCellLaws(a: Option<Row>, b: Option<Row>, c: Option<Row>)
    ensures MergeCell(a, b) == MergeCell(b, a)
    ensures MergeCell(MergeCell(a, b), c) == MergeCell(a, MergeCell(b, c))
  {
  }

  /** The aggregate does not depend on the order in which rows are visited. */
  lemma {:induction false} TotalPick(t: Table, ks: set<Key>, k: Key)
    requires k in ks
    ensures Total(t, ks) == MergeCell(Cell(t, k), Total(t, ks - {k}))
    decreases |ks|
  {
    var j :| j in ks && Total(t, ks) == MergeCell(Cell(t, j), Total(t, ks - {j}));
    if j != k {
      TotalPick(t, ks - {j}, k);
      TotalPick(t, ks - {k}, j);
      assert ks - {j} - {k} == ks - {k} - {j};
      var rest := Total(t, ks - {j} - {k});
      MergeCellLaws(Cell(t, j), Cell(t, k), rest);
      MergeCellLaws(Cell(t, k), Cell(t, j), rest);
    }
  }

  lemma {:induction false} TotalFrame(t: Table, u: Table, ks: set<Key>)
    requires forall k :: k in ks ==> Cell(t, k) == Cell(u, k)
    ensures Total(t, ks) == Total(u, ks)
    decreases |ks|
  {
    if ks != {} {
      var k :| k in ks;
      TotalPick(t, ks, k);
      TotalPick(u, ks, k);
      TotalFrame(t, u, ks - {k});
    }
  }

  lemma {:induction false} TotalUnion(t: Table, ks: set<Key>, js: set<Key>)
    requires ks !! js
    ensures Total(t, ks + js) == MergeCell(Total(t, ks), Total(t, js))
    decreases |ks|
  {
    if ks == {} {
      assert ks + js == js;
    } else {
      var k :| k in ks;
      TotalPick(t, ks, k);
      TotalPick(t, ks + js, k);
      assert (ks + js) - {k} == (ks - {k}) + js;
      TotalUnion(t, ks - {k}, js);
      MergeCellLaws(Cell(t, k), Total(t, ks - {k}), Total(t, js));
    }
  }

  lemma TotalOne(t: Table, k: Key)
    ensures Total(t, {k}) == Cell(t, k)
  {
  }

  function RowsWhere(t: Table, sel: Key -> bool): set<Key> {
    set k | k in t && sel(k)
  }

  /** Reading rows selected by key is the same as scanning the raw events whose key is selected. */
  lemma {:induction false} RowsReadEvents(g: Granularity, s: seq<RawEvent>, sel: Key -> bool)
    ensures Total(TableOf(g, s), RowsWhere(TableOf(g, s), sel)) == AggOf(s, e => sel(KeyOf(g, e)))
  {
    if s != [] {
      var init, e := s[..|s| - 1], s[|s| - 1];
      RowsReadEvents(g, init, sel);
      TotalAfterUpsert(TableOf(g, init), KeyOf(g, e), Unit(e.amountCents), sel);
      var p := (x: RawEvent) => sel(KeyOf(g, x));
      assert AggOf(s, p) == if p(e) then MergeCell(AggOf(init, p), Some(Unit(e.amountCents))) else AggOf(init, p);
    }
  }

  lemma TotalAfterUpsert(t: Table, k: Key, r: Row, sel: Key -> bool)
    ensures Total(Upsert(t, k, r), RowsWhere(Upsert(t, k, r), sel))
         == if sel(k) then MergeCell(Total(t, RowsWhere(t, sel)), Some(r)) else Total(t, RowsWhere(t, sel))
  {
    var u := Upsert(t, k, r);
    var before, after := RowsWhere(t, sel), RowsWhere(u, sel);
    TotalFrame(t, u, before - {k});
    if sel(k) {
      assert after - {k} == before - {k};
      TotalPick(u, after, k);
      var rest := Total(t, before - {k});
      if k in t {
        TotalPick(t, before, k);
        MergeCellLaws(Cell(t, k), Some(r), rest);
        MergeCellLaws(Cell(t, k), rest, Some(r));
        MergeCellLaws(Some(r), rest, None);
      } else {
        assert before - {k} == before;
        MergeCellLaws(Some(r), rest, None);
      }
    } else {
      assert before - {k} == before == after;
    }
  }

  /** Every cell of the table is the aggregate over the events bucketed into it, and no cell is an orphan. */
  lemma {:induction false} CellReadsEvents(g: Granularity, s: seq<RawEvent>, k: Key)
    ensures Cell(TableOf(g, s), k) == AggOf(s, e => KeyOf(g, e) == k)
  {
    var t := TableOf(g, s);
    var sel := (j: Key) => j == k;
    RowsReadEvents(g, s, sel);
    AggOfSamePredicate(s, e => sel(KeyOf(g, e)), e => KeyOf(g, e) == k);
    assert RowsWhere(t, sel) == if k in t then {k} else {};
    TotalOne(t, k);
  }

  // ----- Consequences that hold of every aggregated table -----

  predicate RowInBounds(r: Row) {
    r.count >= 1 && r.count * r.min <= r.sum <= r.count * r.max
  }

  lemma MergeKeepsBounds(a: Row, b: Row)
    requires RowInBounds(a) && RowInBounds(b)
    ensures RowInBounds(MergeRow(a, b))
  {
    var lo, hi := Min(a.min, b.min), Max(a.max, b.max);
    assert a.count * lo <= a.count * a.min && b.count * lo <= b.count * b.min;
    assert a.count * hi >= a.count * a.max && b.count * hi >= b.count * b.max;
    assert (a.count + b.count) * lo == a.count * lo + b.count * lo;
    assert (a.count + b.count) * hi == a.count * hi + b.count * hi;
  }

  lemma {:induction false} TableInBounds(g: Granularity, s: seq<RawEvent>)
    ensures forall k :: k in TableOf(g, s) ==> RowInBounds(TableOf(g, s)[k])
  {
    if s != [] {
      var init, e := s[..|s| - 1], s[|s| - 1];
      TableInBounds(g, init);
      var k := KeyOf(g, e);
      assert RowInBounds(Unit(e.amountCents));
      if k in TableOf(g, init) {
        MergeKeepsBounds(TableOf(g, init)[k], Unit(e.amountCents));
      }
    }
  }

  function CoarserKey(g: Granularity, k: Key): Key {
    k.(bucket := Floor(g, k.bucket))
  }

  /** Each coarse row is the aggregate of the finer rows under it, with orphans on neither side. */
  lemma CoarseRowsAggregateFiner(fine: Granularity, coarse: Granularity, s: seq<RawEvent>, k: Key)
    requires (fine, coarse) in {(Minute, Hour), (Hour, Day)}
    ensures Cell(TableOf(coarse, s), k)
         == Total(TableOf(fine, s), RowsWhere(TableOf(fine, s), (j: Key) => CoarserKey(coarse, j) == k))
  {
    var sel := (j: Key) => CoarserKey(coarse, j) == k;
    forall e
      ensures sel(KeyOf(fine, e)) <==> KeyOf(coarse, e) == k
    {
      KeyOfFloor(fine, e);
      KeyOfFloor(coarse, e);
      FloorOfFiner(EventInstant(e));
    }
    CellReadsEvents(coarse, s, k);
    RowsReadEvents(fine, s, sel);
    AggOfSamePredicate(s, e => KeyOf(coarse, e) == k, e => sel(KeyOf(fine, e)));
  }
}
