/** What LIMIT leaves out of the cursor query, and when it cuts a group of rows with equal created_at. */
module Windows {
  import opened Events
  import opened FiniteSets
  import opened EventRepositories

  function LastOf(events: seq<RawEvent>): RawEvent
    requires events != []
  {
    events[|events| - 1]
  }

  function EventsIn(events: seq<RawEvent>): set<RawEvent> {
    set e | e in events
  }

  /** The rows the cursor query still has to deliver. */
  function Remaining(log: seq<RawEvent>, after: Option<EventId>): set<RawEvent> {
    set e | e in log && IsAfter(log, after, e)
  }

  /** The remaining rows that sort up to e, and those created strictly before it. */
  function RowsUpTo(log: seq<RawEvent>, after: Option<EventId>, e: RawEvent): set<RawEvent> {
    set x | x in log && IsAfter(log, after, x) && InOrder(after, x, e)
  }

  function RowsBefore(log: seq<RawEvent>, after: Option<EventId>, e: RawEvent): set<RawEvent> {
    set x | x in log && IsAfter(log, after, x) && x.createdAt < e.createdAt
  }

  lemma {:induction false} AsManyEvents(events: seq<RawEvent>)
    requires DistinctIds(events)
    ensures |EventsIn(events)| == |events|
  {
    if events != [] {
      var init, last := events[..|events| - 1], events[|events| - 1];
      assert events == init + [last];
      AsManyEvents(init);
      assert last !in init;
      assert EventsIn(events) == EventsIn(init) + {last};
    }
  }

  lemma WindowUpToLast(log: seq<RawEvent>, after: Option<EventId>, limit: nat, w: seq<RawEvent>, e: RawEvent)
    requires IsWindow(log, after, limit, w) && e in w
    ensures e.createdAt <= LastOf(w).createdAt
  {
  }

  /** The window leaves e out although it takes a row with the same created_at. */
  predicate CutsOff(log: seq<RawEvent>, after: Option<EventId>, w: seq<RawEvent>, e: RawEvent) {
    e in log && IsAfter(log, after, e) && e !in w && w != [] && e.createdAt <= LastOf(w).createdAt
  }

  /** Some answer of the query could cut e off: e sorts beyond the limit, yet the limit reaches into its created_at. */
  predicate MayCutOff(log: seq<RawEvent>, after: Option<EventId>, limit: nat, e: RawEvent) {
    && e in log && IsAfter(log, after, e)
    && |RowsBefore(log, after, e)| < limit < |RowsUpTo(log, after, e)|
  }

  /** A window that cuts e off is full, with rows that sort up to e. */
  lemma CutOffIsFull(log: seq<RawEvent>, after: Option<EventId>, limit: nat, w: seq<RawEvent>, e: RawEvent)
    requires IsWindow(log, after, limit, w) && CutsOff(log, after, w, e)
    ensures EventsIn(w) + {e} <= RowsUpTo(log, after, e)
    ensures RowsBefore(log, after, e) <= EventsIn(w) - {LastOf(w)}
  {
    assert InOrder(after, w[|w| - 1], e);
    forall x | x in w
      ensures InOrder(after, x, e)
    {
      var i :| 0 <= i < |w| && w[i] == x;
    }
    assert forall x :: x in log && IsAfter(log, after, x) && x !in w ==> InOrder(after, w[|w| - 1], x);
  }

  lemma CutOffMay(log: seq<RawEvent>, after: Option<EventId>, limit: nat, w: seq<RawEvent>, e: RawEvent)
    requires IsWindow(log, after, limit, w) && CutsOff(log, after, w, e)
    ensures MayCutOff(log, after, limit, e)
  {
    CutOffIsFull(log, after, limit, w, e);
    AsManyEvents(w);
    assert LastOf(w) in EventsIn(w);
    Fewer(EventsIn(w) + {e}, RowsUpTo(log, after, e));
    Fewer(RowsBefore(log, after, e), EventsIn(w) - {LastOf(w)});
  }

  /** A full window with only rows up to e reaches e's created_at if the limit does. */
  lemma FullWindowReaches(log: seq<RawEvent>, after: Option<EventId>, limit: nat, w: seq<RawEvent>, e: RawEvent)
    requires IsWindow(log, after, limit, w) && MayCutOff(log, after, limit, e) && e !in w
    ensures CutsOff(log, after, w, e)
  {
    AsManyEvents(w);
    if LastOf(w).createdAt < e.createdAt {
      forall x | x in w
        ensures x in RowsBefore(log, after, e)
      {
        WindowUpToLast(log, after, limit, w, x);
      }
      Fewer(EventsIn(w), RowsBefore(log, after, e));
    }
  }

  /** With a cursor the order is total, so rows beyond the limit are left out. */
  lemma BeyondLimitIsLeftOut(log: seq<RawEvent>, after: Option<EventId>, limit: nat, w: seq<RawEvent>, e: RawEvent)
    requires DistinctIds(log) && after.Some? && IsWindow(log, after, limit, w) && MayCutOff(log, after, limit, e)
    ensures e !in w
  {
    if e in w {
      assert forall x :: x in log && IsAfter(log, after, x) && x !in w ==> InOrder(after, e, x);
      assert forall x :: x in log && x.id == e.id ==> x == e;
      assert RowsUpTo(log, after, e) <= EventsIn(w);
      AsManyEvents(w);
      Fewer(RowsUpTo(log, after, e), EventsIn(w));
    }
  }

  /** With a cursor the answer is determined. */
  lemma WindowIsDetermined(log: seq<RawEvent>, after: Option<EventId>, limit: nat, v: seq<RawEvent>, w: seq<RawEvent>)
    requires DistinctIds(log) && after.Some? && IsWindow(log, after, limit, v) && IsWindow(log, after, limit, w)
    ensures v == w
  {
    forall e | e in v
      ensures e in w
    {
      NothingElseIsTaken(log, after, limit, v, w, e);
    }
    forall e | e in w
      ensures e in v
    {
      NothingElseIsTaken(log, after, limit, w, v, e);
    }
    assert EventsIn(v) == EventsIn(w);
    SameOrder(log, v, w);
  }

  lemma NothingElseIsTaken(log: seq<RawEvent>, after: Option<EventId>, limit: nat, v: seq<RawEvent>, w: seq<RawEvent>,
                           e: RawEvent)
    requires DistinctIds(log) && after.Some? && IsWindow(log, after, limit, v) && IsWindow(log, after, limit, w)
    requires e in v
    ensures e in w
  {
    AsManyEvents(v);
    AsManyEvents(w);
    if e !in w {
      forall f | f in w
        ensures f in v
      {
      }
      Fewer(EventsIn(w) + {e}, EventsIn(v));
    }
  }

  lemma {:induction false} SameOrder(log: seq<RawEvent>, v: seq<RawEvent>, w: seq<RawEvent>)
    requires DistinctIds(log) && DistinctIds(v) && DistinctIds(w) && Ordered(v) && Ordered(w)
    requires EventsIn(v) == EventsIn(w) <= EventsIn(log)
    ensures v == w
  {
    AsManyEvents(v);
    AsManyEvents(w);
    if v != [] {
      var n := |v| - 1;
      SameLast(log, v, w);
      WithoutLast(v);
      WithoutLast(w);
      SameOrder(log, v[..n], w[..n]);
      assert v == v[..n] + [v[n]];
    }
  }

  lemma WithoutLast(v: seq<RawEvent>)
    requires v != [] && DistinctIds(v)
    ensures EventsIn(v[..|v| - 1]) == EventsIn(v) - {LastOf(v)}
  {
    assert v == v[..|v| - 1] + [LastOf(v)];
  }

  lemma SameLast(log: seq<RawEvent>, v: seq<RawEvent>, w: seq<RawEvent>)
    requires DistinctIds(log) && v != [] && w != [] && Ordered(v) && Ordered(w)
    requires EventsIn(v) == EventsIn(w) <= EventsIn(log)
    ensures LastOf(v) == LastOf(w)
  {
    assert LastOf(w) in EventsIn(v) && LastOf(v) in EventsIn(w);
    assert LastOf(v) != LastOf(w) ==>
        InOrder(Some(0), LastOf(v), LastOf(w)) && InOrder(Some(0), LastOf(w), LastOf(v));
  }

  function Without(log: seq<RawEvent>, e: RawEvent): seq<RawEvent> {
    if log == [] then []
    else
      var rest := Without(log[..|log| - 1], e);
      if log[|log| - 1] == e then rest else rest + [log[|log| - 1]]
  }

  lemma {:induction false} WithoutKeeps(log: seq<RawEvent>, e: RawEvent)
    requires DistinctIds(log)
    ensures DistinctIds(Without(log, e)) && forall x :: x in Without(log, e) <==> x in log && x != e
  {
    if log != [] {
      var init, last := log[..|log| - 1], log[|log| - 1];
      assert log == init + [last];
      WithoutKeeps(init, e);
      assert forall x :: x in Without(init, e) ==> x in init && x.id != last.id;
    }
  }

  /** Without a cursor ties come in any order, so some answer leaves out a row that the limit may cut off. */
  lemma SomeWindowLeavesOut(log: seq<RawEvent>, limit: nat, e: RawEvent) returns (w: seq<RawEvent>)
    requires DistinctIds(log) && MayCutOff(log, None, limit, e)
    ensures IsWindow(log, None, limit, w) && e !in w
  {
    var rest := Without(log, e);
    WithoutKeeps(log, e);
    WindowExists(rest, None, limit);
    w := FirstRowsAfter(rest, None, limit);
    WindowOfRest(log, rest, limit, e, w);
  }

  lemma WindowOfRest(log: seq<RawEvent>, rest: seq<RawEvent>, limit: nat, e: RawEvent, w: seq<RawEvent>)
    requires MayCutOff(log, None, limit, e)
    requires forall x :: x in rest <==> x in log && x != e
    requires IsWindow(rest, None, limit, w)
    ensures IsWindow(log, None, limit, w) && e !in w
  {
    var others := RowsUpTo(log, None, e) - {e};
    assert e in RowsUpTo(log, None, e);
    AsManyEvents(w);
    if |w| < limit {
      assert forall x :: x in others ==> x in rest && x in w;
      Fewer(others, EventsIn(w));
    }
    forall i | 0 <= i < |w|
      ensures InOrder(None, w[i], e)
    {
      if w[i].createdAt > e.createdAt {
        forall x | x in others
          ensures x in w
        {
          assert x in rest;
        }
        Fewer(others + {w[i]}, EventsIn(w));
      }
    }
  }

  /** No answer of the query cuts e off exactly when e sorts within the limit or the limit ends before its time. */
  lemma NoWindowCutsOffIff(log: seq<RawEvent>, after: Option<EventId>, limit: nat, e: RawEvent)
    requires DistinctIds(log)
    ensures (forall w :: IsWindow(log, after, limit, w) ==> !CutsOff(log, after, w, e))
         <==> !MayCutOff(log, after, limit, e)
  {
    forall w | IsWindow(log, after, limit, w) && CutsOff(log, after, w, e)
      ensures MayCutOff(log, after, limit, e)
    {
      CutOffMay(log, after, limit, w, e);
    }
    if MayCutOff(log, after, limit, e) {
      var w;
      if after.Some? {
        w := FirstRowsAfter(log, after, limit);
        WindowExists(log, after, limit);
        BeyondLimitIsLeftOut(log, after, limit, w, e);
      } else {
        w := SomeWindowLeavesOut(log, limit, e);
      }
      FullWindowReaches(log, after, limit, w, e);
    }
  }
}
