/** The ledger: which events the processed markers have credited to the rollup tables. */
module Ledger {
  import opened Calendar
  import opened Events
  import opened RollupAlgebra
  import opened Database
  import opened RollupWorkers

  /** The rows of the log that a consumer has marked, in log order. */
  function Credited(log: seq<RawEvent>, markers: set<Marker>, consumerId: ConsumerId): seq<RawEvent> {
    if log == [] then []
    else
      var rest := Credited(log[..|log| - 1], markers, consumerId);
      if Marker(consumerId, log[|log| - 1].id) in markers then rest + [log[|log| - 1]] else rest
  }

  /** One event per (consumer, event) marker. */
  function LedgerEvents(consumers: seq<ConsumerId>, log: seq<RawEvent>, markers: set<Marker>): seq<RawEvent> {
    if consumers == [] then []
    else
      LedgerEvents(consumers[..|consumers| - 1], log, markers)
      + Credited(log, markers, consumers[|consumers| - 1])
  }

  predicate AllMarked(log: seq<RawEvent>, markers: set<Marker>, consumerId: ConsumerId) {
    forall e :: e in log ==> Marker(consumerId, e.id) in markers
  }

  predicate Distinct(consumers: seq<ConsumerId>) {
    forall i, j :: 0 <= i < j < |consumers| ==> consumers[i] != consumers[j]
  }

  // ----- How the credited events change -----

  lemma {:induction false} CreditedAre(log: seq<RawEvent>, markers: set<Marker>, consumerId: ConsumerId, e: RawEvent)
    ensures e in Credited(log, markers, consumerId) <==> e in log && Marker(consumerId, e.id) in markers
  {
    if log != [] {
      assert log == log[..|log| - 1] + [log[|log| - 1]];
      CreditedAre(log[..|log| - 1], markers, consumerId, e);
    }
  }

  lemma {:induction false} CreditedWhenAllMarked(log: seq<RawEvent>, markers: set<Marker>, consumerId: ConsumerId)
    requires AllMarked(log, markers, consumerId)
    ensures Credited(log, markers, consumerId) == log
  {
    if log != [] {
      var init, last := log[..|log| - 1], log[|log| - 1];
      assert log == init + [last];
      assert last in log;
      CreditedWhenAllMarked(init, markers, consumerId);
    }
  }

  lemma {:induction false} CreditedSameMarkers(log: seq<RawEvent>, markers: set<Marker>, others: set<Marker>,
                                               consumerId: ConsumerId)
    requires forall e :: e in log ==> (Marker(consumerId, e.id) in markers <==> Marker(consumerId, e.id) in others)
    ensures Credited(log, markers, consumerId) == Credited(log, others, consumerId)
  {
    if log != [] {
      var init, last := log[..|log| - 1], log[|log| - 1];
      assert log == init + [last];
      CreditedSameMarkers(init, markers, others, consumerId);
    }
  }

  lemma {:induction false} CreditedNone(log: seq<RawEvent>, markers: set<Marker>, consumerId: ConsumerId)
    requires forall e :: e in log ==> Marker(consumerId, e.id) !in markers
    ensures Credited(log, markers, consumerId) == []
  {
    if log != [] {
      var init, last := log[..|log| - 1], log[|log| - 1];
      assert log == init + [last];
      CreditedNone(init, markers, consumerId);
    }
  }

  lemma {:induction false} CreditedOfConcat(log: seq<RawEvent>, rows: seq<RawEvent>, markers: set<Marker>,
                                            consumerId: ConsumerId)
    ensures Credited(log + rows, markers, consumerId)
         == Credited(log, markers, consumerId) + Credited(rows, markers, consumerId)
  {
    if rows == [] {
      assert log + rows == log;
    } else {
      var init, last := rows[..|rows| - 1], rows[|rows| - 1];
      assert (log + rows)[..|log + rows| - 1] == log + init;
      CreditedOfConcat(log, init, markers, consumerId);
    }
  }

  lemma {:induction false} CreditedOne(log: seq<RawEvent>, e: RawEvent, consumerId: ConsumerId)
    requires DistinctIds(log) && e in log
    ensures Credited(log, {Marker(consumerId, e.id)}, consumerId) == [e]
  {
    var init, last := log[..|log| - 1], log[|log| - 1];
    assert log == init + [last];
    if e == last {
      CreditedNone(init, {Marker(consumerId, e.id)}, consumerId);
    } else {
      CreditedOne(init, e, consumerId);
    }
  }

  /** Crediting a disjoint set of markers adds exactly their events. */
  lemma {:induction false} CreditMore(log: seq<RawEvent>, markers: set<Marker>, more: set<Marker>,
                                      consumerId: ConsumerId)
    requires markers !! more
    ensures multiset(Credited(log, markers + more, consumerId))
         == multiset(Credited(log, markers, consumerId)) + multiset(Credited(log, more, consumerId))
  {
    if log != [] {
      CreditMore(log[..|log| - 1], markers, more, consumerId);
    }
  }

  /** Marking exactly the events of a window credits exactly the window. */
  lemma {:induction false} CreditWindow(log: seq<RawEvent>, consumerId: ConsumerId, events: seq<RawEvent>)
    requires DistinctIds(log) && DistinctIds(events)
    requires forall e :: e in events ==> e in log
    ensures multiset(Credited(log, MarkersFor(consumerId, events), consumerId)) == multiset(events)
  {
    if events == [] {
      assert MarkersFor(consumerId, events) == {};
      CreditedNone(log, {}, consumerId);
    } else {
      var init, last := events[..|events| - 1], events[|events| - 1];
      assert events == init + [last];
      var before, one := MarkersFor(consumerId, init), {Marker(consumerId, last.id)};
      assert MarkersFor(consumerId, events) == before + one;
      assert before !! one;
      CreditWindow(log, consumerId, init);
      CreditMore(log, before, one, consumerId);
      CreditedOne(log, last, consumerId);
    }
  }

  lemma {:induction false} NewEventsDistinct(markers: set<Marker>, consumerId: ConsumerId, events: seq<RawEvent>)
    requires DistinctIds(events)
    ensures DistinctIds(NewEvents(markers, consumerId, events))
  {
    if events != [] {
      var init, last := events[..|events| - 1], events[|events| - 1];
      NewEventsDistinct(markers, consumerId, init);
      forall e | e in NewEvents(markers, consumerId, init)
        ensures e.id != last.id
      {
        NewEventsAre(markers, consumerId, init, e);
      }
      var kept := NewEvents(markers, consumerId, init);
      assert forall i :: 0 <= i < |kept| ==> kept[i] in kept;
    }
  }

  /** A commit credits its consumer with exactly the events it aggregated. */
  lemma CommitCredits(log: seq<RawEvent>, markers: set<Marker>, consumerId: ConsumerId, events: seq<RawEvent>)
    requires DistinctIds(log) && DistinctIds(events)
    requires forall e :: e in events ==> e in log
    ensures multiset(Credited(log, markers + MarkersFor(consumerId, events), consumerId))
         == multiset(Credited(log, markers, consumerId)) + multiset(NewEvents(markers, consumerId, events))
  {
    var unseen := NewEvents(markers, consumerId, events);
    forall e
      ensures e in unseen <==> e in events && Marker(consumerId, e.id) !in markers
    {
      NewEventsAre(markers, consumerId, events, e);
    }
    NewEventsDistinct(markers, consumerId, events);
    var more := MarkersFor(consumerId, unseen);
    assert markers + MarkersFor(consumerId, events) == markers + more;
    assert markers !! more;
    CreditMore(log, markers, more, consumerId);
    CreditWindow(log, consumerId, unseen);
  }

  /** None of the already marked events is new. */
  lemma {:induction false} NoneAreNew(markers: set<Marker>, c: ConsumerId, events: seq<RawEvent>)
    requires AllMarked(events, markers, c)
    ensures NewEvents(markers, c, events) == []
  {
    if events != [] {
      assert events == events[..|events| - 1] + [events[|events| - 1]];
      assert events[|events| - 1] in events;
      NoneAreNew(markers, c, events[..|events| - 1]);
    }
  }

  // ----- How the ledger changes -----

  lemma {:induction false} CommitOfOther(consumers: seq<ConsumerId>, log: seq<RawEvent>, markers: set<Marker>,
                                         consumerId: ConsumerId, events: seq<RawEvent>)
    requires consumerId !in consumers
    ensures LedgerEvents(consumers, log, markers + MarkersFor(consumerId, events))
         == LedgerEvents(consumers, log, markers)
  {
    if consumers != [] {
      var init, last := consumers[..|consumers| - 1], consumers[|consumers| - 1];
      assert consumers == init + [last];
      CommitOfOther(init, log, markers, consumerId, events);
      CreditedSameMarkers(log, markers + MarkersFor(consumerId, events), markers, last);
    }
  }

  /** A commit adds to the ledger exactly the events it aggregated, whatever the other consumers have marked. */
  lemma {:induction false} CommitAddsToLedger(consumers: seq<ConsumerId>, log: seq<RawEvent>, markers: set<Marker>,
                                              consumerId: ConsumerId, events: seq<RawEvent>)
    requires Distinct(consumers) && consumerId in consumers
    requires DistinctIds(log) && DistinctIds(events)
    requires forall e :: e in events ==> e in log
    ensures multiset(LedgerEvents(consumers, log, markers + MarkersFor(consumerId, events)))
         == multiset(LedgerEvents(consumers, log, markers) + NewEvents(markers, consumerId, events))
  {
    var init, last := consumers[..|consumers| - 1], consumers[|consumers| - 1];
    var after := markers + MarkersFor(consumerId, events);
    if consumerId == last {
      assert last !in init;
      CommitOfOther(init, log, markers, consumerId, events);
      CommitCredits(log, markers, consumerId, events);
    } else {
      assert consumers == init + [last];
      CommitAddsToLedger(init, log, markers, consumerId, events);
      CreditedSameMarkers(log, after, markers, last);
    }
  }

  lemma {:induction false} UnmarkedRowsAddNothing(consumers: seq<ConsumerId>, log: seq<RawEvent>, rows: seq<RawEvent>,
                                                  markers: set<Marker>)
    requires forall m, e :: m in markers && e in rows ==> m.eventId != e.id
    ensures LedgerEvents(consumers, log + rows, markers) == LedgerEvents(consumers, log, markers)
  {
    if consumers != [] {
      var last := consumers[|consumers| - 1];
      UnmarkedRowsAddNothing(consumers[..|consumers| - 1], log, rows, markers);
      CreditedOfConcat(log, rows, markers, last);
      CreditedNone(rows, markers, last);
    }
  }

  lemma {:induction false} LedgerEventsAreLogged(consumers: seq<ConsumerId>, log: seq<RawEvent>, markers: set<Marker>,
                                                 e: RawEvent)
    requires e in LedgerEvents(consumers, log, markers)
    ensures e in log
  {
    var init, last := consumers[..|consumers| - 1], consumers[|consumers| - 1];
    CreditedAre(log, markers, last, e);
    if e in LedgerEvents(init, log, markers) {
      LedgerEventsAreLogged(init, log, markers, e);
    }
  }

  // ----- Drained ledgers -----

  function ScaleCell(k: nat, c: Option<Row>): Option<Row> {
    if c.None? || k == 0 then None
    else Some(Row(k * c.value.count, k * c.value.sum, c.value.min, c.value.max))
  }

  lemma ScaleOneMore(k: nat, c: Option<Row>)
    ensures MergeCell(ScaleCell(k, c), c) == ScaleCell(k + 1, c)
  {
    if c.Some? {
      assert k * c.value.count + c.value.count == (k + 1) * c.value.count;
      assert k * c.value.sum + c.value.sum == (k + 1) * c.value.sum;
    }
  }

  /** When every consumer has marked every event, counts and sums are multiplied by the number of consumers. */
  lemma {:induction false} LedgerOfDrainedConsumers(g: Granularity, consumers: seq<ConsumerId>, log: seq<RawEvent>,
                                                    markers: set<Marker>, key: Key)
    requires forall c :: c in consumers ==> AllMarked(log, markers, c)
    ensures Cell(TableOf(g, LedgerEvents(consumers, log, markers)), key)
         == ScaleCell(|consumers|, Cell(TableOf(g, log), key))
  {
    if consumers != [] {
      var init, last := consumers[..|consumers| - 1], consumers[|consumers| - 1];
      assert consumers == init + [last];
      assert last in consumers;
      LedgerOfDrainedConsumers(g, init, log, markers, key);
      CreditedWhenAllMarked(log, markers, last);
      TableOfConcat(g, LedgerEvents(init, log, markers), log);
      CellOfMerge(TableOf(g, LedgerEvents(init, log, markers)), TableOf(g, log), key);
      ScaleOneMore(|init|, Cell(TableOf(g, log), key));
    }
  }

  lemma LedgerOfOne(consumerId: ConsumerId, log: seq<RawEvent>, markers: set<Marker>)
    ensures LedgerEvents([consumerId], log, markers) == Credited(log, markers, consumerId)
  {
  }
}
