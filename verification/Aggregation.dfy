/** In-memory aggregation of one batch, as the rollup worker does it. */
module Aggregation {
  import opened Calendar
  import opened Events
  import opened RollupAlgebra

  /** Accumulated delta for one (merchant, bucket, event type) cell. */
  class BucketAccum {
    var count: int
    var amountSum: int
    var amountMin: int
    var amountMax: int
    var initialised: bool
    ghost const key: Key  // the one cell this accumulator belongs to

    constructor (ghost key: Key)
      ensures Empty() && this.key == key
    {
      this.key := key;
      count, amountSum, amountMin, amountMax, initialised := 0, 0, 0, 0, false;
    }

    ghost predicate Empty()
      reads this
    {
      !initialised && count == 0 && amountSum == 0
    }

    ghost function Contents(): Row
      reads this
    {
      Row(count, amountSum, amountMin, amountMax)
    }

    /** The first amount starts the row; every further one is merged into it. */
    method Add(amountCents: int)
      requires Empty() || initialised
      modifies this
      ensures initialised
      ensures Contents() == if old(initialised) then MergeRow(old(Contents()), Unit(amountCents)) else Unit(amountCents)
    {
      if !initialised {
        amountMin := amountCents;
        amountMax := amountCents;
        initialised := true;
      }
      count := count + 1;
      amountSum := amountSum + amountCents;
      amountMin := Min(amountMin, amountCents);
      amountMax := Max(amountMax, amountCents);
    }
  }

  /** defaultdict(_BucketAccum): every key has its own accumulator, and every stored one has been added to. */
  class AggMap {
    var cells: map<Key, BucketAccum>
    ghost var Contents: Table
    ghost var Repr: set<object>

    constructor ()
      ensures Valid() && Repr == {this} && Contents == map[]
    {
      cells := map[];
      Contents := map[];
      Repr := {this};
    }

    ghost predicate Valid()
      reads this, Repr
      ensures Valid() ==> this in Repr
    {
      && this in Repr
      && cells.Keys == Contents.Keys
      && forall k :: k in cells ==>
           cells[k] in Repr && cells[k].initialised && cells[k].key == k && cells[k].Contents() == Contents[k]
    }

    method Add(k: Key, amountCents: int)
      requires Valid()
      modifies Repr
      ensures Valid() && fresh(Repr - old(Repr))
      ensures Contents == Upsert(old(Contents), k, Unit(amountCents))
    {
      if k !in cells {
        var accum := new BucketAccum(k);
        cells := cells[k := accum];
        Repr := Repr + {accum};
      }
      cells[k].Add(amountCents);
      Contents := Upsert(Contents, k, Unit(amountCents));
    }
  }

  /** The map's accumulators hold the aggregate of the events s at granularity g. */
  ghost predicate Holds(agg: AggMap, g: Granularity, s: seq<RawEvent>)
    reads agg, agg.Repr
  {
    agg.Valid() && agg.Contents == TableOf(g, s)
  }

  method AddEvent(agg: AggMap, g: Granularity, event: RawEvent, ghost s: seq<RawEvent>)
    requires Holds(agg, g, s)
    modifies agg.Repr
    ensures Holds(agg, g, s + [event]) && fresh(agg.Repr - old(agg.Repr))
  {
    agg.Add(KeyOf(g, event), event.amountCents);
    TableOfSnoc(g, s, event);
  }

  /** Three accumulators that share no objects hold the minute, hour and day aggregates of s. */
  ghost predicate HoldAll(minuteAgg: AggMap, hourAgg: AggMap, dayAgg: AggMap, s: seq<RawEvent>)
    reads minuteAgg, minuteAgg.Repr, hourAgg, hourAgg.Repr, dayAgg, dayAgg.Repr
  {
    && Holds(minuteAgg, Minute, s) && Holds(hourAgg, Hour, s) && Holds(dayAgg, Day, s)
    && minuteAgg.Repr !! hourAgg.Repr && minuteAgg.Repr !! dayAgg.Repr && hourAgg.Repr !! dayAgg.Repr
  }

  method AddToAll(minuteAgg: AggMap, hourAgg: AggMap, dayAgg: AggMap, event: RawEvent, ghost s: seq<RawEvent>)
    requires HoldAll(minuteAgg, hourAgg, dayAgg, s)
    modifies minuteAgg.Repr + hourAgg.Repr + dayAgg.Repr
    ensures HoldAll(minuteAgg, hourAgg, dayAgg, s + [event])
    ensures fresh((minuteAgg.Repr + hourAgg.Repr + dayAgg.Repr) - old(minuteAgg.Repr + hourAgg.Repr + dayAgg.Repr))
  {
    AddEvent(minuteAgg, Minute, event, s);
    AddEvent(hourAgg, Hour, event, s);
    AddEvent(dayAgg, Day, event, s);
  }

  lemma TakeOneMore(events: seq<RawEvent>, i: nat)
    requires i < |events|
    ensures events[..i + 1] == events[..i] + [events[i]]
  {
  }

  /** Minute, hour and day deltas of a batch. */
  method AggregateBatch(events: seq<RawEvent>) returns (minuteAgg: AggMap, hourAgg: AggMap, dayAgg: AggMap)
    ensures HoldAll(minuteAgg, hourAgg, dayAgg, events)
    ensures fresh(minuteAgg.Repr + hourAgg.Repr + dayAgg.Repr)
  {
    minuteAgg := new AggMap();
    hourAgg := new AggMap();
    dayAgg := new AggMap();
    assert events[..0] == [];
    for i := 0 to |events|
      invariant fresh(minuteAgg.Repr + hourAgg.Repr + dayAgg.Repr)
      invariant HoldAll(minuteAgg, hourAgg, dayAgg, events[..i])
    {
      TakeOneMore(events, i);
      AddToAll(minuteAgg, hourAgg, dayAgg, events[i], events[..i]);
    }
    assert events[..|events|] == events;
  }
}
