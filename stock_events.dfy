// Stock event records and the pure functions over an event list
// (src/types/product.ts): the stock fold and the stock-history summary.

module StockEvents {

  /** Identifiers (database ids) and timestamps are opaque, ordered values. */
  type Id = nat
  type Timestamp = nat

  datatype Option<T> = None | Some(value: T)

  /** The four event tags; the tag never decides the sign of a quantity. */
  datatype StockEventType = INITIAL | RESERVATION | CANCELLATION | RESTOCK

  /** One row of the append-only stock ledger. */
  datatype StockEventRecord = StockEventRecord(
    id: Id,
    productId: Id,
    eventType: StockEventType,
    quantity: int,
    reason: Option<string>,
    createdAt: Timestamp)

  /** `events.reduce((acc, e) => acc + e.quantity, 0)`: a left fold, so the
      recursion peels off the LAST event. */
  function CalculateStockFromEvents(events: seq<StockEventRecord>): int
  {
    if events == [] then 0
    else CalculateStockFromEvents(events[..|events| - 1]) + events[|events| - 1].quantity
  }

  /** The quantity column of an event list. */
  function Quantities(events: seq<StockEventRecord>): (qs: seq<int>)
    ensures |qs| == |events|
    ensures forall i :: 0 <= i < |events| ==> qs[i] == events[i].quantity
  {
    seq(|events|, i requires 0 <= i < |events| => events[i].quantity)
  }

  /** Reference definition: q1 + ... + qn, summed from the front. */
  function SumOfQuantities(qs: seq<int>): int
  {
    if qs == [] then 0 else qs[0] + SumOfQuantities(qs[1..])
  }

  /** The empty ledger holds no stock, and appending one event adds exactly
      its quantity. */
  lemma StockAppend(events: seq<StockEventRecord>, e: StockEventRecord)
    ensures CalculateStockFromEvents([]) == 0
    ensures CalculateStockFromEvents(events + [e]) == CalculateStockFromEvents(events) + e.quantity
  {
    assert (events + [e])[..|events|] == events;
  }

  /** The fold distributes over concatenation of event lists. */
  lemma {:induction false} StockConcat(a: seq<StockEventRecord>, b: seq<StockEventRecord>)
    ensures CalculateStockFromEvents(a + b) == CalculateStockFromEvents(a) + CalculateStockFromEvents(b)
    decreases |b|
  {
    if b == [] {
      assert a + b == a;
    } else {
      var b' := b[..|b| - 1];
      var e := b[|b| - 1];
      assert b == b' + [e];
      assert a + b == (a + b') + [e];
      StockAppend(a + b', e);
      StockAppend(b', e);
      StockConcat(a, b');
    }
  }

  lemma {:induction false} SumOfQuantitiesAppend(qs: seq<int>, q: int)
    ensures SumOfQuantities(qs + [q]) == SumOfQuantities(qs) + q
    decreases |qs|
  {
    if qs == [] {
      assert [] + [q] == [q];
    } else {
      assert (qs + [q])[1..] == qs[1..] + [q];
      SumOfQuantitiesAppend(qs[1..], q);
    }
  }

  /** Fold correctness: the derived stock is the plain sum of the signed
      quantities q1 + ... + qn, whatever the event tags are. */
  lemma {:induction false} StockIsSumOfQuantities(events: seq<StockEventRecord>)
    ensures CalculateStockFromEvents(events) == SumOfQuantities(Quantities(events))
    decreases |events|
  {
    if events != [] {
      var init := events[..|events| - 1];
      var e := events[|events| - 1];
      StockIsSumOfQuantities(init);
      assert Quantities(events) == Quantities(init) + [e.quantity];
      SumOfQuantitiesAppend(Quantities(init), e.quantity);
    }
  }

  /** The stock depends only on the quantities, never on the type tags,
      ids, reasons or timestamps. */
  lemma {:induction false} StockIgnoresTags(a: seq<StockEventRecord>, b: seq<StockEventRecord>)
    requires Quantities(a) == Quantities(b)
    ensures CalculateStockFromEvents(a) == CalculateStockFromEvents(b)
  {
    StockIsSumOfQuantities(a);
    StockIsSumOfQuantities(b);
  }

  /** `acc[t] ?? 0` on the per-type histogram. */
  function TypeCount(m: map<StockEventType, nat>, t: StockEventType): nat
  {
    if t in m then m[t] else 0
  }

  /** The per-type histogram of getStockHistory, a left fold that adds or
      bumps the entry for each event's type. */
  function EventsByType(events: seq<StockEventRecord>): map<StockEventType, nat>
  {
    if events == [] then map[]
    else
      var acc := EventsByType(events[..|events| - 1]);
      var t := events[|events| - 1].eventType;
      acc[t := TypeCount(acc, t) + 1]
  }

  /** Reference definition: the number of events tagged `t`, from the front. */
  function Occurrences(events: seq<StockEventRecord>, t: StockEventType): nat
  {
    if events == [] then 0
    else (if events[0].eventType == t then 1 else 0) + Occurrences(events[1..], t)
  }

  lemma {:induction false} OccurrencesAppend(events: seq<StockEventRecord>, e: StockEventRecord, t: StockEventType)
    ensures Occurrences(events + [e], t) == Occurrences(events, t) + (if e.eventType == t then 1 else 0)
    decreases |events|
  {
    if events == [] {
      assert [] + [e] == [e];
    } else {
      assert (events + [e])[1..] == events[1..] + [e];
      OccurrencesAppend(events[1..], e, t);
    }
  }

  /** The histogram entry for every type is the number of events carrying
      that type, and a type has an entry exactly when some event carries it. */
  lemma {:induction false} EventsByTypeCounts(events: seq<StockEventRecord>, t: StockEventType)
    ensures TypeCount(EventsByType(events), t) == Occurrences(events, t)
    ensures t in EventsByType(events) <==> exists i :: 0 <= i < |events| && events[i].eventType == t
    decreases |events|
  {
    if events != [] {
      var init := events[..|events| - 1];
      var e := events[|events| - 1];
      assert events == init + [e];
      EventsByTypeCounts(init, t);
      OccurrencesAppend(init, e, t);
      if t in EventsByType(init) {
        var i :| 0 <= i < |init| && init[i].eventType == t;
        assert events[i].eventType == t;
      }
      if e.eventType != t && exists i :: 0 <= i < |events| && events[i].eventType == t {
        var i :| 0 <= i < |events| && events[i].eventType == t;
        assert i < |init| && init[i].eventType == t;
      }
    }
  }

  /** The per-type counts add up to the number of events. */
  lemma {:induction false} CountsSumToLength(events: seq<StockEventRecord>)
    ensures var m := EventsByType(events);
      TypeCount(m, INITIAL) + TypeCount(m, RESERVATION) + TypeCount(m, CANCELLATION) + TypeCount(m, RESTOCK) == |events|
    decreases |events|
  {
    if events != [] {
      var acc := EventsByType(events[..|events| - 1]);
      var e := events[|events| - 1];
      CountsSumToLength(events[..|events| - 1]);
      forall t ensures TypeCount(EventsByType(events), t) == TypeCount(acc, t) + (if e.eventType == t then 1 else 0) {
      }
    }
  }

  /** The summary getStockHistory returns. */
  datatype StockHistory = StockHistory(
    currentStock: int,
    totalEvents: nat,
    lastUpdated: Timestamp,
    eventsByType: map<StockEventType, nat>)

  /** `now` stands for the wall clock read by the `new Date()` fallback. */
  function GetStockHistory(events: seq<StockEventRecord>, now: Timestamp): StockHistory
  {
    StockHistory(
      CalculateStockFromEvents(events),
      |events|,
      if events == [] then now else events[|events| - 1].createdAt,
      EventsByType(events))
  }

  /** What the summary means: the stock is the sum of quantities, the count
      is the number of events, the timestamp is the last event's (or the
      clock's when there are none) and the histogram counts each type. */
  lemma StockHistorySummary(events: seq<StockEventRecord>, now: Timestamp)
    ensures var h := GetStockHistory(events, now);
      && h.currentStock == SumOfQuantities(Quantities(events))
      && h.totalEvents == |events|
      && (events != [] ==> h.lastUpdated == events[|events| - 1].createdAt)
      && (events == [] ==> h.lastUpdated == now)
      && (forall t :: TypeCount(h.eventsByType, t) == Occurrences(events, t))
      && TypeCount(h.eventsByType, INITIAL) + TypeCount(h.eventsByType, RESERVATION)
         + TypeCount(h.eventsByType, CANCELLATION) + TypeCount(h.eventsByType, RESTOCK) == h.totalEvents
  {
    StockIsSumOfQuantities(events);
    CountsSumToLength(events);
    forall t ensures TypeCount(EventsByType(events), t) == Occurrences(events, t) {
      EventsByTypeCounts(events, t);
    }
  }
}
