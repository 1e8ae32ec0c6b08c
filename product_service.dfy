// The product service over the stock ledger (src/lib/product.ts): product
// creation and update, the one event-append primitive, and the reserve,
// restock and cancel operations that gate and append stock events.
//
// The database is an in-memory store: a map of products and one
// append-only sequence of stock-event rows in creation order, with a
// counter handing out fresh ids and a logical clock handing out createdAt.

module ProductService {
  import opened StockEvents

  /** Errors the store raises: a missing row on update, and an insert
      whose productId names no product. */
  datatype StoreError = RecordNotFound | ForeignKeyViolation

  datatype Result<T> = Ok(value: T) | Err(error: StoreError)

  /** A product row; its stock is never stored, only derived. */
  datatype Product = Product(
    id: Id,
    name: string,
    description: string,
    price: int,
    sellerId: Id,
    createdAt: Timestamp)

  /** JS numbers arrive as reals; `Math.floor` is `.Floor`. */
  datatype CreateProductRequest = CreateProductRequest(
    name: string,
    description: string,
    price: real,
    stock: real)

  /** `Partial<CreateProductRequest>` as taken by updateProduct (a stock
      field there is ignored, so it is not carried). */
  datatype ProductUpdate = ProductUpdate(
    name: Option<string>,
    description: Option<string>,
    price: Option<real>)

  /** `Math.max(0, Math.floor(q))`: the whole number of units asked for,
      zero for anything below one unit. */
  function NormalizeQuantity(q: real): (n: nat)
    ensures n > 0 <==> q >= 1.0
    ensures n > 0 ==> n as real <= q < n as real + 1.0
  {
    if q.Floor > 0 then q.Floor else 0
  }

  // ---------------------------------------------------------------------
  // Decimal rendering of a quantity, for the reason texts
  // `Reservation for ${qty} units` and `Cancellation for ${qty} units`.

  function DigitChar(d: nat): char
    requires d < 10
  {
    ('0' as int + d) as char
  }

  /** The canonical decimal rendering: digits only, no leading zero. */
  function DecimalString(n: nat): (s: string)
    ensures |s| > 0 && forall i :: 0 <= i < |s| ==> '0' <= s[i] <= '9'
    ensures n > 0 ==> s[0] != '0'
  {
    if n < 10 then [DigitChar(n)] else DecimalString(n / 10) + [DigitChar(n % 10)]
  }

  /** Reads a string of decimal digits back as a number. */
  function DecimalValue(s: string): nat
    requires forall i :: 0 <= i < |s| ==> '0' <= s[i] <= '9'
  {
    if s == [] then 0
    else DecimalValue(s[..|s| - 1]) * 10 + (s[|s| - 1] as int - '0' as int)
  }

  /** The rendered quantity reads back as the same number. */
  lemma {:induction false} DecimalRoundTrip(n: nat)
    ensures DecimalValue(DecimalString(n)) == n
    decreases n
  {
    if n >= 10 {
      var s := DecimalString(n);
      assert s[..|s| - 1] == DecimalString(n / 10);
      DecimalRoundTrip(n / 10);
    }
  }

  function ReservationReason(qty: nat): string
  {
    "Reservation for " + DecimalString(qty) + " units"
  }

  function CancellationReason(qty: nat): string
  {
    "Cancellation for " + DecimalString(qty) + " units"
  }

  // ---------------------------------------------------------------------
  // The ledger as seen by one product.

  /** `findMany({ where: { productId } })`: the product's rows, in table order. */
  function EventsOf(events: seq<StockEventRecord>, productId: Id): seq<StockEventRecord>
  {
    if events == [] then []
    else
      var init := EventsOf(events[..|events| - 1], productId);
      var e := events[|events| - 1];
      if e.productId == productId then init + [e] else init
  }

  ghost predicate SortedByCreation(events: seq<StockEventRecord>)
  {
    forall i, j :: 0 <= i < j < |events| ==> events[i].createdAt < events[j].createdAt
  }

  /** The per-product query keeps exactly the product's rows, and when the
      table is in createdAt order so is the result: `orderBy createdAt asc`
      does not reorder it. */
  lemma {:induction false} EventsOfSelects(events: seq<StockEventRecord>, productId: Id)
    ensures forall e :: e in EventsOf(events, productId) <==> e in events && e.productId == productId
    ensures SortedByCreation(events) ==> SortedByCreation(EventsOf(events, productId))
    decreases |events|
  {
    if events != [] {
      var init := events[..|events| - 1];
      var e := events[|events| - 1];
      assert events == init + [e];
      EventsOfSelects(init, productId);
      if SortedByCreation(events) {
        assert SortedByCreation(init);
        forall x | x in EventsOf(init, productId) ensures x.createdAt < e.createdAt {
          var k :| 0 <= k < |init| && init[k] == x;
        }
      }
    }
  }

  /** getStockFromEvents: the fold over the product's rows. */
  function LedgerStock(events: seq<StockEventRecord>, productId: Id): int
  {
    CalculateStockFromEvents(EventsOf(events, productId))
  }

  /** Appending a row changes its own product's stock by its quantity and
      no other product's stock at all. */
  lemma LedgerStockAppend(events: seq<StockEventRecord>, e: StockEventRecord, productId: Id)
    ensures LedgerStock(events + [e], productId)
         == LedgerStock(events, productId) + (if e.productId == productId then e.quantity else 0)
  {
    assert (events + [e])[..|events|] == events;
    if e.productId == productId {
      StockAppend(EventsOf(events, productId), e);
    }
  }

  /** A product with non-zero stock has at least one row in the ledger. */
  lemma {:induction false} NonzeroStockHasEvents(events: seq<StockEventRecord>, productId: Id)
    requires LedgerStock(events, productId) != 0
    ensures exists i :: 0 <= i < |events| && events[i].productId == productId
  {
    EventsOfSelects(events, productId);
    assert EventsOf(events, productId) != [];
    var x := EventsOf(events, productId)[0];
    assert x in EventsOf(events, productId);
    var k :| 0 <= k < |events| && events[k] == x;
  }

  /** A reservation of q followed by a cancellation of q, both for the same
      product, restores that product's stock. */
  lemma ReserveThenCancelRestores(events: seq<StockEventRecord>, r: StockEventRecord, c: StockEventRecord, q: nat)
    requires r.productId == c.productId
    requires r.quantity == -(q as int) && c.quantity == q
    ensures LedgerStock(events + [r] + [c], r.productId) == LedgerStock(events, r.productId)
  {
    LedgerStockAppend(events, r, r.productId);
    LedgerStockAppend(events + [r], c, r.productId);
  }

  /** `after` is `before` with exactly one new row appended: every earlier
      row untouched, a fresh id, and the given product, type, quantity and
      reason. */
  ghost predicate AppendedOne(before: seq<StockEventRecord>, after: seq<StockEventRecord>,
                              productId: Id, eventType: StockEventType, quantity: int, reason: Option<string>)
  {
    && |after| == |before| + 1
    && after[..|before|] == before
    && after[|before|].productId == productId
    && after[|before|].eventType == eventType
    && after[|before|].quantity == quantity
    && after[|before|].reason == reason
    && (forall i :: 0 <= i < |before| ==> before[i].id != after[|before|].id)
  }

  // ---------------------------------------------------------------------
  // The store.

  class ProductStore {
    var products: map<Id, Product>
    var events: seq<StockEventRecord>
    var nextId: Id
    var clock: Timestamp

    /** Every id handed out is below the counter, every row belongs to an
        existing product, and rows are in strictly increasing createdAt. */
    ghost predicate Valid()
      reads this
    {
      && (forall id :: id in products ==> id < nextId && products[id].id == id)
      && (forall i :: 0 <= i < |events| ==>
            events[i].productId in products && events[i].id < nextId && events[i].createdAt < clock)
      && SortedByCreation(events)
    }

    constructor ()
      ensures Valid()
      ensures products == map[] && events == []
    {
      products := map[];
      events := [];
      nextId := 0;
      clock := 0;
    }

    /** The current stock of a product as the ledger defines it. */
    function StockOf(productId: Id): int
      reads this
    {
      LedgerStock(events, productId)
    }

    /** `prisma.stockEvent.create`: insert one row, refused by the foreign
        key when the product does not exist. */
    method CreateEvent(productId: Id, eventType: StockEventType, quantity: int, reason: Option<string>)
      returns (r: Result<StockEventRecord>)
      requires Valid()
      modifies this
      ensures Valid() && products == old(products)
      ensures productId !in products ==> r == Err(ForeignKeyViolation) && events == old(events)
      ensures productId in products ==>
        && r.Ok?
        && AppendedOne(old(events), events, productId, eventType, quantity, reason)
        && r.value == events[|events| - 1]
      ensures StockOf(productId) == old(StockOf(productId)) + (if r.Ok? then quantity else 0)
      ensures forall p :: p != productId ==> StockOf(p) == old(StockOf(p))
    {
      if productId !in products {
        return Err(ForeignKeyViolation);
      }
      var e := StockEventRecord(nextId, productId, eventType, quantity, reason, clock);
      ghost var before := events;
      events := events + [e];
      nextId := nextId + 1;
      clock := clock + 1;
      r := Ok(e);
      assert events[..|before|] == before;
      forall p ensures LedgerStock(events, p) == LedgerStock(before, p) + (if p == productId then quantity else 0) {
        LedgerStockAppend(before, e, p);
      }
    }

    /** createProduct: store the product with a floored price, then record
        its starting stock as one INITIAL event. */
    method CreateProduct(data: CreateProductRequest, sellerId: Id) returns (product: Product)
      requires Valid()
      modifies this
      ensures Valid()
      ensures product.id !in old(products) && products == old(products)[product.id := product]
      ensures && product.name == data.name
              && product.description == data.description
              && product.price == data.price.Floor
              && product.sellerId == sellerId
      ensures AppendedOne(old(events), events, product.id, INITIAL, data.stock.Floor, Some("Initial stock"))
      ensures StockOf(product.id) == data.stock.Floor
      ensures forall p :: p != product.id ==> StockOf(p) == old(StockOf(p))
    {
      product := Product(nextId, data.name, data.description, data.price.Floor, sellerId, clock);
      if LedgerStock(events, product.id) != 0 {
        NonzeroStockHasEvents(events, product.id);
      }
      products := products[product.id := product];
      nextId := nextId + 1;
      clock := clock + 1;
      var r := CreateEvent(product.id, INITIAL, data.stock.Floor, Some("Initial stock"));
    }

    /** updateProduct: with no field supplied it only looks the product up;
        otherwise it updates the supplied fields (price floored) and fails
        on a missing product. The stock ledger is never touched. */
    method UpdateProduct(id: Id, data: ProductUpdate) returns (r: Result<Option<Product>>)
      requires Valid()
      modifies this
      ensures Valid() && events == old(events)
      ensures forall p :: StockOf(p) == old(StockOf(p))
      ensures data == ProductUpdate(None, None, None) ==>
        products == old(products) && r == Ok(if id in products then Some(products[id]) else None)
      ensures data != ProductUpdate(None, None, None) && id !in old(products) ==>
        r == Err(RecordNotFound) && products == old(products)
      ensures data != ProductUpdate(None, None, None) && id in old(products) ==>
        && r.Ok? && r.value.Some?
        && var p, q := old(products)[id], r.value.value;
        && q.id == id && q.sellerId == p.sellerId && q.createdAt == p.createdAt
        && q.name == (if data.name.Some? then data.name.value else p.name)
        && q.description == (if data.description.Some? then data.description.value else p.description)
        && q.price == (if data.price.Some? then data.price.value.Floor else p.price)
        && products == old(products)[id := q]
    {
      if data == ProductUpdate(None, None, None) {
        return Ok(if id in products then Some(products[id]) else None);
      }
      if id !in products {
        return Err(RecordNotFound);
      }
      var p := products[id];
      var q := p.(
        name := if data.name.Some? then data.name.value else p.name,
        description := if data.description.Some? then data.description.value else p.description,
        price := if data.price.Some? then data.price.value.Floor else p.price);
      products := products[id := q];
      r := Ok(Some(q));
    }

    /** recordStockEvent: append one event with the floored quantity, the
        given non-INITIAL type and the given reason. The sign is the
        caller's. */
    method RecordStockEvent(productId: Id, eventType: StockEventType, quantity: real, reason: Option<string>)
      returns (r: Result<StockEventRecord>)
      requires Valid()
      requires eventType != INITIAL
      modifies this
      ensures Valid() && products == old(products)
      ensures productId !in products ==> r == Err(ForeignKeyViolation) && events == old(events)
      ensures productId in products ==>
        && r.Ok?
        && AppendedOne(old(events), events, productId, eventType, quantity.Floor, reason)
        && r.value == events[|events| - 1]
      ensures StockOf(productId) == old(StockOf(productId)) + (if r.Ok? then quantity.Floor else 0)
      ensures forall p :: p != productId ==> StockOf(p) == old(StockOf(p))
    {
      r := CreateEvent(productId, eventType, quantity.Floor, reason);
    }

    /** getStockFromEvents: read the product's rows in createdAt order and
        sum their quantities. */
    method GetStockFromEvents(productId: Id) returns (stock: int)
      requires Valid()
      ensures stock == StockOf(productId)
      ensures SortedByCreation(EventsOf(events, productId))
      ensures stock == SumOfQuantities(Quantities(EventsOf(events, productId)))
    {
      var found := EventsOf(events, productId);
      EventsOfSelects(events, productId);
      stock := CalculateStockFromEvents(found);
      StockIsSumOfQuantities(found);
    }

    /** getCurrentStock: the stock fold for one product; no side effects. */
    method GetCurrentStock(productId: Id) returns (stock: int)
      requires Valid()
      ensures stock == StockOf(productId)
      ensures stock == SumOfQuantities(Quantities(EventsOf(events, productId)))
    {
      stock := GetStockFromEvents(productId);
    }

    /** reserveStock: refuse a quantity below one unit, refuse when the stock
        is short, otherwise append one negative RESERVATION event. */
    method ReserveStock(productId: Id, quantity: real) returns (ok: bool)
      requires Valid()
      modifies this
      ensures Valid() && products == old(products)
      ensures var qty := NormalizeQuantity(quantity);
        && (ok <==> qty > 0 && old(StockOf(productId)) >= qty)
        && (!ok ==> events == old(events))
        && (ok ==> AppendedOne(old(events), events, productId, RESERVATION, -(qty as int), Some(ReservationReason(qty))))
        && StockOf(productId) == old(StockOf(productId)) - (if ok then qty else 0)
      ensures ok ==> StockOf(productId) >= 0
      ensures old(StockOf(productId)) >= 0 ==> StockOf(productId) >= 0
      ensures forall p :: p != productId ==> StockOf(p) == old(StockOf(p))
    {
      var qty := NormalizeQuantity(quantity);
      if qty == 0 {
        return false;
      }
      var currentStock := GetStockFromEvents(productId);
      if currentStock < qty {
        return false;
      }
      NonzeroStockHasEvents(events, productId);
      var r := RecordStockEvent(productId, RESERVATION, (-qty) as real, Some(ReservationReason(qty)));
      ok := true;
    }

    /** restockProduct: refuse a quantity below one unit, otherwise append
        one positive RESTOCK event, reason defaulting to "Manual restock". */
    method RestockProduct(productId: Id, quantity: real, reason: Option<string>) returns (r: Result<bool>)
      requires Valid()
      modifies this
      ensures Valid() && products == old(products)
      ensures var qty := NormalizeQuantity(quantity);
        && (qty == 0 ==> r == Ok(false))
        && (qty > 0 && productId !in products ==> r == Err(ForeignKeyViolation))
        && (qty > 0 && productId in products ==> r == Ok(true))
        && (r != Ok(true) ==> events == old(events))
        && (r == Ok(true) ==> AppendedOne(old(events), events, productId, RESTOCK, qty,
                                          Some(if reason.Some? then reason.value else "Manual restock")))
        && StockOf(productId) == old(StockOf(productId)) + (if r == Ok(true) then qty else 0)
      ensures old(StockOf(productId)) >= 0 ==> StockOf(productId) >= 0
      ensures forall p :: p != productId ==> StockOf(p) == old(StockOf(p))
    {
      var qty := NormalizeQuantity(quantity);
      if qty == 0 {
        return Ok(false);
      }
      var e := RecordStockEvent(productId, RESTOCK, qty as real,
                                Some(if reason.Some? then reason.value else "Manual restock"));
      if e.Err? {
        return Err(e.error);
      }
      r := Ok(true);
    }

    /** cancelReservation: refuse a quantity below one unit, otherwise append
        one positive CANCELLATION event. */
    method CancelReservation(productId: Id, quantity: real) returns (r: Result<bool>)
      requires Valid()
      modifies this
      ensures Valid() && products == old(products)
      ensures var qty := NormalizeQuantity(quantity);
        && (qty == 0 ==> r == Ok(false))
        && (qty > 0 && productId !in products ==> r == Err(ForeignKeyViolation))
        && (qty > 0 && productId in products ==> r == Ok(true))
        && (r != Ok(true) ==> events == old(events))
        && (r == Ok(true) ==> AppendedOne(old(events), events, productId, CANCELLATION, qty,
                                          Some(CancellationReason(qty))))
        && StockOf(productId) == old(StockOf(productId)) + (if r == Ok(true) then qty else 0)
      ensures old(StockOf(productId)) >= 0 ==> StockOf(productId) >= 0
      ensures forall p :: p != productId ==> StockOf(p) == old(StockOf(p))
    {
      var qty := NormalizeQuantity(quantity);
      if qty == 0 {
        return Ok(false);
      }
      var e := RecordStockEvent(productId, CANCELLATION, qty as real, Some(CancellationReason(qty)));
      if e.Err? {
        return Err(e.error);
      }
      r := Ok(true);
    }
  }

  // ---------------------------------------------------------------------
  // Clients: what callers can conclude from the contracts alone.

  /** Start with 50 units; reserving 20 leaves 30, and a further request
      for 40 is refused and leaves the stock at 30. */
  method OverdrawIsRefused(store: ProductStore, data: CreateProductRequest, sellerId: Id)
    returns (first: bool, second: bool, stock: int)
    requires store.Valid()
    requires data.stock == 50.0
    modifies store
    ensures first && !second && stock == 30
  {
    var p := store.CreateProduct(data, sellerId);
    first := store.ReserveStock(p.id, 20.0);
    second := store.ReserveStock(p.id, 40.0);
    stock := store.GetCurrentStock(p.id);
  }

  /** Start with 10 units; reserving all 10 leaves 0, and cancelling that
      reservation brings the stock back to 10. */
  method CancelRestoresStock(store: ProductStore, data: CreateProductRequest, sellerId: Id)
    returns (reserved: bool, cancelled: Result<bool>, stock: int)
    requires store.Valid()
    requires data.stock == 10.0
    modifies store
    ensures reserved && cancelled == Ok(true) && stock == 10
  {
    var p := store.CreateProduct(data, sellerId);
    reserved := store.ReserveStock(p.id, 10.0);
    var empty := store.GetCurrentStock(p.id);
    assert empty == 0 by { StockIsSumOfQuantities(EventsOf(store.events, p.id)); }
    cancelled := store.CancelReservation(p.id, 10.0);
    stock := store.GetCurrentStock(p.id);
    StockIsSumOfQuantities(EventsOf(store.events, p.id));
  }
}
