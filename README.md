# Stock ledger of the funcpro-ecommerce product service, in Dafny

This project models the stock accounting core of a small e-commerce backend.
A product's current stock is never stored. It is derived by summing the
signed `quantity` of an append-only list of stock events tagged `INITIAL`,
`RESERVATION`, `CANCELLATION` or `RESTOCK`.

- `stock_events.dfy`, module `StockEvents` (src/types/product.ts): the event
  record, the stock fold `CalculateStockFromEvents` (a left fold, like
  `reduce`), and the stock-history summary `GetStockHistory`. It also holds
  independent reference definitions: a front-to-back sum of the quantity
  column, and a per-type occurrence count. Lemmas tie the fold and the
  summary to these definitions.
- `product_service.dfy`, module `ProductService` (src/lib/product.ts): the
  database becomes the class `ProductStore`. It holds a map of products and
  one append-only `seq` of stock-event rows in creation order. A counter
  hands out fresh ids and a logical clock hands out `createdAt`. The methods
  `CreateProduct`, `UpdateProduct`, `RecordStockEvent`, `ReserveStock`,
  `RestockProduct` and `CancelReservation` each state the whole new state:
  exactly one row appended with earlier rows untouched, or nothing appended.
  They also state the new stock of the product concerned and that every
  other product's stock is unchanged. `GetStockFromEvents` and
  `GetCurrentStock` only read.
  The foreign key from a stock event to its product is modelled, and an
  insert for a missing product fails with `ForeignKeyViolation`. A
  reservation for a missing product never reaches the insert: its stock is
  0, so the reservation is refused. `OverdrawIsRefused` and
  `CancelRestoresStock` are two callers. They show what follows from the
  contracts alone: 50 − 20 leaves 30 and a request for 40 is refused; 10
  reserved and then cancelled gives 10 again.

JavaScript numbers are modelled as `real`, and `Math.floor` as `.Floor`,
which is exact. `Math.max(0, Math.floor(q))` is `NormalizeQuantity`. The
`new Date()` fallback of `getStockHistory` reads the wall clock, so it
becomes a parameter `now`.

## Model

| member | source | states |
|---|---|---|
| `StockEvents.CalculateStockFromEvents` | src/types/product.ts:35-36 | the `reduce` sum as a left fold from seed 0; `StockAppend`, `StockConcat`, `StockIsSumOfQuantities` and `StockIgnoresTags` establish that it is 0 on no events, grows by each appended quantity, distributes over concatenation and equals q1 + … + qn whatever the tags |
| `StockEvents.EventsByType` | src/types/product.ts:43-49 | the spread-object histogram `reduce`; `EventsByTypeCounts` and `CountsSumToLength` establish that each entry is the number of events of that type, absent types have no entry, and the entries sum to the length |
| `StockEvents.GetStockHistory` | src/types/product.ts:39-50 | the four-field summary with the wall clock as `now`; `StockHistorySummary` establishes what each field equals |
| `StockEvents.StockAppend` | src/types/product.ts:35-36 | the stock of the empty list is 0; appending an event adds exactly its quantity |
| `StockEvents.StockConcat` | src/types/product.ts:35-36 | the fold distributes over concatenation: stock(a + b) = stock(a) + stock(b) |
| `StockEvents.StockIsSumOfQuantities` | src/types/product.ts:35-36 | the derived stock equals q1 + … + qn over the quantity column, whatever the event types |
| `StockEvents.StockIgnoresTags` | src/types/product.ts:36 | two event lists with the same quantities have the same stock, so type, id, reason and timestamp never matter |
| `StockEvents.EventsByTypeCounts` | src/types/product.ts:43-49 | each histogram entry equals the number of events of that type; a type has an entry exactly when some event carries it |
| `StockEvents.CountsSumToLength` | src/types/product.ts:43-49 | the four per-type counts add up to the number of events |
| `StockEvents.StockHistorySummary` | src/types/product.ts:39-50 | currentStock is the sum of quantities, totalEvents the length, lastUpdated the last event's createdAt (or the clock when empty), and the histogram counts each type and sums to totalEvents |
| `ProductService.NormalizeQuantity` | src/lib/product.ts:105 | the normalised quantity is positive exactly when the input is at least 1, and then it is the whole number n with n ≤ q < n + 1 |
| `ProductService.DecimalString` | src/lib/product.ts:117 | the quantity rendered as a non-empty string of decimal digits with no leading zero (for n > 0); with `DecimalRoundTrip` this is the canonical rendering `${qty}` gives below 1e21 |
| `ProductService.ReservationReason` | src/lib/product.ts:117 | the text "Reservation for <qty> units" that `ReserveStock` records; its number reads back as qty by `DecimalRoundTrip` |
| `ProductService.CancellationReason` | src/lib/product.ts:135 | the text "Cancellation for <qty> units" that `CancelReservation` records; its number reads back as qty by `DecimalRoundTrip` |
| `ProductService.EventsOf` | src/lib/product.ts:7-10 | the `findMany` selection of one product's rows; `EventsOfSelects` establishes that it keeps exactly that product's rows, in createdAt order |
| `ProductService.LedgerStock` | src/lib/product.ts:6-13 | `getStockFromEvents` as a value: the fold over the product's rows; `LedgerStockAppend` and `NonzeroStockHasEvents` establish how one append moves it and that a product without rows has stock 0 |
| `ProductService.DecimalRoundTrip` | src/lib/product.ts:117 | the quantity written into a reason text reads back as the same number |
| `ProductService.EventsOfSelects` | src/lib/product.ts:6-10 | the per-product query returns exactly that product's rows, and in createdAt order when the table is |
| `ProductService.LedgerStockAppend` | src/lib/product.ts:6-13 | appending a row changes its own product's stock by its quantity and no other product's stock |
| `ProductService.NonzeroStockHasEvents` | src/lib/product.ts:109-114 | a product with non-zero stock has a row in the ledger, so a product without rows has stock 0 |
| `ProductService.ReserveThenCancelRestores` | src/lib/product.ts:116-137 | a reservation of q then a cancellation of q for the same product restores its stock |
| `ProductService.ProductStore.CreateEvent` | src/lib/product.ts:88-95 | one insert: a missing product is a foreign-key error with no change; otherwise exactly one row with a fresh id is appended, prefix untouched, and only that product's stock moves, by the quantity |
| `ProductService.ProductStore.CreateProduct` | src/lib/product.ts:16-38 | a new product with a fresh id and floored price, and one INITIAL event "Initial stock" of floor(stock), so its stock is floor(stock); no other stock changes |
| `ProductService.ProductStore.UpdateProduct` | src/lib/product.ts:56-69 | with no field given, a lookup (none for a missing id); otherwise only the given fields change, price floored, and a missing id is an error; the ledger is never touched |
| `ProductService.ProductStore.RecordStockEvent` | src/lib/product.ts:80-96 | appends exactly one event with quantity floor(q) and the given non-INITIAL type and reason, earlier events untouched; the caller's sign is kept |
| `ProductService.ProductStore.GetStockFromEvents` | src/lib/product.ts:6-13 | the result is the product's stock, read over its rows in createdAt order, and equals the sum of their quantities |
| `ProductService.ProductStore.GetCurrentStock` | src/lib/product.ts:99-101 | the result is the product's current stock, the sum of its rows' quantities, with no change to the store |
| `ProductService.ProductStore.ReserveStock` | src/lib/product.ts:104-119 | succeeds exactly when the normalised qty is positive and the stock is at least qty; on failure nothing is appended; on success one RESERVATION of −qty is appended and stock falls by qty and stays ≥ 0 |
| `ProductService.ProductStore.RestockProduct` | src/lib/product.ts:122-128 | a normalised zero gives false with no change; otherwise one RESTOCK of +qty, reason defaulting to "Manual restock", and stock rises by qty |
| `ProductService.ProductStore.CancelReservation` | src/lib/product.ts:131-137 | a normalised zero gives false with no change; otherwise one CANCELLATION of +qty and stock rises by qty |
| `ProductService.OverdrawIsRefused` | src/lib/product.ts:104-119 | from 50 units, reserving 20 succeeds, reserving 40 more is refused, and the stock is 30 |
| `ProductService.CancelRestoresStock` | src/lib/product.ts:104-137 | from 10 units, reserving 10 succeeds and leaves 0, and cancelling 10 succeeds and gives 10 again |

## Left out

- Database plumbing: `getProductById`, `listProducts` and `deleteProduct` (src/lib/product.ts:41-73) are reads or deletes against the persistence layer, not ledger logic. Product deletion and its cascade are not modelled, so products only accumulate.
- Concurrency: `ReserveStock` is modelled as one uninterrupted call. The check-then-append race between two concurrent reservations is not captured.
- Number magnitudes: quantities, prices and stock totals are unbounded integers, so the model is faithful only within JavaScript's safe-integer range (below 2^53 in absolute value). Above it the source's `reduce` sums round, so INITIAL 2^53 followed by two RESTOCK of 1 still reads 2^53 there and a reservation of 2^53 + 2 is refused, while the model sums exactly and accepts it. From 1e21 on, `${qty}` renders in exponential notation ("1e+21"), while `DecimalString` always writes plain digits. The width of the database's quantity column is not modelled either.
- NaN, infinities and non-numeric inputs: quantities and prices are exact reals, so `Math.max(0, NaN)` slipping past the zero guard is not modelled.
- Timestamps: `createdAt` comes from a strictly increasing logical clock. Equal database timestamps, with ties broken by insertion order, are not modelled.
- The seller reference of a product is an opaque id. Users and the seller foreign key are not modelled, so `CreateProduct` never fails.
- `getStockHistory`'s wall-clock fallback is the parameter `now`. The returned `lastUpdated` is a logical timestamp, not a `Date`.
- The HTTP handlers under src/app/api are not part of this model. That includes the request validation in front of `recordStockEvent`, which tests for a non-zero quantity before flooring.
- prisma/seed.ts and the type-only files under src/types are not part of this model.
