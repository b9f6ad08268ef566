# Bin store: decaying prices, inventory list and cart total

A Dafny model of the computed core of a storefront for a liquidation-bin
reseller. The core has three parts.

- **Time-decay pricing** (`utils.ts`). An item's displayed price drops by one
  seventh of its original price per whole day since creation, and never goes
  below 1. A day counter gives the item's 1-based day number. Both use the
  absolute distance between the clock and the creation time.
- **Inventory list** (`App.tsx`). The seller's product list is one state cell.
  Adding a product puts it first and forces it active. Removing drops every
  product with the given id. Marking sold stamps every product with the given
  id with status sold, a sale price and a sale time. The screen derives the
  active products, the sold products and the total revenue from the list.
- **Cart total** (`components/CartDrawer.tsx`). The checkout total sums the
  price frozen on each cart line when the product was added. Checkout is
  offered only when the drawer is open and the cart holds at least one line.

Modules:

- `Wrappers` (wrappers.dfy): `Option`, for the optional record fields.
- `Pricing` (pricing.dfy): `CurrentPrice`, `DayCount` and their properties.
  Timestamps are integer milliseconds, and the clock reading `now` is a
  parameter. Prices are exact reals.
- `Inventory` (inventory.dfy): the `Product` record and the list functions
  `Added`, `WithoutId`, `MarkedSold`, `WithStatus` and `TotalRevenue`. The class
  `Store` holds the list as a `seq<Product>` field, and its methods reassign it,
  like the state setter does.
- `Cart` (cart.dfy): `CartItem`, `Transaction`, `Total` and `CheckoutOffer`.

Three consequences of the code are worth stating plainly:

- The price follows `originalPrice * (7 - d) / 7` only while that stays at or
  above 1. Small prices therefore reach the floor early: an item of 3 is worth
  1 after six whole days, not 3/7 (`Pricing.SmallPriceFloorsEarly`,
  `Pricing.PriceExactFormula`).
- For an original price below 1, the floor lifts the price above the original
  price. The bound that holds is `max(originalPrice, 1)`
  (`Pricing.PriceAtMostOriginal`).
- `addProduct` forces the status to active but does not clear the sale fields.
  Every record keeps its sale fields exactly when it is sold only if the added
  product has none, which is how the listing form builds it
  (components/SellForm.tsx:101-111; `Inventory.AddedWellFormed`).

## Model

| member | source | states |
|---|---|---|
| `Pricing.ElapsedDays` | utils.ts:5-6 | the whole-day count `d` satisfies `d * 86400000 <= abs(now - createdAt) < (d + 1) * 86400000`, so it is the floored day count of the absolute distance |
| `Pricing.RawPrice` | utils.ts:11-12 | the linear price before the floor: `originalPrice * (7 - d) / 7` after `d` whole days; `RawPriceNonIncreasing` and `DropCoversPrice` state how it falls |
| `Pricing.CurrentPrice` | utils.ts:2-15 | the price is at least 1 and at least the linear price `original - original/7 * d`, and it equals one of the two (the maximum of linear price and floor) |
| `Pricing.DayCount` | utils.ts:17-22 | the day label `n` is at least 1, and `abs(now - createdAt)` lies in the `n`-th day: `(n - 1) * 86400000 <= distance < n * 86400000` |
| `Pricing.DayCountIsElapsedPlusOne` | utils.ts:17-22 | the day label equals the decay's whole-day count plus one |
| `Pricing.PriceOnFirstDay` | utils.ts:6-14 | with less than one day elapsed, the price is `max(originalPrice, 1)` and the label is day 1 |
| `Pricing.DropCoversPrice` | utils.ts:11 | for a non-negative original price and at least 7 days, the accumulated drop is at least the original price |
| `Pricing.PriceFlooredAfterWeek` | utils.ts:8-14 | for a non-negative original price and at least 7 whole days elapsed, the price is exactly 1: the floor holds rather than the price going to zero or below |
| `Pricing.RawPriceNonIncreasing` | utils.ts:11-12 | for a non-negative original price, the linear price does not rise with more days |
| `Pricing.ElapsedDaysMonotonic` | utils.ts:5-6 | a greater distance from the creation time never gives fewer whole days |
| `Pricing.PriceNonIncreasing` | utils.ts:5-14 | for a non-negative original price, the price does not rise as `abs(now - createdAt)` grows |
| `Pricing.PriceAtMostOriginal` | utils.ts:11-14 | for a non-negative original price, the price never exceeds `max(originalPrice, 1)` |
| `Pricing.PriceExactFormula` | utils.ts:5-12 | while the linear price is at least 1, the price is exactly `originalPrice * (7 - d) / 7` |
| `Pricing.OnlyDistanceMatters` | utils.ts:2-22 | price and day label depend only on `abs(now - createdAt)` |
| `Pricing.FutureCreationLikePast` | utils.ts:2-22 | a creation time `k` ms in the future gives the same price and day label as one `k` ms in the past |
| `Pricing.SameDaySamePrice` | utils.ts:2-22 | two clock readings whose distances from the creation time (past or future) fall in the same whole day give the same price and the same day label |
| `Pricing.SeventyExample` | utils.ts:11-14 | an item of 70 is worth 40 after 3 days and 1 after 10, and after 6 days it shows day 7 |
| `Pricing.SmallPriceFloorsEarly` | utils.ts:11-14 | an item of 3 is already at the floor of 1 after 6 days, which differs from `3 * (7 - 6) / 7` |
| `Inventory.Added` | App.tsx:20-22 | the new list is one longer, its head is the new product with only its status changed to active, and the old list follows unchanged |
| `Inventory.WithoutId` | App.tsx:24-26 | a product is in the result exactly when it is in the list and its id differs from the removed id |
| `Inventory.MarkedSold` | App.tsx:28-34 | length is kept; a product with another id is unchanged; a product with the id becomes sold with the given sale price and sale time, all its other fields kept |
| `Inventory.SoldAs` | App.tsx:31 | the sold record has status sold, the given sale price and sale time, keeps every other field, and is well formed |
| `Inventory.WithStatus` | App.tsx:16-17 | a product is in the result exactly when it is in the list with the given status |
| `Inventory.ActiveProducts` | App.tsx:16 | a product is active-listed exactly when it is in the list with status active; `ActiveSoldPartition`, `AddProductEffects` and `MarkAsSoldEffects` state how it changes |
| `Inventory.SoldProducts` | App.tsx:17 | a product is sold-listed exactly when it is in the list with status sold; `ActiveSoldPartition`, `RemoveActiveKeepsSales` and `MarkAsSoldEffects` state how it changes |
| `Inventory.SumSoldPrices` | App.tsx:18 | the sum over an empty list is 0, and non-negative contributions give a non-negative sum; `SumSoldPricesConcat` states additivity |
| `Inventory.TotalRevenue` | App.tsx:16-18 | revenue is 0 with no sold products and non-negative when sold prices are; `TotalRevenueConcat`, `MarkAsSoldEffects`, `AddProductEffects` and `RemoveActiveKeepsSales` state how it changes |
| `Inventory.WithStatusConcat` | App.tsx:16-17 | the status filter keeps list order: it distributes over concatenation |
| `Inventory.SumSoldPricesConcat` | App.tsx:18 | the sum of sale prices, a missing one counted as 0, is additive over concatenation |
| `Inventory.TotalRevenueConcat` | App.tsx:16-18 | total revenue of a concatenation is the sum of the revenues of the parts |
| `Inventory.ActiveSoldPartition` | App.tsx:16-17 | active and sold products together are a permutation of the list, so their counts sum to its length |
| `Inventory.WithoutIdConcat` | App.tsx:24-26 | removal keeps the order of the remaining products: it distributes over concatenation |
| `Inventory.WithoutAbsentId` | App.tsx:24-26 | removing an id no product carries leaves the list unchanged |
| `Inventory.WithoutIdLength` | App.tsx:24-26 | removal shortens the list by exactly the number of products carrying the id |
| `Inventory.RemoveIdempotent` | App.tsx:24-26 | removing the same id twice gives the same list as removing it once |
| `Inventory.MarkAbsentId` | App.tsx:28-34 | marking an id no product carries leaves the list unchanged |
| `Inventory.MarkAsSoldEffects` | App.tsx:16-34 | selling the single product with an id, which is active, lowers the active count by 1, raises the sold count by 1 and raises total revenue by the sale price |
| `Inventory.AddProductEffects` | App.tsx:16-22 | adding raises the active count by 1 and leaves the sold products and the revenue unchanged |
| `Inventory.RemoveActiveKeepsSales` | App.tsx:16-26 | removing an id that only active products carry leaves the sold products and the revenue unchanged |
| `Inventory.SaleAtCurrentPrice` | components/InventoryCard.tsx:13-55 | selling the single active product with an id at its decayed price raises revenue by at least 1; the price is read at the card's last refresh `pricedAt`, which may differ from the sale time stamped on the record |
| `Inventory.MarkedSoldWellFormed` | App.tsx:28-34 | if every record has its sale fields exactly when sold, that still holds after marking sold |
| `Inventory.AddedWellFormed` | App.tsx:20-22 | adding a product without sale fields keeps every record well formed |
| `Inventory.WithoutIdWellFormed` | App.tsx:24-26 | removal keeps every record well formed |
| `Inventory.Store.constructor` | App.tsx:11 | the product list starts empty |
| `Inventory.Store.AddProduct` | App.tsx:20-22 | the list becomes the `Added` list; one more active product, sales and revenue unchanged |
| `Inventory.Store.RemoveProduct` | App.tsx:24-26 | the list becomes the `WithoutId` list: exactly the old products with another id remain |
| `Inventory.Store.MarkAsSold` | App.tsx:28-34 | the list becomes the `MarkedSold` list for the product's id; for a unique active id, the active count drops by 1, the sold count rises by 1 and revenue rises by the price |
| `Cart.Total` | components/CartDrawer.tsx:15 | an empty cart totals 0, and lines with non-negative frozen prices give a non-negative total |
| `Cart.TotalIsSumOfLinePrices` | components/CartDrawer.tsx:15-64 | the total equals the sum of the prices the lines display, each line showing its own frozen price at addition |
| `Cart.TotalConcat` | components/CartDrawer.tsx:15 | the total of `a ++ b` is the total of `a` plus the total of `b` |
| `Cart.TotalOnlySnapshots` | components/CartDrawer.tsx:15 | two carts with the same frozen prices line by line have the same total, whatever their products' original prices or dates |
| `Cart.TotalAtLeastFloorPerLine` | components/CartDrawer.tsx:15 | lines priced at 1 or more give a total of at least the number of lines |
| `Cart.CheckoutOffer` | components/CartDrawer.tsx:17-92 | checkout is offered exactly when the drawer is open and the cart is non-empty, and it passes exactly the computed total |
| `Cart.CheckoutAtLeastFloor` | components/CartDrawer.tsx:78-85 | when lines are priced at 1 or more, any offered checkout amount is at least 1 |

## Left out

- `formatCurrency` wraps the host's locale number formatting, which is a foreign library.
- Clock reads and ISO-8601 timestamp strings are left out. `now`, `createdAt`, `soldAt` and `Transaction.date` are integer milliseconds, and an unparsable date (which the host turns into NaN) is not modelled.
- Prices are exact reals. The IEEE-754 rounding of `originalPrice / 7` and of the sums is not modelled, and neither are NaN and infinities.
- The `reduce` sums are left folds. They are modelled as right-nested sums, which are equal over exact reals.
- `soldPrice || 0` also maps a sale price of 0 or NaN to 0. Only the missing-value case is modelled, and a price of 0 gives the same result.
- Inventory.MarkedSold: stamps every product carrying the id with one sale time `at`. The source reads the clock once per matching product inside the `map`, so products sharing an id could get sale times a few milliseconds apart.
- The AI suggestion service (services/geminiService.ts) is a network call to a third-party SDK and is not part of this model.
- The listing form (components/SellForm.tsx) is not part of this model: camera and file capture, the asynchronous AI call and step switching. It also makes random ids, so id uniqueness is a lemma hypothesis where it matters.
- The simulated payment (components/PaymentModal.tsx) is a timer and form state with no settlement logic.
- The once-a-minute re-render timers of the item cards only re-evaluate `CurrentPrice`.
- The rounded discount percentage shown on product cards is floating-point display logic.
- Pure rendering is not modelled: the navigation bar, sales history and transactions page. The sales history recomputes the same revenue sum as `Inventory.TotalRevenue`.
- Adding to the cart, removing from it and creating transactions happen in code that is not part of this model. Only the `CartItem` and `Transaction` shapes, the total and the checkout guard are modelled.
