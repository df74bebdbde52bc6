# Storefront cart and order pricing, modelled in Dafny

This project models the logic of a small Angular storefront.

- **The cart service** keeps an ordered list of `{product, quantity}` line items. It offers add (merge or append), increase, decrease, remove and clear. After every change it publishes the list and the total item count to its observers and writes the list to browser storage under `cart_items`. At construction it restores a stored list if there is one.
- **The order list view** prices an order against the product catalog and looks up customer names.
- **The order detail view** reports the quantity of a product in the selected order and prices the selected order.
- **The product listing view** has a low-stock test and a guarded edit of one product's stock.

Files, one module each:

- `models.dfy` (`Models`): the records (`Product`, `LineItem`, `ProductInOrder`, `Order`, `Customer`), `Option`, and `IndexOf`. `IndexOf` is the first-match search that stands for every `find` in the code. `FirstMatch` and `NoMatch` describe its two outcomes.
- `cart.dfy` (`Cart`): the list functions `Added`, `Increased`, `Decreased`, `Removed` and `Apply`/`Run` over an `Op` datatype, plus `TotalQuantity` (the count) and `WellFormed` (every quantity is at least 1 and no id repeats). It also holds the lemmas about these functions and the class `CartService`. The class fields are:
  - `items`: the line items;
  - `published`: the last value of the line-item stream;
  - `count`: the last value of the count stream;
  - `stored`: the storage slot, `None` while nothing is stored.
- `orders.dfy` (`Orders`): `LinePrice` and `OrderPrice`, their lemmas, and the class `OrderListComponent`.
- `order_details.dfy` (`OrderDetails`): the class `OrderDetailsComponent`.
- `products.dfy` (`Products`): `IsLowStock` (true when fewer than 5 pieces remain), `WithStock`, their lemmas, and the class `ProductsComponent`.

Each method that changes state is tied to a function of the old state. For example, `AddOrder` ensures `items == Added(old(items), product)`. The properties are lemmas about those functions. After every mutating method, two predicates hold: `Synced()` (the published list equals `items` and `count == TotalQuantity(items)`) and `Persisted()` (`stored == Some(items)`). `ShoppingScenario` walks through one shopping session and checks the list and count after each step using only these contracts.

Modelling decisions:

- **ProductId is a string.** The two order-model files disagree (`number` in one, `number|string` in the other). The cart compares ids with string arguments.
- **Product has three fields, read from the code.** The product and customer model files are not part of this model. `Product` has the fields the code reads: `ProductId`, `ProductPrice` and `AvailablePieces`. `Customer` has the fields listed where the checkout view creates one.
- **Prices are integers** (minor currency units), and all arithmetic is on unbounded integers.
- **`productsInOrder` is a list of `Product`s.** Its declared element type is a product with an extra `Quantity`, but the modelled code never reads that `Quantity`.
- **Fetched data and storage contents are parameters.** These are the values the HTTP calls return and what `localStorage.getItem` yields.
- **`JSON.parse` is not guarded** (src/app/core/services/cart.service.ts:76), so the model has no recovery path for unreadable storage.
- **`updateCart` publishes the live array** (src/app/core/services/cart.service.ts:65), not a copy; the model's lists are values.
- **Publishing comes before the storage write** (src/app/core/services/cart.service.ts:65-67); `UpdateCart` sets `published` and `count` before calling `SaveCartToLocalStorage`.
- **Load publishes nothing when storage is empty or missing** (src/app/core/services/cart.service.ts:75). The streams then keep their initial values `[]` and `0`, which equal the empty cart.

## Model

| member | source | states |
|---|---|---|
| `Models.IndexOf` | src/app/core/services/cart.service.ts:26 | the result is the index of the first element whose key matches, and it equals the length of the list exactly when no element matches |
| `Models.FirstMatchIsIndexOf` | src/app/core/services/cart.service.ts:43 | any first match found by other means is the index `find` reports |
| `Cart.TotalQuantityConcat` | src/app/core/services/cart.service.ts:66 | the item count of two lists joined is the sum of their counts |
| `Cart.TotalQuantityAppend` | src/app/core/services/cart.service.ts:66 | appending a line adds its quantity to the count (the step of the `reduce`) |
| `Cart.TotalQuantityBump` | src/app/core/services/cart.service.ts:29 | changing one line's quantity by `delta` changes the count by `delta` |
| `Cart.TotalQuantityAtLeastLines` | src/app/core/services/cart.service.ts:66 | a well-formed cart's count is at least its number of lines, and it is 0 exactly when the cart is empty |
| `Cart.SumQuantities` | src/app/core/services/cart.service.ts:66 | the loop that accumulates the quantities returns the sum of all quantities |
| `Cart.AddExisting` | src/app/core/services/cart.service.ts:25-29 | adding a product whose id is in the cart keeps the number of lines, adds 1 to the first matching line while keeping its stored product, and leaves every other line as it was |
| `Cart.AddAbsent` | src/app/core/services/cart.service.ts:30-32 | adding a product whose id is absent appends `{product, 1}` after the unchanged earlier lines |
| `Cart.IncreasePresent` | src/app/core/services/cart.service.ts:42-46 | increasing a present id adds 1 to its first line and changes nothing else |
| `Cart.IncreaseAbsent` | src/app/core/services/cart.service.ts:42-48 | increasing an absent id leaves the items unchanged, and no line is created |
| `Cart.DecreaseAboveOne` | src/app/core/services/cart.service.ts:49-52 | when the first matching line has quantity above 1, decreasing takes exactly 1 from that line and changes nothing else |
| `Cart.DecreaseAtOne` | src/app/core/services/cart.service.ts:53-55 | in a cart with unique ids, decreasing a line of quantity 1 removes that line and keeps the others in order |
| `Cart.DecreaseAbsent` | src/app/core/services/cart.service.ts:49-57 | decreasing an absent id leaves the items unchanged |
| `Cart.RemovedMembers` | src/app/core/services/cart.service.ts:37 | a line survives removal exactly when it was in the cart and has a different id, so every line with that id is gone |
| `Cart.RemovedConcat` | src/app/core/services/cart.service.ts:37 | removal applies to each part of a list separately, so the surviving lines keep their relative order |
| `Cart.RemovedAbsent` | src/app/core/services/cart.service.ts:36-39 | removing an id that no line has leaves the items unchanged |
| `Cart.RemovedUnique` | src/app/core/services/cart.service.ts:36-39 | in a cart with unique ids, removing a present id cuts out exactly its line |
| `Cart.RemovedWellFormed` | src/app/core/services/cart.service.ts:37 | removal keeps quantities at least 1 and ids distinct |
| `Cart.ApplyWellFormed` | src/app/core/services/cart.service.ts:25-62 | each of the five operations keeps every quantity at least 1 and all ids pairwise distinct |
| `Cart.RunWellFormed` | src/app/core/services/cart.service.ts:25-62 | any sequence of operations on a well-formed cart keeps it well formed |
| `Cart.FromEmptyWellFormed` | src/app/core/services/cart.service.ts:25-62 | starting from the empty cart, after any sequence of operations every quantity is at least 1 and ids are pairwise distinct |
| `Cart.ApplyCount` | src/app/core/services/cart.service.ts:25-66 | on a well-formed cart: add raises the count by 1; increase raises it by 1 if the id is present, else leaves it; decrease lowers it by 1 if the id is present, else leaves it; remove subtracts the removed line's quantity; clear makes it 0 |
| `Cart.CartService.constructor` | src/app/core/services/cart.service.ts:14-16 | a stored list is restored as the items with both streams synced; with nothing stored the items are empty and the count is 0; storage is not written |
| `Cart.CartService.LoadCartFromLocalStorage` | src/app/core/services/cart.service.ts:73-80 | a stored list becomes the items and is published with its count; with nothing stored, nothing changes |
| `Cart.CartService.SaveCartToLocalStorage` | src/app/core/services/cart.service.ts:69-71 | the storage slot holds the current items, and nothing else changes |
| `Cart.CartService.UpdateCart` | src/app/core/services/cart.service.ts:64-68 | the items are untouched; afterwards the published list is the items, the count is their total quantity, and storage holds them; so running it twice leaves the same state as running it once |
| `Cart.CartService.AddOrder` | src/app/core/services/cart.service.ts:25-34 | the new items are `Added(old items, product)`, and the streams and storage are synced to them |
| `Cart.CartService.RemoveFromCart` | src/app/core/services/cart.service.ts:36-39 | the new items are `Removed(old items, id)`, synced and stored |
| `Cart.CartService.IncreaseQuantity` | src/app/core/services/cart.service.ts:42-48 | the new items are `Increased(old items, id)`, synced and stored |
| `Cart.CartService.DecreaseQuantity` | src/app/core/services/cart.service.ts:49-57 | the new items are `Decreased(old items, id)`, synced and stored; the second sync after the removal branch does not change the final state |
| `Cart.CartService.ClearCart` | src/app/core/services/cart.service.ts:59-62 | the items and the published list are empty, the count is 0, and storage holds the empty list |
| `Cart.Reload` | src/app/core/services/cart.service.ts:69-79 | a new service built on the storage that a synced service left behind has the same ordered items, the same published list and the same count |
| `Orders.LinePriceMatched` | src/app/features/orders/orders.component.ts:43-46 | a line whose id is in the catalog contributes price × quantity of the first catalog product with that id |
| `Orders.LinePriceUnmatched` | src/app/features/orders/orders.component.ts:43-44 | a line whose id matches no catalog product contributes 0 |
| `Orders.OrderPriceEmpty` | src/app/features/orders/orders.component.ts:38-50 | an order with no lines costs 0 |
| `Orders.OrderPriceConcat` | src/app/features/orders/orders.component.ts:41-48 | the price of two groups of lines joined is the sum of their prices |
| `Orders.OrderPriceAppend` | src/app/features/orders/orders.component.ts:41-50 | appending one line adds exactly that line's contribution to the total |
| `Orders.OrderPriceSkipsUnmatched` | src/app/features/orders/orders.component.ts:43-47 | removing a line that matches no catalog product from anywhere in an order leaves its price the same |
| `Orders.OrderListComponent.constructor` | src/app/features/orders/orders.component.ts:17-21 | orders, customers and products all start empty |
| `Orders.OrderListComponent.LoadOrdersAndProducts` | src/app/features/orders/orders.component.ts:28-36 | the fetched orders and products are stored, and customers are untouched |
| `Orders.OrderListComponent.CalculateOrderPrice` | src/app/features/orders/orders.component.ts:38-51 | the loop returns the sum over the order's lines of the first matching catalog product's price × the line's quantity, skipping unmatched lines |
| `Orders.OrderListComponent.GetCustomerName` | src/app/features/orders/orders.component.ts:53-56 | returns the `Name` of the first customer whose `Id` matches, and `'Unknown Customer'` when none does |
| `Orders.NameAlwaysUnknown` | src/app/features/orders/orders.component.ts:17-56 | since `customers` starts empty and loading never fills it, every name lookup returns `'Unknown Customer'` |
| `OrderDetails.OrderDetailsComponent.constructor` | src/app/features/order-details/order-details.component.ts:18-29 | no order is selected yet, and the product and order lists are empty |
| `OrderDetails.OrderDetailsComponent.GetProductQuantity` | src/app/features/order-details/order-details.component.ts:62-64 | returns 0 with no selected order, 0 when the selected order has no line with that id, and otherwise the `Quantity` of the first matching line |
| `OrderDetails.OrderDetailsComponent.CalculateTotalOrderPrice` | src/app/features/order-details/order-details.component.ts:71-88 | returns 0 with no selected order; otherwise the loop returns the selected order priced against `productsInOrder` with the same `OrderPrice` as the list view, skipping unmatched lines |
| `OrderDetails.TotalsAgree` | src/app/features/order-details/order-details.component.ts:71-88 | the detail total equals the list view's `calculateOrderPrice` of the selected order when `productsInOrder` is the catalog |
| `Products.StockNegativeIgnored` | src/app/features/products/products.component.ts:33-35 | a negative quantity leaves the products unchanged |
| `Products.StockUnknownIgnored` | src/app/features/products/products.component.ts:36-41 | an id no listed product has leaves the products unchanged |
| `Products.StockEdited` | src/app/features/products/products.component.ts:36-40 | a quantity of 0 or more sets `AvailablePieces` of the first product with the id; its id and price and all other products stay the same |
| `Products.StockEditedLowStock` | src/app/features/products/products.component.ts:30-40 | after a successful edit, the edited product is low on stock exactly when the new quantity is below 5 |
| `Products.ProductsComponent.constructor` | src/app/features/products/products.component.ts:17-18 | the product list starts empty |
| `Products.ProductsComponent.OnProductsLoaded` | src/app/features/products/products.component.ts:23-27 | the fetched products become the listed products |
| `Products.ProductsComponent.EditProductQuantity` | src/app/features/products/products.component.ts:33-43 | the new products are `WithStock(old products, product id, quantity)` |
| `Cart.TotalQuantity` | src/app/core/services/cart.service.ts:66 | the sum of all line quantities, the value the count stream receives; its properties are the `TotalQuantity…` lemmas |
| `Cart.Added` | src/app/core/services/cart.service.ts:25-32 | the list after `addOrder`: the first line with the product's id gets one more piece, otherwise `{product, 1}` is appended; stated by `AddExisting` and `AddAbsent` |
| `Cart.Removed` | src/app/core/services/cart.service.ts:36-37 | the list after `removeFromCart`: the lines whose id differs, in their order; stated by the `Removed…` lemmas |
| `Cart.Increased` | src/app/core/services/cart.service.ts:42-46 | the list after `increaseQuantity`: the first matching line gets one more piece, nothing changes without a match; stated by `IncreasePresent` and `IncreaseAbsent` |
| `Cart.Decreased` | src/app/core/services/cart.service.ts:49-55 | the list after `decreaseQuantity`: above 1 the first matching line loses one piece, otherwise the id is removed, nothing changes without a match; stated by the `Decrease…` lemmas |
| `Cart.RepeatedSyncKeepsState` | src/app/core/services/cart.service.ts:54-56 | after `removeFromCart` has synced, the second `updateCart` leaves items, published list, count and storage exactly as they were |
| `Cart.ShoppingScenario` | src/app/core/services/cart.service.ts:25-62 | from an empty cart: add P1 gives count 1; add P1 again gives one line of quantity 2; add P2 gives count 3 with P1 before P2; removing P1 leaves only P2 with count 1; decreasing P2 empties the cart and storage |
| `Orders.LinePrice` | src/app/features/orders/orders.component.ts:43-47 | what one order line adds to the total: price × quantity of the first catalog product with its id, or 0; stated by `LinePriceMatched` and `LinePriceUnmatched` |
| `Orders.OrderPrice` | src/app/features/orders/orders.component.ts:38-50 | the order total, the sum of `LinePrice` over the lines; stated by the `OrderPrice…` lemmas and reached by both pricing loops |
| `Products.IsLowStock` | src/app/features/products/products.component.ts:30-32 | true exactly when fewer than 5 pieces are available; used by `StockEditedLowStock` |
| `Products.WithStock` | src/app/features/products/products.component.ts:33-41 | the product list after `editProductQuantity`; stated by the `Stock…` lemmas |

## Left out

- Observer streams: subscription, replay-latest delivery and delivery order are not modelled. Each stream is represented only by the last value it published.
- Aliasing: the service publishes its live list, and `addOrder` stores the caller's product object, which the stock edit may later change. Lists and products are values here, so neither aliasing effect appears.
- Storage and JSON: `localStorage` and `JSON.stringify`/`JSON.parse` are foreign calls. Storage is a slot holding an optional list. A stored empty string (falsy) is treated like a missing key. `JSON.parse` has no guard, so the model has no path for corrupt data.
- HTTP fetching: the data service's fetches are not modelled. Their results are parameters of `LoadOrdersAndProducts` and `OnProductsLoaded`. `loadOrdersAndProducts` also calls `getOrders`, which the data service does not define (it defines only `getProducts`). Its two subscriptions deliver their results independently and in either order, while `LoadOrdersAndProducts` sets both fields in one step.
- Order-detail data loading: route-parameter parsing and the four subscriptions in the detail view's `ngOnInit` are not modelled. They call data-service methods that this code does not define. The detail view's fields are set directly.
- Storage write failures: `localStorage.setItem` can throw (a full quota, say). `updateCart` would then have published already, stored nothing, and passed the error to the caller. The model's storage write always succeeds, so `Persisted()` holds after every mutation.
- Delegating components: the cart and navbar components and `ProductsComponent.addToCart` only forward to the cart service or subscribe to it.
- Checkout form: form validity, `alert` and navigation are UI calls. The checkout's only state change is `clearCart`, which is modelled.
- Routing table, logging (`console.log` / `console.error`), and floating-point prices (prices are integers).
- The `|| 0` fallback of getProductQuantity also turns `NaN` into 0. Quantities here are integers, so only 0 could reach it, and 0 gives 0 either way.
