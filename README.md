# DeliverUS order lifecycle — a Dafny model

DeliverUS is a food-delivery application: customers fill a cart on a
restaurant's page, confirm it as an order, later edit it, and follow it through
the stages *pending → in process → sent → delivered*. Restaurant owners list
their orders, move them along and read daily analytics. This project models
the part of the system that handles orders:

* the backend order controller: pricing with the free-shipping rule; the
  transactional `create` and `update`, which roll back on any failure;
  `destroy` with its cascade; the three stage transitions; the status and
  date filters of the restaurant listing; the customer listing; and analytics;
* the backend validation rules for creating and updating an order;
* four customer screens: the restaurant page (cart, totals, "Place order"),
  the confirmation page, the order editor and "My Orders".

Modules:

| module | file | models |
|---|---|---|
| `Wrappers` | `wrappers.dfy` | `Option` / `Result` |
| `Domain` | `domain.dfy` | rows and request bodies shared by backend and screens; the address fallback |
| `Sorting` | `sorting.dfy` | an in-place descending sort by a key, used for "newest first" |
| `OrderValidation` | `order_validation.dfy` | `OrderValidation.js` |
| `OrderController` | `order_controller.dfy` | `OrderController.js`; the class `Database` holds the tables |
| `Cart` | `cart.dfy` | the cart object and what `Object.entries` yields for it |
| `RestaurantDetailScreen` | `restaurant_detail_screen.dfy` | `RestaurantDetailScreen.js` |
| `RestaurantPlaceOrderScreen` | `restaurant_place_order_screen.dfy` | `RestaurantPlaceOrderScreen.js` |
| `EditOrderScreen` | `edit_order_screen.dfy` | `EditOrderScreen.js` |
| `OrdersScreen` | `orders_screen.dfy` | `OrdersScreen.js` |

Conventions:

* **Money** is in integer cents. The source's "more than 10 €" is `> 1000`
  (`Domain.FreeShippingAbove`).
* **Time** is integer milliseconds. "Now", today 00:00 and yesterday 00:00
  are parameters. The `to` date filter's extra day is `DayMillis`.
* **Tables.** `Database` holds `orders` (id → row) and `orderProducts`
  (order id → its `OrderProducts` rows, in insertion order). It also holds
  the product and restaurant catalogues and the next auto-increment id.
  Its invariant includes that no order has two rows for one product, since
  the join table is keyed by order and product.
* **Transactions.** A transaction is a snapshot of `orders` and
  `orderProducts` that is restored on failure. The id sequence is not rolled
  back, as in SQL.
* **Failures.** Each way the source throws becomes a `Failure` value.
  `insertFault` names the line-item insert that the storage rejects, so that
  a rollback after partial writes can be stated.
* **`addProduct`.** `order.addProduct(product, { through })` on a
  many-to-many association inserts the join row. When a row for that product
  already exists, it updates that row instead (`AddLine`).
* **Screens.** Each screen's state is a class whose fields are its `useState`
  values. Network replies are parameters of the methods.

Three behaviours of the code are easy to misread; the model keeps each as written:

* `update` ignores the body's `address`. The code only assigns `restaurantId`,
  `price` and `shippingCosts` before `save` (OrderController.js:206-220).
* A body `restaurantId` of 0 keeps the stored one, because the code uses `||` (OrderController.js:206).
* The `delivered` filter tests `sentAt`, not `deliveredAt` (OrderController.js:39-45).

## Model

| member | source | states |
|---|---|---|
| `OrderController.PriceAndShippingCosts` | DeliverUS-Backend/src/controllers/OrderController.js:129-139 | Shipping is 0 above 10 € and the restaurant's costs otherwise. The price is always the subtotal plus that shipping. |
| `OrderController.PricingRecoversSubtotal` | DeliverUS-Backend/src/controllers/OrderController.js:129-139 | Pricing is injective in the subtotal: the stored price and shipping determine the subtotal. |
| `OrderController.Resolve` | DeliverUS-Backend/src/controllers/OrderController.js:141-148 | There is one `{product, quantity}` entry per requested line, in request order. The product is the catalogue row, or null when the id is unknown. |
| `OrderController.ArrayProductsQuantity` | DeliverUS-Backend/src/controllers/OrderController.js:141-148 | The push loop builds exactly `Resolve` of the request. An entry's product is present iff its id is in the catalogue. |
| `OrderController.Subtotal` | DeliverUS-Backend/src/controllers/OrderController.js:150-156 | The sum of price × quantity over the entries, never negative when no price or quantity is. |
| `OrderController.TotalPrice` | DeliverUS-Backend/src/controllers/OrderController.js:150-156 | Throws (`None`) iff some product was not found. Otherwise it returns the sum of price × quantity. |
| `OrderController.SubtotalOfOneMore` | DeliverUS-Backend/src/controllers/OrderController.js:141-156 | Resolving one more entry whose product exists keeps every product found and adds that product's price × quantity to the subtotal. |
| `OrderController.AddLine` | DeliverUS-Backend/src/controllers/OrderController.js:175-177 | A new product's row is appended; adding a product already listed keeps the length. Every row of the result is the new row or one of the old rows, and the new row is always present. |
| `OrderController.AddLineInPlace` | DeliverUS-Backend/src/controllers/OrderController.js:175-177 | Adding a row keeps every position's product, leaves rows of other products unchanged and keeps rows with distinct products distinct. When the product is already listed once, its row is replaced in place by the new one. |
| `OrderController.LineFor` | DeliverUS-Backend/src/controllers/OrderController.js:175-177 | The join row of an `addProduct` call: the product's id, the requested quantity and the product's current price as `unityPrice`. |
| `OrderController.LinesFor` | DeliverUS-Backend/src/controllers/OrderController.js:175-177 | The rows left by the `addProduct` loop never hold two rows for one product, and never outnumber the entries. |
| `OrderController.LinesForExtend` | DeliverUS-Backend/src/controllers/OrderController.js:175-177 | The rows after one more entry are those before it with that entry's row added by `addProduct`. |
| `OrderController.LinesForDistinctRequest` | DeliverUS-Backend/src/controllers/OrderController.js:165-177 | For a request without repeated products, the stored rows match the request one to one, in request order. Each row has its quantity and the product's current price as `unityPrice`. |
| `OrderController.DistinctStep` | DeliverUS-Backend/src/controllers/OrderController.js:175-177 | When the earlier entries' rows match them one to one, adding the next entry (its product not listed before) appends its row, so the rows still match the entries one to one. |
| `OrderController.DistinctRequestRowsPresent` | DeliverUS-Backend/src/controllers/OrderController.js:165-177 | For a request without repeated products there are as many rows as entries, and every entry's product appears with its quantity and current price. |
| `OrderController.FirstIndex` | DeliverUS-Backend/src/controllers/OrderController.js:165-177 | The position of the first request line for a product: no earlier line names it, and the line there does (or the request's length when none does). |
| `OrderController.LastIndex` | DeliverUS-Backend/src/controllers/OrderController.js:165-177 | The position of the last request line for a product: no later line names it, and the line there does (or -1 when none does). |
| `OrderController.RowIndex` | DeliverUS-Backend/src/controllers/OrderController.js:175-177 | The position of a product's row, or the number of rows exactly when no row is for that product. |
| `OrderController.LinesForRequest` | DeliverUS-Backend/src/controllers/OrderController.js:165-177 | For any request whose products all exist, repeats included, the stored rows are one per distinct product: every requested product has a row, every row carries the quantity of its product's last listing at the current price, and the rows follow the order in which the products were first listed. |
| `OrderController.StepRows` | DeliverUS-Backend/src/controllers/OrderController.js:175-177 | Adding the last listing's row keeps every row a row of the request: the last quantity asked, at the current price. |
| `OrderController.StepCovers` | DeliverUS-Backend/src/controllers/OrderController.js:175-177 | Adding the last listing's row keeps a row for every product listed so far. |
| `OrderController.StepOrder` | DeliverUS-Backend/src/controllers/OrderController.js:175-177 | Adding the last listing's row keeps the rows in first-listed order. |
| `OrderController.RepeatedProductChargedForBoth` | DeliverUS-Backend/src/controllers/OrderController.js:150-177 | A request listing one product twice at quantities q1 and q2 is priced for q1 + q2, but stores a single row with quantity q2. |
| `OrderController.SatisfiesAllAppend` | DeliverUS-Backend/src/controllers/OrderController.js:5-65 | Pushing a clause onto a `where` list conjoins it. |
| `OrderController.SatisfiesAllListed` | DeliverUS-Backend/src/controllers/OrderController.js:322-353 | A literal `where` object with one, two or three conditions is their conjunction. |
| `OrderController.StatusAdmits` | DeliverUS-Backend/src/controllers/OrderController.js:7-47 | A missing status, or one that is none of the four known labels, admits every order. |
| `OrderController.GenerateFilterWhereClauses` | DeliverUS-Backend/src/controllers/OrderController.js:5-65 | At most three clauses are pushed. An order passes them iff (1) it is admitted by the status, (2) it was created at or after `from`, and (3) it was created at or before `to` plus one day. |
| `OrderController.StatusFilterSelectsStage` | DeliverUS-Backend/src/controllers/OrderController.js:7-47 | For orders whose timestamps were set in stage order, `pending`, `in process` and `sent` each select exactly their stage. `delivered` selects the sent and the delivered orders. |
| `OrderController.SentOrdersAreListedAsDelivered` | DeliverUS-Backend/src/controllers/OrderController.js:27-45 | Every order listed as `sent` is also listed as `delivered`. |
| `OrderController.DeliveredUnsentMatchesNoStatus` | DeliverUS-Backend/src/controllers/OrderController.js:7-47 | An order delivered without being sent matches none of the four statuses. |
| `OrderController.TransitionsWalkTheStages` | DeliverUS-Backend/src/controllers/OrderController.js:262-296 | Confirm, send and deliver applied in that order move a pending order through in process, sent and delivered. |
| `OrderController.ReconfirmingOverwritesStart` | DeliverUS-Backend/src/controllers/OrderController.js:262-271 | Confirm has no stage guard. Re-confirming a sent order gives it a start time later than its send time. |
| `OrderController.UpdatedRestaurantId` | DeliverUS-Backend/src/controllers/OrderController.js:206 | A missing or zero body `restaurantId` keeps the stored one. Any other value replaces it. |
| `OrderController.SumPriceRemove` | DeliverUS-Backend/src/controllers/OrderController.js:350-358 | The sum of prices over a set of orders is that order's price plus the sum over the rest. |
| `OrderController.Database.constructor` | DeliverUS-Backend/src/controllers/OrderController.js:1-4 | The tables start empty, over the given product and restaurant catalogues. |
| `OrderController.Database.FindAll` | DeliverUS-Backend/src/controllers/OrderController.js:74-79 | Returns each matching order exactly once, hydrated with its line items, and nothing else. |
| `OrderController.Database.Count` | DeliverUS-Backend/src/controllers/OrderController.js:325-347 | Returns the number of orders that satisfy every clause. |
| `OrderController.Database.Sum` | DeliverUS-Backend/src/controllers/OrderController.js:350-358 | Returns NULL (`None`) iff no order matches. Otherwise it returns the sum of the matching orders' prices. |
| `OrderController.SumPriceAdd` | DeliverUS-Backend/src/controllers/OrderController.js:351-359 | Adding one more matching order to the summed set adds exactly its price. |
| `OrderController.Database.IndexRestaurant` | DeliverUS-Backend/src/controllers/OrderController.js:67-85 | The listing holds exactly the restaurant's orders that pass the status and date filters, each once. |
| `OrderController.Database.IndexCustomer` | DeliverUS-Backend/src/controllers/OrderController.js:90-120 | The listing holds exactly the user's orders, each once, sorted by `createdAt` descending. |
| `OrderController.Database.Analytics` | DeliverUS-Backend/src/controllers/OrderController.js:322-370 | `numYesterdayOrders` counts the restaurant's orders created in [yesterday 00:00, today 00:00). `numPendingOrders` counts those with no `startedAt`. `numDeliveredTodayOrders` counts those delivered at or after today 00:00. `invoicedToday` is the price sum over orders created today, or NULL when there are none. |
| `OrderController.Database.AnalyticsQueries` | DeliverUS-Backend/src/controllers/OrderController.js:322-359 | Each of the four `where` filters selects exactly the orders its figure describes: the restaurant's orders created in [yesterday 00:00, today 00:00), those with no `startedAt`, those delivered since today 00:00 and those created since today 00:00. |
| `OrderController.Database.AddProduct` | DeliverUS-Backend/src/controllers/OrderController.js:175-177 | Only the order's line items change, by `AddLine` of a row with the product's current price. |
| `OrderController.Database.PutOrder` | DeliverUS-Backend/src/controllers/OrderController.js:158-241 | Writes the order under its id with no line items yet, keeps the database invariant, and changes nothing else. |
| `OrderController.Database.AddLines` | DeliverUS-Backend/src/controllers/OrderController.js:175-177 | The insert loop completes iff no insert is rejected. On completion the order's rows are `LinesFor` the resolved products. |
| `OrderController.Database.SaveWithLines` | DeliverUS-Backend/src/controllers/OrderController.js:173-188 | The save-then-insert part of the transaction succeeds iff no insert is rejected. On success the order is stored and has exactly `LinesFor` the resolved products as line items, and the reply carries both. On failure (`StorageFault`) the rollback leaves both tables as they were, and the database invariant holds either way. |
| `OrderController.Database.Create` | DeliverUS-Backend/src/controllers/OrderController.js:158-189 | Succeeds iff (1) products are given and all exist, (2) the restaurant exists, (3) an address is given and (4) every insert succeeds. On success, it stores a new order with the next id: the caller's `userId`, the computed price and shipping, `createdAt` = now and no stage timestamps. That order has exactly the request's line items. On failure, both tables equal their state before the call. |
| `OrderController.Database.Update` | DeliverUS-Backend/src/controllers/OrderController.js:197-241 | Succeeds iff the order exists, products are given and all exist, the resulting restaurant exists and every insert succeeds. On success, `restaurantId` is the body's (when truthy) or the stored one. Price and shipping are recomputed, and every other field, the address included, is kept. The old lines are replaced by exactly the new ones. On failure, both tables are unchanged. |
| `OrderController.Database.Destroy` | DeliverUS-Backend/src/controllers/OrderController.js:243-260 | Reports success iff the order existed. The order and its line items are removed, and nothing else changes. |
| `OrderController.Database.Confirm` | DeliverUS-Backend/src/controllers/OrderController.js:262-271 | Fails iff the order is missing. Otherwise it sets only `startedAt` to now, overwriting any earlier value. |
| `OrderController.Database.Send` | DeliverUS-Backend/src/controllers/OrderController.js:273-282 | Fails iff the order is missing. Otherwise it sets only `sentAt` to now. |
| `OrderController.Database.Deliver` | DeliverUS-Backend/src/controllers/OrderController.js:284-288 | Fails iff the order is missing. Otherwise it sets only `deliveredAt` to now. |
| `OrderValidation.FirstRejection` | DeliverUS-Backend/src/controllers/validation/OrderValidation.js:4-42 | The scan accepts iff every item passes the check. |
| `OrderValidation.FirstRejectionIsFirst` | DeliverUS-Backend/src/controllers/validation/OrderValidation.js:4-42 | A rejection is the one of the first rejected item in list order. |
| `OrderValidation.ProductsNotZero` | DeliverUS-Backend/src/controllers/validation/OrderValidation.js:4-16 | Accepts iff every item has quantity ≥ 1 and productId ≥ 1. |
| `OrderValidation.ProductsNotZeroReportsFirst` | DeliverUS-Backend/src/controllers/validation/OrderValidation.js:4-16 | Reports the first offending item. The quantity is checked before the id. |
| `OrderValidation.ProductsAvailable` | DeliverUS-Backend/src/controllers/validation/OrderValidation.js:18-28 | Accepts iff every referenced product exists and is available. |
| `OrderValidation.ProductsAvailableReportsFirst` | DeliverUS-Backend/src/controllers/validation/OrderValidation.js:18-28 | Reports the first missing or unavailable product in list order. |
| `OrderValidation.ProductsSameRestaurant` | DeliverUS-Backend/src/controllers/validation/OrderValidation.js:30-42 | Accepts iff every product exists and belongs to the body's `restaurantId`. |
| `OrderValidation.ProductsSameRestaurantOriginalOrder` | DeliverUS-Backend/src/controllers/validation/OrderValidation.js:61-72 | Accepts iff the list is non-empty, its first product exists, and every product belongs to the first product's restaurant. |
| `OrderValidation.CreateViolations` | DeliverUS-Backend/src/controllers/validation/OrderValidation.js:49-58 | A create body is accepted iff (1) the address is a string of length 1..255, (2) `restaurantId` ≥ 1, and (3) products are present and non-empty. In addition, every product must be non-zero, available and of that restaurant. |
| `OrderValidation.UpdateViolations` | DeliverUS-Backend/src/controllers/validation/OrderValidation.js:80-88 | An update body is accepted iff the address is valid and `restaurantId` is absent. Every product must be non-zero and available, and all products must share the first one's restaurant. The stored order's status is not an input. |
| `Domain.FinalAddress` | DeliverUS-Frontend-Customer/src/screens/restaurants/RestaurantPlaceOrderScreen.js:56 | The typed address is used when it is a non-empty string, otherwise the profile's. |
| `Domain.FinalAddressUsable` | DeliverUS-Frontend-Customer/src/screens/orders/EditOrderScreen.js:57-68 | The address guard passes iff the typed or the profile address is a non-empty string. |
| `Sorting.SortDescending` | DeliverUS-Frontend-Customer/src/screens/orders/OrdersScreen.js:26 | Sorts the array in place: the result is ordered by the key, descending, and is a permutation of the input. |
| `Cart.Entries` | DeliverUS-Frontend-Customer/src/screens/restaurants/RestaurantDetailScreen.js:39 | There is one `[id, quantity]` pair per cart key and no other pair, with ids strictly ascending. |
| `Cart.SelectedProducts` | DeliverUS-Frontend-Customer/src/screens/restaurants/RestaurantDetailScreen.js:75-80 | Holds exactly one `{productId, quantity}` per entry with a positive quantity, with ids strictly ascending and hence distinct. |
| `Cart.CartPayload` | DeliverUS-Frontend-Customer/src/screens/restaurants/RestaurantPlaceOrderScreen.js:70-76 | Holds one line per cart entry, unfiltered, with ids strictly ascending. |
| `Cart.PositiveCartPayloads` | DeliverUS-Frontend-Customer/src/screens/restaurants/RestaurantPlaceOrderScreen.js:70-76 | For a cart of positive quantities, both screens send the same list. |
| `RestaurantDetailScreen.FindById` | DeliverUS-Frontend-Customer/src/screens/restaurants/RestaurantDetailScreen.js:40 | `find` returns a page product with that id, and returns none iff no product has it. |
| `RestaurantDetailScreen.EntriesTotal` | DeliverUS-Frontend-Customer/src/screens/restaurants/RestaurantDetailScreen.js:37-42 | The reduce of price × quantity over the entries, never negative when no price or quantity is. |
| `RestaurantDetailScreen.EntriesTotalFromFirst` | DeliverUS-Frontend-Customer/src/screens/restaurants/RestaurantDetailScreen.js:37-42 | Reducing from the first entry gives the same total as reducing towards the last. |
| `RestaurantDetailScreen.CartSumRemove` | DeliverUS-Frontend-Customer/src/screens/restaurants/RestaurantDetailScreen.js:37-42 | The cart's sum is any one entry's price × quantity plus the sum of the rest, whichever entry is taken. |
| `RestaurantDetailScreen.EntriesTotalIsCartSum` | DeliverUS-Frontend-Customer/src/screens/restaurants/RestaurantDetailScreen.js:37-42 | Reducing the listed entries gives the sum over the cart's entries taken in any order. |
| `RestaurantDetailScreen.GetOrderTotal` | DeliverUS-Frontend-Customer/src/screens/restaurants/RestaurantDetailScreen.js:37-42 | The page total is the sum over the cart's entries of price × quantity, independent of the listing order. |
| `RestaurantDetailScreen.TotalAfterQuantityChange` | DeliverUS-Frontend-Customer/src/screens/restaurants/RestaurantDetailScreen.js:37-61 | Setting one product's quantity makes the total the total without that product plus its price × the new quantity. |
| `RestaurantDetailScreen.GetOrderWithShipping` | DeliverUS-Frontend-Customer/src/screens/restaurants/RestaurantDetailScreen.js:44-48 | The page's total with shipping equals the price the backend's pricing gives for the same subtotal. |
| `RestaurantDetailScreen.PlacedCartPricedAlike` | DeliverUS-Frontend-Customer/src/screens/restaurants/RestaurantDetailScreen.js:37-42 | Take a cart of positive quantities whose page prices are the catalogue's. The products it sends all resolve in the backend, and the backend subtotal equals `getOrderTotal`. |
| `RestaurantDetailScreen.RestaurantDetailScreen.constructor` | DeliverUS-Frontend-Customer/src/screens/restaurants/RestaurantDetailScreen.js:14-17 | The cart starts empty. |
| `RestaurantDetailScreen.RestaurantDetailScreen.UpdatePriceQuantity` | DeliverUS-Frontend-Customer/src/screens/restaurants/RestaurantDetailScreen.js:50-61 | A missing or non-positive quantity deletes the item's entry. A positive one sets it. Every other entry is unchanged, and all stored quantities stay positive. |
| `RestaurantDetailScreen.RestaurantDetailScreen.HandlePlaceOrder` | DeliverUS-Frontend-Customer/src/screens/restaurants/RestaurantDetailScreen.js:63-108 | Without a user, nothing is sent and the cart is kept. When editing, it sends the selected products with the profile address and empties the cart only on success. Otherwise it opens the confirmation with total and shipping equal to the backend's pricing of the cart total, and empties the cart. |
| `RestaurantDetailScreen.RestaurantDetailScreen.Discard` | DeliverUS-Frontend-Customer/src/screens/restaurants/RestaurantDetailScreen.js:156-157 | Empties the cart. |
| `Domain.BreakdownAsWritten` | DeliverUS-Frontend-Customer/src/screens/restaurants/RestaurantPlaceOrderScreen.js:213 | Free delivery is shown iff the total, shipping included, is above 10 €. Otherwise the shown parts add up to the total. |
| `RestaurantPlaceOrderScreen.BreakdownAsWrittenHidesShipping` | DeliverUS-Frontend-Customer/src/screens/restaurants/RestaurantPlaceOrderScreen.js:213 | A 9 € cart with 2 € shipping is shown as free delivery although 2 € shipping is charged. |
| `Domain.Breakdown` | DeliverUS-Frontend-Customer/src/screens/restaurants/RestaurantPlaceOrderScreen.js:213 | Free delivery is shown iff the products part is above 10 €. Otherwise the parts add up to the total. |
| `RestaurantPlaceOrderScreen.BreakdownMatchesCharge` | DeliverUS-Frontend-Customer/src/screens/restaurants/RestaurantPlaceOrderScreen.js:213 | For the backend's pricing, free delivery is shown iff no shipping is charged. Otherwise the products part is the subtotal. |
| `RestaurantPlaceOrderScreen.ConfirmedCartLines` | DeliverUS-Frontend-Customer/src/screens/restaurants/RestaurantPlaceOrderScreen.js:70-80 | A confirmed cart is stored as one line per entry, at the current price. |
| `RestaurantPlaceOrderScreen.RestaurantPlaceOrderScreen.constructor` | DeliverUS-Frontend-Customer/src/screens/restaurants/RestaurantPlaceOrderScreen.js:15-21 | No errors are shown and no address is typed. |
| `RestaurantPlaceOrderScreen.RestaurantPlaceOrderScreen.TotalLine` | DeliverUS-Frontend-Customer/src/screens/restaurants/RestaurantPlaceOrderScreen.js:213 | The total line of the confirmation page as written: the total is `totalCost`; free delivery is announced iff `totalCost`, shipping included, is above 10 €; otherwise `totalCost - shippingCosts` and `shippingCosts` are shown. |
| `RestaurantPlaceOrderScreen.RestaurantPlaceOrderScreen.ConfirmOrder` | DeliverUS-Frontend-Customer/src/screens/restaurants/RestaurantPlaceOrderScreen.js:41-113 | Without a user, or without a usable final address, nothing is sent. Otherwise the create body carries the final address, the page's restaurant and one line per cart entry. Errors shown are the backend's on rejection, else none. |
| `EditOrderScreen.WithoutProduct` | DeliverUS-Frontend-Customer/src/screens/orders/EditOrderScreen.js:128-130 | Keeps exactly the rows of other products. |
| `EditOrderScreen.WithoutProductSplits` | DeliverUS-Frontend-Customer/src/screens/orders/EditOrderScreen.js:128-130 | The filter distributes over concatenation, so the kept rows stay in order. |
| `EditOrderScreen.SetQuantity` | DeliverUS-Frontend-Customer/src/screens/orders/EditOrderScreen.js:287-298 | Only the rows of the changed product get the new quantity. Every other row is unchanged. |
| `EditOrderScreen.UpdatePayload` | DeliverUS-Frontend-Customer/src/screens/orders/EditOrderScreen.js:72-77 | There is one `{productId, quantity}` per row, in order, taken from `OrderProducts`. |
| `EditOrderScreen.LinesSubtotal` | DeliverUS-Frontend-Customer/src/screens/orders/EditOrderScreen.js:300-302 | The sum of quantity × unit price over the rows, never negative when no quantity or price is. |
| `EditOrderScreen.PayloadLastRow` | DeliverUS-Frontend-Customer/src/screens/orders/EditOrderScreen.js:300-302 | The backend subtotal of the payload grows by the last row's quantity × unit price. |
| `EditOrderScreen.PayloadPricedAlike` | DeliverUS-Frontend-Customer/src/screens/orders/EditOrderScreen.js:300-302 | While unit prices are current, the backend's subtotal of the payload equals the screen's subtotal. |
| `EditOrderScreen.Repriced` | DeliverUS-Frontend-Customer/src/screens/orders/EditOrderScreen.js:304-309 | Above 10 € shipping is 0. Otherwise the order's current shipping is kept, and the price is the subtotal plus it. |
| `EditOrderScreen.RepricedLikeBackend` | DeliverUS-Frontend-Customer/src/screens/orders/EditOrderScreen.js:304-309 | With the restaurant's shipping as the current one, the repricing equals the backend's. |
| `EditOrderScreen.ShippingNotRestored` | DeliverUS-Frontend-Customer/src/screens/orders/EditOrderScreen.js:307-308 | After a change above 10 €, a change back below shows no shipping, unlike the backend. |
| `EditOrderScreen.EditedTotalHidesShipping` | DeliverUS-Frontend-Customer/src/screens/orders/EditOrderScreen.js:233 | A 9 € order repriced with 2 € shipping is shown as free delivery although 2 € shipping is charged. |
| `EditOrderScreen.EditedTotalMatchesCharge` | DeliverUS-Frontend-Customer/src/screens/orders/EditOrderScreen.js:233 | With the threshold on the products part, a repriced order is shown as free delivery iff no shipping is charged; otherwise the parts shown are the subtotal and the shipping. |
| `EditOrderScreen.EditOrderScreen.constructor` | DeliverUS-Frontend-Customer/src/screens/orders/EditOrderScreen.js:15-22 | No errors are shown, no address is typed and no removal is pending. |
| `EditOrderScreen.EditOrderScreen.TotalLine` | DeliverUS-Frontend-Customer/src/screens/orders/EditOrderScreen.js:233 | The editor's total line as written: the total is `order.price`; free delivery is announced iff the price, shipping included, is above 10 €; otherwise the price less shipping and the shipping are shown. |
| `EditOrderScreen.EditOrderScreen.HandleRemoveProduct` | DeliverUS-Frontend-Customer/src/screens/orders/EditOrderScreen.js:114-125 | The last product cannot be removed: the pending removal is unchanged. Otherwise the product becomes the pending removal. |
| `EditOrderScreen.EditOrderScreen.ConfirmRemoveProduct` | DeliverUS-Frontend-Customer/src/screens/orders/EditOrderScreen.js:127-133 | Drops the rows of the pending product and nothing else, without repricing, and clears the pending removal. |
| `EditOrderScreen.EditOrderScreen.HandleQuantityChange` | DeliverUS-Frontend-Customer/src/screens/orders/EditOrderScreen.js:286-309 | Sets the quantity to the parsed number, or 0 when the text is not a number. Price and shipping are `Repriced` from the new subtotal and the current shipping. |
| `EditOrderScreen.EditOrderScreen.ConfirmOrder` | DeliverUS-Frontend-Customer/src/screens/orders/EditOrderScreen.js:42-112 | Without a user, or without a usable final address, nothing is sent. Otherwise the update body carries the final address, no `restaurantId` and the row payload. Errors shown are the backend's on rejection, else none. |
| `OrdersScreen.OwnOrders` | DeliverUS-Frontend-Customer/src/screens/orders/OrdersScreen.js:27 | Keeps exactly the fetched orders of the user. |
| `OrdersScreen.OwnOrdersKeepOrder` | DeliverUS-Frontend-Customer/src/screens/orders/OrdersScreen.js:26-27 | Filtering a newest-first list leaves it newest first. |
| `OrdersScreen.OrderNumber` | DeliverUS-Frontend-Customer/src/screens/orders/OrdersScreen.js:41 | A card's number lies between 1 and the list's length. |
| `OrdersScreen.NumbersShown` | DeliverUS-Frontend-Customer/src/screens/orders/OrdersScreen.js:41 | One number per card, the card at position i showing `orders.length - i`. |
| `OrdersScreen.OrderNumbersDistinct` | DeliverUS-Frontend-Customer/src/screens/orders/OrdersScreen.js:41 | Numbers fall strictly down the list and cover 1 to the length, so each appears once. |
| `OrdersScreen.OrdersScreen.constructor` | DeliverUS-Frontend-Customer/src/screens/orders/OrdersScreen.js:14-16 | The list starts empty. |
| `OrdersScreen.OrdersScreen.FetchOrders` | DeliverUS-Frontend-Customer/src/screens/orders/OrdersScreen.js:18-38 | With no user, the list is emptied. A failed fetch changes nothing. Otherwise the fetched array is sorted newest first in place, as a permutation, and the list is exactly the user's orders, still newest first. |

## Left out

- Sequelize and Express are not modelled: queries become map operations, responses become `Result` values, and HTTP status codes and JSON are left out.
- Transactions are modelled only as sequential all-or-nothing. Isolation and concurrency are left out.
- Dates are integers. Moment parsing of `YYYY-MM-DD`, the time zone and `new Date()` are left out; the caller passes "now" and the midnights.
- Money is exact cents. JavaScript's floating point and `toFixed` are left out.
- `restaurant.getAverageServiceTime` and the `Restaurant.update` that `deliver` performs afterwards are left out. Their code is not part of this model.
- `show` and the `include` of restaurant details in listings are left out. They are read-only display.
- Only the predicates of the validation chains are modelled. The express-validator mechanics (`trim`, `toInt`, message texts) are left out.
- `parseInt` is not modelled; a parsed quantity is an optional integer.
- Rendering, navigation, flash messages and the read-only screens are left out.
- OrderDetailScreen.js, RestaurantsScreen.js, RestaurantsStack.js and OrderEndpoints.js are not part of this model.
- models/Order.js is not part of this model. `create` is assumed to reject a missing address because the column is required.
- `Order.build(req.body)` also copies body fields other than address and restaurant (for example a `price` that is then overwritten). `OrderBody` holds only the fields the rules and the controller use.
- The confirmation page sends product ids as strings (object keys). The model passes their integer values.
- OrdersScreen.OrdersScreen.FetchOrders: does not state that the sort is stable. JavaScript's `sort` is stable; the model only states sortedness and permutation.
- OrderController.Database.IndexCustomer: does not state that orders with equal `createdAt` keep any particular order. SQL leaves it unspecified too.
- The header count of "My Orders" is not modelled as a member. It is `orders.length` of the shown list.
- OrderController.Database.Deliver: the write of `deliveredAt` is kept, but the later failure of the average-service-time update is not. That failure answers 500 after the save.

## Findings

| source | as written | input that shows it | evidently intended | confidence | as-written member | corrected member |
|---|---|---|---|---|---|---|
| DeliverUS-Frontend-Customer/src/screens/restaurants/RestaurantPlaceOrderScreen.js:213 | "(Free delivery)" is shown when `totalCost > 10`, but `totalCost` already includes shipping | A 9.00 € cart from a restaurant with 2.00 € shipping has total 11.00 €, which is shown as free delivery although 2.00 € is shipping | Test the products part (`totalCost - shippingCosts`) against 10 €, the threshold the pricing uses | not executed | `RestaurantPlaceOrderScreen.BreakdownAsWrittenHidesShipping` | `RestaurantPlaceOrderScreen.BreakdownMatchesCharge` |
| DeliverUS-Frontend-Customer/src/screens/orders/EditOrderScreen.js:233 | The same test on `order.price > 10`, which includes shipping | An order edited down to 9.00 € from a restaurant with 2.00 € shipping is repriced to 11.00 €, which is shown as free delivery although 2.00 € is shipping | Test `order.price - order.shippingCosts` against 10 € | not executed | `EditOrderScreen.EditedTotalHidesShipping` | `EditOrderScreen.EditedTotalMatchesCharge` |

The page members `TotalLine` keep the rule as written (`Domain.BreakdownAsWritten`); `Domain.Breakdown` is the corrected rule that the two corrected members above are proved about.
