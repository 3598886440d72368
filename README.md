# E-commerce backend core, modelled in Dafny

This project models the domain layer and the application services of a small e-commerce
backend written in Go:

- **Value objects.** `Money` is an integer amount of cents tagged with a currency code. `Quantity` is a non-negative count of units.
- **Entities.**
  - `Product` is a catalog entry with a price and a stock.
  - `Basket` is a shopping cart: a list of items with at most one item per product.
  - `Order` is a snapshot of basket items with a total fixed at creation and a five-state lifecycle: PENDING, CONFIRMED, SHIPPED, DELIVERED, with CANCELLED reachable from every non-terminal state.
- **Services.**
  - The product service validates catalog requests.
  - The basket service makes edits guarded by stock.
  - The order service runs checkout and the order transitions. Checkout works in four steps: a pre-check of every item's stock, a pass that reduces stock, order creation, and emptying the basket.

Layout:

- One Dafny module per Go source file: `MoneyValue`, `QuantityValue`, `ProductEntity`, `BasketEntity`, `OrderEntity`, `ProductCatalog`, `Shopping` and `Checkout`.
- `Outcomes` holds the error enumeration and the `Result`, `Option` and `Outcome` wrappers.
- `Repositories` holds the in-memory stores. They follow the map-backed mock repository of the Go test suite.

Entities whose Go methods update fields in place are Dafny classes with those fields. Each mutating method states the complete new field values (`Data()`) as a function of the old ones. Each is proved against a function on values (for example `AddItemTo` for `Basket.AddItem`), and the lemmas state the properties of those functions.

Each repository class keeps a map from id to the entity's field values:

- `FindByID` returns a new entity object built from the stored row.
- `Update` writes the entity back, but only under an id that is already stored.
- `Save` stores the entity under its id, overwriting any existing row.
- `Delete` removes the row.

The services are classes holding their repositories.

Every service method states, for each error it can report, which inputs produce it and what the stores then hold. It also states the exact new contents of the stores on success. Almost every error leaves the stores unchanged. There are two exceptions, both modelled:

- `Shopping.BasketService.AddItem`, `RemoveItem` and `UpdateItemQuantity` store the edited basket before rendering the response. A CurrencyMismatch of the response (basket_service.go:85-89) therefore comes after the basket has changed.
- `Checkout.OrderService.CreateOrder` reduces stock before it builds the order. A CurrencyMismatch of the order total therefore leaves the reduced stock in place.

Checkout needs one invariant: stored baskets have distinct product ids and valid items. The basket operations keep this invariant, and the database schema's unique key on (basket, product) backs it. Under it, `Checkout.OrderService.ReduceStock` proves that the reduction pass never fails once the pre-check has passed. It then establishes the exact new product store.

Fresh identifiers (`uuid.New`) and the clock (`time.Now`) are parameters: an `id` and a `now: int` are passed to every operation that creates or updates something. A Go `nil` argument is `None` wherever the Go code tests for nil, except for the price and quantity of `Basket.AddItem` (see "## Left out").

The basket's item list is ordered:

- `AddItem` appends a new product's line at the end (basket.go:131), and `RemoveItem` removes a line with an order-preserving splice (basket.go:140). `Total` takes the first line's currency for the total (basket.go:185). The model keeps the items as a sequence in that order.
- At most one line per product is established only by `AddItem`, which merges a repeated product into its existing line. `ReconstructBasket` and the other basket methods accept any item list. So the entity methods carry no precondition and only promise that a well-formed basket stays well-formed. The service-level invariants assume that stored baskets are well-formed.

## Model

| member | source | states |
|---|---|---|
| MoneyValue.NewMoney | backend/domain/value/money.go:15-26 | fails exactly when the amount is negative (NegativeAmount, checked first) or the currency is empty (EmptyCurrency); on success the amount and currency are the given ones |
| MoneyValue.NewMoneyRecoversEveryValue | backend/domain/value/money.go:15-26 | every Money value is exactly what NewMoney builds from its own amount and currency |
| MoneyValue.Add | backend/domain/value/money.go:39-44 | succeeds exactly when the currencies agree, with the sum of the amounts in that currency; otherwise CurrencyMismatch |
| MoneyValue.AddCommutative | backend/domain/value/money.go:39-44 | same-currency addition does not depend on operand order |
| MoneyValue.AddAssociative | backend/domain/value/money.go:39-44 | same-currency addition never fails and does not depend on grouping |
| MoneyValue.Multiply | backend/domain/value/money.go:47-52 | succeeds exactly when the multiplier is non-negative, giving amount times multiplier in the same currency; otherwise NegativeMultiplier |
| MoneyValue.MultiplyByZero | backend/domain/value/money.go:47-52 | multiplying by zero gives zero in the same currency |
| MoneyValue.MultiplyIsRepeatedAddition | backend/domain/value/money.go:39-52 | multiplying by n equals adding the amount to zero n times with Add |
| MoneyValue.Equals | backend/domain/value/money.go:62-64 | true exactly when amount and currency both match |
| MoneyValue.Decimal | backend/domain/value/money.go:55-59 | the %d rendering of the dollars is a non-empty string of digits with no leading zero: it starts with '0' exactly for zero, which is the single digit "0" |
| MoneyValue.TwoDigits | backend/domain/value/money.go:55-59 | the %02d rendering of the cents is exactly two digits |
| MoneyValue.ToString | backend/domain/value/money.go:55-59 | the rendering is the currency, a space, the decimal whole units without leading zeros, a point and two digits of cents, with 100 * units + cents equal to the amount |
| MoneyValue.DecimalRoundTrip | backend/domain/value/money.go:55-59 | the digits of the dollar rendering read back as the number rendered |
| MoneyValue.ToStringRoundTrip | backend/domain/value/money.go:55-59 | the rendering "<currency> <dollars>.<two-digit cents>" loses nothing: reading it back (currency before the last space, amount = 100 * dollars + cents) gives the original Money |
| QuantityValue.NewQuantity | backend/domain/value/quantity.go:11-16 | fails exactly on a negative value (NegativeQuantity); otherwise holds the value |
| QuantityValue.Add | backend/domain/value/quantity.go:24-26 | never fails and gives the sum |
| QuantityValue.Subtract | backend/domain/value/quantity.go:29-35 | fails exactly when more is taken than there is (NegativeResult); otherwise gives the non-negative difference |
| QuantityValue.AddSubtractInverse | backend/domain/value/quantity.go:24-35 | Subtract undoes Add, and Add undoes a successful Subtract |
| QuantityValue.IsZero | backend/domain/value/quantity.go:38-40 | true exactly for the zero quantity |
| QuantityValue.Equals | backend/domain/value/quantity.go:43-45 | true exactly for equal quantities |
| ProductEntity.NewProduct | backend/domain/entity/product.go:23-44 | fails on an empty name, then a missing price, then a missing stock, with the matching error; otherwise the fields are the inputs and createdAt equals updatedAt |
| ProductEntity.Product.Reconstruct | backend/domain/entity/product.go:47-57 | the rebuilt product holds exactly the stored fields |
| ProductEntity.Product.UpdateDetails | backend/domain/entity/product.go:95-108 | an empty name or a missing price fails with the matching error and changes nothing; otherwise exactly name, description, price and updatedAt change |
| ProductEntity.Product.UpdateStock | backend/domain/entity/product.go:111-118 | a missing stock fails and changes nothing; otherwise exactly stock and updatedAt change |
| ProductEntity.Product.ReduceStock | backend/domain/entity/product.go:121-129 | succeeds exactly when the quantity does not exceed the stock, leaving stock minus quantity; otherwise InsufficientStock and nothing changes |
| ProductEntity.Product.IsAvailable | backend/domain/entity/product.go:132-134 | true exactly when some stock is left |
| BasketEntity.NewBasketItem | backend/domain/entity/basket.go:19-35 | rejects an empty product id, then a missing or zero quantity, then a missing price, with the matching error; otherwise builds a valid item from the inputs |
| BasketEntity.Subtotal | backend/domain/entity/basket.go:53-55 | never fails: price times quantity in the price's currency |
| BasketEntity.AddExistingItem | backend/domain/entity/basket.go:107-123 | a repeat add keeps the item count and position, sets the quantity to old plus added, replaces the price with the incoming one, and leaves every other item unchanged |
| BasketEntity.AddNewItem | backend/domain/entity/basket.go:125-133 | a first add fails on an empty id or a zero quantity, otherwise appends exactly one item at the end |
| BasketEntity.OperationsKeepWellFormed | backend/domain/entity/basket.go:107-166 | add, remove and update-quantity keep product ids distinct and items valid |
| BasketEntity.RemoveItemDeletesOne | backend/domain/entity/basket.go:137-146 | removal fails with ItemNotFound exactly when the product is absent; otherwise one item fewer, ids minus that product, the others in their order |
| BasketEntity.AddThenRemoveRoundTrip | backend/domain/entity/basket.go:107-146 | removing a product that was just added for the first time gives back the original items |
| BasketEntity.UpdateQuantityKeepsPrice | backend/domain/entity/basket.go:149-166 | quantity zero behaves as removal; otherwise only that item's quantity is replaced, its stored price kept, and an absent product fails with ItemNotFound |
| BasketEntity.AddItemRaisesCount | backend/domain/entity/basket.go:107-133 | a successful add raises the unit count by exactly the added quantity |
| BasketEntity.AddTwiceMerges | backend/domain/entity/basket.go:107-133 | adding the same new product twice leaves one line with the summed quantity and the second price |
| BasketEntity.NewBasket | backend/domain/entity/basket.go:66-74 | a new basket has the given id, no items, and createdAt equal to updatedAt |
| BasketEntity.Basket.Reconstruct | backend/domain/entity/basket.go:77-84 | the rebuilt basket holds exactly the stored fields |
| BasketEntity.Basket.AddItem | backend/domain/entity/basket.go:107-134 | the outcome and the new items are those of AddItemTo, updatedAt is set on success, nothing changes on failure, and a well-formed basket stays well-formed |
| BasketEntity.Basket.RemoveItem | backend/domain/entity/basket.go:137-146 | the outcome and the new items are those of RemoveItemFrom, nothing changes on failure, well-formedness is kept |
| BasketEntity.Basket.UpdateItemQuantity | backend/domain/entity/basket.go:149-166 | the outcome and the new items are those of UpdateQuantityIn, nothing changes on failure, well-formedness is kept |
| BasketEntity.Basket.Clear | backend/domain/entity/basket.go:169-172 | afterwards the basket is empty and well-formed, and only items and updatedAt changed |
| BasketEntity.Basket.IsEmpty | backend/domain/entity/basket.go:175-177 | true exactly when there are no items |
| BasketEntity.Basket.Total | backend/domain/entity/basket.go:180-202 | zero USD for an empty basket; otherwise the sum of price times quantity in the first item's currency, or CurrencyMismatch if any item has another currency |
| BasketEntity.Basket.ItemCount | backend/domain/entity/basket.go:205-211 | the sum of the item quantities |
| OrderEntity.ApplyMatchesLifecycle | backend/domain/entity/order.go:165-205 | a transition leads from one status to another exactly when the lifecycle graph has that edge |
| OrderEntity.TransitionGuards | backend/domain/entity/order.go:165-205 | Confirm succeeds only from PENDING, Ship only from CONFIRMED, Deliver only from SHIPPED, Cancel from every non-terminal status, with AlreadyDelivered and AlreadyCancelled otherwise |
| OrderEntity.TerminalIsFinal | backend/domain/entity/order.go:165-205 | DELIVERED and CANCELLED are exactly the statuses from which no transition succeeds |
| OrderEntity.RunIsMonotone | backend/domain/entity/order.go:165-205 | along any sequence of transition attempts the status never moves back, and a terminal status never changes |
| OrderEntity.HappyPath | backend/domain/entity/order.go:165-205 | PENDING reaches DELIVERED through Confirm, Ship and Deliver, and a delivered order cannot be cancelled |
| OrderEntity.NewOrderItem | backend/domain/entity/order.go:30-46 | rejects an empty product id, a missing or zero quantity and a missing price, with the matching error; otherwise builds the item from the inputs |
| OrderEntity.Subtotal | backend/domain/entity/order.go:64-66 | never fails: price times quantity in the price's currency |
| OrderEntity.ToOrderItems | backend/domain/entity/order.go:84-92 | the conversion succeeds exactly when every basket item is valid, and then gives one order item per basket item, in order, with the same product, quantity and price |
| OrderEntity.ConversionErrorSticks | backend/domain/entity/order.go:84-92 | the first basket item that fails to convert decides the error of the whole conversion |
| OrderEntity.OrderFromWellFormedBasket | backend/domain/entity/order.go:79-120 | from a non-empty well-formed basket an order is built exactly when all items share the first item's currency (else CurrencyMismatch); it is PENDING, holds a copy of each item, and its total is the sum of price times quantity |
| OrderEntity.NewOrder | backend/domain/entity/order.go:79-120 | fails on an empty list, on the first invalid item, or on mixed currencies; otherwise builds the converted items, the basket total and status PENDING, with the given id and time |
| OrderEntity.ConvertItems | backend/domain/entity/order.go:84-92 | the conversion loop gives exactly ToOrderItems of the basket items |
| OrderEntity.SumItems | backend/domain/entity/order.go:95-109 | the totalling loop over the converted items gives exactly the basket's total, including its CurrencyMismatch |
| OrderEntity.Order.Reconstruct | backend/domain/entity/order.go:123-132 | the rebuilt order holds exactly the stored fields |
| OrderEntity.Order.Confirm | backend/domain/entity/order.go:165-172 | from PENDING the status becomes CONFIRMED and updatedAt is set; otherwise NotPending and nothing changes; items and total never change |
| OrderEntity.Order.Ship | backend/domain/entity/order.go:175-182 | from CONFIRMED the status becomes SHIPPED; otherwise NotConfirmed and nothing changes |
| OrderEntity.Order.Deliver | backend/domain/entity/order.go:185-192 | from SHIPPED the status becomes DELIVERED; otherwise NotShipped and nothing changes |
| OrderEntity.Order.Cancel | backend/domain/entity/order.go:195-205 | fails with AlreadyDelivered or AlreadyCancelled from those statuses, changing nothing; otherwise the status becomes CANCELLED |
| OrderEntity.Order.IsCancellable | backend/domain/entity/order.go:208-210 | true exactly when Cancel would succeed |
| Repositories.ProductRepository.Save | backend/application/service/product_service_test.go:27-33 | the product's fields are stored under its id, overwriting any earlier row |
| Repositories.ProductRepository.FindByID | backend/application/service/product_service_test.go:35-44 | succeeds exactly for a stored id, with a new product holding the stored fields; otherwise ProductNotFound |
| Repositories.ProductRepository.Update | backend/application/service/product_service_test.go:54-63 | writes the product back exactly when its id is stored; otherwise ProductNotFound and nothing changes |
| Repositories.ProductRepository.Delete | backend/application/service/product_service_test.go:65-74 | removes a stored id; an unknown id is ProductNotFound; the id is absent afterwards |
| Repositories.ProductRepository.ExistsByID | backend/application/service/product_service_test.go:76-79 | true exactly when a row is stored under the id, which in a valid store means some stored product has that id |
| Repositories.BasketRepository.Save | backend/domain/repository/basket_repository.go:10-11 | the basket's fields are stored under its id, overwriting any earlier row |
| Repositories.BasketRepository.FindByID | backend/domain/repository/basket_repository.go:13-14 | succeeds exactly for a stored id, with a new basket holding the stored fields; otherwise BasketNotFound |
| Repositories.BasketRepository.Update | backend/domain/repository/basket_repository.go:16-17 | writes the basket back exactly when its id is stored; otherwise BasketNotFound and nothing changes |
| Repositories.BasketRepository.Delete | backend/domain/repository/basket_repository.go:19-20 | removes a stored id; an unknown id is BasketNotFound; the id is absent afterwards |
| Repositories.BasketRepository.ExistsByID | backend/domain/repository/basket_repository.go:22-23 | true exactly when a row is stored under the id, which in a valid store means some stored basket has that id |
| Repositories.OrderRepository.Save | backend/domain/repository/order_repository.go:10-11 | the order's fields are stored under its id, overwriting any earlier row |
| Repositories.OrderRepository.FindByID | backend/domain/repository/order_repository.go:13-14 | succeeds exactly for a stored id, with a new order holding the stored fields; otherwise OrderNotFound |
| Repositories.OrderRepository.Update | backend/domain/repository/order_repository.go:19-20 | writes the order back exactly when its id is stored; otherwise OrderNotFound and nothing changes |
| Repositories.OrderRepository.ExistsByID | backend/domain/repository/order_repository.go:22-23 | true exactly when a row is stored under the id, which in a valid store means some stored order has that id |
| ProductCatalog.ProductService.CreateProduct | backend/application/service/product_service.go:25-60 | rejects an empty name, then a negative price, then a negative stock, then an empty currency, storing nothing; otherwise stores and returns one new product mirroring the request |
| ProductCatalog.ProductService.GetProduct | backend/application/service/product_service.go:63-70 | the stored product, or ProductNotFound |
| ProductCatalog.ProductService.UpdateProduct | backend/application/service/product_service.go:88-120 | checks name and price before the lookup, then the id (ProductNotFound), then the currency; on success only name, description, price and updatedAt of that product change |
| ProductCatalog.ProductService.UpdateStock | backend/application/service/product_service.go:123-147 | rejects a negative stock, then an unknown id; on success the stored stock is the requested value and nothing else but updatedAt changes |
| ProductCatalog.ProductService.DeleteProduct | backend/application/service/product_service.go:150-160 | fails with ProductNotFound exactly for an unknown id; afterwards the id is not stored and every other product is kept |
| Shopping.ItemResponses | backend/application/service/basket_service.go:172-187 | one response line per item, in order, with the item's subtotal |
| Shopping.LineSubtotalsAddUp | backend/application/service/basket_service.go:172-192 | the response lines' subtotals add up to the basket's sum of price times quantity |
| Shopping.ResponseAgreesWithTotal | backend/application/service/basket_service.go:170-207 | a response exists exactly when the basket is single-currency (else CurrencyMismatch); its total and its currency ("USD" when empty, else the first item's) are the basket total's, the total is the sum of its lines, and the item count is the number of units |
| Shopping.StockGuardIgnoresBasketQuantity | backend/application/service/basket_service.go:75-80 | for every well-formed basket already holding a product and every positive quantity the stock guard admits, the add succeeds and the line holds the held units plus the requested ones; it is above the stock exactly when that sum exceeds the stock |
| Shopping.BasketService.ToBasketResponse | backend/application/service/basket_service.go:170-207 | the response loop and Total/ItemCount calls give exactly ResponseOf of the basket |
| Shopping.BasketService.CreateBasket | backend/application/service/basket_service.go:26-34 | stores a new empty basket under the given id and returns its empty USD response |
| Shopping.BasketService.GetBasket | backend/application/service/basket_service.go:37-44 | the stored basket's response, or BasketNotFound |
| Shopping.BasketService.AddItem | backend/application/service/basket_service.go:47-89 | rejects an empty product id and a non-positive quantity before any lookup, then an unknown basket, an unknown product, and a stock below the requested quantity, changing nothing; otherwise the item is added at the product's current price, the basket stored, and the response rendered afterwards |
| Shopping.BasketService.RemoveItem | backend/application/service/basket_service.go:92-107 | an unknown basket or an absent item changes nothing; otherwise the item is removed and the basket stored |
| Shopping.BasketService.UpdateItemQuantity | backend/application/service/basket_service.go:110-151 | rejects a negative quantity first, then an unknown basket; zero removes the item without a product lookup; a positive quantity needs a stored product with enough stock; failures change nothing |
| Shopping.BasketService.ClearBasket | backend/application/service/basket_service.go:154-167 | an unknown basket is BasketNotFound; otherwise the stored basket is empty, with an empty USD response |
| Checkout.FirstShortfall | backend/application/service/order_service.go:44-53 | the position of the first item whose product is missing or short of stock, every earlier item being in stock; -1 exactly when every item is |
| Checkout.ReducedUntouched | backend/application/service/order_service.go:56-69 | the steps before item n add or remove no product and leave item n's product as it was, so its stock is still the pre-checked one |
| Checkout.ReducedStep | backend/application/service/order_service.go:56-69 | each reduction step changes only the next item's product, deducting that item's quantity |
| Checkout.ReductionDeductsEachItem | backend/application/service/order_service.go:56-69 | after the reduction pass each basket product's stock is lower by exactly its basket quantity, its name and price kept, no product added or removed, and products outside the basket unchanged |
| Checkout.TransitionKeepsContents | backend/application/service/order_service.go:117-186 | a transition service never alters items or totals, touches only the named order, changes a status only along a lifecycle edge, and succeeds exactly for a stored order whose transition is legal |
| Checkout.OrderService.CheckStock | backend/application/service/order_service.go:44-53 | the pre-check passes exactly when every item is in stock; otherwise it reports ProductNotFound or InsufficientStockFor(name) of the first failing item |
| Checkout.OrderService.ReduceStock | backend/application/service/order_service.go:56-69 | over distinct products the pass fails exactly at the item the pre-check rejects first, with ProductNotFound or InsufficientStock, and the items before it are reduced; after a passed pre-check it passes and the product store becomes the fully reduced one |
| Checkout.OrderService.ReduceOne | backend/application/service/order_service.go:57-68 | one reduction step passes exactly when the item is in stock, and then the product is stored with its stock reduced by the item's quantity; otherwise ProductNotFound or InsufficientStock and nothing changes |
| Checkout.OrderService.ReduceNext | backend/application/service/order_service.go:56-69 | one pass of the reduction loop passes exactly when item i is in stock, taking the product store from the reduction after i items to the reduction after i + 1 items; otherwise it reports the item's error and changes nothing |
| Checkout.OrderService.PlaceOrder | backend/application/service/order_service.go:70-88 | the order built from the basket is stored under its id and the stored basket becomes empty with the new time; when the order cannot be built neither store changes; the product store is never touched |
| Checkout.OrderService.CreateOrder | backend/application/service/order_service.go:28-89 | an empty basket id, an unknown basket, an empty basket, or a failed pre-check reports its error and leaves all three stores unchanged; otherwise stock is reduced by the basket quantities, and then either the order cannot be built (the reductions stay) or a PENDING order with the basket's items and total is stored and the stored basket becomes empty |
| Checkout.OrderService.GetOrder | backend/application/service/order_service.go:92-99 | the stored order, or OrderNotFound |
| Checkout.OrderService.ConfirmOrder | backend/application/service/order_service.go:117-132 | an unknown id is OrderNotFound and an illegal transition reports its error, both changing nothing; otherwise the stored order is confirmed |
| Checkout.OrderService.ShipOrder | backend/application/service/order_service.go:135-150 | as ConfirmOrder, for Ship |
| Checkout.OrderService.DeliverOrder | backend/application/service/order_service.go:153-168 | as ConfirmOrder, for Deliver |
| Checkout.OrderService.CancelOrder | backend/application/service/order_service.go:171-186 | as ConfirmOrder, for Cancel |
| Checkout.OrderService.Transit | backend/application/service/order_service.go:117-186 | the shared body of the four transition services: an unknown id is OrderNotFound and an illegal transition reports its error, both changing nothing; otherwise only that order's status and time change and it is stored back |

## Left out

- SQL persistence (the `*_impl.go` repositories and the PostgreSQL setup): replaced by the in-memory repositories. Rows are stored as field values, so a found entity is a new object, not an alias of the stored one. The services write every change back with `Update`, so this makes no difference to their results. The model keeps a basket's items in the order they were added; the SQL read of a basket's items (basket_repository_impl.go:166-171) has no `ORDER BY`, so a reloaded basket's item order is not guaranteed there, and the model fixes an order the SQL store does not promise.
- HTTP handlers, router, middleware and program start-up: transport and configuration, outside the core.
- Request and response DTOs: requests are method parameters. Product responses are the stored field values (`toProductResponse` only copies fields). Order responses are the stored order, without the per-line subtotals that `toOrderResponse` computes with `item.Subtotal()`, discarding its error (order_service.go:192-200). Those subtotals are `OrderEntity.Subtotal`. The basket response is modelled because it computes totals and a currency.
- `GetAllProducts`, `GetAllOrders` and the repositories' `FindAll`: they only list stored rows and compute nothing. The SQL repositories sort the listing by creation time, newest first (product_repository_impl.go:90, order_repository_impl.go:100). The model's stores are maps and keep no listing order.
- `uuid.New` and `time.Now`: nondeterministic. They are the `id` and `now` parameters, and timestamps are plain integers.
- Concurrent requests, and the overselling race between the checkout pre-check and the reduction: the model is single-threaded.
- Storage failures other than a missing row (the injected `saveErr`, `findErr`, `updateErr` and `deleteErr` of the mock): not modelled. So the partial checkout they can cause is not modelled either. The non-atomic checkout that the code itself can produce is modelled: stock reduced, then order creation failing on mixed currencies.
- MoneyValue.Add, QuantityValue.Add and MoneyValue.Multiply work on unbounded integers, so they are stronger than the Go past 2^63 - 1. In Go an overflowing `Money.Add` or `Quantity.Add` wraps to a negative value, which `NewMoney` or `NewQuantity` then rejects (money.go:16, quantity.go:12); the model's Adds succeed, and so do `MoneyValue.AddAssociative` and the existing-item path of `Basket.AddItem` (basket.go:112-114), which would pass that error on. An overflowing `Money.Multiply` can wrap silently to a wrong non-negative amount (money.go:51); the model's product is exact.
- `ReconstructProduct`, `ReconstructBasket` and `ReconstructOrder` take stored fields without validation. They are modelled only as the raw `Reconstruct` constructors the repositories use. Statuses are an enumeration, so an unknown status string cannot be stored.
- Error messages: each check that can fail is a constructor of `Outcomes.Error`, named after the check rather than its message. A check repeated in two places (basket and order item validation, a product's creation and its update) shares one constructor; two different checks that print the same text (for example `Quantity`'s range check and the basket service's request check, both "quantity cannot be negative"; or `Product.ReduceStock` and the basket service's stock guard, both "insufficient stock") get one each, so a Go caller comparing messages could not tell them apart. Only the insufficient-stock message of checkout carries data, the product name.
- Checkout.OrderService.CreateOrder requires the service invariant that stored baskets have distinct product ids. The code does not check this itself; the basket operations and the schema's unique key guarantee it. Without it, an illegal basket with a repeated product could fail midway through the reduction pass, which the model does not describe.
- BasketEntity.Basket.AddItem takes a present `Money` and `Quantity`, so the nil-price error (both paths) and the nil-quantity error (new-item path) of `NewBasketItem` (basket.go:116, 127 and 23-28) are not modelled. A nil quantity on the existing-item path would make `Quantity.Add` dereference nil. The only caller passes `product.Price()` and a quantity built by `NewQuantity` (basket_service.go:70-80), so neither is ever nil there.
