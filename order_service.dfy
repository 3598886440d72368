/**
 * The order service (backend/application/service/order_service.go): checkout of a stored
 * basket into an order, and the order lifecycle transitions, over the three in-memory
 * repositories. Responses are the stored order fields; the per-line subtotals toOrderResponse adds are OrderEntity.Subtotal.
 */
module Checkout {
  import opened Outcomes
  import opened QuantityValue
  import opened ProductEntity
  import opened BasketEntity
  import opened OrderEntity
  import opened Repositories

  // ---- The pre-check pass ----

  /** The item's product is stored and has at least the item's quantity in stock. */
  predicate InStock(products: map<string, ProductData>, item: BasketItem) {
    item.productID in products && products[item.productID].stock.value >= item.quantity.value
  }

  predicate AllInStock(products: map<string, ProductData>, items: seq<BasketItem>) {
    forall i :: 0 <= i < |items| ==> InStock(products, items[i])
  }

  /** The first n items are in stock. */
  predicate PrefixInStock(products: map<string, ProductData>, items: seq<BasketItem>, n: int) {
    forall j :: 0 <= j < n && j < |items| ==> InStock(products, items[j])
  }

  /** Position of the first item the pre-check rejects, or -1 when it accepts them all. */
  function FirstShortfall(products: map<string, ProductData>, items: seq<BasketItem>): (k: int)
    ensures -1 <= k < |items|
    ensures k >= 0 ==> !InStock(products, items[k])
    ensures forall j :: 0 <= j < |items| && (k < 0 || j < k) ==> InStock(products, items[j])
  {
    if items == [] then -1
    else if !InStock(products, items[0]) then 0
    else
      var k := FirstShortfall(products, items[1..]);
      if k < 0 then -1 else k + 1
  }

  /** A pass that finds the first n items in stock and item n not (or no item n) has found the first shortfall. */
  lemma ShortfallAt(products: map<string, ProductData>, items: seq<BasketItem>, n: int)
    requires 0 <= n <= |items| && PrefixInStock(products, items, n)
    requires n < |items| ==> !InStock(products, items[n])
    ensures FirstShortfall(products, items) == if n < |items| then n else -1
  {
    var k := FirstShortfall(products, items);
    if n < |items| && 0 <= k {
      assert !InStock(products, items[k]);
    }
  }

  /** The error the pre-check reports for a rejected item. */
  function ShortfallError(products: map<string, ProductData>, item: BasketItem): Error {
    if item.productID !in products then ProductNotFound
    else InsufficientStockFor(products[item.productID].name)
  }

  // ---- The stock-reduction pass ----

  function Deduct(p: ProductData, quantity: Quantity, now: int): ProductData
    requires quantity.value <= p.stock.value
  {
    p.(stock := Quantity(p.stock.value - quantity.value), updatedAt := now)
  }

  /** The error a reduction step reports for an item that is not in stock. */
  function ReductionError(products: map<string, ProductData>, item: BasketItem): Error {
    if item.productID !in products then ProductNotFound else InsufficientStock
  }

  /** The products after the first n items of the basket have been taken out of stock. */
  function Reduced(products: map<string, ProductData>, items: seq<BasketItem>, n: int, now: int)
    : map<string, ProductData>
    requires 0 <= n <= |items| && PrefixInStock(products, items, n)
  {
    map id | id in products ::
      var k := IndexOf(items, id);
      if 0 <= k < n then
        assert InStock(products, items[k]);
        Deduct(products[id], items[k].quantity, now)
      else products[id]
  }

  /** The first n steps of the reduction pass leave the product of item n as it was, and add or remove no product. */
  lemma ReducedUntouched(products: map<string, ProductData>, items: seq<BasketItem>, n: int, now: int)
    requires DistinctIDs(items) && 0 <= n < |items| && PrefixInStock(products, items, n)
    ensures Reduced(products, items, n, now).Keys == products.Keys
    ensures var id := items[n].productID;
      id in products ==> Reduced(products, items, n, now)[id] == products[id]
  {
    IndexOfDistinct(items, n);
  }

  /** One more step of the reduction pass, at one product: only the next item's product changes. */
  lemma ReducedStepAt(products: map<string, ProductData>, items: seq<BasketItem>, n: int, now: int, other: string)
    requires DistinctIDs(items) && 0 <= n < |items| && PrefixInStock(products, items, n + 1)
    requires other in products
    ensures var id := items[n].productID;
      Reduced(products, items, n + 1, now)[other]
      == if other == id then Deduct(products[id], items[n].quantity, now) else Reduced(products, items, n, now)[other]
  {
    IndexOfDistinct(items, n);
    if other != items[n].productID {
      assert IndexOf(items, other) != n;
    }
  }

  /** One more step of the reduction pass touches exactly the next item's product. */
  lemma ReducedStep(products: map<string, ProductData>, items: seq<BasketItem>, n: int, now: int)
    requires DistinctIDs(items) && 0 <= n < |items| && PrefixInStock(products, items, n + 1)
    ensures var id := items[n].productID;
      Reduced(products, items, n + 1, now)
      == Reduced(products, items, n, now)[id := Deduct(products[id], items[n].quantity, now)]
  {
    var id := items[n].productID;
    assert InStock(products, items[n]);
    var before, after := Reduced(products, items, n, now), Reduced(products, items, n + 1, now);
    var target := before[id := Deduct(products[id], items[n].quantity, now)];
    assert after.Keys == target.Keys;
    forall other | other in products
      ensures after[other] == target[other]
    {
      ReducedStepAt(products, items, n, now, other);
    }
  }

  /**
   * The reduction pass over distinct products stops with the error of the first item the
   * pre-check would reject, having reduced the items before it; with none, it reduces them all.
   */
  ghost predicate ReductionEffect(before: map<string, ProductData>, after: map<string, ProductData>,
                                  items: seq<BasketItem>, now: int, r: Outcome)
  {
    var k := FirstShortfall(before, items);
    if k < 0 then r == Pass && after == Reduced(before, items, |items|, now)
    else r == Fail(ReductionError(before, items[k])) && after == Reduced(before, items, k, now)
  }

  /** A pass that stops at item n, or runs to the end, has the effect ReductionEffect describes. */
  lemma ReductionStopsAt(before: map<string, ProductData>, after: map<string, ProductData>,
                         items: seq<BasketItem>, n: int, now: int, r: Outcome)
    requires 0 <= n <= |items| && PrefixInStock(before, items, n) && after == Reduced(before, items, n, now)
    requires n < |items| ==> !InStock(before, items[n]) && r == Fail(ReductionError(before, items[n]))
    requires n == |items| ==> r == Pass
    ensures ReductionEffect(before, after, items, now, r)
  {
    ShortfallAt(before, items, n);
  }

  /**
   * After the whole pass, each basket product's stock is lower by exactly its basket
   * quantity, no product is added or removed, and products outside the basket are unchanged.
   */
  lemma ReductionDeductsEachItem(products: map<string, ProductData>, items: seq<BasketItem>, now: int)
    requires DistinctIDs(items) && AllInStock(products, items)
    ensures Reduced(products, items, |items|, now).Keys == products.Keys
    ensures forall i :: 0 <= i < |items| ==>
      && Reduced(products, items, |items|, now)[items[i].productID].stock.value
         == products[items[i].productID].stock.value - items[i].quantity.value
      && Reduced(products, items, |items|, now)[items[i].productID].name == products[items[i].productID].name
      && Reduced(products, items, |items|, now)[items[i].productID].price == products[items[i].productID].price
    ensures forall id :: id in products && id !in IDs(items) ==> Reduced(products, items, |items|, now)[id] == products[id]
  {
    forall i | 0 <= i < |items|
      ensures Reduced(products, items, |items|, now)[items[i].productID].stock.value
              == products[items[i].productID].stock.value - items[i].quantity.value
    {
      IndexOfDistinct(items, i);
      assert InStock(products, items[i]);
    }
    forall id | id in products && id !in IDs(items)
      ensures Reduced(products, items, |items|, now)[id] == products[id]
    {
      assert IndexOf(items, id) < 0;
    }
  }

  /** The transition services: an unknown id or an illegal transition changes nothing; otherwise only that order's status and time change. */
  ghost predicate TransitionEffect(before: map<string, OrderData>, after: map<string, OrderData>,
                                   id: string, t: Transition, now: int, r: Result<OrderData>)
  {
    if id !in before then r == Err(OrderNotFound) && after == before
    else
      var a := Apply(before[id].status, t);
      if a.Err? then r == Err(a.error) && after == before
      else r == Ok(before[id].(status := a.value, updatedAt := now)) && after == before[id := r.value]
  }

  /** No transition service alters an order's items or total, and every status change follows the lifecycle. */
  lemma TransitionKeepsContents(before: map<string, OrderData>, after: map<string, OrderData>,
                                id: string, t: Transition, now: int, r: Result<OrderData>)
    requires TransitionEffect(before, after, id, t, now, r)
    ensures after.Keys == before.Keys
    ensures forall k :: k in after ==> after[k].items == before[k].items && after[k].total == before[k].total
    ensures forall k :: k in after && k != id ==> after[k] == before[k]
    ensures forall k :: k in after && after[k].status != before[k].status ==> Edge(before[k].status, after[k].status)
    ensures r.Ok? <==> id in before && Apply(before[id].status, t).Ok?
  {
    if id in before && Apply(before[id].status, t).Ok? {
      ApplyMatchesLifecycle(before[id].status, Apply(before[id].status, t).value);
    }
  }

  class OrderService {
    const orders: OrderRepository
    const baskets: BasketRepository
    const products: ProductRepository

    /** Rows under their own ids; stored baskets have distinct, valid items (backed by the schema's unique key). */
    ghost predicate Valid()
      reads this, orders, baskets, products
    {
      && orders.Valid() && baskets.Valid() && products.Valid()
      && forall id :: id in baskets.rows ==> WellFormed(baskets.rows[id].items)
    }

    constructor (orders: OrderRepository, baskets: BasketRepository, products: ProductRepository)
      ensures this.orders == orders && this.baskets == baskets && this.products == products
    {
      this.orders := orders;
      this.baskets := baskets;
      this.products := products;
    }

    /** Checkout gets past the basket checks and the pre-check, so stock is reduced. */
    ghost predicate ReachesReduction(basketID: string)
      reads this, baskets, products
    {
      && basketID != "" && basketID in baskets.rows && baskets.rows[basketID].items != []
      && FirstShortfall(products.rows, baskets.rows[basketID].items) < 0
    }

    /**
     * Checkout: validates the basket, checks every item's stock, takes every item out of stock,
     * builds the order (with the given fresh id and time), stores it and empties the basket.
     * Stock is reduced before the order is built, so an order that cannot be built (mixed
     * currencies) leaves the reductions in place.
     */
    method CreateOrder(basketID: string, orderID: string, now: int) returns (r: Result<OrderData>)
      requires Valid()
      modifies orders, baskets, products
      ensures Valid()
      ensures basketID == "" ==> r == Err(BasketIDRequired)
      ensures basketID != "" && basketID !in old(baskets.rows) ==> r == Err(BasketNotFound)
      ensures basketID != "" && basketID in old(baskets.rows) ==>
        var items := old(baskets.rows)[basketID].items;
        var k := FirstShortfall(old(products.rows), items);
        && (items == [] ==> r == Err(EmptyBasketCheckout))
        && (items != [] && k >= 0 ==> r == Err(ShortfallError(old(products.rows), items[k])))
      ensures !old(ReachesReduction(basketID)) ==>
        && products.rows == old(products.rows) && baskets.rows == old(baskets.rows)
        && orders.rows == old(orders.rows)
      ensures old(ReachesReduction(basketID)) ==>
        var b := old(baskets.rows)[basketID];
        var order := OrderFromBasket(b.items, orderID, now);
        && products.rows == Reduced(old(products.rows), b.items, |b.items|, now)
        && if order.Err? then
             && r == Err(order.error)
             && baskets.rows == old(baskets.rows) && orders.rows == old(orders.rows)
           else
             && r == order
             && orders.rows == old(orders.rows)[orderID := order.value]
             && baskets.rows == old(baskets.rows)[basketID := b.(items := [], updatedAt := now)]
    {
      if basketID == "" {
        return Err(BasketIDRequired);
      }
      var found := baskets.FindByID(basketID);
      if found.Err? {
        return Err(found.error);
      }
      var basket := found.value;
      if basket.IsEmpty() {
        return Err(EmptyBasketCheckout);
      }
      var items := basket.items;
      var checked := CheckStock(items);
      if checked.Fail? {
        return Err(checked.error);
      }
      var reduced := ReduceStock(items, now);
      assert reduced.Pass?;  // the pre-check passed
      assert basket.id == basketID && basket.Data() == baskets.rows[basketID];
      r := PlaceOrder(basket, orderID, now);
    }

    /** The last checkout steps: build the order from the basket, store it, and store the basket emptied. */
    method PlaceOrder(basket: Basket, orderID: string, now: int) returns (r: Result<OrderData>)
      requires Valid() && basket.id in baskets.rows
      modifies orders, baskets, basket
      ensures Valid() && products.rows == old(products.rows)
      ensures var order := OrderFromBasket(old(basket.items), orderID, now);
        if order.Err? then
          && r == Err(order.error)
          && baskets.rows == old(baskets.rows) && orders.rows == old(orders.rows)
        else
          && r == order
          && orders.rows == old(orders.rows)[orderID := order.value]
          && baskets.rows == old(baskets.rows)[old(basket.id) := old(basket.Data()).(items := [], updatedAt := now)]
    {
      var created := NewOrder(basket.items, orderID, now);
      if created.Err? {
        return Err(created.error);
      }
      var order := new Order.Reconstruct(created.value);
      orders.Save(order);
      basket.Clear(now);
      var written := baskets.Update(basket);
      assert written.Pass?;  // the basket is stored under its id
      return Ok(order.Data());
    }

    /** The pre-check pass: the error of the first item whose product is missing or short of stock. */
    method CheckStock(items: seq<BasketItem>) returns (r: Outcome)
      ensures var k := FirstShortfall(products.rows, items);
        r == if k < 0 then Pass else Fail(ShortfallError(products.rows, items[k]))
    {
      var i := 0;
      while i < |items|
        invariant 0 <= i <= |items|
        invariant forall j :: 0 <= j < i ==> InStock(products.rows, items[j])
      {
        var item := items[i];
        var found := products.FindByID(item.productID);
        if found.Err? {
          return Fail(found.error);
        }
        var product := found.value;
        if product.stock.value < item.quantity.value {
          return Fail(InsufficientStockFor(product.name));
        }
        i := i + 1;
      }
      return Pass;
    }

    /**
     * The reduction pass: each item's product is looked up, its stock reduced and written back,
     * stopping at the first failure. Over distinct products each step sees the pre-checked stock,
     * so the pass fails exactly where the pre-check would, and after a passed pre-check never.
     */
    method ReduceStock(items: seq<BasketItem>, now: int) returns (r: Outcome)
      requires products.Valid() && DistinctIDs(items)
      modifies products
      ensures products.Valid()
      ensures ReductionEffect(old(products.rows), products.rows, items, now, r)
    {
      ghost var before := products.rows;
      var i := 0;
      while i < |items|
        invariant 0 <= i <= |items|
        invariant products.Valid()
        invariant PrefixInStock(before, items, i)
        invariant products.rows == Reduced(before, items, i, now)
      {
        r := ReduceNext(before, items, i, now);
        if r.Fail? {
          ReductionStopsAt(before, products.rows, items, i, now, r);
          return;
        }
        i := i + 1;
      }
      r := Pass;
      ReductionStopsAt(before, products.rows, items, i, now, r);
    }

    /** Step i of the reduction pass, as one more item of the specification's reduction. */
    method ReduceNext(ghost before: map<string, ProductData>, items: seq<BasketItem>, i: int, now: int)
      returns (r: Outcome)
      requires DistinctIDs(items) && 0 <= i < |items| && PrefixInStock(before, items, i)
      requires products.Valid() && products.rows == Reduced(before, items, i, now)
      modifies products
      ensures products.Valid()
      ensures r.Pass? <==> InStock(before, items[i])
      ensures r.Pass? ==> PrefixInStock(before, items, i + 1) && products.rows == Reduced(before, items, i + 1, now)
      ensures r.Fail? ==> r.error == ReductionError(before, items[i]) && products.rows == old(products.rows)
    {
      ReducedUntouched(before, items, i, now);
      r := ReduceOne(items[i], now);
      if r.Pass? {
        ReducedStep(before, items, i, now);
      }
    }

    /** One step of the reduction pass: find the product, take the item out of its stock, write it back. */
    method ReduceOne(item: BasketItem, now: int) returns (r: Outcome)
      requires products.Valid()
      modifies products
      ensures products.Valid()
      ensures r.Pass? <==> InStock(old(products.rows), item)
      ensures r.Pass? ==> products.rows == old(products.rows)[item.productID :=
                Deduct(old(products.rows)[item.productID], item.quantity, now)]
      ensures r.Fail? ==> r.error == ReductionError(old(products.rows), item) && products.rows == old(products.rows)
    {
      var found := products.FindByID(item.productID);
      if found.Err? {
        return Fail(found.error);
      }
      var product := found.value;
      r := product.ReduceStock(item.quantity, now);
      if r.Fail? {
        return;
      }
      r := products.Update(product);
    }

    method GetOrder(id: string) returns (r: Result<OrderData>)
      ensures r == if id in orders.rows then Ok(orders.rows[id]) else Err(OrderNotFound)
    {
      var found := orders.FindByID(id);
      if found.Err? {
        return Err(found.error);
      }
      return Ok(found.value.Data());
    }

    /** Loads an order, applies one transition and stores it back. */
    method Transit(id: string, t: Transition, now: int) returns (r: Result<OrderData>)
      requires Valid()
      modifies orders
      ensures Valid()
      ensures TransitionEffect(old(orders.rows), orders.rows, id, t, now, r)
    {
      var found := orders.FindByID(id);
      if found.Err? {
        return Err(found.error);
      }
      var order := found.value;
      var applied: Outcome;
      match t {
        case ToConfirmed => applied := order.Confirm(now);
        case ToShipped => applied := order.Ship(now);
        case ToDelivered => applied := order.Deliver(now);
        case ToCancelled => applied := order.Cancel(now);
      }
      if applied.Fail? {
        return Err(applied.error);
      }
      var written := orders.Update(order);
      assert written.Pass?;  // the order was just found under its own id
      return Ok(order.Data());
    }

    method ConfirmOrder(id: string, now: int) returns (r: Result<OrderData>)
      requires Valid()
      modifies orders
      ensures Valid()
      ensures TransitionEffect(old(orders.rows), orders.rows, id, ToConfirmed, now, r)
    {
      r := Transit(id, ToConfirmed, now);
    }

    method ShipOrder(id: string, now: int) returns (r: Result<OrderData>)
      requires Valid()
      modifies orders
      ensures Valid()
      ensures TransitionEffect(old(orders.rows), orders.rows, id, ToShipped, now, r)
    {
      r := Transit(id, ToShipped, now);
    }

    method DeliverOrder(id: string, now: int) returns (r: Result<OrderData>)
      requires Valid()
      modifies orders
      ensures Valid()
      ensures TransitionEffect(old(orders.rows), orders.rows, id, ToDelivered, now, r)
    {
      r := Transit(id, ToDelivered, now);
    }

    method CancelOrder(id: string, now: int) returns (r: Result<OrderData>)
      requires Valid()
      modifies orders
      ensures Valid()
      ensures TransitionEffect(old(orders.rows), orders.rows, id, ToCancelled, now, r)
    {
      r := Transit(id, ToCancelled, now);
    }
  }
}
