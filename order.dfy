/**
 * Orders (backend/domain/entity/order.go): a snapshot of basket items with a total fixed at
 * creation and a five-state lifecycle. NewOrder builds the order's fields with two loops;
 * the class Order holds those fields and its transition methods update the status in place.
 */
module OrderEntity {
  import opened Outcomes
  import opened MoneyValue
  import opened QuantityValue
  import BasketEntity

  datatype OrderStatus = Pending | Confirmed | Shipped | Delivered | Cancelled

  /** The order's lifecycle, one constructor per transition method. */
  datatype Transition = ToConfirmed | ToShipped | ToDelivered | ToCancelled

  /** The status a transition leads to from s, or the error the transition method reports. */
  function Apply(s: OrderStatus, t: Transition): Result<OrderStatus>
  {
    match t
    case ToConfirmed => if s != Pending then Err(NotPending) else Ok(Confirmed)
    case ToShipped => if s != Confirmed then Err(NotConfirmed) else Ok(Shipped)
    case ToDelivered => if s != Shipped then Err(NotShipped) else Ok(Delivered)
    case ToCancelled =>
      if s == Delivered then Err(AlreadyDelivered)
      else if s == Cancelled then Err(AlreadyCancelled)
      else Ok(Cancelled)
  }

  predicate Terminal(s: OrderStatus) {
    s == Delivered || s == Cancelled
  }

  /** The intended lifecycle: PENDING, CONFIRMED, SHIPPED, DELIVERED, with CANCELLED reachable from every non-terminal status. */
  predicate Edge(from: OrderStatus, to: OrderStatus) {
    || (from == Pending && to == Confirmed)
    || (from == Confirmed && to == Shipped)
    || (from == Shipped && to == Delivered)
    || (!Terminal(from) && to == Cancelled)
  }

  /** The transition methods implement exactly the lifecycle graph, in both directions. */
  lemma ApplyMatchesLifecycle(s: OrderStatus, u: OrderStatus)
    ensures (exists t :: Apply(s, t) == Ok(u)) <==> Edge(s, u)
  {
    if Edge(s, u) {
      var t := if u == Confirmed then ToConfirmed
        else if u == Shipped then ToShipped
        else if u == Delivered then ToDelivered
        else ToCancelled;
      assert Apply(s, t) == Ok(u);
    }
  }

  /** Each transition succeeds exactly from the status its guard names, and errors name the reason. */
  lemma TransitionGuards(s: OrderStatus)
    ensures Apply(s, ToConfirmed).Ok? <==> s == Pending
    ensures Apply(s, ToShipped).Ok? <==> s == Confirmed
    ensures Apply(s, ToDelivered).Ok? <==> s == Shipped
    ensures Apply(s, ToCancelled).Ok? <==> !Terminal(s)
    ensures s == Delivered ==> Apply(s, ToCancelled) == Err(AlreadyDelivered)
    ensures s == Cancelled ==> Apply(s, ToCancelled) == Err(AlreadyCancelled)
  {
  }

  /** DELIVERED and CANCELLED are the statuses no transition leaves. */
  lemma TerminalIsFinal(s: OrderStatus)
    ensures Terminal(s) <==> forall t :: Apply(s, t).Err?
  {
    if !Terminal(s) {
      assert Apply(s, ToCancelled).Ok?;
    }
  }

  function Rank(s: OrderStatus): nat {
    match s
    case Pending => 0
    case Confirmed => 1
    case Shipped => 2
    case Delivered => 3
    case Cancelled => 4
  }

  /** The status after trying each transition in turn, a failed one leaving the status as it was. */
  function Run(s: OrderStatus, ts: seq<Transition>): OrderStatus
    decreases |ts|
  {
    if ts == [] then s
    else
      var a := Apply(s, ts[0]);
      Run(if a.Ok? then a.value else s, ts[1..])
  }

  /** No sequence of transitions goes back: the rank never decreases, and a terminal status stays. */
  lemma {:induction false} RunIsMonotone(s: OrderStatus, ts: seq<Transition>)
    ensures Rank(Run(s, ts)) >= Rank(s)
    ensures Terminal(s) ==> Run(s, ts) == s
    decreases |ts|
  {
    if ts != [] {
      var a := Apply(s, ts[0]);
      RunIsMonotone(if a.Ok? then a.value else s, ts[1..]);
    }
  }

  /** An order reaches DELIVERED from PENDING through CONFIRMED and SHIPPED, and cannot be cancelled afterwards. */
  lemma HappyPath()
    ensures Run(Pending, [ToConfirmed, ToShipped, ToDelivered]) == Delivered
    ensures Apply(Delivered, ToCancelled) == Err(AlreadyDelivered)
  {
  }

  /** A line of an order; structurally a basket item, copied at checkout. */
  datatype OrderItem = OrderItem(productID: string, quantity: Quantity, price: Money)

  /** The validating constructor; None stands for a nil quantity or price. */
  function NewOrderItem(productID: string, quantity: Option<Quantity>, price: Option<Money>): (r: Result<OrderItem>)
    ensures r.Ok? <==> productID != "" && quantity.Some? && quantity.value.value > 0 && price.Some?
    ensures productID == "" ==> r == Err(EmptyProductID)
    ensures productID != "" && (quantity.None? || quantity.value.value == 0) ==> r == Err(QuantityNotPositive)
    ensures productID != "" && quantity.Some? && quantity.value.value > 0 && price.None? ==> r == Err(NilItemPrice)
    ensures r.Ok? ==> r.value == OrderItem(productID, quantity.value, price.value)
  {
    if productID == "" then Err(EmptyProductID)
    else if quantity.None? || IsZero(quantity.value) then Err(QuantityNotPositive)
    else if price.None? then Err(NilItemPrice)
    else Ok(OrderItem(productID, quantity.value, price.value))
  }

  function Subtotal(item: OrderItem): (r: Result<Money>)
    ensures r == Ok(Money(item.price.amount * item.quantity.value, item.price.currency))
  {
    Multiply(item.price, item.quantity.value)
  }

  /** The order item with the same product, quantity and price as a basket item. */
  function Copy(b: BasketEntity.BasketItem): OrderItem {
    OrderItem(b.productID, b.quantity, b.price)
  }

  /** Converts basket items one by one, stopping at the first NewOrderItem error. */
  function ToOrderItems(items: seq<BasketEntity.BasketItem>): (r: Result<seq<OrderItem>>)
    ensures r.Ok? <==> forall i :: 0 <= i < |items| ==> BasketEntity.ItemValid(items[i])
    ensures r.Ok? ==> |r.value| == |items| && forall i :: 0 <= i < |items| ==> r.value[i] == Copy(items[i])
  {
    if items == [] then Ok([])
    else
      var last := items[|items| - 1];
      match ToOrderItems(items[..|items| - 1])
      case Err(e) => Err(e)
      case Ok(prefix) =>
        match NewOrderItem(last.productID, Some(last.quantity), Some(last.price))
        case Ok(item) => Ok(prefix + [item])
        case Err(e) => Err(e)
  }

  /** Once a prefix fails to convert, the whole list fails with that error. */
  lemma {:induction false} ConversionErrorSticks(items: seq<BasketEntity.BasketItem>, j: int)
    requires 0 <= j <= |items| && ToOrderItems(items[..j]).Err?
    ensures ToOrderItems(items) == ToOrderItems(items[..j])
    decreases |items| - j
  {
    if j < |items| {
      var init := items[..|items| - 1];
      assert init[..j] == items[..j];
      ConversionErrorSticks(init, j);
    } else {
      assert items[..j] == items;
    }
  }

  /** The fields of an order. */
  datatype OrderData = OrderData(
    id: string,
    items: seq<OrderItem>,
    total: Money,
    status: OrderStatus,
    createdAt: int,
    updatedAt: int)

  /**
   * What NewOrder builds: nothing from an empty list; otherwise one order item per basket
   * item and the basket's total, in PENDING status.
   */
  function OrderFromBasket(items: seq<BasketEntity.BasketItem>, id: string, now: int): Result<OrderData>
  {
    if items == [] then Err(EmptyOrder)
    else match ToOrderItems(items)
      case Err(e) => Err(e)
      case Ok(orderItems) =>
        match BasketEntity.BasketTotal(items)
        case Err(e) => Err(e)
        case Ok(total) => Ok(OrderData(id, orderItems, total, Pending, now, now))
  }

  /** An order from a well-formed basket fails only on mixed currencies; its total is the sum of price times quantity. */
  lemma OrderFromWellFormedBasket(items: seq<BasketEntity.BasketItem>, id: string, now: int)
    requires BasketEntity.WellFormed(items) && items != []
    ensures var r := OrderFromBasket(items, id, now);
      && (r.Ok? <==> BasketEntity.AllInCurrency(items, items[0].price.currency))
      && (r.Err? ==> r.error == CurrencyMismatch)
      && (r.Ok? ==> && r.value.status == Pending
                    && r.value.total == Money(BasketEntity.SumSubtotals(items), items[0].price.currency)
                    && |r.value.items| == |items|
                    && forall i :: 0 <= i < |items| ==> r.value.items[i] == Copy(items[i]))
  {
  }

  /** Converts the items, then sums the subtotals with Money.Add in the first item's currency. */
  method NewOrder(basketItems: seq<BasketEntity.BasketItem>, id: string, now: int) returns (r: Result<OrderData>)
    ensures r == OrderFromBasket(basketItems, id, now)
  {
    if |basketItems| == 0 {
      return Err(EmptyOrder);
    }
    var converted := ConvertItems(basketItems);
    if converted.Err? {
      return Err(converted.error);
    }
    var orderItems := converted.value;
    var total := SumItems(orderItems, basketItems);
    if total.Err? {
      return Err(total.error);
    }
    return Ok(OrderData(id, orderItems, total.value, Pending, now, now));
  }

  /** The first loop of NewOrder: one NewOrderItem per basket item. */
  method ConvertItems(basketItems: seq<BasketEntity.BasketItem>) returns (r: Result<seq<OrderItem>>)
    ensures r == ToOrderItems(basketItems)
  {
    var orderItems: seq<OrderItem> := [];
    var i := 0;
    while i < |basketItems|
      invariant 0 <= i <= |basketItems|
      invariant ToOrderItems(basketItems[..i]) == Ok(orderItems)
    {
      var bi := basketItems[i];
      assert basketItems[..i + 1][..i] == basketItems[..i];
      var orderItem := NewOrderItem(bi.productID, Some(bi.quantity), Some(bi.price));
      if orderItem.Err? {
        ConversionErrorSticks(basketItems, i + 1);
        return Err(orderItem.error);
      }
      orderItems := orderItems + [orderItem.value];
      i := i + 1;
    }
    assert basketItems[..i] == basketItems;
    return Ok(orderItems);
  }

  /** The second loop of NewOrder: the subtotals added up from zero in the first item's currency. */
  method SumItems(orderItems: seq<OrderItem>, ghost basketItems: seq<BasketEntity.BasketItem>) returns (r: Result<Money>)
    requires basketItems != [] && ToOrderItems(basketItems) == Ok(orderItems)
    ensures r == BasketEntity.BasketTotal(basketItems)
  {
    var currency := orderItems[0].price.currency;
    var total := NewMoney(0, currency).value;  // cannot fail: currencies are non-empty
    var j := 0;
    while j < |orderItems|
      invariant 0 <= j <= |orderItems| == |basketItems|
      invariant BasketEntity.AllInCurrency(basketItems[..j], currency)
      invariant total == Money(BasketEntity.SumSubtotals(basketItems[..j]), currency)
    {
      assert orderItems[j] == Copy(basketItems[j]);
      var subtotal := Subtotal(orderItems[j]).value;  // cannot fail: quantities are non-negative
      var sum := MoneyValue.Add(total, subtotal);
      if sum.Err? {
        assert basketItems[j].price.currency != currency;
        return Err(sum.error);
      }
      assert basketItems[..j + 1][..j] == basketItems[..j];
      total := sum.value;
      j := j + 1;
    }
    assert basketItems[..j] == basketItems;
    return Ok(total);
  }

  class Order {
    var id: string
    var items: seq<OrderItem>
    var total: Money
    var status: OrderStatus
    var createdAt: int
    var updatedAt: int

    function Data(): OrderData
      reads this
    {
      OrderData(id, items, total, status, createdAt, updatedAt)
    }

    /** Rebuilds an order from stored fields. */
    constructor Reconstruct(d: OrderData)
      ensures Data() == d
    {
      id, items, total, status := d.id, d.items, d.total, d.status;
      createdAt, updatedAt := d.createdAt, d.updatedAt;
    }

    method Confirm(now: int) returns (r: Outcome)
      modifies this
      ensures var a := Apply(old(status), ToConfirmed);
        && r == (if a.Ok? then Pass else Fail(a.error))
        && Data() == if a.Ok? then old(Data()).(status := a.value, updatedAt := now) else old(Data())
    {
      if status != Pending {
        return Fail(NotPending);
      }
      status := Confirmed;
      updatedAt := now;
      return Pass;
    }

    method Ship(now: int) returns (r: Outcome)
      modifies this
      ensures var a := Apply(old(status), ToShipped);
        && r == (if a.Ok? then Pass else Fail(a.error))
        && Data() == if a.Ok? then old(Data()).(status := a.value, updatedAt := now) else old(Data())
    {
      if status != Confirmed {
        return Fail(NotConfirmed);
      }
      status := Shipped;
      updatedAt := now;
      return Pass;
    }

    method Deliver(now: int) returns (r: Outcome)
      modifies this
      ensures var a := Apply(old(status), ToDelivered);
        && r == (if a.Ok? then Pass else Fail(a.error))
        && Data() == if a.Ok? then old(Data()).(status := a.value, updatedAt := now) else old(Data())
    {
      if status != Shipped {
        return Fail(NotShipped);
      }
      status := Delivered;
      updatedAt := now;
      return Pass;
    }

    method Cancel(now: int) returns (r: Outcome)
      modifies this
      ensures var a := Apply(old(status), ToCancelled);
        && r == (if a.Ok? then Pass else Fail(a.error))
        && Data() == if a.Ok? then old(Data()).(status := a.value, updatedAt := now) else old(Data())
    {
      if status == Delivered {
        return Fail(AlreadyDelivered);
      }
      if status == Cancelled {
        return Fail(AlreadyCancelled);
      }
      status := Cancelled;
      updatedAt := now;
      return Pass;
    }

    /** True exactly when Cancel would succeed. */
    function IsCancellable(): (r: bool)
      reads this
      ensures r <==> Apply(status, ToCancelled).Ok?
    {
      status != Delivered && status != Cancelled
    }
  }
}
