/**
 * The shopping basket (backend/domain/entity/basket.go). BasketItem is a value; the class
 * Basket holds the item list that AddItem, RemoveItem, UpdateItemQuantity and Clear update in
 * place. Each mutator is proved against a function on item sequences (AddItemTo,
 * RemoveItemFrom, UpdateQuantityIn) whose properties are the lemmas below.
 */
module BasketEntity {
  import opened Outcomes
  import opened MoneyValue
  import opened QuantityValue

  /** A product in the basket with the price captured when it was added. */
  datatype BasketItem = BasketItem(productID: string, quantity: Quantity, price: Money)

  /** What NewBasketItem guarantees about an item. */
  predicate ItemValid(item: BasketItem) {
    item.productID != "" && item.quantity.value > 0
  }

  /** The validating constructor; None stands for a nil quantity or price. */
  function NewBasketItem(productID: string, quantity: Option<Quantity>, price: Option<Money>): (r: Result<BasketItem>)
    ensures r.Ok? <==> productID != "" && quantity.Some? && quantity.value.value > 0 && price.Some?
    ensures productID == "" ==> r == Err(EmptyProductID)
    ensures productID != "" && (quantity.None? || quantity.value.value == 0) ==> r == Err(QuantityNotPositive)
    ensures productID != "" && quantity.Some? && quantity.value.value > 0 && price.None? ==> r == Err(NilItemPrice)
    ensures r.Ok? ==> r.value == BasketItem(productID, quantity.value, price.value) && ItemValid(r.value)
  {
    if productID == "" then Err(EmptyProductID)
    else if quantity.None? || IsZero(quantity.value) then Err(QuantityNotPositive)
    else if price.None? then Err(NilItemPrice)
    else Ok(BasketItem(productID, quantity.value, price.value))
  }

  /** Price times quantity; never fails because quantities are non-negative. */
  function Subtotal(item: BasketItem): (r: Result<Money>)
    ensures r == Ok(Money(item.price.amount * item.quantity.value, item.price.currency))
  {
    Multiply(item.price, item.quantity.value)
  }

  // ---- Item sequences ----

  predicate DistinctIDs(items: seq<BasketItem>) {
    forall i, j :: 0 <= i < j < |items| ==> items[i].productID != items[j].productID
  }

  /** The basket invariant: one item per product, each as NewBasketItem builds it. */
  predicate WellFormed(items: seq<BasketItem>) {
    DistinctIDs(items) && forall i :: 0 <= i < |items| ==> ItemValid(items[i])
  }

  function IDs(items: seq<BasketItem>): set<string> {
    set i | 0 <= i < |items| :: items[i].productID
  }

  /** Position of the first item for productID, or -1. */
  function IndexOf(items: seq<BasketItem>, productID: string): (k: int)
    ensures -1 <= k < |items|
    ensures k >= 0 ==> items[k].productID == productID
    ensures forall j :: 0 <= j < |items| && (k < 0 || j < k) ==> items[j].productID != productID
  {
    if items == [] then -1
    else if items[0].productID == productID then 0
    else
      var k := IndexOf(items[1..], productID);
      if k < 0 then -1 else k + 1
  }

  lemma IndexOfDistinct(items: seq<BasketItem>, j: int)
    requires DistinctIDs(items) && 0 <= j < |items|
    ensures IndexOf(items, items[j].productID) == j
  {
  }

  /** Basket.AddItem on the item list: a repeat add sums the quantities and takes the new price. */
  function AddItemTo(items: seq<BasketItem>, productID: string, quantity: Quantity, price: Money)
    : Result<seq<BasketItem>>
  {
    var k := IndexOf(items, productID);
    if k >= 0 then
      match NewBasketItem(productID, Some(Quantity(items[k].quantity.value + quantity.value)), Some(price))
      case Ok(item) => Ok(items[k := item])
      case Err(e) => Err(e)
    else
      match NewBasketItem(productID, Some(quantity), Some(price))
      case Ok(item) => Ok(items + [item])
      case Err(e) => Err(e)
  }

  /** The items without the one at position k. */
  function RemoveAt(items: seq<BasketItem>, k: int): seq<BasketItem>
    requires 0 <= k < |items|
  {
    items[..k] + items[k + 1..]
  }

  /** Basket.RemoveItem on the item list. */
  function RemoveItemFrom(items: seq<BasketItem>, productID: string): Result<seq<BasketItem>>
  {
    var k := IndexOf(items, productID);
    if k < 0 then Err(ItemNotFound) else Ok(RemoveAt(items, k))
  }

  /** Basket.UpdateItemQuantity on the item list: zero removes, otherwise the stored price is kept. */
  function UpdateQuantityIn(items: seq<BasketItem>, productID: string, quantity: Quantity)
    : Result<seq<BasketItem>>
  {
    if IsZero(quantity) then RemoveItemFrom(items, productID)
    else
      var k := IndexOf(items, productID);
      if k < 0 then Err(ItemNotFound)
      else match NewBasketItem(productID, Some(quantity), Some(items[k].price))
        case Ok(item) => Ok(items[k := item])
        case Err(e) => Err(e)
  }

  /** Repeat add: same length and position, quantity old + added, price replaced, the rest untouched. */
  lemma AddExistingItem(items: seq<BasketItem>, productID: string, quantity: Quantity, price: Money)
    requires WellFormed(items)
    requires productID in IDs(items)
    ensures var k, r := IndexOf(items, productID), AddItemTo(items, productID, quantity, price);
      && 0 <= k && r.Ok? && |r.value| == |items|
      && r.value[k] == BasketItem(productID, Quantity(items[k].quantity.value + quantity.value), price)
      && (forall j :: 0 <= j < |items| && j != k ==> r.value[j] == items[j])
  {
    var i :| 0 <= i < |items| && items[i].productID == productID;
    IndexOfDistinct(items, i);
  }

  /** First add of a product: fails on an empty id or zero quantity, otherwise appends one item. */
  lemma AddNewItem(items: seq<BasketItem>, productID: string, quantity: Quantity, price: Money)
    requires productID !in IDs(items)
    ensures var r := AddItemTo(items, productID, quantity, price);
      && (r.Ok? <==> productID != "" && quantity.value > 0)
      && (r.Ok? ==> r.value == items + [BasketItem(productID, quantity, price)])
      && (productID == "" ==> r == Err(EmptyProductID))
      && (productID != "" && quantity.value == 0 ==> r == Err(QuantityNotPositive))
  {
  }

  lemma AppendKeepsWellFormed(items: seq<BasketItem>, item: BasketItem)
    requires WellFormed(items) && ItemValid(item) && item.productID !in IDs(items)
    ensures WellFormed(items + [item])
  {
    var s := items + [item];
    forall i, j | 0 <= i < j < |s| ensures s[i].productID != s[j].productID {
      if j == |items| {
        assert s[i].productID in IDs(items);
      }
    }
  }

  lemma RemoveKeepsWellFormed(items: seq<BasketItem>, k: int)
    requires WellFormed(items) && 0 <= k < |items|
    ensures WellFormed(RemoveAt(items, k))
  {
    RemovedAt(items, k);
  }

  lemma AddKeepsWellFormed(items: seq<BasketItem>, productID: string, quantity: Quantity, price: Money)
    requires WellFormed(items)
    ensures AddItemTo(items, productID, quantity, price).Ok? ==> WellFormed(AddItemTo(items, productID, quantity, price).value)
  {
    var item := BasketItem(productID, quantity, price);
    if IndexOf(items, productID) < 0 && ItemValid(item) {
      assert productID !in IDs(items);
      AppendKeepsWellFormed(items, item);
    }
  }

  lemma RemoveItemKeepsWellFormed(items: seq<BasketItem>, productID: string)
    requires WellFormed(items)
    ensures RemoveItemFrom(items, productID).Ok? ==> WellFormed(RemoveItemFrom(items, productID).value)
  {
    var k := IndexOf(items, productID);
    if k >= 0 {
      RemoveKeepsWellFormed(items, k);
    }
  }

  /** Every basket operation keeps one item per product, each item valid. */
  lemma OperationsKeepWellFormed(items: seq<BasketItem>, productID: string, quantity: Quantity, price: Money)
    requires WellFormed(items)
    ensures AddItemTo(items, productID, quantity, price).Ok? ==> WellFormed(AddItemTo(items, productID, quantity, price).value)
    ensures RemoveItemFrom(items, productID).Ok? ==> WellFormed(RemoveItemFrom(items, productID).value)
    ensures UpdateQuantityIn(items, productID, quantity).Ok? ==> WellFormed(UpdateQuantityIn(items, productID, quantity).value)
  {
    AddKeepsWellFormed(items, productID, quantity, price);
    RemoveItemKeepsWellFormed(items, productID);
  }

  lemma RemovedAt(items: seq<BasketItem>, k: int)
    requires 0 <= k < |items|
    ensures |RemoveAt(items, k)| == |items| - 1
    ensures forall j :: 0 <= j < |items| - 1 ==> RemoveAt(items, k)[j] == items[if j < k then j else j + 1]
  {
  }

  lemma RemovedIDs(items: seq<BasketItem>, k: int)
    requires DistinctIDs(items) && 0 <= k < |items|
    ensures IDs(RemoveAt(items, k)) == IDs(items) - {items[k].productID}
  {
    var s := RemoveAt(items, k);
    RemovedAt(items, k);
    forall id | id in IDs(s) ensures id in IDs(items) - {items[k].productID} {
      var j :| 0 <= j < |s| && s[j].productID == id;
      assert items[if j < k then j else j + 1].productID == id;
    }
    forall id | id in IDs(items) - {items[k].productID} ensures id in IDs(s) {
      var j :| 0 <= j < |items| && items[j].productID == id;
      assert s[if j < k then j else j - 1].productID == id;
    }
  }

  /** Removing deletes exactly that product and keeps the other items in order; a missing product fails. */
  lemma RemoveItemDeletesOne(items: seq<BasketItem>, productID: string)
    requires WellFormed(items)
    ensures var r := RemoveItemFrom(items, productID);
      && (r.Ok? <==> productID in IDs(items))
      && (r.Err? ==> r.error == ItemNotFound)
      && (r.Ok? ==> |r.value| == |items| - 1 && IDs(r.value) == IDs(items) - {productID})
      && (r.Ok? ==> forall j :: 0 <= j < |r.value| ==>
            r.value[j] == items[if j < IndexOf(items, productID) then j else j + 1])
  {
    var k := IndexOf(items, productID);
    if k >= 0 {
      RemovedAt(items, k);
      RemovedIDs(items, k);
      assert productID in IDs(items);
    } else {
      assert productID !in IDs(items);
    }
  }

  /** Adding a new product and then removing it gives back the original items. */
  lemma AddThenRemoveRoundTrip(items: seq<BasketItem>, productID: string, quantity: Quantity, price: Money)
    requires productID !in IDs(items)
    requires AddItemTo(items, productID, quantity, price).Ok?
    ensures RemoveItemFrom(AddItemTo(items, productID, quantity, price).value, productID) == Ok(items)
  {
    AddNewItem(items, productID, quantity, price);
    var s := items + [BasketItem(productID, quantity, price)];
    forall j | 0 <= j < |items| ensures s[j].productID != productID {
      assert items[j].productID in IDs(items);
    }
    assert s[|items|].productID == productID;
    assert IndexOf(s, productID) == |items|;
    assert s[..|items|] == items && s[|items| + 1..] == [];
    assert RemoveAt(s, |items|) == items;
  }

  /** A quantity edit: zero is RemoveItem; otherwise only that item's quantity changes, keeping its price. */
  lemma UpdateQuantityKeepsPrice(items: seq<BasketItem>, productID: string, quantity: Quantity)
    requires WellFormed(items)
    ensures quantity.value == 0 ==> UpdateQuantityIn(items, productID, quantity) == RemoveItemFrom(items, productID)
    ensures quantity.value > 0 ==>
      var r, k := UpdateQuantityIn(items, productID, quantity), IndexOf(items, productID);
      && (r.Ok? <==> productID in IDs(items))
      && (r.Err? ==> r.error == ItemNotFound)
      && (r.Ok? ==> r.value == items[k := BasketItem(productID, quantity, items[k].price)])
  {
    var k := IndexOf(items, productID);
    if productID in IDs(items) {
      var j :| 0 <= j < |items| && items[j].productID == productID;
      IndexOfDistinct(items, j);
    }
  }

  // ---- Item count ----

  /** Total units in the basket. */
  function SumQuantities(items: seq<BasketItem>): nat {
    if items == [] then 0 else SumQuantities(items[..|items| - 1]) + items[|items| - 1].quantity.value
  }

  lemma {:induction false} SumQuantitiesUpdate(items: seq<BasketItem>, k: int, item: BasketItem)
    requires 0 <= k < |items|
    ensures SumQuantities(items[k := item]) == SumQuantities(items) - items[k].quantity.value + item.quantity.value
  {
    var n := |items|;
    var s := items[k := item];
    if k < n - 1 {
      assert s[..n - 1] == items[..n - 1][k := item];
      SumQuantitiesUpdate(items[..n - 1], k, item);
    } else {
      assert s[..n - 1] == items[..n - 1];
    }
  }

  /** Adding q units of a product raises the item count by exactly q, merged or appended. */
  lemma AddItemRaisesCount(items: seq<BasketItem>, productID: string, quantity: Quantity, price: Money)
    requires WellFormed(items)
    requires AddItemTo(items, productID, quantity, price).Ok?
    ensures SumQuantities(AddItemTo(items, productID, quantity, price).value) == SumQuantities(items) + quantity.value
  {
    var k := IndexOf(items, productID);
    if k >= 0 {
      SumQuantitiesUpdate(items, k, BasketItem(productID, Quantity(items[k].quantity.value + quantity.value), price));
    } else {
      var s := items + [BasketItem(productID, quantity, price)];
      assert s[..|s| - 1] == items;
    }
  }

  /** Adding the same product twice leaves one item whose quantity is the sum, at the last price. */
  lemma AddTwiceMerges(items: seq<BasketItem>, productID: string, q1: Quantity, q2: Quantity, p1: Money, p2: Money)
    requires WellFormed(items) && productID !in IDs(items)
    requires AddItemTo(items, productID, q1, p1).Ok?
    ensures var once := AddItemTo(items, productID, q1, p1).value;
      AddItemTo(once, productID, q2, p2) == Ok(items + [BasketItem(productID, Quantity(q1.value + q2.value), p2)])
  {
    AddNewItem(items, productID, q1, p1);
    var once := items + [BasketItem(productID, q1, p1)];
    AppendKeepsWellFormed(items, BasketItem(productID, q1, p1));
    IndexOfDistinct(once, |items|);
    assert once[|items| := BasketItem(productID, Quantity(q1.value + q2.value), p2)]
        == items + [BasketItem(productID, Quantity(q1.value + q2.value), p2)];
  }

  // ---- Totals ----

  predicate AllInCurrency(items: seq<BasketItem>, currency: string) {
    forall i :: 0 <= i < |items| ==> items[i].price.currency == currency
  }

  /** Sum of price * quantity over the items, in cents. */
  function SumSubtotals(items: seq<BasketItem>): nat {
    if items == [] then 0
    else SumSubtotals(items[..|items| - 1]) + items[|items| - 1].price.amount * items[|items| - 1].quantity.value
  }

  /**
   * What Basket.Total computes: zero dollars for an empty basket; otherwise the sum of the
   * subtotals in the first item's currency, or a currency mismatch if any item differs.
   */
  function BasketTotal(items: seq<BasketItem>): Result<Money> {
    if items == [] then Ok(Money(0, "USD"))
    else if AllInCurrency(items, items[0].price.currency) then Ok(Money(SumSubtotals(items), items[0].price.currency))
    else Err(CurrencyMismatch)
  }

  /** The fields of a basket. */
  datatype BasketData = BasketData(id: string, items: seq<BasketItem>, createdAt: int, updatedAt: int)

  /** A new empty basket; the fresh identifier and the time are parameters. */
  function NewBasket(id: string, now: int): (b: BasketData)
    ensures b.id == id && b.items == [] && WellFormed(b.items)
    ensures b.createdAt == b.updatedAt == now
  {
    BasketData(id, [], now, now)
  }

  class Basket {
    var id: string
    var items: seq<BasketItem>
    var createdAt: int
    var updatedAt: int

    ghost predicate Valid()
      reads this
    {
      WellFormed(items)
    }

    function Data(): BasketData
      reads this
    {
      BasketData(id, items, createdAt, updatedAt)
    }

    /** Rebuilds a basket from stored fields. */
    constructor Reconstruct(d: BasketData)
      ensures Data() == d
    {
      id, items, createdAt, updatedAt := d.id, d.items, d.createdAt, d.updatedAt;
    }

    method AddItem(productID: string, quantity: Quantity, price: Money, now: int) returns (r: Outcome)
      modifies this
      ensures old(Valid()) ==> Valid()
      ensures var a := AddItemTo(old(items), productID, quantity, price);
        && r == (if a.Ok? then Pass else Fail(a.error))
        && Data() == if a.Ok? then old(Data()).(items := a.value, updatedAt := now) else old(Data())
    {
      if Valid() {
        AddKeepsWellFormed(items, productID, quantity, price);
      }
      var i := 0;
      while i < |items|
        invariant 0 <= i <= |items|
        invariant unchanged(this)
        invariant forall j :: 0 <= j < i ==> items[j].productID != productID
      {
        if items[i].productID == productID {
          assert IndexOf(items, productID) == i;
          var newQuantity := QuantityValue.Add(items[i].quantity, quantity).value;  // Quantity.Add is total
          var newItem := NewBasketItem(productID, Some(newQuantity), Some(price));
          if newItem.Err? {
            return Fail(newItem.error);
          }
          items := items[i := newItem.value];
          updatedAt := now;
          return Pass;
        }
        i := i + 1;
      }
      assert IndexOf(items, productID) < 0;
      var item := NewBasketItem(productID, Some(quantity), Some(price));
      if item.Err? {
        return Fail(item.error);
      }
      items := items + [item.value];
      updatedAt := now;
      return Pass;
    }

    method RemoveItem(productID: string, now: int) returns (r: Outcome)
      modifies this
      ensures old(Valid()) ==> Valid()
      ensures var a := RemoveItemFrom(old(items), productID);
        && r == (if a.Ok? then Pass else Fail(a.error))
        && Data() == if a.Ok? then old(Data()).(items := a.value, updatedAt := now) else old(Data())
    {
      if Valid() {
        RemoveItemKeepsWellFormed(items, productID);
      }
      var i := 0;
      while i < |items|
        invariant 0 <= i <= |items|
        invariant unchanged(this)
        invariant forall j :: 0 <= j < i ==> items[j].productID != productID
      {
        if items[i].productID == productID {
          assert IndexOf(items, productID) == i;
          items := RemoveAt(items, i);
          updatedAt := now;
          return Pass;
        }
        i := i + 1;
      }
      assert IndexOf(items, productID) < 0;
      return Fail(ItemNotFound);
    }

    method UpdateItemQuantity(productID: string, quantity: Quantity, now: int) returns (r: Outcome)
      modifies this
      ensures old(Valid()) ==> Valid()
      ensures var a := UpdateQuantityIn(old(items), productID, quantity);
        && r == (if a.Ok? then Pass else Fail(a.error))
        && Data() == if a.Ok? then old(Data()).(items := a.value, updatedAt := now) else old(Data())
    {
      if IsZero(quantity) {
        r := RemoveItem(productID, now);
        return;
      }
      if Valid() {
        OperationsKeepWellFormed(items, productID, quantity, Money(0, "USD"));
      }
      var i := 0;
      while i < |items|
        invariant 0 <= i <= |items|
        invariant unchanged(this)
        invariant forall j :: 0 <= j < i ==> items[j].productID != productID
      {
        if items[i].productID == productID {
          assert IndexOf(items, productID) == i;
          var newItem := NewBasketItem(productID, Some(quantity), Some(items[i].price));
          if newItem.Err? {
            return Fail(newItem.error);
          }
          items := items[i := newItem.value];
          updatedAt := now;
          return Pass;
        }
        i := i + 1;
      }
      assert IndexOf(items, productID) < 0;
      return Fail(ItemNotFound);
    }

    method Clear(now: int)
      modifies this
      ensures Valid() && IsEmpty()
      ensures Data() == old(Data()).(items := [], updatedAt := now)
    {
      items := [];
      updatedAt := now;
    }

    function IsEmpty(): (r: bool)
      reads this
      ensures r <==> items == []
    {
      |items| == 0
    }

    /** Sums the subtotals with Money.Add, stopping at the first currency mismatch. */
    method Total() returns (r: Result<Money>)
      ensures r == BasketTotal(items)
    {
      if IsEmpty() {
        return NewMoney(0, "USD");
      }
      var currency := items[0].price.currency;
      var total := NewMoney(0, currency).value;  // cannot fail: currencies are non-empty
      var i := 0;
      while i < |items|
        invariant 0 <= i <= |items|
        invariant AllInCurrency(items[..i], currency)
        invariant total == Money(SumSubtotals(items[..i]), currency)
      {
        var subtotal := Subtotal(items[i]).value;  // cannot fail: quantities are non-negative
        var sum := MoneyValue.Add(total, subtotal);
        if sum.Err? {
          assert items[i].price.currency != currency;
          return sum;
        }
        assert items[..i + 1][..i] == items[..i];
        total := sum.value;
        i := i + 1;
      }
      assert items[..i] == items;
      return Ok(total);
    }

    /** Total number of units over all items. */
    method ItemCount() returns (count: nat)
      ensures count == SumQuantities(items)
    {
      count := 0;
      var i := 0;
      while i < |items|
        invariant 0 <= i <= |items|
        invariant count == SumQuantities(items[..i])
      {
        assert items[..i + 1][..i] == items[..i];
        count := count + items[i].quantity.value;
        i := i + 1;
      }
      assert items[..i] == items;
    }
  }
}
