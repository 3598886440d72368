/**
 * The basket service (backend/application/service/basket_service.go): stock-guarded edits of
 * stored baskets. Each operation loads a basket from the basket repository, edits it through
 * the Basket entity, writes it back and renders the response (toBasketResponse), whose
 * shape is the one of backend/application/dto/basket_dto.go.
 */
module Shopping {
  import opened Outcomes
  import opened MoneyValue
  import opened QuantityValue
  import opened ProductEntity
  import opened BasketEntity
  import opened Repositories

  datatype BasketItemResponse = BasketItemResponse(
    productID: string, quantity: nat, price: nat, currency: string, subtotal: nat)

  datatype BasketResponse = BasketResponse(
    id: string,
    items: seq<BasketItemResponse>,
    total: nat,
    currency: string,
    itemCount: nat,
    createdAt: int,
    updatedAt: int)

  function ItemResponse(item: BasketItem): BasketItemResponse {
    BasketItemResponse(item.productID, item.quantity.value, item.price.amount, item.price.currency,
                       item.price.amount * item.quantity.value)
  }

  /** One response line per item, in basket order. */
  function ItemResponses(items: seq<BasketItem>): (r: seq<BasketItemResponse>)
    ensures |r| == |items|
    ensures forall i :: 0 <= i < |items| ==> r[i] == ItemResponse(items[i])
  {
    if items == [] then [] else ItemResponses(items[..|items| - 1]) + [ItemResponse(items[|items| - 1])]
  }

  /**
   * What toBasketResponse renders: the lines, the basket's total, the currency ("USD" for an
   * empty basket, else the first item's) and the unit count; a basket whose total fails fails.
   */
  function ResponseOf(d: BasketData): Result<BasketResponse> {
    match BasketTotal(d.items)
    case Err(e) => Err(e)
    case Ok(total) =>
      var currency := if d.items == [] then "USD" else d.items[0].price.currency;
      Ok(BasketResponse(d.id, ItemResponses(d.items), total.amount, currency, SumQuantities(d.items),
                        d.createdAt, d.updatedAt))
  }

  function SumLineSubtotals(lines: seq<BasketItemResponse>): nat {
    if lines == [] then 0 else SumLineSubtotals(lines[..|lines| - 1]) + lines[|lines| - 1].subtotal
  }

  lemma {:induction false} LineSubtotalsAddUp(items: seq<BasketItem>)
    ensures SumLineSubtotals(ItemResponses(items)) == SumSubtotals(items)
  {
    if items != [] {
      var lines := ItemResponses(items);
      assert lines[..|lines| - 1] == ItemResponses(items[..|items| - 1]);
      LineSubtotalsAddUp(items[..|items| - 1]);
    }
  }

  /**
   * A response exists exactly when the basket is single-currency; its total is the sum of its
   * lines' subtotals, and its separately chosen currency is the total's currency.
   */
  lemma ResponseAgreesWithTotal(d: BasketData)
    ensures ResponseOf(d).Ok? <==> d.items == [] || AllInCurrency(d.items, d.items[0].price.currency)
    ensures ResponseOf(d).Err? ==> ResponseOf(d).error == CurrencyMismatch
    ensures ResponseOf(d).Ok? ==>
      var resp := ResponseOf(d).value;
      && BasketTotal(d.items) == Ok(Money(resp.total, resp.currency))
      && resp.total == SumLineSubtotals(resp.items)
      && resp.itemCount == SumQuantities(d.items)
  {
    LineSubtotalsAddUp(d.items);
  }

  /** The stock guard of the add and update services: the product's stock covers the requested quantity. */
  predicate StockCovers(product: ProductData, quantity: int) {
    product.stock.value >= quantity
  }

  /**
   * The guard looks at the requested quantity alone, never at what the basket already holds:
   * every request it admits for a product already in the basket is added on top of the held
   * units, so the line ends up above the stock whenever held plus requested exceeds it.
   */
  lemma StockGuardIgnoresBasketQuantity(items: seq<BasketItem>, product: ProductData, quantity: int)
    requires WellFormed(items) && product.id in IDs(items)
    requires quantity > 0 && StockCovers(product, quantity)
    ensures var k, added := IndexOf(items, product.id), AddItemTo(items, product.id, Quantity(quantity), product.price);
      && 0 <= k && added.Ok?
      && added.value[k].quantity.value == items[k].quantity.value + quantity
      && (items[k].quantity.value + quantity > product.stock.value <==> !StockCovers(product, added.value[k].quantity.value))
  {
    AddExistingItem(items, product.id, Quantity(quantity), product.price);
  }

  class BasketService {
    const baskets: BasketRepository
    const products: ProductRepository

    /** Rows under their own ids; stored baskets have distinct, valid items (backed by the schema's unique key). */
    ghost predicate Valid()
      reads this, baskets, products
    {
      && baskets.Valid() && products.Valid()
      && forall id :: id in baskets.rows ==> WellFormed(baskets.rows[id].items)
    }

    constructor (baskets: BasketRepository, products: ProductRepository)
      ensures this.baskets == baskets && this.products == products
    {
      this.baskets := baskets;
      this.products := products;
    }

    /** Renders a basket: one line per item, then Total, the currency and ItemCount. */
    method ToBasketResponse(b: Basket) returns (r: Result<BasketResponse>)
      ensures r == ResponseOf(b.Data())
    {
      var lines: seq<BasketItemResponse> := [];
      var i := 0;
      while i < |b.items|
        invariant 0 <= i <= |b.items|
        invariant lines == ItemResponses(b.items[..i])
      {
        var item := b.items[i];
        var subtotal := Subtotal(item).value;  // cannot fail: quantities are non-negative
        assert b.items[..i + 1][..i] == b.items[..i];
        lines := lines + [BasketItemResponse(item.productID, item.quantity.value, item.price.amount,
                                             item.price.currency, subtotal.amount)];
        i := i + 1;
      }
      assert b.items[..i] == b.items;
      var total := b.Total();
      if total.Err? {
        return Err(total.error);
      }
      var currency := "USD";
      if |b.items| > 0 {
        currency := b.items[0].price.currency;
      }
      var count := b.ItemCount();
      return Ok(BasketResponse(b.id, lines, total.value.amount, currency, count, b.createdAt, b.updatedAt));
    }

    /** Stores a new empty basket under the given fresh id. */
    method CreateBasket(id: string, now: int) returns (r: Result<BasketResponse>)
      requires Valid()
      modifies baskets
      ensures Valid()
      ensures baskets.rows == old(baskets.rows)[id := NewBasket(id, now)]
      ensures r == Ok(BasketResponse(id, [], 0, "USD", 0, now, now))
    {
      var basket := new Basket.Reconstruct(NewBasket(id, now));
      baskets.Save(basket);
      r := ToBasketResponse(basket);
    }

    method GetBasket(id: string) returns (r: Result<BasketResponse>)
      ensures id !in baskets.rows ==> r == Err(BasketNotFound)
      ensures id in baskets.rows ==> r == ResponseOf(baskets.rows[id])
    {
      var found := baskets.FindByID(id);
      if found.Err? {
        return Err(found.error);
      }
      r := ToBasketResponse(found.value);
    }

    /** The requests AddItem accepts: all checks pass, in the order the service makes them. */
    ghost predicate AddAccepted(basketID: string, productID: string, quantity: int)
      reads this, baskets, products
    {
      && productID != "" && quantity > 0
      && basketID in baskets.rows && productID in products.rows
      && StockCovers(products.rows[productID], quantity)
    }

    /**
     * Adds quantity units of a product to a stored basket at the product's current price.
     * The request is validated before any lookup; the stock guard looks at the requested
     * quantity alone. The basket is stored before the response is rendered, so a response
     * error (mixed currencies) comes after the change.
     */
    method AddItem(basketID: string, productID: string, quantity: int, now: int) returns (r: Result<BasketResponse>)
      requires Valid()
      modifies baskets
      ensures Valid()
      ensures productID == "" ==> r == Err(ProductIDRequired)
      ensures productID != "" && quantity <= 0 ==> r == Err(RequestedQuantityNotPositive)
      ensures productID != "" && quantity > 0 && basketID !in old(baskets.rows) ==> r == Err(BasketNotFound)
      ensures productID != "" && quantity > 0 && basketID in old(baskets.rows) && productID !in products.rows
        ==> r == Err(ProductNotFound)
      ensures productID != "" && quantity > 0 && basketID in old(baskets.rows) && productID in products.rows
              && products.rows[productID].stock.value < quantity
        ==> r == Err(StockBelowRequest)
      ensures !old(AddAccepted(basketID, productID, quantity)) ==> baskets.rows == old(baskets.rows)
      ensures old(AddAccepted(basketID, productID, quantity)) ==>
        var b := old(baskets.rows)[basketID];
        var items := AddItemTo(b.items, productID, Quantity(quantity), products.rows[productID].price);
        && items.Ok?
        && baskets.rows == old(baskets.rows)[basketID := b.(items := items.value, updatedAt := now)]
        && r == ResponseOf(baskets.rows[basketID])
    {
      if productID == "" {
        return Err(ProductIDRequired);
      }
      if quantity <= 0 {
        return Err(RequestedQuantityNotPositive);
      }
      var foundBasket := baskets.FindByID(basketID);
      if foundBasket.Err? {
        return Err(foundBasket.error);
      }
      var basket := foundBasket.value;
      var foundProduct := products.FindByID(productID);
      if foundProduct.Err? {
        return Err(foundProduct.error);
      }
      var product := foundProduct.value;
      var requested := NewQuantity(quantity).value;  // cannot fail: quantity > 0
      if product.stock.value < quantity {
        return Err(StockBelowRequest);
      }
      var added := basket.AddItem(product.id, requested, product.price, now);
      assert added.Pass?;  // the id is non-empty and the quantity positive
      var written := baskets.Update(basket);
      assert written.Pass?;  // the basket was just found under its own id
      r := ToBasketResponse(basket);
    }

    /** Removes a product's line from a stored basket. */
    method RemoveItem(basketID: string, productID: string, now: int) returns (r: Result<BasketResponse>)
      requires Valid()
      modifies baskets
      ensures Valid()
      ensures basketID !in old(baskets.rows) ==> r == Err(BasketNotFound) && baskets.rows == old(baskets.rows)
      ensures basketID in old(baskets.rows) ==>
        var b := old(baskets.rows)[basketID];
        var items := RemoveItemFrom(b.items, productID);
        if items.Err? then r == Err(items.error) && baskets.rows == old(baskets.rows)
        else && baskets.rows == old(baskets.rows)[basketID := b.(items := items.value, updatedAt := now)]
             && r == ResponseOf(baskets.rows[basketID])
    {
      var found := baskets.FindByID(basketID);
      if found.Err? {
        return Err(found.error);
      }
      var basket := found.value;
      var removed := basket.RemoveItem(productID, now);
      if removed.Fail? {
        return Err(removed.error);
      }
      var written := baskets.Update(basket);
      assert written.Pass?;  // the basket was just found under its own id
      r := ToBasketResponse(basket);
    }

    /** The requests UpdateItemQuantity gets past its checks, up to the entity call. */
    ghost predicate UpdateAccepted(basketID: string, productID: string, quantity: int)
      reads this, baskets, products
    {
      && quantity >= 0 && basketID in baskets.rows
      && (quantity > 0 ==> productID in products.rows && StockCovers(products.rows[productID], quantity))
    }

    /**
     * Sets the quantity of a product's line. Zero removes the line without looking the product
     * up; a positive quantity must be in stock. A negative quantity is rejected first.
     */
    method UpdateItemQuantity(basketID: string, productID: string, quantity: int, now: int)
      returns (r: Result<BasketResponse>)
      requires Valid()
      modifies baskets
      ensures Valid()
      ensures quantity < 0 ==> r == Err(RequestedQuantityNegative)
      ensures quantity >= 0 && basketID !in old(baskets.rows) ==> r == Err(BasketNotFound)
      ensures quantity > 0 && basketID in old(baskets.rows) && productID !in products.rows ==> r == Err(ProductNotFound)
      ensures quantity > 0 && basketID in old(baskets.rows) && productID in products.rows
              && products.rows[productID].stock.value < quantity
        ==> r == Err(StockBelowRequest)
      ensures !old(UpdateAccepted(basketID, productID, quantity)) ==> baskets.rows == old(baskets.rows)
      ensures old(UpdateAccepted(basketID, productID, quantity)) ==>
        var b := old(baskets.rows)[basketID];
        var items := UpdateQuantityIn(b.items, productID, Quantity(quantity));
        if items.Err? then r == Err(items.error) && baskets.rows == old(baskets.rows)
        else && baskets.rows == old(baskets.rows)[basketID := b.(items := items.value, updatedAt := now)]
             && r == ResponseOf(baskets.rows[basketID])
    {
      if quantity < 0 {
        return Err(RequestedQuantityNegative);
      }
      var found := baskets.FindByID(basketID);
      if found.Err? {
        return Err(found.error);
      }
      var basket := found.value;
      if quantity == 0 {
        var removed := basket.RemoveItem(productID, now);
        if removed.Fail? {
          return Err(removed.error);
        }
      } else {
        var foundProduct := products.FindByID(productID);
        if foundProduct.Err? {
          return Err(foundProduct.error);
        }
        var product := foundProduct.value;
        if product.stock.value < quantity {
          return Err(StockBelowRequest);
        }
        var newQuantity := NewQuantity(quantity).value;  // cannot fail: quantity > 0
        var updated := basket.UpdateItemQuantity(productID, newQuantity, now);
        if updated.Fail? {
          return Err(updated.error);
        }
      }
      var written := baskets.Update(basket);
      assert written.Pass?;  // the basket was just found under its own id
      r := ToBasketResponse(basket);
    }

    /** Empties a stored basket. */
    method ClearBasket(basketID: string, now: int) returns (r: Result<BasketResponse>)
      requires Valid()
      modifies baskets
      ensures Valid()
      ensures basketID !in old(baskets.rows) ==> r == Err(BasketNotFound) && baskets.rows == old(baskets.rows)
      ensures basketID in old(baskets.rows) ==>
        var b := old(baskets.rows)[basketID];
        && baskets.rows == old(baskets.rows)[basketID := b.(items := [], updatedAt := now)]
        && r == Ok(BasketResponse(basketID, [], 0, "USD", 0, b.createdAt, now))
    {
      var found := baskets.FindByID(basketID);
      if found.Err? {
        return Err(found.error);
      }
      var basket := found.value;
      basket.Clear(now);
      var written := baskets.Update(basket);
      assert written.Pass?;  // the basket was just found under its own id
      r := ToBasketResponse(basket);
    }
  }
}
