/**
 * The catalog entity (backend/domain/entity/product.go). The Go struct is modelled by the
 * class Product, whose methods update its fields in place; ProductData is the value of those
 * fields, which is what a repository stores and what NewProduct builds.
 */
module ProductEntity {
  import opened Outcomes
  import opened MoneyValue
  import opened QuantityValue

  /** The fields of a product. Timestamps are abstract clock readings. */
  datatype ProductData = ProductData(
    id: string,
    name: string,
    description: string,
    price: Money,
    stock: Quantity,
    createdAt: int,
    updatedAt: int)

  /**
   * Builds a new product. The fresh identifier and the current time are parameters;
   * a missing price or stock (nil in Go) is None.
   */
  function NewProduct(id: string, name: string, description: string,
                      price: Option<Money>, stock: Option<Quantity>, now: int): (r: Result<ProductData>)
    ensures r.Ok? <==> name != "" && price.Some? && stock.Some?
    ensures name == "" ==> r == Err(EmptyProductName)
    ensures name != "" && price.None? ==> r == Err(NilProductPrice)
    ensures name != "" && price.Some? && stock.None? ==> r == Err(NilProductStock)
    ensures r.Ok? ==> r.value == ProductData(id, name, description, price.value, stock.value, now, now)
    ensures r.Ok? ==> r.value.createdAt == r.value.updatedAt
  {
    if name == "" then Err(EmptyProductName)
    else if price.None? then Err(NilProductPrice)
    else if stock.None? then Err(NilProductStock)
    else Ok(ProductData(id, name, description, price.value, stock.value, now, now))
  }

  class Product {
    var id: string
    var name: string
    var description: string
    var price: Money
    var stock: Quantity
    var createdAt: int
    var updatedAt: int

    /** The current field values. */
    function Data(): ProductData
      reads this
    {
      ProductData(id, name, description, price, stock, createdAt, updatedAt)
    }

    /** Rebuilds a product from stored fields, without validation. */
    constructor Reconstruct(d: ProductData)
      ensures Data() == d
    {
      id, name, description := d.id, d.name, d.description;
      price, stock := d.price, d.stock;
      createdAt, updatedAt := d.createdAt, d.updatedAt;
    }

    /** Replaces name, description and price; an empty name or a missing price changes nothing. */
    method UpdateDetails(newName: string, newDescription: string, newPrice: Option<Money>, now: int)
      returns (r: Outcome)
      modifies this
      ensures r.Pass? <==> newName != "" && newPrice.Some?
      ensures newName == "" ==> r == Fail(EmptyProductName)
      ensures newName != "" && newPrice.None? ==> r == Fail(NilProductPrice)
      ensures Data() == if r.Pass?
        then old(Data()).(name := newName, description := newDescription, price := newPrice.value, updatedAt := now)
        else old(Data())
    {
      if newName == "" {
        return Fail(EmptyProductName);
      }
      if newPrice.None? {
        return Fail(NilProductPrice);
      }
      name := newName;
      description := newDescription;
      price := newPrice.value;
      updatedAt := now;
      return Pass;
    }

    /** Replaces the stock wholesale; a missing stock changes nothing. */
    method UpdateStock(newStock: Option<Quantity>, now: int) returns (r: Outcome)
      modifies this
      ensures r.Pass? <==> newStock.Some?
      ensures r.Fail? ==> r.error == NilProductStock
      ensures Data() == if r.Pass?
        then old(Data()).(stock := newStock.value, updatedAt := now)
        else old(Data())
    {
      if newStock.None? {
        return Fail(NilProductStock);
      }
      stock := newStock.value;
      updatedAt := now;
      return Pass;
    }

    /** Takes quantity units out of stock; asking for more than there is changes nothing. */
    method ReduceStock(quantity: Quantity, now: int) returns (r: Outcome)
      modifies this
      ensures r.Pass? <==> quantity.value <= old(stock.value)
      ensures r.Fail? ==> r.error == InsufficientStock
      ensures Data() == if r.Pass?
        then old(Data()).(stock := Quantity(old(stock.value) - quantity.value), updatedAt := now)
        else old(Data())
    {
      var newStock := Subtract(stock, quantity);
      if newStock.Err? {
        return Fail(InsufficientStock);
      }
      stock := newStock.value;
      updatedAt := now;
      return Pass;
    }

    /** A product is available while some stock is left. */
    function IsAvailable(): (r: bool)
      reads this
      ensures r <==> stock.value > 0
    {
      !IsZero(stock)
    }
  }
}
