/**
 * The catalog service (backend/application/service/product_service.go): request validation
 * in front of the Product entity, with the product store as an in-memory repository.
 * Responses are the stored product fields, which is what toProductResponse copies out.
 */
module ProductCatalog {
  import opened Outcomes
  import opened MoneyValue
  import opened QuantityValue
  import opened ProductEntity
  import opened Repositories

  class ProductService {
    const repo: ProductRepository

    constructor (repo: ProductRepository)
      ensures this.repo == repo
    {
      this.repo := repo;
    }

    /**
     * Validates the request, builds the product with the given fresh id and time, and stores it.
     * The name is checked first, then the price, then the stock, then the currency.
     */
    method CreateProduct(name: string, description: string, price: int, currency: string, stock: int,
                         id: string, now: int) returns (r: Result<ProductData>)
      modifies repo
      ensures r.Ok? <==> name != "" && price >= 0 && stock >= 0 && currency != ""
      ensures name == "" ==> r == Err(ProductNameRequired)
      ensures name != "" && price < 0 ==> r == Err(NegativePrice)
      ensures name != "" && price >= 0 && stock < 0 ==> r == Err(NegativeStock)
      ensures name != "" && price >= 0 && stock >= 0 && currency == "" ==> r == Err(EmptyCurrency)
      ensures r.Ok? ==> && r.value == ProductData(id, name, description, Money(price, currency), Quantity(stock), now, now)
                        && repo.rows == old(repo.rows)[id := r.value]
      ensures r.Err? ==> repo.rows == old(repo.rows)
      ensures old(repo.Valid()) ==> repo.Valid()
    {
      if name == "" {
        return Err(ProductNameRequired);
      }
      if price < 0 {
        return Err(NegativePrice);
      }
      if stock < 0 {
        return Err(NegativeStock);
      }
      var money := NewMoney(price, currency);
      if money.Err? {
        return Err(money.error);
      }
      var quantity := NewQuantity(stock).value;  // cannot fail: stock >= 0
      var data := NewProduct(id, name, description, Some(money.value), Some(quantity), now).value;  // cannot fail: all present
      var product := new Product.Reconstruct(data);
      repo.Save(product);
      return Ok(product.Data());
    }

    method GetProduct(id: string) returns (r: Result<ProductData>)
      ensures r.Ok? <==> id in repo.rows
      ensures r.Ok? ==> r.value == repo.rows[id]
      ensures r.Err? ==> r.error == ProductNotFound
    {
      var found := repo.FindByID(id);
      if found.Err? {
        return Err(found.error);
      }
      return Ok(found.value.Data());
    }

    /**
     * Replaces name, description and price of a stored product. Name and price are checked
     * before the lookup; the currency only after it, when the new price is built.
     */
    method UpdateProduct(id: string, name: string, description: string, price: int, currency: string, now: int)
      returns (r: Result<ProductData>)
      requires repo.Valid()
      modifies repo
      ensures repo.Valid()
      ensures r.Ok? <==> name != "" && price >= 0 && id in old(repo.rows) && currency != ""
      ensures name == "" ==> r == Err(ProductNameRequired)
      ensures name != "" && price < 0 ==> r == Err(NegativePrice)
      ensures name != "" && price >= 0 && id !in old(repo.rows) ==> r == Err(ProductNotFound)
      ensures name != "" && price >= 0 && id in old(repo.rows) && currency == "" ==> r == Err(EmptyCurrency)
      ensures r.Ok? ==> && r.value == old(repo.rows)[id].(name := name, description := description,
                                                          price := Money(price, currency), updatedAt := now)
                        && repo.rows == old(repo.rows)[id := r.value]
      ensures r.Err? ==> repo.rows == old(repo.rows)
    {
      if name == "" {
        return Err(ProductNameRequired);
      }
      if price < 0 {
        return Err(NegativePrice);
      }
      var found := repo.FindByID(id);
      if found.Err? {
        return Err(found.error);
      }
      var product := found.value;
      var money := NewMoney(price, currency);
      if money.Err? {
        return Err(money.error);
      }
      var updated := product.UpdateDetails(name, description, Some(money.value), now);
      assert updated.Pass?;  // the name and the price were checked above
      var written := repo.Update(product);
      assert written.Pass?;  // the product was just found under its own id
      return Ok(product.Data());
    }

    /** Replaces the stock of a stored product with a non-negative count. */
    method UpdateStock(id: string, stock: int, now: int) returns (r: Result<ProductData>)
      requires repo.Valid()
      modifies repo
      ensures repo.Valid()
      ensures r.Ok? <==> stock >= 0 && id in old(repo.rows)
      ensures stock < 0 ==> r == Err(NegativeStock)
      ensures stock >= 0 && id !in old(repo.rows) ==> r == Err(ProductNotFound)
      ensures r.Ok? ==> && r.value == old(repo.rows)[id].(stock := Quantity(stock), updatedAt := now)
                        && repo.rows == old(repo.rows)[id := r.value]
      ensures r.Err? ==> repo.rows == old(repo.rows)
    {
      if stock < 0 {
        return Err(NegativeStock);
      }
      var found := repo.FindByID(id);
      if found.Err? {
        return Err(found.error);
      }
      var product := found.value;
      var quantity := NewQuantity(stock).value;  // cannot fail: stock >= 0
      var updated := product.UpdateStock(Some(quantity), now);
      assert updated.Pass?;
      var written := repo.Update(product);
      assert written.Pass?;  // the product was just found under its own id
      return Ok(product.Data());
    }

    /** Deletes a stored product; an unknown id is reported and changes nothing. */
    method DeleteProduct(id: string) returns (r: Outcome)
      modifies repo
      ensures r.Pass? <==> id in old(repo.rows)
      ensures r.Fail? ==> r.error == ProductNotFound
      ensures repo.rows == old(repo.rows) - {id}
      ensures id !in repo.rows
      ensures old(repo.Valid()) ==> repo.Valid()
    {
      if !repo.ExistsByID(id) {
        return Fail(ProductNotFound);
      }
      r := repo.Delete(id);
    }
  }
}
