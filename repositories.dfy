/**
 * In-memory repositories behind the application services, after the map-backed mock of
 * backend/application/service/product_service_test.go. Each stores the field values of its
 * entities keyed by id; FindByID hands out a new entity object rebuilt from the stored row,
 * and Update writes an entity's fields back only when its id is already stored.
 */
module Repositories {
  import opened Outcomes
  import ProductEntity
  import BasketEntity
  import OrderEntity

  class ProductRepository {
    var rows: map<string, ProductEntity.ProductData>

    /** Every row is stored under its own id. */
    ghost predicate Valid()
      reads this
    {
      forall id :: id in rows ==> rows[id].id == id
    }

    constructor ()
      ensures rows == map[] && Valid()
    {
      rows := map[];
    }

    /** Stores the product under its id, replacing any row already there. */
    method Save(p: ProductEntity.Product)
      modifies this
      ensures rows == old(rows)[p.id := p.Data()]
      ensures old(Valid()) ==> Valid()
    {
      rows := rows[p.id := p.Data()];
    }

    method FindByID(id: string) returns (r: Result<ProductEntity.Product>)
      ensures r.Ok? <==> id in rows
      ensures r.Ok? ==> fresh(r.value) && r.value.Data() == rows[id]
      ensures r.Err? ==> r.error == ProductNotFound
    {
      if id !in rows {
        return Err(ProductNotFound);
      }
      var p := new ProductEntity.Product.Reconstruct(rows[id]);
      return Ok(p);
    }

    /** Writes the product back; an id that is not stored is an error and changes nothing. */
    method Update(p: ProductEntity.Product) returns (r: Outcome)
      modifies this
      ensures r.Pass? <==> p.id in old(rows)
      ensures r.Fail? ==> r.error == ProductNotFound
      ensures rows == if r.Pass? then old(rows)[p.id := p.Data()] else old(rows)
      ensures old(Valid()) ==> Valid()
    {
      if p.id !in rows {
        return Fail(ProductNotFound);
      }
      rows := rows[p.id := p.Data()];
      return Pass;
    }

    /** Removes the row; an id that is not stored is an error. */
    method Delete(id: string) returns (r: Outcome)
      modifies this
      ensures r.Pass? <==> id in old(rows)
      ensures r.Fail? ==> r.error == ProductNotFound
      ensures rows == old(rows) - {id}
      ensures old(Valid()) ==> Valid()
    {
      if id !in rows {
        return Fail(ProductNotFound);
      }
      rows := rows - {id};
      return Pass;
    }

    /** Whether a row is stored under the id; in a valid store, whether some stored entity has that id. */
    function ExistsByID(id: string): (b: bool)
      reads this
      ensures Valid() ==> (b <==> exists row :: row in rows.Values && row.id == id)
    {
      id in rows
    }
  }

  class BasketRepository {
    var rows: map<string, BasketEntity.BasketData>

    /** Every row is stored under its own id. */
    ghost predicate Valid()
      reads this
    {
      forall id :: id in rows ==> rows[id].id == id
    }

    constructor ()
      ensures rows == map[] && Valid()
    {
      rows := map[];
    }

    method Save(b: BasketEntity.Basket)
      modifies this
      ensures rows == old(rows)[b.id := b.Data()]
      ensures old(Valid()) ==> Valid()
    {
      rows := rows[b.id := b.Data()];
    }

    method FindByID(id: string) returns (r: Result<BasketEntity.Basket>)
      ensures r.Ok? <==> id in rows
      ensures r.Ok? ==> fresh(r.value) && r.value.Data() == rows[id]
      ensures r.Err? ==> r.error == BasketNotFound
    {
      if id !in rows {
        return Err(BasketNotFound);
      }
      var b := new BasketEntity.Basket.Reconstruct(rows[id]);
      return Ok(b);
    }

    method Update(b: BasketEntity.Basket) returns (r: Outcome)
      modifies this
      ensures r.Pass? <==> b.id in old(rows)
      ensures r.Fail? ==> r.error == BasketNotFound
      ensures rows == if r.Pass? then old(rows)[b.id := b.Data()] else old(rows)
      ensures old(Valid()) ==> Valid()
    {
      if b.id !in rows {
        return Fail(BasketNotFound);
      }
      rows := rows[b.id := b.Data()];
      return Pass;
    }

    method Delete(id: string) returns (r: Outcome)
      modifies this
      ensures r.Pass? <==> id in old(rows)
      ensures r.Fail? ==> r.error == BasketNotFound
      ensures rows == old(rows) - {id}
      ensures old(Valid()) ==> Valid()
    {
      if id !in rows {
        return Fail(BasketNotFound);
      }
      rows := rows - {id};
      return Pass;
    }

    /** Whether a row is stored under the id; in a valid store, whether some stored entity has that id. */
    function ExistsByID(id: string): (b: bool)
      reads this
      ensures Valid() ==> (b <==> exists row :: row in rows.Values && row.id == id)
    {
      id in rows
    }
  }

  class OrderRepository {
    var rows: map<string, OrderEntity.OrderData>

    /** Every row is stored under its own id. */
    ghost predicate Valid()
      reads this
    {
      forall id :: id in rows ==> rows[id].id == id
    }

    constructor ()
      ensures rows == map[] && Valid()
    {
      rows := map[];
    }

    method Save(o: OrderEntity.Order)
      modifies this
      ensures rows == old(rows)[o.id := o.Data()]
      ensures old(Valid()) ==> Valid()
    {
      rows := rows[o.id := o.Data()];
    }

    method FindByID(id: string) returns (r: Result<OrderEntity.Order>)
      ensures r.Ok? <==> id in rows
      ensures r.Ok? ==> fresh(r.value) && r.value.Data() == rows[id]
      ensures r.Err? ==> r.error == OrderNotFound
    {
      if id !in rows {
        return Err(OrderNotFound);
      }
      var o := new OrderEntity.Order.Reconstruct(rows[id]);
      return Ok(o);
    }

    method Update(o: OrderEntity.Order) returns (r: Outcome)
      modifies this
      ensures r.Pass? <==> o.id in old(rows)
      ensures r.Fail? ==> r.error == OrderNotFound
      ensures rows == if r.Pass? then old(rows)[o.id := o.Data()] else old(rows)
      ensures old(Valid()) ==> Valid()
    {
      if o.id !in rows {
        return Fail(OrderNotFound);
      }
      rows := rows[o.id := o.Data()];
      return Pass;
    }

    /** Whether a row is stored under the id; in a valid store, whether some stored entity has that id. */
    function ExistsByID(id: string): (b: bool)
      reads this
      ensures Valid() ==> (b <==> exists row :: row in rows.Values && row.id == id)
    {
      id in rows
    }
  }
}
