/** Error values and the result wrappers every layer returns instead of Go's (value, error) pairs. */
module Outcomes {

  /**
   * One constructor per check that can fail, named after the check rather than its message:
   * the same check repeated in two places (basket and order item validation, a product's
   * creation and its update) shares a constructor, while two different checks that happen to
   * print the same message (Quantity's own range check and the basket service's request check,
   * both "quantity cannot be negative") get one each.
   */
  datatype Error =
    // value objects
    | NegativeAmount          // Money: amount below zero
    | EmptyCurrency           // Money: empty currency code
    | CurrencyMismatch        // Money.Add on two currencies
    | NegativeMultiplier      // Money.Multiply by a negative quantity
    | NegativeQuantity        // Quantity: value below zero
    | NegativeResult          // Quantity.Subtract would go below zero
    // product entity
    | EmptyProductName
    | NilProductPrice
    | NilProductStock
    | InsufficientStock
    // basket and order items
    | EmptyProductID
    | QuantityNotPositive
    | NilItemPrice
    | ItemNotFound
    // order entity
    | EmptyOrder
    | NotPending              // Confirm from a status other than PENDING
    | NotConfirmed            // Ship from a status other than CONFIRMED
    | NotShipped              // Deliver from a status other than SHIPPED
    | AlreadyDelivered
    | AlreadyCancelled
    // repositories
    | ProductNotFound
    | BasketNotFound
    | OrderNotFound
    // services
    | BasketIDRequired
    | EmptyBasketCheckout
    | InsufficientStockFor(productName: string)
    | ProductNameRequired
    | NegativePrice
    | NegativeStock
    | ProductIDRequired
    | RequestedQuantityNotPositive
    | RequestedQuantityNegative
    | StockBelowRequest       // the basket service's stock guard

  datatype Option<T> = None | Some(value: T)

  /** A value or the error that stopped its computation. */
  datatype Result<T> = Ok(value: T) | Err(error: Error)

  /** The outcome of an operation that returns only an error (Go's bare `error`). */
  datatype Outcome = Pass | Fail(error: Error)
}
