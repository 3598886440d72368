/**
 * Quantity: a non-negative count of units (backend/domain/value/quantity.go).
 * Every Go value is built by NewQuantity, so the non-negativity invariant is the field type.
 */
module QuantityValue {
  import opened Outcomes

  datatype Quantity = Quantity(value: nat)

  /** The validating constructor. */
  function NewQuantity(value: int): (r: Result<Quantity>)
    ensures r.Ok? <==> value >= 0
    ensures r.Ok? ==> r.value.value == value
    ensures r.Err? ==> r.error == NegativeQuantity
  {
    if value < 0 then Err(NegativeQuantity) else Ok(Quantity(value))
  }

  /** Adding two quantities never fails. */
  function Add(q: Quantity, other: Quantity): (r: Result<Quantity>)
    ensures r.Ok? && r.value.value == q.value + other.value
  {
    NewQuantity(q.value + other.value)
  }

  /** Taking away more than there is fails; otherwise the difference is returned. */
  function Subtract(q: Quantity, other: Quantity): (r: Result<Quantity>)
    ensures r.Ok? <==> other.value <= q.value
    ensures r.Ok? ==> r.value.value == q.value - other.value
    ensures r.Err? ==> r.error == NegativeResult
  {
    var result := q.value - other.value;
    if result < 0 then Err(NegativeResult) else NewQuantity(result)
  }

  /** Subtract undoes Add, and Add undoes a successful Subtract. */
  lemma AddSubtractInverse(q: Quantity, other: Quantity)
    ensures Subtract(Add(q, other).value, other) == Ok(q)
    ensures other.value <= q.value ==> Add(Subtract(q, other).value, other) == Ok(q)
  {
  }

  function IsZero(q: Quantity): (r: bool)
    ensures r <==> q == Quantity(0)
  {
    q.value == 0
  }

  function Equals(q: Quantity, other: Quantity): (r: bool)
    ensures r <==> q == other
  {
    q.value == other.value
  }
}
