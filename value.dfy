/**
 * Value objects of the domain: the range-checked quantity and price of a
 * cart line, and the status of an outbox row.
 */
module Value {
  import opened Common

  // ---------------------------------------------------------------- Quantity

  const ErrQuantityInvalid: Error := Error(InvalidParameter, "quantity must be greater than 0")
  const ErrQuantityTooLarge: Error := Error(InvalidParameter, "quantity cannot exceed 1000")

  const MaxQuantity: int := 1000

  /** `type Quantity int`; only `NewQuantity` and `Add` validate. */
  datatype Quantity = Quantity(n: int) {
    function Int(): int { n }

    /** Adds and re-validates the sum through `NewQuantity`. */
    function Add(other: Quantity): (r: Result<Quantity>)
      ensures r.Success? <==> 1 <= Int() + other.Int() <= MaxQuantity
      ensures r.Success? ==> r.value.Int() == Int() + other.Int()
      ensures Int() + other.Int() > MaxQuantity ==> r == Failure(ErrQuantityTooLarge)
    {
      NewQuantity(Int() + other.Int())
    }
  }

  /** Accepts exactly 1..1000; the two error values tell which bound failed. */
  function NewQuantity(quantity: int): (r: Result<Quantity>)
    ensures r.Success? <==> 1 <= quantity <= MaxQuantity
    ensures r.Success? ==> r.value.Int() == quantity
    ensures quantity <= 0 ==> r == Failure(ErrQuantityInvalid)
    ensures quantity > MaxQuantity ==> r == Failure(ErrQuantityTooLarge)
  {
    if quantity <= 0 then Failure(ErrQuantityInvalid)
    else if quantity > MaxQuantity then Failure(ErrQuantityTooLarge)
    else Success(Quantity(quantity))
  }

  /** `Add` does not depend on the order of its operands. */
  lemma AddCommutes(a: Quantity, b: Quantity)
    ensures a.Add(b) == b.Add(a)
  {
  }

  // ------------------------------------------------------------------- Price

  const ErrPriceInvalid: Error := Error(InvalidParameter, "price must be greater than or equal to 0")
  const ErrPriceTooLarge: Error := Error(InvalidParameter, "price cannot exceed 1000000")

  const MaxPrice: real := 1000000.0

  /** `type Price float64`, modelled with exact reals. */
  datatype Price = Price(p: real) {
    function Float64(): real { p }
  }

  /** Accepts exactly 0..1000000, both bounds included. */
  function NewPrice(price: real): (r: Result<Price>)
    ensures r.Success? <==> 0.0 <= price <= MaxPrice
    ensures r.Success? ==> r.value.Float64() == price
    ensures price < 0.0 ==> r == Failure(ErrPriceInvalid)
    ensures price > MaxPrice ==> r == Failure(ErrPriceTooLarge)
  {
    if price < 0.0 then Failure(ErrPriceInvalid)
    else if price > MaxPrice then Failure(ErrPriceTooLarge)
    else Success(Price(price))
  }

  // ------------------------------------------------------------ OutboxStatus

  /** `type OutboxStatus string`: any text can be stored, four are named. */
  type OutboxStatus = string

  const Pending: OutboxStatus := "PENDING"
  const Processing: OutboxStatus := "PROCESSING"
  const Published: OutboxStatus := "PUBLISHED"
  const Failed: OutboxStatus := "FAILED"

  function StatusString(s: OutboxStatus): (r: string)
    ensures |r| == |s| && forall i :: 0 <= i < |s| ==> r[i] == s[i]
  {
    s
  }

  predicate IsPending(s: OutboxStatus) { s == Pending }
  predicate IsProcessing(s: OutboxStatus) { s == Processing }
  predicate IsPublished(s: OutboxStatus) { s == Published }
  predicate IsFailed(s: OutboxStatus) { s == Failed }

  /** The four named statuses are pairwise distinct. */
  lemma StatusesDistinct()
    ensures Pending != Processing && Pending != Published && Pending != Failed
    ensures Processing != Published && Processing != Failed
    ensures Published != Failed
  {
    assert Pending[0] == 'P' && Failed[0] == 'F';
    assert Processing[1] == 'R' && Published[1] == 'U' && Pending[1] == 'E';
  }

  /** At most one of the four status predicates holds for any text. */
  lemma AtMostOneStatusPredicate(s: OutboxStatus)
    ensures IsPending(s) ==> !IsProcessing(s) && !IsPublished(s) && !IsFailed(s)
    ensures IsProcessing(s) ==> !IsPublished(s) && !IsFailed(s)
    ensures IsPublished(s) ==> !IsFailed(s)
  {
    StatusesDistinct();
  }
}
