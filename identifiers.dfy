/** ProductId, OrderId and CustomerId: frozen string wrappers that refuse blank values. */
module Identifiers {
  import opened Wrappers
  import opened Text

  datatype IdError = EmptyProductId | EmptyOrderId | EmptyCustomerId

  /** An id is compared by its value; `__str__` gives the value back. */
  datatype ProductId = ProductId(value: string) {
    function ToString(): string { value }
  }

  datatype OrderId = OrderId(value: string) {
    function ToString(): string { value }
  }

  datatype CustomerId = CustomerId(value: string) {
    function ToString(): string { value }
  }

  /** `ProductId(value)`: blank values raise; anything else is kept verbatim, untrimmed. */
  function NewProductId(value: string): (r: Result<ProductId, IdError>)
    ensures r.Ok? <==> !IsBlank(value)
    ensures r.Ok? ==> r.value.ToString() == value
    ensures r.Err? ==> r.error == EmptyProductId
  {
    if IsBlank(value) then Err(EmptyProductId) else Ok(ProductId(value))
  }

  /** `OrderId(value)`. */
  function NewOrderId(value: string): (r: Result<OrderId, IdError>)
    ensures r.Ok? <==> !IsBlank(value)
    ensures r.Ok? ==> r.value.ToString() == value
    ensures r.Err? ==> r.error == EmptyOrderId
  {
    if IsBlank(value) then Err(EmptyOrderId) else Ok(OrderId(value))
  }

  /** `CustomerId(value)`. */
  function NewCustomerId(value: string): (r: Result<CustomerId, IdError>)
    ensures r.Ok? <==> !IsBlank(value)
    ensures r.Ok? ==> r.value.ToString() == value
    ensures r.Err? ==> r.error == EmptyCustomerId
  {
    if IsBlank(value) then Err(EmptyCustomerId) else Ok(CustomerId(value))
  }

  /** Two ids built from strings are equal exactly when the strings are. */
  lemma IdsEqualByValue(s: string, t: string)
    requires !IsBlank(s) && !IsBlank(t)
    ensures NewProductId(s) == NewProductId(t) <==> s == t
    ensures NewOrderId(s) == NewOrderId(t) <==> s == t
    ensures NewCustomerId(s) == NewCustomerId(t) <==> s == t
  {
  }

  /** Leading and trailing spaces are not trimmed away. */
  lemma NotTrimmed()
    ensures NewProductId(" P1 ") == Ok(ProductId(" P1 "))
    ensures NewProductId("  ").Err? && NewProductId("").Err?
  {
    assert !IsWhitespace(" P1 "[1]);
    assert IsBlank("  ");
  }
}
