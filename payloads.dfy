/** The JSON body the public ordering screens send to `POST /api/customer-orders`.
    A key that the sender leaves out of an object is `None`. */
module Payloads {
  import opened Wrappers

  /** The JSON values the bodies carry. `JNumeral(n)` is the string `n.toString()`: a
      JSON string, not a number, whose text is the number's decimal form. */
  datatype Json = JNull | JBool(b: bool) | JNumber(n: real) | JString(s: string) | JNumeral(n: real)

  datatype OrderBody = OrderBody(
    customerName: Option<Json>,
    customerEmail: Option<Json>,
    customerPhone: Option<Json>,
    subtotal: Option<Json>,
    tax: Option<Json>,
    total: Option<Json>,
    paymentMethod: Option<Json>,
    status: Option<Json>,
    notes: Option<Json>,
    orderType: Option<Json>)

  datatype ItemBody = ItemBody(
    menuItemId: Option<Json>,
    quantity: Option<Json>,
    price: Option<Json>,
    notes: Option<Json>)

  datatype CustomerOrderBody = CustomerOrderBody(order: Option<OrderBody>, items: Option<seq<ItemBody>>)

  /** `s || null` for an optional string: a missing or empty string becomes `null`. */
  function OrNull(s: Option<string>): (j: Json)
    ensures j == JNull <==> (s == None || s == Some(""))
    ensures j != JNull ==> j == JString(s.value)
  {
    match s
    case Some(v) => if v == "" then JNull else JString(v)
    case None => JNull
  }

  /** `s || ''` for an optional string: a missing or empty string becomes `""`. */
  function OrEmpty(s: Option<string>): (r: string)
    ensures s.Some? ==> r == s.value
    ensures s.None? ==> r == ""
  {
    match s
    case Some(v) => v
    case None => ""
  }
}
