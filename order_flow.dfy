/** What the two public ordering screens send, read by the server's schema and item
    transform: the customer menu's bodies are accepted and stored at the right prices,
    while the table screen's bodies are refused. */
module OrderFlow {
  import opened Wrappers
  import opened Seqs
  import opened Payloads
  import opened Storage
  import opened Routes
  import CartContext
  import CustomerMenu
  import KitchenPage

  /** A body from the customer menu passes the schema; each stored item is the cart line's
      menu item and quantity, priced at the line's unit price, with a line total of price
      times quantity; the order keeps the page's totals and is a pending online order. */
  lemma CustomerMenuOrderAccepted(cart: seq<CustomerMenu.CartLine>, info: CustomerMenu.CustomerInfo,
                                  pay: CustomerMenu.PaymentMethod, notes: string)
    requires CustomerMenu.PlaceOrder(cart, info, pay, notes).Submit?
    ensures var body := CustomerMenu.PlaceOrder(cart, info, pay, notes).body;
      ParseCustomerOrderBody(body).Ok? &&
      ParseCustomerOrderBody(body).value.1 == ParseItems(Map(cart, CustomerMenu.ItemBodyOf)).value
    ensures var body := CustomerMenu.PlaceOrder(cart, info, pay, notes).body;
      ParseCustomerOrderBody(body).Ok? &&
      var o := ParseCustomerOrderBody(body).value.0;
      o.subtotal == CustomerMenu.CartTotals(cart).subtotal && o.total == CustomerMenu.CartTotals(cart).total &&
      o.status == "pending" && o.orderType == "customer-online"
  {
    var body := CustomerMenu.PlaceOrder(cart, info, pay, notes).body;
    var t := CustomerMenu.CartTotals(cart);
    var header := OrderBody(
      Some(JString(info.name)), Some(OrNull(info.email)), Some(OrNull(info.phone)),
      Some(JNumber(t.subtotal)), Some(JNumber(t.tax)), Some(JNumber(t.total)),
      Some(JString(CustomerMenu.PaymentMethodName(pay))), Some(JString("pending")),
      Some(OrNull(Some(notes))), Some(JString("customer-online")));
    assert body == CustomerOrderBody(Some(header), Some(Map(cart, CustomerMenu.ItemBodyOf)));
    CustomerMenuItemsAccepted(cart);
    CustomerMenuHeaderAccepted(header);
  }

  lemma CustomerMenuHeaderAccepted(header: OrderBody)
    requires header.customerName.Some? && header.customerName.value.JString?
    requires header.customerEmail.Some? && (header.customerEmail.value.JNull? || header.customerEmail.value.JString?)
    requires header.customerPhone.Some? && (header.customerPhone.value.JNull? || header.customerPhone.value.JString?)
    requires header.notes.Some? && (header.notes.value.JNull? || header.notes.value.JString?)
    requires header.subtotal.Some? && header.subtotal.value.JNumber?
    requires header.tax.Some? && header.tax.value.JNumber?
    requires header.total.Some? && header.total.value.JNumber?
    requires header.paymentMethod == Some(JString("cash")) || header.paymentMethod == Some(JString("card"))
    requires header.status == Some(JString("pending")) && header.orderType == Some(JString("customer-online"))
    ensures ParseOrder(header).Ok?
    ensures var o := ParseOrder(header).value;
      o.subtotal == header.subtotal.value.n && o.total == header.total.value.n &&
      o.status == "pending" && o.orderType == "customer-online"
  {
  }

  /** The customer menu's items pass the schema and are stored at the line's price, with
      a line total of price times quantity. */
  lemma CustomerMenuItemsAccepted(cart: seq<CustomerMenu.CartLine>)
    ensures ParseItems(Map(cart, CustomerMenu.ItemBodyOf)).Ok?
    ensures var stored := Map(ParseItems(Map(cart, CustomerMenu.ItemBodyOf)).value, TransformItem);
      |stored| == |cart| &&
      forall k :: 0 <= k < |cart| ==>
        stored[k].menuItemId == Some(cart[k].id) && stored[k].quantity == cart[k].quantity as real &&
        stored[k].unitPrice == cart[k].price && stored[k].totalPrice == CustomerMenu.LineAmount(cart[k])
  {
    var items := Map(cart, CustomerMenu.ItemBodyOf);
    forall k | 0 <= k < |items|
      ensures ParseItem(items[k]).Ok?
      ensures ParseItem(items[k]).value.menuItemId == cart[k].id
      ensures ParseItem(items[k]).value.quantity == cart[k].quantity as real
      ensures ParseItem(items[k]).value.price == cart[k].price
    {
      assert items[k] == CustomerMenu.ItemBodyOf(cart[k]);
    }
    var parsed := ParseItems(items);
    TransformedItems(parsed.value);
  }

  /** A table screen checkout with anything in the cart is refused by the schema: every
      item's `price` is a string. */
  lemma KitchenCheckoutRefused(state: CartContext.CartState, customerName: string, tableId: string)
    requires state.items != []
    ensures KitchenPage.Checkout(state, customerName, tableId).Some?
    ensures ParseCustomerOrderBody(KitchenPage.Checkout(state, customerName, tableId).value) == Err
  {
    var items := KitchenPage.Checkout(state, customerName, tableId).value.items.value;
    assert items[0] == KitchenPage.CheckoutItem(state.items[0]);
    assert ParseItem(items[0]) == Err;
  }

  /** With the unit price sent as a number, the same checkout is accepted, and for lines
      whose total is their unit price times their quantity (every line the cart keeps, by
      `CartContext.StepKeepsPriced`) the stored line totals are the cart's. */
  lemma CorrectedKitchenCheckoutStored(state: CartContext.CartState, customerName: string, tableId: string)
    requires state.items != []
    requires CartContext.AllPriced(state.items)
    ensures KitchenPage.CorrectedCheckout(state, customerName, tableId).Some?
    ensures var body := KitchenPage.CorrectedCheckout(state, customerName, tableId).value;
      ParseCustomerOrderBody(body).Ok? &&
      var stored := Map(ParseCustomerOrderBody(body).value.1, TransformItem);
      |stored| == |state.items| &&
      forall k :: 0 <= k < |stored| ==>
        stored[k].unitPrice == state.items[k].unitPrice && stored[k].totalPrice == state.items[k].totalPrice
    ensures var body := KitchenPage.CorrectedCheckout(state, customerName, tableId).value;
      ParseCustomerOrderBody(body).Ok? &&
      var o := ParseCustomerOrderBody(body).value.0;
      o.subtotal == state.subtotal && o.total == state.total && o.status == "pending" &&
      o.notes == Some("Table: " + tableId)
  {
    CorrectedKitchenItemsStored(state.items);
  }

  /** The corrected table screen items pass the schema and keep each line's unit price
      and, for priced lines, its total. */
  lemma CorrectedKitchenItemsStored(lines: seq<CartContext.CartItem>)
    requires CartContext.AllPriced(lines)
    ensures ParseItems(Map(lines, KitchenPage.CorrectedCheckoutItem)).Ok?
    ensures var stored := Map(ParseItems(Map(lines, KitchenPage.CorrectedCheckoutItem)).value, TransformItem);
      |stored| == |lines| &&
      forall k :: 0 <= k < |stored| ==>
        stored[k].unitPrice == lines[k].unitPrice && stored[k].totalPrice == lines[k].totalPrice
  {
    var items := Map(lines, KitchenPage.CorrectedCheckoutItem);
    forall k | 0 <= k < |items|
      ensures ParseItem(items[k]).Ok?
    {
      CorrectedKitchenItemStored(lines[k]);
    }
    var parsed := ParseItems(items).value;
    var stored := Map(parsed, TransformItem);
    forall k | 0 <= k < |stored|
      ensures stored[k].unitPrice == lines[k].unitPrice && stored[k].totalPrice == lines[k].totalPrice
    {
      assert stored[k] == TransformItem(ParseItem(KitchenPage.CorrectedCheckoutItem(lines[k])).value);
      CorrectedKitchenItemStored(lines[k]);
    }
  }

  lemma CorrectedKitchenItemStored(line: CartContext.CartItem)
    requires CartContext.Priced(line)
    ensures ParseItem(KitchenPage.CorrectedCheckoutItem(line)).Ok?
    ensures var t := TransformItem(ParseItem(KitchenPage.CorrectedCheckoutItem(line)).value);
      t.unitPrice == line.unitPrice && t.totalPrice == line.totalPrice
  {
  }

  /** Sending the line total as a number instead would be accepted but charged again: a
      line of `q` at unit price `u` (total `u * q`) would be stored with a total of
      `u * q * q`, and a unit price of `u * q`. */
  lemma LineTotalAsPriceMultipliedAgain(u: real, q: real)
    ensures var item := ItemBody(Some(JString("m")), Some(JNumber(q)), Some(JNumber(u * q)), Some(JString("")));
      ParseItem(item).Ok? && TransformItem(ParseItem(item).value).unitPrice == u * q &&
      TransformItem(ParseItem(item).value).totalPrice == u * q * q
  {
  }
}
