/** The table ordering screen reached from a QR code
    (`client/src/pages/kitchen/KitchenPage.tsx`). Adding to the cart and changing a
    quantity are the counter screen's handlers (`PosMenu.HandleAddToCart`,
    `PosCart.HandleQuantityChange`), repeated in this file with the same code; what is
    its own is the per-category listing and the checkout body. */
module KitchenPage {
  import opened Wrappers
  import opened Seqs
  import opened Catalog
  import opened Payloads
  import opened CartContext

  function Available(): MenuItem -> bool { (item: MenuItem) => item.isAvailable }
  function InCategory(categoryId: string): MenuItem -> bool
  {
    (item: MenuItem) => item.categoryId == Some(categoryId)
  }
  function AvailableIn(categoryId: string): MenuItem -> bool
  {
    (item: MenuItem) => item.isAvailable && item.categoryId == Some(categoryId)
  }

  /** `getItemsByCategory`: the category's items among the available ones. */
  function ItemsByCategory(allItems: seq<MenuItem>, categoryId: string): seq<MenuItem>
  {
    Filter(Filter(allItems, Available()), InCategory(categoryId))
  }

  /** A tab lists exactly the available items of its category, in menu order. */
  lemma ItemsByCategoryExact(allItems: seq<MenuItem>, categoryId: string)
    ensures ItemsByCategory(allItems, categoryId) == Filter(allItems, AvailableIn(categoryId))
    ensures var r := ItemsByCategory(allItems, categoryId);
      IsSubsequence(r, allItems) &&
      (forall k :: 0 <= k < |r| ==> r[k].isAvailable && r[k].categoryId == Some(categoryId)) &&
      (forall k :: 0 <= k < |allItems| && allItems[k].isAvailable && allItems[k].categoryId == Some(categoryId) ==>
        allItems[k] in r)
  {
    FilterFilter(allItems, Available(), InCategory(categoryId), AvailableIn(categoryId));
    FilterIsSubsequence(allItems, AvailableIn(categoryId));
  }

  /** The guest's name as typed; an empty one is sent as 'Guest'. */
  function NameOrGuest(name: string): (r: string)
    ensures r != ""
    ensures name != "" ==> r == name
  {
    if name == "" then "Guest" else name
  }

  /** A checkout item as the page builds it: `price` is the LINE TOTAL in decimal text. */
  function CheckoutItem(item: CartItem): ItemBody
  {
    ItemBody(Some(JString(item.menuItem.id)), Some(JNumber(item.quantity as real)),
      Some(JNumeral(item.totalPrice)), Some(JString(OrEmpty(item.specialInstructions))))
  }

  /** A checkout item with `price` the unit price, as a number, which is what the server
      expects. */
  function CorrectedCheckoutItem(item: CartItem): ItemBody
  {
    ItemBody(Some(JString(item.menuItem.id)), Some(JNumber(item.quantity as real)),
      Some(JNumber(item.unitPrice)), Some(JString(OrEmpty(item.specialInstructions))))
  }

  function CheckoutHeader(state: CartState, customerName: string, tableId: string): OrderBody
  {
    OrderBody(Some(JString(NameOrGuest(customerName))), None, None,
      Some(JNumber(state.subtotal)), Some(JNumber(state.tax)), Some(JNumber(state.total)),
      Some(JString("cash")), None, Some(JString("Table: " + tableId)), Some(JString("customer-online")))
  }

  /** `handleCheckout` as written: nothing for an empty cart. */
  function Checkout(state: CartState, customerName: string, tableId: string): Option<CustomerOrderBody>
  {
    if state.items == [] then None
    else Some(CustomerOrderBody(Some(CheckoutHeader(state, customerName, tableId)),
      Some(Map(state.items, CheckoutItem))))
  }

  /** `handleCheckout` with the unit price sent as a number. */
  function CorrectedCheckout(state: CartState, customerName: string, tableId: string): Option<CustomerOrderBody>
  {
    if state.items == [] then None
    else Some(CustomerOrderBody(Some(CheckoutHeader(state, customerName, tableId)),
      Some(Map(state.items, CorrectedCheckoutItem))))
  }

  /** Checkout sends nothing exactly when the cart is empty. Otherwise the body names the
      guest ('Guest' when no name was typed), says which table in its notes, is a cash
      online order with the cart's totals and no status, email or phone, and has one
      item per cart line, in order, with the line's menu item and quantity. */
  lemma CheckoutContents(state: CartState, customerName: string, tableId: string)
    ensures Checkout(state, customerName, tableId).None? <==> state.items == []
    ensures CorrectedCheckout(state, customerName, tableId).None? <==> state.items == []
    ensures state.items != [] ==>
      var o := Checkout(state, customerName, tableId).value.order.value;
      o.customerName == Some(JString(if customerName == "" then "Guest" else customerName)) &&
      o.notes == Some(JString("Table: " + tableId)) &&
      o.paymentMethod == Some(JString("cash")) && o.orderType == Some(JString("customer-online")) &&
      o.subtotal == Some(JNumber(state.subtotal)) && o.tax == Some(JNumber(state.tax)) &&
      o.total == Some(JNumber(state.total)) &&
      o.status == None && o.customerEmail == None && o.customerPhone == None
    ensures state.items != [] ==>
      var items := Checkout(state, customerName, tableId).value.items.value;
      |items| == |state.items| &&
      forall k :: 0 <= k < |items| ==>
        items[k].menuItemId == Some(JString(state.items[k].menuItem.id)) &&
        items[k].quantity == Some(JNumber(state.items[k].quantity as real)) &&
        items[k].price == Some(JNumeral(state.items[k].totalPrice))
  {
  }
}
