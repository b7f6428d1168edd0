/** The counter ordering screen (`client/src/pages/orders/OrdersPage.tsx`): the staff
    order built from the shared cart, placing it, and the status badges of recent orders. */
module OrdersPage {
  import opened Wrappers
  import opened Seqs
  import opened Text
  import opened Payloads
  import opened CartContext
  import opened Ui

  datatype StaffOrderHeader = StaffOrderHeader(
    subtotal: real, tax: real, total: real, paymentMethod: string, orderType: string)

  /** One line of the staff order; the two prices are `toString()` of the numbers. */
  datatype StaffOrderItem = StaffOrderItem(
    menuItemId: string, quantity: int, unitPrice: Json, totalPrice: Json, specialInstructions: string)

  datatype StaffOrder = StaffOrder(order: StaffOrderHeader, items: seq<StaffOrderItem>)

  function StaffItem(item: CartItem): StaffOrderItem
  {
    StaffOrderItem(item.menuItem.id, item.quantity, JNumeral(item.unitPrice), JNumeral(item.totalPrice),
      OrEmpty(item.specialInstructions))
  }

  /** The `orderData` of `handlePlaceOrder`. */
  function OrderData(cart: CartState): StaffOrder
  {
    StaffOrder(StaffOrderHeader(cart.subtotal, cart.tax, cart.total, "cash", "counter"),
      Map(cart.items, StaffItem))
  }

  /** The order copies the cart's totals, is a cash counter order, and has one item per
      cart line, in order, with the line's menu item, quantity, prices in decimal text and
      instructions defaulting to the empty string. */
  lemma OrderDataContents(cart: CartState)
    ensures var d := OrderData(cart);
      d.order.subtotal == cart.subtotal && d.order.tax == cart.tax && d.order.total == cart.total &&
      d.order.paymentMethod == "cash" && d.order.orderType == "counter"
    ensures var d := OrderData(cart);
      |d.items| == |cart.items| &&
      forall k :: 0 <= k < |cart.items| ==>
        d.items[k].menuItemId == cart.items[k].menuItem.id &&
        d.items[k].quantity == cart.items[k].quantity &&
        d.items[k].unitPrice == JNumeral(cart.items[k].unitPrice) &&
        d.items[k].totalPrice == JNumeral(cart.items[k].totalPrice) &&
        (cart.items[k].specialInstructions.None? ==> d.items[k].specialInstructions == "") &&
        (cart.items[k].specialInstructions.Some? ==>
          d.items[k].specialInstructions == cart.items[k].specialInstructions.value)
  {
  }

  function NumeralValue(j: Json): real
  {
    match j
    case JNumeral(n) => n
    case JNumber(n) => n
    case _ => 0.0
  }

  function ItemTotal(i: StaffOrderItem): real { NumeralValue(i.totalPrice) }

  /** When the cart's totals are its lines' (as every reducer action keeps them), the
      item totals the order carries add up to the subtotal it carries. */
  lemma OrderDataAddsUp(cart: CartState)
    requires TotalsConsistent(cart)
    ensures Sum(OrderData(cart).items, ItemTotal) == OrderData(cart).order.subtotal
  {
    SumPointwise(OrderData(cart).items, ItemTotal, cart.items, LineTotal);
  }

  /** `OrdersContent`: the cart it owns, the drawer flag and the orders it has sent. */
  class OrdersContent {
    var cart: CartState
    var drawerOpen: bool
    var sent: seq<StaffOrder>

    constructor ()
      ensures cart == InitialState && !drawerOpen && sent == []
    {
      cart := InitialState;
      drawerOpen := false;
      sent := [];
    }

    /** `handlePlaceOrder`: nothing for an empty cart; otherwise the order is sent, and
        only when the create call succeeds are the cart cleared and the drawer closed.
        The failure is caught here and leaves the state as it was. */
    method HandlePlaceOrder(createSucceeds: bool)
      modifies this
      ensures old(cart.items) == [] ==> cart == old(cart) && drawerOpen == old(drawerOpen) && sent == old(sent)
      ensures old(cart.items) != [] ==> sent == old(sent) + [OrderData(old(cart))]
      ensures old(cart.items) != [] && createSucceeds ==> cart == Step(old(cart), ClearCart) && !drawerOpen
      ensures old(cart.items) != [] && !createSucceeds ==> cart == old(cart) && drawerOpen == old(drawerOpen)
    {
      if |cart.items| == 0 {
        return;
      }
      sent := sent + [OrderData(cart)];
      if createSucceeds {
        cart := Step(cart, ClearCart);
        drawerOpen := false;
      }
    }
  }

  /** `getStatusBadgeVariant` of the recent-orders list. */
  function StatusBadgeVariant(status: string): (v: BadgeVariant)
    ensures v == Default <==> Lower(status) == "preparing"
    ensures v == Outline <==> Lower(status) == "completed"
    ensures v == Secondary <==> Lower(status) != "preparing" && Lower(status) != "completed"
  {
    match Lower(status)
    case "pending" => Secondary
    case "preparing" => Default
    case "completed" => Outline
    case _ => Secondary
  }

  /** The mapping ignores letter case. */
  lemma BadgeIgnoresCase(status: string)
    ensures StatusBadgeVariant(Lower(status)) == StatusBadgeVariant(status)
  {
    LowerIdempotent(status);
  }
}
