/** The REST handlers of `server/routes.ts` that hold logic of their own: the user id
    fallback, the public order endpoint (request schema, item transform, order number)
    and the guards of the status and stock updates. */
module Routes {
  import opened Wrappers
  import opened Seqs
  import opened Text
  import opened Payloads
  import opened Storage

  /** `req?.user?.claims?.sub || process.env.DEV_USER_ID || 'dev-user'`: each missing or
      empty value falls through to the next. */
  function GetUserId(claimsSub: Option<string>, devUserId: Option<string>): (r: string)
    ensures r != ""
    ensures claimsSub.Some? && claimsSub.value != "" ==> r == claimsSub.value
    ensures (claimsSub.None? || claimsSub.value == "") && devUserId.Some? && devUserId.value != "" ==>
      r == devUserId.value
    ensures (claimsSub.None? || claimsSub.value == "") && (devUserId.None? || devUserId.value == "") ==>
      r == "dev-user"
  {
    if claimsSub.Some? && claimsSub.value != "" then claimsSub.value
    else if devUserId.Some? && devUserId.value != "" then devUserId.value
    else "dev-user"
  }

  /** The order part of `createCustomerOrderSchema` after parsing. */
  datatype CustomerOrder = CustomerOrder(
    customerName: string,
    customerEmail: Option<string>,
    customerPhone: Option<string>,
    subtotal: real,
    tax: real,
    total: real,
    paymentMethod: string,
    status: string,
    notes: Option<string>,
    orderType: string)

  datatype CustomerItem = CustomerItem(menuItemId: string, quantity: real, price: real, notes: Option<string>)

  /** `z.string()`. */
  function ParseString(j: Option<Json>): (r: Result<string>)
    ensures r.Ok? <==> j.Some? && j.value.JString?
    ensures r.Ok? ==> j == Some(JString(r.value))
  {
    match j
    case Some(JString(s)) => Ok(s)
    case _ => Err
  }

  /** `z.string().nullable().optional()`: absent and `null` both give no value. */
  function ParseNullableString(j: Option<Json>): (r: Result<Option<string>>)
    ensures r.Ok? <==> j.None? || j.value.JNull? || j.value.JString?
    ensures r == Ok(None) <==> j.None? || j == Some(JNull)
  {
    match j
    case None => Ok(None)
    case Some(JNull) => Ok(None)
    case Some(JString(s)) => Ok(Some(s))
    case _ => Err
  }

  /** `z.number()`: only a JSON number; a string holding digits is refused. */
  function ParseNumber(j: Option<Json>): (r: Result<real>)
    ensures r.Ok? <==> j.Some? && j.value.JNumber?
    ensures r.Ok? ==> j == Some(JNumber(r.value))
  {
    match j
    case Some(JNumber(n)) => Ok(n)
    case _ => Err
  }

  /** `z.string().default(d)`: an absent key takes the default; `null` is refused. */
  function ParseStringOr(j: Option<Json>, d: string): (r: Result<string>)
    ensures j.None? ==> r == Ok(d)
    ensures j.Some? ==> (r.Ok? <==> j.value.JString?)
    ensures j.Some? && r.Ok? ==> j == Some(JString(r.value))
  {
    match j
    case None => Ok(d)
    case Some(JString(s)) => Ok(s)
    case _ => Err
  }

  /** `z.enum(["cash", "card"])`. */
  function ParsePaymentMethod(j: Option<Json>): (r: Result<string>)
    ensures r.Ok? <==> j == Some(JString("cash")) || j == Some(JString("card"))
    ensures r.Ok? ==> j == Some(JString(r.value))
  {
    match j
    case Some(JString(s)) => if s == "cash" || s == "card" then Ok(s) else Err
    case _ => Err
  }

  function ParseOrder(o: OrderBody): Result<CustomerOrder>
  {
    var name := ParseString(o.customerName);
    var email := ParseNullableString(o.customerEmail);
    var phone := ParseNullableString(o.customerPhone);
    var subtotal := ParseNumber(o.subtotal);
    var tax := ParseNumber(o.tax);
    var total := ParseNumber(o.total);
    var pay := ParsePaymentMethod(o.paymentMethod);
    var status := ParseStringOr(o.status, "pending");
    var notes := ParseNullableString(o.notes);
    var orderType := ParseStringOr(o.orderType, "customer-online");
    if name.Ok? && email.Ok? && phone.Ok? && subtotal.Ok? && tax.Ok? && total.Ok? &&
       pay.Ok? && status.Ok? && notes.Ok? && orderType.Ok?
    then Ok(CustomerOrder(name.value, email.value, phone.value, subtotal.value, tax.value, total.value,
      pay.value, status.value, notes.value, orderType.value))
    else Err
  }

  function ParseItem(i: ItemBody): Result<CustomerItem>
  {
    var id := ParseString(i.menuItemId);
    var quantity := ParseNumber(i.quantity);
    var price := ParseNumber(i.price);
    var notes := ParseNullableString(i.notes);
    if id.Ok? && quantity.Ok? && price.Ok? && notes.Ok?
    then Ok(CustomerItem(id.value, quantity.value, price.value, notes.value))
    else Err
  }

  /** `z.array(...)`: every element must parse, and the parsed array keeps the order. */
  function ParseItems(items: seq<ItemBody>): (r: Result<seq<CustomerItem>>)
    ensures r.Ok? <==> forall k :: 0 <= k < |items| ==> ParseItem(items[k]).Ok?
    ensures r.Ok? ==> (|r.value| == |items| &&
      forall k :: 0 <= k < |items| ==> r.value[k] == ParseItem(items[k]).value)
  {
    if items == [] then Ok([])
    else
      var head := ParseItem(items[0]);
      var tail := ParseItems(items[1..]);
      if head.Ok? && tail.Ok? then Ok([head.value] + tail.value)
      else
        assert !tail.Ok? ==> exists k :: 1 <= k < |items| && !ParseItem(items[k]).Ok? by {
          if !tail.Ok? {
            var j :| 0 <= j < |items[1..]| && !ParseItem(items[1..][j]).Ok?;
            assert items[1..][j] == items[j + 1];
          }
        }
        Err
  }

  /** `createCustomerOrderSchema.parse(req.body)`. */
  function ParseCustomerOrderBody(b: CustomerOrderBody): Result<(CustomerOrder, seq<CustomerItem>)>
  {
    if b.order.None? || b.items.None? then Err
    else
      var o := ParseOrder(b.order.value);
      var items := ParseItems(b.items.value);
      if o.Ok? && items.Ok? then Ok((o.value, items.value)) else Err
  }

  /** The schema's defaults: without a status the order is "pending", without an order
      type it is "customer-online"; the payment method is cash or card. */
  lemma ParsedOrderDefaults(o: OrderBody)
    requires ParseOrder(o).Ok?
    ensures o.status.None? ==> ParseOrder(o).value.status == "pending"
    ensures o.orderType.None? ==> ParseOrder(o).value.orderType == "customer-online"
    ensures ParseOrder(o).value.paymentMethod == "cash" || ParseOrder(o).value.paymentMethod == "card"
  {
  }

  /** An order whose payment method is anything but "cash" or "card", or whose amount is
      not a JSON number, is refused. */
  lemma ParseOrderRefuses(o: OrderBody)
    requires !(o.paymentMethod == Some(JString("cash")) || o.paymentMethod == Some(JString("card"))) ||
      !(o.subtotal.Some? && o.subtotal.value.JNumber?) ||
      !(o.tax.Some? && o.tax.value.JNumber?) ||
      !(o.total.Some? && o.total.value.JNumber?)
    ensures ParseOrder(o) == Err
  {
  }

  /** The item transform of `/api/customer-orders`. */
  function TransformItem(i: CustomerItem): NewOrderItem
  {
    NewOrderItem(Some(i.menuItemId), i.quantity, i.price, i.price * i.quantity, Some(OrEmpty(i.notes)))
  }

  /** One stored item per request item, in order, with the same menu item and quantity,
      `unitPrice = price`, `totalPrice = price * quantity` and the notes, or "" when they
      are null or absent. */
  lemma TransformedItems(items: seq<CustomerItem>)
    ensures var r := Map(items, TransformItem);
      |r| == |items| &&
      forall k :: 0 <= k < |items| ==>
        r[k].menuItemId == Some(items[k].menuItemId) && r[k].quantity == items[k].quantity &&
        r[k].unitPrice == items[k].price && r[k].totalPrice == items[k].price * items[k].quantity &&
        r[k].specialInstructions.Some? &&
        (items[k].notes.None? ==> r[k].specialInstructions == Some("")) &&
        (items[k].notes.Some? ==> r[k].specialInstructions == items[k].notes)
  {
  }

  /** `WEB-${Date.now().toString().slice(-6)}`. */
  function WebOrderNumber(now: nat): (r: string)
    ensures 5 <= |r| <= 10 && r[..4] == "WEB-" && AllDigits(r[4..])
  {
    "WEB-" + LastChars(Decimal(now), 6)
  }

  /** From a million milliseconds on (every real clock), the number is "WEB-" and the
      clock's last six digits, zero-padded. */
  lemma WebOrderNumberDigits(now: nat)
    requires now >= 1000000
    ensures |WebOrderNumber(now)| == 10
    ensures WebOrderNumber(now)[4..] == Padded(now % 1000000, 6)
    ensures DecimalValue(WebOrderNumber(now)[4..]) == now % 1000000
  {
    assert Pow10(6) == 1000000;
    DecimalSuffix(now, 6);
    PaddedValue(now % 1000000, 6);
  }

  /** Reading back a zero-padded number gives it, when it has at most `k` digits. */
  lemma {:induction false} PaddedValue(m: nat, k: nat)
    requires m < Pow10(k)
    ensures DecimalValue(Padded(m, k)) == m
  {
    if k > 0 {
      assert m / 10 < Pow10(k - 1);
      PaddedValue(m / 10, k - 1);
      var p := Padded(m, k);
      assert p[..|p| - 1] == Padded(m / 10, k - 1);
    }
  }

  /** The `orderData` of `/api/customer-orders`: no user, the proposed WEB- number, the
      amounts and the other schema fields passed through. Name, email and phone have no
      column in the orders table and are not stored. */
  function PublicOrderData(o: CustomerOrder, now: nat): NewOrder
  {
    NewOrder(Some(WebOrderNumber(now)), None, None, Some(o.status), Some(o.orderType),
      o.subtotal, o.tax, o.total, Some(o.paymentMethod), None, o.notes)
  }

  /** The stored public order keeps the request's amounts, status, type, payment method
      and notes, has no user, and starts unpaid; its number is the storage layer's ORD-
      number, so the WEB- number proposed by the route never reaches the table. */
  lemma StoredPublicOrder(o: CustomerOrder, now: nat, id: string, suffix: string)
    ensures var row := OrderRow(PublicOrderData(o, now), id, now, suffix);
      row.userId == None && row.subtotal == o.subtotal && row.tax == o.tax && row.total == o.total &&
      row.status == o.status && row.orderType == o.orderType &&
      row.paymentMethod == Some(o.paymentMethod) && row.notes == o.notes && row.paymentStatus == "pending"
    ensures var row := OrderRow(PublicOrderData(o, now), id, now, suffix);
      row.orderNumber[..4] == "ORD-" && row.orderNumber != WebOrderNumber(now)
  {
    var row := OrderRow(PublicOrderData(o, now), id, now, suffix);
    assert row.orderNumber[..4] != WebOrderNumber(now)[..4];
  }

  /** The guest's name, email and phone are checked by the schema and then lost: the
      stored header has no customer, and two requests that differ only in who placed
      them store the same row. */
  lemma GuestIdentityNotStored(o: CustomerOrder, name: string, email: Option<string>,
                               phone: Option<string>, now: nat, id: string, suffix: string)
    ensures OrderRow(PublicOrderData(o, now), id, now, suffix).customerId == None
    ensures OrderRow(PublicOrderData(o.(customerName := name, customerEmail := email, customerPhone := phone), now), id, now, suffix)
         == OrderRow(PublicOrderData(o, now), id, now, suffix)
  {
  }

  /** `POST /api/customer-orders`. A body the schema refuses gets 400 and touches no
      table. Otherwise the order is created: 201 with the row, or 400 when the item
      insert fails, in which case the header row stays. */
  method PostCustomerOrder(db: Database, body: CustomerOrderBody, now: nat, orderId: string,
                           itemIds: seq<string>, suffix: string, itemsInsertFails: bool)
    returns (status: int, created: Option<Order>)
    requires db.Valid() && !HasOrder(db.orders, orderId)
    requires body.items.Some? ==> |itemIds| == |body.items.value|
    modifies db
    ensures db.Valid()
    ensures ParseCustomerOrderBody(body).Err? ==>
      status == 400 && created == None && db.orders == old(db.orders) && db.orderItems == old(db.orderItems)
    ensures ParseCustomerOrderBody(body).Ok? ==>
      var (o, items) := ParseCustomerOrderBody(body).value;
      db.orders == old(db.orders) + [OrderRow(PublicOrderData(o, now), orderId, now, suffix)] &&
      (items == [] || !itemsInsertFails ==>
        status == 201 && created == Some(OrderRow(PublicOrderData(o, now), orderId, now, suffix)) &&
        db.orderItems == old(db.orderItems) + ItemRows(Map(items, TransformItem), itemIds, orderId)) &&
      (items != [] && itemsInsertFails ==> status == 400 && created == None && db.orderItems == old(db.orderItems))
    ensures db.categories == old(db.categories) && db.menuItems == old(db.menuItems) &&
      db.inventory == old(db.inventory)
  {
    var parsed := ParseCustomerOrderBody(body);
    if parsed.Err? {
      return 400, None;
    }
    var (o, items) := parsed.value;
    var transformed := Map(items, TransformItem);
    created := db.CreateOrder(PublicOrderData(o, now), transformed, orderId, itemIds, now, suffix, itemsInsertFails);
    status := if created.Some? then 201 else 400;
  }

  /** `PUT /api/orders/:id/status`: a missing or empty status gets 400 before storage is
      touched; any other string is stored, with 200 and the row (none for an unknown id). */
  method PutOrderStatus(db: Database, id: string, status: Option<string>, now: int)
    returns (code: int, order: Option<Order>)
    requires db.Valid()
    modifies db
    ensures db.Valid()
    ensures status.None? || status.value == "" ==>
      code == 400 && order == None && db.orders == old(db.orders)
    ensures status.Some? && status.value != "" ==>
      code == 200 && db.orders == Map(old(db.orders), SetStatus(id, status.value, now)) &&
      order == Find(db.orders, OrderHasId(id))
    ensures db.categories == old(db.categories) && db.menuItems == old(db.menuItems) &&
      db.orderItems == old(db.orderItems) && db.inventory == old(db.inventory)
  {
    if status.None? || status.value == "" {
      return 400, None;
    }
    order := db.UpdateOrderStatus(id, status.value, now);
    code := 200;
  }

  /** `PUT /api/inventory/:id/stock`: a quantity that is not a JSON number gets 400;
      otherwise it is added to the stock, with 200 and the row. */
  method PutInventoryStock(db: Database, id: string, quantity: Option<Json>, now: int)
    returns (code: int, item: Option<InventoryItem>)
    requires db.Valid()
    modifies db
    ensures db.Valid()
    ensures !(quantity.Some? && quantity.value.JNumber?) ==>
      code == 400 && item == None && db.inventory == old(db.inventory)
    ensures quantity.Some? && quantity.value.JNumber? ==>
      code == 200 && db.inventory == Map(old(db.inventory), AddStock(id, quantity.value.n, now)) &&
      item == Find(db.inventory, InventoryHasId(id))
    ensures db.categories == old(db.categories) && db.menuItems == old(db.menuItems) &&
      db.orders == old(db.orders) && db.orderItems == old(db.orderItems)
  {
    if !(quantity.Some? && quantity.value.JNumber?) {
      return 400, None;
    }
    item := db.UpdateInventoryStock(id, quantity.value.n, now);
    code := 200;
  }
}
