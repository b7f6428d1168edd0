/** The public QR ordering page of `client/src/pages/customer-menu.tsx`: a cart with
    one line per menu item, 8 % tax, and the order it submits. */
module CustomerMenu {
  import opened Wrappers
  import opened Seqs
  import opened Text
  import opened Pricing
  import opened Catalog
  import opened Payloads

  /** A cart line; its `id` is the menu item's id. `notes` is never set by this page. */
  datatype CartLine = CartLine(id: string, name: string, price: real, quantity: int, notes: Option<string>)

  datatype CustomerInfo = CustomerInfo(name: string, email: Option<string>, phone: Option<string>)

  datatype PaymentMethod = Cash | Card

  function PaymentMethodName(m: PaymentMethod): string
  {
    match m
    case Cash => "cash"
    case Card => "card"
  }

  predicate InCart(cart: seq<CartLine>, id: string)
  {
    exists k :: 0 <= k < |cart| && cart[k].id == id
  }

  /** At most one line per menu item. */
  predicate UniqueIds(cart: seq<CartLine>)
  {
    forall i, j :: 0 <= i < j < |cart| ==> cart[i].id != cart[j].id
  }

  /** Line `k` is the one line of the cart for `id`, as it is in a cart with unique ids. */
  predicate OnlyLineFor(cart: seq<CartLine>, id: string, k: nat)
  {
    k < |cart| && cart[k].id == id && forall j :: 0 <= j < |cart| && j != k ==> cart[j].id != id
  }

  /** In a cart with one line per item, the item's line is its only line. */
  lemma UniqueOnlyLine(cart: seq<CartLine>, id: string, k: nat)
    requires UniqueIds(cart) && k < |cart| && cart[k].id == id
    ensures OnlyLineFor(cart, id, k)
  {
  }

  function Bump(id: string): CartLine -> CartLine
  {
    (l: CartLine) => if l.id == id then l.(quantity := l.quantity + 1) else l
  }

  function SetQuantity(id: string, q: int): CartLine -> CartLine
  {
    (l: CartLine) => if l.id == id then l.(quantity := q) else l
  }

  function NotId(id: string): CartLine -> bool { (l: CartLine) => l.id != id }

  function NewLine(item: MenuItem): CartLine
  {
    CartLine(item.id, item.name, item.price, 1, None)
  }

  /** `addToCart`: a line for the item gets one more; otherwise a line of one is appended. */
  function AddToCart(cart: seq<CartLine>, item: MenuItem): seq<CartLine>
  {
    if InCart(cart, item.id) then Map(cart, Bump(item.id)) else cart + [NewLine(item)]
  }

  /** `updateQuantity`: a quantity of zero or less removes the line, any other sets it. */
  function UpdateQuantity(cart: seq<CartLine>, id: string, q: int): seq<CartLine>
  {
    if q <= 0 then Filter(cart, NotId(id)) else Map(cart, SetQuantity(id, q))
  }

  function LineAmount(l: CartLine): real { l.price * l.quantity as real }
  function LineQuantity(l: CartLine): int { l.quantity }

  /** `subtotal`, `tax` and `total` of the page. */
  function CartTotals(cart: seq<CartLine>): Totals
  {
    TotalsOf(Sum(cart, LineAmount), FlatTaxRate)
  }

  /** The number on the cart button. */
  function ItemCount(cart: seq<CartLine>): int
  {
    SumInt(cart, LineQuantity)
  }

  /** What `handlePlaceOrder` does: warn about a missing name, warn about an empty cart,
      or submit a body. */
  datatype PlaceOutcome = NameRequired | EmptyCart | Submit(body: CustomerOrderBody)

  function ItemBodyOf(l: CartLine): ItemBody
  {
    ItemBody(Some(JString(l.id)), Some(JNumber(l.quantity as real)), Some(JNumber(l.price)), Some(OrNull(l.notes)))
  }

  function PlaceOrder(cart: seq<CartLine>, info: CustomerInfo, pay: PaymentMethod, orderNotes: string): PlaceOutcome
  {
    if IsBlank(info.name) then NameRequired
    else if cart == [] then EmptyCart
    else
      var t := CartTotals(cart);
      Submit(CustomerOrderBody(
        Some(OrderBody(
          Some(JString(info.name)), Some(OrNull(info.email)), Some(OrNull(info.phone)),
          Some(JNumber(t.subtotal)), Some(JNumber(t.tax)), Some(JNumber(t.total)),
          Some(JString(PaymentMethodName(pay))), Some(JString("pending")),
          Some(OrNull(Some(orderNotes))), Some(JString("customer-online")))),
        Some(Map(cart, ItemBodyOf))))
  }

  /** Adding an item already in the cart adds one to its line and to no other, and adds
      no line. */
  lemma AddExisting(cart: seq<CartLine>, item: MenuItem)
    requires InCart(cart, item.id)
    ensures var r := AddToCart(cart, item);
      |r| == |cart| &&
      forall k :: 0 <= k < |r| ==>
        r[k].(quantity := cart[k].quantity) == cart[k] &&
        r[k].quantity == (if cart[k].id == item.id then cart[k].quantity + 1 else cart[k].quantity)
  {
  }

  /** Adding an item not in the cart appends one line of quantity 1 at its menu price. */
  lemma AddNew(cart: seq<CartLine>, item: MenuItem)
    requires !InCart(cart, item.id)
    ensures var r := AddToCart(cart, item);
      |r| == |cart| + 1 && r[..|cart|] == cart &&
      r[|cart|].id == item.id && r[|cart|].quantity == 1 && r[|cart|].price == item.price
  {
    assert (cart + [NewLine(item)])[..|cart|] == cart;
  }

  /** `addToCart` keeps one line per menu item. */
  lemma AddKeepsUnique(cart: seq<CartLine>, item: MenuItem)
    requires UniqueIds(cart)
    ensures UniqueIds(AddToCart(cart, item))
    ensures InCart(AddToCart(cart, item), item.id)
  {
    var r := AddToCart(cart, item);
    if !InCart(cart, item.id) {
      assert r[|cart|].id == item.id;
    } else {
      var k :| 0 <= k < |cart| && cart[k].id == item.id;
      assert r[k].id == item.id;
    }
  }

  /** The sum of quantities after a bump of a unique line is one more. */
  lemma BumpCount(cart: seq<CartLine>, id: string)
    requires UniqueIds(cart) && InCart(cart, id)
    ensures ItemCount(Map(cart, Bump(id))) == ItemCount(cart) + 1
  {
    var i :| 0 <= i < |cart| && cart[i].id == id;
    BumpCountAt(cart, id, i);
  }

  lemma {:induction false} BumpCountAt(cart: seq<CartLine>, id: string, i: nat)
    requires UniqueIds(cart) && i < |cart| && cart[i].id == id
    ensures ItemCount(Map(cart, Bump(id))) == ItemCount(cart) + 1
    decreases |cart|
  {
    var n := |cart| - 1;
    var init := cart[..n];
    var m := Map(cart, Bump(id));
    MapPrefix(cart, Bump(id), n);
    ItemCountSnoc(m);
    ItemCountSnoc(cart);
    assert m[n] == Bump(id)(cart[n]);
    assert ItemCount(cart) == ItemCount(init) + cart[n].quantity;
    assert ItemCount(m) == ItemCount(Map(init, Bump(id))) + m[n].quantity;
    if i == n {
      forall k | 0 <= k < n
        ensures init[k].id != id
      {
        assert cart[k].id != cart[n].id;
      }
      BumpAbsent(init, id);
    } else {
      assert cart[n].id != id;
      BumpCountAt(init, id, i);
    }
  }

  lemma ItemCountSnoc(s: seq<CartLine>)
    requires s != []
    ensures ItemCount(s) == ItemCount(s[..|s| - 1]) + s[|s| - 1].quantity
  {
  }

  /** A bump for an id absent from the lines changes nothing. */
  lemma BumpAbsent(s: seq<CartLine>, id: string)
    requires forall k :: 0 <= k < |s| ==> s[k].id != id
    ensures Map(s, Bump(id)) == s
  {
  }

  /** Each `addToCart` adds exactly one to the cart button's count. */
  lemma AddCountsOne(cart: seq<CartLine>, item: MenuItem)
    requires UniqueIds(cart)
    ensures ItemCount(AddToCart(cart, item)) == ItemCount(cart) + 1
  {
    if InCart(cart, item.id) {
      BumpCount(cart, item.id);
    } else {
      SumIntConcat(cart, [NewLine(item)], LineQuantity);
    }
  }

  /** `updateQuantity` with a quantity of zero or less removes the item's line and keeps
      the others in order; with a positive quantity it sets that line's quantity only. */
  lemma UpdateQuantityEffect(cart: seq<CartLine>, id: string, q: int)
    ensures var r := UpdateQuantity(cart, id, q);
      q <= 0 ==> (IsSubsequence(r, cart) && !InCart(r, id) &&
        forall k :: 0 <= k < |cart| && cart[k].id != id ==> cart[k] in r)
    ensures var r := UpdateQuantity(cart, id, q);
      q > 0 ==> (|r| == |cart| &&
        forall k :: 0 <= k < |r| ==>
          r[k] == (if cart[k].id == id then cart[k].(quantity := q) else cart[k]))
  {
    if q <= 0 {
      FilterIsSubsequence(cart, NotId(id));
    }
  }

  /** `updateQuantity` keeps one line per menu item. */
  lemma UpdateKeepsUnique(cart: seq<CartLine>, id: string, q: int)
    requires UniqueIds(cart)
    ensures UniqueIds(UpdateQuantity(cart, id, q))
  {
    if q <= 0 {
      FilterIsSubsequence(cart, NotId(id));
      SubsequenceKeepsUnique(Filter(cart, NotId(id)), cart);
    }
  }

  lemma {:induction false} SubsequenceKeepsUnique(r: seq<CartLine>, s: seq<CartLine>)
    requires IsSubsequence(r, s) && UniqueIds(s)
    ensures UniqueIds(r)
    decreases |s|
  {
    if r != [] && s != [] {
      if r[0] == s[0] && IsSubsequence(r[1..], s[1..]) {
        SubsequenceKeepsUnique(r[1..], s[1..]);
        forall j | 1 <= j < |r|
          ensures r[0].id != r[j].id
        {
          SubsequenceMember(r[1..], s[1..], j - 1);
        }
      } else {
        SubsequenceKeepsUnique(r, s[1..]);
      }
    }
  }

  /** With one line per item, setting the item's quantity changes that line only. */
  lemma SetQuantityAt(cart: seq<CartLine>, id: string, q: int, k: nat)
    requires OnlyLineFor(cart, id, k)
    ensures Map(cart, SetQuantity(id, q)) == cart[k := cart[k].(quantity := q)]
  {
  }

  /** With one line per item, removing the item's lines removes line `k` only. */
  lemma RemoveAt(cart: seq<CartLine>, id: string, k: nat)
    requires OnlyLineFor(cart, id, k)
    ensures Filter(cart, NotId(id)) == cart[..k] + cart[k + 1..]
  {
    FilterDropsOne(cart, NotId(id), k);
  }

  /** Adding an item the cart does not hold adds its price to the subtotal, and its price
      with tax to the total. */
  lemma AddNewTotals(cart: seq<CartLine>, item: MenuItem)
    requires !InCart(cart, item.id)
    ensures CartTotals(AddToCart(cart, item)).subtotal == CartTotals(cart).subtotal + item.price
    ensures CartTotals(AddToCart(cart, item)).total == CartTotals(cart).total + item.price * (1.0 + FlatTaxRate)
  {
    SumConcat(cart, [NewLine(item)], LineAmount);
    assert Sum([NewLine(item)], LineAmount) == item.price by { assert [NewLine(item)][..0] == []; }
  }

  /** Adding an item the cart holds (at line `k`) adds that line's price to the subtotal,
      and the price with tax to the total. */
  lemma AddExistingTotals(cart: seq<CartLine>, item: MenuItem, k: nat)
    requires OnlyLineFor(cart, item.id, k)
    ensures CartTotals(AddToCart(cart, item)).subtotal == CartTotals(cart).subtotal + cart[k].price
    ensures CartTotals(AddToCart(cart, item)).total == CartTotals(cart).total + cart[k].price * (1.0 + FlatTaxRate)
  {
    assert InCart(cart, item.id);
    BumpSum(cart, item.id, k);
  }

  /** Setting the quantity of line `k` to `q > 0` changes the subtotal by the line's
      price times the change in quantity. */
  lemma UpdateQuantityTotals(cart: seq<CartLine>, id: string, q: int, k: nat)
    requires OnlyLineFor(cart, id, k) && q > 0
    ensures CartTotals(UpdateQuantity(cart, id, q)).subtotal ==
      CartTotals(cart).subtotal + cart[k].price * (q - cart[k].quantity) as real
  {
    SetQuantitySum(cart, id, q, k);
  }

  /** A quantity of zero or less takes line `k`'s amount off the subtotal. */
  lemma UpdateRemoveTotals(cart: seq<CartLine>, id: string, q: int, k: nat)
    requires OnlyLineFor(cart, id, k) && q <= 0
    ensures CartTotals(UpdateQuantity(cart, id, q)).subtotal ==
      CartTotals(cart).subtotal - cart[k].price * cart[k].quantity as real
  {
    RemoveLineSum(cart, id, k);
  }

  lemma BumpSum(cart: seq<CartLine>, id: string, k: nat)
    requires OnlyLineFor(cart, id, k)
    ensures Sum(Map(cart, Bump(id)), LineAmount) == Sum(cart, LineAmount) + cart[k].price
  {
    forall i | 0 <= i < |cart| && i != k
      ensures LineAmount(Bump(id)(cart[i])) == LineAmount(cart[i])
    {
    }
    OneMoreUnit(cart[k].price, cart[k].quantity);
    SumMapDelta(cart, Bump(id), LineAmount, k, cart[k].price);
  }

  lemma SetQuantitySum(cart: seq<CartLine>, id: string, q: int, k: nat)
    requires OnlyLineFor(cart, id, k)
    ensures Sum(Map(cart, SetQuantity(id, q)), LineAmount) ==
      Sum(cart, LineAmount) + cart[k].price * (q - cart[k].quantity) as real
  {
    SetQuantityAt(cart, id, q, k);
    RequantifySum(cart, k, q);
  }

  /** Giving line `k` quantity `q` moves the sum by its price times the change. */
  lemma RequantifySum(cart: seq<CartLine>, k: nat, q: int)
    requires k < |cart|
    ensures Sum(cart[k := cart[k].(quantity := q)], LineAmount) ==
      Sum(cart, LineAmount) + cart[k].price * (q - cart[k].quantity) as real
  {
    SumUpdate(cart, k, cart[k].(quantity := q), LineAmount);
    ChangeQuantity(Sum(cart, LineAmount), cart[k].price, cart[k].quantity, q);
  }

  lemma RemoveLineSum(cart: seq<CartLine>, id: string, k: nat)
    requires OnlyLineFor(cart, id, k)
    ensures Sum(Filter(cart, NotId(id)), LineAmount) == Sum(cart, LineAmount) - LineAmount(cart[k])
  {
    RemoveAt(cart, id, k);
    SumRemove(cart, k, LineAmount);
  }

  /** Updating an item the cart does not hold changes nothing. */
  lemma UpdateAbsentUnchanged(cart: seq<CartLine>, id: string, q: int)
    requires !InCart(cart, id)
    ensures UpdateQuantity(cart, id, q) == cart
  {
    if q <= 0 {
      FilterAll(cart, NotId(id));
    } else {
      MapIdentity(cart, SetQuantity(id, q));
    }
  }

  /** Placing an order: a blank name is refused first, then an empty cart; otherwise the
      body is submitted. */
  lemma PlaceOrderGuards(cart: seq<CartLine>, info: CustomerInfo, pay: PaymentMethod, notes: string)
    ensures PlaceOrder(cart, info, pay, notes) == NameRequired <==>
      forall i :: 0 <= i < |info.name| ==> IsWhitespace(info.name[i])
    ensures PlaceOrder(cart, info, pay, notes) == EmptyCart <==> !IsBlank(info.name) && cart == []
    ensures PlaceOrder(cart, info, pay, notes).Submit? <==> !IsBlank(info.name) && cart != []
  {
    BlankIffAllWhitespace(info.name);
  }

  /** The submitted body: one item per line in cart order carrying its id, quantity and unit
      price; the cart's totals; status "pending", order type "customer-online"; and empty
      contact details and notes sent as `null`. */
  lemma PlaceOrderBody(cart: seq<CartLine>, info: CustomerInfo, pay: PaymentMethod, notes: string)
    requires PlaceOrder(cart, info, pay, notes).Submit?
    ensures var b := PlaceOrder(cart, info, pay, notes).body;
      b.items.Some? && |b.items.value| == |cart| &&
      forall k :: 0 <= k < |cart| ==>
        b.items.value[k].menuItemId == Some(JString(cart[k].id)) &&
        b.items.value[k].quantity == Some(JNumber(cart[k].quantity as real)) &&
        b.items.value[k].price == Some(JNumber(cart[k].price))
    ensures var o := PlaceOrder(cart, info, pay, notes).body.order;
      o.Some? &&
      o.value.status == Some(JString("pending")) && o.value.orderType == Some(JString("customer-online")) &&
      o.value.customerName == Some(JString(info.name)) &&
      o.value.subtotal == Some(JNumber(CartTotals(cart).subtotal)) &&
      o.value.total == Some(JNumber(CartTotals(cart).total)) &&
      (o.value.customerEmail == Some(JNull) <==> info.email == None || info.email == Some("")) &&
      (o.value.customerPhone == Some(JNull) <==> info.phone == None || info.phone == Some("")) &&
      (o.value.notes == Some(JNull) <==> notes == "")
  {
  }
}
