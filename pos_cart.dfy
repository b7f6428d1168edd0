/** The cart panel of the counter screen (`client/src/pages/orders/PosCart.tsx`): the
    quantity controls over the shared cart and the busy flag of order placement. */
module PosCart {
  import opened Seqs
  import opened CartContext

  /** `handleQuantityChange`: below 1 removes the line, otherwise asks for exactly the
      new quantity. */
  function HandleQuantityChange(id: string, newQuantity: int): (a: CartAction)
    ensures newQuantity < 1 <==> a == RemoveItem(id)
    ensures newQuantity >= 1 <==> a == UpdateQuantity(id, newQuantity)
  {
    if newQuantity < 1 then RemoveItem(id) else UpdateQuantity(id, newQuantity)
  }

  /** Below 1, a quantity change leaves no line with the id. */
  lemma QuantityChangeRemoves(s: CartState, id: string, n: int)
    requires n < 1
    ensures var r := Step(s, HandleQuantityChange(id, n)).items;
      forall k :: 0 <= k < |r| ==> r[k].id != id
  {
    RemoveItemLines(s, id);
  }

  /** The lines with the id have quantity `n` and are priced at it. */
  predicate SetTo(items: seq<CartItem>, id: string, n: int)
  {
    forall k :: 0 <= k < |items| && items[k].id == id ==> items[k].quantity == n && Priced(items[k])
  }

  /** From 1 up, a quantity change gives every line with the id exactly the new quantity,
      repriced at it, and keeps every other line that had a positive quantity. */
  lemma QuantityChangeSets(s: CartState, id: string, n: int)
    requires n >= 1
    ensures SetTo(Step(s, HandleQuantityChange(id, n)).items, id, n)
    ensures var r := Step(s, HandleQuantityChange(id, n)).items;
      forall k :: 0 <= k < |s.items| && s.items[k].id != id && s.items[k].quantity > 0 ==> s.items[k] in r
  {
    var m := Map(s.items, Requantify(id, n));
    assert Step(s, HandleQuantityChange(id, n)).items == Filter(m, Positive());
    RequantifiedSet(s.items, id, n);
    FilterKeepsSet(m, Positive(), id, n);
    forall k | 0 <= k < |s.items| && s.items[k].id != id && s.items[k].quantity > 0
      ensures s.items[k] in Filter(m, Positive())
    {
      assert m[k] == s.items[k];
    }
  }

  lemma RequantifiedSet(items: seq<CartItem>, id: string, n: int)
    ensures SetTo(Map(items, Requantify(id, n)), id, n)
  {
    var m := Map(items, Requantify(id, n));
    forall k | 0 <= k < |m| && m[k].id == id
      ensures m[k].quantity == n && Priced(m[k])
    {
      assert m[k] == Requantify(id, n)(items[k]);
      assert items[k].id == id;
    }
  }

  lemma FilterKeepsSet(items: seq<CartItem>, p: CartItem -> bool, id: string, n: int)
    requires SetTo(items, id, n)
    ensures SetTo(Filter(items, p), id, n)
  {
    var r := Filter(items, p);
    forall k | 0 <= k < |r| && r[k].id == id
      ensures r[k].quantity == n && Priced(r[k])
    {
      assert r[k] in items;
    }
  }

  /** The minus control on a line of quantity 1 removes the line. */
  lemma DecrementAtOneRemoves(s: CartState, k: int)
    requires 0 <= k < |s.items| && s.items[k].quantity == 1
    ensures var line := s.items[k];
      var r := Step(s, HandleQuantityChange(line.id, line.quantity - 1)).items;
      forall j :: 0 <= j < |r| ==> r[j].id != line.id
  {
    QuantityChangeRemoves(s, s.items[k].id, 0);
  }

  /** The plus control on a line asks for one more unit, and the line is repriced at it. */
  lemma IncrementAddsOne(s: CartState, k: int)
    requires 0 <= k < |s.items| && s.items[k].quantity >= 0
    ensures var line := s.items[k];
      HandleQuantityChange(line.id, line.quantity + 1) == UpdateQuantity(line.id, line.quantity + 1)
    ensures var line := s.items[k];
      SetTo(Step(s, HandleQuantityChange(line.id, line.quantity + 1)).items, line.id, line.quantity + 1)
  {
    QuantityChangeSets(s, s.items[k].id, s.items[k].quantity + 1);
  }

  /** The trash control removes the line whatever its quantity. */
  lemma TrashRemoves(s: CartState, k: int)
    requires 0 <= k < |s.items|
    ensures var r := Step(s, RemoveItem(s.items[k].id)).items;
      forall j :: 0 <= j < |r| ==> r[j].id != s.items[k].id
  {
    RemoveItemLines(s, s.items[k].id);
  }

  /** The panel's only state of its own. */
  class PosCartPanel {
    var isPlacingOrder: bool

    constructor ()
      ensures !isPlacingOrder
    {
      isPlacingOrder := false;
    }

    /** `handlePlaceOrder`: the flag is set before the placement callback runs and cleared
        in `finally`, whether the callback resolves or rejects. `placementFails` stands
        for the callback's outcome; `busy` is the flag the callback observes, `rejected`
        reports the rejection the panel lets through. */
    method HandlePlaceOrder(placementFails: bool) returns (busy: bool, rejected: bool)
      modifies this
      ensures busy && !isPlacingOrder
      ensures rejected == placementFails
    {
      isPlacingOrder := true;
      busy := isPlacingOrder;
      rejected := placementFails;
      isPlacingOrder := false;
    }
  }
}
