/** The shared POS cart of `client/src/contexts/CartContext.tsx`: a reducer over a
    list of lines whose totals are recomputed from each line's stored `totalPrice`. */
module CartContext {
  import opened Wrappers
  import opened Seqs
  import opened Pricing
  import opened Catalog

  datatype LineModifier = LineModifier(id: string, name: string, priceDelta: real)

  datatype CartItem = CartItem(
    id: string,
    menuItem: MenuItem,
    quantity: int,
    unitPrice: real,
    totalPrice: real,
    modifiers: Option<seq<LineModifier>>,
    specialInstructions: Option<string>)

  /** The payload of `ADD_ITEM`: a line without its id. */
  datatype ItemDraft = ItemDraft(
    menuItem: MenuItem,
    quantity: int,
    unitPrice: real,
    totalPrice: real,
    modifiers: Option<seq<LineModifier>>,
    specialInstructions: Option<string>)

  datatype CartState = CartState(items: seq<CartItem>, subtotal: real, tax: real, total: real)

  /** The reducer's actions. `ADD_ITEM` carries the random line id the reducer draws. */
  datatype CartAction =
    | AddItem(payload: ItemDraft, newId: string)
    | UpdateQuantity(id: string, quantity: int)
    | RemoveItem(id: string)
    | UpdateInstructions(id: string, instructions: string)
    | ClearCart

  const InitialState: CartState := CartState([], 0.0, 0.0, 0.0)

  function LineTotal(item: CartItem): real { item.totalPrice }

  /** `calculateTotals`: the stored line totals summed, then 8.75 % tax. */
  function CalculateTotals(items: seq<CartItem>): (t: Totals)
    ensures items == [] ==> t == Totals(0.0, 0.0, 0.0)
    ensures t.tax == t.subtotal * CartContextTaxRate && t.total == t.subtotal + t.tax
  {
    TotalsOf(Sum(items, LineTotal), CartContextTaxRate)
  }

  /** The totals of two runs of lines joined are the sums of their totals. */
  lemma CalculateTotalsConcat(a: seq<CartItem>, b: seq<CartItem>)
    ensures CalculateTotals(a + b).subtotal == CalculateTotals(a).subtotal + CalculateTotals(b).subtotal
    ensures CalculateTotals(a + b).tax == CalculateTotals(a).tax + CalculateTotals(b).tax
    ensures CalculateTotals(a + b).total == CalculateTotals(a).total + CalculateTotals(b).total
  {
    SumConcat(a, b, LineTotal);
  }

  function WithTotals(items: seq<CartItem>): CartState
  {
    var t := CalculateTotals(items);
    CartState(items, t.subtotal, t.tax, t.total)
  }

  function WithId(d: ItemDraft, id: string): CartItem
  {
    CartItem(id, d.menuItem, d.quantity, d.unitPrice, d.totalPrice, d.modifiers, d.specialInstructions)
  }

  function HasId(id: string): CartItem -> bool { (item: CartItem) => item.id == id }
  function NotId(id: string): CartItem -> bool { (item: CartItem) => item.id != id }
  function KeptOther(id: string): CartItem -> bool { (item: CartItem) => item.id != id && item.quantity > 0 }
  function Positive(): CartItem -> bool { (item: CartItem) => item.quantity > 0 }

  /** The `map` of `UPDATE_QUANTITY`: the matching lines get the new quantity and a
      recomputed total. */
  function Requantify(id: string, q: int): CartItem -> CartItem
  {
    (item: CartItem) => if item.id == id then item.(quantity := q, totalPrice := item.unitPrice * q as real) else item
  }

  function Reinstruct(id: string, instructions: string): CartItem -> CartItem
  {
    (item: CartItem) => if item.id == id then item.(specialInstructions := Some(instructions)) else item
  }

  /** `cartReducer`. */
  function Step(s: CartState, a: CartAction): CartState
  {
    match a
    case AddItem(d, newId) => WithTotals(s.items + [WithId(d, newId)])
    case UpdateQuantity(id, q) => WithTotals(Filter(Map(s.items, Requantify(id, q)), Positive()))
    case RemoveItem(id) => WithTotals(Filter(s.items, NotId(id)))
    case UpdateInstructions(id, instr) => s.(items := Map(s.items, Reinstruct(id, instr)))
    case ClearCart => CartState([], 0.0, 0.0, 0.0)
  }

  /** The totals a state shows are the ones its lines give. */
  predicate TotalsConsistent(s: CartState)
  {
    var t := CalculateTotals(s.items);
    s.subtotal == t.subtotal && s.tax == t.tax && s.total == t.total
  }

  /** Every action but `UPDATE_INSTRUCTIONS` recomputes the totals from the new lines;
      `UPDATE_INSTRUCTIONS` keeps the old totals, which stay right because no line
      total changes. So consistent totals are an invariant of the reducer, and after
      ADD, UPDATE_QUANTITY, REMOVE and CLEAR they hold whatever the state before. */
  lemma StepTotals(s: CartState, a: CartAction)
    requires TotalsConsistent(s) || !a.UpdateInstructions?
    ensures TotalsConsistent(Step(s, a))
    ensures Step(s, a).tax == Step(s, a).subtotal * 0.0875
    ensures Step(s, a).total == Step(s, a).subtotal + Step(s, a).tax
    ensures a.UpdateInstructions? ==>
      Step(s, a).subtotal == s.subtotal && Step(s, a).tax == s.tax && Step(s, a).total == s.total
  {
    if a.UpdateInstructions? {
      var r := Map(s.items, Reinstruct(a.id, a.instructions));
      SumPointwise(r, LineTotal, s.items, LineTotal);
    }
  }

  /** `ADD_ITEM` never merges: it appends exactly one line, the payload with the new id,
      and keeps the existing lines as they were. */
  lemma AddItemAppends(s: CartState, d: ItemDraft, newId: string)
    ensures var r := Step(s, AddItem(d, newId)).items;
      |r| == |s.items| + 1 && r[..|s.items|] == s.items && r[|s.items|] == WithId(d, newId)
    ensures Step(s, AddItem(d, newId)).subtotal == s.subtotal + d.totalPrice || !TotalsConsistent(s)
  {
    var r := s.items + [WithId(d, newId)];
    assert r[..|r| - 1] == s.items;
  }

  /** After `UPDATE_QUANTITY` no line has a non-positive quantity, and when the new
      quantity is not positive no line with the id remains. */
  lemma UpdateQuantityPositive(s: CartState, id: string, q: int)
    ensures var r := Step(s, UpdateQuantity(id, q)).items;
      forall k :: 0 <= k < |r| ==> r[k].quantity > 0
    ensures var r := Step(s, UpdateQuantity(id, q)).items;
      q <= 0 ==> forall k :: 0 <= k < |r| ==> r[k].id != id
  {
    var m := Map(s.items, Requantify(id, q));
    var r := Filter(m, Positive());
    forall k | 0 <= k < |r|
      ensures r[k].quantity > 0 && (q <= 0 ==> r[k].id != id)
    {
      assert r[k] in m;
    }
  }

  /** `UPDATE_QUANTITY` keeps the lines with other ids that had a positive quantity,
      in their order, and no others. */
  lemma UpdateQuantityOthers(s: CartState, id: string, q: int)
    ensures var r := Step(s, UpdateQuantity(id, q)).items;
      Filter(r, NotId(id)) == Filter(s.items, KeptOther(id))
  {
    var f := Requantify(id, q);
    var m := Map(s.items, f);
    FilterFilter(m, Positive(), NotId(id), KeptOther(id));
    FilterMap(s.items, f, KeptOther(id), KeptOther(id));
    MapIdentity(Filter(s.items, KeptOther(id)), f);
  }

  /** With a positive quantity, the lines with the id are the old ones repriced at the new
      quantity, in order. */
  lemma UpdateQuantityMatching(s: CartState, id: string, q: int)
    requires q > 0
    ensures var r := Step(s, UpdateQuantity(id, q)).items;
      Filter(r, HasId(id)) == Map(Filter(s.items, HasId(id)), Requantify(id, q))
  {
    var f := Requantify(id, q);
    var m := Map(s.items, f);
    FilterFilter(m, Positive(), HasId(id), HasId(id));
    FilterMap(s.items, f, HasId(id), HasId(id));
  }

  /** `UPDATE_QUANTITY` for an id that is not in the cart changes no line; it only drops
      lines whose quantity was already not positive. */
  lemma UpdateQuantityAbsent(s: CartState, id: string, q: int)
    requires forall k :: 0 <= k < |s.items| ==> s.items[k].id != id
    ensures Step(s, UpdateQuantity(id, q)).items == Filter(s.items, Positive())
    ensures (forall k :: 0 <= k < |s.items| ==> s.items[k].quantity > 0) ==>
      Step(s, UpdateQuantity(id, q)).items == s.items
  {
    MapIdentity(s.items, Requantify(id, q));
    if forall k :: 0 <= k < |s.items| ==> s.items[k].quantity > 0 {
      FilterAll(s.items, Positive());
    }
  }

  /** `REMOVE_ITEM` leaves no line with the id and keeps every other line, in order; an
      id not in the cart changes nothing. */
  lemma RemoveItemLines(s: CartState, id: string)
    ensures var r := Step(s, RemoveItem(id)).items;
      IsSubsequence(r, s.items) && forall k :: 0 <= k < |r| ==> r[k].id != id
    ensures var r := Step(s, RemoveItem(id)).items;
      forall k :: 0 <= k < |s.items| && s.items[k].id != id ==> s.items[k] in r
    ensures var r := Step(s, RemoveItem(id)).items;
      forall x: CartItem :: multiset(r)[x] == if x.id != id then multiset(s.items)[x] else 0
    ensures (forall k :: 0 <= k < |s.items| ==> s.items[k].id != id) ==>
      Step(s, RemoveItem(id)).items == s.items
  {
    var r := Filter(s.items, NotId(id));
    assert Step(s, RemoveItem(id)).items == r;
    FilterIsSubsequence(s.items, NotId(id));
    forall x: CartItem
      ensures multiset(r)[x] == if x.id != id then multiset(s.items)[x] else 0
    {
      FilterCountOf(s.items, NotId(id), x);
      assert NotId(id)(x) == (x.id != id);
    }
    if forall k :: 0 <= k < |s.items| ==> s.items[k].id != id {
      FilterAll(s.items, NotId(id));
    }
  }

  /** `UPDATE_INSTRUCTIONS` changes nothing but the instructions of the lines with the
      id, and keeps the number and order of lines. */
  lemma UpdateInstructionsOnly(s: CartState, id: string, instr: string)
    ensures var r := Step(s, UpdateInstructions(id, instr)).items;
      |r| == |s.items| &&
      forall k :: 0 <= k < |r| ==>
        r[k].(specialInstructions := s.items[k].specialInstructions) == s.items[k] &&
        (s.items[k].id == id ==> r[k].specialInstructions == Some(instr)) &&
        (s.items[k].id != id ==> r[k] == s.items[k])
  {
  }

  /** `CLEAR_CART` gives the initial state, whatever came before. */
  lemma ClearCartEmpties(s: CartState)
    ensures Step(s, ClearCart) == InitialState
    ensures TotalsConsistent(InitialState)
  {
  }

  /** A line's total is its unit price times its quantity. */
  predicate Priced(item: CartItem)
  {
    item.totalPrice == item.unitPrice * item.quantity as real
  }

  predicate AllPriced(items: seq<CartItem>)
  {
    forall k :: 0 <= k < |items| ==> Priced(items[k])
  }

  /** Repricing a line at a new quantity keeps it priced. */
  lemma RequantifyPriced(items: seq<CartItem>, id: string, q: int)
    requires AllPriced(items)
    ensures AllPriced(Map(items, Requantify(id, q)))
  {
    var m := Map(items, Requantify(id, q));
    forall k | 0 <= k < |m|
      ensures Priced(m[k])
    {
      assert m[k] == Requantify(id, q)(items[k]);
      assert Priced(items[k]);
    }
  }

  /** A filter of priced lines is priced. */
  lemma FilterPriced(items: seq<CartItem>, p: CartItem -> bool)
    requires AllPriced(items)
    ensures AllPriced(Filter(items, p))
  {
    var r := Filter(items, p);
    forall k | 0 <= k < |r|
      ensures Priced(r[k])
    {
      assert r[k] in items;
    }
  }

  /** `totalPrice = unitPrice * quantity` on every line is kept by every action, as long
      as each `ADD_ITEM` payload satisfies it. */
  lemma StepKeepsPriced(s: CartState, a: CartAction)
    requires AllPriced(s.items)
    requires a.AddItem? ==> Priced(WithId(a.payload, a.newId))
    ensures AllPriced(Step(s, a).items)
  {
    match a
    case UpdateQuantity(id, q) =>
      RequantifyPriced(s.items, id, q);
      FilterPriced(Map(s.items, Requantify(id, q)), Positive());
    case RemoveItem(id) =>
      FilterPriced(s.items, NotId(id));
    case _ =>
  }
}
