/** The "New Order" dialog of `client/src/components/pos/OrderModal.tsx`. Its cart lines
    are objects: adding an item whose menu item is already in the cart increments the
    quantity of the existing line object in place, while a quantity update replaces the
    matching line by a new object. Lines are keyed by `menuItemId` when merging and by
    their own `id` when updated or removed. */
module OrderModal {
  import opened Wrappers
  import opened Seqs
  import opened Pricing

  /** The value of a cart line at one moment. */
  datatype Line = Line(id: string, menuItemId: string, name: string, price: real, quantity: int)

  /** A cart line object (`CartItem` of the client types). Only `quantity` is ever
      assigned after creation. */
  class CartLine {
    const id: string
    const menuItemId: string
    const name: string
    const price: real
    var quantity: int

    constructor (id: string, menuItemId: string, name: string, price: real, quantity: int)
      ensures Value() == Line(id, menuItemId, name, price, quantity)
    {
      this.id := id;
      this.menuItemId := menuItemId;
      this.name := name;
      this.price := price;
      this.quantity := quantity;
    }

    function Value(): Line
      reads this
    {
      Line(id, menuItemId, name, price, quantity)
    }
  }

  /** The values of a sequence of line objects. */
  function Snapshot(s: seq<CartLine>): (r: seq<Line>)
    reads s
    ensures |r| == |s|
    ensures forall i :: 0 <= i < |s| ==> r[i] == s[i].Value()
  {
    seq(|s|, i reads s requires 0 <= i < |s| => s[i].Value())
  }

  predicate Distinct(s: seq<CartLine>)
  {
    forall i, j :: 0 <= i < j < |s| ==> s[i] != s[j]
  }

  function LineAmount(l: Line): real { l.price * l.quantity as real }

  function Subtotal(lines: seq<Line>): real
  {
    Sum(lines, LineAmount)
  }

  /** `i => i.menuItemId === menuItemId`, the test `findIndex` applies. */
  function ForMenuItem(menuItemId: string): Line -> bool
  {
    (l: Line) => l.menuItemId == menuItemId
  }

  /** What `addToCart` does to the values of the cart. */
  function MergeAdd(lines: seq<Line>, l: Line): seq<Line>
  {
    match FindIndex(lines, ForMenuItem(l.menuItemId))
    case Some(k) => lines[k := lines[k].(quantity := lines[k].quantity + l.quantity)]
    case None => lines + [l]
  }

  function SetQuantity(id: string, q: int): Line -> Line
  {
    (l: Line) => if l.id == id then l.(quantity := q) else l
  }

  function LineNotId(id: string): Line -> bool { (l: Line) => l.id != id }
  function ObjectNotId(id: string): CartLine -> bool { (c: CartLine) => c.id != id }

  /** At most one line per menu item. */
  predicate UniqueMenuItems(lines: seq<Line>)
  {
    forall i, j :: 0 <= i < j < |lines| ==> lines[i].menuItemId != lines[j].menuItemId
  }

  class Cart {
    var items: seq<CartLine>
    var subtotal: real
    var tax: real
    var total: real

    /** Distinct line objects, and totals that are the 8 % totals of the lines. */
    predicate Valid()
      reads this, items
    {
      Distinct(items) &&
      subtotal == Subtotal(Snapshot(items)) && tax == subtotal * FlatTaxRate && total == subtotal + tax
    }

    constructor ()
      ensures Valid() && items == [] && subtotal == 0.0 && tax == 0.0 && total == 0.0
    {
      items := [];
      subtotal, tax, total := 0.0, 0.0, 0.0;
    }

    method Recompute()
      modifies this
      ensures items == old(items)
      ensures subtotal == Subtotal(Snapshot(items)) && tax == subtotal * FlatTaxRate && total == subtotal + tax
    {
      subtotal := Subtotal(Snapshot(items));
      tax := subtotal * FlatTaxRate;
      total := subtotal + tax;
    }

    /** `addToCart`. A line for the same menu item has its quantity raised in place (the
        object stays, the added one is dropped); otherwise the added object is appended. */
    method AddToCart(item: CartLine)
      requires Valid() && item !in items
      modifies this, items
      ensures Valid()
      ensures Snapshot(items) == MergeAdd(old(Snapshot(items)), old(item.Value()))
      ensures FindIndex(old(Snapshot(items)), ForMenuItem(item.menuItemId)).Some? ==> items == old(items)
      ensures FindIndex(old(Snapshot(items)), ForMenuItem(item.menuItemId)).None? ==> items == old(items) + [item]
    {
      ghost var before := Snapshot(items);
      ghost var added := item.Value();
      var found := FindIndex(Snapshot(items), ForMenuItem(item.menuItemId));
      if found.Some? {
        RaiseQuantity(items, found.value, item.quantity);
        assert Snapshot(items) == MergeAdd(before, added);
      } else {
        items := items + [item];
        assert Snapshot(items) == before + [added];
      }
      Recompute();
    }

    /** `removeFromCart`: drops the lines with this `id` and keeps the rest in order. */
    method RemoveFromCart(itemId: string)
      requires Valid()
      modifies this
      ensures Valid()
      ensures items == Filter(old(items), ObjectNotId(itemId))
      ensures Snapshot(items) == Filter(old(Snapshot(items)), LineNotId(itemId))
    {
      SnapshotFilter(items, itemId);
      FilterKeepsDistinct(items, ObjectNotId(itemId));
      items := Filter(items, ObjectNotId(itemId));
      Recompute();
    }

    /** `updateQuantity`: a quantity of zero or less is `removeFromCart`; otherwise each
        line with this `id` is replaced by a new object with the quantity, and the other
        line objects stay. */
    method UpdateQuantity(itemId: string, quantity: int)
      requires Valid()
      modifies this
      ensures Valid()
      ensures quantity <= 0 ==> Snapshot(items) == Filter(old(Snapshot(items)), LineNotId(itemId))
      ensures quantity > 0 ==> Snapshot(items) == Map(old(Snapshot(items)), SetQuantity(itemId, quantity))
      ensures quantity > 0 ==> (|items| == old(|items|) &&
        forall i :: 0 <= i < |items| && old(items[i].id) != itemId ==> items[i] == old(items[i]))
    {
      if quantity <= 0 {
        RemoveFromCart(itemId);
        return;
      }
      items := Requantify(items, itemId, quantity);
      Recompute();
    }

    /** `clearCart`. */
    method ClearCart()
      modifies this
      ensures Valid() && items == [] && subtotal == 0.0 && tax == 0.0 && total == 0.0
    {
      items := [];
      subtotal, tax, total := 0.0, 0.0, 0.0;
    }
  }

  /** `existing.quantity += item.quantity` on the line object at `k`: only that object's
      value changes. */
  method RaiseQuantity(lines: seq<CartLine>, k: nat, n: int)
    requires k < |lines| && Distinct(lines)
    modifies lines[k]
    ensures Snapshot(lines) == old(Snapshot(lines))[k := old(Snapshot(lines)[k]).(quantity := old(lines[k].quantity) + n)]
  {
    ghost var before := Snapshot(lines);
    var target := lines[k];
    target.quantity := target.quantity + n;
    forall j | 0 <= j < |lines|
      ensures lines[j].Value() == before[k := before[k].(quantity := before[k].quantity + n)][j]
    {
      if j != k {
        assert lines[j] != target;
      }
    }
  }

  /** The `map` of `updateQuantity` over line objects: each line with the id is copied
      into a new object with the quantity; the others are kept as they are. */
  method Requantify(lines: seq<CartLine>, itemId: string, quantity: int) returns (r: seq<CartLine>)
    requires Distinct(lines)
    ensures |r| == |lines| && Distinct(r)
    ensures Snapshot(r) == Map(Snapshot(lines), SetQuantity(itemId, quantity))
    ensures forall i :: 0 <= i < |r| ==>
      if lines[i].id == itemId then fresh(r[i]) else r[i] == lines[i]
  {
    r := [];
    var i := 0;
    while i < |lines|
      invariant 0 <= i <= |lines|
      invariant |r| == i
      invariant Distinct(r)
      invariant forall j :: 0 <= j < i ==> r[j].Value() == SetQuantity(itemId, quantity)(lines[j].Value())
      invariant forall j :: 0 <= j < i ==>
        if lines[j].id == itemId then fresh(r[j]) else r[j] == lines[j]
    {
      var line := lines[i];
      if line.id == itemId {
        var copy := new CartLine(line.id, line.menuItemId, line.name, line.price, quantity);
        r := r + [copy];
      } else {
        r := r + [line];
      }
      i := i + 1;
    }
  }

  /** Adding an item whose menu item has a line raises that line's quantity by the added
      quantity and changes nothing else, so the line count stays. */
  lemma MergeExisting(lines: seq<Line>, l: Line)
    requires FindIndex(lines, ForMenuItem(l.menuItemId)).Some?
    ensures var k := FindIndex(lines, ForMenuItem(l.menuItemId)).value;
      var r := MergeAdd(lines, l);
      |r| == |lines| && r[k].quantity == lines[k].quantity + l.quantity &&
      r[k].(quantity := lines[k].quantity) == lines[k] &&
      forall j :: 0 <= j < |r| && j != k ==> r[j] == lines[j]
  {
  }

  /** Adding an item with a new menu item appends it at the end. */
  lemma MergeNew(lines: seq<Line>, l: Line)
    requires forall j :: 0 <= j < |lines| ==> lines[j].menuItemId != l.menuItemId
    ensures MergeAdd(lines, l) == lines + [l]
  {
  }

  /** `addToCart` keeps one line per menu item. */
  lemma MergeKeepsUnique(lines: seq<Line>, l: Line)
    requires UniqueMenuItems(lines)
    ensures UniqueMenuItems(MergeAdd(lines, l))
  {
  }

  /** On a merge the subtotal grows by the added quantity at the price of the existing
      line, not at the added item's price. */
  lemma MergeSubtotalExisting(lines: seq<Line>, l: Line, k: nat)
    requires FindIndex(lines, ForMenuItem(l.menuItemId)) == Some(k)
    ensures Subtotal(MergeAdd(lines, l)) == Subtotal(lines) + lines[k].price * l.quantity as real
  {
    RaiseSubtotal(lines, k, l.quantity);
  }

  /** Appending a line adds its price times its quantity. */
  lemma MergeSubtotalNew(lines: seq<Line>, l: Line)
    requires FindIndex(lines, ForMenuItem(l.menuItemId)).None?
    ensures Subtotal(MergeAdd(lines, l)) == Subtotal(lines) + l.price * l.quantity as real
  {
    SumConcat(lines, [l], LineAmount);
    assert Sum([l], LineAmount) == LineAmount(l) by { assert [l][..0] == []; }
  }

  /** Raising one line's quantity by `n` adds `n` times its price. */
  lemma RaiseSubtotal(lines: seq<Line>, k: int, n: int)
    requires 0 <= k < |lines|
    ensures Subtotal(lines[k := lines[k].(quantity := lines[k].quantity + n)])
      == Subtotal(lines) + lines[k].price * n as real
  {
    var before := lines[k];
    var after := before.(quantity := before.quantity + n);
    SumUpdate(lines, k, after, LineAmount);
    Distribute(before.price, before.quantity, n);
  }

  /** Filtering the objects and taking their values is taking the values and filtering. */
  lemma {:induction false} SnapshotFilter(s: seq<CartLine>, id: string)
    ensures Snapshot(Filter(s, ObjectNotId(id))) == Filter(Snapshot(s), LineNotId(id))
  {
    if s != [] {
      SnapshotFilter(s[1..], id);
      assert Snapshot(s)[1..] == Snapshot(s[1..]);
      if s[0].id != id {
        var f := Filter(s, ObjectNotId(id));
        assert f[0] == s[0] && f[1..] == Filter(s[1..], ObjectNotId(id));
        assert Snapshot(f)[1..] == Snapshot(f[1..]);
      }
    }
  }

  lemma FilterKeepsDistinct(s: seq<CartLine>, p: CartLine -> bool)
    requires Distinct(s)
    ensures Distinct(Filter(s, p))
  {
    FilterIsSubsequence(s, p);
    SubsequenceKeepsDistinct(Filter(s, p), s);
  }

  lemma {:induction false} SubsequenceKeepsDistinct(r: seq<CartLine>, s: seq<CartLine>)
    requires IsSubsequence(r, s) && Distinct(s)
    ensures Distinct(r)
    decreases |s|
  {
    if r != [] && s != [] {
      if r[0] == s[0] && IsSubsequence(r[1..], s[1..]) {
        SubsequenceKeepsDistinct(r[1..], s[1..]);
        forall j | 1 <= j < |r|
          ensures r[0] != r[j]
        {
          SubsequenceMember(r[1..], s[1..], j - 1);
        }
      } else {
        SubsequenceKeepsDistinct(r, s[1..]);
      }
    }
  }
}
