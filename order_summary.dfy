/** The summary panel of `client/src/components/pos/OrderSummary.tsx`: totals computed
    from the line list it is given, and the quantity controls of each line. */
module OrderSummary {
  import opened Wrappers
  import opened Seqs
  import opened Pricing

  datatype SummaryLine = SummaryLine(id: string, name: string, price: real, quantity: int, notes: Option<string>)

  function LineAmount(l: SummaryLine): real { l.price * l.quantity as real }

  /** The panel's subtotal, tax and total. These are the only values the panel guards
      with `cartItems || []`, so for them a missing line list counts as empty. */
  function Summary(cartItems: Option<seq<SummaryLine>>): (t: Totals)
    ensures cartItems.None? ==> t == ZeroTotals
    ensures t.tax == t.subtotal * FlatTaxRate && t.total == t.subtotal + t.tax
  {
    TotalsOf(Sum(cartItems.GetOr([]), LineAmount), FlatTaxRate)
  }

  /** What the panel shows: its totals, whether the Clear button and the totals footer
      appear, whether the "No items in cart" note appears, and the lines it lists. */
  datatype Panel = Panel(totals: Totals, showClear: bool, emptyNote: bool, lines: seq<SummaryLine>)

  /** The panel as written. Only the totals guard a missing list: the Clear button, the
      list and the footer read `cartItems.length` directly, so a missing list makes the
      render throw, which is `None` here. */
  function Render(cartItems: Option<seq<SummaryLine>>): (r: Option<Panel>)
    ensures r.None? <==> cartItems.None?
    ensures r.Some? ==> r.value.totals == Summary(cartItems) && r.value.lines == cartItems.value
    ensures r.Some? ==> (r.value.showClear <==> |cartItems.value| > 0) && (r.value.emptyNote <==> !r.value.showClear)
  {
    match cartItems
    case None => None
    case Some(lines) => Some(Panel(Summary(cartItems), |lines| > 0, |lines| == 0, lines))
  }

  /** The panel with `cartItems || []` used throughout, as the totals already do. */
  function CorrectedRender(cartItems: Option<seq<SummaryLine>>): (r: Panel)
    ensures r.lines == cartItems.GetOr([]) && r.totals == Summary(Some(r.lines))
    ensures (r.showClear <==> r.lines != []) && (r.emptyNote <==> r.lines == [])
  {
    var lines := cartItems.GetOr([]);
    Panel(Summary(Some(lines)), |lines| > 0, |lines| == 0, lines)
  }

  /** A missing line list makes the panel as written throw. */
  lemma MissingListThrows()
    ensures Render(None) == None
  {
  }

  /** The corrected panel shows a present list exactly as the written one does, and for a
      missing list it shows the empty-cart note, no Clear button and zero totals. */
  lemma CorrectedRenderAgrees(cartItems: Option<seq<SummaryLine>>)
    ensures cartItems.Some? ==> Render(cartItems) == Some(CorrectedRender(cartItems))
    ensures cartItems.None? ==> CorrectedRender(cartItems) == Panel(ZeroTotals, false, true, [])
  {
  }

  /** The subtotal adds up over a split of the lines, and so does the total. */
  lemma SummaryConcat(a: seq<SummaryLine>, b: seq<SummaryLine>)
    ensures Summary(Some(a + b)).subtotal == Summary(Some(a)).subtotal + Summary(Some(b)).subtotal
    ensures Summary(Some(a + b)).total == Summary(Some(a)).total + Summary(Some(b)).total
  {
    SumConcat(a, b, LineAmount);
  }

  /** The minus control: disabled (no request) at quantity 1 or below, otherwise a request
      for one less. */
  function DecrementRequest(l: SummaryLine): (r: Option<int>)
    ensures r == None <==> l.quantity <= 1
    ensures r.Some? ==> r.value >= 1 && r.value + 1 == l.quantity
  {
    if l.quantity <= 1 then None else Some(l.quantity - 1)
  }

  /** The plus control always requests one more. */
  function IncrementRequest(l: SummaryLine): (r: int)
    ensures r > l.quantity
  {
    l.quantity + 1
  }

  /** Giving line `k` quantity `q` moves the subtotal by its price times the change. */
  lemma RequantifySubtotal(lines: seq<SummaryLine>, k: nat, q: int)
    requires k < |lines|
    ensures Summary(Some(lines[k := lines[k].(quantity := q)])).subtotal ==
      Summary(Some(lines)).subtotal + lines[k].price * (q - lines[k].quantity) as real
  {
    SumUpdate(lines, k, lines[k].(quantity := q), LineAmount);
    ChangeQuantity(Sum(lines, LineAmount), lines[k].price, lines[k].quantity, q);
  }

  /** Acting on the plus control of line `k` raises the subtotal by that line's price. */
  lemma IncrementRaisesSubtotal(lines: seq<SummaryLine>, k: nat)
    requires k < |lines|
    ensures Summary(Some(lines[k := lines[k].(quantity := IncrementRequest(lines[k]))])).subtotal ==
      Summary(Some(lines)).subtotal + lines[k].price
  {
    RequantifySubtotal(lines, k, IncrementRequest(lines[k]));
  }

  /** Acting on an enabled minus control of line `k` lowers the subtotal by that line's
      price. */
  lemma DecrementLowersSubtotal(lines: seq<SummaryLine>, k: nat)
    requires k < |lines| && DecrementRequest(lines[k]).Some?
    ensures Summary(Some(lines[k := lines[k].(quantity := DecrementRequest(lines[k]).value)])).subtotal ==
      Summary(Some(lines)).subtotal - lines[k].price
  {
    RequantifySubtotal(lines, k, DecrementRequest(lines[k]).value);
  }

  /** No lines, or no list at all, give all-zero totals. */
  lemma EmptySummary(cartItems: Option<seq<SummaryLine>>)
    requires cartItems == None || cartItems == Some([])
    ensures Summary(cartItems) == ZeroTotals
  {
  }

  /** Lines with non-negative prices and quantities give non-negative totals, and the
      total is never below the subtotal. */
  lemma SummaryNonNegative(lines: seq<SummaryLine>)
    requires forall k :: 0 <= k < |lines| ==> lines[k].price >= 0.0 && lines[k].quantity >= 0
    ensures var t := Summary(Some(lines));
      t.subtotal >= 0.0 && t.tax >= 0.0 && t.total >= t.subtotal
  {
    forall k | 0 <= k < |lines|
      ensures LineAmount(lines[k]) >= 0.0
    {
    }
    SumNonNegative(lines, LineAmount);
  }

  /** Whatever the controls request for a line that has at least one unit, the request
      is at least 1: the panel itself never asks for a quantity below 1. */
  lemma RequestsStayPositive(l: SummaryLine)
    requires l.quantity >= 1
    ensures DecrementRequest(l).GetOr(l.quantity) >= 1
    ensures IncrementRequest(l) >= 1
  {
  }
}
