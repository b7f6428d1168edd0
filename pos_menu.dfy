/** The menu panel of the counter screen (`client/src/pages/orders/PosMenu.tsx`): the
    search and category filter over the menu, and the add-to-cart handler. */
module PosMenu {
  import opened Wrappers
  import opened Seqs
  import opened Text
  import opened Catalog
  import opened CartContext

  /** The category tab that shows every category. */
  const AllCategories: string := "all"

  /** The lower-cased term is in the lower-cased name, or in a non-empty description. */
  predicate MatchesSearch(item: MenuItem, term: string)
  {
    ContainsIgnoringCase(item.name, term) ||
    (item.description.Some? && item.description.value != "" &&
     ContainsIgnoringCase(item.description.value, term))
  }

  predicate MatchesCategory(item: MenuItem, selected: string)
  {
    selected == AllCategories || item.categoryId == Some(selected)
  }

  function Shown(term: string, selected: string): MenuItem -> bool
  {
    (item: MenuItem) => MatchesSearch(item, term) && MatchesCategory(item, selected) && item.isAvailable
  }

  /** `filteredItems`: exactly the available items of `allItems` that match the search and
      the category tab. */
  function FilteredItems(allItems: seq<MenuItem>, term: string, selected: string): (r: seq<MenuItem>)
    ensures forall k :: 0 <= k < |r| ==>
      r[k] in allItems && r[k].isAvailable && MatchesSearch(r[k], term) && MatchesCategory(r[k], selected)
    ensures forall k :: 0 <= k < |allItems| ==>
      (allItems[k].isAvailable && MatchesSearch(allItems[k], term) && MatchesCategory(allItems[k], selected) ==>
        allItems[k] in r)
  {
    Filter(allItems, Shown(term, selected))
  }

  /** The filter keeps the menu order. */
  lemma FilteredIsSubsequence(allItems: seq<MenuItem>, term: string, selected: string)
    ensures IsSubsequence(FilteredItems(allItems, term, selected), allItems)
  {
    FilterIsSubsequence(allItems, Shown(term, selected));
  }

  /** The search matches exactly when the lower-cased term occurs at some offset of the
      lower-cased name or of a non-empty lower-cased description. */
  lemma SearchMeaning(item: MenuItem, term: string)
    ensures MatchesSearch(item, term) <==>
      (exists k :: OccursAt(Lower(item.name), Lower(term), k)) ||
      (item.description.Some? && item.description.value != "" &&
       exists k :: OccursAt(Lower(item.description.value), Lower(term), k))
  {
    ContainsIffOccurs(Lower(item.name), Lower(term));
    if item.description.Some? {
      ContainsIffOccurs(Lower(item.description.value), Lower(term));
    }
  }

  function InTab(selected: string): MenuItem -> bool
  {
    (item: MenuItem) => MatchesCategory(item, selected) && item.isAvailable
  }

  function Available(): MenuItem -> bool { (item: MenuItem) => item.isAvailable }

  /** An empty search term filters by category and availability alone; on the "all" tab it
      shows every available item. */
  lemma EmptySearchShowsTab(allItems: seq<MenuItem>, selected: string)
    ensures FilteredItems(allItems, "", selected) == Filter(allItems, InTab(selected))
    ensures FilteredItems(allItems, "", AllCategories) == Filter(allItems, Available())
  {
    forall k | 0 <= k < |allItems|
      ensures MatchesSearch(allItems[k], "")
    {
      ContainsEmpty(allItems[k].name);
    }
    FilterCongruent(allItems, Shown("", selected), InTab(selected));
    FilterCongruent(allItems, Shown("", AllCategories), Available());
  }

  /** `handleAddToCart`: one unit at the menu price. */
  function HandleAddToCart(menuItem: MenuItem): ItemDraft
  {
    ItemDraft(menuItem, 1, menuItem.price, menuItem.price, None, None)
  }

  /** Adding from the menu appends one line of quantity 1 whose unit and line prices are
      the menu price, so the line is priced and the subtotal grows by that price. */
  lemma AddToCartLine(s: CartState, menuItem: MenuItem, newId: string)
    requires TotalsConsistent(s)
    ensures var r := Step(s, AddItem(HandleAddToCart(menuItem), newId));
      |r.items| == |s.items| + 1 && r.items[..|s.items|] == s.items &&
      r.items[|s.items|].menuItem == menuItem && r.items[|s.items|].quantity == 1 &&
      r.items[|s.items|].unitPrice == menuItem.price && r.items[|s.items|].totalPrice == menuItem.price &&
      Priced(r.items[|s.items|]) && r.subtotal == s.subtotal + menuItem.price
  {
    AddItemAppends(s, HandleAddToCart(menuItem), newId);
  }
}
