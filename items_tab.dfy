/** The menu items tab (`client/src/pages/menu/ItemsTab.tsx`): its search, the category
    names it shows, its form schema and its save. */
module ItemsTab {
  import opened Wrappers
  import opened Seqs
  import opened Text
  import opened Catalog
  import opened AdminForms

  /** The values of the item form; the price is the text typed. */
  datatype ItemForm = ItemForm(
    name: string, description: Option<string>, price: string, categoryId: string,
    isAvailable: bool, sortOrder: int)

  const DefaultForm: ItemForm := ItemForm("", Some(""), "", "", true, 0)

  /** `itemSchema`: a name, a price text and a category, none empty, and a sort order of
      at least 0. */
  predicate ValidItemForm(f: ItemForm)
  {
    |f.name| >= 1 && |f.price| >= 1 && |f.categoryId| >= 1 && f.sortOrder >= 0
  }

  /** The schema does not check that the price is a number. */
  lemma PriceNotChecked()
    ensures ValidItemForm(ItemForm("Taco", None, "abc", "c1", true, 0))
  {
  }

  /** The blank form of a new item does not pass the schema until name, price and category
      are filled in; those three alone make it pass. */
  lemma DefaultFormNeedsInput(name: string, price: string, categoryId: string)
    ensures !ValidItemForm(DefaultForm)
    ensures ValidItemForm(DefaultForm.(name := name, price := price, categoryId := categoryId)) <==>
      name != "" && price != "" && categoryId != ""
  {
  }

  function Shown(term: string, selected: string): MenuItem -> bool
  {
    (item: MenuItem) => ContainsIgnoringCase(item.name, term) &&
      (selected == "all" || item.categoryId == Some(selected))
  }

  /** `filteredItems`: the name search and the category filter; description and
      availability play no part. */
  function FilteredItems(items: seq<MenuItem>, term: string, selected: string): (r: seq<MenuItem>)
    ensures forall k :: 0 <= k < |r| ==>
      r[k] in items && ContainsIgnoringCase(r[k].name, term) &&
      (selected == "all" || r[k].categoryId == Some(selected))
    ensures forall k :: 0 <= k < |items| ==>
      (ContainsIgnoringCase(items[k].name, term) && (selected == "all" || items[k].categoryId == Some(selected)) ==>
        items[k] in r)
  {
    Filter(items, Shown(term, selected))
  }

  /** The filter keeps the list order, and an empty term on the "all" filter keeps every
      item, unavailable ones included. */
  lemma FilteredItemsOrder(items: seq<MenuItem>, term: string, selected: string)
    ensures IsSubsequence(FilteredItems(items, term, selected), items)
    ensures FilteredItems(items, "", "all") == items
  {
    FilterIsSubsequence(items, Shown(term, selected));
    forall k | 0 <= k < |items|
      ensures Shown("", "all")(items[k])
    {
      ContainsEmpty(items[k].name);
    }
    FilterAll(items, Shown("", "all"));
  }

  /** `getCategoryName`: 'No Category' for a missing id, the name of the first category
      with the id, and 'Unknown' when there is none (or its name is empty). */
  function CategoryName(categories: seq<Category>, categoryId: Option<string>): (r: string)
    ensures categoryId.None? || categoryId == Some("") ==> r == "No Category"
    ensures (categoryId.Some? && categoryId.value != "" &&
             forall k :: 0 <= k < |categories| ==> categories[k].id != categoryId.value) ==> r == "Unknown"
    ensures (categoryId.Some? && categoryId.value != "" && Find(categories, CategoryHasId(categoryId.value)).Some? &&
             Find(categories, CategoryHasId(categoryId.value)).value.name != "") ==>
      r == Find(categories, CategoryHasId(categoryId.value)).value.name
    ensures r != "No Category" && r != "Unknown" ==>
      exists k :: 0 <= k < |categories| && Some(categories[k].id) == categoryId && categories[k].name == r
  {
    if categoryId.None? || categoryId.value == "" then "No Category"
    else
      match Find(categories, CategoryHasId(categoryId.value))
      case Some(c) => if c.name != "" then c.name else "Unknown"
      case None => "Unknown"
  }

  /** The save of the item dialog. */
  function HandleSubmit(ed: Editor<ItemForm>, data: ItemForm, succeeds: bool): Submitted<ItemForm>
  {
    Submit(ed, data, succeeds, DefaultForm)
  }

  /** Editing an item sends an update of that item; otherwise a create. The dialog is
      closed and blank after a success, untouched after a failure. */
  lemma HandleSubmitChoice(ed: Editor<ItemForm>, data: ItemForm, succeeds: bool)
    ensures ed.editingId.Some? ==> HandleSubmit(ed, data, succeeds).request == Update(ed.editingId.value, data)
    ensures ed.editingId.None? ==> HandleSubmit(ed, data, succeeds).request == Create(data)
    ensures succeeds ==> HandleSubmit(ed, data, succeeds).after == Editor(None, false, DefaultForm)
    ensures !succeeds ==> HandleSubmit(ed, data, succeeds).after == ed
  {
  }
}
