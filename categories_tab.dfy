/** The categories tab (`client/src/pages/menu/CategoriesTab.tsx`): its search, its form
    schema and its save. */
module CategoriesTab {
  import opened Wrappers
  import opened Seqs
  import opened Text
  import opened Catalog
  import opened AdminForms

  datatype CategoryForm = CategoryForm(name: string, description: Option<string>, sortOrder: int, isActive: bool)

  const DefaultForm: CategoryForm := CategoryForm("", Some(""), 0, true)

  /** `categorySchema`: a non-empty name and a sort order of at least 0; the description
      may be left out. */
  predicate ValidCategoryForm(f: CategoryForm)
  {
    |f.name| >= 1 && f.sortOrder >= 0
  }

  /** The description plays no part in validity, and a name is all the default form
      lacks. */
  lemma CategoryFormMeaning(f: CategoryForm, d: Option<string>, name: string)
    ensures ValidCategoryForm(f.(description := d)) == ValidCategoryForm(f)
    ensures ValidCategoryForm(DefaultForm.(name := name)) <==> name != ""
  {
  }

  function NameMatches(term: string): Category -> bool
  {
    (c: Category) => ContainsIgnoringCase(c.name, term)
  }

  /** `filteredCategories`: exactly the categories whose lower-cased name contains the
      lower-cased term. */
  function FilteredCategories(categories: seq<Category>, term: string): (r: seq<Category>)
    ensures forall k :: 0 <= k < |r| ==> r[k] in categories && ContainsIgnoringCase(r[k].name, term)
    ensures forall k :: 0 <= k < |categories| && ContainsIgnoringCase(categories[k].name, term) ==>
      categories[k] in r
  {
    Filter(categories, NameMatches(term))
  }

  /** The filter keeps the order, and an empty term keeps every category. */
  lemma FilteredCategoriesOrder(categories: seq<Category>, term: string)
    ensures IsSubsequence(FilteredCategories(categories, term), categories)
    ensures FilteredCategories(categories, "") == categories
  {
    FilterIsSubsequence(categories, NameMatches(term));
    forall k | 0 <= k < |categories|
      ensures NameMatches("")(categories[k])
    {
      ContainsEmpty(categories[k].name);
    }
    FilterAll(categories, NameMatches(""));
  }

  /** The save of the category dialog. */
  function HandleSubmit(ed: Editor<CategoryForm>, data: CategoryForm, succeeds: bool): Submitted<CategoryForm>
  {
    Submit(ed, data, succeeds, DefaultForm)
  }

  /** Editing a category sends an update of it, otherwise a create; the dialog is reset
      after a success only. */
  lemma HandleSubmitChoice(ed: Editor<CategoryForm>, data: CategoryForm, succeeds: bool)
    ensures ed.editingId.Some? ==> HandleSubmit(ed, data, succeeds).request == Update(ed.editingId.value, data)
    ensures ed.editingId.None? ==> HandleSubmit(ed, data, succeeds).request == Create(data)
    ensures succeeds ==> HandleSubmit(ed, data, succeeds).after == Editor(None, false, DefaultForm)
    ensures !succeeds ==> HandleSubmit(ed, data, succeeds).after == ed
  {
  }
}
