/** The menu administration router of `server/menu.routes.ts`, with the categories,
    items and item-to-modifier-group links held as sequences of rows. Unlike the
    storage layer, this router deletes categories for real and lists items whatever
    their availability. */
module MenuRoutes {
  import opened Wrappers
  import opened Seqs
  import opened Catalog

  /** A row of `itemModifierGroups`. */
  datatype Link = Link(itemId: string, groupId: string)

  /** The fields an item PUT may set; a missing field is left as it is. */
  datatype ItemPatch = ItemPatch(
    categoryId: Option<Option<string>>,
    name: Option<string>,
    description: Option<Option<string>>,
    price: Option<real>,
    isAvailable: Option<bool>,
    sortOrder: Option<int>)

  function ApplyPatch(m: MenuItem, p: ItemPatch): MenuItem
  {
    MenuItem(m.id, p.categoryId.GetOr(m.categoryId), p.name.GetOr(m.name), p.description.GetOr(m.description),
      p.price.GetOr(m.price), p.isAvailable.GetOr(m.isAvailable), p.sortOrder.GetOr(m.sortOrder))
  }

  function Patched(id: string, p: ItemPatch): MenuItem -> MenuItem
  {
    (m: MenuItem) => if m.id == id then ApplyPatch(m, p) else m
  }

  function LinkTo(itemId: string): string -> Link { (g: string) => Link(itemId, g) }
  function OfItem(itemId: string): Link -> bool { (l: Link) => l.itemId == itemId }
  function NotOfItem(itemId: string): Link -> bool { (l: Link) => l.itemId != itemId }
  function GroupOf(l: Link): string { l.groupId }
  function NotCategory(id: string): Category -> bool { (c: Category) => c.id != id }
  function NotItem(id: string): MenuItem -> bool { (m: MenuItem) => m.id != id }

  /** `req.query.categoryId ? eq(menuItems.categoryId, cid) : undefined`: a missing or
      empty category id selects every item. */
  function ListedIn(cid: Option<string>): MenuItem -> bool
  {
    (m: MenuItem) => cid.None? || cid.value == "" || m.categoryId == cid
  }

  /** The links of one item. */
  function LinksOf(links: seq<Link>, itemId: string): seq<Link>
  {
    Filter(links, OfItem(itemId))
  }

  /** The item PUT with `modifierGroupIds`: delete the item's links, then insert one per id. */
  function ReplaceLinks(links: seq<Link>, itemId: string, groupIds: seq<string>): seq<Link>
  {
    Filter(links, NotOfItem(itemId)) + Map(groupIds, LinkTo(itemId))
  }

  /** After a replacement the item's links are exactly the given group ids, in order, and
      the other items' links are the ones they had. */
  lemma ReplaceLinksExact(links: seq<Link>, itemId: string, groupIds: seq<string>)
    ensures LinksOf(ReplaceLinks(links, itemId, groupIds), itemId) == Map(groupIds, LinkTo(itemId))
    ensures Map(LinksOf(ReplaceLinks(links, itemId, groupIds), itemId), GroupOf) == groupIds
    ensures Filter(ReplaceLinks(links, itemId, groupIds), NotOfItem(itemId)) == Filter(links, NotOfItem(itemId))
  {
    var kept := Filter(links, NotOfItem(itemId));
    var added := Map(groupIds, LinkTo(itemId));
    FilterConcat(kept, added, OfItem(itemId));
    FilterNone(kept, OfItem(itemId));
    FilterAll(added, OfItem(itemId));
    FilterConcat(kept, added, NotOfItem(itemId));
    FilterAll(kept, NotOfItem(itemId));
    FilterNone(added, NotOfItem(itemId));
    var groups := Map(added, GroupOf);
    assert |groups| == |groupIds|;
    assert forall k :: 0 <= k < |groups| ==> groups[k] == groupIds[k];
  }

  /** Removing an item's links keeps every other item's links. */
  lemma DropLinksKeepsOthers(links: seq<Link>, itemId: string, other: string)
    requires other != itemId
    ensures LinksOf(Filter(links, NotOfItem(itemId)), other) == LinksOf(links, other)
    ensures LinksOf(Filter(links, NotOfItem(itemId)), itemId) == []
  {
    FilterFilter(links, NotOfItem(itemId), OfItem(other), OfItem(other));
    FilterNone(Filter(links, NotOfItem(itemId)), OfItem(itemId));
  }

  predicate HasCategory(categories: seq<Category>, id: string)
  {
    exists k :: 0 <= k < |categories| && categories[k].id == id
  }

  /** The foreign key of `menu_items.category_id`: it names a stored category, or none. */
  predicate CategoryRefOk(categories: seq<Category>, categoryId: Option<string>)
  {
    categoryId.None? || HasCategory(categories, categoryId.value)
  }

  class MenuStore {
    var categories: seq<Category>
    var items: seq<MenuItem>
    var links: seq<Link>

    /** Every item's category exists, as the database's foreign key demands. */
    predicate Valid()
      reads this
    {
      forall k :: 0 <= k < |items| ==> CategoryRefOk(categories, items[k].categoryId)
    }

    constructor ()
      ensures Valid() && categories == [] && items == [] && links == []
    {
      categories, items, links := [], [], [];
    }

    /** `GET /categories`: every row, active or not, by `sortOrder`. */
    method ListCategories() returns (r: seq<Category>)
      ensures multiset(r) == multiset(categories)
      ensures SortedBy(r, CategoryOrder)
    {
      r := SortBy(categories, CategoryOrder);
    }

    /** `DELETE /categories/:id`: a hard delete. The database refuses it while an item
        still belongs to the category; then nothing changes and the handler fails. */
    method DeleteCategory(id: string) returns (deleted: bool)
      requires Valid()
      modifies this
      ensures Valid()
      ensures deleted <==> forall k :: 0 <= k < |old(items)| ==> old(items)[k].categoryId != Some(id)
      ensures deleted ==> categories == Filter(old(categories), NotCategory(id))
      ensures !deleted ==> categories == old(categories)
      ensures items == old(items) && links == old(links)
    {
      if exists k :: 0 <= k < |items| && items[k].categoryId == Some(id) {
        return false;
      }
      var before := categories;
      categories := Filter(categories, NotCategory(id));
      forall k | 0 <= k < |items|
        ensures CategoryRefOk(categories, items[k].categoryId)
      {
        if items[k].categoryId.Some? {
          var c := items[k].categoryId.value;
          var j :| 0 <= j < |before| && before[j].id == c;
          assert NotCategory(id)(before[j]);
          assert before[j] in categories;
        }
      }
      return true;
    }

    /** `GET /items`: the items of the requested category, or all of them, whatever
        their availability, by `sortOrder`. */
    method ListItems(cid: Option<string>) returns (r: seq<MenuItem>)
      ensures multiset(r) == multiset(Filter(items, ListedIn(cid)))
      ensures SortedBy(r, ItemOrder)
    {
      r := SortBy(Filter(items, ListedIn(cid)), ItemOrder);
    }

    /** `POST /items`: the item row, then one link per group id. An unknown category is
        refused by the foreign key and nothing is stored. */
    method PostItem(item: MenuItem, groupIds: Option<seq<string>>) returns (created: Option<MenuItem>)
      requires Valid()
      modifies this
      ensures Valid()
      ensures !CategoryRefOk(old(categories), item.categoryId) ==>
        created == None && items == old(items) && links == old(links)
      ensures CategoryRefOk(old(categories), item.categoryId) ==>
        created == Some(item) && items == old(items) + [item] &&
        links == old(links) + Map(groupIds.GetOr([]), LinkTo(item.id))
      ensures categories == old(categories)
    {
      if !CategoryRefOk(categories, item.categoryId) {
        return None;
      }
      items := items + [item];
      var g := groupIds.GetOr([]);
      if |g| > 0 {
        links := links + Map(g, LinkTo(item.id));
      } else {
        assert links + Map(g, LinkTo(item.id)) == links;
      }
      return Some(item);
    }

    /** `PUT /items/:id`: the patch first; when the update statement fails (an unknown
        category, or `updateFails` for any other database error) the handler stops there.
        Otherwise, only when `modifierGroupIds` is present, the item's links are replaced
        by exactly those ids. */
    method PutItem(id: string, patch: ItemPatch, groupIds: Option<seq<string>>, updateFails: bool)
      returns (ok: bool, row: Option<MenuItem>)
      requires Valid()
      modifies this
      ensures Valid()
      ensures ok <==> !updateFails && (patch.categoryId.None? || CategoryRefOk(old(categories), patch.categoryId.value))
      ensures !ok ==> items == old(items) && links == old(links) && row == None
      ensures ok ==> items == Map(old(items), Patched(id, patch)) && row == Find(items, ItemHasId(id))
      ensures ok && groupIds.Some? ==> links == ReplaceLinks(old(links), id, groupIds.value)
      ensures ok && groupIds.None? ==> links == old(links)
      ensures categories == old(categories)
    {
      if updateFails || (patch.categoryId.Some? && !CategoryRefOk(categories, patch.categoryId.value)) {
        return false, None;
      }
      var before := items;
      items := Map(items, Patched(id, patch));
      forall k | 0 <= k < |items|
        ensures CategoryRefOk(categories, items[k].categoryId)
      {
        assert items[k] == Patched(id, patch)(before[k]);
      }
      row := Find(items, ItemHasId(id));
      if groupIds.Some? {
        links := Filter(links, NotOfItem(id));
        if |groupIds.value| > 0 {
          links := links + Map(groupIds.value, LinkTo(id));
        } else {
          assert links + Map(groupIds.value, LinkTo(id)) == links;
        }
      }
      ok := true;
    }

    /** `DELETE /items/:id`: the item's links first, then the row. When the row delete
        fails (order lines still refer to the item) the links are gone and the row stays. */
    method DeleteItem(id: string, rowDeleteFails: bool) returns (deleted: bool)
      requires Valid()
      modifies this
      ensures Valid()
      ensures links == Filter(old(links), NotOfItem(id))
      ensures deleted == !rowDeleteFails
      ensures deleted ==> items == Filter(old(items), NotItem(id))
      ensures !deleted ==> items == old(items)
      ensures categories == old(categories)
    {
      links := Filter(links, NotOfItem(id));
      if rowDeleteFails {
        return false;
      }
      items := Filter(items, NotItem(id));
      return true;
    }
  }

  /** After a category's deletion no category has its id and every other category stays. */
  lemma DeletedCategoryGone(categories: seq<Category>, id: string)
    ensures var r := Filter(categories, NotCategory(id));
      (forall k :: 0 <= k < |r| ==> r[k].id != id) &&
      (forall k :: 0 <= k < |categories| && categories[k].id != id ==> categories[k] in r) &&
      IsSubsequence(r, categories)
  {
    FilterIsSubsequence(categories, NotCategory(id));
  }

  /** A listing by category holds only that category's items; without a category it holds
      every item, available or not. */
  lemma ListedInMeaning(items: seq<MenuItem>, cid: Option<string>)
    ensures cid.Some? && cid.value != "" ==>
      forall k :: 0 <= k < |Filter(items, ListedIn(cid))| ==> Filter(items, ListedIn(cid))[k].categoryId == cid
    ensures cid.None? || cid.value == "" ==> Filter(items, ListedIn(cid)) == items
  {
    if cid.None? || cid.value == "" {
      FilterAll(items, ListedIn(cid));
    }
  }
}
