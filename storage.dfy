/** The database layer of `server/storage.ts`, with each table held as a sequence of rows.
    Generated ids, timestamps and the random order-number suffix are parameters, and a
    failing insert is a flag. */
module Storage {
  import opened Wrappers
  import opened Seqs
  import opened Text
  import opened Catalog

  datatype Order = Order(
    id: string,
    orderNumber: string,
    customerId: Option<string>,
    userId: Option<string>,
    status: string,
    orderType: string,
    subtotal: real,
    tax: real,
    total: real,
    paymentMethod: Option<string>,
    paymentStatus: string,
    notes: Option<string>,
    createdAt: int,
    updatedAt: int)

  /** The values given to `createOrder`. Fields left out take the column defaults. The
      caller may propose an order number; it is overwritten. */
  datatype NewOrder = NewOrder(
    orderNumber: Option<string>,
    customerId: Option<string>,
    userId: Option<string>,
    status: Option<string>,
    orderType: Option<string>,
    subtotal: real,
    tax: real,
    total: real,
    paymentMethod: Option<string>,
    paymentStatus: Option<string>,
    notes: Option<string>)

  datatype OrderItem = OrderItem(
    id: string,
    orderId: string,
    menuItemId: Option<string>,
    quantity: real,
    unitPrice: real,
    totalPrice: real,
    specialInstructions: Option<string>)

  datatype NewOrderItem = NewOrderItem(
    menuItemId: Option<string>,
    quantity: real,
    unitPrice: real,
    totalPrice: real,
    specialInstructions: Option<string>)

  datatype InventoryItem = InventoryItem(
    id: string,
    name: string,
    unit: string,
    currentStock: real,
    minStock: real,
    updatedAt: int)

  /** `ORD-<Date.now()>-<suffix>`. */
  function StaffOrderNumber(now: nat, suffix: string): (r: string)
    ensures |r| > 5 && r[..4] == "ORD-"
  {
    "ORD-" + Decimal(now) + "-" + suffix
  }

  /** The header row `createOrder` inserts: the column defaults fill the missing fields. */
  function OrderRow(o: NewOrder, id: string, now: nat, suffix: string): Order
  {
    Order(id, StaffOrderNumber(now, suffix), o.customerId, o.userId,
      o.status.GetOr("pending"), o.orderType.GetOr("dine-in"),
      o.subtotal, o.tax, o.total, o.paymentMethod, o.paymentStatus.GetOr("pending"), o.notes,
      now, now)
  }

  function ItemRows(items: seq<NewOrderItem>, ids: seq<string>, orderId: string): (r: seq<OrderItem>)
    requires |ids| == |items|
    ensures |r| == |items|
  {
    seq(|items|, k requires 0 <= k < |items| =>
      OrderItem(ids[k], orderId, items[k].menuItemId, items[k].quantity,
        items[k].unitPrice, items[k].totalPrice, items[k].specialInstructions))
  }

  function RowMenuItem(r: OrderItem): Option<string> { r.menuItemId }
  function RequestMenuItem(i: NewOrderItem): Option<string> { i.menuItemId }
  function RowTotal(r: OrderItem): real { r.totalPrice }
  function RequestTotal(i: NewOrderItem): real { i.totalPrice }

  /** The inserted item rows keep the request: each carries the new order's id and its
      own generated id, they name the same menu items in the same order, and their line
      totals add up to the same amount. */
  lemma ItemRowsKeepRequest(items: seq<NewOrderItem>, ids: seq<string>, orderId: string)
    requires |ids| == |items|
    ensures var r := ItemRows(items, ids, orderId);
      forall k :: 0 <= k < |r| ==> r[k].orderId == orderId && r[k].id == ids[k]
    ensures var r := ItemRows(items, ids, orderId);
      forall k :: 0 <= k < |r| ==>
        r[k].quantity == items[k].quantity && r[k].unitPrice == items[k].unitPrice &&
        r[k].specialInstructions == items[k].specialInstructions
    ensures Map(ItemRows(items, ids, orderId), RowMenuItem) == Map(items, RequestMenuItem)
    ensures Sum(ItemRows(items, ids, orderId), RowTotal) == Sum(items, RequestTotal)
  {
    SumPointwise(ItemRows(items, ids, orderId), RowTotal, items, RequestTotal);
  }

  function IsActive(): Category -> bool { (c: Category) => c.isActive }
  function IsAvailable(): MenuItem -> bool { (m: MenuItem) => m.isAvailable }
  function InCategoryAvailable(cid: string): MenuItem -> bool
  {
    (m: MenuItem) => m.categoryId == Some(cid) && m.isAvailable
  }
  function IsLowStock(): InventoryItem -> bool { (i: InventoryItem) => i.currentStock <= i.minStock }

  function Deactivate(id: string): Category -> Category
  {
    (c: Category) => if c.id == id then c.(isActive := false) else c
  }

  function Withdraw(id: string): MenuItem -> MenuItem
  {
    (m: MenuItem) => if m.id == id then m.(isAvailable := false) else m
  }

  function SetStatus(id: string, status: string, now: int): Order -> Order
  {
    (o: Order) => if o.id == id then o.(status := status, updatedAt := now) else o
  }

  function AddStock(id: string, quantity: real, now: int): InventoryItem -> InventoryItem
  {
    (i: InventoryItem) => if i.id == id then i.(currentStock := i.currentStock + quantity, updatedAt := now) else i
  }

  /** The `eq(table.id, id)` condition; the first row it admits is what `.returning()`
      destructured as `[row]` gives. */
  function OrderHasId(id: string): Order -> bool { (o: Order) => o.id == id }
  function InventoryHasId(id: string): InventoryItem -> bool { (i: InventoryItem) => i.id == id }

  predicate HasOrder(orders: seq<Order>, id: string)
  {
    exists k :: 0 <= k < |orders| && orders[k].id == id
  }

  class Database {
    var categories: seq<Category>
    var menuItems: seq<MenuItem>
    var orders: seq<Order>
    var orderItems: seq<OrderItem>
    var inventory: seq<InventoryItem>

    /** Order ids are keys, and every order item belongs to a stored order. */
    predicate Valid()
      reads this
    {
      (forall i, j :: 0 <= i < j < |orders| ==> orders[i].id != orders[j].id) &&
      (forall k :: 0 <= k < |orderItems| ==> HasOrder(orders, orderItems[k].orderId))
    }

    constructor ()
      ensures Valid()
      ensures categories == [] && menuItems == [] && orders == [] && orderItems == [] && inventory == []
    {
      categories, menuItems, orders, orderItems, inventory := [], [], [], [], [];
    }

    /** `createOrder`: the header row first, then, for a non-empty list, the item rows in
        one statement. There is no transaction: when the item insert fails the call throws
        (`None`) and the header stays. The caller's order number is replaced. */
    method CreateOrder(order: NewOrder, items: seq<NewOrderItem>, orderId: string, itemIds: seq<string>,
                       now: nat, suffix: string, itemsInsertFails: bool) returns (r: Option<Order>)
      requires Valid()
      requires !HasOrder(orders, orderId)
      requires |itemIds| == |items|
      modifies this
      ensures Valid()
      ensures orders == old(orders) + [OrderRow(order, orderId, now, suffix)]
      ensures items == [] || !itemsInsertFails ==>
        orderItems == old(orderItems) + ItemRows(items, itemIds, orderId) &&
        r == Some(OrderRow(order, orderId, now, suffix))
      ensures items != [] && itemsInsertFails ==> orderItems == old(orderItems) && r == None
      ensures categories == old(categories) && menuItems == old(menuItems) && inventory == old(inventory)
    {
      var row := OrderRow(order, orderId, now, suffix);
      orders := orders + [row];
      assert orders[|orders| - 1].id == orderId;
      assert forall k :: 0 <= k < |orderItems| ==> HasOrder(orders, orderItems[k].orderId) by {
        forall k | 0 <= k < |orderItems|
          ensures HasOrder(orders, orderItems[k].orderId)
        {
          var j :| 0 <= j < |old(orders)| && old(orders)[j].id == orderItems[k].orderId;
          assert orders[j] == old(orders)[j];
        }
      }
      if |items| > 0 {
        if itemsInsertFails {
          return None;
        }
        var rows := ItemRows(items, itemIds, orderId);
        ItemRowsKeepRequest(items, itemIds, orderId);
        orderItems := orderItems + rows;
        assert forall k :: 0 <= k < |rows| ==> HasOrder(orders, rows[k].orderId) by {
          forall k | 0 <= k < |rows|
            ensures HasOrder(orders, rows[k].orderId)
          {
            assert orders[|orders| - 1].id == rows[k].orderId;
          }
        }
      }
      return Some(row);
    }

    /** `updateOrderStatus`: any string is accepted; only `status` and `updatedAt` of the
        matching order change. The returned row is undefined when there is none. */
    method UpdateOrderStatus(id: string, status: string, now: int) returns (r: Option<Order>)
      requires Valid()
      modifies this
      ensures Valid()
      ensures orders == Map(old(orders), SetStatus(id, status, now))
      ensures r == Find(orders, OrderHasId(id))
      ensures categories == old(categories) && menuItems == old(menuItems) &&
        orderItems == old(orderItems) && inventory == old(inventory)
    {
      var before := orders;
      orders := Map(orders, SetStatus(id, status, now));
      forall k | 0 <= k < |orderItems|
        ensures HasOrder(orders, orderItems[k].orderId)
      {
        assert HasOrder(before, orderItems[k].orderId);
        var j :| 0 <= j < |before| && before[j].id == orderItems[k].orderId;
        assert orders[j].id == before[j].id;
      }
      r := Find(orders, OrderHasId(id));
    }

    /** `deleteCategory`: a soft delete that keeps the row with `isActive` false. */
    method DeleteCategory(id: string)
      requires Valid()
      modifies this
      ensures Valid()
      ensures categories == Map(old(categories), Deactivate(id))
      ensures menuItems == old(menuItems) && orders == old(orders) &&
        orderItems == old(orderItems) && inventory == old(inventory)
    {
      categories := Map(categories, Deactivate(id));
    }

    /** `deleteMenuItem`: a soft delete that keeps the row with `isAvailable` false. */
    method DeleteMenuItem(id: string)
      requires Valid()
      modifies this
      ensures Valid()
      ensures menuItems == Map(old(menuItems), Withdraw(id))
      ensures categories == old(categories) && orders == old(orders) &&
        orderItems == old(orderItems) && inventory == old(inventory)
    {
      menuItems := Map(menuItems, Withdraw(id));
    }

    /** `getCategories`: the active rows, by ascending `sortOrder`. */
    method GetCategories() returns (r: seq<Category>)
      ensures multiset(r) == multiset(Filter(categories, IsActive()))
      ensures SortedBy(r, CategoryOrder)
    {
      r := SortBy(Filter(categories, IsActive()), CategoryOrder);
    }

    /** `getMenuItems`: the available rows, by ascending `sortOrder`. */
    method GetMenuItems() returns (r: seq<MenuItem>)
      ensures multiset(r) == multiset(Filter(menuItems, IsAvailable()))
      ensures SortedBy(r, ItemOrder)
    {
      r := SortBy(Filter(menuItems, IsAvailable()), ItemOrder);
    }

    /** `getMenuItemsByCategory`: the available rows of the category, by `sortOrder`. */
    method GetMenuItemsByCategory(categoryId: string) returns (r: seq<MenuItem>)
      ensures multiset(r) == multiset(Filter(menuItems, InCategoryAvailable(categoryId)))
      ensures SortedBy(r, ItemOrder)
    {
      r := SortBy(Filter(menuItems, InCategoryAvailable(categoryId)), ItemOrder);
    }

    /** `updateInventoryStock`: adds the signed quantity to the current stock. */
    method UpdateInventoryStock(id: string, quantity: real, now: int) returns (r: Option<InventoryItem>)
      requires Valid()
      modifies this
      ensures Valid()
      ensures inventory == Map(old(inventory), AddStock(id, quantity, now))
      ensures r == Find(inventory, InventoryHasId(id))
      ensures categories == old(categories) && menuItems == old(menuItems) &&
        orders == old(orders) && orderItems == old(orderItems)
    {
      inventory := Map(inventory, AddStock(id, quantity, now));
      r := Find(inventory, InventoryHasId(id));
    }

    /** `getLowStockItems`: exactly the rows whose stock is at or below the minimum. */
    method GetLowStockItems() returns (r: seq<InventoryItem>)
      ensures forall k :: 0 <= k < |r| ==> r[k] in inventory && r[k].currentStock <= r[k].minStock
      ensures forall k :: 0 <= k < |inventory| && inventory[k].currentStock <= inventory[k].minStock ==>
        inventory[k] in r
      ensures multiset(r) <= multiset(inventory)
      ensures forall k :: 0 <= k < |inventory| && inventory[k].currentStock <= inventory[k].minStock ==>
        multiset(r)[inventory[k]] == multiset(inventory)[inventory[k]]
    {
      r := Filter(inventory, IsLowStock());
      FilterMultiplicity(inventory, IsLowStock());
    }
  }

  /** After a soft delete the category is no longer listed, every other active category
      still is, and the row count is unchanged. */
  lemma DeletedCategoryHidden(cats: seq<Category>, id: string)
    ensures |Map(cats, Deactivate(id))| == |cats|
    ensures var listed := Filter(Map(cats, Deactivate(id)), IsActive());
      (forall k :: 0 <= k < |listed| ==> listed[k].id != id) &&
      (forall k :: 0 <= k < |cats| && cats[k].isActive && cats[k].id != id ==> cats[k] in listed)
  {
    var m := Map(cats, Deactivate(id));
    var listed := Filter(m, IsActive());
    forall k | 0 <= k < |listed|
      ensures listed[k].id != id
    {
      assert listed[k] in m;
    }
    forall k | 0 <= k < |cats| && cats[k].isActive && cats[k].id != id
      ensures cats[k] in listed
    {
      assert m[k] == cats[k];
    }
  }

  /** After a soft delete the menu item is no longer listed and every other available item
      still is. */
  lemma WithdrawnItemHidden(items: seq<MenuItem>, id: string)
    ensures var listed := Filter(Map(items, Withdraw(id)), IsAvailable());
      (forall k :: 0 <= k < |listed| ==> listed[k].id != id) &&
      (forall k :: 0 <= k < |items| && items[k].isAvailable && items[k].id != id ==> items[k] in listed)
  {
    var m := Map(items, Withdraw(id));
    var listed := Filter(m, IsAvailable());
    forall k | 0 <= k < |listed|
      ensures listed[k].id != id
    {
      assert listed[k] in m;
    }
    forall k | 0 <= k < |items| && items[k].isAvailable && items[k].id != id
      ensures items[k] in listed
    {
      assert m[k] == items[k];
    }
  }

  /** A status update on an order changes only that order's status and `updatedAt`. */
  lemma StatusOnlyChanges(orders: seq<Order>, id: string, status: string, now: int)
    ensures var r := Map(orders, SetStatus(id, status, now));
      |r| == |orders| &&
      forall k :: 0 <= k < |r| ==>
        r[k].(status := orders[k].status, updatedAt := orders[k].updatedAt) == orders[k] &&
        (orders[k].id == id ==> r[k].status == status) &&
        (orders[k].id != id ==> r[k] == orders[k])
  {
  }

  /** A stock update moves the stock of the matching row by the signed quantity. */
  lemma StockDelta(items: seq<InventoryItem>, id: string, quantity: real, now: int)
    ensures var r := Map(items, AddStock(id, quantity, now));
      |r| == |items| &&
      forall k :: 0 <= k < |r| ==>
        r[k].currentStock - items[k].currentStock == (if items[k].id == id then quantity else 0.0) &&
        r[k].minStock == items[k].minStock
  {
  }
}
