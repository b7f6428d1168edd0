/** The menu rows the screens and the server pass around. Prices are the decimal
    column of the database, read as exact numbers. */
module Catalog {
  import opened Wrappers

  datatype Category = Category(
    id: string,
    name: string,
    description: Option<string>,
    sortOrder: int,
    isActive: bool)

  datatype MenuItem = MenuItem(
    id: string,
    categoryId: Option<string>,
    name: string,
    description: Option<string>,
    price: real,
    isAvailable: bool,
    sortOrder: int)

  /** `c => c.id === id`. */
  function CategoryHasId(id: string): Category -> bool { (c: Category) => c.id == id }

  /** `m => m.id === id`. */
  function ItemHasId(id: string): MenuItem -> bool { (m: MenuItem) => m.id == id }

  /** The `sort_order` column both listings order by. */
  function CategoryOrder(c: Category): int { c.sortOrder }
  function ItemOrder(m: MenuItem): int { m.sortOrder }
}
