# Food truck point of sale: a verified model of its ordering core

The food truck point-of-sale application takes orders in three places. The staff counter
screen has a cart drawer. Guests can order from a public menu page. A table QR page
orders for a table. The orders go to an Express server backed by a Postgres database. This
project models the part of the system that computes things. That is three cart engines
and their totals, the order bodies the screens send, the validation and transformation the
server applies, and the bookkeeping on the order, menu, inventory and link tables. It also
covers the list filters and form checks of the menu administration screens, and the
payments page's daily summary. Dafny proves the properties each piece promises.

Money is an exact `real`. The tax rates are the exact rationals 875/10000 (the cart
context) and 8/100 (every other screen). Line ids, timestamps, random order-number
suffixes and the outcome of a database or network call are parameters of the operation
that uses them.

The model is split into the following modules:

- **Shared pieces**
  - `Wrappers`: `Option` and `Result`.
  - `Seqs`: filter, map, find, sum, count, subsequence and sorted-by-key over sequences.
  - `Text`: the JavaScript string operations `toLowerCase`, `includes`, `trim`, the
    decimal `toString` and `slice(-k)`.
  - `Pricing`: the tax rates, the totals record, the average and the price × quantity arithmetic.
  - `Catalog`: category and menu item rows.
  - `Payloads`: the JSON values of a request body.
  - `Ui`: badge variants.
- **The three carts**
  - `CartContext`: the shared reducer. It is pure and is modelled as a `Step` function.
  - `CustomerMenu`: the guest menu page, pure.
  - `OrderModal`: the counter modal. It is a class whose line objects have a mutable
    `quantity`, so the in-place `+=` on a shared line object is part of the model.
- **Screens built on the carts**
  - `OrderSummary`: the summary panel.
  - `PosCart`: the cart drawer.
  - `PosMenu`: the menu grid.
  - `OrdersPage`: a class holding the cart, the drawer flag and the orders sent.
  - `KitchenPage`: the QR table page. Its add-to-cart and quantity handlers are the same
    code as `PosMenu`'s and `PosCart`'s, at client/src/pages/kitchen/KitchenPage.tsx:37-53.
- **Server**
  - `Routes`: the customer order schema, the transform and the guards of
    `server/routes.ts`.
  - `Storage`: class `Database`, one `seq` field per table, for `server/storage.ts`.
  - `MenuRoutes`: class `MenuStore`, categories, items and item↔modifier-group links, for
    `server/menu.routes.ts`.
  - `OrderFlow`: composes each screen's order body with the server's schema and transform.
- **Administration and payments**
  - `PaymentsPage`: the daily summary, plus the in-place sort of the transactions list on
    an `array`.
  - `AdminForms`: the create-or-update choice shared by the three menu administration tabs.
  - `ItemsTab`, `CategoriesTab` and `ModifiersTab`: those three tabs.

Three behaviours of the code worth knowing:

- The cart context never merges two lines for the same menu item. Only the guest menu
  page and the counter modal merge.
- Creating an order writes the header first and then the items, with no transaction. If
  inserting the items fails, the header stays.
- The server accepts a customer order with an empty item list.
- An order's status is a free string. There is no transition rule.
- The `WEB-` order number computed by the customer order route is overwritten by storage's
  `ORD-` number. `Routes.StoredPublicOrder` states this.

## Model

| member | source | states |
|---|---|---|
| Pricing.Average | server/storage.ts:338 | for a positive count the average times the count is the total; with no orders it is 0 |
| Text.Lower | client/src/pages/orders/PosMenu.tsx:21-22 | `toLowerCase` keeps the length and lower-cases each character, ASCII letters only |
| Text.ContainsIffOccurs | client/src/pages/orders/PosMenu.tsx:21-22 | `includes` holds exactly when the term occurs at some offset of the string |
| Text.BlankIffAllWhitespace | client/src/pages/customer-menu.tsx:108 | `!s.trim()` holds exactly when every character is ECMAScript whitespace or a line terminator |
| Text.DecimalRoundTrip | server/routes.ts:200 | reading back the decimal string of a number gives the number |
| Text.DecimalSuffix | server/routes.ts:200 | the last k characters of a number with more than k digits are its value mod 10^k, zero-padded |
| Text.Contains | client/src/pages/orders/PosMenu.tsx:21-22 | `includes`; ContainsIffOccurs states it as an occurrence at some offset |
| Text.Trim | client/src/pages/customer-menu.tsx:108 | `trim`; BlankIffAllWhitespace states what is left blank by it |
| Text.IsBlank | client/src/pages/customer-menu.tsx:108 | `!s.trim()`; BlankIffAllWhitespace states that it holds exactly for all-whitespace strings |
| Text.Decimal | server/routes.ts:200 | the decimal digits of a number, one digit exactly below 10; DecimalRoundTrip states that reading them back gives the number |
| Payloads.OrNull | client/src/pages/customer-menu.tsx:129-136 | `s \|\| null`: null exactly for a missing or empty string, the string otherwise |
| Payloads.OrEmpty | server/routes.ts:214 | `s \|\| ''`: the string when there is one, "" otherwise |
| CartContext.CalculateTotals | client/src/contexts/CartContext.tsx:34-39 | `calculateTotals`: no lines give zero totals, tax is 8.75 % of the subtotal and total is their sum; CalculateTotalsConcat and StepTotals state how the lines determine it |
| CartContext.CalculateTotalsConcat | client/src/contexts/CartContext.tsx:34-39 | the subtotal, tax and total of two runs of lines joined are the sums of theirs |
| CartContext.StepTotals | client/src/contexts/CartContext.tsx:32-80 | after every action the subtotal is the sum of the lines' totalPrice, tax is 8.75 % of it and total is their sum; UPDATE_INSTRUCTIONS leaves the totals as they were |
| CartContext.AddItemAppends | client/src/contexts/CartContext.tsx:45-48 | ADD_ITEM appends exactly one line with the drawn id after the unchanged old lines, never merging, and adds its totalPrice to the subtotal |
| CartContext.UpdateQuantityPositive | client/src/contexts/CartContext.tsx:50-60 | after UPDATE_QUANTITY every line has quantity above 0, and a quantity of 0 or less removes the id |
| CartContext.UpdateQuantityOthers | client/src/contexts/CartContext.tsx:50-60 | the lines with other ids are the old ones with positive quantity, unchanged and in order |
| CartContext.UpdateQuantityMatching | client/src/contexts/CartContext.tsx:50-60 | for a positive quantity the matching lines get that quantity and totalPrice = unitPrice × quantity |
| CartContext.UpdateQuantityAbsent | client/src/contexts/CartContext.tsx:50-60 | an id not in the cart only drops lines already at quantity 0 or less, and changes nothing when there are none |
| CartContext.RemoveItemLines | client/src/contexts/CartContext.tsx:62-64 | REMOVE_ITEM yields an order-preserving subsequence without the id; every line with another id is kept exactly as often as it occurred, and an absent id leaves the lines unchanged |
| CartContext.UpdateInstructionsOnly | client/src/contexts/CartContext.tsx:66-72 | UPDATE_INSTRUCTIONS changes nothing but the matching lines' specialInstructions |
| CartContext.ClearCartEmpties | client/src/contexts/CartContext.tsx:74-75 | CLEAR_CART gives the initial state with no lines and zero totals |
| CartContext.StepKeepsPriced | client/src/contexts/CartContext.tsx:45-60 | totalPrice = unitPrice × quantity on every line is kept by every action, given a priced ADD_ITEM payload |
| CartContext.Step | client/src/contexts/CartContext.tsx:32-80 | `cartReducer`; StepTotals, AddItemAppends, the UpdateQuantity lemmas, RemoveItemLines, UpdateInstructionsOnly, ClearCartEmpties and StepKeepsPriced state each action's effect |
| CustomerMenu.AddExisting | client/src/pages/customer-menu.tsx:74-91 | adding an item already in the cart raises only its quantity by 1 and adds no line |
| CustomerMenu.AddNew | client/src/pages/customer-menu.tsx:74-91 | adding a new item appends one line with quantity 1 and the item's price |
| CustomerMenu.AddKeepsUnique | client/src/pages/customer-menu.tsx:76-89 | adding keeps at most one line per menu item id, and the item is then in the cart |
| CustomerMenu.AddCountsOne | client/src/pages/customer-menu.tsx:300 | every add raises the badge count, Σ quantity, by exactly one |
| CustomerMenu.BumpCount | client/src/pages/customer-menu.tsx:78-82 | raising the one line with an id by 1 raises Σ quantity by 1 |
| CustomerMenu.UpdateQuantityEffect | client/src/pages/customer-menu.tsx:93-101 | q ≤ 0 removes the line and keeps the others in order; q > 0 sets only that line's quantity |
| CustomerMenu.UpdateKeepsUnique | client/src/pages/customer-menu.tsx:93-101 | updating a quantity keeps ids unique |
| CustomerMenu.AddNewTotals | client/src/pages/customer-menu.tsx:74-91 | adding an item the cart lacks raises the subtotal by the item's price and the total by 1.08 × that price |
| CustomerMenu.AddExistingTotals | client/src/pages/customer-menu.tsx:76-82 | adding an item whose one line is at k raises the subtotal by that line's price and the total by 1.08 × it |
| CustomerMenu.UpdateQuantityTotals | client/src/pages/customer-menu.tsx:93-101 | setting the one line of an item to q > 0 moves the subtotal by its price × (q − old quantity) |
| CustomerMenu.UpdateRemoveTotals | client/src/pages/customer-menu.tsx:93-97 | a quantity of 0 or less takes the line's price × quantity off the subtotal |
| CustomerMenu.UpdateAbsentUnchanged | client/src/pages/customer-menu.tsx:93-101 | updating an id the cart lacks leaves the cart as it was |
| CustomerMenu.UniqueOnlyLine | client/src/pages/customer-menu.tsx:76-82 | in a cart with one line per item, the item's line is its only line, which the totals lemmas above require |
| CustomerMenu.AddToCart | client/src/pages/customer-menu.tsx:74-91 | `addToCart`; AddExisting, AddNew, AddKeepsUnique, AddCountsOne and the totals lemmas state its effect |
| CustomerMenu.UpdateQuantity | client/src/pages/customer-menu.tsx:93-101 | `updateQuantity`; UpdateQuantityEffect, UpdateKeepsUnique, UpdateQuantityTotals, UpdateRemoveTotals and UpdateAbsentUnchanged state its effect |
| CustomerMenu.CartTotals | client/src/pages/customer-menu.tsx:103-105 | the page's totals; AddNewTotals, AddExistingTotals, UpdateQuantityTotals and UpdateRemoveTotals state how each cart operation moves them |
| CustomerMenu.ItemCount | client/src/pages/customer-menu.tsx:300 | the badge count; AddCountsOne and BumpCount state that each add raises it by one |
| CustomerMenu.PlaceOrder | client/src/pages/customer-menu.tsx:107-145 | `handlePlaceOrder`; PlaceOrderGuards states its refusals and PlaceOrderBody the body it submits |
| CustomerMenu.PlaceOrderGuards | client/src/pages/customer-menu.tsx:107-124 | an all-whitespace name stops the order first, then an empty cart; otherwise a body is submitted |
| CustomerMenu.PlaceOrderBody | client/src/pages/customer-menu.tsx:126-145 | one item per line in order with id, quantity and unit price; status pending, type customer-online; empty email, phone and notes become null |
| OrderModal.CartLine.constructor | client/src/components/pos/OrderModal.tsx:22-48 | a new line object holds the given fields |
| OrderModal.Snapshot | client/src/components/pos/OrderModal.tsx:22-99 | the values of the line objects, one per object, in order |
| Seqs.FindIndex | client/src/components/pos/OrderModal.tsx:24-26 | `findIndex`: the first index whose element passes the test, every earlier one failing, or none when no element passes |
| OrderModal.Cart.constructor | client/src/components/pos/OrderModal.tsx:22-99 | an empty cart with zero totals |
| OrderModal.Cart.Recompute | client/src/components/pos/OrderModal.tsx:36-38 | the totals become Σ price × quantity, 8 % of it, and their sum; the lines stay |
| OrderModal.Cart.AddToCart | client/src/components/pos/OrderModal.tsx:22-48 | the lines become MergeAdd of the old ones; an existing menu item keeps the same line objects (raised in place), a new one appends the given object |
| OrderModal.Cart.RemoveFromCart | client/src/components/pos/OrderModal.tsx:75-90 | the line objects with other ids remain, in order, and the totals are recomputed |
| OrderModal.Cart.UpdateQuantity | client/src/components/pos/OrderModal.tsx:50-73 | q ≤ 0 acts as removeFromCart; q > 0 sets only the matching lines' quantity and keeps every other line object |
| OrderModal.Cart.ClearCart | client/src/components/pos/OrderModal.tsx:92-99 | no lines and all totals 0 |
| OrderModal.Requantify | client/src/components/pos/OrderModal.tsx:56-59 | the `map` copies just the matching lines into fresh objects with the new quantity and keeps every other object |
| OrderModal.MergeExisting | client/src/components/pos/OrderModal.tsx:24-31 | merging into an existing menu item raises that line's quantity by the added one, changes no other line and keeps the count |
| OrderModal.MergeNew | client/src/components/pos/OrderModal.tsx:32-33 | a new menu item is appended at the end |
| OrderModal.MergeKeepsUnique | client/src/components/pos/OrderModal.tsx:22-48 | merging keeps at most one line per menu item |
| OrderModal.MergeSubtotalExisting | client/src/components/pos/OrderModal.tsx:31-38 | merging into an existing menu item raises the subtotal by that line's price × the added quantity |
| OrderModal.MergeSubtotalNew | client/src/components/pos/OrderModal.tsx:33-38 | appending raises the subtotal by the new line's price × quantity |
| OrderModal.MergeAdd | client/src/components/pos/OrderModal.tsx:22-48 | what `addToCart` does to the line values; MergeExisting, MergeNew, MergeKeepsUnique and the MergeSubtotal lemmas state it |
| OrderModal.RaiseQuantity | client/src/components/pos/OrderModal.tsx:31 | `existing.quantity += item.quantity` on one line object changes that line's value only, raising its quantity by the added one |
| OrderSummary.Summary | client/src/components/pos/OrderSummary.tsx:31-36 | the panel's totals; a missing list gives zero totals, tax is 8 % of the subtotal and the total their sum; SummaryConcat, IncrementRaisesSubtotal and DecrementLowersSubtotal state how lines move it |
| OrderSummary.SummaryConcat | client/src/components/pos/OrderSummary.tsx:31-36 | the subtotal and the total of two lists joined are the sums of theirs |
| OrderSummary.IncrementRaisesSubtotal | client/src/components/pos/OrderSummary.tsx:95-98 | the quantity the plus control asks for raises the subtotal by the line's price |
| OrderSummary.DecrementLowersSubtotal | client/src/components/pos/OrderSummary.tsx:83-87 | the quantity an enabled minus control asks for lowers the subtotal by the line's price |
| OrderSummary.Render | client/src/components/pos/OrderSummary.tsx:43-64 | the panel as written throws exactly when the list is missing; otherwise it shows Clear and the footer exactly for a non-empty list, the empty note otherwise, the given lines and the Summary totals |
| OrderSummary.MissingListThrows | client/src/components/pos/OrderSummary.tsx:43 | a missing list makes the panel throw |
| OrderSummary.CorrectedRender | client/src/components/pos/OrderSummary.tsx:31-64 | the panel with `cartItems \|\| []` throughout: the lines are the list or none, and Clear shows exactly when there are lines |
| OrderSummary.CorrectedRenderAgrees | client/src/components/pos/OrderSummary.tsx:31-64 | the corrected panel equals the written one on a present list, and for a missing list shows the empty note, no Clear button and zero totals |
| OrderSummary.EmptySummary | client/src/components/pos/OrderSummary.tsx:31-36 | the totals of no list or an empty list are all zero (only the totals guard a missing list; see Render) |
| OrderSummary.SummaryNonNegative | client/src/components/pos/OrderSummary.tsx:31-36 | non-negative prices and quantities give non-negative subtotal and tax and a total at least the subtotal |
| OrderSummary.DecrementRequest | client/src/components/pos/OrderSummary.tsx:86-87 | the minus button is disabled exactly at quantity ≤ 1; otherwise it asks for one less, at least 1 |
| OrderSummary.IncrementRequest | client/src/components/pos/OrderSummary.tsx:98 | the plus control asks for a larger quantity than the line has; IncrementRaisesSubtotal states that this adds one price to the subtotal |
| OrderSummary.RequestsStayPositive | client/src/components/pos/OrderSummary.tsx:86-98 | from a quantity of at least 1 the buttons never ask for less than 1 |
| PosCart.HandleQuantityChange | client/src/pages/orders/PosCart.tsx:36-42 | a new quantity below 1 is a removal, otherwise an update to exactly that quantity |
| PosCart.QuantityChangeRemoves | client/src/pages/orders/PosCart.tsx:36-42 | below 1 the line is gone from the cart |
| PosCart.QuantityChangeSets | client/src/pages/orders/PosCart.tsx:36-42 | at 1 or more every line with the id has that quantity, and other positive lines stay |
| PosCart.DecrementAtOneRemoves | client/src/pages/orders/PosCart.tsx:90 | minus on a line at quantity 1 removes it |
| PosCart.IncrementAddsOne | client/src/pages/orders/PosCart.tsx:101 | plus asks for quantity + 1 and the line then has it |
| PosCart.TrashRemoves | client/src/pages/orders/PosCart.tsx:78 | the trash button removes the line whatever its quantity |
| PosCart.PosCartPanel.HandlePlaceOrder | client/src/pages/orders/PosCart.tsx:27-34 | the busy flag was set during placement and is clear afterwards, on success and failure alike |
| PosMenu.FilteredItems | client/src/pages/orders/PosMenu.tsx:20-25 | an item is listed exactly when it is available, matches the search and is in the tab |
| PosMenu.FilteredIsSubsequence | client/src/pages/orders/PosMenu.tsx:20-25 | the list keeps the menu order |
| PosMenu.SearchMeaning | client/src/pages/orders/PosMenu.tsx:21-22 | the lower-cased term occurs in the lower-cased name, or in a non-empty description |
| PosMenu.EmptySearchShowsTab | client/src/pages/orders/PosMenu.tsx:20-25 | an empty term filters by tab and availability only; on "all" it lists every available item |
| PosMenu.AddToCartLine | client/src/pages/orders/PosMenu.tsx:27-35 | adding appends one priced line with quantity 1 and unit and total price the item's price |
| PosMenu.HandleAddToCart | client/src/pages/orders/PosMenu.tsx:27-35 | one unit at the menu price; AddToCartLine states the line it appends and the subtotal it adds |
| PosMenu.MatchesSearch | client/src/pages/orders/PosMenu.tsx:21-22 | the search test; SearchMeaning states it as an occurrence of the term in the name or a non-empty description |
| OrdersPage.OrderDataContents | client/src/pages/orders/OrdersPage.tsx:29-43 | totals copied from the cart, cash, counter; one item per line in order with id, quantity, both prices as strings and instructions defaulting to '' |
| OrdersPage.OrderDataAddsUp | client/src/pages/orders/OrdersPage.tsx:29-43 | for a cart whose totals are its lines', the items' totals sum to the order's subtotal |
| OrdersPage.OrderData | client/src/pages/orders/OrdersPage.tsx:29-43 | the counter order body; OrderDataContents and OrderDataAddsUp state its fields and that its items add up to its subtotal |
| OrdersPage.OrdersContent.HandlePlaceOrder | client/src/pages/orders/OrdersPage.tsx:26-53 | an empty cart sends nothing; otherwise the order is sent, and only on success is the cart cleared and the drawer closed |
| OrdersPage.StatusBadgeVariant | client/src/pages/orders/OrdersPage.tsx:55-66 | preparing → default, completed → outline, anything else → secondary, whatever the case |
| OrdersPage.BadgeIgnoresCase | client/src/pages/orders/OrdersPage.tsx:55-66 | the badge of a status is that of its lower-cased form |
| KitchenPage.ItemsByCategoryExact | client/src/pages/kitchen/KitchenPage.tsx:92-94 | a tab lists exactly the available items of the category, in menu order |
| KitchenPage.NameOrGuest | client/src/pages/kitchen/KitchenPage.tsx:60 | the name sent is never empty, and is the typed one when there is one |
| KitchenPage.CheckoutContents | client/src/pages/kitchen/KitchenPage.tsx:55-73 | nothing is sent exactly for an empty cart; otherwise Guest default, table notes, cash, customer-online, the cart totals, and one item per line whose price is the line total as a string |
| KitchenPage.ItemsByCategory | client/src/pages/kitchen/KitchenPage.tsx:92-94 | `getItemsByCategory`; ItemsByCategoryExact states that it lists exactly the category's available items in menu order |
| KitchenPage.Checkout | client/src/pages/kitchen/KitchenPage.tsx:55-73 | `handleCheckout` as written; CheckoutContents states its body and KitchenCheckoutRefused that the server refuses it |
| KitchenPage.CheckoutItem | client/src/pages/kitchen/KitchenPage.tsx:68-73 | a checkout item whose price is the line total as text; CheckoutContents and KitchenCheckoutRefused state its fields and their refusal |
| KitchenPage.CorrectedCheckout | client/src/pages/kitchen/KitchenPage.tsx:55-73 | the checkout with unit prices as numbers; CheckoutContents and CorrectedKitchenCheckoutStored state its body and what is stored |
| Routes.GetUserId | server/routes.ts:17-20 | the token's subject, else the configured dev id, else dev-user; never empty |
| Routes.ParseString | server/routes.ts:178 | `z.string()` accepts exactly a present string |
| Routes.ParseNullableString | server/routes.ts:179-180 | `z.string().nullable().optional()` accepts a missing value, null or a string, and reads the first two as none |
| Routes.ParseNumber | server/routes.ts:181-183 | `z.number()` accepts exactly a present number |
| Routes.ParseStringOr | server/routes.ts:185-187 | `z.string().default(d)` gives d when missing and otherwise accepts exactly a string |
| Routes.ParsePaymentMethod | server/routes.ts:184 | the enum accepts exactly "cash" and "card" |
| Routes.ParseItems | server/routes.ts:189-194 | the array is accepted exactly when every item is, and the result is the items parsed one by one, in order |
| Routes.ParsedOrderDefaults | server/routes.ts:176-188 | an accepted order defaults status to pending and orderType to customer-online, and pays by cash or card |
| Routes.ParseOrderRefuses | server/routes.ts:181-184 | a bad payment method or a missing or non-numeric subtotal, tax or total is refused |
| Routes.ParseOrder | server/routes.ts:176-188 | the order part of the schema; ParsedOrderDefaults and ParseOrderRefuses state its defaults and refusals |
| Routes.ParseItem | server/routes.ts:189-194 | the item part of the schema; ParseItems states how a list of them is accepted |
| Routes.ParseCustomerOrderBody | server/routes.ts:176-198 | `createCustomerOrderSchema.parse`; PostCustomerOrder states that a refusal writes nothing and CustomerMenuOrderAccepted that the guest page's bodies pass |
| Routes.TransformedItems | server/routes.ts:209-215 | one stored item per item in order: unitPrice = price, totalPrice = price × quantity, same id and quantity, notes or "" |
| Routes.TransformItem | server/routes.ts:209-215 | the item transform; TransformedItems states its fields |
| Routes.WebOrderNumber | server/routes.ts:200 | "WEB-" followed by one to six digits |
| Routes.WebOrderNumberDigits | server/routes.ts:200 | from seven digits up, the number is WEB- and the timestamp mod 10^6, zero-padded to six digits |
| Routes.StoredPublicOrder | server/routes.ts:201-208 | the stored header has no user, the request's totals, status, type, payment method and notes, payment pending, and an ORD- number rather than the WEB- one |
| Routes.GuestIdentityNotStored | server/routes.ts:201-208 | the stored header has no customer id, and requests that differ only in the guest's name, email or phone store the same row |
| Routes.PublicOrderData | server/routes.ts:201-208 | the public order's data; StoredPublicOrder states the header row stored from it |
| Routes.PostCustomerOrder | server/routes.ts:197-224 | a refused body is a 400 that writes nothing; an accepted one stores the header, then the transformed items, and is a 201 unless the item insert fails, which is a 400 that leaves the header |
| Routes.PutOrderStatus | server/routes.ts:226-237 | a missing or empty status is a 400 that changes nothing; otherwise the status is set and the order returned |
| Routes.PutInventoryStock | server/routes.ts:263-274 | a quantity that is not a number is a 400 that changes nothing; otherwise the stock is raised by it; the database invariant is kept |
| Storage.StaffOrderNumber | server/storage.ts:235 | the order number starts with "ORD-" |
| Storage.ItemRows | server/storage.ts:243-250 | the item rows; ItemRowsKeepRequest states what they keep of the request |
| Storage.ItemRowsKeepRequest | server/storage.ts:243-250 | every row carries the new order's id and its own id and copies its request item's quantity, unit price and instructions; the rows name the same menu items in the same order, and their totals sum to the request's |
| Storage.OrderRow | server/storage.ts:234-240 | the header row; StoredPublicOrder states its number and column defaults for a public order, and CreateOrder that it is appended |
| Storage.Database.constructor | server/storage.ts:106-314 | every table empty |
| Storage.Database.CreateOrder | server/storage.ts:234-253 | exactly one header row is appended; the item rows follow unless there are none or their insert fails, in which case the header stays; other tables untouched |
| Storage.Database.UpdateOrderStatus | server/storage.ts:255-262 | every order with the id gets the status and update time; nothing else changes |
| Storage.Database.DeleteCategory | server/storage.ts:124-126 | a soft delete: the category stays, inactive; the database invariant is kept |
| Storage.Database.DeleteMenuItem | server/storage.ts:160-162 | a soft delete: the item stays, unavailable; the database invariant is kept |
| Storage.Database.GetCategories | server/storage.ts:106-108 | exactly the active categories, ordered by sortOrder |
| Storage.Database.GetMenuItems | server/storage.ts:129-131 | exactly the available items, ordered by sortOrder |
| Storage.Database.GetMenuItemsByCategory | server/storage.ts:133-139 | exactly the category's available items, ordered by sortOrder |
| Storage.Database.UpdateInventoryStock | server/storage.ts:304-314 | the signed quantity is added to the row's current stock; the database invariant is kept |
| Seqs.FilterMultiplicity | server/storage.ts:277-283 | a filter keeps each kept element exactly as often as it occurs, and nothing more |
| Seqs.FilterCountOf | client/src/contexts/CartContext.tsx:62-64 | after a filter a value occurs as often as in the sequence when it satisfies the predicate, and not at all otherwise |
| Storage.Database.GetLowStockItems | server/storage.ts:277-283 | exactly the rows with current stock at or below the minimum, each as often as it occurs in the table |
| Storage.DeletedCategoryHidden | server/storage.ts:106-126 | after a delete the category is no longer listed, and every other active one still is |
| Storage.WithdrawnItemHidden | server/storage.ts:129-162 | after a delete the item is no longer listed, and every other available one still is |
| Storage.StatusOnlyChanges | server/storage.ts:255-262 | only status and updatedAt of the matching order change, and no other order changes |
| Storage.StockDelta | server/storage.ts:304-314 | the stock of the matching row grows by exactly the quantity and every other row's stays |
| MenuRoutes.ReplaceLinksExact | server/menu.routes.ts:74-81 | the item's links become exactly the given group ids in order; other items' links stay |
| MenuRoutes.DropLinksKeepsOthers | server/menu.routes.ts:85-89 | dropping an item's links leaves it none and keeps every other item's |
| MenuRoutes.ReplaceLinks | server/menu.routes.ts:74-81 | the link replacement; ReplaceLinksExact states the links it leaves |
| MenuRoutes.ApplyPatch | server/menu.routes.ts:71-72 | the `set(itemPatch)` of one row; PutItem states that every item with the id gets it and no other item changes |
| MenuRoutes.MenuStore.constructor | server/menu.routes.ts:14-90 | no categories, items or links |
| MenuRoutes.MenuStore.ListCategories | server/menu.routes.ts:16-19 | every category, inactive ones included, ordered by sortOrder |
| MenuRoutes.MenuStore.DeleteCategory | server/menu.routes.ts:34-38 | a hard delete: the row is removed, unless an item still refers to it and the foreign key refuses |
| MenuRoutes.MenuStore.ListItems | server/menu.routes.ts:41-47 | with a category id only its items, without one every item, ordered by sortOrder |
| MenuRoutes.MenuStore.PostItem | server/menu.routes.ts:49-63 | a new item with a valid category is appended with one link per given group; otherwise nothing is stored |
| MenuRoutes.MenuStore.PutItem | server/menu.routes.ts:65-83 | the patch is applied; given group ids replace the item's links, none leaves them |
| MenuRoutes.MenuStore.DeleteItem | server/menu.routes.ts:85-90 | the item's links are dropped first, then the row, if that delete succeeds |
| MenuRoutes.DeletedCategoryGone | server/menu.routes.ts:34-38 | after a hard delete no category has the id, every other one remains, in order |
| MenuRoutes.ListedInMeaning | server/menu.routes.ts:42-44 | a non-empty category id lists only that category's items; a missing or empty one lists all |
| PaymentsPage.TodaysOrders | client/src/pages/payments/PaymentsPage.tsx:19-27 | exactly the orders created at or after the start of today, each as often as it occurs in the list |
| PaymentsPage.TodaysSummary | client/src/pages/payments/PaymentsPage.tsx:29-43 | revenue is Σ total, the count is the number of orders, cash and card counts are exact matches, the average times the count is the revenue |
| PaymentsPage.PaymentCountsBounded | client/src/pages/payments/PaymentsPage.tsx:32-33 | cash orders plus card orders never exceed all orders |
| PaymentsPage.OlderOrdersIgnored | client/src/pages/payments/PaymentsPage.tsx:19-27 | orders from before today do not change today's list |
| PaymentsPage.SortNewestFirst | client/src/pages/payments/PaymentsPage.tsx:197 | the in-place sort leaves the array newest first and a permutation of what it was |
| PaymentsPage.InsertLast | client/src/pages/payments/PaymentsPage.tsx:197 | one insertion step extends the sorted prefix by one element and permutes the array |
| PaymentsPage.Transactions | client/src/pages/payments/PaymentsPage.tsx:196-198 | the array is sorted newest first and at most the first 20 are shown |
| PaymentsPage.ShownAreNewest | client/src/pages/payments/PaymentsPage.tsx:196-198 | the rows shown are newest first and no order left out is newer than any shown |
| PaymentsPage.StatusBadgeVariant | client/src/pages/payments/PaymentsPage.tsx:70-81 | completed → default, preparing → outline, anything else → secondary, whatever the case |
| PaymentsPage.BadgeIgnoresCase | client/src/pages/payments/PaymentsPage.tsx:70-81 | the badge of a status is that of its lower-cased form |
| AdminForms.Submit | client/src/pages/menu/ItemsTab.tsx:100-113 | update with the edited id exactly when editing, otherwise create, with the form data; reset to the defaults only on success |
| AdminForms.SubmitResets | client/src/pages/menu/ItemsTab.tsx:107-109 | every successful submit leaves the same closed, not-editing state |
| ItemsTab.PriceNotChecked | client/src/pages/menu/ItemsTab.tsx:52-59 | a non-numeric price text passes the schema |
| ItemsTab.DefaultFormNeedsInput | client/src/pages/menu/ItemsTab.tsx:78-85 | the default form is invalid, and becomes valid exactly when name, price and category are filled in |
| ItemsTab.FilteredItems | client/src/pages/menu/ItemsTab.tsx:88-92 | an item is shown exactly when its name contains the term, ignoring case, and it is in the selected category or the filter is "all" |
| ItemsTab.FilteredItemsOrder | client/src/pages/menu/ItemsTab.tsx:88-92 | the filter keeps the order, and an empty term with "all" keeps every item |
| Seqs.Find | client/src/pages/menu/ItemsTab.tsx:96 | `find`: an element of the list that passes the test, with no earlier one passing, or none when no element passes |
| ItemsTab.CategoryName | client/src/pages/menu/ItemsTab.tsx:94-98 | No Category without an id, Unknown for an id not in the list, otherwise the first match's name |
| ItemsTab.HandleSubmitChoice | client/src/pages/menu/ItemsTab.tsx:100-113 | update when editing, create otherwise; the dialog closes and the form resets only on success |
| ItemsTab.HandleSubmit | client/src/pages/menu/ItemsTab.tsx:100-113 | the item save; HandleSubmitChoice states its choice and reset |
| ItemsTab.ValidItemForm | client/src/pages/menu/ItemsTab.tsx:52-59 | the item schema; PriceNotChecked and DefaultFormNeedsInput state what it lets through |
| CategoriesTab.CategoryFormMeaning | client/src/pages/menu/CategoriesTab.tsx:43-48 | the description does not affect validity, and a default form is valid exactly when a name is given |
| CategoriesTab.FilteredCategories | client/src/pages/menu/CategoriesTab.tsx:72-74 | a category is shown exactly when its name contains the term, ignoring case |
| CategoriesTab.FilteredCategoriesOrder | client/src/pages/menu/CategoriesTab.tsx:72-74 | the filter keeps the order, and an empty term keeps every category |
| CategoriesTab.HandleSubmitChoice | client/src/pages/menu/CategoriesTab.tsx:76-89 | update when editing, create otherwise; the state resets only on success |
| CategoriesTab.HandleSubmit | client/src/pages/menu/CategoriesTab.tsx:76-89 | the category save; HandleSubmitChoice states its choice and reset |
| CategoriesTab.ValidCategoryForm | client/src/pages/menu/CategoriesTab.tsx:43-48 | the category schema; CategoryFormMeaning states it |
| ModifiersTab.MinAboveMaxAccepted | client/src/pages/menu/ModifiersTab.tsx:47-53 | a group whose minimum exceeds its maximum passes the schema |
| ModifiersTab.PriceDeltaNotChecked | client/src/pages/menu/ModifiersTab.tsx:55-60 | a modifier is valid exactly with a name and sortOrder ≥ 0, whatever its price delta text |
| ModifiersTab.NewGroupDefaults | client/src/pages/menu/ModifiersTab.tsx:174-184 | a new group dialog opens not editing, with min 0, max 1, sortOrder 0, active, and is valid once a name is typed |
| ModifiersTab.OpenNewGroupDialog | client/src/pages/menu/ModifiersTab.tsx:174-184 | the new group dialog; NewGroupDefaults states its defaults |
| ModifiersTab.ValidGroupForm | client/src/pages/menu/ModifiersTab.tsx:47-53 | the group schema; MinAboveMaxAccepted and NewGroupDefaults state what it lets through |
| ModifiersTab.ValidModifierForm | client/src/pages/menu/ModifiersTab.tsx:55-60 | the modifier schema; PriceDeltaNotChecked states it exactly |
| ModifiersTab.HandleGroupSubmitChoice | client/src/pages/menu/ModifiersTab.tsx:103-116 | update when editing, create otherwise; the state resets to the new-group defaults only on success |
| ModifiersTab.HandleGroupSubmit | client/src/pages/menu/ModifiersTab.tsx:103-116 | the group save; HandleGroupSubmitChoice states its choice and reset |
| ModifiersTab.HandleModifierSubmit | client/src/pages/menu/ModifiersTab.tsx:118-134 | with no group nothing is sent and nothing changes; otherwise the modifier and the group's id are sent as an update of the edited modifier's id when editing, and as a create otherwise; the dialog resets only on success |
| ModifiersTab.HandleDeleteGroup | client/src/pages/menu/ModifiersTab.tsx:159-166 | a request is sent exactly when confirmed; the selection is cleared only when the selected group itself was deleted |
| OrderFlow.CustomerMenuOrderAccepted | server/routes.ts:176-215 | every body the guest menu submits passes the server's schema, with the page's totals, status pending and type customer-online |
| OrderFlow.CustomerMenuItemsAccepted | server/routes.ts:209-215 | the guest menu's lines are stored with their id, quantity, unit price and price × quantity |
| OrderFlow.KitchenCheckoutRefused | client/src/pages/kitchen/KitchenPage.tsx:71 | every body the table page sends for a non-empty cart is refused by the server's schema |
| OrderFlow.CorrectedKitchenCheckoutStored | client/src/pages/kitchen/KitchenPage.tsx:68-73 | with the unit price sent as a number, the order is accepted and stores each line's own unit and total price and the cart's totals |
| OrderFlow.LineTotalAsPriceMultipliedAgain | server/routes.ts:209-215 | for every unit price u and quantity q, a line total u × q sent as the price is accepted, stored as the unit price, and multiplied by q again into a stored total of u × q × q |

## Left out

- Authentication, sessions and the HTTP plumbing: the user id's sources are parameters of `Routes.GetUserId`.
- Floating point: prices are exact reals. `parseFloat`, `Number`, `toString` of a fraction and the `toFixed(2)` display rounding are not modelled. A price read from a string is a number in the model (`JNumeral` marks where the code stringifies one).
- `Math.random` line ids and order-number suffixes, and `Date.now()`: taken as parameters. Nothing is proved about their uniqueness.
- Text.Lower: `toLowerCase` is modelled for the ASCII letters only; other scripts' case mapping is not modelled.
- The staff `POST /api/orders` route and its drizzle-generated `insertOrderSchema`: the schema's code is not visible, so the server side of the counter and modal orders is not modelled. The shown order body is the client's.
- The uuid checks on route parameters are not modelled: a malformed id is treated like an id that matches nothing.
- Database failures appear only as flags on the operations whose outcome the source handles (`itemsInsertFails`, `updateFails`, `rowDeleteFails`, `createSucceeds`, `placementFails`, `succeeds`). Other thrown errors are left out.
- Storage.Database.GetLowStockItems: states which rows are returned but not their order by name, because names have no ordering in the model.
- Storage.Database.GetCategories, GetMenuItems, GetMenuItemsByCategory, MenuRoutes.MenuStore.ListCategories, ListItems: state the rows and their sortOrder order, but not how rows with equal sortOrder are ordered, which the database leaves open.
- PaymentsPage.SortNewestFirst: proves the order and the permutation, not the stability of the sort.
- Customer rows: `/api/customer-orders` never creates or links one. The `orders` table (shared/schema.ts:86-101) has no name, email or phone column and the route leaves `customerId` unset, so the guest's name, email and phone, though the schema checks them (server/routes.ts:178-180), are discarded by the source itself when the row is inserted; the model discards nothing more, and `Routes.GuestIdentityNotStored` states the loss.
- Storage.Database.CreateOrder: the order's subtotal, tax and total are `decimal(10,2)` columns (shared/schema.ts:93-95), and the item rows' unitPrice and totalPrice too (shared/schema.ts:109-110); the model stores the exact values, without rounding to cents or the precision overflow error.
- Routes.StoredPublicOrder: states that the request's exact subtotal, tax and total are stored, not the cent-rounded values the `decimal(10,2)` columns keep.
- Routes.PostCustomerOrder: the stored header and items carry the exact amounts, without `decimal(10,2)` rounding.
- OrderFlow.CorrectedKitchenCheckoutStored: states the exact unit and line prices stored, not their cent-rounded column values.
- Storage.Database.UpdateInventoryStock: current stock is a `decimal(10,3)` column (shared/schema.ts:122-123); the model adds the exact quantity, without rounding to thousandths.
- Storage.StockDelta: states growth by exactly the quantity, which the `decimal(10,3)` column keeps only for quantities and stocks with at most three decimals.
- Routes.PutInventoryStock: the stock is raised by the exact quantity, without `decimal(10,3)` rounding.
- MenuRoutes.MenuStore.PostItem, MenuRoutes.MenuStore.PutItem: a menu price is a `decimal(10,2)` column (shared/schema.ts:58); the model stores the exact price.
- `quantity` is an integer column in the database; a fractional quantity in a request body is stored as given in the model (`Routes.TransformedItems`) rather than refused by the database.
- Routes.PutOrderStatus: only a missing string or a string status is modelled; a status of another JSON type is not.
- OrderModal and OrderSummary are not composed: the modal passes `cart`, not the `cartItems` the summary reads. What the summary does with the missing list is under Findings.
- Form numbers are integers; the `z.coerce.number()` conversion of typed text is not modelled.
- `handleEdit` and `openNewDialog` of the items and categories tabs only fill form state for the dialog, and `handleDeleteModifier` only sends a request; none of them is modelled.
- The modifier group and modifier routes of `server/menu.routes.ts` are not part of this model, and the modifier tables do not appear in shared/schema.ts; links are (item id, group id) pairs.
- The daily sales SQL of `getDailySales` around the average, top-selling items, analytics, the React wiring, the polling and every presentation-only screen.

## Findings

| source | as written | input that shows it | evidently intended | confidence | as-written member | corrected member |
|---|---|---|---|---|---|---|
| client/src/components/pos/OrderSummary.tsx:43 | only the totals guard the list with `cartItems \|\| []` (line 31); the Clear button (line 43), the list (line 58) and the footer (line 120) read `cartItems.length` directly, so a missing list throws | `cartItems` undefined, which is what the one caller passes: client/src/components/pos/OrderModal.tsx:128-134 gives `cart`, not `cartItems` | use `cartItems \|\| []` throughout, so a missing list shows the empty panel | not executed | OrderSummary.MissingListThrows | OrderSummary.CorrectedRenderAgrees |
| client/src/pages/kitchen/KitchenPage.tsx:71 | each item's `price` is `item.totalPrice.toString()`, a string, while server/routes.ts:192 demands `z.number()`; even as a number it is the line total, and server/routes.ts:212 multiplies it by the quantity again | any non-empty cart, e.g. one line of quantity 2 at 5.00 | send the unit price as a number, so the stored total is unit price × quantity | not executed | OrderFlow.KitchenCheckoutRefused | OrderFlow.CorrectedKitchenCheckoutStored |
