# Multi-tenant order backend: order placement and inventory

This project models the account-scoped data logic of an Express + SQLite order
backend (`server.js`). The model covers clients, products, orders and order items.
Every row carries the `user_id` of the account that owns it. The SQL tables
(`database.js:8-77`) are maps from id to row. Each table has an AUTOINCREMENT
counter, and `Schema.WellFormed` states that every id in use lies below it, so the
counter is always a fresh id.

Each request handler is one sequential step on the store:

- `Server.Store` is a class holding the four tables and their counters. Its methods
  are the handlers and change the fields in place.
- Each state-changing method is proved equal to a function on the whole store,
  taken as a `Schema.Db` value. `Server.Store.StatusSummary` changes nothing; its
  contract gives each entry of its result as `Catalog.CountStatus`, the size of a
  set of the caller's clients. `Catalog` holds these functions for clients and products, and
  `Ordering` holds them for orders. The properties are proved about those functions.
- `Queries` holds the order listings as functions.

The two order paths differ as written:

- `POST /api/orders/single` rejects a falsy field first. It then rejects a product
  that is missing or belongs to another account (404), then a stock below the
  quantity. Only then does it insert the order and its item and lower the stock.
  Run one after another, such orders never oversell a product
  (`Ordering.SinglesNeverOversell`).
- `POST /api/orders/multi` inserts the order, then one item row and one stock update
  per entry, with no stock check. An entry for a product the caller does not own
  still gets an item row, but no stock changes. `Ordering.MultiSkipsStockCheck`
  proves that an order the single path refuses for want of stock is accepted here
  and leaves negative stock. `Ordering.SingleIsCheckedOneEntryMulti` proves that,
  apart from the checks, the two paths have the same effect.

Behaviour kept as the code has it:

- A negative quantity is truthy, so the single path accepts it and the stock goes up.
  The stock still never goes negative.
- Neither order path checks that `client_id` names a client of the caller.
- The model follows the code where a stricter design would differ:
  - insufficient stock answers 400, not 409;
  - a multi-item order is neither checked nor rolled back;
  - stock is decremented without a condition;
  - the status strings are the Portuguese ones the code stores.

Request bodies: a numeric field is `Option<int>`, where `None` is `undefined` or
`null` and `Falsy` is JavaScript's `!v`. A text field is a `string`, and the empty
string also stands for an absent field.

## Model

| member | source | states |
|---|---|---|
| Schema.EmptyDb | database.js:8-77 | a new database has empty tables and satisfies the id invariant |
| Catalog.AddClient | server.js:99-109 | rejected exactly when name or email is empty, and then nothing changes; otherwise one new client row under the AUTOINCREMENT id (the counter's value, which then goes up by one, so a deleted id is never reused) with the caller as owner and status defaulting to 'A melhorar'; other tables and other accounts' rows untouched |
| Catalog.UpdateClient | server.js:111-121 | only the row whose id and user_id both match is rewritten (status defaulting to 'A melhorar'); every other row and table unchanged; the id invariant is kept |
| Catalog.DeleteClient | server.js:123-129 | a row is gone exactly when its id and user_id both match; all remaining rows and other tables unchanged |
| Catalog.ClientsOf | server.js:92-97 | exactly the caller's client rows, unchanged |
| Catalog.AddProduct | server.js:189-200 | rejected exactly when name is empty or price or stock is null (0 is accepted), and then nothing changes; otherwise one new product row under the AUTOINCREMENT id (the counter's value, which then goes up by one) owned by the caller; other tables and other accounts' rows untouched |
| Catalog.UpdateProduct | server.js:202-213 | only the row whose id and user_id both match is rewritten; every other row and table unchanged |
| Catalog.DeleteProduct | server.js:215-221 | a row is gone exactly when its id and user_id both match; all remaining rows and other tables unchanged |
| Catalog.ProductsOf | server.js:182-187 | exactly the caller's product rows, unchanged |
| Catalog.GroupByStatus | server.js:132-133 | one entry per status present among the caller's clients, holding the positive number of the caller's clients with that status |
| Catalog.CountAbsentStatus | server.js:136 | a status none of the caller's clients has counts 0, which the zero-filled bucket reports |
| Catalog.Summarize | server.js:136-137 | the summary holds the three buckets plus every grouped status except `__proto__`, whose assignment the object's prototype setter ignores; a grouped status has its count, an ungrouped bucket 0 |
| Ordering.PlaceSingle | server.js:226-270 | a falsy client_id, product_id or quantity gives MissingFields; else a product not owned by the caller gives ProductNotFound; else stock below quantity gives InsufficientStock; else the order is accepted (each of the four outcomes stated as an if-and-only-if); each rejection leaves the store unchanged; on success exactly one fresh order row (status default 'Pendente', payment_status 'Pendente') and one fresh item row for it under the next order and item ids, each of those two counters up by one and the client and product counters unchanged, only that product's stock lowered by the quantity, estoque_restante equal to the new stock and non-negative when the stock was; no product goes negative; other accounts untouched |
| Ordering.SinglesConserveStock | server.js:231-262 | over any sequence of single-item orders from any mix of accounts, a product's final stock is its initial stock minus the quantities the accepted orders reserved |
| Ordering.SinglesNeverOversell | server.js:237-239 | over any sequence of single-item orders from any mix of accounts, a product with non-negative stock never goes negative and the reserved quantity never exceeds the initial stock |
| Ordering.ApplyItemsEffect | server.js:288-296 | entry j becomes item row nextItemId + j of the new order, in the given order; earlier item rows are kept; each product of the caller loses the total quantity its entries request, with no floor; other products and all other tables unchanged |
| Ordering.PlaceMulti | server.js:273-302 | rejected exactly when client_id is falsy or items is missing or empty, and then nothing changes; otherwise one fresh order row of the caller and the per-entry effect of the loop, the order counter up by one, the item counter up by the number of entries, the other counters unchanged; the id invariant is kept; other accounts untouched |
| Ordering.SingleIsCheckedOneEntryMulti | server.js:242-258 | an accepted single-item order leaves the same store and order id as a multi-item order with that one entry |
| Ordering.MultiSkipsStockCheck | server.js:288-296 | where the single path rejects for insufficient stock and changes nothing, the same order through the multi path is accepted and leaves the product's stock negative |
| Queries.ItemsOf | server.js:323-324 | the ids of the items joined to one order whose product row exists, strictly ascending |
| Queries.ItemsOfComplete | server.js:323-324 | every such item id in range is listed |
| Queries.ListingKeys | server.js:321-326 | only (order, item) pairs of orders of the caller with an existing client row, order id descending then item id ascending, so no pair twice |
| Queries.ListingKeysComplete | server.js:321-326 | every joined pair of a listed order is among the keys |
| Queries.OrderListing | server.js:307-331 | GET /api/orders (and, with a client filter, the per-client query of server.js:334-360, which the route at server.js:75-90 shadows): every row is of an order of the caller, of the filtered client, sorted by order id descending |
| Queries.OrderListingSound | server.js:308-326 | every listed row is the join row of a listed order and one of its items |
| Queries.OrderListingComplete | server.js:321-326 | every join row of an order of the caller appears in the listing |
| Queries.OrderListingOnePerPair | server.js:321-326 | the listing has exactly one row per joined (order, item) pair: its rows are the join rows of a sequence of pairs that holds every such pair once, so as many rows as pairs |
| Server.Store.constructor | database.js:8-77 | a new store is empty with every counter at 1 |
| Server.Store.CreateClient | server.js:99-109 | the new state and reply are those of Catalog.AddClient, and the id invariant holds |
| Server.Store.UpdateClient | server.js:111-121 | the new state is that of Catalog.UpdateClient |
| Server.Store.DeleteClient | server.js:123-129 | the new state is that of Catalog.DeleteClient |
| Server.Store.StatusSummary | server.js:131-141 | the summary's keys are the three buckets plus the caller's statuses other than `__proto__`, and each entry equals the number of the caller's clients with that status (so 0 for an empty bucket) |
| Server.Store.CreateProduct | server.js:189-200 | the new state and reply are those of Catalog.AddProduct |
| Server.Store.UpdateProduct | server.js:202-213 | the new state is that of Catalog.UpdateProduct |
| Server.Store.DeleteProduct | server.js:215-221 | the new state is that of Catalog.DeleteProduct |
| Server.Store.DecrementStock | server.js:257-258 | lowers the stock only of the product whose id and user_id match |
| Server.Store.PlaceSingleOrder | server.js:226-270 | the new state and reply are those of Ordering.PlaceSingle |
| Server.Store.PlaceMultiOrder | server.js:273-302 | the loop over the entries leaves the state and reply of Ordering.PlaceMulti |

## Left out

- database.js:1-2 opens the database with `better-sqlite3`, whose `Database` has no callback-style `run`, `get` or `all`, yet every handler calls them (for example server.js:93, 231, 242). The model gives those calls the meaning they have in the `sqlite3` callback API: run the statement, then pass its result or error to the callback.
- Sign-up, login, logout and `/api/me` (server.js:24-70) are left out. They are password hashing and session cookies.
- `authMiddleware` is the precondition `SignedIn(uid)` on the store's methods. Its 401 reply is not modelled.
- Failed SQL statements (the 500 replies) are not modelled. The store is in memory, so no statement fails.
- The race between the stock read and the stock update of the single path is left out, and so is the fire-and-forget order of the multi path's writes. Each handler is one atomic sequential step.
- `price` is an SQLite REAL. The model uses integer cents, so `total = quantity * price` is exact and floating-point rounding is not modelled.
- `created_at` columns are left out, because they are a clock.
- The `users` table is left out. Only user ids appear.
- Ordering.PlaceSingle, Ordering.PlaceMulti: `quantity`, `stock`, `price` and the ids are JSON numbers, which are JavaScript doubles. The model makes them unbounded integers. A fractional quantity such as 0.5 is truthy, passes the single path's check (server.js:228-229), is stored in `order_items` and turns the stock into a REAL through `stock - ?` (server.js:257, server.js:293); the model has no such values. Integers beyond 2^53, which lose precision as doubles, are not modelled either.
- Ordering.PlaceMulti: an `items` value that is truthy but not an array (`"ab"`, `5`, `{}`) or an array with a `null` entry passes the check at server.js:275. It then throws a TypeError in the `forEach` at server.js:288-289, inside the order insert's callback, after the order row is written. Nothing catches it, so the process exits and the order keeps only the items written before the fault. The request type `Option<seq<LineItem>>` cannot express these inputs, so the model has no such outcome.
- SQL NULL is not modelled. A PUT with an absent field stores NULL, but the model stores the empty string (text) or requires a number. A multi-item entry with a missing field would store NULL and make `stock - NULL` NULL, but the model's entries always carry numbers. JavaScript's coercion of non-numeric JSON values is not modelled.
- `SELECT` without `ORDER BY` (GET clients, GET products) returns the rows as a map, with no order promised.
- In the order listing, rows of one order are ordered by item id ascending. SQL leaves that tie unordered, so this is one admissible order.
- The route at server.js:75-90 is left out. It is registered first for `/api/orders/client/:client_id`, so Express always runs it and never reaches the handler at server.js:334-360. It selects `o.quantity` and joins on `o.product_id`, columns that `orders` does not have (database.js:60-67), so the live endpoint always answers 500. The client filter of `Queries.OrderListing` models the query of the shadowed handler at server.js:334-360, which is never reached. Its rows also carry `client_id`, which that query does not select.
- Feedback endpoints (server.js:144-179) are left out. They are plain inserts and selects.
- `productsRouter.js`, `public/migrate.js` and `public/main.js` are left out. They are unscoped CRUD on an undefined router, a database copy and DOM rendering.
- Deleting a client or a product does not cascade. The code never turns on `PRAGMA foreign_keys`, so SQLite enforces no foreign key, and `orders.client_id` has none anyway (database.js:60-67). The orders and items that refer to a deleted row stay, and the listing's inner joins drop them.
