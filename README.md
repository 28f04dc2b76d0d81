# Stock write path and cache read side, modelled in Dafny

This project models the part of the store manager that keeps product stock in
two places: a durable `stocks` table (product id to quantity, the source of
truth) and a Redis cache with one `stock:{id}` hash per product. The hash holds
`quantity`, `name`, `sku` and `price`. The model covers the write paths:

- the direct stock write `set_stock_for_product`, an upsert followed by a write
  of the cached quantity;
- the order-driven batch `update_stock_mysql`, with its wrappers
  `check_out_items_from_stock` and `check_in_items_to_stock`;
- the cache batch `update_stock_redis`, which falls back to a full rebuild when
  the cache holds no `stock:*` key;
- the rebuild `_populate_redis_from_mysql`, which writes one full hash per row
  of `products JOIN stocks`.

It also covers the two GraphQL resolvers that read the cache back.

Layout:

- `wrappers.dfy` (`Wrappers`): `Option`, `Result` and `Outcome`.
- `format.dfy` (`Format`): decimal text of integers, the defaults
  `"Product {id}"` and `"SKU-{id}"`, and `int()` reading stored text back.
- `stock_cache.dfy` (`StockCache`): hashes as records of optional fields.
  A hash has at least one field, because Redis drops empty hashes. This file
  also holds `hset` and the execution of a pipeline of queued writes.
- `query.dfy` (`Query`): `resolve_stock_level` and `resolve_product` as pure
  functions of the cache.
- `stock_spec.dfy` (`StockSpec`): line items in their two shapes (attribute
  object or mapping). It holds the functions that say what each batch does to
  each store, and the lemmas about them.
- `write_stock.dfy` (`WriteStock`): class `StockStores` holds the two stores
  and the read-only products table. Its methods update the stores step by step
  (loops, a pipeline executed once) and are proved to match the functions of
  `StockSpec`. `StockFlow` replays the store manager's stock test: 5 units,
  then 3 after a 2-unit order, then 5 again after the order is deleted.

Three details of the code shape the model:

- The rebuild covers only the products that have both a product row and a
  stock row: the query is an inner join (`write_stock.py:117-119`).
- The insert message names the product id, `rows added: {id}` (line 28).
- `update_stock_mysql` reads the batch shape from `order_items[0]` on every
  iteration (line 43), so a later item of the other shape raises after the
  UPDATEs of the items before it: an `AttributeError` when the first item is
  an object (line 44), a `TypeError` when it is a mapping (line 47).

Three properties describe the code's behaviour when a batch reaches both
stores:

- `DuplicateIdsDiverge`: on a warm cache (one holding a `stock:*` key), when a
  product id repeats within one batch, the durable row takes every line into
  account, but the cache reflects only the last line.
- `DualWritePreservesAgreement`: on a warm cache, a product whose cached
  quantity matches its row still matches afterwards when the batch names it
  at most once; other products may repeat.
- `ColdBatchFollowsDurable`: on an empty cache the batch can reach the cache
  only through the rebuild (lines 108-109). The rebuild reads the stock table
  through its own session (line 113), while `update_stock_mysql` leaves its
  UPDATEs uncommitted in the caller's session. Provided the caller commits the
  batch before calling `update_stock_redis`, a product with a product row then
  reads its updated durable quantity, repeated ids or not. A product without
  a product row reads 0, so its cached quantity no longer matches its row once
  the batch moves that row. Otherwise the rebuild reads the pre-batch rows and
  the batch never reaches the cache.

## Model

| member | source | states |
|---|---|---|
| `StockCache.HSetQuantity` | src/stocks/commands/write_stock.py:31 | writing the cached quantity of p sets that field to q, creates the hash when absent (with no other field), keeps p's name, sku and price, and leaves every other key unchanged |
| `Format.DefaultName` | src/stocks/commands/write_stock.py:81-87 | the name a product gets when none is supplied: `"Product "` followed by the decimal text of its id; query.py:18 uses the same default |
| `Format.DefaultSku` | src/stocks/commands/write_stock.py:82-88 | the sku a cached product gets when the line item carries none: `"SKU-"` followed by the decimal text of its id |
| `Format.ParseInt` | src/stocks/schemas/query.py:29 | `int()` on stored text: the value of an optional minus sign followed by at least one digit, and None (Python's ValueError) for any other text |
| `Format.DecimalRoundTrip` | src/stocks/commands/write_stock.py:91-92 | the decimal text of a natural number is a non-empty string of digits and reads back as the same number |
| `Format.IntRoundTrip` | src/stocks/schemas/query.py:28-29 | a quantity stored as the text of an integer, negative ones included, is read back by `int()` as that integer, so the cache can hold quantities as integers |
| `StockCache.Execute` | src/stocks/commands/write_stock.py:106 | `pipeline.execute()`: the queued full-hash writes applied to the cache in queue order, each replacing the whole hash of its key |
| `StockCache.ExecuteLastWriteWins` | src/stocks/commands/write_stock.py:99-106 | executing a pipeline adds exactly the written keys; a key no write names keeps its hash; for each key the last queued write decides its hash |
| `Query.ResolveStockLevel` | src/stocks/schemas/query.py:25-29 | the cached quantity of p, or 0 when the key or its quantity field is absent |
| `Query.ResolveProduct` | src/stocks/schemas/query.py:10-23 | no product exactly when p has no hash; a KeyError exactly when the hash lacks a quantity; otherwise id p, the cached quantity, the cached name or "Product {p}", and the cached sku and price, each None when absent |
| `StockSpec.DeltaUpdate` | src/stocks/commands/write_stock.py:49-56 | one UPDATE: the row of the product becomes its quantity plus or minus the line's quantity; with no row for the product nothing changes |
| `StockSpec.ApplyDeltas` | src/stocks/commands/write_stock.py:42-56 | a batch of UPDATEs never adds a row: the set of products with a stock row is unchanged |
| `StockSpec.FirstMismatch` | src/stocks/commands/write_stock.py:42-48 | the batch shape comes from the first item: the result equals the batch length iff every item has that shape; otherwise it is the first item of the other shape (never 0) |
| `StockSpec.JoinedRows` | src/stocks/commands/write_stock.py:115-121 | the join has a row for exactly the products with both a product row and a stock row, each keyed by its product id |
| `StockSpec.ApplyDeltasNet` | src/stocks/commands/write_stock.py:42-56 | a product with a row ends at its old quantity plus or minus the sum of all quantities the batch names for it (repeated lines accumulate) |
| `StockSpec.ApplyDeltasUntouched` | src/stocks/commands/write_stock.py:42-56 | a product the batch does not name keeps its quantity; a product without a row is not given one |
| `StockSpec.CheckOutThenCheckInRestores` | src/stocks/commands/write_stock.py:60-66 | checking a batch out and then the same batch in restores the whole stock table |
| `StockSpec.Normalize` | src/stocks/commands/write_stock.py:78-89 | a line item read as an object or as a mapping: its id and quantity, and its name, sku and price or the defaults "Product {id}", "SKU-{id}" and 0.0 |
| `StockSpec.WriteFor` | src/stocks/commands/write_stock.py:91-104 | the write queued for one line item: the pre-batch cached quantity (0 when absent) plus or minus the item's quantity, with the normalised name, sku and price |
| `StockSpec.WarmUpdate` | src/stocks/commands/write_stock.py:76-106 | the cache after a batch on a warm cache: one write per item, computed from the pre-batch cache and executed in item order |
| `StockSpec.Resync` | src/stocks/commands/write_stock.py:111-140 | the cache after a rebuild: every joined row's full hash (durable quantity, product-row name, sku and price) laid over the cache |
| `StockSpec.PlanAt` | src/stocks/commands/write_stock.py:77-104 | the write queued for the i-th line item depends on that item and the pre-batch cache only: its quantity is the pre-batch cached quantity plus or minus the item's, its metadata the item's own or the defaults |
| `StockSpec.WarmUpdateLastItemWins` | src/stocks/commands/write_stock.py:77-104 | on a warm cache the last item naming p decides p's hash. The quantity is the pre-batch cached quantity (0 if absent) plus or minus that item's quantity, with no floor at zero. Name, sku and price come from the item or default to "Product {p}", "SKU-{p}" and 0.0, and resolve_product returns them |
| `StockSpec.WarmUpdateUntouched` | src/stocks/commands/write_stock.py:99-106 | on a warm cache a key that no item names keeps its hash, and no key is created for it |
| `StockSpec.ColdRebuildMirrorsDurable` | src/stocks/commands/write_stock.py:111-140 | rebuilding an empty cache yields exactly the joined products. Each resolves to its product-row metadata and its durable quantity; every other product resolves to None |
| `StockSpec.DualWritePreservesAgreement` | src/stocks/commands/write_stock.py:39-106 | on a warm cache (write_stock.py:75) and when the batch names p at most once, a product whose cached quantity equals its durable quantity still does after the batch is applied to both stores |
| `StockSpec.DuplicateIdsDiverge` | src/stocks/commands/write_stock.py:39-106 | on a warm cache (write_stock.py:75), for two lines naming the same product, the durable row moves by both quantities and the cached quantity by the second only |
| `StockSpec.ColdBatchFollowsDurable` | src/stocks/commands/write_stock.py:108-140 | on an empty cache, when the rebuild reads the stock table as the batch left it (the caller committed the batch first), it makes a product with a product row read its updated durable quantity, whatever the ids in the batch; a product without a product row reads 0 |
| `StockSpec.StockLevelAfterSet` | src/stocks/schemas/query.py:25-29 | after the direct stock write of q for p, the stock-level query for p returns q |
| `StockSpec.SetStockResolves` | src/stocks/schemas/query.py:13-21 | a hash created by the direct stock write resolves to the default name, no sku and no price; on an existing hash the resolved metadata is kept and the quantity is q |
| `WriteStock.StockStores.SetStockForProduct` | src/stocks/commands/write_stock.py:10-37 | the row of p becomes q (updated or inserted) and no other row changes. Only p's cached quantity is written. The message is "rows updated: 1" or "rows added: {p}". On a database error both stores are unchanged and the error is returned |
| `WriteStock.StockStores.UpdateStockMysql` | src/stocks/commands/write_stock.py:39-58 | a batch of uniform shape succeeds and applies every line to the stock table. If not, the result is a shape error (AttributeError or TypeError) at the first item of the other shape, after only the earlier items were applied. An empty batch changes nothing |
| `WriteStock.StockStores.CheckOutItemsFromStock` | src/stocks/commands/write_stock.py:60-62 | the batch update with subtraction |
| `WriteStock.StockStores.CheckInItemsToStock` | src/stocks/commands/write_stock.py:64-66 | the batch update with addition |
| `WriteStock.StockStores.UpdateStockRedis` | src/stocks/commands/write_stock.py:68-109 | an empty batch changes nothing. With no stock key in the cache it rebuilds from the database and ignores the operation and the items. Otherwise the cache becomes the warm update computed from the pre-batch cache |
| `WriteStock.StockStores.QueueWarmWrites` | src/stocks/commands/write_stock.py:76-104 | the loop queues, in item order, exactly one write per line item, each computed from the cache as it was before the batch; nothing is written while queuing |
| `WriteStock.StockStores.PopulateRedisFromMysql` | src/stocks/commands/write_stock.py:111-147 | the cache gains one full hash per joined row, overlaying what it held; with no rows nothing is written; on a database error nothing is written and the error is returned |
| `WriteStock.StockFlow` | src/tests/test_store_manager.py:33-74 | the store manager's stock test: a product stocked at 5 reads 5, an order of 2 units takes both stores to 3, and deleting the order brings both back to 5 |

## Left out

- Transaction lifecycle: the session's `flush`, `commit`, `rollback` and `close` are not modelled, and each durable write is treated as applied. In `set_stock_for_product` only the insert branch commits. Whether the update branch persists depends on session configuration that is not part of this model.
- StockSpec.ColdBatchFollowsDurable: assumes the rebuild reads the stock table after the batch. That holds only when the caller, which is not part of this model, commits `update_stock_mysql`'s session before calling `update_stock_redis`. Otherwise the rebuild reads the pre-batch rows (`ColdRebuildMirrorsDurable` over that table), and the batch never reaches the cache.
- Database failures are a `dbFault` parameter of `SetStockForProduct`, `UpdateStockRedis` and `PopulateRedisFromMysql`. A failure leaves both stores as they were (rolled back, nothing written).
- WriteStock.StockStores.UpdateStockMysql: a database error raised by one UPDATE in the middle of a batch is not modelled; only the shape error is.
- Cache-store failures are not modelled, so the model has no durable write without its cache write. Neither store is compensated on failure in the source.
- Concurrency: the unsynchronised read-modify-write on the cache and database row locking are out of scope; the model is sequential.
- Floating point: prices are `real`, and `float(price)` is the identity.
- Client plumbing: `get_redis_conn`, `get_sqlalchemy_session`, SQL text and the interpolation of `operation` are not modelled. Keys are product ids, and `scan_iter("stock:*")` becomes "the cache map is empty". The map holds only `stock:*` hashes with the four fields named above. Quantities are held as integers rather than as their text; `Format.IntRoundTrip` shows that the text written reads back as the same integer. Names and skus are held as text, prices as `real`. An operation is `+` or `-`; any other string is not representable.
- Malformed line items (no `product_id` or `quantity`) and attributes whose value is Python `None` are not representable.
- Format.ParseInt: accepts only an optional minus sign followed by digits. The whitespace, `+` sign and underscores that Python's `int()` also accepts never occur in text this code writes.
- The resolvers take the product id as an integer; parsing the GraphQL string argument (a non-numeric id, leading zeros) is not modelled.
- Logging (`print`), the graphene `ObjectType`/`Field` plumbing and the `Product` schema class are not modelled.
