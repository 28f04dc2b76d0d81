/**
 * The stock write path: the durable stock table and the cache, updated in
 * place by the direct stock write, the order-driven batch adjustments and the
 * cache rebuild. Each method is proved against the functions of StockSpec.
 */
module WriteStock {
  import opened Wrappers
  import opened Format
  import opened StockCache
  import opened Query
  import opened StockSpec

  class StockStores {
    /** The stocks table, the source of truth. */
    var durable: Durable
    /** The products table, read by the cache rebuild and never written here. */
    const products: map<ProductId, Meta>
    /** The `stock:*` hashes of the cache. */
    var cache: Cache

    constructor (durable0: Durable, products0: map<ProductId, Meta>, cache0: Cache)
      ensures durable == durable0 && products == products0 && cache == cache0
    {
      durable := durable0;
      products := products0;
      cache := cache0;
    }

    /**
     * `set_stock_for_product`: an UPDATE of the product's row, an INSERT when
     * it matched no row, then the cached quantity field. When the database
     * raises, the session is rolled back, the cache is not written and the
     * error goes to the caller.
     */
    method SetStockForProduct(p: ProductId, q: int, dbFault: bool) returns (r: Result<string, StoreError>)
      modifies this`durable, this`cache
      ensures dbFault ==> r == Err(DurableStoreError) && durable == old(durable) && cache == old(cache)
      ensures !dbFault ==> durable == old(durable)[p := q] && cache == HSetQuantity(old(cache), p, q)
      ensures !dbFault && p in old(durable) ==> r == Ok("rows updated: " + IntToDecimal(1))
      ensures !dbFault && p !in old(durable) ==> r == Ok("rows added: " + IntToDecimal(p))
    {
      if dbFault {
        return Err(DurableStoreError);
      }
      var rowcount := if p in durable then 1 else 0;
      if rowcount == 1 {
        durable := durable[p := q];
      }
      var message := "rows updated: " + IntToDecimal(rowcount);
      if rowcount == 0 {
        durable := durable[p := q];
        message := "rows added: " + IntToDecimal(p);
      }
      cache := HSetQuantity(cache, p, q);
      r := Ok(message);
    }

    /**
     * `update_stock_mysql`: one UPDATE per line item, in order. Whether items
     * are read as objects or as mappings is decided by the first item, so a
     * later item of the other shape raises an AttributeError or a TypeError
     * after the UPDATEs of the items before it.
     */
    method UpdateStockMysql(items: seq<LineItem>, op: Op) returns (r: Outcome<StoreError>)
      modifies this`durable
      ensures var k := FirstMismatch(items);
        && r == (if k == |items| then Pass else Fail(ShapeError(k)))
        && durable == ApplyDeltas(old(durable), items[..k], op)
    {
      var i := 0;
      while i < |items|
        invariant 0 <= i <= |items|
        invariant forall j :: 0 <= j < i ==> SameShape(items[j], items[0])
        invariant durable == ApplyDeltas(old(durable), items[..i], op)
      {
        var item := items[i];
        if items[0].Obj? != item.Obj? {
          // an attribute read on a mapping, or a subscript on an object
          assert items[..FirstMismatch(items)] == items[..i];
          return Fail(ShapeError(i));
        }
        var pid, qty := item.productId, item.quantity;
        if pid in durable {
          durable := durable[pid := ApplyOp(op, durable[pid], qty)];
        }
        assert items[..i + 1][..i] == items[..i];
        i := i + 1;
      }
      assert items[..i] == items;
      r := Pass;
    }

    /** `check_out_items_from_stock`: the batch update with `-`. */
    method CheckOutItemsFromStock(items: seq<LineItem>) returns (r: Outcome<StoreError>)
      modifies this`durable
      ensures var k := FirstMismatch(items);
        && r == (if k == |items| then Pass else Fail(ShapeError(k)))
        && durable == ApplyDeltas(old(durable), items[..k], Minus)
    {
      r := UpdateStockMysql(items, Minus);
    }

    /** `check_in_items_to_stock`: the batch update with `+`. */
    method CheckInItemsToStock(items: seq<LineItem>) returns (r: Outcome<StoreError>)
      modifies this`durable
      ensures var k := FirstMismatch(items);
        && r == (if k == |items| then Pass else Fail(ShapeError(k)))
        && durable == ApplyDeltas(old(durable), items[..k], Plus)
    {
      r := UpdateStockMysql(items, Plus);
    }

    /**
     * `update_stock_redis`: nothing for an empty batch; a rebuild from the
     * database when the cache holds no stock key; otherwise one full write per
     * line item, computed from the cache as it was before the batch and queued
     * on a pipeline that runs once at the end.
     */
    method UpdateStockRedis(items: seq<LineItem>, op: Op, dbFault: bool) returns (r: Outcome<StoreError>)
      modifies this`cache
      ensures items == [] ==> r == Pass && cache == old(cache)
      ensures items != [] && old(cache) == map[] ==>
        && r == (if dbFault then Fail(DurableStoreError) else Pass)
        && cache == (if dbFault then old(cache) else Resync(old(cache), durable, products))
      ensures items != [] && old(cache) != map[] ==> r == Pass && cache == WarmUpdate(old(cache), items, op)
    {
      if items == [] {
        return Pass;
      }
      if cache == map[] {
        r := PopulateRedisFromMysql(dbFault);
        return;
      }
      var pipeline := QueueWarmWrites(items, op);
      cache := Execute(cache, pipeline);
      r := Pass;
    }

    /**
     * The loop of `update_stock_redis` on a warm cache: per line item, its
     * shape read on its own, the quantity read from the connection (so from
     * the cache as it was before the batch), one full write queued.
     */
    method QueueWarmWrites(items: seq<LineItem>, op: Op) returns (pipeline: seq<HashWrite>)
      ensures pipeline == Plan(items, op, cache)
    {
      var before := cache;
      pipeline := [];
      var i := 0;
      while i < |items|
        invariant 0 <= i <= |items|
        invariant pipeline == Plan(items[..i], op, before)
      {
        var n := Normalize(items[i]);
        var current := ResolveStockLevel(before, n.productId);
        var newQuantity := ApplyOp(op, current, n.quantity);
        PlanSnoc(items, op, before, i);
        pipeline := pipeline + [HashWrite(n.productId, newQuantity, n.name, n.sku, n.price)];
        i := i + 1;
      }
      assert items[..i] == items;
    }

    /**
     * `_populate_redis_from_mysql`: reads `products JOIN stocks` and queues one
     * full write per row; with no rows nothing is written. A database error
     * is passed to the caller with nothing written.
     */
    method PopulateRedisFromMysql(dbFault: bool) returns (r: Outcome<StoreError>)
      modifies this`cache
      ensures dbFault ==> r == Fail(DurableStoreError) && cache == old(cache)
      ensures !dbFault ==> r == Pass && cache == Resync(old(cache), durable, products)
    {
      if dbFault {
        return Fail(DurableStoreError);
      }
      var rows := JoinedRows(durable, products);
      if rows == map[] {
        // `not len(stocks)`: nothing to synchronise
        return Pass;
      }
      var before := cache;
      var pipeline: seq<HashWrite> := [];
      var remaining := rows.Keys;
      ghost var written: Cache := map[];
      while remaining != {}
        invariant remaining <= rows.Keys
        invariant written.Keys == rows.Keys - remaining
        invariant forall q :: q in written ==> written[q] == FullEntry(rows[q])
        invariant Execute(before, pipeline) == before + written
        decreases remaining
      {
        var p :| p in remaining;
        var row := rows[p];
        ExecuteOnto(before, pipeline, written, row);
        pipeline := pipeline + [row];
        written := written[p := FullEntry(row)];
        remaining := remaining - {p};
      }
      OverlayIsResync(before, durable, products, written);
      cache := Execute(before, pipeline);
      r := Pass;
    }
  }

  /**
   * The stock flow of the store manager's tests: a product stocked at 5 reads
   * 5, an order of 2 units takes both stores to 3, and deleting the order
   * brings both back to 5.
   */
  method StockFlow(p: ProductId, meta: Meta)
  {
    var stores := new StockStores(map[], map[p := meta], map[]);
    var stocked := stores.SetStockForProduct(p, 5, false);
    assert ResolveStockLevel(stores.cache, p) == 5;

    var order := [Mapping(p, 2, None, None, None)];
    ghost var warm := stores.cache;
    var placed := stores.CheckOutItemsFromStock(order);
    var cached := stores.UpdateStockRedis(order, Minus, false);
    assert placed == Pass && cached == Pass;
    ApplyDeltasNet(map[p := 5], order, Minus, p);
    WarmUpdateLastItemWins(warm, order, Minus, 0);
    assert stores.durable[p] == 3 && ResolveStockLevel(stores.cache, p) == 3;

    warm := stores.cache;
    var refunded := stores.CheckInItemsToStock(order);
    cached := stores.UpdateStockRedis(order, Plus, false);
    CheckOutThenCheckInRestores(map[p := 5], order);
    WarmUpdateLastItemWins(warm, order, Plus, 0);
    assert stores.durable[p] == 5 && ResolveStockLevel(stores.cache, p) == 5;
  }
}
