/**
 * The cache store: one Redis hash per product, under the key `stock:{id}`,
 * with the fields quantity, name, sku and price. Keys are modelled by the
 * product id alone; the map holds exactly the `stock:*` keys.
 */
module StockCache {
  import opened Wrappers

  type ProductId = int

  /** The fields of one hash; a field Redis does not hold is None. */
  datatype Fields = Fields(quantity: Option<int>, name: Option<string>, sku: Option<string>, price: Option<real>)

  /** Redis drops a hash whose last field is gone, so every stored hash has a field. */
  type Entry = f: Fields | f.quantity.Some? || f.name.Some? || f.sku.Some? || f.price.Some?
    witness Fields(Some(0), None, None, None)

  type Cache = map<ProductId, Entry>

  /** `hset stock:{key} mapping={quantity, name, sku, price}` as queued on a pipeline. */
  datatype HashWrite = HashWrite(key: ProductId, quantity: int, name: string, sku: string, price: real)

  /** The hash a full write leaves behind: all four fields present. */
  function FullEntry(w: HashWrite): Entry {
    Fields(Some(w.quantity), Some(w.name), Some(w.sku), Some(w.price))
  }

  /**
   * `hset stock:{p} quantity q`: sets the one field, creating the hash when the
   * key is absent; every other field and every other key keeps its value.
   */
  function HSetQuantity(cache: Cache, p: ProductId, q: int): (c: Cache)
    ensures c.Keys == cache.Keys + {p}
    ensures c[p].quantity == Some(q)
    ensures p in cache ==> c[p].name == cache[p].name && c[p].sku == cache[p].sku && c[p].price == cache[p].price
    ensures p !in cache ==> c[p].name.None? && c[p].sku.None? && c[p].price.None?
    ensures forall k :: k in cache && k != p ==> c[k] == cache[k]
  {
    var before := if p in cache then cache[p] else Fields(None, None, None, None);
    cache[p := before.(quantity := Some(q))]
  }

  /** The keys a pipeline writes. */
  function WrittenKeys(ws: seq<HashWrite>): (keys: set<ProductId>)
    ensures forall i :: 0 <= i < |ws| ==> ws[i].key in keys
    decreases |ws|
  {
    if ws == [] then {} else WrittenKeys(ws[..|ws| - 1]) + {ws[|ws| - 1].key}
  }

  /** Write i is the last one in the pipeline to its key. */
  predicate LastWriteTo(ws: seq<HashWrite>, i: int)
    requires 0 <= i < |ws|
  {
    forall j :: i < j < |ws| ==> ws[j].key != ws[i].key
  }

  /** `pipeline.execute()`: the queued writes applied in order. */
  function Execute(cache: Cache, ws: seq<HashWrite>): Cache
    decreases |ws|
  {
    if ws == [] then cache
    else Execute(cache, ws[..|ws| - 1])[ws[|ws| - 1].key := FullEntry(ws[|ws| - 1])]
  }

  /**
   * Executing a pipeline adds exactly the written keys; a key nobody wrote
   * keeps its hash, and for each key the last write to it decides its hash.
   */
  lemma {:induction false} ExecuteLastWriteWins(cache: Cache, ws: seq<HashWrite>)
    ensures Execute(cache, ws).Keys == cache.Keys + WrittenKeys(ws)
    ensures forall k :: k in cache && k !in WrittenKeys(ws) ==> Execute(cache, ws)[k] == cache[k]
    ensures forall i :: 0 <= i < |ws| && LastWriteTo(ws, i) ==> Execute(cache, ws)[ws[i].key] == FullEntry(ws[i])
    decreases |ws|
  {
    if ws != [] {
      var n := |ws| - 1;
      var front := ws[..n];
      ExecuteLastWriteWins(cache, front);
      assert WrittenKeys(ws) == WrittenKeys(front) + {ws[n].key};
    }
  }

  /** A key that no queued write names is not among the written keys. */
  lemma {:induction false} NotWritten(ws: seq<HashWrite>, k: ProductId)
    requires forall i :: 0 <= i < |ws| ==> ws[i].key != k
    ensures k !in WrittenKeys(ws)
    decreases |ws|
  {
    if ws != [] {
      var front := ws[..|ws| - 1];
      assert forall i :: 0 <= i < |front| ==> front[i] == ws[i];
      NotWritten(front, k);
    }
  }

  /** Queuing one more write on a pipeline that overlays `written` on the cache overlays one more hash. */
  lemma ExecuteOnto(cache: Cache, ws: seq<HashWrite>, written: Cache, w: HashWrite)
    requires Execute(cache, ws) == cache + written
    ensures Execute(cache, ws + [w]) == cache + written[w.key := FullEntry(w)]
  {
    assert (ws + [w])[..|ws|] == ws;
  }
}
