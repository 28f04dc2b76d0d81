/**
 * The GraphQL read side: both resolvers read one `stock:{id}` hash of the
 * cache and change nothing.
 */
module Query {
  import opened Wrappers
  import opened Format
  import opened StockCache

  /** The product a query returns. */
  datatype Product = Product(id: ProductId, name: string, sku: Option<string>, price: Option<real>, quantity: int)

  /** `int(product_data["quantity"])` on a hash without that field raises a KeyError. */
  datatype QueryError = MissingQuantity

  /**
   * `resolve_stock_level`: the cached quantity of a product; a key or a
   * quantity field that is absent reads as 0.
   */
  function ResolveStockLevel(cache: Cache, p: ProductId): (r: int)
    ensures p in cache && cache[p].quantity.Some? ==> r == cache[p].quantity.value
    ensures p !in cache || cache[p].quantity.None? ==> r == 0
  {
    if p in cache && cache[p].quantity.Some? then cache[p].quantity.value else 0
  }

  /**
   * `resolve_product`: None for a product with no hash; otherwise a product
   * with the queried id and the cached quantity, the cached name or
   * "Product {id}", and the cached sku and price or None. A hash without a
   * quantity field is a lookup failure.
   */
  function ResolveProduct(cache: Cache, p: ProductId): (r: Result<Option<Product>, QueryError>)
    ensures r == Ok(None) <==> p !in cache
    ensures r.Err? <==> p in cache && cache[p].quantity.None?
    ensures r.Ok? && r.value.Some? ==>
      && r.value.value.id == p
      && Some(r.value.value.quantity) == cache[p].quantity
      && r.value.value.name == cache[p].name.GetOr(DefaultName(p))
      && r.value.value.sku == cache[p].sku
      && r.value.value.price == cache[p].price
  {
    if p !in cache then Ok(None)
    else
      var data := cache[p];
      if data.quantity.None? then Err(MissingQuantity)
      else
        Ok(Some(Product(p, data.name.GetOr(DefaultName(p)), data.sku, data.price, data.quantity.value)))
  }
}
