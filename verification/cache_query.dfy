/**
  Reading the price caches. `find({ productId: { $in: ids } })` returns the
  stored rows whose key is among `ids`, each once, in no promised order;
  `Array.prototype.find` then picks the first row with a given key.
 */
module CacheQuery {
  import opened Wrappers
  import opened Types

  /** `productPricings.find((product) => product.productId === id)` */
  function FindProduct(rows: seq<ProductPricing>, id: string): (r: Option<ProductPricing>)
    ensures r.None? <==> forall i :: 0 <= i < |rows| ==> rows[i].productId != id
    ensures r.Some? ==> exists i :: (0 <= i < |rows| && rows[i] == r.value && rows[i].productId == id
      && forall j :: 0 <= j < i ==> rows[j].productId != id)
  {
    if rows == [] then None
    else if rows[0].productId == id then Some(rows[0])
    else
      assert forall i :: 1 <= i < |rows| ==> rows[1..][i - 1] == rows[i];
      FindProduct(rows[1..], id)
  }

  /** `toppingPricings.find((current) => id === current.toppingId)` */
  function FindTopping(rows: seq<ToppingPricing>, id: string): (r: Option<ToppingPricing>)
    ensures r.None? <==> forall i :: 0 <= i < |rows| ==> rows[i].toppingId != id
    ensures r.Some? ==> exists i :: (0 <= i < |rows| && rows[i] == r.value && rows[i].toppingId == id
      && forall j :: 0 <= j < i ==> rows[j].toppingId != id)
  {
    if rows == [] then None
    else if rows[0].toppingId == id then Some(rows[0])
    else
      assert forall i :: 1 <= i < |rows| ==> rows[1..][i - 1] == rows[i];
      FindTopping(rows[1..], id)
  }

  /** Some row of `rows` is keyed `id`. */
  ghost predicate HasProductRow(rows: seq<ProductPricing>, id: string)
  {
    exists i :: 0 <= i < |rows| && rows[i].productId == id
  }

  /** `rows` is a possible answer of the product cache to a `$in` query for `ids`. */
  ghost predicate IsProductQueryResult(rows: seq<ProductPricing>, store: ProductStore, ids: seq<string>)
  {
    && (forall i :: 0 <= i < |rows| ==>
          rows[i].productId in ids && rows[i].productId in store
          && rows[i].priceConfiguration == store[rows[i].productId])
    && (forall id {:trigger HasProductRow(rows, id)} :: id in ids && id in store ==> HasProductRow(rows, id))
    && (forall i, j :: 0 <= i < j < |rows| ==> rows[i].productId != rows[j].productId)
  }

  /** Some row of `rows` is keyed `id`. */
  ghost predicate HasToppingRow(rows: seq<ToppingPricing>, id: string)
  {
    exists i :: 0 <= i < |rows| && rows[i].toppingId == id
  }

  /** `rows` is a possible answer of the topping cache to a `$in` query for `ids`. */
  ghost predicate IsToppingQueryResult(rows: seq<ToppingPricing>, store: ToppingStore, ids: seq<string>)
  {
    && (forall i :: 0 <= i < |rows| ==>
          rows[i].toppingId in ids && rows[i].toppingId in store
          && rows[i].price == store[rows[i].toppingId])
    && (forall id {:trigger HasToppingRow(rows, id)} :: id in ids && id in store ==> HasToppingRow(rows, id))
    && (forall i, j :: 0 <= i < j < |rows| ==> rows[i].toppingId != rows[j].toppingId)
  }

  /** One answer to the product query: the stored rows for `ids`, in the order of their last mention. */
  function QueryProducts(store: ProductStore, ids: seq<string>): (rows: seq<ProductPricing>)
    ensures IsProductQueryResult(rows, store, ids)
  {
    if ids == [] then []
    else
      var rest := QueryProducts(store, ids[1..]);
      var rows := if ids[0] in store && ids[0] !in ids[1..] then [ProductPricing(ids[0], store[ids[0]])] + rest else rest;
      assert forall id {:trigger HasProductRow(rows, id)} :: id in ids && id in store ==> HasProductRow(rows, id) by {
        forall id | id in ids && id in store ensures HasProductRow(rows, id) {
          if id in ids[1..] {
            assert HasProductRow(rest, id);
            var k :| 0 <= k < |rest| && rest[k].productId == id;
            assert rows[|rows| - |rest| + k] == rest[k];
          } else {
            assert rows[0].productId == id;
          }
        }
      }
      rows
  }

  /** One answer to the topping query: the stored rows for `ids`, in the order of their last mention. */
  function QueryToppings(store: ToppingStore, ids: seq<string>): (rows: seq<ToppingPricing>)
    ensures IsToppingQueryResult(rows, store, ids)
  {
    if ids == [] then []
    else
      var rest := QueryToppings(store, ids[1..]);
      var rows := if ids[0] in store && ids[0] !in ids[1..] then [ToppingPricing(ids[0], store[ids[0]])] + rest else rest;
      assert forall id {:trigger HasToppingRow(rows, id)} :: id in ids && id in store ==> HasToppingRow(rows, id) by {
        forall id | id in ids && id in store ensures HasToppingRow(rows, id) {
          if id in ids[1..] {
            assert HasToppingRow(rest, id);
            var k :| 0 <= k < |rest| && rest[k].toppingId == id;
            assert rows[|rows| - |rest| + k] == rest[k];
          } else {
            assert rows[0].toppingId == id;
          }
        }
      }
      rows
  }

  /** Looking a queried product up in any answer to the query is a plain lookup in the store. */
  lemma FindProductInQueryResult(rows: seq<ProductPricing>, store: ProductStore, ids: seq<string>, id: string)
    requires IsProductQueryResult(rows, store, ids)
    requires id in ids
    ensures FindProduct(rows, id) == if id in store then Some(ProductPricing(id, store[id])) else None
  {
    var r := FindProduct(rows, id);
    assert id in store ==> HasProductRow(rows, id);
    if r.Some? {
      var i :| 0 <= i < |rows| && rows[i] == r.value && rows[i].productId == id;
    }
  }

  /** Looking a queried topping up in any answer to the query is a plain lookup in the store. */
  lemma FindToppingInQueryResult(rows: seq<ToppingPricing>, store: ToppingStore, ids: seq<string>, id: string)
    requires IsToppingQueryResult(rows, store, ids)
    requires id in ids
    ensures FindTopping(rows, id) == if id in store then Some(ToppingPricing(id, store[id])) else None
  {
    var r := FindTopping(rows, id);
    assert id in store ==> HasToppingRow(rows, id);
    if r.Some? {
      var i :| 0 <= i < |rows| && rows[i] == r.value && rows[i].toppingId == id;
    }
  }
}
