/**
  The pricing code agrees with the reference: whatever order the cache
  queries return their rows in, `calculateTotal` throws exactly when the
  reference says pricing throws, and otherwise yields the reference amount.
 */
module PricingProofs {
  import opened Wrappers
  import opened Types
  import opened JsNumbers
  import opened CacheQuery
  import opened PricingSpec
  import opened Pricing

  /** A topping that was queried is priced at its cached price, or at the client's price on a cache miss. */
  lemma {:induction false} CurrentToppingPriceFromStore(t: Topping, rows: seq<ToppingPricing>, store: ToppingStore, ids: seq<string>)
    requires IsToppingQueryResult(rows, store, ids)
    requires t.id in ids
    ensures CurrentToppingPrice(t, rows) == ToppingPrice(t, store)
    ensures t.id !in store ==> CurrentToppingPrice(t, rows) == t.price
  {
    FindToppingInQueryResult(rows, store, ids, t.id);
  }

  lemma {:induction false} ToppingsFoldMeaning(ts: seq<Topping>, rows: seq<ToppingPricing>, store: ToppingStore, ids: seq<string>, acc: int)
    requires IsToppingQueryResult(rows, store, ids)
    requires forall j :: 0 <= j < |ts| ==> ts[j].id in ids
    ensures ToppingsFold(ts, rows, acc) == acc + ToppingsSum(ts, store)
  {
    if ts != [] {
      CurrentToppingPriceFromStore(ts[0], rows, store, ids);
      assert forall j :: 1 <= j < |ts| ==> ts[1..][j - 1] == ts[j];
      ToppingsFoldMeaning(ts[1..], rows, store, ids, acc + ToppingPrice(ts[0], store));
    }
  }

  /** One item priced from the query rows throws, or costs, exactly what the reference says. */
  lemma {:induction false} ItemTotalMeaning(item: CartItem, productRows: seq<ProductPricing>, toppingRows: seq<ToppingPricing>,
                         products: ProductStore, toppings: ToppingStore, pids: seq<string>, tids: seq<string>)
    requires IsProductQueryResult(productRows, products, pids) && item.id in pids
    requires IsToppingQueryResult(toppingRows, toppings, tids)
    requires forall j :: 0 <= j < |item.chosenConfiguration.selectedToppings| ==> item.chosenConfiguration.selectedToppings[j].id in tids
    ensures ItemTotal(item, FindProduct(productRows, item.id), toppingRows).Failure? <==> ItemThrows(item, products)
    ensures ItemTotal(item, FindProduct(productRows, item.id), toppingRows).Success? ==>
      Scale(item.qty, ItemTotal(item, FindProduct(productRows, item.id), toppingRows).value) == ItemAmount(item, products, toppings)
  {
    var cached := FindProduct(productRows, item.id);
    FindProductInQueryResult(productRows, products, pids, item.id);
    var ts := item.chosenConfiguration.selectedToppings;
    ToppingsFoldMeaning(ts, toppingRows, toppings, tids, 0);
    ItemTotalFromConfiguration(item, cached, toppingRows, CachedConfiguration(products, item.id), ToppingsSum(ts, toppings));
    assert ItemAmount(item, products, toppings)
        == Scale(item.qty, Add(SelectionAmount(CachedConfiguration(products, item.id), item.chosenConfiguration.priceConfiguration),
                               Finite(ToppingsSum(ts, toppings))));
  }

  lemma {:induction false} ItemTotalFromConfiguration(item: CartItem, cached: Option<ProductPricing>, toppingRows: seq<ToppingPricing>,
                                                      cfg: Option<PriceConfiguration>, toppingsTotal: int)
    requires ConfigOf(cached) == cfg
    requires ToppingsFold(item.chosenConfiguration.selectedToppings, toppingRows, 0) == toppingsTotal
    ensures ItemTotal(item, cached, toppingRows).Failure? <==> SelectionThrows(cfg, item.chosenConfiguration.priceConfiguration)
    ensures ItemTotal(item, cached, toppingRows).Success? ==>
      ItemTotal(item, cached, toppingRows).value == Add(SelectionAmount(cfg, item.chosenConfiguration.priceConfiguration), Finite(toppingsTotal))
  {
  }

  /** Every product id and topping id of `cart` was part of the cache queries. */
  ghost predicate ItemsQueried(cart: seq<CartItem>, pids: seq<string>, tids: seq<string>)
  {
    && (forall i :: 0 <= i < |cart| ==> cart[i].id in pids)
    && (forall i, j :: 0 <= i < |cart| && 0 <= j < |cart[i].chosenConfiguration.selectedToppings| ==>
          cart[i].chosenConfiguration.selectedToppings[j].id in tids)
  }

  lemma ItemsQueriedHead(cart: seq<CartItem>, pids: seq<string>, tids: seq<string>)
    requires cart != [] && ItemsQueried(cart, pids, tids)
    ensures cart[0].id in pids
    ensures forall j :: 0 <= j < |cart[0].chosenConfiguration.selectedToppings| ==> cart[0].chosenConfiguration.selectedToppings[j].id in tids
  {
  }

  lemma ItemsQueriedTail(cart: seq<CartItem>, pids: seq<string>, tids: seq<string>)
    requires cart != [] && ItemsQueried(cart, pids, tids)
    ensures ItemsQueried(cart[1..], pids, tids)
  {
    assert forall i :: 0 <= i < |cart| - 1 ==> cart[1..][i] == cart[i + 1];
  }

  lemma {:induction false} CartFoldMeaning(cart: seq<CartItem>, productRows: seq<ProductPricing>, toppingRows: seq<ToppingPricing>,
                                           products: ProductStore, toppings: ToppingStore, pids: seq<string>, tids: seq<string>, acc: JsNumber)
    requires IsProductQueryResult(productRows, products, pids)
    requires IsToppingQueryResult(toppingRows, toppings, tids)
    requires ItemsQueried(cart, pids, tids)
    ensures CartFold(cart, productRows, toppingRows, acc).Failure? <==> CartThrows(cart, products)
    ensures CartFold(cart, productRows, toppingRows, acc).Success? ==>
      CartFold(cart, productRows, toppingRows, acc).value == Add(acc, CartAmount(cart, products, toppings))
  {
    var r := CartFold(cart, productRows, toppingRows, acc);
    if cart == [] {
      AddZero(acc);
    } else {
      var item, rest := cart[0], cart[1..];
      ItemsQueriedHead(cart, pids, tids);
      ItemTotalMeaning(item, productRows, toppingRows, products, toppings, pids, tids);
      CartThrowsUnfold(cart, products);
      var t := ItemTotal(item, FindProduct(productRows, item.id), toppingRows);
      if t.Success? {
        var step := Add(acc, Scale(item.qty, t.value));
        assert r == CartFold(rest, productRows, toppingRows, step);
        ItemsQueriedTail(cart, pids, tids);
        CartFoldMeaning(rest, productRows, toppingRows, products, toppings, pids, tids, step);
        if r.Success? {
          CartFoldStep(acc, ItemAmount(item, products, toppings), CartAmount(rest, products, toppings), step, r.value);
          CartAmountCons(cart, products, toppings);
        }
      }
    }
  }

  lemma CartFoldStep(acc: JsNumber, item: JsNumber, rest: JsNumber, step: JsNumber, result: JsNumber)
    requires step == Add(acc, item)
    requires result == Add(step, rest)
    ensures result == Add(acc, Add(item, rest))
  {
    AddAssociates(acc, item, rest);
  }

  lemma CartThrowsUnfold(cart: seq<CartItem>, products: ProductStore)
    requires cart != []
    ensures CartThrows(cart, products) <==> ItemThrows(cart[0], products) || CartThrows(cart[1..], products)
  {
    if CartThrows(cart, products) && !ItemThrows(cart[0], products) {
      var i :| 0 <= i < |cart| && ItemThrows(cart[i], products);
      assert cart[1..][i - 1] == cart[i];
    }
    if CartThrows(cart[1..], products) {
      var i :| 0 <= i < |cart[1..]| && ItemThrows(cart[1..][i], products);
      assert cart[1..][i] == cart[i + 1];
    }
  }

  /**
    Pricing a cart from ANY answers to the two cache queries throws exactly
    when the reference throws, and otherwise yields the reference amount;
    in particular the order of the returned rows does not matter.
   */
  lemma {:induction false} CartTotalMeaning(cart: seq<CartItem>, productRows: seq<ProductPricing>, toppingRows: seq<ToppingPricing>,
                         products: ProductStore, toppings: ToppingStore)
    requires IsProductQueryResult(productRows, products, ProductIds(cart))
    requires IsToppingQueryResult(toppingRows, toppings, ToppingIds(cart))
    ensures CartFold(cart, productRows, toppingRows, Finite(0)).Failure? <==> CartThrows(cart, products)
    ensures CartFold(cart, productRows, toppingRows, Finite(0)).Success? ==>
      CartFold(cart, productRows, toppingRows, Finite(0)).value == CartAmount(cart, products, toppings)
  {
    var tids := ToppingIds(cart);
    assert ItemsQueried(cart, ProductIds(cart), tids) by {
      forall i, j | 0 <= i < |cart| && 0 <= j < |cart[i].chosenConfiguration.selectedToppings|
        ensures cart[i].chosenConfiguration.selectedToppings[j].id in tids
      {
        assert SelectsTopping(cart, cart[i].chosenConfiguration.selectedToppings[j].id);
      }
    }
    CartFoldMeaning(cart, productRows, toppingRows, products, toppings, ProductIds(cart), tids, Finite(0));
    AddZero(CartAmount(cart, products, toppings));
  }

  /** `calculateTotal` throws exactly when the reference does, and otherwise yields the reference amount. */
  lemma {:induction false} CalculateTotalMeaning(cart: seq<CartItem>, products: ProductStore, toppings: ToppingStore)
    ensures CalculateTotal(cart, products, toppings).Failure? <==> CartThrows(cart, products)
    ensures CalculateTotal(cart, products, toppings).Success? ==>
      CalculateTotal(cart, products, toppings).value == CartAmount(cart, products, toppings)
    ensures CalculateTotal(cart, products, toppings).Success? ==>
      (CalculateTotal(cart, products, toppings).value.Finite? <==> CartPriced(cart, products))
  {
    CartTotalMeaning(cart, QueryProducts(products, ProductIds(cart)), QueryToppings(toppings, ToppingIds(cart)), products, toppings);
    CartAmountFinite(cart, products, toppings);
  }

  /** Reordering the cart changes neither whether `calculateTotal` throws nor the total it yields. */
  lemma {:induction false} CalculateTotalPermutation(a: seq<CartItem>, b: seq<CartItem>, products: ProductStore, toppings: ToppingStore)
    requires multiset(a) == multiset(b)
    ensures CalculateTotal(a, products, toppings).Success? <==> CalculateTotal(b, products, toppings).Success?
    ensures CalculateTotal(a, products, toppings).Success? ==>
      CalculateTotal(a, products, toppings).value == CalculateTotal(b, products, toppings).value
  {
    CalculateTotalMeaning(a, products, toppings);
    CalculateTotalMeaning(b, products, toppings);
    CartAmountPermutation(a, b, products, toppings);
    CartThrowsPermutation(a, b, products);
  }

  /** An empty cart totals 0. */
  lemma {:induction false} EmptyCartTotal(products: ProductStore, toppings: ToppingStore)
    ensures CalculateTotal([], products, toppings) == Success(Finite(0))
  {
  }

  /**
    An item with no chosen options never reads the product cache: it is priced
    the same whether or not its product is cached, and costs the sum of its
    topping prices (0 when it has no toppings either).
   */
  lemma {:induction false} ItemWithoutOptions(item: CartItem, c1: Option<ProductPricing>, c2: Option<ProductPricing>, toppingRows: seq<ToppingPricing>)
    requires item.chosenConfiguration.priceConfiguration == []
    ensures ItemTotal(item, c1, toppingRows) == ItemTotal(item, c2, toppingRows)
    ensures ItemTotal(item, c1, toppingRows) == Success(Finite(ToppingsFold(item.chosenConfiguration.selectedToppings, toppingRows, 0)))
    ensures item.chosenConfiguration.selectedToppings == [] ==> ItemTotal(item, c1, toppingRows) == Success(Finite(0))
  {
    var toppingsTotal := ToppingsFold(item.chosenConfiguration.selectedToppings, toppingRows, 0);
    assert ItemTotal(item, c1, toppingRows) == Success(Finite(toppingsTotal));
    assert ItemTotal(item, c2, toppingRows) == Success(Finite(toppingsTotal));
  }

  /** An item with a chosen option whose product is not cached makes pricing throw `ProductNotCached`. */
  lemma {:induction false} UncachedProductThrows(item: CartItem, toppingRows: seq<ToppingPricing>)
    requires item.chosenConfiguration.priceConfiguration != []
    ensures ItemTotal(item, None, toppingRows) == Failure(ProductNotCached(item.id))
  {
  }
}
