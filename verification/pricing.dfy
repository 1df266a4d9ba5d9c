/**
  The pricing path of `OrderController`: `calculateTotal`, `getItemTotal` and
  `getCurrentToppingPrice`, written as the left folds (`reduce`) the source
  uses, over the rows the two cache queries return.
 */
module Pricing {
  import opened Wrappers
  import opened Types
  import opened JsNumbers
  import opened CacheQuery
  import opened PricingSpec

  /** The price configuration of a looked-up cache row, if there is one. */
  function ConfigOf(cached: Option<ProductPricing>): Option<PriceConfiguration>
  {
    if cached.Some? then Some(cached.value.priceConfiguration) else None
  }

  /**
    `getCurrentToppingPrice`: the price of the first cache row for the topping,
    or the price the client sent when no row matches.
   */
  function CurrentToppingPrice(topping: Topping, rows: seq<ToppingPricing>): (r: int)
    ensures (forall i :: 0 <= i < |rows| ==> rows[i].toppingId != topping.id) ==> r == topping.price
    ensures (exists i :: 0 <= i < |rows| && rows[i].toppingId == topping.id) ==>
      exists i :: 0 <= i < |rows| && rows[i].toppingId == topping.id && r == rows[i].price
        && forall j :: 0 <= j < i ==> rows[j].toppingId != topping.id
  {
    match FindTopping(rows, topping.id)
    case None => topping.price
    case Some(current) => current.price
  }

  /** `selectedToppings.reduce((acc, curr) => acc + getCurrentToppingPrice(curr, rows), acc)` */
  function ToppingsFold(toppings: seq<Topping>, rows: seq<ToppingPricing>, acc: int): int
  {
    if toppings == [] then acc
    else ToppingsFold(toppings[1..], rows, acc + CurrentToppingPrice(toppings[0], rows))
  }

  /**
    The price of one entry of the chosen configuration:
    `cachedProductPrice.priceConfiguration[key].availableOptions[value]`.
    Reading through a missing row or a missing option throws; a missing value
    reads `undefined`, which is NaN once added.
   */
  function OptionPrice(productId: string, cached: Option<ProductPricing>, c: Choice): (r: Result<JsNumber, PricingError>)
    ensures r.Failure? <==> cached.None? || c.option !in cached.value.priceConfiguration
    ensures r.Success? ==> r.value == OptionDelta(cached.value.priceConfiguration, c)
  {
    match cached
    case None => Failure(ProductNotCached(productId))
    case Some(row) =>
      if c.option !in row.priceConfiguration then Failure(OptionNotConfigured(productId, c.option))
      else if c.value !in row.priceConfiguration[c.option].availableOptions then Success(NaN)
      else Success(Finite(row.priceConfiguration[c.option].availableOptions[c.value]))
  }

  /** The `reduce` over `Object.entries(chosenConfiguration.priceConfiguration)`, from accumulator `acc`. */
  function ProductTotalFold(productId: string, cached: Option<ProductPricing>, chosen: seq<Choice>, acc: JsNumber): (r: Result<JsNumber, PricingError>)
    ensures r.Failure? <==> SelectionThrows(ConfigOf(cached), chosen)
    ensures r.Success? ==> r.value == Add(acc, SelectionAmount(ConfigOf(cached), chosen))
    ensures r.Failure? && cached.None? ==> r.error == ProductNotCached(productId)
    ensures r.Failure? && cached.Some? ==>
      && r.error.OptionNotConfigured? && r.error.productId == productId
      && r.error.option !in cached.value.priceConfiguration
      && exists i :: 0 <= i < |chosen| && chosen[i].option == r.error.option
  {
    if chosen == [] then
      AddZero(acc);
      Success(acc)
    else
      match OptionPrice(productId, cached, chosen[0])
      case Failure(e) =>
        assert cached.Some? ==> chosen[0].option == e.option;
        Failure(e)
      case Success(d) =>
        var cfg := ConfigOf(cached);
        assert forall i :: 1 <= i < |chosen| ==> chosen[1..][i - 1] == chosen[i];
        assert SelectionThrows(cfg, chosen) <==> SelectionThrows(cfg, chosen[1..]);
        AddAssociates(acc, d, SelectionAmount(cfg, chosen[1..]));
        ProductTotalFold(productId, cached, chosen[1..], Add(acc, d))
  }

  /** `getItemTotal`: the option deltas plus the topping prices of one item (not yet times `qty`). */
  function ItemTotal(item: CartItem, cached: Option<ProductPricing>, toppingRows: seq<ToppingPricing>): (r: Result<JsNumber, PricingError>)
    ensures r.Failure? <==> SelectionThrows(ConfigOf(cached), item.chosenConfiguration.priceConfiguration)
    ensures r.Success? ==> r.value == Add(SelectionAmount(ConfigOf(cached), item.chosenConfiguration.priceConfiguration),
                                          Finite(ToppingsFold(item.chosenConfiguration.selectedToppings, toppingRows, 0)))
  {
    var toppingsTotal := ToppingsFold(item.chosenConfiguration.selectedToppings, toppingRows, 0);
    match ProductTotalFold(item.id, cached, item.chosenConfiguration.priceConfiguration, Finite(0))
    case Failure(e) => Failure(e)
    case Success(productTotal) =>
      AddZero(SelectionAmount(ConfigOf(cached), item.chosenConfiguration.priceConfiguration));
      Success(Add(productTotal, Finite(toppingsTotal)))
  }

  /** The `reduce` over the cart: `acc + curr.qty * getItemTotal(curr, cachedProductPrice, toppingRows)`. */
  function CartFold(cart: seq<CartItem>, productRows: seq<ProductPricing>, toppingRows: seq<ToppingPricing>, acc: JsNumber): (r: Result<JsNumber, PricingError>)
    ensures r.Failure? <==> exists i :: 0 <= i < |cart| && RowThrows(cart[i], productRows)
  {
    if cart == [] then Success(acc)
    else
      var item := cart[0];
      match ItemTotal(item, FindProduct(productRows, item.id), toppingRows)
      case Failure(e) => Failure(e)
      case Success(t) =>
        ThrowingItemInTail(cart, productRows);
        CartFold(cart[1..], productRows, toppingRows, Add(acc, Scale(item.qty, t)))
  }

  /** Pricing the options of `item` against the first row for its product throws. */
  predicate RowThrows(item: CartItem, productRows: seq<ProductPricing>) {
    SelectionThrows(ConfigOf(FindProduct(productRows, item.id)), item.chosenConfiguration.priceConfiguration)
  }

  /** When the first item does not throw, any item that throws is in the rest of the cart. */
  lemma ThrowingItemInTail(cart: seq<CartItem>, productRows: seq<ProductPricing>)
    requires cart != [] && !RowThrows(cart[0], productRows)
    ensures (exists i :: 0 <= i < |cart| && RowThrows(cart[i], productRows)) <==>
            (exists i :: 0 <= i < |cart[1..]| && RowThrows(cart[1..][i], productRows))
  {
    var rest := cart[1..];
    if exists i :: 0 <= i < |cart| && RowThrows(cart[i], productRows) {
      var i :| 0 <= i < |cart| && RowThrows(cart[i], productRows);
      assert rest[i - 1] == cart[i];
    }
    if exists i :: 0 <= i < |rest| && RowThrows(rest[i], productRows) {
      var i :| 0 <= i < |rest| && RowThrows(rest[i], productRows);
      assert rest[i] == cart[i + 1];
    }
  }

  /** `calculateTotal`: query both caches for the cart's ids, then fold the cart from 0. */
  function CalculateTotal(cart: seq<CartItem>, products: ProductStore, toppings: ToppingStore): Result<JsNumber, PricingError>
  {
    CartFold(cart, QueryProducts(products, ProductIds(cart)), QueryToppings(toppings, ToppingIds(cart)), Finite(0))
  }
}
