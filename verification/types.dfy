/**
  The records the order service exchanges: cart items as the client sends them,
  the rows of the two price caches, and the errors pricing and event handling
  can raise.
 */
module Types {

  /** One entry of `chosenConfiguration.priceConfiguration`: an option name and the value picked for it. */
  datatype Choice = Choice(option: string, value: string)

  /** A selected topping with the price the client claims for it. */
  datatype Topping = Topping(id: string, price: int)

  /** The entries of the chosen configuration appear in the order `Object.entries` yields them. */
  datatype ChosenConfiguration = ChosenConfiguration(priceConfiguration: seq<Choice>, selectedToppings: seq<Topping>)

  /** `id` is the item's `_id`, the product it orders. */
  datatype CartItem = CartItem(id: string, qty: int, chosenConfiguration: ChosenConfiguration)

  /** The prices of the values of one configuration option. */
  datatype OptionPricing = OptionPricing(availableOptions: map<string, int>)

  /** Option name -> its priced values, as cached for one product. */
  type PriceConfiguration = map<string, OptionPricing>

  /** A row of the product price cache. */
  datatype ProductPricing = ProductPricing(productId: string, priceConfiguration: PriceConfiguration)

  /** A row of the topping price cache. */
  datatype ToppingPricing = ToppingPricing(toppingId: string, price: int)

  /** The product price cache as a keyed store (product ids are unique). */
  type ProductStore = map<string, PriceConfiguration>

  /** The topping price cache as a keyed store (topping ids are unique). */
  type ToppingStore = map<string, int>

  /**
    What pricing a cart can throw. Both are TypeErrors in the source: reading
    `priceConfiguration` of a missing cache row, or `availableOptions` of an
    option the cached configuration does not have.
   */
  datatype PricingError =
    | ProductNotCached(productId: string)
    | OptionNotConfigured(productId: string, option: string)

  /** A cache-update payload that does not parse into an event. */
  datatype HandlerError = DecodeError(payload: string)

  /** Whether some item of `cart` selects a topping with id `id`. */
  ghost predicate SelectsTopping(cart: seq<CartItem>, id: string)
  {
    exists i, j :: 0 <= i < |cart| && 0 <= j < |cart[i].chosenConfiguration.selectedToppings|
      && cart[i].chosenConfiguration.selectedToppings[j].id == id
  }

  /** `cart.map((item) => item._id)` */
  function ProductIds(cart: seq<CartItem>): (ids: seq<string>)
    ensures forall id :: id in ids <==> exists i :: 0 <= i < |cart| && cart[i].id == id
  {
    if cart == [] then []
    else
      var rest := ProductIds(cart[1..]);
      assert forall i :: 1 <= i < |cart| ==> cart[1..][i - 1] == cart[i];
      [cart[0].id] + rest
  }

  /** The ids of `toppings`, in order. */
  function ToppingIdsOf(toppings: seq<Topping>): (ids: seq<string>)
    ensures forall id :: id in ids <==> exists j :: 0 <= j < |toppings| && toppings[j].id == id
  {
    if toppings == [] then []
    else
      var rest := ToppingIdsOf(toppings[1..]);
      assert forall j :: 1 <= j < |toppings| ==> toppings[1..][j - 1] == toppings[j];
      [toppings[0].id] + rest
  }

  /** The cart's topping ids, item after item (the `reduce` that spreads each item's topping ids). */
  function ToppingIds(cart: seq<CartItem>): (ids: seq<string>)
    ensures forall id :: id in ids <==> SelectsTopping(cart, id)
  {
    if cart == [] then []
    else
      var rest := ToppingIds(cart[1..]);
      assert forall i :: 1 <= i < |cart| ==> cart[1..][i - 1] == cart[i];
      ToppingIdsOf(cart[0].chosenConfiguration.selectedToppings) + rest
  }
}
