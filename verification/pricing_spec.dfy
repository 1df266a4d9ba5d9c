/**
  What a cart should cost, stated directly against the two price caches as
  keyed stores: each chosen option value contributes its cached delta, each
  topping its cached price (the client's price when the cache has none), and
  an item contributes `qty` times the sum. A value the cached configuration
  does not price contributes NaN, as `undefined` does in the source.
 */
module PricingSpec {
  import opened Wrappers
  import opened Types
  import opened JsNumbers

  /** The cached price configuration of product `id`, if any. */
  function CachedConfiguration(products: ProductStore, id: string): Option<PriceConfiguration>
  {
    if id in products then Some(products[id]) else None
  }

  /** The delta of one chosen value under `cfg`; NaN when `cfg` does not price it. */
  function OptionDelta(cfg: PriceConfiguration, c: Choice): JsNumber
  {
    if c.option in cfg && c.value in cfg[c.option].availableOptions
    then Finite(cfg[c.option].availableOptions[c.value])
    else NaN
  }

  /** The sum of the deltas of `chosen`; an empty selection costs 0 whatever the cache holds. */
  function SelectionAmount(cfg: Option<PriceConfiguration>, chosen: seq<Choice>): JsNumber
  {
    if chosen == [] then Finite(0)
    else if cfg.None? then NaN
    else Add(OptionDelta(cfg.value, chosen[0]), SelectionAmount(cfg, chosen[1..]))
  }

  /** Pricing `chosen` against `cfg` raises an exception: the product is not cached, or an option is unknown. */
  predicate SelectionThrows(cfg: Option<PriceConfiguration>, chosen: seq<Choice>)
  {
    |chosen| > 0 && (cfg.None? || exists i :: 0 <= i < |chosen| && chosen[i].option !in cfg.value)
  }

  /** Every chosen value has a cached delta. */
  predicate SelectionPriced(cfg: Option<PriceConfiguration>, chosen: seq<Choice>)
  {
    forall i :: 0 <= i < |chosen| ==>
      cfg.Some? && chosen[i].option in cfg.value && chosen[i].value in cfg.value[chosen[i].option].availableOptions
  }

  /** The selection has a finite price exactly when every chosen value is priced. */
  lemma {:induction false} SelectionAmountFinite(cfg: Option<PriceConfiguration>, chosen: seq<Choice>)
    ensures SelectionAmount(cfg, chosen).Finite? <==> SelectionPriced(cfg, chosen)
  {
    if chosen != [] {
      if cfg.None? {
        // Without a configuration the first choice already has no price.
        assert !SelectionPriced(cfg, chosen) by { assert chosen[0] in chosen; }
      } else {
        SelectionAmountFinite(cfg, chosen[1..]);
        assert forall i :: 1 <= i < |chosen| ==> chosen[1..][i - 1] == chosen[i];
        assert SelectionPriced(cfg, chosen) <==> OptionDelta(cfg.value, chosen[0]).Finite? && SelectionPriced(cfg, chosen[1..]) by {
          if OptionDelta(cfg.value, chosen[0]).Finite? && SelectionPriced(cfg, chosen[1..]) {
            forall i | 0 <= i < |chosen|
              ensures chosen[i].option in cfg.value && chosen[i].value in cfg.value[chosen[i].option].availableOptions
            {
              if i > 0 {
                assert chosen[i] == chosen[1..][i - 1];
              }
            }
          }
        }
      }
    }
  }

  /** The price charged for a topping: the cached price, or the client's when the cache has none. */
  function ToppingPrice(t: Topping, toppings: ToppingStore): int
  {
    if t.id in toppings then toppings[t.id] else t.price
  }

  function ToppingsSum(ts: seq<Topping>, toppings: ToppingStore): int
  {
    if ts == [] then 0 else ToppingPrice(ts[0], toppings) + ToppingsSum(ts[1..], toppings)
  }

  /** `qty` times the item's unit price (option deltas plus topping prices). */
  function ItemAmount(item: CartItem, products: ProductStore, toppings: ToppingStore): JsNumber
  {
    var unit := Add(SelectionAmount(CachedConfiguration(products, item.id), item.chosenConfiguration.priceConfiguration),
                    Finite(ToppingsSum(item.chosenConfiguration.selectedToppings, toppings)));
    Scale(item.qty, unit)
  }

  predicate ItemThrows(item: CartItem, products: ProductStore)
  {
    SelectionThrows(CachedConfiguration(products, item.id), item.chosenConfiguration.priceConfiguration)
  }

  predicate ItemPriced(item: CartItem, products: ProductStore)
  {
    SelectionPriced(CachedConfiguration(products, item.id), item.chosenConfiguration.priceConfiguration)
  }

  function CartAmount(cart: seq<CartItem>, products: ProductStore, toppings: ToppingStore): JsNumber
  {
    if cart == [] then Finite(0) else Add(ItemAmount(cart[0], products, toppings), CartAmount(cart[1..], products, toppings))
  }

  predicate CartThrows(cart: seq<CartItem>, products: ProductStore)
  {
    exists i :: 0 <= i < |cart| && ItemThrows(cart[i], products)
  }

  predicate CartPriced(cart: seq<CartItem>, products: ProductStore)
  {
    forall i :: 0 <= i < |cart| ==> ItemPriced(cart[i], products)
  }

  /** The cart has a finite amount exactly when every chosen value of every item is priced. */
  lemma {:induction false} CartAmountFinite(cart: seq<CartItem>, products: ProductStore, toppings: ToppingStore)
    ensures CartAmount(cart, products, toppings).Finite? <==> CartPriced(cart, products)
  {
    if cart != [] {
      ItemAmountFinite(cart[0], products, toppings);
      CartAmountFinite(cart[1..], products, toppings);
      CartPricedUnfold(cart, products);
    }
  }

  lemma CartPricedUnfold(cart: seq<CartItem>, products: ProductStore)
    requires cart != []
    ensures CartPriced(cart, products) <==> ItemPriced(cart[0], products) && CartPriced(cart[1..], products)
  {
    if ItemPriced(cart[0], products) && CartPriced(cart[1..], products) {
      forall i | 0 <= i < |cart| ensures ItemPriced(cart[i], products) {
        if i > 0 {
          assert cart[i] == cart[1..][i - 1];
        }
      }
    }
  }

  lemma ItemAmountFinite(item: CartItem, products: ProductStore, toppings: ToppingStore)
    ensures ItemAmount(item, products, toppings).Finite? <==> ItemPriced(item, products)
  {
    SelectionAmountFinite(CachedConfiguration(products, item.id), item.chosenConfiguration.priceConfiguration);
  }

  /** The amount of a concatenation is the sum of the amounts. */
  lemma {:induction false} CartAmountAppend(a: seq<CartItem>, b: seq<CartItem>, products: ProductStore, toppings: ToppingStore)
    ensures CartAmount(a + b, products, toppings) == Add(CartAmount(a, products, toppings), CartAmount(b, products, toppings))
  {
    if a == [] {
      assert a + b == b;
      AddZero(CartAmount(b, products, toppings));
    } else {
      assert (a + b)[1..] == a[1..] + b;
      CartAmountAppend(a[1..], b, products, toppings);
      AddAssociates(ItemAmount(a[0], products, toppings), CartAmount(a[1..], products, toppings), CartAmount(b, products, toppings));
    }
  }

  /** Taking one item out of the cart takes exactly its amount out of the cart's amount. */
  lemma {:induction false} CartAmountRemove(b: seq<CartItem>, j: nat, products: ProductStore, toppings: ToppingStore)
    requires j < |b|
    ensures CartAmount(b, products, toppings)
         == Add(ItemAmount(b[j], products, toppings), CartAmount(b[..j] + b[j + 1..], products, toppings))
  {
    CartAmountCons(b[j..], products, toppings);
    assert b[j..][1..] == b[j + 1..];
    SplitAt(b, j);
    CartAmountAppend(b[..j], b[j..], products, toppings);
    CartAmountAppend(b[..j], b[j + 1..], products, toppings);
    var ax, ab, aj := ItemAmount(b[j], products, toppings), CartAmount(b[..j], products, toppings), CartAmount(b[j + 1..], products, toppings);
    AddAssociates(ab, ax, aj);
    AddCommutes(ab, ax);
    AddAssociates(ax, ab, aj);
  }

  lemma {:induction false} CartAmountCons(b: seq<CartItem>, products: ProductStore, toppings: ToppingStore)
    requires b != []
    ensures CartAmount(b, products, toppings) == Add(ItemAmount(b[0], products, toppings), CartAmount(b[1..], products, toppings))
  {
  }

  lemma {:induction false} SplitAt<T>(b: seq<T>, j: nat)
    requires j <= |b|
    ensures b == b[..j] + b[j..]
  {
  }

  lemma {:induction false} MultisetRemove(a: seq<CartItem>, b: seq<CartItem>, j: nat)
    requires multiset(a) == multiset(b) && a != [] && j < |b| && b[j] == a[0]
    ensures multiset(a[1..]) == multiset(b[..j] + b[j + 1..])
  {
    var x := a[0];
    assert b == b[..j] + ([x] + b[j + 1..]);
    assert a == [x] + a[1..];
    assert multiset(b) == multiset(b[..j]) + multiset([x]) + multiset(b[j + 1..]);
    assert multiset(b[..j] + b[j + 1..]) == multiset(b[..j]) + multiset(b[j + 1..]);
    assert multiset(a) == multiset([x]) + multiset(a[1..]);
    assert multiset(a[1..]) == multiset(a) - multiset([x]);
    assert multiset(b[..j] + b[j + 1..]) == multiset(b) - multiset([x]);
  }

  /** Reordering the cart does not change its amount. */
  lemma {:induction false} CartAmountPermutation(a: seq<CartItem>, b: seq<CartItem>, products: ProductStore, toppings: ToppingStore)
    requires multiset(a) == multiset(b)
    ensures CartAmount(a, products, toppings) == CartAmount(b, products, toppings)
    decreases |a|
  {
    if a == [] {
      assert |b| == |multiset(b)| == 0;
    } else {
      assert a[0] in multiset(b);
      var j :| 0 <= j < |b| && b[j] == a[0];
      MultisetRemove(a, b, j);
      CartAmountPermutation(a[1..], b[..j] + b[j + 1..], products, toppings);
      CartAmountRemove(b, j, products, toppings);
    }
  }

  /** Whether pricing a cart throws does not depend on the order of its items. */
  lemma CartThrowsPermutation(a: seq<CartItem>, b: seq<CartItem>, products: ProductStore)
    requires multiset(a) == multiset(b)
    ensures CartThrows(a, products) <==> CartThrows(b, products)
  {
    if CartThrows(a, products) {
      var i :| 0 <= i < |a| && ItemThrows(a[i], products);
      assert a[i] in multiset(b);
      var j :| 0 <= j < |b| && b[j] == a[i];
    }
    if CartThrows(b, products) {
      var j :| 0 <= j < |b| && ItemThrows(b[j], products);
      assert b[j] in multiset(a);
      var i :| 0 <= i < |a| && a[i] == b[j];
    }
  }
}
