# Order service pricing and price caches, in Dafny

This project models the core of a food-ordering service. It covers three parts.

- **Order pricing** (`OrderController`):
  - `calculateTotal` prices a cart against two price caches, one for products and one for toppings.
    - A product's chosen options cost the deltas in its cached price configuration.
    - A topping costs its cached price. When the cache has no row for it, it costs the price the client sent.
    - Each item counts `qty` times.
  - `create` then applies, in this order:
    - a coupon's discount percentage, looked up per tenant and valid up to and including its expiry instant;
    - an 18% tax on the discounted price;
    - a flat delivery charge of 100.
- **Product cache update** (`handleProductUpdate`): a product event is decoded. Its price configuration then replaces whatever the cache held for that product id.
- **Broker dispatch** (`KafkaBroker`):
  - Each consumed message goes to the product handler, the topping handler or nowhere, according to its topic.
  - `sendMessage` builds an outgoing record.
  - `consumeMessage` subscribes with `fromBeginning` defaulting to false.

Modelling choices:

- **Caches.** Both caches are maps, so ids are unique.
- **Cache queries.** A `$in` query is modelled as *any* sequence of rows that a keyed store could return for it. The pricing code is proved against a reference (`PricingSpec`) for every such answer, so the order of the rows never matters.
- **Numbers.** JavaScript numbers are integers plus `NaN`.
  - A chosen value that the cached configuration does not price reads `undefined`. It poisons the sum with `NaN`, and the code does not throw.
  - A missing cache row, or a missing option name, makes the code throw a `TypeError`. This is modelled as a `Failure`.
- **Rounding.** `Math.round(x / 100)` becomes `(x + 50) / 100` under floor division.

Files:

| file | module | what |
|---|---|---|
| wrappers.dfy | Wrappers | `Option`, `Result` |
| types.dfy | Types | cart items, cache rows, stores, errors; the id lists `calculateTotal` queries |
| js_numbers.dfy | JsNumbers | integers plus `NaN`, `+`, `*` |
| rounding.dfy | Rounding | `Math.round(n / 100)` and percentages |
| keyed_store.dfy | KeyedStore | upsert into a keyed store, and runs of upserts |
| cache_query.dfy | CacheQuery | `$in` queries and `Array.prototype.find` over their rows |
| pricing_spec.dfy | PricingSpec | the reference: what a cart costs or whether pricing throws, stated over the maps |
| pricing.dfy | Pricing | `calculateTotal`, `getItemTotal`, `getCurrentToppingPrice` as the source's folds |
| pricing_proofs.dfy | PricingProofs | the folds agree with the reference |
| coupons.dfy | Coupons | `getDiscountPercentage` and the coupon-code guard |
| checkout.dfy | Checkout | discount, tax, delivery and the whole order's charges |
| product_cache.dfy | ProductCache | `handleProductUpdate` |
| topping_cache.dfy | ToppingCache | the topping handler the broker calls |
| broker.dfy | Broker | `eachMessage` dispatch, consumption as a fold, `sendMessage`, `subscribe` |

## Model

| member | source | states |
|---|---|---|
| Types.ProductIds | src/order/orderController.ts:72 | An id is queried from the product cache exactly when some cart item orders that product. |
| Types.ToppingIds | src/order/orderController.ts:85-92 | An id is queried from the topping cache exactly when some item of the cart selects a topping with that id. |
| CacheQuery.FindProduct | src/order/orderController.ts:102-104 | There is no result exactly when no row has the item's product id; otherwise the result is the first row with that id. |
| CacheQuery.FindTopping | src/order/orderController.ts:142-144 | There is no result exactly when no row has the topping's id; otherwise the result is the first row with that id. |
| CacheQuery.QueryProducts | src/order/orderController.ts:75-79 | One valid answer to the `$in` query exists for every store and id list. It holds only stored rows for queried ids, each once with its stored configuration, and every stored queried id appears. |
| CacheQuery.QueryToppings | src/order/orderController.ts:95-99 | The same for the topping cache: only stored rows for queried ids, each once with its stored price, and every stored queried id appears. |
| CacheQuery.FindProductInQueryResult | src/order/orderController.ts:102-104 | For a queried id and any valid answer, the lookup finds the stored configuration when the product is cached, and nothing otherwise. |
| CacheQuery.FindToppingInQueryResult | src/order/orderController.ts:142-144 | For a queried id and any valid answer, the lookup finds the stored price when the topping is cached, and nothing otherwise. |
| Pricing.CurrentToppingPrice | src/order/orderController.ts:138-152 | With no row for the topping, the price is exactly the client-supplied price. Otherwise it is the price of the first row whose `toppingId` is the topping's id. |
| PricingProofs.CurrentToppingPriceFromStore | src/order/orderController.ts:142-151 | For a queried topping and any valid query answer, the price is the cached price. On a cache miss it is `topping.price`. |
| PricingProofs.ToppingsFoldMeaning | src/order/orderController.ts:120-125 | `Pricing.ToppingsFold`, the toppings `reduce`, adds the sum of the toppings' charged prices (cached or client-supplied) to its start value. |
| Pricing.OptionPrice | src/order/orderController.ts:130-131 | Reading one chosen option throws exactly when the product row is missing or the option name is not in its configuration. Otherwise it yields the cached delta, or NaN for an unpriced value. |
| Pricing.ProductTotalFold | src/order/orderController.ts:127-133 | The options `reduce` throws exactly when the reference says the selection throws. It throws `ProductNotCached` without a row, and otherwise `OptionNotConfigured` naming a chosen option the configuration lacks. When it does not throw, it yields the start value plus the reference sum of deltas, added with `JsNumbers.Add`, JavaScript `+` in which `NaN` on either side gives `NaN`. |
| Pricing.ItemTotal | src/order/orderController.ts:115-136 | `getItemTotal` throws exactly when the selection throws. Otherwise it is the option deltas plus the toppings total. |
| PricingProofs.ItemTotalMeaning | src/order/orderController.ts:115-136 | With rows from valid queries, an item throws exactly when the reference item throws. Otherwise `qty` times its unit total (`JsNumbers.Scale`, JavaScript `*` by an integer, `NaN` staying `NaN`) is the reference item amount. |
| PricingProofs.ItemWithoutOptions | src/order/orderController.ts:127-135 | An item with no chosen options is priced the same whether or not its product is cached. It costs its toppings' total, and 0 when it has no toppings either. |
| PricingProofs.UncachedProductThrows | src/order/orderController.ts:130-131 | An item with a chosen option whose product has no cache row throws `ProductNotCached`. |
| Pricing.CartFold | src/order/orderController.ts:101-110 | The cart `reduce` throws exactly when some item's chosen options throw against the first row for its product. |
| PricingProofs.CartFoldMeaning | src/order/orderController.ts:101-110 | From any start value, and with any valid query answers, the cart `reduce` throws exactly when the reference cart throws. Otherwise it yields the start value plus the reference cart amount. |
| PricingProofs.CartTotalMeaning | src/order/orderController.ts:71-113 | Pricing a cart from ANY valid answers to the two queries (rows in any order) agrees with the reference. It throws when the reference throws, and otherwise yields the sum over items of `qty` times the unit price. |
| PricingProofs.CalculateTotalMeaning | src/order/orderController.ts:71-113 | `calculateTotal` (`Pricing.CalculateTotal`, the cart `reduce` over the rows its two `$in` queries return) throws exactly when the reference throws. Otherwise it yields the reference amount, which is a number exactly when every chosen value of every item has a cached delta. |
| PricingProofs.CalculateTotalPermutation | src/order/orderController.ts:101-112 | Reordering the cart changes neither whether pricing throws nor the total. |
| PricingProofs.EmptyCartTotal | src/order/orderController.ts:101-110 | An empty cart totals 0. |
| PricingSpec.SelectionAmountFinite | src/order/orderController.ts:127-133 | The sum of an item's option deltas is a number exactly when every chosen value is priced by the cached configuration. |
| PricingSpec.CartAmountFinite | src/order/orderController.ts:101-110 | The cart total is a number exactly when every item's chosen values are all priced. |
| PricingSpec.CartAmountAppend | src/order/orderController.ts:101-110 | The total of two carts joined is the sum of their totals. |
| PricingSpec.CartAmountPermutation | src/order/orderController.ts:101-110 | Carts holding the same items (as a multiset) have the same reference total. |
| PricingSpec.CartThrowsPermutation | src/order/orderController.ts:101-110 | Carts holding the same items either both throw or neither does. |
| Rounding.RoundHundredths | src/order/orderController.ts:38 | `Math.round(n / 100)` is the integer within half a unit of `n / 100`, with half-way cases going up. |
| Rounding.RoundHundredthsUnique | src/order/orderController.ts:38 | Only one integer satisfies that bound, so it determines the rounded amount. |
| Rounding.PercentOf | src/order/orderController.ts:37-45 | `Math.round((x * p) / 100)`, used for the discount and the taxes, is the integer within half a unit of `x * p / 100`, half-way cases going up. |
| Rounding.PercentOfBounds | src/order/orderController.ts:38-40 | With a total of at least 0 and a percentage from 0 to 100, the discount lies between 0 and the total, so the discounted price is not negative. |
| Rounding.PercentOfMonotone | src/order/orderController.ts:45 | A larger discounted price never gets smaller taxes. |
| Coupons.FindCoupon | src/order/orderController.ts:158 | There is no coupon exactly when none has both the code and the tenant; otherwise the result is the first such coupon. |
| Coupons.DiscountPercentage | src/order/orderController.ts:154-172 | With no coupon for (code, tenant) the percentage is 0. Otherwise the first stored coupon for (code, tenant) decides: its discount up to and including its expiry instant, 0 after it. A non-zero percentage is always the discount of a stored coupon for (code, tenant) that has not expired. |
| Coupons.CouponPercentage | src/order/orderController.ts:29-36 | An absent or empty coupon code gives 0. A non-empty code gives exactly `getDiscountPercentage`'s value for it. Any non-zero percentage comes from an unexpired coupon with that code for the tenant. |
| Coupons.UniqueCouponDiscount | src/order/orderController.ts:164-171 | For a coupon stored once, the percentage is its discount up to and including its expiry instant, and 0 after it. |
| Coupons.ExpiredStaysExpired | src/order/orderController.ts:164-171 | At a later instant, the percentage is either unchanged or 0. |
| Checkout.Charges | src/order/orderController.ts:38-49 | The discount is the total times the percentage over 100, rounded. The taxes are 18% of the discounted price, rounded. The delivery charge is 100, and the final total is the discounted price plus taxes plus delivery. |
| Checkout.ChargesBounds | src/order/orderController.ts:38-49 | With a percentage from 0 to 100 and a total of at least 0, the discount is at most the total, the taxes are not negative, and the order costs at least the delivery charge. |
| Checkout.LargerDiscountNeverCostsMore | src/order/orderController.ts:38-49 | On a total of at least 0, a higher discount percentage never raises the final total. |
| Checkout.NoCouponExample | src/order/orderController.ts:43-49 | A subtotal of 1100 without a coupon gives tax 198 and a final total of 1398. |
| Checkout.TenPercentExample | src/order/orderController.ts:38-49 | A subtotal of 1100 at 10% off gives discount 110, tax 178 and a final total of 1268. |
| Checkout.PriceOrder | src/order/orderController.ts:27-49 | An order fails with the pricing error exactly when the reference cart throws. It fails as not-a-number exactly when the cart does not throw but has an unpriced value. Otherwise its subtotal is the reference cart amount and its charges use the coupon percentage of that instant. |
| Checkout.PizzaCartAmount | src/order/orderController.ts:101-136 | Two large pizzas (delta 500) with cheese cost 1100. The cheese is cached at 50, which overrides the client's 40. |
| Checkout.PizzaOrderWithoutCoupon | src/order/orderController.ts:27-49 | That order without a coupon is charged 1398. |
| Checkout.PizzaOrderWithCoupon | src/order/orderController.ts:27-49 | That order with a 10% coupon used on its expiry instant is charged 1268. |
| KeyedStore.Upsert | src/productCache/productUpdateHandler.ts:8-17 | After an upsert, the key holds exactly the new value (inserted if it was absent), and every other key keeps its value. |
| KeyedStore.UpsertAllLastWrite | src/productCache/productUpdateHandler.ts:8-17 | After a run of upserts, each key holds the value of its last update. A key that no update touches is as before, whether present or absent. |
| KeyedStore.UpsertAllReplay | src/productCache/productUpdateHandler.ts:8-17 | Replaying a run of upserts on its own result changes nothing. |
| KeyedStore.UpsertAllRedelivery | src/productCache/productUpdateHandler.ts:8-17 | Re-applying a stretch of a run and then continuing ends in the same store as applying the run once. |
| ProductCache.HandleProductUpdate | src/productCache/productUpdateHandler.ts:4-19 | A payload that does not decode fails with `DecodeError` and stores nothing. A decoded event makes its id hold exactly its configuration, replaced wholesale and inserted if new, and leaves all other products unchanged. |
| ProductCache.ProductUpdateIdempotent | src/productCache/productUpdateHandler.ts:8-18 | Handling the same event twice leaves the cache as handling it once. |
| ProductCache.ProductUpdateLastWriteWins | src/productCache/productUpdateHandler.ts:8-18 | Of two events for one product, the later one's configuration stays. |
| ProductCache.ProductUpdatesCommute | src/productCache/productUpdateHandler.ts:8-18 | Events for different products give the same cache in either order. |
| ToppingCache.HandleToppingUpdate | src/config/kafka.ts:111-113 | A topping payload that does not decode fails and stores nothing. A decoded one makes its id hold exactly its price, and leaves other toppings unchanged. |
| ToppingCache.ToppingUpdatesCommute | src/config/kafka.ts:111-113 | Topping events for different toppings give the same cache in either order. |
| Broker.EachMessage | src/config/kafka.ts:102-116 | A null value fails with `NullValue` on every topic, because it is converted to a string before the switch. Otherwise a "product" message's payload goes unchanged to the product handler and only the product cache changes. A "topping" message likewise goes to the topping handler. Any other topic changes nothing. The callback fails exactly when the value is null or the chosen handler cannot decode it. |
| Broker.EachMessageWrites | src/config/kafka.ts:107-116 | An accepted message changes each cache by exactly its own write: at most one upsert in total. |
| Broker.Consume | src/config/kafka.ts:95-118 | Consumption keeps running exactly when every message is accepted. Otherwise it halts at the first rejected message, with that message's `NullValue` or decode error; every earlier message was accepted. |
| Broker.ConsumeCaches | src/config/kafka.ts:95-118 | Consuming a stream applies, in order, the writes of the handled "product" messages to the product cache and those of the "topping" messages to the topping cache, and nothing else. |
| Broker.ProductEntryAfterStream | src/config/kafka.ts:107-110 | After a stream, a product holds the configuration of the last "product" message for it. A product that no message mentions is as before. |
| Broker.IgnoredTopicsChangeNothing | src/config/kafka.ts:102-115 | A stream on topics without a handler leaves both caches untouched when every value is present. Otherwise it halts with `NullValue` at the first null value, with the caches untouched. |
| Broker.RedeliveryIsHarmless | src/config/kafka.ts:95-118 | Suppose the consumer handles messages up to offset `j`, then restarts from an earlier offset `k` and consumes to the end. It ends in the same state as consuming the stream once. |
| Broker.SendMessage | src/config/kafka.ts:77-90 | Exactly one message is sent, to the given topic, with the given value. It carries a key exactly when the key is non-empty, and reading it back with "" for absent gives the key passed in. |
| Broker.Subscribe | src/config/kafka.ts:92-93 | The subscription covers the given topics. It replays from the beginning only when the caller passed true, so an omitted argument means false. |

## Left out

- The HTTP layer and the stored order record (`req.body`, `orderModel.create`, `res.json`) are I/O. Only the computed fields are modelled: discount, taxes, delivery charge and total.
- The database and the broker are replaced by maps and sequences:
  - Mongo `find`/`findOne`/`updateOne` become map lookups and updates.
  - Storage I/O failures are not modelled.
- Kafka client construction, SSL/SASL settings, connect and disconnect, and the `producer.send` / `consumer.run` transport are library plumbing. The log lines are output only. The one effect they have on the state comes from the first log line's `message.value.toString()`, which runs before the topic switch: a null value throws there on every topic, and `Broker.EachMessage` models that as `NullValue`.
- Partitions and consumer groups: `Broker.Consume` is one partition's stream handled in offset order. Interleaving across partitions is not modelled.
- `Broker.Consume`: a decode error or a null value halts the partition at the failing message. `handleProductUpdate` does not catch the `JSON.parse` error (its own `todo: wrap this parsing in try catch`, src/productCache/productUpdateHandler.ts:5-6), and the callback catches nothing either. How the Kafka client then retries or restarts is not modelled.
- Decoding: `JSON.parse` and the event shape are a decoder parameter returning `None` for a payload that is not an event. A payload that parses but lacks `data` is folded into that `None`.
- The topping update handler's source file is not part of this model. `ToppingCache.HandleToppingUpdate` treats it as the same decode-then-upsert of an event shaped like the product event (a `data` record), keyed by topping id and storing the price.
- Dates: `new Date()` and `new Date(validUpto)` are integer instants. The current instant is a parameter.
- `Coupons.DiscountPercentage`: a `validUpto` that does not parse as a date (an Invalid Date, which compares false and so yields 0) is not modelled, because instants are integers.
- Money, quantities and percentages are integers. Fractional prices and floating-point error in `Math.round` are not modelled.
- `Checkout.PriceOrder`: when the cart total is NaN (a chosen value with no cached price), the model reports `TotalIsNaN` rather than computing NaN charges. The source would pass NaN on to `orderModel.create`, whose number fields reject it. That store is not part of this model.
- Request validation is absent in the source (`todo: validate request data`), and the model adds none. Negative quantities or percentages above 100 are priced as the arithmetic says, and the bounds lemmas state their own ranges.
