/**
  The charges `create` computes for an order (orderController.ts lines 27-49):
  cart total, coupon discount, 18% tax on the discounted price and a flat
  delivery charge. Amounts are integers in the smallest currency unit.
 */
module Checkout {
  import opened Wrappers
  import opened Types
  import opened JsNumbers
  import opened Rounding
  import opened PricingSpec
  import opened Pricing
  import opened PricingProofs
  import opened Coupons

  const TaxesPercent: int := 18
  const DeliveryCharges: int := 100

  /** The computed fields of the order record. */
  datatype OrderCharges = OrderCharges(subtotal: int, discount: int, taxes: int, deliveryCharges: int, total: int)

  datatype OrderError =
    | PricingFailed(cause: PricingError)
      /** The cart total is not a number; the order store refuses to cast it. */
    | TotalIsNaN

  datatype OrderRequest = OrderRequest(cart: seq<CartItem>, couponCode: Option<string>, tenantId: string)

  /**
    Discount, tax and delivery on a cart total: each rounded amount is the
    nearest integer to its exact share, half-way cases going up.
   */
  function Charges(totalPrice: int, discountPercentage: int): (r: OrderCharges)
    ensures r.subtotal == totalPrice
    ensures 100 * r.discount - 50 <= totalPrice * discountPercentage < 100 * r.discount + 50
    ensures 100 * r.taxes - 50 <= (totalPrice - r.discount) * TaxesPercent < 100 * r.taxes + 50
    ensures r.deliveryCharges == DeliveryCharges
    ensures r.total == totalPrice - r.discount + r.taxes + DeliveryCharges
  {
    var discountAmount := PercentOf(totalPrice, discountPercentage);
    var priceAfterDiscount := totalPrice - discountAmount;
    var taxes := PercentOf(priceAfterDiscount, TaxesPercent);
    OrderCharges(totalPrice, discountAmount, taxes, DeliveryCharges, priceAfterDiscount + taxes + DeliveryCharges)
  }

  /**
    With a percentage between 0 and 100 and a non-negative cart total, the
    discount is at most the total, the discounted price and the taxes are
    non-negative, and the order costs at least the delivery charge.
   */
  lemma ChargesBounds(totalPrice: int, discountPercentage: int)
    requires totalPrice >= 0 && 0 <= discountPercentage <= 100
    ensures 0 <= Charges(totalPrice, discountPercentage).discount <= totalPrice
    ensures Charges(totalPrice, discountPercentage).taxes >= 0
    ensures Charges(totalPrice, discountPercentage).total >= totalPrice - Charges(totalPrice, discountPercentage).discount + DeliveryCharges
    ensures Charges(totalPrice, discountPercentage).total >= DeliveryCharges
  {
    PercentOfBounds(totalPrice, discountPercentage);
    var d := PercentOf(totalPrice, discountPercentage);
    PercentOfBounds(totalPrice - d, TaxesPercent);
  }

  /** A discount percentage scales a non-negative amount monotonically. */
  lemma PercentOfMonotoneInPercent(amount: int, p: int, q: int)
    requires amount >= 0 && p <= q
    ensures PercentOf(amount, p) <= PercentOf(amount, q)
  {
    assert amount * p <= amount * q by {
      assert amount * (q - p) >= 0;
    }
    RoundHundredthsMonotone(amount * p, amount * q);
  }

  /** A larger discount percentage never makes the order dearer. */
  lemma LargerDiscountNeverCostsMore(totalPrice: int, p: int, q: int)
    requires totalPrice >= 0 && p <= q
    ensures Charges(totalPrice, q).total <= Charges(totalPrice, p).total
  {
    PercentOfMonotoneInPercent(totalPrice, p, q);
    var dp, dq := PercentOf(totalPrice, p), PercentOf(totalPrice, q);
    PercentOfMonotone(totalPrice - dq, totalPrice - dp, TaxesPercent);
  }

  /** A subtotal of 1100 without a coupon: tax 198, total 1398. */
  lemma NoCouponExample()
    ensures Charges(1100, 0) == OrderCharges(1100, 0, 198, 100, 1398)
  {
  }

  /** A subtotal of 1100 with 10% off: discount 110, tax 178, total 1268. */
  lemma TenPercentExample()
    ensures Charges(1100, 10) == OrderCharges(1100, 110, 178, 100, 1268)
  {
  }

  /**
    The charges of an order request: the cart is priced against the caches,
    the coupon (if a code was sent) gives the percentage at instant `now`,
    and a total that is not a number fails the order.
   */
  function PriceOrder(request: OrderRequest, products: ProductStore, toppings: ToppingStore, coupons: seq<Coupon>, now: int): (r: Result<OrderCharges, OrderError>)
    ensures r.Failure? && r.error.PricingFailed? <==> CartThrows(request.cart, products)
    ensures r == Failure(TotalIsNaN) <==> !CartThrows(request.cart, products) && !CartPriced(request.cart, products)
    ensures r.Success? ==>
      && CartPriced(request.cart, products)
      && CartAmount(request.cart, products, toppings) == Finite(r.value.subtotal)
    ensures r.Success? ==> r.value == Charges(r.value.subtotal, CouponPercentage(request.couponCode, coupons, request.tenantId, now))
  {
    CalculateTotalMeaning(request.cart, products, toppings);
    match CalculateTotal(request.cart, products, toppings)
    case Failure(e) => Failure(PricingFailed(e))
    case Success(NaN) => Failure(TotalIsNaN)
    case Success(Finite(totalPrice)) =>
      Success(Charges(totalPrice, CouponPercentage(request.couponCode, coupons, request.tenantId, now)))
  }

  /**
    One large pizza (delta 500) with cheese, two of them. The cache prices
    cheese at 50, overriding the client's 40, so the subtotal is 2 * 550.
   */
  lemma {:induction false} PizzaOrderWithoutCoupon()
    ensures PriceOrder(OrderRequest(PizzaCart(), None, "t1"), PizzaProducts(), PizzaToppings(), [], 0)
            == Success(OrderCharges(1100, 0, 198, 100, 1398))
  {
    PizzaCartAmount();
    var r := PriceOrder(OrderRequest(PizzaCart(), None, "t1"), PizzaProducts(), PizzaToppings(), [], 0);
    assert r.Success? && r.value.subtotal == 1100;
    NoCouponExample();
  }

  /** The same order with a 10% coupon redeemed on its last valid instant. */
  lemma {:induction false} PizzaOrderWithCoupon()
    ensures PriceOrder(OrderRequest(PizzaCart(), Some("SAVE10"), "t1"), PizzaProducts(), PizzaToppings(),
                       [Coupon("SAVE10", 10, 1000, "t1")], 1000)
            == Success(OrderCharges(1100, 110, 178, 100, 1268))
  {
    PizzaCartAmount();
    var coupon := Coupon("SAVE10", 10, 1000, "t1");
    var r := PriceOrder(OrderRequest(PizzaCart(), Some("SAVE10"), "t1"), PizzaProducts(), PizzaToppings(), [coupon], 1000);
    assert r.Success? && r.value.subtotal == 1100;
    SaveTenOnLastDay();
    TenPercentExample();
  }

  /** The coupon still applies on its expiry instant. */
  lemma SaveTenOnLastDay()
    ensures CouponPercentage(Some("SAVE10"), [Coupon("SAVE10", 10, 1000, "t1")], "t1", 1000) == 10
  {
    var coupon := Coupon("SAVE10", 10, 1000, "t1");
    UniqueCouponDiscount([coupon], coupon, 1000);
  }

  /** The pizza cart is priced at 1100 without an exception. */
  lemma {:induction false} PizzaCartAmount()
    ensures CartAmount(PizzaCart(), PizzaProducts(), PizzaToppings()) == Finite(1100)
    ensures CartPriced(PizzaCart(), PizzaProducts())
    ensures !CartThrows(PizzaCart(), PizzaProducts())
  {
    var cart, products, toppings := PizzaCart(), PizzaProducts(), PizzaToppings();
    var item := cart[0];
    var cfg := products["pizza"];
    assert SelectionAmount(Some(cfg), item.chosenConfiguration.priceConfiguration) == Finite(500) by {
      var chosen := item.chosenConfiguration.priceConfiguration;
      assert chosen[1..] == [];
      assert OptionDelta(cfg, chosen[0]) == Finite(500);
    }
    assert ToppingsSum(item.chosenConfiguration.selectedToppings, toppings) == 50 by {
      assert item.chosenConfiguration.selectedToppings[1..] == [];
    }
    assert ItemAmount(item, products, toppings) == Finite(1100);
    assert cart[1..] == [];
    assert !CartThrows(cart, products) by {
      assert !ItemThrows(item, products);
    }
    CartAmountFinite(cart, products, toppings);
  }

  function PizzaCart(): seq<CartItem> {
    [CartItem("pizza", 2, ChosenConfiguration([Choice("size", "large")], [Topping("cheese", 40)]))]
  }

  function PizzaProducts(): ProductStore {
    map["pizza" := map["size" := OptionPricing(map["small" := 300, "large" := 500])]]
  }

  function PizzaToppings(): ToppingStore {
    map["cheese" := 50]
  }
}
