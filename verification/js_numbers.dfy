/**
  The part of JavaScript number arithmetic the pricing code relies on: integers
  (amounts in the smallest currency unit) and NaN, which is what `undefined`
  becomes once it is added to a number. NaN absorbs every sum and product.
 */
module JsNumbers {

  datatype JsNumber = Finite(value: int) | NaN

  /** `a + b` */
  function Add(a: JsNumber, b: JsNumber): JsNumber {
    if a.Finite? && b.Finite? then Finite(a.value + b.value) else NaN
  }

  /** `k * a` for a finite integer factor `k` */
  function Scale(k: int, a: JsNumber): JsNumber {
    if a.Finite? then Finite(k * a.value) else NaN
  }

  lemma AddZero(a: JsNumber)
    ensures Add(a, Finite(0)) == a
    ensures Add(Finite(0), a) == a
  {
  }

  lemma AddCommutes(a: JsNumber, b: JsNumber)
    ensures Add(a, b) == Add(b, a)
  {
  }

  lemma AddAssociates(a: JsNumber, b: JsNumber, c: JsNumber)
    ensures Add(Add(a, b), c) == Add(a, Add(b, c))
  {
  }
}
