/**
  The topping counterpart of `handleProductUpdate`, called from the broker
  for the "topping" topic. Its source file is not part of this model; it is
  modelled as the same decode-then-upsert, keyed by topping id and storing
  the topping's price.
 */
module ToppingCache {
  import opened Wrappers
  import opened Types
  import opened KeyedStore

  datatype ToppingData = ToppingData(id: string, price: int)

  /** The event published when a topping changes, shaped like the product event. */
  datatype ToppingMessage = ToppingMessage(data: ToppingData)

  type ToppingDecoder = string -> Option<ToppingMessage>

  /** As for products: a bad payload fails and stores nothing; a good one upserts its price. */
  function HandleToppingUpdate(decode: ToppingDecoder, cache: ToppingStore, value: string): (r: Result<ToppingStore, HandlerError>)
    ensures r.Failure? <==> decode(value).None?
    ensures r.Failure? ==> r.error == DecodeError(value)
    ensures r.Success? ==>
      var topping := decode(value).value.data;
      && r.value.Keys == cache.Keys + {topping.id}
      && r.value[topping.id] == topping.price
      && (forall id :: id in cache && id != topping.id ==> r.value[id] == cache[id])
  {
    match decode(value)
    case None => Failure(DecodeError(value))
    case Some(topping) => Success(Upsert(cache, topping.data.id, topping.data.price))
  }

  /** Topping events for different toppings may be handled in either order. */
  lemma ToppingUpdatesCommute(decode: ToppingDecoder, cache: ToppingStore, first: string, second: string)
    requires decode(first).Some? && decode(second).Some?
    requires decode(first).value.data.id != decode(second).value.data.id
    ensures HandleToppingUpdate(decode, HandleToppingUpdate(decode, cache, first).value, second).value ==
            HandleToppingUpdate(decode, HandleToppingUpdate(decode, cache, second).value, first).value
  {
    var a, b := decode(first).value.data, decode(second).value.data;
    UpsertCommutes(cache, a.id, a.price, b.id, b.price);
  }
}
