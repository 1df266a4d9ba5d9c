/**
  `handleProductUpdate`: a product event is decoded and its price
  configuration stored under the product id, replacing any previous one.
  Decoding (`JSON.parse`) is a parameter: it yields `None` for a payload
  that is not a product event.
 */
module ProductCache {
  import opened Wrappers
  import opened Types
  import opened KeyedStore

  datatype ProductData = ProductData(id: string, priceConfiguration: PriceConfiguration)

  /** The event published when a product changes; only `data` is read. */
  datatype ProductMessage = ProductMessage(data: ProductData)

  type ProductDecoder = string -> Option<ProductMessage>

  /**
    A payload that does not decode fails the call and stores nothing; one that
    does makes its id hold exactly its configuration, whether or not the id
    was cached, and leaves every other entry as it was.
   */
  function HandleProductUpdate(decode: ProductDecoder, cache: ProductStore, value: string): (r: Result<ProductStore, HandlerError>)
    ensures r.Failure? <==> decode(value).None?
    ensures r.Failure? ==> r.error == DecodeError(value)
    ensures r.Success? ==>
      var data := decode(value).value.data;
      && r.value.Keys == cache.Keys + {data.id}
      && r.value[data.id] == data.priceConfiguration
      && (forall id :: id in cache && id != data.id ==> r.value[id] == cache[id])
  {
    match decode(value)
    case None => Failure(DecodeError(value))
    case Some(product) => Success(Upsert(cache, product.data.id, product.data.priceConfiguration))
  }

  /** Handling the same event twice leaves the cache as handling it once. */
  lemma ProductUpdateIdempotent(decode: ProductDecoder, cache: ProductStore, value: string)
    requires decode(value).Some?
    ensures HandleProductUpdate(decode, HandleProductUpdate(decode, cache, value).value, value) == HandleProductUpdate(decode, cache, value)
  {
    var data := decode(value).value.data;
    UpsertIdempotent(cache, data.id, data.priceConfiguration);
  }

  /** Of two events for the same product, the later one's configuration is what stays cached. */
  lemma ProductUpdateLastWriteWins(decode: ProductDecoder, cache: ProductStore, first: string, second: string)
    requires decode(first).Some? && decode(second).Some?
    requires decode(first).value.data.id == decode(second).value.data.id
    ensures HandleProductUpdate(decode, HandleProductUpdate(decode, cache, first).value, second) == HandleProductUpdate(decode, cache, second)
  {
    var a, b := decode(first).value.data, decode(second).value.data;
    UpsertLastWriteWins(cache, a.id, a.priceConfiguration, b.priceConfiguration);
  }

  /** Events for different products may be handled in either order. */
  lemma ProductUpdatesCommute(decode: ProductDecoder, cache: ProductStore, first: string, second: string)
    requires decode(first).Some? && decode(second).Some?
    requires decode(first).value.data.id != decode(second).value.data.id
    ensures HandleProductUpdate(decode, HandleProductUpdate(decode, cache, first).value, second).value ==
            HandleProductUpdate(decode, HandleProductUpdate(decode, cache, second).value, first).value
  {
    var a, b := decode(first).value.data, decode(second).value.data;
    UpsertCommutes(cache, a.id, a.priceConfiguration, b.id, b.priceConfiguration);
  }
}
