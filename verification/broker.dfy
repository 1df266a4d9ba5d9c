/**
  The broker side of `KafkaBroker`: the topic switch run for each consumed
  message, consumption of a partition as a fold of that switch, the record
  `sendMessage` hands to the producer and the subscription `consumeMessage`
  asks for. Transport, connections and logging are outside the model.
 */
module Broker {
  import opened Wrappers
  import opened Types
  import opened KeyedStore
  import opened ProductCache
  import opened ToppingCache

  const ProductTopic: string := "product"
  const ToppingTopic: string := "topping"

  /** The two price caches the handlers write. */
  datatype Caches = Caches(products: ProductStore, toppings: ToppingStore)

  /** How each handler decodes its payload. */
  datatype Decoders = Decoders(product: ProductDecoder, topping: ToppingDecoder)

  /**
    A consumed message: its topic and its value, which the broker may deliver
    as null (a tombstone); a present value is read as a string.
   */
  datatype Message = Message(topic: string, value: Option<string>)

  /**
    Why the callback threw: a null value cannot be converted to a string,
    whatever the topic; otherwise the topic's handler failed.
   */
  datatype MessageError = NullValue | HandlerFailed(cause: HandlerError)

  /** The value is present and the handler for the message's topic, if any, accepts it. */
  predicate Accepted(decoders: Decoders, m: Message) {
    && m.value.Some?
    && (m.topic == ProductTopic ==> decoders.product(m.value.value).Some?)
    && (m.topic == ToppingTopic ==> decoders.topping(m.value.value).Some?)
  }

  /** The error the callback throws on a rejected message. */
  function Rejection(m: Message): MessageError {
    if m.value.None? then NullValue else HandlerFailed(DecodeError(m.value.value))
  }

  /**
    The `eachMessage` callback. The value is converted to a string for the log
    line before the topic is looked at, so a null value fails on every topic.
    Otherwise a "product" message goes, payload unchanged, to the product
    handler and touches only the product cache; a "topping" message likewise
    to the topping handler; any other topic changes nothing. A handler's
    failure is the callback's failure.
   */
  function EachMessage(decoders: Decoders, caches: Caches, m: Message): (r: Result<Caches, MessageError>)
    ensures r.Failure? <==> !Accepted(decoders, m)
    ensures m.value.None? ==> r == Failure(NullValue)
    ensures m.value.Some? && r.Failure? ==> r.error == HandlerFailed(DecodeError(m.value.value))
    ensures m.value.Some? && m.topic == ProductTopic && r.Success? ==>
      r.value.toppings == caches.toppings && Success(r.value.products) == HandleProductUpdate(decoders.product, caches.products, m.value.value)
    ensures m.value.Some? && m.topic == ToppingTopic && r.Success? ==>
      r.value.products == caches.products && Success(r.value.toppings) == HandleToppingUpdate(decoders.topping, caches.toppings, m.value.value)
    ensures m.value.Some? && m.topic != ProductTopic && m.topic != ToppingTopic ==> r == Success(caches)
  {
    match m.value
    case None => Failure(NullValue)
    case Some(value) =>
      if m.topic == ProductTopic then
        match HandleProductUpdate(decoders.product, caches.products, value)
        case Failure(e) => Failure(HandlerFailed(e))
        case Success(products) => Success(caches.(products := products))
      else if m.topic == ToppingTopic then
        match HandleToppingUpdate(decoders.topping, caches.toppings, value)
        case Failure(e) => Failure(HandlerFailed(e))
        case Success(toppings) => Success(caches.(toppings := toppings))
      else
        Success(caches)
  }

  /** The product-cache write a message makes when handled, as a list of at most one upsert. */
  function ProductWrite(decoders: Decoders, m: Message): seq<(string, PriceConfiguration)>
  {
    if m.value.Some? && m.topic == ProductTopic && decoders.product(m.value.value).Some?
    then [(decoders.product(m.value.value).value.data.id, decoders.product(m.value.value).value.data.priceConfiguration)]
    else []
  }

  /** The topping-cache write a message makes when handled, as a list of at most one upsert. */
  function ToppingWrite(decoders: Decoders, m: Message): seq<(string, int)>
  {
    if m.value.Some? && m.topic == ToppingTopic && decoders.topping(m.value.value).Some?
    then [(decoders.topping(m.value.value).value.data.id, decoders.topping(m.value.value).value.data.price)]
    else []
  }

  function ProductWrites(decoders: Decoders, ms: seq<Message>): seq<(string, PriceConfiguration)>
  {
    if ms == [] then [] else ProductWrite(decoders, ms[0]) + ProductWrites(decoders, ms[1..])
  }

  function ToppingWrites(decoders: Decoders, ms: seq<Message>): seq<(string, int)>
  {
    if ms == [] then [] else ToppingWrite(decoders, ms[0]) + ToppingWrites(decoders, ms[1..])
  }

  /** An accepted message updates each cache by exactly its own write. */
  lemma EachMessageWrites(decoders: Decoders, caches: Caches, m: Message)
    requires Accepted(decoders, m)
    ensures EachMessage(decoders, caches, m) ==
      Success(Caches(UpsertAll(caches.products, ProductWrite(decoders, m)), UpsertAll(caches.toppings, ToppingWrite(decoders, m))))
  {
  }

  /**
    The consumer's state after a stream: still running with the caches it
    built, or halted at the message whose handler failed, with the caches as
    they were just before it.
   */
  datatype RunState = Running(caches: Caches) | Halted(caches: Caches, at: nat, error: MessageError)

  /**
    One partition's messages handled one at a time in offset order; the next
    message starts only after the previous handler finished. A failing
    handler stops the partition, so later messages are not applied.
   */
  function Consume(decoders: Decoders, caches: Caches, ms: seq<Message>): (r: RunState)
    ensures r.Running? <==> forall i :: 0 <= i < |ms| ==> Accepted(decoders, ms[i])
    ensures r.Halted? ==>
      && r.at < |ms|
      && !Accepted(decoders, ms[r.at])
      && (forall i :: 0 <= i < r.at ==> Accepted(decoders, ms[i]))
      && r.error == Rejection(ms[r.at])
    decreases ms
  {
    if ms == [] then Running(caches)
    else
      match EachMessage(decoders, caches, ms[0])
      case Failure(e) => Halted(caches, 0, e)
      case Success(next) =>
        var rest := Consume(decoders, next, ms[1..]);
        assert forall i :: 0 <= i < |ms| - 1 ==> ms[1..][i] == ms[i + 1];
        match rest
        case Running(c) => Running(c)
        case Halted(c, at, e) => Halted(c, at + 1, e)
  }

  /** The messages handled successfully: all of them, or those before the halt. */
  function Handled(r: RunState, ms: seq<Message>): seq<Message>
  {
    if r.Halted? && r.at <= |ms| then ms[..r.at] else ms
  }

  lemma {:induction false} ProductWritesAppend(decoders: Decoders, x: seq<Message>, y: seq<Message>)
    ensures ProductWrites(decoders, x + y) == ProductWrites(decoders, x) + ProductWrites(decoders, y)
  {
    if x == [] {
      assert x + y == y;
    } else {
      assert (x + y)[1..] == x[1..] + y;
      ProductWritesAppend(decoders, x[1..], y);
    }
  }

  lemma {:induction false} ToppingWritesAppend(decoders: Decoders, x: seq<Message>, y: seq<Message>)
    ensures ToppingWrites(decoders, x + y) == ToppingWrites(decoders, x) + ToppingWrites(decoders, y)
  {
    if x == [] {
      assert x + y == y;
    } else {
      assert (x + y)[1..] == x[1..] + y;
      ToppingWritesAppend(decoders, x[1..], y);
    }
  }

  /**
    Consumption is the two caches' upsert runs: the product cache receives,
    in order, the writes of the handled "product" messages and nothing else,
    and the topping cache those of the handled "topping" messages.
   */
  lemma {:induction false} ConsumeCaches(decoders: Decoders, caches: Caches, ms: seq<Message>)
    ensures Consume(decoders, caches, ms).caches ==
      Caches(UpsertAll(caches.products, ProductWrites(decoders, Handled(Consume(decoders, caches, ms), ms))),
             UpsertAll(caches.toppings, ToppingWrites(decoders, Handled(Consume(decoders, caches, ms), ms))))
    decreases ms
  {
    if ms != [] && Accepted(decoders, ms[0]) {
      var m := ms[0];
      EachMessageWrites(decoders, caches, m);
      var next := EachMessage(decoders, caches, m).value;
      ConsumeCaches(decoders, next, ms[1..]);
      HandledCons(decoders, caches, ms);
      var done := Handled(Consume(decoders, next, ms[1..]), ms[1..]);
      WritesCons(decoders, caches, m, done);
    }
  }

  /** Handling an accepted first message, then the rest: the handled prefix grows by that message. */
  lemma HandledCons(decoders: Decoders, caches: Caches, ms: seq<Message>)
    requires ms != [] && Accepted(decoders, ms[0])
    ensures var next := EachMessage(decoders, caches, ms[0]).value;
      && Consume(decoders, caches, ms).caches == Consume(decoders, next, ms[1..]).caches
      && Handled(Consume(decoders, caches, ms), ms) == [ms[0]] + Handled(Consume(decoders, next, ms[1..]), ms[1..])
  {
    var next := EachMessage(decoders, caches, ms[0]).value;
    var rest := Consume(decoders, next, ms[1..]);
    if rest.Halted? {
      PrefixCons(ms, rest.at);
    } else {
      PrefixCons(ms, |ms| - 1);
      assert ms[..|ms|] == ms;
    }
  }

  lemma PrefixCons<T>(s: seq<T>, n: nat)
    requires n < |s|
    ensures s[..n + 1] == [s[0]] + s[1..][..n]
  {
  }

  /** One message's writes followed by those of `done` are the writes of `[m] + done`. */
  lemma WritesCons(decoders: Decoders, caches: Caches, m: Message, done: seq<Message>)
    ensures UpsertAll(UpsertAll(caches.products, ProductWrite(decoders, m)), ProductWrites(decoders, done)) ==
            UpsertAll(caches.products, ProductWrites(decoders, [m] + done))
    ensures UpsertAll(UpsertAll(caches.toppings, ToppingWrite(decoders, m)), ToppingWrites(decoders, done)) ==
            UpsertAll(caches.toppings, ToppingWrites(decoders, [m] + done))
  {
    ProductWritesAppend(decoders, [m], done);
    ToppingWritesAppend(decoders, [m], done);
    assert ProductWrites(decoders, [m]) == ProductWrite(decoders, m);
    assert ToppingWrites(decoders, [m]) == ToppingWrite(decoders, m);
    UpsertAllAppend(caches.products, ProductWrite(decoders, m), ProductWrites(decoders, done));
    UpsertAllAppend(caches.toppings, ToppingWrite(decoders, m), ToppingWrites(decoders, done));
  }

  /**
    After a stream is handled, a product holds the configuration of the last
    "product" message for it; a product no message mentions is as before.
   */
  lemma ProductEntryAfterStream(decoders: Decoders, caches: Caches, ms: seq<Message>, id: string)
    requires Consume(decoders, caches, ms).Running?
    ensures LastWrite(ProductWrites(decoders, ms), id).Some? ==>
      && id in Consume(decoders, caches, ms).caches.products
      && Consume(decoders, caches, ms).caches.products[id] == LastWrite(ProductWrites(decoders, ms), id).value
    ensures LastWrite(ProductWrites(decoders, ms), id).None? ==>
      && (id in Consume(decoders, caches, ms).caches.products <==> id in caches.products)
      && (id in caches.products ==> Consume(decoders, caches, ms).caches.products[id] == caches.products[id])
  {
    ConsumeCaches(decoders, caches, ms);
    UpsertAllLastWrite(caches.products, ProductWrites(decoders, ms), id);
  }

  /**
    A stream on topics with no handler leaves both caches untouched, unless a
    value is null: then the stream halts at the first null value.
   */
  lemma {:induction false} IgnoredTopicsChangeNothing(decoders: Decoders, caches: Caches, ms: seq<Message>)
    requires forall i :: 0 <= i < |ms| ==> ms[i].topic != ProductTopic && ms[i].topic != ToppingTopic
    ensures (forall i :: 0 <= i < |ms| ==> ms[i].value.Some?) ==> Consume(decoders, caches, ms) == Running(caches)
    ensures forall i :: 0 <= i < |ms| && ms[i].value.None? && (forall j :: 0 <= j < i ==> ms[j].value.Some?) ==>
      Consume(decoders, caches, ms) == Halted(caches, i, NullValue)
    decreases ms
  {
    if ms != [] {
      assert forall i :: 0 <= i < |ms| - 1 ==> ms[1..][i] == ms[i + 1];
      IgnoredTopicsChangeNothing(decoders, caches, ms[1..]);
    }
  }

  /**
    At-least-once delivery is harmless: after the messages up to offset `j`
    were handled, a restart that redelivers from an earlier offset `k`
    ends in the same caches as handling the stream once.
   */
  lemma RedeliveryIsHarmless(decoders: Decoders, caches: Caches, ms: seq<Message>, k: nat, j: nat)
    requires k <= j <= |ms|
    requires Consume(decoders, caches, ms).Running?
    ensures Consume(decoders, caches, ms[..j] + ms[k..]) == Consume(decoders, caches, ms)
  {
    var replayed := ms[..j] + ms[k..];
    RedeliveredAccepted(decoders, ms, k, j);
    ConsumeCaches(decoders, caches, replayed);
    ConsumeCaches(decoders, caches, ms);
    RedeliveredWrites(decoders, caches, ms, k, j);
  }

  /** Every redelivered message was delivered before, so it is accepted again. */
  lemma RedeliveredAccepted(decoders: Decoders, ms: seq<Message>, k: nat, j: nat)
    requires k <= j <= |ms|
    requires forall i :: 0 <= i < |ms| ==> Accepted(decoders, ms[i])
    ensures forall i :: 0 <= i < |ms[..j] + ms[k..]| ==> Accepted(decoders, (ms[..j] + ms[k..])[i])
  {
    var replayed := ms[..j] + ms[k..];
    forall i | 0 <= i < |replayed|
      ensures Accepted(decoders, replayed[i])
    {
      if i < j {
        assert replayed[i] == ms[i];
      } else {
        assert replayed[i] == ms[k + (i - j)];
      }
    }
  }

  /** The redelivered stream leaves both caches as the stream delivered once. */
  lemma RedeliveredWrites(decoders: Decoders, caches: Caches, ms: seq<Message>, k: nat, j: nat)
    requires k <= j <= |ms|
    ensures UpsertAll(caches.products, ProductWrites(decoders, ms[..j] + ms[k..])) == UpsertAll(caches.products, ProductWrites(decoders, ms))
    ensures UpsertAll(caches.toppings, ToppingWrites(decoders, ms[..j] + ms[k..])) == UpsertAll(caches.toppings, ToppingWrites(decoders, ms))
  {
    var a, b, c := ms[..k], ms[k..j], ms[j..];
    assert ms[..j] == a + b && ms[k..] == b + c && ms == a + b + c;
    ProductWritesAppend(decoders, a, b);
    ProductWritesAppend(decoders, b, c);
    ProductWritesAppend(decoders, a + b, c);
    ProductWritesAppend(decoders, a + b, b + c);
    UpsertAllRedelivery(caches.products, ProductWrites(decoders, a), ProductWrites(decoders, b), ProductWrites(decoders, c));
    ToppingWritesAppend(decoders, a, b);
    ToppingWritesAppend(decoders, b, c);
    ToppingWritesAppend(decoders, a + b, c);
    ToppingWritesAppend(decoders, a + b, b + c);
    UpsertAllRedelivery(caches.toppings, ToppingWrites(decoders, a), ToppingWrites(decoders, b), ToppingWrites(decoders, c));
  }

  /** A message sent by `sendMessage`: the value, and the key when one was given. */
  datatype OutgoingMessage = OutgoingMessage(value: string, key: Option<string>)

  /** What `sendMessage` hands to `producer.send`. */
  datatype ProducerRecord = ProducerRecord(topic: string, messages: seq<OutgoingMessage>)

  /**
    One message, to the given topic, carrying the value as given. An empty
    key is falsy and is left off the message; any other key is attached.
   */
  function SendMessage(topic: string, message: string, key: string): (r: ProducerRecord)
    ensures r.topic == topic && |r.messages| == 1
    ensures r.messages[0].value == message
    ensures r.messages[0].key.Some? <==> key != ""
    ensures r.messages[0].key.GetOr("") == key
  {
    var data := if key != "" then OutgoingMessage(message, Some(key)) else OutgoingMessage(message, None);
    ProducerRecord(topic, [data])
  }

  /** The subscription `consumeMessage` requests. */
  datatype Subscription = Subscription(topics: seq<string>, fromBeginning: bool)

  /**
    `fromBeginning` is optional and defaults to false: the stream replays from
    the earliest offset only when the caller passed true.
   */
  function Subscribe(topics: seq<string>, fromBeginning: Option<bool>): (r: Subscription)
    ensures r.topics == topics
    ensures r.fromBeginning <==> fromBeginning == Some(true)
  {
    Subscription(topics, fromBeginning.GetOr(false))
  }
}
