/**
 * The feed handler: validate the payload; if it is invalid, publish an error event;
 * otherwise draw the partner's next sequence number, hash the payload, transform it
 * and publish the order. The clock reads (receivedTime and the transformer's
 * processedTime) are parameters; JSON.stringify and SHA-256 are fixed at construction.
 */
module Feed {
  import opened Wrappers
  import opened Json
  import opened Calendar
  import opened Types
  import opened Validation
  import opened Transform
  import opened Idempotency
  import opened Sequences
  import opened Streams

  /** The subscribers the system registers on its two streams. */
  datatype Consumer = OrderConsumer | ErrorConsumer

  /** `{ success, message }`. */
  datatype Response = Response(success: bool, message: string)

  const Accepted: Response := Response(true, "Order event queued successfully.")
  const Rejected: Response := Response(false, "Invalid payload. Error event queued.")

  /** What one call publishes: an order, an error event, or (when the transformer throws) nothing. */
  datatype Publication = OrderPublished(order: OrderEvent) | ErrorPublished(error: ErrorEvent) | NothingPublished

  /** One call on values: the counters afterwards, what was published, and the reply or the thrown message. */
  datatype Outcome = Outcome(sequences: map<string, int>, published: Publication, reply: Result<Response, string>)

  /** The error event an invalid payload becomes. */
  function ErrorEventOf(partnerId: string, payload: Json, receivedTime: int, errors: seq<string>,
                        idempotencyKey: Option<string>, contentHash: string): ErrorEvent
  {
    ErrorEvent(partnerId, payload, receivedTime, errors, idempotencyKey, Some(contentHash))
  }

  /** handlePartnerA on values. */
  function HandleA(sequences: map<string, int>, payload: Json, idempotencyKey: Option<string>, receivedTime: int,
                   processedTime: int, stringify: Json -> string, sha256: string -> string): Outcome
  {
    var contentHash := GenerateContentHash(payload, stringify, sha256);
    if !WellFormedA(payload) then
      Outcome(sequences, ErrorPublished(ErrorEventOf("A", payload, receivedTime, PartnerAErrors(payload), idempotencyKey, contentHash)),
              Ok(Rejected))
    else
      var (after, sequenceNumber) := Draw(sequences, "A");
      match TransformPartnerA(AsPartnerAEvent(payload), "A", sequenceNumber, receivedTime, processedTime, idempotencyKey, Some(contentHash))
      case Err(message) => Outcome(after, NothingPublished, Err(message))
      case Ok(order) => Outcome(after, OrderPublished(order), Ok(Accepted))
  }

  /** handlePartnerB on values. */
  function HandleB(sequences: map<string, int>, payload: Json, idempotencyKey: Option<string>, receivedTime: int,
                   processedTime: int, stringify: Json -> string, sha256: string -> string): Outcome
  {
    var contentHash := GenerateContentHash(payload, stringify, sha256);
    if !WellFormedB(payload) then
      Outcome(sequences, ErrorPublished(ErrorEventOf("B", payload, receivedTime, PartnerBErrors(payload), idempotencyKey, contentHash)),
              Ok(Rejected))
    else
      var (after, sequenceNumber) := Draw(sequences, "B");
      var order := TransformPartnerB(AsPartnerBEvent(payload), "B", sequenceNumber, receivedTime, processedTime, idempotencyKey, Some(contentHash));
      Outcome(after, OrderPublished(order), Ok(Accepted))
  }

  /** The events one publication adds to the order stream and to the error stream. */
  function OrdersOf(p: Publication): seq<OrderEvent>
  {
    if p.OrderPublished? then [p.order] else []
  }

  function ErrorsOf(p: Publication): seq<ErrorEvent>
  {
    if p.ErrorPublished? then [p.error] else []
  }

  /** The stream operations that publish `events`, in order. */
  function PublishOps<T>(events: seq<T>): seq<StreamOp<Consumer, T>>
  {
    if events == [] then [] else [StreamOp.Publish(events[0])] + PublishOps(events[1..])
  }

  /** The subscriber calls one publication makes on a stream. */
  function Fanout<T>(subscribers: seq<Consumer>, events: seq<T>): seq<Delivery<Consumer, T>>
    requires |events| <= 1
  {
    if events == [] then [] else Deliveries(subscribers, events[0])
  }

  // ---------------------------------------------------------------------------
  // Properties of the handlers

  /**
   * An invalid Partner A payload draws no sequence number and publishes one error
   * event carrying the validator's (non-empty) errors and the payload's hash.
   */
  lemma InvalidAPublishesError(sequences: map<string, int>, payload: Json, idempotencyKey: Option<string>, receivedTime: int,
                               processedTime: int, stringify: Json -> string, sha256: string -> string)
    requires !WellFormedA(payload)
    ensures var out := HandleA(sequences, payload, idempotencyKey, receivedTime, processedTime, stringify, sha256);
            out.sequences == sequences && out.reply == Ok(Rejected)
            && out.published.ErrorPublished?
            && out.published.error.partnerId == "A" && out.published.error.rawPayload == payload
            && out.published.error.receivedTime == receivedTime
            && out.published.error.validationErrors == PartnerAErrors(payload) && |out.published.error.validationErrors| >= 1
            && out.published.error.idempotencyKey == idempotencyKey
            && out.published.error.contentHash == Some(GenerateContentHash(payload, stringify, sha256))
  {
  }

  /**
   * A valid Partner A payload draws exactly one "A" number and, unless the time value
   * is out of range, publishes the transformed order stamped with that number.
   */
  lemma ValidADrawsOnce(sequences: map<string, int>, payload: Json, idempotencyKey: Option<string>, receivedTime: int,
                        processedTime: int, stringify: Json -> string, sha256: string -> string)
    requires WellFormedA(payload)
    ensures var out := HandleA(sequences, payload, idempotencyKey, receivedTime, processedTime, stringify, sha256);
            var e := AsPartnerAEvent(payload);
            out.sequences == Draw(sequences, "A").0
            && (out.published.OrderPublished? <==> e.transactionTimeMs <= MaxTime)
            && (out.published.OrderPublished? ==>
                  var o := out.published.order;
                  o.partnerId == "A" && o.sequenceNumber == CurrentOf(sequences, "A") + 1
                  && o.productCode == e.skuId && o.eventTime == e.transactionTimeMs && o.grossAmount == e.amount
                  && o.idempotencyKey == idempotencyKey && o.contentHash == Some(GenerateContentHash(payload, stringify, sha256))
                  && o.receivedTime == receivedTime && out.reply == Ok(Accepted))
            && (out.published.NothingPublished? ==> out.reply == Err("Invalid time value"))
  {
  }

  /** An invalid Partner B payload draws no sequence number and publishes one error event. */
  lemma InvalidBPublishesError(sequences: map<string, int>, payload: Json, idempotencyKey: Option<string>, receivedTime: int,
                               processedTime: int, stringify: Json -> string, sha256: string -> string)
    requires !WellFormedB(payload)
    ensures var out := HandleB(sequences, payload, idempotencyKey, receivedTime, processedTime, stringify, sha256);
            out.sequences == sequences && out.reply == Ok(Rejected)
            && out.published.ErrorPublished?
            && out.published.error.partnerId == "B" && out.published.error.rawPayload == payload
            && out.published.error.receivedTime == receivedTime
            && out.published.error.validationErrors == PartnerBErrors(payload) && |out.published.error.validationErrors| >= 1
            && out.published.error.idempotencyKey == idempotencyKey
            && out.published.error.contentHash == Some(GenerateContentHash(payload, stringify, sha256))
  {
  }

  /** A valid Partner B payload draws exactly one "B" number and always publishes the transformed order. */
  lemma ValidBPublishesOrder(sequences: map<string, int>, payload: Json, idempotencyKey: Option<string>, receivedTime: int,
                             processedTime: int, stringify: Json -> string, sha256: string -> string)
    requires WellFormedB(payload)
    ensures var out := HandleB(sequences, payload, idempotencyKey, receivedTime, processedTime, stringify, sha256);
            var e := AsPartnerBEvent(payload);
            out.sequences == Draw(sequences, "B").0 && out.reply == Ok(Accepted)
            && out.published.OrderPublished?
            && out.published.order.partnerId == "B" && out.published.order.sequenceNumber == CurrentOf(sequences, "B") + 1
            && out.published.order.eventTime == PurchaseInstant(e.purchaseTime)
            && out.published.order.netAmount == e.total - DiscountOrZero(e.discount)
            && out.published.order.contentHash == Some(GenerateContentHash(payload, stringify, sha256))
  {
  }

  /**
   * Each call publishes to exactly one stream, and the reply says which: success
   * with an order, failure with an error event; only a thrown transform publishes
   * nothing, and it happens only to valid Partner A payloads.
   */
  lemma ReplyNamesTheStream(sequences: map<string, int>, partnerB: bool, payload: Json, idempotencyKey: Option<string>,
                            receivedTime: int, processedTime: int, stringify: Json -> string, sha256: string -> string)
    ensures var out := if partnerB then HandleB(sequences, payload, idempotencyKey, receivedTime, processedTime, stringify, sha256)
                       else HandleA(sequences, payload, idempotencyKey, receivedTime, processedTime, stringify, sha256);
            |OrdersOf(out.published)| + |ErrorsOf(out.published)| == (if out.reply.Ok? then 1 else 0)
            && (out.reply == Ok(Accepted) <==> out.published.OrderPublished?)
            && (out.reply == Ok(Rejected) <==> out.published.ErrorPublished?)
            && (out.reply.Err? ==> !partnerB && WellFormedA(payload))
  {
  }

  /** The Partner A payload the feed tests send succeeds. */
  lemma SamplePartnerAPayloadSucceeds(sequences: map<string, int>, idempotencyKey: Option<string>, receivedTime: int,
                                      processedTime: int, stringify: Json -> string, sha256: string -> string)
    ensures var payload := JObject(["skuId", "transactionTimeMs", "amount"], map[
              "skuId" := JStr("SKU-1001"),
              "transactionTimeMs" := JNum(Finite(1733059200123.0)),
              "amount" := JNum(Finite(25.5))]);
            HandleA(sequences, payload, idempotencyKey, receivedTime, processedTime, stringify, sha256).reply == Ok(Accepted)
  {
    SamplePartnerAPayloadIsValid();
  }

  /** FeedHandler: the sequence counter and the two streams it drives. */
  class FeedHandler {
    const sequences: SequenceManager
    const validOrders: Stream<Consumer, OrderEvent>
    const errorOrders: Stream<Consumer, ErrorEvent>
    const stringify: Json -> string
    const sha256: string -> string

    ghost predicate Valid()
      reads this, validOrders, errorOrders
    {
      validOrders.Valid() && errorOrders.Valid()
    }

    constructor(sequences: SequenceManager, validOrders: Stream<Consumer, OrderEvent>, errorOrders: Stream<Consumer, ErrorEvent>,
                stringify: Json -> string, sha256: string -> string)
      ensures this.sequences == sequences && this.validOrders == validOrders && this.errorOrders == errorOrders
      ensures this.stringify == stringify && this.sha256 == sha256
    {
      this.sequences := sequences;
      this.validOrders := validOrders;
      this.errorOrders := errorOrders;
      this.stringify := stringify;
      this.sha256 := sha256;
    }

    /** Publishes one error event on errorOrders: the queue and history grow by it, and each subscriber is called once. */
    method PublishError(e: ErrorEvent) returns (deliveries: seq<Delivery<Consumer, ErrorEvent>>)
      requires Valid()
      modifies errorOrders
      ensures Valid()
      ensures errorOrders.queue == old(errorOrders.queue) + ErrorsOf(ErrorPublished(e))
      ensures errorOrders.history == old(errorOrders.history) + PublishOps(ErrorsOf(ErrorPublished(e)))
      ensures errorOrders.subscribers == old(errorOrders.subscribers)
      ensures deliveries == Fanout(errorOrders.subscribers, ErrorsOf(ErrorPublished(e)))
    {
      assert PublishOps([e]) == [StreamOp.Publish(e)];
      deliveries := errorOrders.Publish(e);
    }

    /** Publishes one order event on validOrders. */
    method PublishOrder(o: OrderEvent) returns (deliveries: seq<Delivery<Consumer, OrderEvent>>)
      requires Valid()
      modifies validOrders
      ensures Valid()
      ensures validOrders.queue == old(validOrders.queue) + OrdersOf(OrderPublished(o))
      ensures validOrders.history == old(validOrders.history) + PublishOps(OrdersOf(OrderPublished(o)))
      ensures validOrders.subscribers == old(validOrders.subscribers)
      ensures deliveries == Fanout(validOrders.subscribers, OrdersOf(OrderPublished(o)))
    {
      assert PublishOps([o]) == [StreamOp.Publish(o)];
      deliveries := validOrders.Publish(o);
    }

    /** Carries out one publication: the event goes to its stream, the other stream is left alone. */
    method Emit(published: Publication)
      returns (orderDeliveries: seq<Delivery<Consumer, OrderEvent>>, errorDeliveries: seq<Delivery<Consumer, ErrorEvent>>)
      requires Valid()
      modifies validOrders, errorOrders
      ensures Valid()
      ensures validOrders.queue == old(validOrders.queue) + OrdersOf(published)
      ensures errorOrders.queue == old(errorOrders.queue) + ErrorsOf(published)
      ensures validOrders.history == old(validOrders.history) + PublishOps(OrdersOf(published))
      ensures errorOrders.history == old(errorOrders.history) + PublishOps(ErrorsOf(published))
      ensures validOrders.subscribers == old(validOrders.subscribers)
      ensures errorOrders.subscribers == old(errorOrders.subscribers)
      ensures orderDeliveries == Fanout(validOrders.subscribers, OrdersOf(published))
      ensures errorDeliveries == Fanout(errorOrders.subscribers, ErrorsOf(published))
    {
      orderDeliveries, errorDeliveries := [], [];
      match published
      case OrderPublished(o) =>
        orderDeliveries := PublishOrder(o);
      case ErrorPublished(e) =>
        errorDeliveries := PublishError(e);
      case NothingPublished =>
    }

    /** handlePartnerA: returns the reply (or the thrown message) and the subscriber calls each publish made. */
    method HandlePartnerA(payload: Json, idempotencyKey: Option<string>, receivedTime: int, processedTime: int)
      returns (reply: Result<Response, string>, orderDeliveries: seq<Delivery<Consumer, OrderEvent>>,
               errorDeliveries: seq<Delivery<Consumer, ErrorEvent>>)
      requires Valid()
      modifies sequences, validOrders, errorOrders
      ensures Valid()
      ensures var out := HandleA(old(sequences.sequences), payload, idempotencyKey, receivedTime, processedTime, stringify, sha256);
              sequences.sequences == out.sequences && reply == out.reply
              && validOrders.queue == old(validOrders.queue) + OrdersOf(out.published)
              && errorOrders.queue == old(errorOrders.queue) + ErrorsOf(out.published)
              && validOrders.history == old(validOrders.history) + PublishOps(OrdersOf(out.published))
              && errorOrders.history == old(errorOrders.history) + PublishOps(ErrorsOf(out.published))
              && validOrders.subscribers == old(validOrders.subscribers)
              && errorOrders.subscribers == old(errorOrders.subscribers)
              && orderDeliveries == Fanout(validOrders.subscribers, OrdersOf(out.published))
              && errorDeliveries == Fanout(errorOrders.subscribers, ErrorsOf(out.published))
    {
      ghost var out := HandleA(sequences.sequences, payload, idempotencyKey, receivedTime, processedTime, stringify, sha256);
      var validation := ValidatePartnerA(payload);
      if !validation.isValid {
        var contentHash := GenerateContentHash(payload, stringify, sha256);
        var errorEvent := ErrorEvent("A", payload, receivedTime, validation.errors, idempotencyKey, Some(contentHash));
        assert out == Outcome(sequences.sequences, ErrorPublished(errorEvent), Ok(Rejected));
        orderDeliveries, errorDeliveries := Emit(ErrorPublished(errorEvent));
        reply := Ok(Response(false, "Invalid payload. Error event queued."));
        return;
      }
      var event := AsPartnerAEvent(payload);
      var sequenceNumber := sequences.GetNextSequence("A");
      var contentHash := GenerateContentHash(payload, stringify, sha256);
      var orderEvent := TransformPartnerA(event, "A", sequenceNumber, receivedTime, processedTime, idempotencyKey, Some(contentHash));
      if orderEvent.Err? {
        assert out == Outcome(sequences.sequences, NothingPublished, Err(orderEvent.error));
        orderDeliveries, errorDeliveries := Emit(NothingPublished);
        reply := Err(orderEvent.error);
        return;
      }
      assert out == Outcome(sequences.sequences, OrderPublished(orderEvent.value), Ok(Accepted));
      orderDeliveries, errorDeliveries := Emit(OrderPublished(orderEvent.value));
      reply := Ok(Response(true, "Order event queued successfully."));
    }

    /** handlePartnerB: as handlePartnerA, with the Partner B validator and transformer. */
    method HandlePartnerB(payload: Json, idempotencyKey: Option<string>, receivedTime: int, processedTime: int)
      returns (reply: Result<Response, string>, orderDeliveries: seq<Delivery<Consumer, OrderEvent>>,
               errorDeliveries: seq<Delivery<Consumer, ErrorEvent>>)
      requires Valid()
      modifies sequences, validOrders, errorOrders
      ensures Valid()
      ensures var out := HandleB(old(sequences.sequences), payload, idempotencyKey, receivedTime, processedTime, stringify, sha256);
              sequences.sequences == out.sequences && reply == out.reply
              && validOrders.queue == old(validOrders.queue) + OrdersOf(out.published)
              && errorOrders.queue == old(errorOrders.queue) + ErrorsOf(out.published)
              && validOrders.history == old(validOrders.history) + PublishOps(OrdersOf(out.published))
              && errorOrders.history == old(errorOrders.history) + PublishOps(ErrorsOf(out.published))
              && validOrders.subscribers == old(validOrders.subscribers)
              && errorOrders.subscribers == old(errorOrders.subscribers)
              && orderDeliveries == Fanout(validOrders.subscribers, OrdersOf(out.published))
              && errorDeliveries == Fanout(errorOrders.subscribers, ErrorsOf(out.published))
    {
      ghost var out := HandleB(sequences.sequences, payload, idempotencyKey, receivedTime, processedTime, stringify, sha256);
      var validation := ValidatePartnerB(payload);
      if !validation.isValid {
        var contentHash := GenerateContentHash(payload, stringify, sha256);
        var errorEvent := ErrorEvent("B", payload, receivedTime, validation.errors, idempotencyKey, Some(contentHash));
        assert out == Outcome(sequences.sequences, ErrorPublished(errorEvent), Ok(Rejected));
        orderDeliveries, errorDeliveries := Emit(ErrorPublished(errorEvent));
        reply := Ok(Response(false, "Invalid payload. Error event queued."));
        return;
      }
      var event := AsPartnerBEvent(payload);
      var sequenceNumber := sequences.GetNextSequence("B");
      var contentHash := GenerateContentHash(payload, stringify, sha256);
      var orderEvent := TransformPartnerB(event, "B", sequenceNumber, receivedTime, processedTime, idempotencyKey, Some(contentHash));
      assert out == Outcome(sequences.sequences, OrderPublished(orderEvent), Ok(Accepted));
      orderDeliveries, errorDeliveries := Emit(OrderPublished(orderEvent));
      reply := Ok(Response(true, "Order event queued successfully."));
    }
  }
}
