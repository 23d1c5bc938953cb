/**
 * The wiring of the ingestion pipeline at start-up: one store, the two processors
 * over it, the sequence counter, the two streams, and the feed handler that
 * publishes on them. The error processor subscribes to the error stream and the
 * order processor to the order stream, so every event a handler publishes is
 * processed exactly once, by the processor for its kind.
 */
module Pipeline {
  import opened Wrappers
  import opened Json
  import opened Calendar
  import opened Types
  import opened Validation
  import opened Dedup
  import opened Store
  import opened Processors
  import opened Sequences
  import opened Streams
  import opened Feed

  /** processOrder applied to each order in turn: the order family afterwards and each call's result. */
  function ProcessOrders(f: Family<OrderEvent>, orders: seq<OrderEvent>): (out: (Family<OrderEvent>, seq<ProcessResult<OrderEvent>>))
    ensures |out.1| == |orders|
  {
    if orders == [] then (f, [])
    else
      var (g, results) := ProcessOrders(f, orders[..|orders| - 1]);
      var (h, result) := ProcessOrderSpec(g, orders[|orders| - 1]);
      (h, results + [result])
  }

  /** processError applied to each error event in turn. */
  function ProcessErrors(f: Family<ErrorEvent>, errors: seq<ErrorEvent>, render: Renderers)
    : (out: (Family<ErrorEvent>, seq<ProcessResult<ErrorEvent>>))
    ensures |out.1| == |errors|
  {
    if errors == [] then (f, [])
    else
      var (g, results) := ProcessErrors(f, errors[..|errors| - 1], render);
      var (h, result) := ProcessErrorSpec(g, errors[|errors| - 1], render);
      (h, results + [result])
  }

  /** The i-th result is what processOrder returns for the i-th order, on the store the earlier orders left. */
  lemma {:induction false} ProcessOrdersInTurn(f: Family<OrderEvent>, orders: seq<OrderEvent>, i: nat)
    requires i < |orders|
    ensures ProcessOrders(f, orders).1[i] == ProcessOrderSpec(ProcessOrders(f, orders[..i]).0, orders[i]).1
    decreases |orders|
  {
    var init := orders[..|orders| - 1];
    if i < |orders| - 1 {
      ProcessOrdersInTurn(f, init, i);
      assert init[..i] == orders[..i];
    } else {
      assert orders[..i] == init;
    }
  }

  /** The i-th result is what processError returns for the i-th error event, on the store the earlier ones left. */
  lemma {:induction false} ProcessErrorsInTurn(f: Family<ErrorEvent>, errors: seq<ErrorEvent>, render: Renderers, i: nat)
    requires i < |errors|
    ensures ProcessErrors(f, errors, render).1[i] == ProcessErrorSpec(ProcessErrors(f, errors[..i], render).0, errors[i], render).1
    decreases |errors|
  {
    var init := errors[..|errors| - 1];
    if i < |errors| - 1 {
      ProcessErrorsInTurn(f, init, render, i);
      assert init[..i] == errors[..i];
    } else {
      assert errors[..i] == init;
    }
  }

  /** The events a list of subscriber calls carries, in order. */
  function EventsOf<T>(ds: seq<Delivery<Consumer, T>>): (es: seq<T>)
    ensures |es| == |ds| && forall i :: 0 <= i < |ds| ==> es[i] == ds[i].event
  {
    seq(|ds|, i requires 0 <= i < |ds| => ds[i].event)
  }

  /** With one subscriber, a publication makes one call per event, to that subscriber, with that event. */
  lemma SingleSubscriberFanout<T>(c: Consumer, events: seq<T>)
    requires |events| <= 1
    ensures EventsOf(Fanout([c], events)) == events
    ensures forall i :: 0 <= i < |Fanout([c], events)| ==> Fanout([c], events)[i].subscriber == c
  {
    if events != [] {
      assert Fanout([c], events) == [Delivery(c, events[0])];
    }
  }

  /** Processing one order leaves it findable: it was saved, or the store already held a record it duplicates. */
  lemma ProcessedOrderIsFound(f: Family<OrderEvent>, o: OrderEvent)
    ensures var (g, results) := ProcessOrders(f, [o]);
            |results| == 1 && Match(g, OrderTokens(o)).Some?
            && (results[0].saved ==> g.records[OrderKey(o)] == o)
            && (results[0].duplicate ==> g == f)
  {
    assert [o][..0] == [];
    SaveThenFound(f, OrderTokens(o), o);
  }

  /** Processing one error event leaves it findable in the same way. */
  lemma ProcessedErrorIsFound(f: Family<ErrorEvent>, e: ErrorEvent, render: Renderers)
    ensures var (g, results) := ProcessErrors(f, [e], render);
            |results| == 1 && Match(g, ErrorTokens(e, render)).Some?
            && (results[0].saved ==> g.records[ErrorKey(e, render)] == e)
            && (results[0].duplicate ==> g == f)
  {
    assert [e][..0] == [];
    SaveThenFound(f, ErrorTokens(e, render), e);
  }

  /**
   * End to end for Partner B: a valid payload becomes one order, which the order
   * processor handles once and which is then findable in the store; the error
   * family is untouched. An invalid payload reaches only the error family.
   */
  lemma IngestedPartnerBOrderIsFound(sequences: map<string, int>, payload: Json, idempotencyKey: Option<string>,
                                     receivedTime: int, processedTime: int, sha256: string -> string,
                                     orders: Family<OrderEvent>, errors: Family<ErrorEvent>, render: Renderers)
    ensures var out := HandleB(sequences, payload, idempotencyKey, receivedTime, processedTime, render.stringify, sha256);
            var (g, orderResults) := ProcessOrders(orders, OrdersOf(out.published));
            var (h, errorResults) := ProcessErrors(errors, ErrorsOf(out.published), render);
            (WellFormedB(payload) ==>
               |orderResults| == 1 && errorResults == [] && h == errors
               && Match(g, OrderTokens(out.published.order)).Some?)
            && (!WellFormedB(payload) ==>
                  orderResults == [] && g == orders && |errorResults| == 1
                  && Match(h, ErrorTokens(out.published.error, render)).Some?)
  {
    var out := HandleB(sequences, payload, idempotencyKey, receivedTime, processedTime, render.stringify, sha256);
    if WellFormedB(payload) {
      ProcessedOrderIsFound(orders, out.published.order);
    } else {
      ProcessedErrorIsFound(errors, out.published.error, render);
    }
  }

  /** The running system: the singletons of the services, wired as at start-up. */
  class Pipeline {
    const storage: Storage
    const orderProcessor: OrderProcessor
    const errorProcessor: ErrorProcessor
    const sequences: SequenceManager
    const validOrders: Stream<Consumer, OrderEvent>
    const errorOrders: Stream<Consumer, ErrorEvent>
    const feed: FeedHandler

    /** The wiring: both processors share the store, the handler drives the two streams, each stream has its one subscriber. */
    ghost predicate Valid()
      reads this, storage, orderProcessor, errorProcessor, feed, validOrders, errorOrders
    {
      && orderProcessor.storage == storage && errorProcessor.storage == storage
      && feed.sequences == sequences && feed.validOrders == validOrders && feed.errorOrders == errorOrders
      && feed.stringify == storage.render.stringify
      && storage.Valid() && feed.Valid()
      && validOrders.subscribers == [OrderConsumer] && errorOrders.subscribers == [ErrorConsumer]
    }

    /**
     * Start-up: the services are created empty, then the error processor subscribes
     * to errorOrders and the order processor to validOrders. The store renders
     * receivedTime with toISOString, as the feed handler stamps it.
     */
    constructor(stringify: Json -> string, sha256: string -> string)
      ensures Valid()
      ensures storage.render == Renderers(stringify, ToIsoString) && feed.sha256 == sha256
      ensures storage.Orders() == EmptyFamily() && storage.Errors() == EmptyFamily()
      ensures sequences.sequences == map[] && validOrders.queue == [] && errorOrders.queue == []
    {
      var store := new Storage(Renderers(stringify, ToIsoString));
      var counters := new SequenceManager();
      var valid := new Stream<Consumer, OrderEvent>();
      var rejected := new Stream<Consumer, ErrorEvent>();
      storage := store;
      orderProcessor := new OrderProcessor(store);
      errorProcessor := new ErrorProcessor(store);
      sequences := counters;
      validOrders := valid;
      errorOrders := rejected;
      feed := new FeedHandler(counters, valid, rejected, stringify, sha256);
      new;
      errorOrders.Subscribe(ErrorConsumer);
      validOrders.Subscribe(OrderConsumer);
    }

    /** The order stream's subscriber, called once per delivery, in order. */
    method DeliverOrders(ds: seq<Delivery<Consumer, OrderEvent>>) returns (results: seq<ProcessResult<OrderEvent>>)
      requires Valid()
      requires forall i :: 0 <= i < |ds| ==> ds[i].subscriber == OrderConsumer
      modifies storage
      ensures Valid()
      ensures (storage.Orders(), results) == ProcessOrders(old(storage.Orders()), EventsOf(ds))
      ensures storage.Errors() == old(storage.Errors())
    {
      results := [];
      for i := 0 to |ds|
        invariant storage.Valid()
        invariant (storage.Orders(), results) == ProcessOrders(old(storage.Orders()), EventsOf(ds)[..i])
        invariant storage.Errors() == old(storage.Errors())
      {
        assert EventsOf(ds)[..i + 1][..i] == EventsOf(ds)[..i];
        var result := orderProcessor.ProcessOrder(ds[i].event);
        results := results + [result];
      }
      assert EventsOf(ds)[..|ds|] == EventsOf(ds);
    }

    /** The error stream's subscriber, called once per delivery, in order. */
    method DeliverErrors(ds: seq<Delivery<Consumer, ErrorEvent>>) returns (results: seq<ProcessResult<ErrorEvent>>)
      requires Valid()
      requires forall i :: 0 <= i < |ds| ==> ds[i].subscriber == ErrorConsumer
      modifies storage
      ensures Valid()
      ensures (storage.Errors(), results) == ProcessErrors(old(storage.Errors()), EventsOf(ds), storage.render)
      ensures storage.Orders() == old(storage.Orders())
    {
      results := [];
      for i := 0 to |ds|
        invariant storage.Valid()
        invariant (storage.Errors(), results) == ProcessErrors(old(storage.Errors()), EventsOf(ds)[..i], storage.render)
        invariant storage.Orders() == old(storage.Orders())
      {
        assert EventsOf(ds)[..i + 1][..i] == EventsOf(ds)[..i];
        var result := errorProcessor.ProcessError(ds[i].event);
        results := results + [result];
      }
      assert EventsOf(ds)[..|ds|] == EventsOf(ds);
    }

    /** One Partner A request: the handler runs, and each event it publishes is processed by its stream's subscriber. */
    method IngestPartnerA(payload: Json, idempotencyKey: Option<string>, receivedTime: int, processedTime: int)
      returns (reply: Result<Response, string>, orderResults: seq<ProcessResult<OrderEvent>>,
               errorResults: seq<ProcessResult<ErrorEvent>>)
      requires Valid()
      modifies storage, sequences, validOrders, errorOrders
      ensures Valid()
      ensures var out := HandleA(old(sequences.sequences), payload, idempotencyKey, receivedTime, processedTime,
                                 storage.render.stringify, feed.sha256);
              reply == out.reply && sequences.sequences == out.sequences
              && validOrders.queue == old(validOrders.queue) + OrdersOf(out.published)
              && errorOrders.queue == old(errorOrders.queue) + ErrorsOf(out.published)
              && (storage.Orders(), orderResults) == ProcessOrders(old(storage.Orders()), OrdersOf(out.published))
              && (storage.Errors(), errorResults) == ProcessErrors(old(storage.Errors()), ErrorsOf(out.published), storage.render)
    {
      ghost var out := HandleA(sequences.sequences, payload, idempotencyKey, receivedTime, processedTime,
                               storage.render.stringify, feed.sha256);
      var orderDeliveries, errorDeliveries;
      reply, orderDeliveries, errorDeliveries := feed.HandlePartnerA(payload, idempotencyKey, receivedTime, processedTime);
      SingleSubscriberFanout(OrderConsumer, OrdersOf(out.published));
      SingleSubscriberFanout(ErrorConsumer, ErrorsOf(out.published));
      orderResults := DeliverOrders(orderDeliveries);
      errorResults := DeliverErrors(errorDeliveries);
    }

    /** One Partner B request, as for Partner A. */
    method IngestPartnerB(payload: Json, idempotencyKey: Option<string>, receivedTime: int, processedTime: int)
      returns (reply: Result<Response, string>, orderResults: seq<ProcessResult<OrderEvent>>,
               errorResults: seq<ProcessResult<ErrorEvent>>)
      requires Valid()
      modifies storage, sequences, validOrders, errorOrders
      ensures Valid()
      ensures var out := HandleB(old(sequences.sequences), payload, idempotencyKey, receivedTime, processedTime,
                                 storage.render.stringify, feed.sha256);
              reply == out.reply && sequences.sequences == out.sequences
              && validOrders.queue == old(validOrders.queue) + OrdersOf(out.published)
              && errorOrders.queue == old(errorOrders.queue) + ErrorsOf(out.published)
              && (storage.Orders(), orderResults) == ProcessOrders(old(storage.Orders()), OrdersOf(out.published))
              && (storage.Errors(), errorResults) == ProcessErrors(old(storage.Errors()), ErrorsOf(out.published), storage.render)
    {
      ghost var out := HandleB(sequences.sequences, payload, idempotencyKey, receivedTime, processedTime,
                               storage.render.stringify, feed.sha256);
      var orderDeliveries, errorDeliveries;
      reply, orderDeliveries, errorDeliveries := feed.HandlePartnerB(payload, idempotencyKey, receivedTime, processedTime);
      SingleSubscriberFanout(OrderConsumer, OrdersOf(out.published));
      SingleSubscriberFanout(ErrorConsumer, ErrorsOf(out.published));
      orderResults := DeliverOrders(orderDeliveries);
      errorResults := DeliverErrors(errorDeliveries);
    }
  }
}
