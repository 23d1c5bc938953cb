/**
 * The in-memory event stream: an append-only queue plus a list of subscribers that
 * `publish` calls synchronously, in subscription order. A subscriber is a callback in
 * the system; here it is named by a tag of type S, and `Publish` returns the calls it
 * makes, in order, for the caller to carry out.
 */
module Streams {

  /** One call of subscriber `subscriber` with `event`. */
  datatype Delivery<S, T> = Delivery(subscriber: S, event: T)

  /** What a stream is asked to do, in order. */
  datatype StreamOp<S, T> = Publish(event: T) | Subscribe(subscriber: S) | Clear

  /** The subscribers registered by a history of operations, in subscription order. */
  function Subscribers<S, T>(ops: seq<StreamOp<S, T>>): seq<S>
  {
    if ops == [] then []
    else
      var last := ops[|ops| - 1];
      Subscribers(ops[..|ops| - 1]) + (if last.Subscribe? then [last.subscriber] else [])
  }

  /** How many times `s` occurs in `subs`: how many calls one publish makes to it. */
  ghost function Occurrences<S>(subs: seq<S>, s: S): nat
  {
    if subs == [] then 0
    else Occurrences(subs[..|subs| - 1], s) + (if subs[|subs| - 1] == s then 1 else 0)
  }

  /** `event` repeated `n` times. */
  function Repeat<T>(event: T, n: nat): (r: seq<T>)
    ensures |r| == n && forall i :: 0 <= i < n ==> r[i] == event
  {
    if n == 0 then [] else Repeat(event, n - 1) + [event]
  }

  /** The events subscriber `s` has been called with over a history, in order. */
  ghost function EventsTo<S, T>(ops: seq<StreamOp<S, T>>, s: S): seq<T>
  {
    if ops == [] then []
    else
      var before := ops[..|ops| - 1];
      var last := ops[|ops| - 1];
      EventsTo(before, s) + (if last.Publish? then Repeat(last.event, Occurrences(Subscribers(before), s)) else [])
  }

  /** The events published by a history, in order. */
  function Published<S, T>(ops: seq<StreamOp<S, T>>): seq<T>
  {
    if ops == [] then []
    else
      var last := ops[|ops| - 1];
      Published(ops[..|ops| - 1]) + (if last.Publish? then [last.event] else [])
  }

  /** The queue a history leaves: everything published since the last clear. */
  function QueueOf<S, T>(ops: seq<StreamOp<S, T>>): seq<T>
  {
    if ops == [] then []
    else
      var last := ops[|ops| - 1];
      match last
      case Publish(e) => QueueOf(ops[..|ops| - 1]) + [e]
      case Subscribe(_) => QueueOf(ops[..|ops| - 1])
      case Clear => []
  }

  ghost predicate NoSubscribeOf<S, T>(ops: seq<StreamOp<S, T>>, s: S)
  {
    forall i :: 0 <= i < |ops| ==> ops[i] != Subscribe(s)
  }

  lemma {:induction false} SubscribersOfAppend<S, T>(a: seq<StreamOp<S, T>>, b: seq<StreamOp<S, T>>)
    ensures Subscribers(a + b) == Subscribers(a) + Subscribers(b)
    decreases |b|
  {
    if b == [] {
      assert a + b == a;
    } else {
      var b' := b[..|b| - 1];
      assert (a + b)[..|a + b| - 1] == a + b';
      SubscribersOfAppend(a, b');
      assert Subscribers(b) == Subscribers(b') + (if b[|b| - 1].Subscribe? then [b[|b| - 1].subscriber] else []);
    }
  }

  lemma {:induction false} OccurrencesOfAppend<S>(a: seq<S>, b: seq<S>, s: S)
    ensures Occurrences(a + b, s) == Occurrences(a, s) + Occurrences(b, s)
    decreases |b|
  {
    if b == [] {
      assert a + b == a;
    } else {
      assert (a + b)[..|a + b| - 1] == a + b[..|b| - 1];
      OccurrencesOfAppend(a, b[..|b| - 1], s);
    }
  }

  lemma {:induction false} NoSubscribeNoOccurrence<S, T>(ops: seq<StreamOp<S, T>>, s: S)
    requires NoSubscribeOf(ops, s)
    ensures Occurrences(Subscribers(ops), s) == 0
    decreases |ops|
  {
    if ops != [] {
      var before := ops[..|ops| - 1];
      var last := ops[|ops| - 1];
      assert NoSubscribeOf(before, s) by {
        forall i | 0 <= i < |before| ensures before[i] != Subscribe(s) {
          assert before[i] == ops[i];
        }
      }
      NoSubscribeNoOccurrence(before, s);
      var added: seq<S> := if last.Subscribe? then [last.subscriber] else [];
      OccurrencesOfAppend(Subscribers(before), added, s);
      if last.Subscribe? {
        assert added[..0] == [];
      }
    }
  }

  /** A subscriber that never subscribed is never called. */
  lemma {:induction false} NeverSubscribedNeverCalled<S, T>(ops: seq<StreamOp<S, T>>, s: S)
    requires NoSubscribeOf(ops, s)
    ensures EventsTo(ops, s) == []
    decreases |ops|
  {
    if ops != [] {
      var before := ops[..|ops| - 1];
      assert NoSubscribeOf(before, s) by {
        forall i | 0 <= i < |before| ensures before[i] != Subscribe(s) {
          assert before[i] == ops[i];
        }
      }
      NeverSubscribedNeverCalled(before, s);
      NoSubscribeNoOccurrence(before, s);
    }
  }

  /**
   * A subscriber registered once is called exactly once with each event published
   * after it subscribed, in publication order, and never with an earlier event:
   * there is no replay.
   */
  lemma {:induction false} SubscriberSeesLaterEvents<S, T>(before: seq<StreamOp<S, T>>, s: S, after: seq<StreamOp<S, T>>)
    requires NoSubscribeOf(before, s) && NoSubscribeOf(after, s)
    ensures EventsTo(before + [Subscribe(s)] + after, s) == Published(after)
    decreases |after|
  {
    var head := before + [Subscribe(s)];
    if after == [] {
      assert head + after == head;
      assert head[..|head| - 1] == before;
      NeverSubscribedNeverCalled(before, s);
    } else {
      var after' := after[..|after| - 1];
      var last := after[|after| - 1];
      assert NoSubscribeOf(after', s) by {
        forall i | 0 <= i < |after'| ensures after'[i] != Subscribe(s) {
          assert after'[i] == after[i];
        }
      }
      SubscriberSeesLaterEvents(before, s, after');
      assert (head + after)[..|head + after| - 1] == head + after';
      if last.Publish? {
        SubscribersOfAppend(head, after');
        assert head[..|head| - 1] == before;
        assert Subscribers(head) == Subscribers(before) + [s];
        NoSubscribeNoOccurrence(before, s);
        NoSubscribeNoOccurrence(after', s);
        OccurrencesOfAppend(Subscribers(before) + [s], Subscribers(after'), s);
        OccurrencesOfAppend(Subscribers(before), [s], s);
        assert [s][..0] == [];
        assert Occurrences(Subscribers(head + after'), s) == 1;
        assert Repeat(last.event, 1) == [last.event];
      }
    }
  }

  /** The calls one publish makes: each subscriber once, with the event, in subscription order. */
  function Deliveries<S, T>(subscribers: seq<S>, event: T): (ds: seq<Delivery<S, T>>)
    ensures |ds| == |subscribers|
    ensures forall i :: 0 <= i < |ds| ==> ds[i] == Delivery(subscribers[i], event)
  {
    seq(|subscribers|, i requires 0 <= i < |subscribers| => Delivery(subscribers[i], event))
  }

  /** The events of the calls addressed to `s`, in order. */
  ghost function AddressedTo<S, T>(ds: seq<Delivery<S, T>>, s: S): seq<T>
  {
    if ds == [] then []
    else AddressedTo(ds[..|ds| - 1], s) + (if ds[|ds| - 1].subscriber == s then [ds[|ds| - 1].event] else [])
  }

  /** One publish calls `s` with the event once per time `s` subscribed, and with nothing else. */
  lemma {:induction false} DeliveriesAddressedTo<S, T>(subscribers: seq<S>, event: T, s: S)
    ensures AddressedTo(Deliveries(subscribers, event), s) == Repeat(event, Occurrences(subscribers, s))
    decreases |subscribers|
  {
    if subscribers != [] {
      var ds := Deliveries(subscribers, event);
      assert ds[..|ds| - 1] == Deliveries(subscribers[..|subscribers| - 1], event);
      DeliveriesAddressedTo(subscribers[..|subscribers| - 1], event, s);
    }
  }

  /**
   * The calls a publish makes are exactly what the history adds to each subscriber's
   * events: EventsTo, and so SubscriberSeesLaterEvents, speaks of those calls.
   */
  lemma {:induction false} PublishAddsDeliveredEvents<S, T>(ops: seq<StreamOp<S, T>>, event: T, s: S)
    ensures EventsTo(ops + [Publish(event)], s) == EventsTo(ops, s) + AddressedTo(Deliveries(Subscribers(ops), event), s)
  {
    assert (ops + [Publish(event)])[..|ops|] == ops;
    DeliveriesAddressedTo(Subscribers(ops), event, s);
  }

  /** Stream<T>: the queue and the subscriber list, updated in place; `history` records the calls made. */
  class Stream<S, T> {
    var queue: seq<T>
    var subscribers: seq<S>
    ghost var history: seq<StreamOp<S, T>>

    ghost predicate Valid()
      reads this
    {
      subscribers == Subscribers(history) && queue == QueueOf(history)
    }

    constructor()
      ensures Valid() && history == [] && queue == [] && subscribers == []
    {
      queue := [];
      subscribers := [];
      history := [];
    }

    /** publish: append to the queue, then call every subscriber once, in subscription order. */
    method Publish(event: T) returns (deliveries: seq<Delivery<S, T>>)
      requires Valid()
      modifies this
      ensures Valid() && history == old(history) + [StreamOp.Publish(event)]
      ensures queue == old(queue) + [event] && subscribers == old(subscribers)
      ensures deliveries == Deliveries(subscribers, event)
      ensures forall s :: EventsTo(history, s) == EventsTo(old(history), s) + AddressedTo(deliveries, s)
    {
      queue := queue + [event];
      history := history + [StreamOp.Publish(event)];
      assert history[..|history| - 1] == old(history);
      deliveries := [];
      var i := 0;
      while i < |subscribers|
        invariant 0 <= i <= |subscribers|
        invariant |deliveries| == i
        invariant forall j :: 0 <= j < i ==> deliveries[j] == Delivery(subscribers[j], event)
      {
        deliveries := deliveries + [Delivery(subscribers[i], event)];
        i := i + 1;
      }
      assert deliveries == Deliveries(subscribers, event);
      forall s ensures EventsTo(history, s) == EventsTo(old(history), s) + AddressedTo(deliveries, s) {
        PublishAddsDeliveredEvents(old(history), event, s);
      }
    }

    /** subscribe: the callback joins the end of the list; nothing already published is replayed. */
    method Subscribe(subscriber: S)
      requires Valid()
      modifies this
      ensures Valid() && history == old(history) + [StreamOp.Subscribe(subscriber)]
      ensures subscribers == old(subscribers) + [subscriber] && queue == old(queue)
    {
      subscribers := subscribers + [subscriber];
      history := history + [StreamOp.Subscribe(subscriber)];
      assert history[..|history| - 1] == old(history);
    }

    /** getQueue: a copy of the queue; nothing changes. */
    method GetQueue() returns (copy: seq<T>)
      ensures copy == queue
    {
      copy := queue;
    }

    /** clear: the queue empties; the subscribers stay. */
    method Clear()
      requires Valid()
      modifies this
      ensures Valid() && history == old(history) + [StreamOp.Clear]
      ensures queue == [] && subscribers == old(subscribers)
    {
      queue := [];
      history := history + [StreamOp.Clear];
      assert history[..|history| - 1] == old(history);
    }
  }
}
