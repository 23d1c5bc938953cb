/**
 * The order and error processors: each hands its record to the store once, copies
 * the store's verdict, and labels the result with the deduplication method the
 * record's own fields suggest.
 */
module Processors {
  import opened Wrappers
  import opened Types
  import opened Dedup
  import opened Store

  /** `{ saved, duplicate, existing?, idempotencyMethod }`. */
  datatype ProcessResult<R> = ProcessResult(saved: bool, duplicate: bool, existing: Option<R>, idempotencyMethod: string)

  /** The label processOrder reports: the idempotency key if truthy, else the content hash if truthy, else the sequence number. */
  function OrderMethod(o: OrderEvent): (m: string)
    ensures m == "idempotency-key" <==> Present(o.idempotencyKey)
    ensures m == "content-hash" <==> !Present(o.idempotencyKey) && Present(o.contentHash)
    ensures m == "sequence-number" <==> !Present(o.idempotencyKey) && !Present(o.contentHash)
  {
    if Present(o.idempotencyKey) then "idempotency-key"
    else if Present(o.contentHash) then "content-hash"
    else "sequence-number"
  }

  /** The label processError reports: as for orders, with "payload-hash" last. */
  function ErrorMethod(e: ErrorEvent): (m: string)
    ensures m == "idempotency-key" <==> Present(e.idempotencyKey)
    ensures m == "content-hash" <==> !Present(e.idempotencyKey) && Present(e.contentHash)
    ensures m == "payload-hash" <==> !Present(e.idempotencyKey) && !Present(e.contentHash)
  {
    if Present(e.idempotencyKey) then "idempotency-key"
    else if Present(e.contentHash) then "content-hash"
    else "payload-hash"
  }

  /** The store's verdict with a label attached. */
  function Labelled<R>(r: SaveResult<R>, name: string): ProcessResult<R>
  {
    ProcessResult(r.saved, r.duplicate, r.existing, name)
  }

  /** processOrder on values: the order family after the save, and the labelled verdict. */
  function ProcessOrderSpec(f: Family<OrderEvent>, o: OrderEvent): (out: (Family<OrderEvent>, ProcessResult<OrderEvent>))
    ensures out.1.duplicate <==> Match(f, OrderTokens(o)).Some?
    ensures out.1.saved <==> !out.1.duplicate
    ensures out.1.duplicate ==> out.0 == f && out.1.existing == Some(Match(f, OrderTokens(o)).value.1)
    ensures out.1.saved ==> out.1.existing == None
    ensures out.1.idempotencyMethod == OrderMethod(o)
  {
    var (g, r) := Save(f, OrderTokens(o), o);
    (g, Labelled(r, OrderMethod(o)))
  }

  /** processError on values. */
  function ProcessErrorSpec(f: Family<ErrorEvent>, e: ErrorEvent, render: Renderers): (out: (Family<ErrorEvent>, ProcessResult<ErrorEvent>))
    ensures out.1.duplicate <==> Match(f, ErrorTokens(e, render)).Some?
    ensures out.1.saved <==> !out.1.duplicate
    ensures out.1.duplicate ==> out.0 == f && out.1.existing == Some(Match(f, ErrorTokens(e, render)).value.1)
    ensures out.1.saved ==> out.1.existing == None
    ensures out.1.idempotencyMethod == ErrorMethod(e)
  {
    var (g, r) := Save(f, ErrorTokens(e, render), e);
    (g, Labelled(r, ErrorMethod(e)))
  }

  /**
   * The label names the first truthy token of the incoming order, not the index that
   * matched: an order with a new idempotency key and a known content hash is a
   * duplicate found by its hash, yet reported as "idempotency-key".
   */
  lemma LabelIgnoresMatchedIndex(f: Family<OrderEvent>, o: OrderEvent)
    requires Present(o.idempotencyKey)
    requires Resolve(f.records, f.byKey, o.partnerId, o.idempotencyKey).None?
    requires Resolve(f.records, f.byHash, o.partnerId, o.contentHash).Some?
    ensures Match(f, OrderTokens(o)).value.0 == ByContentHash
    ensures ProcessOrderSpec(f, o).1.duplicate && ProcessOrderSpec(f, o).1.idempotencyMethod == "idempotency-key"
  {
    KnownHashNewKeyIsDuplicate(f, OrderTokens(o), o);
  }

  /** Processing the same order twice: saved once, then reported as a duplicate of itself with the same label. */
  lemma ReprocessedOrderIsDuplicate(f: Family<OrderEvent>, o: OrderEvent)
    requires FamilyValid(f, OrderKey) && Match(f, OrderTokens(o)).None?
    ensures var (g, first) := ProcessOrderSpec(f, o);
            var (h, second) := ProcessOrderSpec(g, o);
            first == ProcessResult(true, false, None, OrderMethod(o))
            && second == ProcessResult(false, true, Some(o), OrderMethod(o))
            && h == g && |g.records| == |f.records| + 1
  {
    SaveTwice(f, OrderTokens(o), o, OrderKey);
  }

  /** Processing the same error twice: saved once, then reported as a duplicate of itself. */
  lemma ReprocessedErrorIsDuplicate(f: Family<ErrorEvent>, e: ErrorEvent, render: Renderers)
    requires FamilyValid(f, ErrorKeyOf(render)) && Match(f, ErrorTokens(e, render)).None?
    ensures var (g, first) := ProcessErrorSpec(f, e, render);
            var (h, second) := ProcessErrorSpec(g, e, render);
            first == ProcessResult(true, false, None, ErrorMethod(e))
            && second == ProcessResult(false, true, Some(e), ErrorMethod(e))
            && h == g && |g.records| == |f.records| + 1
  {
    SaveTwice(f, ErrorTokens(e, render), e, ErrorKeyOf(render));
  }

  /** OrderProcessor: delegates to the store it was built with. */
  class OrderProcessor {
    const storage: Storage

    constructor(storage: Storage)
      ensures this.storage == storage
    {
      this.storage := storage;
    }

    /** processOrder: one saveOrder, its flags and existing order copied, the label from the order's own fields. */
    method ProcessOrder(order: OrderEvent) returns (result: ProcessResult<OrderEvent>)
      requires storage.Valid()
      modifies storage
      ensures storage.Valid()
      ensures (storage.Orders(), result) == ProcessOrderSpec(old(storage.Orders()), order)
      ensures storage.Errors() == old(storage.Errors())
    {
      var saved := storage.SaveOrder(order);
      if saved.duplicate {
        var name := "sequence-number";
        if Present(order.idempotencyKey) {
          name := "idempotency-key";
        } else if Present(order.contentHash) {
          name := "content-hash";
        }
        return ProcessResult(false, true, saved.existing, name);
      }
      var name := if Present(order.idempotencyKey) then "idempotency-key"
                    else if Present(order.contentHash) then "content-hash"
                    else "sequence-number";
      return ProcessResult(true, false, None, name);
    }
  }

  /** ErrorProcessor: delegates to the store it was built with. */
  class ErrorProcessor {
    const storage: Storage

    constructor(storage: Storage)
      ensures this.storage == storage
    {
      this.storage := storage;
    }

    /** processError: one saveError, its flags and existing error copied, the label from the error's own fields. */
    method ProcessError(error: ErrorEvent) returns (result: ProcessResult<ErrorEvent>)
      requires storage.Valid()
      modifies storage
      ensures storage.Valid()
      ensures (storage.Errors(), result) == ProcessErrorSpec(old(storage.Errors()), error, storage.render)
      ensures storage.Orders() == old(storage.Orders())
    {
      var saved := storage.SaveError(error);
      if saved.duplicate {
        var name := "payload-hash";
        if Present(error.idempotencyKey) {
          name := "idempotency-key";
        } else if Present(error.contentHash) {
          name := "content-hash";
        }
        return ProcessResult(false, true, saved.existing, name);
      }
      var name := if Present(error.idempotencyKey) then "idempotency-key"
                    else if Present(error.contentHash) then "content-hash"
                    else "payload-hash";
      return ProcessResult(true, false, None, name);
    }
  }
}
