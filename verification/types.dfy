/**
 * The record shapes that flow through the pipeline: the two partner payloads once
 * validated, the canonical order, the error event and the monthly summary.
 * Instants are integer milliseconds since the epoch; amounts are exact reals.
 */
module Types {
  import opened Wrappers
  import opened Json

  /** An optional string that JavaScript treats as truthy: present and not "". */
  predicate Present(s: Option<string>)
  {
    s.Some? && s.value != ""
  }

  /** Partner A's payload once it has passed validation. */
  datatype PartnerAEvent = PartnerAEvent(skuId: string, transactionTimeMs: int, amount: real)

  /** Partner B's payload once it has passed validation; `discount` is `None` when absent or null. */
  datatype PartnerBEvent = PartnerBEvent(itemCode: string, purchaseTime: string, total: real, discount: Option<real>)

  /** The canonical order every partner payload is transformed into. */
  datatype OrderEvent = OrderEvent(
    productCode: string,
    eventTime: int,
    grossAmount: real,
    discount: real,
    netAmount: real,
    partnerId: string,
    sequenceNumber: int,
    receivedTime: int,
    streamOffset: int,
    processedTime: int,
    idempotencyKey: Option<string>,
    contentHash: Option<string>)

  /** A payload that failed validation, kept with the reasons it failed. */
  datatype ErrorEvent = ErrorEvent(
    partnerId: string,
    rawPayload: Json,
    receivedTime: int,
    validationErrors: seq<string>,
    idempotencyKey: Option<string>,
    contentHash: Option<string>)

  datatype MonthlySummary = MonthlySummary(totalGross: real, totalDiscount: real, totalNet: real, orderCount: nat)
}
