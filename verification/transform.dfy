/**
 * The transformers: each validated partner payload becomes the canonical order.
 * The clock read for processedTime is a parameter.
 */
module Transform {
  import opened Wrappers
  import opened Text
  import opened Calendar
  import opened Types
  import opened Validation

  /** The fields every transformer copies from its arguments rather than from the payload. */
  predicate Envelope(o: OrderEvent, partnerId: string, sequenceNumber: int, receivedTime: int,
                     processedTime: int, idempotencyKey: Option<string>, contentHash: Option<string>)
  {
    o.partnerId == partnerId && o.sequenceNumber == sequenceNumber && o.receivedTime == receivedTime
    && o.processedTime == processedTime && o.idempotencyKey == idempotencyKey && o.contentHash == contentHash
    && o.streamOffset == 0
  }

  /** The net amount is what remains of the gross after the discount. */
  predicate Balanced(o: OrderEvent)
  {
    o.netAmount == o.grossAmount - o.discount
  }

  /**
   * transformPartnerA. `new Date(ms).toISOString()` throws a RangeError for a time
   * value beyond the representable range, which the validator does not exclude.
   */
  function TransformPartnerA(e: PartnerAEvent, partnerId: string, sequenceNumber: int, receivedTime: int,
                             processedTime: int, idempotencyKey: Option<string>, contentHash: Option<string>)
    : (r: Result<OrderEvent, string>)
    ensures r.Ok? <==> -MaxTime <= e.transactionTimeMs <= MaxTime
    ensures r.Err? ==> r.error == "Invalid time value"
    ensures r.Ok? ==> Envelope(r.value, partnerId, sequenceNumber, receivedTime, processedTime, idempotencyKey, contentHash)
    ensures r.Ok? ==> Balanced(r.value) && r.value.discount == 0.0 && r.value.netAmount == e.amount
    ensures r.Ok? ==> r.value.productCode == e.skuId && r.value.eventTime == e.transactionTimeMs
  {
    match TimeClip(e.transactionTimeMs)
    case None => Err("Invalid time value")
    case Some(eventTime) =>
      var grossAmount := e.amount;
      var discount := 0.0;
      Ok(OrderEvent(e.skuId, eventTime, grossAmount, discount, grossAmount - discount, partnerId, sequenceNumber,
                    receivedTime, 0, processedTime, idempotencyKey, contentHash))
  }

  // ---------------------------------------------------------------------------
  // Partner B's purchaseTime: split into numbers and passed to Date.UTC

  /** The numbers `split` and `map(Number)` extract from a timestamp. */
  datatype Stamp = Stamp(year: nat, month: nat, day: nat, hour: nat, minute: nat, second: nat)

  /** `Number` of the four digits s[0..4] of a timestamp. */
  function YearField(s: string): (v: nat)
    requires MatchesTimestamp(s)
    ensures v < 10000
  {
    assert TimestampSlot(s, 0) && TimestampSlot(s, 1) && TimestampSlot(s, 2) && TimestampSlot(s, 3);
    1000 * DigitValue(s[0]) + 100 * DigitValue(s[1]) + 10 * DigitValue(s[2]) + DigitValue(s[3])
  }

  /** `Number` of the two digits s[i..i + 2] of a timestamp. */
  function TwoDigitField(s: string, i: nat): (v: nat)
    requires MatchesTimestamp(s) && i in {5, 8, 11, 14, 17}
    ensures v < 100
  {
    assert TimestampSlot(s, i) && TimestampSlot(s, i + 1);
    10 * DigitValue(s[i]) + DigitValue(s[i + 1])
  }

  function ParseStamp(s: string): (t: Stamp)
    requires MatchesTimestamp(s)
    ensures Bounded(t)
  {
    Stamp(YearField(s), TwoDigitField(s, 5), TwoDigitField(s, 8),
          TwoDigitField(s, 11), TwoDigitField(s, 14), TwoDigitField(s, 17))
  }

  /** Day numbers of the first of a month over a wide span of years stay small. */
  lemma FirstOfMonthBound(y: int, m: int)
    requires -10 <= y <= 20000 && 1 <= m <= 12
    ensures -1_000_000 <= DaysFromCivil(y, m, 1) <= 10_000_000
  {
    var y' := if m <= 2 then y - 1 else y;
    assert -1 <= y' / 400 <= 50;
    assert 0 <= y' % 400 < 400;
  }

  /** The field widths of the format bound every number. */
  predicate Bounded(t: Stamp)
  {
    t.year < 10000 && t.month < 100 && t.day < 100 && t.hour < 100 && t.minute < 100 && t.second < 100
  }

  /** Every combination of field values gives a valid instant: `Date.UTC` never yields NaN here. */
  lemma StampInRange(t: Stamp)
    requires Bounded(t)
    ensures DateUtc(t.year, t.month - 1, t.day, t.hour, t.minute, t.second, 0).Some?
  {
    var yr := FullYear(t.year);
    var month := t.month - 1;
    FirstOfMonthBound(yr + month / 12, month % 12 + 1);
  }

  /** `Date.UTC(year, month - 1, day, hour, minute, second)`. */
  function StampInstant(p: Stamp): (t: int)
    requires Bounded(p)
    ensures -MaxTime <= t <= MaxTime
  {
    StampInRange(p);
    DateUtc(p.year, p.month - 1, p.day, p.hour, p.minute, p.second, 0).value
  }

  /** The instant a purchaseTime names. */
  function PurchaseInstant(s: string): int
    requires MatchesTimestamp(s)
  {
    StampInstant(ParseStamp(s))
  }

  /** `event.discount || 0`. */
  function DiscountOrZero(d: Option<real>): (r: real)
    ensures d.None? ==> r == 0.0
    ensures d.Some? ==> r == d.value
  {
    if d.Some? && d.value != 0.0 then d.value else 0.0
  }

  /** transformPartnerB, for a purchaseTime the validator accepted. */
  function TransformPartnerB(e: PartnerBEvent, partnerId: string, sequenceNumber: int, receivedTime: int,
                             processedTime: int, idempotencyKey: Option<string>, contentHash: Option<string>)
    : (o: OrderEvent)
    requires MatchesTimestamp(e.purchaseTime)
    ensures Envelope(o, partnerId, sequenceNumber, receivedTime, processedTime, idempotencyKey, contentHash)
    ensures Balanced(o) && o.grossAmount == e.total && o.discount == DiscountOrZero(e.discount)
    ensures o.productCode == e.itemCode && o.eventTime == PurchaseInstant(e.purchaseTime)
  {
    var grossAmount := e.total;
    var discount := DiscountOrZero(e.discount);
    OrderEvent(e.itemCode, PurchaseInstant(e.purchaseTime), grossAmount, discount, grossAmount - discount,
               partnerId, sequenceNumber, receivedTime, 0, processedTime, idempotencyKey, contentHash)
  }

  // ---------------------------------------------------------------------------
  // Properties of the transformers

  /** For a real calendar date with a year from 100 on, the instant is the UTC midnight of that day plus the time of day. */
  lemma StampOfCalendarDate(p: Stamp)
    requires Bounded(p) && p.year >= 100 && 1 <= p.month <= 12
    ensures StampInstant(p) == DaysFromCivil(p.year, p.month, p.day) * MsPerDay
                               + ((p.hour * 60 + p.minute) * 60 + p.second) * 1000
  {
    StampInRange(p);
    var dayStart := DaysFromCivil(FullYear(p.year), p.month, p.day) * MsPerDay;
    assert StampInstant(p) == dayStart + p.hour * MsPerHour + p.minute * MsPerMinute + p.second * MsPerSecond by {
      DateUtcValue(p.year, p.month, p.day, p.hour, p.minute, p.second, 0);
    }
    assert FullYear(p.year) == p.year;
  }

  /** `Date.UTC` reads years 0..99 as 1900..1999, so "0024-..." lands in 1924. */
  lemma TwoDigitYearsAreTwentiethCentury(p: Stamp)
    requires Bounded(p) && p.year < 100 && 1 <= p.month <= 12
    ensures StampInstant(p) == DaysFromCivil(1900 + p.year, p.month, p.day) * MsPerDay
                               + ((p.hour * 60 + p.minute) * 60 + p.second) * 1000
  {
    StampInRange(p);
    var dayStart := DaysFromCivil(FullYear(p.year), p.month, p.day) * MsPerDay;
    assert StampInstant(p) == dayStart + p.hour * MsPerHour + p.minute * MsPerMinute + p.second * MsPerSecond by {
      DateUtcValue(p.year, p.month, p.day, p.hour, p.minute, p.second, 0);
    }
    assert FullYear(p.year) == 1900 + p.year;
  }

  /** A day one past the end of the month is the first of the next month. */
  lemma DayRollsOver(p: Stamp)
    requires Bounded(p) && p.year >= 100 && 1 <= p.month < 12
    requires p.day == DaysInMonth(p.year, p.month) + 1
    ensures StampInstant(p) == StampInstant(p.(month := p.month + 1, day := 1))
  {
    var next := p.(month := p.month + 1, day := 1);
    StampOfCalendarDate(p);
    StampOfCalendarDate(next);
    DayAfterMonthEnd(p.year, p.month);
    var lastDay := DaysFromCivil(p.year, p.month, p.day);
    var firstDay := DaysFromCivil(next.year, next.month, next.day);
    assert lastDay == firstDay;
  }

  /** An absent discount and a zero discount give the same order. */
  lemma AbsentDiscountIsZero(e: PartnerBEvent, partnerId: string, sequenceNumber: int, receivedTime: int,
                             processedTime: int, idempotencyKey: Option<string>, contentHash: Option<string>)
    requires MatchesTimestamp(e.purchaseTime)
    ensures TransformPartnerB(e.(discount := None), partnerId, sequenceNumber, receivedTime, processedTime, idempotencyKey, contentHash)
         == TransformPartnerB(e.(discount := Some(0.0)), partnerId, sequenceNumber, receivedTime, processedTime, idempotencyKey, contentHash)
  {
  }
}
