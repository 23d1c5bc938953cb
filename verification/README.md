# Order ingestion pipeline, modelled in Dafny

This project models the ingestion core of an order-feed backend. Two partners, A and B, post order payloads in their own formats. For each payload the system does the following:

- it validates the payload field by field;
- it computes a content hash of the payload;
- it draws a per-partner sequence number;
- it transforms the payload into a canonical order;
- it publishes the order on an in-memory stream of valid orders. A payload that fails validation is published on a stream of error events instead.

At start-up the order processor subscribes to the order stream and the error processor to the error stream. Both hand their record to an in-memory store. The store deduplicates by three strategies, in order: a client idempotency key, then the content hash, then a primary key. It also answers filter-and-sort queries and a monthly summary.

One Dafny module per source file:

| module | file | source |
|---|---|---|
| `Validation` | `validation.dfy` | `backend/src/utils/validation.ts` |
| `Transform` | `transform.dfy` | `backend/src/utils/transform.ts` |
| `Sequences` | `sequence_manager.dfy` | `backend/src/services/sequenceManager.ts` |
| `Idempotency` | `idempotency.dfy` | `backend/src/utils/idempotency.ts` |
| `Streams` | `streams.dfy` | `backend/src/services/streams.ts` |
| `Feed` | `feed_handler.dfy` | `backend/src/services/feedHandler.ts` |
| `Processors` | `processors.dfy` | `backend/src/services/orderProcessor.ts` and `errorProcessor.ts` |
| `Store` | `storage.dfy` | `backend/src/services/storage.ts` |
| `Dedup` | `dedup.dfy` | `backend/src/services/storage.ts` |
| `Partners` | `partners.dfy` | `backend/src/services/partnerService.ts` |
| `Pipeline` | `pipeline.dfy` | `backend/src/index.ts:24-29` |

Notes on some of these modules:

- `Store` and `Dedup` both come from `storage.ts`. `Dedup` holds the value-level insert that is shared by orders and errors.
- `Pipeline` covers the subscriptions made at start-up. It closes the loop from a raw payload to a stored record.

Supporting modules:

- `Json`: the untyped payload, with JavaScript truthiness and `trim`.
- `Calendar`: `Date.UTC`, `TimeClip` and `toISOString` on integer milliseconds.
- `Text`: decimal rendering and `substring`.
- `Types`: the record shapes of `backend/src/types/index.ts`.
- `Wrappers`: `Option` and `Result`.

The model takes the form of the source:

- **Classes.** Each stateful service is a class whose fields the methods update in place: `Storage` with its six maps, `SequenceManager`, `Stream`, `FeedHandler`, `OrderProcessor`, `ErrorProcessor` and the wiring `Pipeline`.
- **Functions.** Pure code is functions: the validators' rules, the transformers and the partner registry.
- **Proofs.** Each method is proved against a function on values, for example `Dedup.Save`, `Feed.HandleA` and `Sequences.Draw`. The source's promises are proved as lemmas about that function.

In these places the model follows the code as written, including where a test expects otherwise:

- **Empty product code.** An empty `skuId` or `itemCode` is falsy, so it gets "... is required" (`validation.ts:18-19`). A test at `backend/src/utils/__tests__/validation.test.ts:34` expects "... must be a non-empty string".
- **Stream offsets and retention.** Streams never assign offsets: the `streamOffset` field (`types/index.ts:26`) is always set to 0 (`transform.ts:28,64`). The queue keeps every published event and is never trimmed (`streams.ts:12`); only `clear` empties it.
- **Missing dispatcher.** The feed tests and the route call `feedHandler.handlePartner(...)`, which `feedHandler.ts` does not define. The model has `handlePartnerA` and `handlePartnerB` only.
- **Partner A transform can throw.** `transformPartnerA` can throw: `new Date(ms).toISOString()` raises a RangeError for `transactionTimeMs` beyond 8.64e15, which the validator lets through. The model returns an `Err` result. The sequence number has already been drawn, and nothing is published.

## Model

| member | source | states |
|---|---|---|
| Validation.RequiredText | backend/src/utils/validation.ts:17-22 | skuId/itemCode rule: no message exactly when the value is a string that is not all whitespace; a value "" gets "X is required" (falsy), not "must be a non-empty string" |
| Validation.TransactionTimeRule | backend/src/utils/validation.ts:24-29 | no message exactly when transactionTimeMs is an integer number greater than 0 |
| Validation.PurchaseTimeRule | backend/src/utils/validation.ts:62-73 | no message exactly when purchaseTime is a string matching `\d{4}-\d{2}-\d{2} \d{2}:\d{2}:\d{2}` in full |
| Validation.RequiredAmount | backend/src/utils/validation.ts:31-38 | amount/total rule: no message exactly when the value is a finite number >= 0 |
| Validation.OptionalAmount | backend/src/utils/validation.ts:84-91 | discount rule: no message exactly when discount is absent, null, or a finite number >= 0 |
| Validation.PartnerAErrors | backend/src/utils/validation.ts:8-44 | the error list is empty exactly when the payload is an object with a valid skuId, transactionTimeMs and amount; otherwise it has 1 to 3 messages |
| Validation.PartnerBErrors | backend/src/utils/validation.ts:46-97 | the error list is empty exactly when the payload is well formed for Partner B; it has at most 4 messages |
| Validation.TextMessages | backend/src/utils/validation.ts:17-22 | a missing or falsy skuId/itemCode gets "X is required"; any other value that is not a non-blank string gets "X must be a non-empty string" |
| Validation.TransactionTimeMessages | backend/src/utils/validation.ts:24-29 | a nullish transactionTimeMs gets "is required"; any other value that is not a positive integer gets the positive-integer message |
| Validation.PurchaseTimeMessages | backend/src/utils/validation.ts:62-73 | falsy gets "is required", a truthy non-string or blank string gets "must be a non-empty string", a string off the pattern gets the format message |
| Validation.AmountMessages | backend/src/utils/validation.ts:31-38 | nullish gets "is required" (amount, total); a non-number, NaN or infinity gets "X must be a valid number"; a negative number gets "X must be non-negative" (also for discount) |
| Validation.PartnerAReportsEveryField | backend/src/utils/validation.ts:17-38 | no short-circuit: the list has one message per failing field, and each failing field's own message is in it |
| Validation.PartnerBReportsEveryField | backend/src/utils/validation.ts:55-91 | the same for Partner B's four fields |
| Validation.ValidatePartnerA | backend/src/utils/validation.ts:8-44 | the pushed messages are exactly PartnerAErrors, in field order, and isValid holds exactly when no message was pushed |
| Validation.ValidatePartnerB | backend/src/utils/validation.ts:46-97 | the pushed messages are exactly PartnerBErrors, and isValid holds exactly when there are none |
| Validation.CheckText | backend/src/utils/validation.ts:17-22 | the skuId/itemCode block appends exactly the message RequiredText gives, or nothing |
| Validation.CheckTransactionTime | backend/src/utils/validation.ts:24-29 | the transactionTimeMs block appends exactly the message TransactionTimeRule gives, or nothing |
| Validation.CheckPurchaseTime | backend/src/utils/validation.ts:62-73 | the purchaseTime block appends exactly the message PurchaseTimeRule gives, or nothing |
| Validation.CheckAmount | backend/src/utils/validation.ts:31-38 | the amount/total block appends exactly the message RequiredAmount gives, or nothing |
| Validation.CheckDiscount | backend/src/utils/validation.ts:84-91 | the discount block appends exactly the message OptionalAmount gives, or nothing |
| Validation.AsPartnerAEvent | backend/src/services/feedHandler.ts:48 | the typed event carries the payload's own skuId, transactionTimeMs and amount, with a positive integer time and a non-negative amount |
| Validation.AsPartnerBEvent | backend/src/services/feedHandler.ts:110 | the typed event carries the payload's own itemCode, purchaseTime, total and discount; purchaseTime is well formed, total is non-negative, and the discount is absent exactly when null or undefined |
| Validation.TimestampNotBlank | backend/src/utils/validation.ts:63-70 | a matching timestamp is never blank, so the "non-empty string" branch never hides the format check |
| Validation.NonObjectRejected | backend/src/utils/validation.ts:11-13 | a falsy or non-object payload yields exactly ["Payload must be an object"] for both partners |
| Validation.ArrayGetsFieldErrors | backend/src/utils/validation.ts:11-38 | an array passes the object check and gets the three "is required" messages, in field order |
| Validation.SkuIdMessageFirst | backend/src/utils/validation.ts:17-22 | the skuId message, when there is one, comes first |
| Validation.EmptySkuIdIsRequired | backend/src/utils/validation.ts:18-19 | skuId "" is reported as "skuId is required" |
| Validation.BlankSkuIdIsNotText | backend/src/utils/validation.ts:20-21 | every non-empty, whitespace-only skuId is reported as "skuId must be a non-empty string" |
| Validation.ZeroTimeRejectedZeroAmountAccepted | backend/src/utils/validation.ts:25-38 | transactionTimeMs 0 is rejected; amount 0 is accepted |
| Validation.NoRangeCheck | backend/src/utils/validation.ts:69-70 | the format check is syntactic: "9999-99-99 99:99:99" passes |
| Validation.SamplePartnerAPayloadIsValid | backend/src/services/__tests__/feedHandler.test.ts:15-19 | the test's Partner A payload has no validation errors |
| Transform.TransformPartnerA | backend/src/utils/transform.ts:3-33 | succeeds exactly when the time value is within ±8.64e15 ms, else throws "Invalid time value"; on success productCode = skuId, eventTime = transactionTimeMs, discount 0, net = gross = amount, the envelope fields are copied and streamOffset is 0 |
| Transform.ParseStamp | backend/src/utils/transform.ts:45-47 | the numbers split out of a matched timestamp are bounded by their field widths (year < 10000, others < 100) |
| Transform.StampInRange | backend/src/utils/transform.ts:48 | Date.UTC of every matched timestamp is a valid time value, so the Partner B transform never throws |
| Transform.StampInstant | backend/src/utils/transform.ts:48 | the instant of a matched timestamp lies within ±8.64e15 ms |
| Transform.DiscountOrZero | backend/src/utils/transform.ts:52 | `discount \|\| 0` is 0 when the discount is absent and the discount itself otherwise |
| Transform.TransformPartnerB | backend/src/utils/transform.ts:35-69 | productCode = itemCode, gross = total, discount = supplied or 0, net = gross - discount (negative passes through), eventTime = the purchaseTime instant, envelope fields copied, streamOffset 0 |
| Transform.StampOfCalendarDate | backend/src/utils/transform.ts:45-48 | for a real calendar date with year >= 100, eventTime = days-from-civil(Y,M,D)·86 400 000 + (h·3600 + m·60 + s)·1000, with no timezone offset |
| Transform.TwoDigitYearsAreTwentiethCentury | backend/src/utils/transform.ts:48 | years 0000-0099 are read by Date.UTC as 1900-1999 |
| Transform.DayRollsOver | backend/src/utils/transform.ts:48 | a day one past the month's end gives the same instant as the first of the next month |
| Transform.AbsentDiscountIsZero | backend/src/utils/transform.ts:52-53 | a Partner B event without a discount and one with discount 0 give identical orders |
| Calendar.TimeClip | backend/src/utils/transform.ts:12 | a time value is valid exactly within ±8.64e15 ms and is then kept unchanged |
| Calendar.FullYear | backend/src/utils/transform.ts:48 | Date.UTC reads years 0..99 as 1900 + year and leaves other years alone |
| Calendar.DateUtcValue | backend/src/utils/transform.ts:48 | a valid Date.UTC with an in-range month is the civil day's midnight plus the time of day |
| Calendar.MakeDayZeroIsLastDay | backend/src/services/storage.ts:141 | day 0 of month index m is the last day of month m |
| Calendar.CivilRoundTrip | backend/src/services/feedHandler.ts:20 | the date toISOString prints for a day number names that day: civil-from-days inverts days-from-civil |
| Sequences.Draw | backend/src/services/sequenceManager.ts:8-13 | the number issued is the stored value (or 0) plus one, it becomes the stored value, and no other partner's counter changes |
| Sequences.DrawManyIssuesRun | backend/src/services/sequenceManager.ts:8-13 | N consecutive draws issue c+1..c+N with no gaps and leave the counter at c+N; other partners are untouched |
| Sequences.DrawsAfterReset | backend/src/services/sequenceManager.ts:8-17 | after reset(p), N draws issue exactly 1..N, strictly increasing |
| Sequences.FirstDrawIsOne | backend/src/services/sequenceManager.ts:9 | the first draw for a partner never seen is 1 |
| Sequences.SequenceManager.constructor | backend/src/services/sequenceManager.ts:6 | the counter map starts empty |
| Sequences.SequenceManager.GetNextSequence | backend/src/services/sequenceManager.ts:8-13 | the result and new map are those of Draw on the old map |
| Sequences.SequenceManager.Reset | backend/src/services/sequenceManager.ts:15-17 | p's counter becomes 0, other counters are unchanged |
| Sequences.SequenceManager.GetCurrent | backend/src/services/sequenceManager.ts:19-21 | returns the last number issued, or 0, and changes nothing |
| Idempotency.ExtractIdempotencyKey | backend/src/utils/idempotency.ts:18-27 | a key comes from the standard header when that is truthy, else from the alternative one; a string is returned as is, a list gives its first element; no key only for an empty list or a missing header |
| Idempotency.StandardHeaderWins | backend/src/utils/idempotency.ts:19 | a truthy standard header decides the result whatever the alternative header holds |
| Idempotency.StringKeyUnchanged | backend/src/utils/idempotency.ts:20-22 | a non-empty string key is returned unchanged |
| Idempotency.EmptyListBlocksFallback | backend/src/utils/idempotency.ts:19-26 | an empty list in the standard header is truthy, so the result is undefined and the alternative header is never consulted |
| Idempotency.EmptyStringFallsThrough | backend/src/utils/idempotency.ts:19-22 | an empty standard header counts as absent: the result is the one the other headers give, and a string in the alternative header is returned as is |
| Idempotency.SameTextSameHash | backend/src/utils/idempotency.ts:7-10 | payloads with the same JSON text (key order included) get the same hash |
| Streams.Deliveries | backend/src/services/streams.ts:14-20 | one publish calls every subscriber exactly once with the event, in subscription order |
| Streams.NeverSubscribedNeverCalled | backend/src/services/streams.ts:11-25 | a callback that never subscribed is never called |
| Streams.SubscriberSeesLaterEvents | backend/src/services/streams.ts:11-25 | a subscriber is called once with each event published after it subscribed, in order, and never with an earlier one (no replay) |
| Streams.Stream.constructor | backend/src/services/streams.ts:8-9 | queue and subscriber list start empty |
| Streams.Stream.Publish | backend/src/services/streams.ts:11-21 | the event is appended to the queue, the subscribers are unchanged, the calls made are Deliveries(subscribers, event), and what each subscriber has been called with grows by exactly the calls addressed to it |
| Streams.DeliveriesAddressedTo | backend/src/services/streams.ts:14-20 | one publish calls a subscriber with the event once per time it subscribed, and with nothing else |
| Streams.PublishAddsDeliveredEvents | backend/src/services/streams.ts:11-21 | the events a subscriber has been called with after a publish are those before it plus the calls that publish returns for it |
| Streams.Stream.Subscribe | backend/src/services/streams.ts:23-25 | the callback is appended to the subscriber list; the queue is unchanged |
| Streams.Stream.GetQueue | backend/src/services/streams.ts:28-30 | returns a copy equal to the queue and changes nothing |
| Streams.Stream.Clear | backend/src/services/streams.ts:32-34 | the queue is emptied and the subscribers are kept |
| Dedup.Resolve | backend/src/services/storage.ts:34-46 | an index hit names a truthy token whose index entry names a stored record, and yields that record |
| Dedup.Match | backend/src/services/storage.ts:33-78 | a duplicate is always a stored record; there is none exactly when neither index resolves and the primary key is free |
| Dedup.MatchPrecedence | backend/src/services/storage.ts:33-78 | the key index's record is reported whenever it resolves; otherwise the hash index's; otherwise the record under the primary key |
| Dedup.Save | backend/src/services/storage.ts:28-104 | saved and duplicate are opposite; duplicate exactly when a check hits, then nothing changes and the existing record is returned; otherwise the record is inserted and no existing record is reported |
| Dedup.ValidIndexResolves | backend/src/services/storage.ts:81-93 | under the store invariant, an index entry for a truthy token always resolves |
| Dedup.SaveKeepsValid | backend/src/services/storage.ts:80-93 | every save keeps the invariant: each record under its own primary key, every index entry naming a stored record |
| Dedup.SaveOnlyGrows | backend/src/services/storage.ts:80-93 | a save only adds entries; no record or index entry is ever replaced or removed |
| Dedup.MatchNamesStoredRecord | backend/src/services/storage.ts:33-78 | the record reported is the one the hitting strategy's index names; by primary key it has the same primary key |
| Dedup.InsertFindsItself | backend/src/services/storage.ts:80-93 | after an insert, the duplicate check for the same tokens finds the inserted record |
| Dedup.InsertAddsOneRecord | backend/src/services/storage.ts:81 | an insert under a new primary key adds exactly one record |
| Dedup.SaveTwice | backend/src/services/storage.ts:66-81 | saving the same record twice gives saved, then duplicate with the first record; the store grows by one |
| Dedup.RetryWithSameKeyIsDuplicate | backend/src/services/storage.ts:33-47 | a retry with the same truthy idempotency key finds the first record whatever else differs, and changes nothing |
| Dedup.SaveThenFound | backend/src/services/storage.ts:28-104 | after a save, saved or duplicate, the duplicate check for the same tokens hits |
| Dedup.KnownHashNewKeyIsDuplicate | backend/src/services/storage.ts:49-63 | a new idempotency key with a known content hash is still a duplicate, found by the hash |
| Dedup.EmptyFamilyMatchesNothing | backend/src/services/storage.ts:258-265 | after clear, every lookup misses |
| Store.ErrorKeyCollision | backend/src/services/storage.ts:202-210 | errors of one partner with the same receivedTime and the same first 50 characters of payload text share a primary key |
| Store.InsertDescending | backend/src/services/storage.ts:121-125 | inserting keeps the elements, adds the one, and keeps most-recent-first order |
| Store.SelectDescending | backend/src/services/storage.ts:106-126 | the result is a permutation of the kept records (each occurs as often as keys hold it), most recent first |
| Store.HoldingOnce | backend/src/services/storage.ts:106-126 | when every record sits under its own key, a kept record is held by exactly one key |
| Store.NetSumIsGrossMinusDiscount | backend/src/services/storage.ts:148-150 | over balanced orders, the net total is the gross total minus the discount total |
| Store.Round2 | backend/src/services/storage.ts:154-156 | `Math.round(x*100)/100` is within half a cent of x |
| Store.Summarize | backend/src/services/storage.ts:143-158 | the count and the three rounded sums are those of exactly the partner's orders whose eventTime lies in the window |
| Store.MonthWindowIsCalendarMonth | backend/src/services/storage.ts:140-141 | for month 1..12 the window runs from day 1 00:00:00.000 to the last day of that month 23:59:59.999 |
| Store.MonthStartValue | backend/src/services/storage.ts:140 | the window opens at midnight UTC on the first of the month |
| Store.MonthEndValue | backend/src/services/storage.ts:141 | the window closes at 23:59:59.999 UTC on the month's last day |
| Store.Storage.constructor | backend/src/services/storage.ts:15-22 | the six maps start empty and the invariant holds |
| Store.Storage.SaveOrder | backend/src/services/storage.ts:28-104 | the order maps and the result are Save on the old maps with the key `partnerId-sequenceNumber`; the invariant is kept; the error maps are unchanged |
| Store.Storage.FindOrder | backend/src/services/storage.ts:33-78 | the three checks of saveOrder find exactly what Match finds |
| Store.Storage.SaveError | backend/src/services/storage.ts:165-233 | as SaveOrder on the error maps, keyed by partnerId, the ISO receivedTime and the first 50 characters of the payload text; the order maps are unchanged |
| Store.Storage.FindError | backend/src/services/storage.ts:170-210 | the three checks of saveError find exactly what Match finds |
| Store.Storage.GetOrders | backend/src/services/storage.ts:106-126 | each stored order matching the partner filter (only if truthy) and the inclusive window on eventTime occurs exactly once, no other occurs, most recent first |
| Store.Storage.GetErrors | backend/src/services/storage.ts:235-255 | each stored error matching the filters on receivedTime occurs exactly once, no other occurs, most recent first |
| Store.Storage.GetMonthlySummary | backend/src/services/storage.ts:128-159 | the count and rounded sums of the partner's orders in [Date.UTC(y, m-1, 1), Date.UTC(y, m, 0, 23, 59, 59, 999)] |
| Store.Storage.Clear | backend/src/services/storage.ts:258-265 | all six maps are empty and the invariant holds |
| Text.Prefix | backend/src/services/storage.ts:205 | `substring(0, n)` is a prefix of at most n characters, the whole string when shorter |
| Processors.OrderMethod | backend/src/services/orderProcessor.ts:39-44 | the label is "idempotency-key" iff the key is truthy, "content-hash" iff only the hash is truthy, "sequence-number" iff neither |
| Processors.ErrorMethod | backend/src/services/errorProcessor.ts:36-41 | the same with "payload-hash" last |
| Processors.ProcessOrderSpec | backend/src/services/orderProcessor.ts:29-94 | duplicate exactly when the store's check hits, with the stored order reported and the store unchanged; a fresh save reports no existing order; the label is OrderMethod on both paths |
| Processors.ProcessErrorSpec | backend/src/services/errorProcessor.ts:26-73 | the same for errors, with ErrorMethod |
| Processors.LabelIgnoresMatchedIndex | backend/src/services/orderProcessor.ts:39-44 | a duplicate found by its hash but carrying a new key is labelled "idempotency-key": the label ignores the index that matched |
| Processors.ReprocessedOrderIsDuplicate | backend/src/services/orderProcessor.ts:35-61 | reprocessing an order gives saved, then duplicate of itself, with the same label; one record added |
| Processors.ReprocessedErrorIsDuplicate | backend/src/services/errorProcessor.ts:32-53 | the same for errors |
| Processors.OrderProcessor.constructor | backend/src/services/orderProcessor.ts:97 | the processor works on the store it is given |
| Processors.OrderProcessor.ProcessOrder | backend/src/services/orderProcessor.ts:29-94 | one saveOrder: the new order maps and the result are ProcessOrderSpec on the old maps; invariant kept; errors unchanged |
| Processors.ErrorProcessor.constructor | backend/src/services/errorProcessor.ts:76 | the processor works on the store it is given |
| Processors.ErrorProcessor.ProcessError | backend/src/services/errorProcessor.ts:26-73 | one saveError: the new error maps and the result are ProcessErrorSpec on the old maps; orders unchanged |
| Feed.InvalidAPublishesError | backend/src/services/feedHandler.ts:21-46 | an invalid A payload draws no number, publishes one error event carrying partner "A", the payload, receivedTime, the validator's non-empty errors, the key and the payload's hash, and replies with failure |
| Feed.ValidADrawsOnce | backend/src/services/feedHandler.ts:48-69 | a valid A payload draws exactly one "A" number and publishes the transformed order stamped with it, unless the time value is out of range, in which case it throws and publishes nothing |
| Feed.InvalidBPublishesError | backend/src/services/feedHandler.ts:84-108 | an invalid B payload draws no number and publishes one error event with the payload, received time, validator's errors, idempotency key and hash |
| Feed.ValidBPublishesOrder | backend/src/services/feedHandler.ts:110-131 | a valid B payload draws exactly one "B" number and publishes the transformed order; the reply is success |
| Feed.ReplyNamesTheStream | backend/src/services/feedHandler.ts:16-132 | every call that returns publishes exactly one event; success iff an order was published, failure iff an error event was; only a valid A payload can throw |
| Feed.SamplePartnerAPayloadSucceeds | backend/src/services/__tests__/feedHandler.test.ts:14-25 | the test's Partner A payload is accepted |
| Feed.FeedHandler.constructor | backend/src/services/feedHandler.ts:135 | the handler drives the counter and the two streams it is given |
| Feed.FeedHandler.PublishError | backend/src/services/feedHandler.ts:41 | errorOrders gets the error event appended and calls each subscriber once |
| Feed.FeedHandler.PublishOrder | backend/src/services/feedHandler.ts:68 | validOrders gets the order appended and calls each subscriber once |
| Feed.FeedHandler.Emit | backend/src/services/feedHandler.ts:41-68 | the one publish a call makes reaches only its own stream |
| Feed.FeedHandler.HandlePartnerA | backend/src/services/feedHandler.ts:16-70 | the counters, the reply, both queues and the subscriber calls are those of HandleA on the old counters; subscriber lists unchanged |
| Feed.FeedHandler.HandlePartnerB | backend/src/services/feedHandler.ts:77-132 | the same with HandleB |
| Partners.GetPartner | backend/src/services/partnerService.ts:22-24 | a partner is found exactly for "A" and "B", and it carries that id |
| Partners.PartnerExists | backend/src/services/partnerService.ts:29-31 | true exactly for "A" and "B" |
| Partners.ValidateApiKey | backend/src/services/partnerService.ts:39-57 | false for an unknown partner; true when no key is configured; otherwise true iff a non-empty key equal to the configured one is provided |
| Partners.RequiresApiKey | backend/src/services/partnerService.ts:69-72 | true iff the partner exists and its configured key is non-empty |
| Partners.GetAllPartners | backend/src/services/partnerService.ts:62-64 | exactly the two configured partners, A then B, as getPartner returns them |
| Partners.RequiresKeyIffKeylessRefused | backend/src/services/partnerService.ts:39-72 | for an existing partner, a key is required exactly when a request without one is refused |
| Partners.OnlyTheConfiguredKeyIsAccepted | backend/src/services/partnerService.ts:51-56 | a partner that requires a key accepts its configured key and nothing else |
| Pipeline.ProcessOrders | backend/src/index.ts:27-29 | processing a list of orders yields one result per order |
| Pipeline.ProcessErrors | backend/src/index.ts:24-26 | processing a list of error events yields one result per event |
| Pipeline.ProcessOrdersInTurn | backend/src/index.ts:27-29 | the i-th result is processOrder's result for the i-th order on the store the earlier orders left |
| Pipeline.ProcessErrorsInTurn | backend/src/index.ts:24-26 | the i-th result is processError's result for the i-th error event on the store the earlier events left |
| Pipeline.SingleSubscriberFanout | backend/src/index.ts:24-29 | with the one subscriber registered at start-up, each published event reaches that subscriber exactly once |
| Pipeline.ProcessedOrderIsFound | backend/src/index.ts:27-29 | after the order subscriber runs, the order is findable: saved under its key, or a duplicate that left the store unchanged |
| Pipeline.ProcessedErrorIsFound | backend/src/index.ts:24-26 | the same for error events |
| Pipeline.IngestedPartnerBOrderIsFound | backend/src/index.ts:24-29 | end to end: a valid B payload becomes one processed, findable order and leaves the errors alone; an invalid one reaches only the error store |
| Pipeline.Pipeline.constructor | backend/src/index.ts:24-29 | the services start empty; each stream has exactly its one processor subscribed; the store renders receivedTime with toISOString |
| Pipeline.Pipeline.DeliverOrders | backend/src/index.ts:27-29 | calling the order subscriber for each delivery leaves the order maps and results of ProcessOrders over the delivered events |
| Pipeline.Pipeline.DeliverErrors | backend/src/index.ts:24-26 | the same for error deliveries and ProcessErrors |
| Pipeline.Pipeline.IngestPartnerA | backend/src/services/feedHandler.ts:16-70 | one request: the reply and counters are HandleA's, and the store afterwards is ProcessOrders/ProcessErrors of exactly what was published |
| Pipeline.Pipeline.IngestPartnerB | backend/src/services/feedHandler.ts:77-132 | the same for Partner B |

## Left out

- Logging and metrics (`logger.*`, `console.*`, `errorsTotal`, `eventsProcessed`): side effects only.
- The HTTP layer (routes, auth middleware, Express set-up), apart from the subscriptions at `backend/src/index.ts:24-29`. The `handlePartner` dispatcher the routes and tests call does not exist in the feed handler and is not modelled.
- Clock reads (`new Date()` for receivedTime and processedTime) are parameters of the handlers and transformers.
- `JSON.stringify` and SHA-256 are foreign code. They are the uninterpreted function parameters `stringify` and `sha256`; only their determinism is used.
- Instants are integer milliseconds rather than ISO strings. The store's filters and sort compare instants, so the rendering matters only in the error key, where `toISOString` is modelled as `Calendar.ToIsoString`.
- Floating point: amounts are exact reals. IEEE rounding of sums and of `Math.round` is not modelled.
- `Sequences.DrawManyIssuesRun`: the counter is an unbounded integer, while the source's is a JS number (`sequenceManager.ts:6,10`). Beyond 2^53 - 1, `current + 1` no longer changes the value, so the source would issue the same number again. Orders then collide on `partnerId-sequenceNumber` and are dropped as primary-key duplicates. "Strictly increasing, no gaps" is proved for every N; the source keeps it only up to 2^53 - 1 draws. The same applies to `Sequences.DrawsAfterReset`.
- Non-amount numbers: a JSON number such as transactionTimeMs is an exact real. The rounding a JS number undergoes when the JSON is parsed, which can make a non-integer literal pass `Number.isInteger`, is not modelled.
- `Store.Storage.GetMonthlySummary`: the sums are over the set of matching orders. The order of IEEE additions is not modelled.
- Month arguments outside 1..12 and Invalid Date filter bounds. The summary is stated for any month. The date properties are proved for 1..12, the range the route checks.
- `Store.Storage.GetOrders`: records with equal times come in an unspecified order. The store's insertion order and the sort's stability are not modelled, because Dafny maps have no insertion order.
- `Store.Storage.GetErrors`: ties are unspecified, as for GetOrders.
- `Transform.TransformPartnerB`: requires a purchaseTime matching the validator's pattern. Its only caller validates first. The source on a non-matching string (NaN fields, a thrown RangeError) is not modelled.
- Strings are sequences of characters. `substring` on UTF-16 code units versus code points is not distinguished.
- `Streams.Stream.Publish`: subscribers are not called from inside publish. Publish returns the ordered list of calls, and `Pipeline` makes them right after the handler returns. The processors touch only the store, which the handler does not read, so the effect is the same.
- Async subscribers and subscriber exceptions: the modelled subscribers never throw, so the try/catch is not exercised.
- A top-level `undefined` payload has no JSON value and is not modelled. `null` and every JSON value are.
- The `Date.UTC` fields of a timestamp are read digit by digit, which agrees with `Number` on ASCII-digit fields.
