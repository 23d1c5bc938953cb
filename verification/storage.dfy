/**
 * The in-memory store: orders and errors, each with an idempotency-key index and a
 * content-hash index, filled by an idempotent insert with three duplicate checks
 * (see Dedup) and read by filter-and-sort queries and a monthly summary.
 */
module Store {
  import opened Wrappers
  import opened Json
  import opened Text
  import opened Calendar
  import opened Types
  import opened Dedup

  // ---------------------------------------------------------------------------
  // Primary keys

  /**
   * The two renderings the error key is built from: `JSON.stringify` of a payload,
   * and the ISO 8601 text (`toISOString`) a receivedTime instant is stored as.
   */
  datatype Renderers = Renderers(stringify: Json -> string, isoString: int -> string)

  /** An order's primary key: `${partnerId}-${sequenceNumber}`. */
  function OrderKey(o: OrderEvent): string
  {
    o.partnerId + "-" + IntToString(o.sequenceNumber)
  }

  /**
   * An error's primary key: `${partnerId}-${receivedTime}-` and the first 50
   * characters of the payload's JSON text; receivedTime is the ISO string the
   * feed handler stamped.
   */
  function ErrorKey(e: ErrorEvent, render: Renderers): string
  {
    e.partnerId + "-" + render.isoString(e.receivedTime) + "-" + Prefix(render.stringify(e.rawPayload), 50)
  }

  function ErrorKeyOf(render: Renderers): ErrorEvent -> string
  {
    e => ErrorKey(e, render)
  }

  function OrderTokens(o: OrderEvent): Tokens
  {
    Tokens(o.partnerId, o.idempotencyKey, o.contentHash, OrderKey(o))
  }

  function ErrorTokens(e: ErrorEvent, render: Renderers): Tokens
  {
    Tokens(e.partnerId, e.idempotencyKey, e.contentHash, ErrorKey(e, render))
  }

  /** Errors of one partner, stamped in the same millisecond, whose payload texts share their first 50 characters share a primary key. */
  lemma ErrorKeyCollision(e1: ErrorEvent, e2: ErrorEvent, render: Renderers)
    requires e1.partnerId == e2.partnerId && e1.receivedTime == e2.receivedTime
    requires |render.stringify(e1.rawPayload)| >= 50 && |render.stringify(e2.rawPayload)| >= 50
    requires render.stringify(e1.rawPayload)[..50] == render.stringify(e2.rawPayload)[..50]
    ensures ErrorKey(e1, render) == ErrorKey(e2, render)
  {
  }

  // ---------------------------------------------------------------------------
  // Queries

  /** Sorted by `time`, most recent first. */
  ghost predicate Descending<R>(s: seq<R>, time: R -> int)
  {
    forall i, j :: 0 <= i < j < |s| ==> time(s[i]) >= time(s[j])
  }

  /** Inserts x after every element at least as recent. */
  function InsertDescending<R(==, !new)>(s: seq<R>, x: R, time: R -> int): (r: seq<R>)
    ensures |r| == |s| + 1
    ensures multiset(r) == multiset(s) + multiset{x}
    ensures Descending(s, time) ==> Descending(r, time)
  {
    if s == [] then [x]
    else if time(s[0]) >= time(x) then
      var rest := InsertDescending(s[1..], x, time);
      assert s == [s[0]] + s[1..];
      HeadStaysFirst(s, x, rest, time);
      [s[0]] + rest
    else [x] + s
  }

  /** Behind the head of a sorted list, inserting a less recent x leaves nothing more recent than the head. */
  lemma HeadStaysFirst<R>(s: seq<R>, x: R, rest: seq<R>, time: R -> int)
    requires s != [] && time(s[0]) >= time(x)
    requires multiset(rest) == multiset(s[1..]) + multiset{x}
    ensures Descending(s, time) ==> forall i :: 0 <= i < |rest| ==> time(rest[i]) <= time(s[0])
  {
    if Descending(s, time) {
      forall i | 0 <= i < |rest| ensures time(rest[i]) <= time(s[0]) {
        if rest[i] != x {
          assert rest[i] in multiset(rest);
          var j :| 0 <= j < |s[1..]| && s[1..][j] == rest[i];
          assert s[j + 1] == rest[i];
        }
      }
    }
  }

  /** The keys of the records a filter keeps. */
  ghost function Kept<R>(records: map<string, R>, keys: set<string>, keep: R -> bool): set<string>
    requires keys <= records.Keys
  {
    set k | k in keys && keep(records[k])
  }

  /** The keys, among `keys`, whose record the filter keeps and equals x. */
  ghost function Holding<R>(records: map<string, R>, keys: set<string>, keep: R -> bool, x: R): set<string>
    requires keys <= records.Keys
  {
    set k | k in keys && keep(records[k]) && records[k] == x
  }

  /**
   * A query: the records `keep` accepts, each once, most recent first. Records with
   * the same time come in some order (the store keeps no insertion order).
   */
  method SelectDescending<R(==, !new)>(records: map<string, R>, keep: R -> bool, time: R -> int) returns (result: seq<R>)
    ensures forall x :: x in result <==> exists k :: k in records && keep(records[k]) && records[k] == x
    ensures |result| == |Kept(records, records.Keys, keep)|
    ensures forall x :: multiset(result)[x] == |Holding(records, records.Keys, keep, x)|
    ensures Descending(result, time)
  {
    var remaining := records.Keys;
    ghost var done: set<string> := {};
    result := [];
    while remaining != {}
      invariant remaining <= records.Keys && done == records.Keys - remaining
      invariant |result| == |Kept(records, done, keep)|
      invariant forall x :: multiset(result)[x] == |Holding(records, done, keep, x)|
      invariant Descending(result, time)
      decreases |remaining|
    {
      var k :| k in remaining;
      KeptStep(records, done, keep, k);
      ghost var before := result;
      if keep(records[k]) {
        result := InsertDescending(result, records[k], time);
      }
      HoldingStep(records, done, keep, k, before, result);
      assert records.Keys - (remaining - {k}) == done + {k};
      remaining := remaining - {k};
      done := done + {k};
    }
    assert done == records.Keys;
    CountsGiveMembers(records, keep, result);
  }

  /** A list holding each record as often as keys hold it holds exactly the kept records. */
  lemma CountsGiveMembers<R>(records: map<string, R>, keep: R -> bool, result: seq<R>)
    requires forall x :: multiset(result)[x] == |Holding(records, records.Keys, keep, x)|
    ensures forall x :: x in result <==> exists k :: k in records && keep(records[k]) && records[k] == x
  {
    forall x ensures x in result <==> exists k :: k in records && keep(records[k]) && records[k] == x {
      assert x in result <==> multiset(result)[x] > 0;
      if exists k :: k in records && keep(records[k]) && records[k] == x {
        var k :| k in records && keep(records[k]) && records[k] == x;
        assert k in Holding(records, records.Keys, keep, x);
      } else {
        assert Holding(records, records.Keys, keep, x) == {};
      }
    }
  }

  /** Taking one more key into a query: it is kept exactly when the filter keeps its record. */
  lemma KeptStep<R>(records: map<string, R>, done: set<string>, keep: R -> bool, k: string)
    requires done <= records.Keys && k in records && k !in done
    ensures keep(records[k]) ==> Kept(records, done + {k}, keep) == Kept(records, done, keep) + {k}
                                 && |Kept(records, done + {k}, keep)| == |Kept(records, done, keep)| + 1
    ensures !keep(records[k]) ==> Kept(records, done + {k}, keep) == Kept(records, done, keep)
  {
    if keep(records[k]) {
      assert Kept(records, done + {k}, keep) == Kept(records, done, keep) + {k};
    } else {
      assert Kept(records, done + {k}, keep) == Kept(records, done, keep);
    }
  }

  /** Taking one more key into a query adds one to the count of its record, if kept, and to no other: the counts stay exact. */
  lemma HoldingStep<R>(records: map<string, R>, done: set<string>, keep: R -> bool, k: string, before: seq<R>, after: seq<R>)
    requires done <= records.Keys && k in records && k !in done
    requires forall x :: multiset(before)[x] == |Holding(records, done, keep, x)|
    requires multiset(after) == if keep(records[k]) then multiset(before) + multiset{records[k]} else multiset(before)
    ensures forall x :: multiset(after)[x] == |Holding(records, done + {k}, keep, x)|
  {
    forall x ensures |Holding(records, done + {k}, keep, x)|
                     == |Holding(records, done, keep, x)| + (if keep(records[k]) && records[k] == x then 1 else 0) {
      if keep(records[k]) && records[k] == x {
        assert Holding(records, done + {k}, keep, x) == Holding(records, done, keep, x) + {k};
      } else {
        assert Holding(records, done + {k}, keep, x) == Holding(records, done, keep, x);
      }
    }
  }

  /**
   * When every record sits under its own key, a kept record is held by exactly one
   * key: a query returns it once.
   */
  lemma HoldingOnce<R>(records: map<string, R>, keep: R -> bool, keyOf: R -> string, x: R)
    requires forall k :: k in records ==> keyOf(records[k]) == k
    ensures |Holding(records, records.Keys, keep, x)| == if x in records.Values && keep(x) then 1 else 0
  {
    if x in records.Values && keep(x) {
      assert records[keyOf(x)] == x;
      assert Holding(records, records.Keys, keep, x) == {keyOf(x)};
    } else {
      assert Holding(records, records.Keys, keep, x) == {};
    }
  }

  /** The getOrders filter: the partner (only if truthy), then the inclusive window on eventTime. */
  predicate OrderSelected(o: OrderEvent, partnerId: Option<string>, from: Option<int>, to: Option<int>)
  {
    (!Present(partnerId) || o.partnerId == partnerId.value)
    && (from.None? || o.eventTime >= from.value)
    && (to.None? || o.eventTime <= to.value)
  }

  /** The getErrors filter: the partner (only if truthy), then the inclusive window on receivedTime. */
  predicate ErrorSelected(e: ErrorEvent, partnerId: Option<string>, from: Option<int>, to: Option<int>)
  {
    (!Present(partnerId) || e.partnerId == partnerId.value)
    && (from.None? || e.receivedTime >= from.value)
    && (to.None? || e.receivedTime <= to.value)
  }

  // ---------------------------------------------------------------------------
  // Monthly summary

  /**
   * The month's bounds: `Date.UTC(year, month - 1, 1)` and
   * `Date.UTC(year, month, 0, 23, 59, 59, 999)`, the last day of the month; `None`
   * is an Invalid Date.
   */
  function MonthStart(year: int, month: int): Option<int>
  {
    DateUtc(year, month - 1, 1, 0, 0, 0, 0)
  }

  function MonthEnd(year: int, month: int): Option<int>
  {
    DateUtc(year, month, 0, 23, 59, 59, 999)
  }

  /** An instant inside a window; comparisons with an Invalid Date are false. */
  predicate InWindow(t: int, start: Option<int>, end: Option<int>)
  {
    start.Some? && end.Some? && start.value <= t <= end.value
  }

  /** The orders the summary counts: those getOrders(partnerId) returns whose eventTime lies in the window. */
  predicate Monthly(o: OrderEvent, partnerId: string, start: Option<int>, end: Option<int>)
  {
    OrderSelected(o, Some(partnerId), None, None) && InWindow(o.eventTime, start, end)
  }

  /** The keys, among `keys`, of the orders the summary counts. */
  ghost function MonthKeys(orders: map<string, OrderEvent>, keys: set<string>, partnerId: string, start: Option<int>, end: Option<int>): set<string>
    requires keys <= orders.Keys
  {
    set k | k in keys && Monthly(orders[k], partnerId, start, end)
  }

  datatype AmountField = Gross | Discount | Net

  function AmountOf(o: OrderEvent, field: AmountField): real
  {
    match field
    case Gross => o.grossAmount
    case Discount => o.discount
    case Net => o.netAmount
  }

  ghost function Pick(keys: set<string>): string
    requires keys != {}
  {
    var k :| k in keys; k
  }

  /** The sum of one amount over the orders stored under `keys`. */
  ghost function SumOver(keys: set<string>, orders: map<string, OrderEvent>, field: AmountField): real
    requires keys <= orders.Keys
    decreases |keys|
  {
    if keys == {} then 0.0
    else
      var k := Pick(keys);
      AmountOf(orders[k], field) + SumOver(keys - {k}, orders, field)
  }

  /** The sum does not depend on the order the keys are taken in. */
  lemma {:induction false} SumOverRemove(keys: set<string>, orders: map<string, OrderEvent>, field: AmountField, k: string)
    requires keys <= orders.Keys && k in keys
    ensures SumOver(keys, orders, field) == AmountOf(orders[k], field) + SumOver(keys - {k}, orders, field)
    decreases |keys|
  {
    var p := Pick(keys);
    if p != k {
      SumOverRemove(keys - {p}, orders, field, k);
      SumOverRemove(keys - {k}, orders, field, p);
      assert keys - {p} - {k} == keys - {k} - {p};
    }
  }

  /** Taking one more key into the summary: it is counted and added exactly when its order is counted. */
  lemma MonthKeysStep(orders: map<string, OrderEvent>, done: set<string>, k: string, partnerId: string, start: Option<int>, end: Option<int>)
    requires done <= orders.Keys && k in orders && k !in done
    ensures var before := MonthKeys(orders, done, partnerId, start, end);
            var after := MonthKeys(orders, done + {k}, partnerId, start, end);
            if Monthly(orders[k], partnerId, start, end) then
              |after| == |before| + 1
              && SumOver(after, orders, Gross) == SumOver(before, orders, Gross) + orders[k].grossAmount
              && SumOver(after, orders, Discount) == SumOver(before, orders, Discount) + orders[k].discount
              && SumOver(after, orders, Net) == SumOver(before, orders, Net) + orders[k].netAmount
            else after == before
  {
    var before := MonthKeys(orders, done, partnerId, start, end);
    if Monthly(orders[k], partnerId, start, end) {
      assert MonthKeys(orders, done + {k}, partnerId, start, end) == before + {k};
      assert before + {k} - {k} == before;
      SumOverRemove(before + {k}, orders, Gross, k);
      SumOverRemove(before + {k}, orders, Discount, k);
      SumOverRemove(before + {k}, orders, Net, k);
    } else {
      assert MonthKeys(orders, done + {k}, partnerId, start, end) == before;
    }
  }

  /** Summing the net amounts of balanced orders gives the gross sum minus the discount sum. */
  lemma {:induction false} NetSumIsGrossMinusDiscount(keys: set<string>, orders: map<string, OrderEvent>)
    requires keys <= orders.Keys
    requires forall k :: k in keys ==> orders[k].netAmount == orders[k].grossAmount - orders[k].discount
    ensures SumOver(keys, orders, Net) == SumOver(keys, orders, Gross) - SumOver(keys, orders, Discount)
    decreases |keys|
  {
    if keys != {} {
      var k := Pick(keys);
      NetSumIsGrossMinusDiscount(keys - {k}, orders);
    }
  }

  /** `Math.round(x * 100) / 100`: the nearest cent, halves rounded up. */
  function Round2(x: real): (r: real)
    ensures x - 0.005 < r <= x + 0.005
  {
    (x * 100.0 + 0.5).Floor as real / 100.0
  }

  /** The summary of the orders stored under `keys`: their count and their rounded sums. */
  ghost function SummaryOf(orders: map<string, OrderEvent>, keys: set<string>): MonthlySummary
    requires keys <= orders.Keys
  {
    MonthlySummary(Round2(SumOver(keys, orders, Gross)), Round2(SumOver(keys, orders, Discount)),
                   Round2(SumOver(keys, orders, Net)), |keys|)
  }

  /** The filter and the three reductions of getMonthlySummary, over the stored orders. */
  method Summarize(orders: map<string, OrderEvent>, partnerId: string, start: Option<int>, end: Option<int>) returns (summary: MonthlySummary)
    ensures summary == SummaryOf(orders, MonthKeys(orders, orders.Keys, partnerId, start, end))
  {
    var remaining := orders.Keys;
    ghost var done: set<string> := {};
    ghost var kept: set<string> := {};
    var gross, discount, net, count := 0.0, 0.0, 0.0, 0;
    while remaining != {}
      invariant remaining <= orders.Keys && done == orders.Keys - remaining
      invariant kept == MonthKeys(orders, done, partnerId, start, end)
      invariant count == |kept| && gross == SumOver(kept, orders, Gross)
      invariant discount == SumOver(kept, orders, Discount) && net == SumOver(kept, orders, Net)
      decreases |remaining|
    {
      var k :| k in remaining;
      var o := orders[k];
      MonthKeysStep(orders, done, k, partnerId, start, end);
      kept := MonthKeys(orders, done + {k}, partnerId, start, end);
      if Monthly(o, partnerId, start, end) {
        gross := gross + o.grossAmount;
        discount := discount + o.discount;
        net := net + o.netAmount;
        count := count + 1;
      }
      assert orders.Keys - (remaining - {k}) == done + {k};
      remaining := remaining - {k};
      done := done + {k};
    }
    assert done == orders.Keys;
    summary := MonthlySummary(Round2(gross), Round2(discount), Round2(net), count);
  }

  lemma MonthStartValue(year: int, month: int)
    requires 1 <= month <= 12 && MonthStart(year, month).Some?
    ensures MonthStart(year, month).value == DaysFromCivil(FullYear(year), month, 1) * MsPerDay
  {
    DateUtcValue(year, month, 1, 0, 0, 0, 0);
  }

  lemma MonthEndValue(year: int, month: int)
    requires 1 <= month <= 12 && MonthEnd(year, month).Some?
    ensures MonthEnd(year, month).value
         == DaysFromCivil(FullYear(year), month, DaysInMonth(FullYear(year), month)) * MsPerDay + MsPerDay - 1
  {
    MakeDayZeroIsLastDay(FullYear(year), month);
  }

  /**
   * For a month 1..12, the window runs from 00:00:00.000 on the first day to
   * 23:59:59.999 on the last day of that calendar month.
   */
  lemma MonthWindowIsCalendarMonth(year: int, month: int)
    requires 1 <= month <= 12
    requires MonthStart(year, month).Some? && MonthEnd(year, month).Some?
    ensures var y := FullYear(year);
            MonthStart(year, month).value == DaysFromCivil(y, month, 1) * MsPerDay
            && MonthEnd(year, month).value == DaysFromCivil(y, month, DaysInMonth(y, month)) * MsPerDay + MsPerDay - 1
  {
    MonthStartValue(year, month);
    MonthEndValue(year, month);
  }

  // ---------------------------------------------------------------------------
  // The store

  /** Storage: the six maps, updated in place. The renderings of the error key are fixed at construction. */
  class Storage {
    var orders: map<string, OrderEvent>
    var errors: map<string, ErrorEvent>
    var idempotencyKeys: map<string, string>
    var contentHashes: map<string, string>
    var errorIdempotencyKeys: map<string, string>
    var errorContentHashes: map<string, string>
    const render: Renderers

    function Orders(): Family<OrderEvent>
      reads this
    {
      Family(orders, idempotencyKeys, contentHashes)
    }

    function Errors(): Family<ErrorEvent>
      reads this
    {
      Family(errors, errorIdempotencyKeys, errorContentHashes)
    }

    /** Each record sits under its own primary key, and every index entry names a stored record. */
    ghost predicate Valid()
      reads this
    {
      FamilyValid(Orders(), OrderKey) && FamilyValid(Errors(), ErrorKeyOf(render))
    }

    constructor(render: Renderers)
      ensures Valid() && this.render == render
      ensures Orders() == EmptyFamily() && Errors() == EmptyFamily()
    {
      orders := map[];
      errors := map[];
      idempotencyKeys := map[];
      contentHashes := map[];
      errorIdempotencyKeys := map[];
      errorContentHashes := map[];
      this.render := render;
    }

    /** saveOrder: the idempotency key, then the content hash, then `${partnerId}-${sequenceNumber}`; else store. */
    method SaveOrder(order: OrderEvent) returns (result: SaveResult<OrderEvent>)
      requires Valid()
      modifies this
      ensures Valid()
      ensures (Orders(), result) == Save(old(Orders()), OrderTokens(order), order)
      ensures Errors() == old(Errors())
    {
      ghost var before := Orders();
      SaveKeepsValid(before, OrderTokens(order), order, OrderKey);
      var found := FindOrder(order);
      if found.Some? {
        return SaveResult(false, true, found);
      }
      var sequenceKey := order.partnerId + "-" + IntToString(order.sequenceNumber);
      orders := orders[sequenceKey := order];
      if Present(order.idempotencyKey) {
        idempotencyKeys := idempotencyKeys[Scoped(order.partnerId, order.idempotencyKey.value) := sequenceKey];
      }
      if Present(order.contentHash) {
        contentHashes := contentHashes[Scoped(order.partnerId, order.contentHash.value) := sequenceKey];
      }
      result := SaveResult(true, false, None);
    }

    /** The three duplicate checks of saveOrder, in order. */
    method FindOrder(order: OrderEvent) returns (existing: Option<OrderEvent>)
      ensures existing == (match Match(Orders(), OrderTokens(order)) case Some((_, r)) => Some(r) case None => None)
    {
      if Present(order.idempotencyKey) {
        var idempotencyKey := Scoped(order.partnerId, order.idempotencyKey.value);
        if idempotencyKey in idempotencyKeys {
          var existingKey := idempotencyKeys[idempotencyKey];
          if existingKey != "" && existingKey in orders {
            return Some(orders[existingKey]);
          }
        }
      }
      if Present(order.contentHash) {
        var contentHashKey := Scoped(order.partnerId, order.contentHash.value);
        if contentHashKey in contentHashes {
          var existingKey := contentHashes[contentHashKey];
          if existingKey != "" && existingKey in orders {
            return Some(orders[existingKey]);
          }
        }
      }
      var sequenceKey := order.partnerId + "-" + IntToString(order.sequenceNumber);
      if sequenceKey in orders {
        return Some(orders[sequenceKey]);
      }
      return None;
    }

    /** saveError: the idempotency key, then the content hash, then the partner-time-payload key; else store. */
    method SaveError(error: ErrorEvent) returns (result: SaveResult<ErrorEvent>)
      requires Valid()
      modifies this
      ensures Valid()
      ensures (Errors(), result) == Save(old(Errors()), ErrorTokens(error, render), error)
      ensures Orders() == old(Orders())
    {
      ghost var before := Errors();
      SaveKeepsValid(before, ErrorTokens(error, render), error, ErrorKeyOf(render));
      var found := FindError(error);
      if found.Some? {
        return SaveResult(false, true, found);
      }
      var payloadHash := render.stringify(error.rawPayload);
      var errorKey := error.partnerId + "-" + render.isoString(error.receivedTime) + "-" + Prefix(payloadHash, 50);
      errors := errors[errorKey := error];
      if Present(error.idempotencyKey) {
        errorIdempotencyKeys := errorIdempotencyKeys[Scoped(error.partnerId, error.idempotencyKey.value) := errorKey];
      }
      if Present(error.contentHash) {
        errorContentHashes := errorContentHashes[Scoped(error.partnerId, error.contentHash.value) := errorKey];
      }
      result := SaveResult(true, false, None);
    }

    /** The three duplicate checks of saveError, in order. */
    method FindError(error: ErrorEvent) returns (existing: Option<ErrorEvent>)
      ensures existing == (match Match(Errors(), ErrorTokens(error, render)) case Some((_, r)) => Some(r) case None => None)
    {
      if Present(error.idempotencyKey) {
        var idempotencyKey := Scoped(error.partnerId, error.idempotencyKey.value);
        if idempotencyKey in errorIdempotencyKeys {
          var existingKey := errorIdempotencyKeys[idempotencyKey];
          if existingKey != "" && existingKey in errors {
            return Some(errors[existingKey]);
          }
        }
      }
      if Present(error.contentHash) {
        var contentHashKey := Scoped(error.partnerId, error.contentHash.value);
        if contentHashKey in errorContentHashes {
          var existingKey := errorContentHashes[contentHashKey];
          if existingKey != "" && existingKey in errors {
            return Some(errors[existingKey]);
          }
        }
      }
      var payloadHash := render.stringify(error.rawPayload);
      var errorKey := error.partnerId + "-" + render.isoString(error.receivedTime) + "-" + Prefix(payloadHash, 50);
      if errorKey in errors {
        return Some(errors[errorKey]);
      }
      return None;
    }

    /** getOrders: exactly the stored orders the filters keep, each once, most recent eventTime first. */
    method GetOrders(partnerId: Option<string>, from: Option<int>, to: Option<int>) returns (result: seq<OrderEvent>)
      requires Valid()
      ensures forall o :: o in result <==> o in orders.Values && OrderSelected(o, partnerId, from, to)
      ensures forall o :: multiset(result)[o] == if o in orders.Values && OrderSelected(o, partnerId, from, to) then 1 else 0
      ensures |result| == |Kept(orders, orders.Keys, o => OrderSelected(o, partnerId, from, to))|
      ensures Descending(result, (o: OrderEvent) => o.eventTime)
    {
      result := SelectDescending(orders, o => OrderSelected(o, partnerId, from, to), (o: OrderEvent) => o.eventTime);
      forall o ensures multiset(result)[o] == if o in orders.Values && OrderSelected(o, partnerId, from, to) then 1 else 0 {
        HoldingOnce(orders, o => OrderSelected(o, partnerId, from, to), OrderKey, o);
      }
    }

    /** getErrors: exactly the stored errors the filters keep, each once, most recent receivedTime first. */
    method GetErrors(partnerId: Option<string>, from: Option<int>, to: Option<int>) returns (result: seq<ErrorEvent>)
      requires Valid()
      ensures forall e :: e in result <==> e in errors.Values && ErrorSelected(e, partnerId, from, to)
      ensures forall e :: multiset(result)[e] == if e in errors.Values && ErrorSelected(e, partnerId, from, to) then 1 else 0
      ensures |result| == |Kept(errors, errors.Keys, e => ErrorSelected(e, partnerId, from, to))|
      ensures Descending(result, (e: ErrorEvent) => e.receivedTime)
    {
      result := SelectDescending(errors, e => ErrorSelected(e, partnerId, from, to), (e: ErrorEvent) => e.receivedTime);
      forall e ensures multiset(result)[e] == if e in errors.Values && ErrorSelected(e, partnerId, from, to) then 1 else 0 {
        HoldingOnce(errors, e => ErrorSelected(e, partnerId, from, to), ErrorKeyOf(render), e);
      }
    }

    /** getMonthlySummary: count and the rounded sums of the partner's orders in the month. */
    method GetMonthlySummary(partnerId: string, month: int, year: int) returns (summary: MonthlySummary)
      ensures summary == SummaryOf(orders, MonthKeys(orders, orders.Keys, partnerId, MonthStart(year, month), MonthEnd(year, month)))
    {
      var startDate := DateUtc(year, month - 1, 1, 0, 0, 0, 0);
      var endDate := DateUtc(year, month, 0, 23, 59, 59, 999);
      summary := Summarize(orders, partnerId, startDate, endDate);
    }

    /** clear: all six maps empty. */
    method Clear()
      modifies this
      ensures Valid()
      ensures Orders() == EmptyFamily() && Errors() == EmptyFamily()
    {
      orders := map[];
      errors := map[];
      idempotencyKeys := map[];
      contentHashes := map[];
      errorIdempotencyKeys := map[];
      errorContentHashes := map[];
    }
  }
}
