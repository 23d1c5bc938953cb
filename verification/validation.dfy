/**
 * The partner validators: per-field rules over an untyped payload. Every field is
 * checked (no short-circuit) and contributes at most one message, in a fixed order.
 */
module Validation {
  import opened Wrappers
  import opened Json
  import opened Text
  import opened Types

  datatype ValidationResult = ValidationResult(isValid: bool, errors: seq<string>)

  const NotAnObject: string := "Payload must be an object"

  // ---------------------------------------------------------------------------
  // What a well-formed field looks like

  /** A string with at least one character that `trim` keeps. */
  predicate IsText(v: Option<Json>)
  {
    v.Some? && v.value.JStr? && !IsBlank(v.value.s)
  }

  /** A number that is an integer and strictly positive. */
  predicate IsPositiveInteger(v: Option<Json>)
  {
    v.Some? && v.value.JNum? && v.value.n.Finite? && IsInteger(v.value.n.value) && v.value.n.value > 0.0
  }

  /** A finite number that is not negative (0 is allowed). */
  predicate IsNonNegativeAmount(v: Option<Json>)
  {
    v.Some? && IsFiniteNumber(v.value) && v.value.n.value >= 0.0
  }

  /** `^\d{4}-\d{2}-\d{2} \d{2}:\d{2}:\d{2}$`: the character expected at position i. */
  predicate TimestampSlot(s: string, i: nat)
    requires i < |s|
  {
    if i == 4 || i == 7 then s[i] == '-'
    else if i == 10 then s[i] == ' '
    else if i == 13 || i == 16 then s[i] == ':'
    else IsAsciiDigit(s[i])
  }

  predicate MatchesTimestamp(s: string)
  {
    |s| == 19 && forall i :: 0 <= i < 19 ==> TimestampSlot(s, i)
  }

  predicate IsTimestamp(v: Option<Json>)
  {
    v.Some? && v.value.JStr? && MatchesTimestamp(v.value.s)
  }

  predicate WellFormedA(p: Json)
  {
    IsObjectLike(p)
    && IsText(Get(p, "skuId"))
    && IsPositiveInteger(Get(p, "transactionTimeMs"))
    && IsNonNegativeAmount(Get(p, "amount"))
  }

  predicate WellFormedB(p: Json)
  {
    IsObjectLike(p)
    && IsText(Get(p, "itemCode"))
    && IsTimestamp(Get(p, "purchaseTime"))
    && IsNonNegativeAmount(Get(p, "total"))
    && (IsNullish(Get(p, "discount")) || IsNonNegativeAmount(Get(p, "discount")))
  }

  // ---------------------------------------------------------------------------
  // Field rules: the message a field contributes, if any

  function Required(field: string): string { field + " is required" }
  function NotText(field: string): string { field + " must be a non-empty string" }
  function NotANumber(field: string): string { field + " must be a valid number" }
  function Negative(field: string): string { field + " must be non-negative" }
  const NotPositiveInteger: string := "transactionTimeMs must be a positive integer (epoch milliseconds)"
  const NotTimestamp: string := "purchaseTime must be in format YYYY-MM-DD HH:mm:ss"

  /** The rule for skuId and itemCode. */
  function RequiredText(field: string, v: Option<Json>): (m: Option<string>)
    ensures m.None? <==> IsText(v)
    ensures m.Some? && v.Some? && v.value == JStr("") ==> m.value == Required(field)
  {
    if !Truthy(v) then Some(Required(field))
    else if !v.value.JStr? || IsBlank(v.value.s) then Some(NotText(field))
    else None
  }

  function TransactionTimeRule(v: Option<Json>): (m: Option<string>)
    ensures m.None? <==> IsPositiveInteger(v)
  {
    if IsNullish(v) then Some(Required("transactionTimeMs"))
    else if !v.value.JNum? || !v.value.n.Finite? || !IsInteger(v.value.n.value) || v.value.n.value <= 0.0 then
      Some(NotPositiveInteger)
    else None
  }

  function PurchaseTimeRule(v: Option<Json>): (m: Option<string>)
    ensures m.None? <==> IsTimestamp(v)
  {
    if !Truthy(v) then Some(Required("purchaseTime"))
    else
      TimestampNotBlank(v.value);
      if !v.value.JStr? || IsBlank(v.value.s) then Some(NotText("purchaseTime"))
      else if !MatchesTimestamp(v.value.s) then Some(NotTimestamp)
      else None
  }

  /** The checks shared by amount, total and discount once the value is present. */
  function AmountShape(field: string, x: Json): (m: Option<string>)
    ensures m.None? <==> IsFiniteNumber(x) && x.n.value >= 0.0
  {
    if !x.JNum? || !x.n.Finite? then Some(NotANumber(field))
    else if x.n.value < 0.0 then Some(Negative(field))
    else None
  }

  /** The rule for amount and total. */
  function RequiredAmount(field: string, v: Option<Json>): (m: Option<string>)
    ensures m.None? <==> IsNonNegativeAmount(v)
  {
    if IsNullish(v) then Some(Required(field)) else AmountShape(field, v.value)
  }

  /** The rule for discount: absent and null are accepted. */
  function OptionalAmount(field: string, v: Option<Json>): (m: Option<string>)
    ensures m.None? <==> IsNullish(v) || IsNonNegativeAmount(v)
  {
    if IsNullish(v) then None else AmountShape(field, v.value)
  }

  /** The message list a rule contributes to. */
  function Emit(m: Option<string>): (r: seq<string>)
    ensures |r| <= 1
    ensures r == [] <==> m.None?
    ensures m.Some? ==> r[0] == m.value
  {
    if m.Some? then [m.value] else []
  }

  // ---------------------------------------------------------------------------
  // The validators

  /** The errors validatePartnerA reports for a payload. */
  function PartnerAErrors(p: Json): (errs: seq<string>)
    ensures errs == [] <==> WellFormedA(p)
    ensures 1 <= |errs| <= 3 || errs == []
  {
    if !IsObjectLike(p) then [NotAnObject]
    else
      Emit(RequiredText("skuId", Get(p, "skuId")))
      + Emit(TransactionTimeRule(Get(p, "transactionTimeMs")))
      + Emit(RequiredAmount("amount", Get(p, "amount")))
  }

  /** The errors validatePartnerB reports for a payload. */
  function PartnerBErrors(p: Json): (errs: seq<string>)
    ensures errs == [] <==> WellFormedB(p)
    ensures |errs| <= 4
  {
    if !IsObjectLike(p) then [NotAnObject]
    else
      Emit(RequiredText("itemCode", Get(p, "itemCode")))
      + Emit(PurchaseTimeRule(Get(p, "purchaseTime")))
      + Emit(RequiredAmount("total", Get(p, "total")))
      + Emit(OptionalAmount("discount", Get(p, "discount")))
  }

  method ValidatePartnerA(payload: Json) returns (result: ValidationResult)
    ensures result.errors == PartnerAErrors(payload)
    ensures result.isValid <==> result.errors == []
  {
    if !IsObjectLike(payload) {
      return ValidationResult(false, [NotAnObject]);
    }
    var errors: seq<string> := [];
    errors := CheckText(errors, "skuId", Get(payload, "skuId"));
    errors := CheckTransactionTime(errors, Get(payload, "transactionTimeMs"));
    errors := CheckAmount(errors, "amount", Get(payload, "amount"));
    result := ValidationResult(|errors| == 0, errors);
  }

  method ValidatePartnerB(payload: Json) returns (result: ValidationResult)
    ensures result.errors == PartnerBErrors(payload)
    ensures result.isValid <==> result.errors == []
  {
    if !IsObjectLike(payload) {
      return ValidationResult(false, [NotAnObject]);
    }
    var errors: seq<string> := [];
    errors := CheckText(errors, "itemCode", Get(payload, "itemCode"));
    errors := CheckPurchaseTime(errors, Get(payload, "purchaseTime"));
    errors := CheckAmount(errors, "total", Get(payload, "total"));
    errors := CheckDiscount(errors, Get(payload, "discount"));
    result := ValidationResult(|errors| == 0, errors);
  }

  // The per-field blocks of the validators: each pushes at most one message.

  /** The skuId and itemCode block. */
  method CheckText(errors: seq<string>, field: string, v: Option<Json>) returns (out: seq<string>)
    ensures out == errors + Emit(RequiredText(field, v))
  {
    out := errors;
    if !Truthy(v) {
      out := out + [Required(field)];
    } else if !v.value.JStr? || IsBlank(v.value.s) {
      out := out + [NotText(field)];
    }
  }

  method CheckTransactionTime(errors: seq<string>, v: Option<Json>) returns (out: seq<string>)
    ensures out == errors + Emit(TransactionTimeRule(v))
  {
    out := errors;
    if IsNullish(v) {
      out := out + [Required("transactionTimeMs")];
    } else if !v.value.JNum? || !v.value.n.Finite? || !IsInteger(v.value.n.value) || v.value.n.value <= 0.0 {
      out := out + [NotPositiveInteger];
    }
  }

  method CheckPurchaseTime(errors: seq<string>, v: Option<Json>) returns (out: seq<string>)
    ensures out == errors + Emit(PurchaseTimeRule(v))
  {
    out := errors;
    if !Truthy(v) {
      out := out + [Required("purchaseTime")];
    } else if !v.value.JStr? || IsBlank(v.value.s) {
      out := out + [NotText("purchaseTime")];
    } else if !MatchesTimestamp(v.value.s) {
      out := out + [NotTimestamp];
    }
  }

  /** The amount and total block. */
  method CheckAmount(errors: seq<string>, field: string, v: Option<Json>) returns (out: seq<string>)
    ensures out == errors + Emit(RequiredAmount(field, v))
  {
    out := errors;
    if IsNullish(v) {
      out := out + [Required(field)];
    } else if !v.value.JNum? || !v.value.n.Finite? {
      out := out + [NotANumber(field)];
    } else if v.value.n.value < 0.0 {
      out := out + [Negative(field)];
    }
  }

  method CheckDiscount(errors: seq<string>, v: Option<Json>) returns (out: seq<string>)
    ensures out == errors + Emit(OptionalAmount("discount", v))
  {
    out := errors;
    if !IsNullish(v) {
      if !v.value.JNum? || !v.value.n.Finite? {
        out := out + [NotANumber("discount")];
      } else if v.value.n.value < 0.0 {
        out := out + [Negative("discount")];
      }
    }
  }

  /** The typed view of a payload that passed validatePartnerA. */
  function AsPartnerAEvent(p: Json): (e: PartnerAEvent)
    requires WellFormedA(p)
    ensures e.transactionTimeMs > 0
    ensures e.transactionTimeMs as real == Get(p, "transactionTimeMs").value.n.value
    ensures e.amount >= 0.0
    ensures Get(p, "skuId") == Some(JStr(e.skuId)) && Get(p, "amount") == Some(JNum(Finite(e.amount)))
  {
    PartnerAEvent(Get(p, "skuId").value.s, Get(p, "transactionTimeMs").value.n.value.Floor, Get(p, "amount").value.n.value)
  }

  /** The typed view of a payload that passed validatePartnerB. */
  function AsPartnerBEvent(p: Json): (e: PartnerBEvent)
    requires WellFormedB(p)
    ensures MatchesTimestamp(e.purchaseTime)
    ensures e.total >= 0.0
    ensures e.discount.Some? ==> e.discount.value >= 0.0
    ensures e.discount.None? <==> IsNullish(Get(p, "discount"))
    ensures Get(p, "itemCode") == Some(JStr(e.itemCode)) && Get(p, "purchaseTime") == Some(JStr(e.purchaseTime))
    ensures Get(p, "total") == Some(JNum(Finite(e.total)))
    ensures e.discount.Some? ==> Get(p, "discount") == Some(JNum(Finite(e.discount.value)))
  {
    var d := Get(p, "discount");
    PartnerBEvent(
      Get(p, "itemCode").value.s,
      Get(p, "purchaseTime").value.s,
      Get(p, "total").value.n.value,
      if IsNullish(d) then None else Some(d.value.n.value))
  }

  // ---------------------------------------------------------------------------
  // Properties of the validators

  /** 1 for a rule that fails, 0 for one that passes. */
  function Failing(passes: bool): nat
  {
    if passes then 0 else 1
  }

  /** The message a skuId or itemCode gets: missing or falsy, else not a non-blank string. */
  lemma TextMessages(field: string, v: Option<Json>)
    ensures !Truthy(v) ==> RequiredText(field, v) == Some(Required(field))
    ensures Truthy(v) && !IsText(v) ==> RequiredText(field, v) == Some(NotText(field))
  {
  }

  /** The message transactionTimeMs gets: nullish, else anything but a positive integer. */
  lemma TransactionTimeMessages(v: Option<Json>)
    ensures IsNullish(v) ==> TransactionTimeRule(v) == Some(Required("transactionTimeMs"))
    ensures !IsNullish(v) && !IsPositiveInteger(v) ==> TransactionTimeRule(v) == Some(NotPositiveInteger)
  {
  }

  /** The message purchaseTime gets: falsy, else not a non-blank string, else off the pattern. */
  lemma PurchaseTimeMessages(v: Option<Json>)
    ensures !Truthy(v) ==> PurchaseTimeRule(v) == Some(Required("purchaseTime"))
    ensures Truthy(v) && !IsText(v) ==> PurchaseTimeRule(v) == Some(NotText("purchaseTime"))
    ensures IsText(v) && !MatchesTimestamp(v.value.s) ==> PurchaseTimeRule(v) == Some(NotTimestamp)
  {
  }

  /**
   * The message amount, total or discount gets: nullish (not for discount), else a
   * non-number, NaN or an infinity, else a negative number.
   */
  lemma AmountMessages(field: string, v: Option<Json>)
    ensures IsNullish(v) ==> RequiredAmount(field, v) == Some(Required(field))
    ensures !IsNullish(v) && !IsFiniteNumber(v.value) ==>
              RequiredAmount(field, v) == Some(NotANumber(field)) && OptionalAmount(field, v) == Some(NotANumber(field))
    ensures !IsNullish(v) && IsFiniteNumber(v.value) && v.value.n.value < 0.0 ==>
              RequiredAmount(field, v) == Some(Negative(field)) && OptionalAmount(field, v) == Some(Negative(field))
  {
  }

  /**
   * validatePartnerA does not stop at the first failure: every failing field adds its
   * own message, so the list is exactly as long as the number of failing fields.
   */
  lemma PartnerAReportsEveryField(p: Json)
    requires IsObjectLike(p)
    ensures |PartnerAErrors(p)| == Failing(IsText(Get(p, "skuId"))) + Failing(IsPositiveInteger(Get(p, "transactionTimeMs")))
                                   + Failing(IsNonNegativeAmount(Get(p, "amount")))
    ensures RequiredText("skuId", Get(p, "skuId")).Some? ==>
              RequiredText("skuId", Get(p, "skuId")).value in PartnerAErrors(p)
    ensures TransactionTimeRule(Get(p, "transactionTimeMs")).Some? ==>
              TransactionTimeRule(Get(p, "transactionTimeMs")).value in PartnerAErrors(p)
    ensures RequiredAmount("amount", Get(p, "amount")).Some? ==>
              RequiredAmount("amount", Get(p, "amount")).value in PartnerAErrors(p)
  {
  }

  /** validatePartnerB likewise reports every failing field, each with its own message. */
  lemma PartnerBReportsEveryField(p: Json)
    requires IsObjectLike(p)
    ensures |PartnerBErrors(p)| == Failing(IsText(Get(p, "itemCode"))) + Failing(IsTimestamp(Get(p, "purchaseTime")))
                                   + Failing(IsNonNegativeAmount(Get(p, "total")))
                                   + Failing(IsNullish(Get(p, "discount")) || IsNonNegativeAmount(Get(p, "discount")))
    ensures RequiredText("itemCode", Get(p, "itemCode")).Some? ==>
              RequiredText("itemCode", Get(p, "itemCode")).value in PartnerBErrors(p)
    ensures PurchaseTimeRule(Get(p, "purchaseTime")).Some? ==>
              PurchaseTimeRule(Get(p, "purchaseTime")).value in PartnerBErrors(p)
    ensures RequiredAmount("total", Get(p, "total")).Some? ==>
              RequiredAmount("total", Get(p, "total")).value in PartnerBErrors(p)
    ensures OptionalAmount("discount", Get(p, "discount")).Some? ==>
              OptionalAmount("discount", Get(p, "discount")).value in PartnerBErrors(p)
  {
  }

  /** A timestamp starts with a digit, so it is never blank. */
  lemma TimestampNotBlank(v: Json)
    ensures v.JStr? && MatchesTimestamp(v.s) ==> !IsBlank(v.s)
  {
    if v.JStr? && MatchesTimestamp(v.s) {
      assert TimestampSlot(v.s, 0);
      assert !IsJsWhitespace(v.s[0]);
    }
  }

  /** A falsy or non-object payload is rejected with exactly one message, for both partners. */
  lemma NonObjectRejected(p: Json)
    requires !IsObjectLike(p)
    ensures PartnerAErrors(p) == [NotAnObject] && PartnerBErrors(p) == [NotAnObject]
  {
  }

  /** An array is an object to `typeof`, so it passes the first check and fails every required field. */
  lemma ArrayGetsFieldErrors(items: seq<Json>)
    ensures PartnerAErrors(JArray(items)) == ["skuId is required", "transactionTimeMs is required", "amount is required"]
    ensures PartnerBErrors(JArray(items)) == ["itemCode is required", "purchaseTime is required", "total is required"]
  {
    assert Required("skuId") == "skuId is required";
    assert Required("transactionTimeMs") == "transactionTimeMs is required";
    assert Required("amount") == "amount is required";
    assert Required("itemCode") == "itemCode is required";
    assert Required("purchaseTime") == "purchaseTime is required";
    assert Required("total") == "total is required";
  }

  /** Messages come in field order: the skuId message, if any, is first. */
  lemma SkuIdMessageFirst(p: Json)
    requires IsObjectLike(p) && !IsText(Get(p, "skuId"))
    ensures PartnerAErrors(p)[0] == RequiredText("skuId", Get(p, "skuId")).value
  {
  }

  /** An empty skuId is falsy, so it is reported as missing rather than as an empty string. */
  lemma EmptySkuIdIsRequired(p: Json)
    requires IsObjectLike(p) && Get(p, "skuId") == Some(JStr(""))
    ensures PartnerAErrors(p)[0] == "skuId is required"
  {
    assert Required("skuId") == "skuId is required";
  }

  /** A whitespace-only skuId is truthy, so it gets the non-empty-string message. */
  lemma BlankSkuIdIsNotText(p: Json, s: string)
    requires IsObjectLike(p) && Get(p, "skuId") == Some(JStr(s)) && s != "" && IsBlank(s)
    ensures PartnerAErrors(p)[0] == "skuId must be a non-empty string"
  {
    assert RequiredText("skuId", Get(p, "skuId")) == Some(NotText("skuId"));
    assert NotText("skuId") == "skuId must be a non-empty string";
  }

  /** Zero is not a positive transaction time, but zero is an acceptable amount. */
  lemma ZeroTimeRejectedZeroAmountAccepted()
    ensures TransactionTimeRule(Some(JNum(Finite(0.0)))).Some?
    ensures RequiredAmount("amount", Some(JNum(Finite(0.0)))).None?
  {
  }

  /** The format check is purely syntactic: month 99, day 99 and hour 99 pass it. */
  lemma NoRangeCheck()
    ensures MatchesTimestamp("9999-99-99 99:99:99")
  {
    var s := "9999-99-99 99:99:99";
    forall i | 0 <= i < 19
      ensures TimestampSlot(s, i)
    {
    }
  }

  /** The Partner A payload the feed tests send is accepted. */
  lemma SamplePartnerAPayloadIsValid()
    ensures PartnerAErrors(JObject(["skuId", "transactionTimeMs", "amount"], map[
      "skuId" := JStr("SKU-1001"),
      "transactionTimeMs" := JNum(Finite(1733059200123.0)),
      "amount" := JNum(Finite(25.5))])) == []
  {
    assert !IsJsWhitespace("SKU-1001"[0]);
  }
}
