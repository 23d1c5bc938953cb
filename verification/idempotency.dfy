/**
 * Idempotency helpers: the key a client sends in a request header, and the
 * content hash of a payload. JSON.stringify and SHA-256 are foreign code: they
 * are passed in as functions, and only their determinism matters here.
 */
module Idempotency {
  import opened Wrappers
  import opened Json

  /** A request header value: one string, or the list Node keeps for a repeated header. */
  datatype HeaderValue = HStr(s: string) | HList(items: seq<string>)

  const StandardHeader: string := "idempotency-key"
  const AlternativeHeader: string := "x-idempotency-key"

  function Header(headers: map<string, HeaderValue>, name: string): Option<HeaderValue>
  {
    if name in headers then Some(headers[name]) else None
  }

  /** JavaScript truthiness of a header: a missing header and "" are falsy, every array is truthy. */
  predicate HeaderTruthy(v: Option<HeaderValue>)
  {
    v.Some? && (v.value.HStr? ==> v.value.s != "")
  }

  /** The key a header value yields: a string as it is, the first element of a non-empty list. */
  predicate Carries(v: HeaderValue, key: string)
  {
    v == HStr(key) || (v.HList? && |v.items| > 0 && v.items[0] == key)
  }

  /** extractIdempotencyKey: the standard header if truthy, else the alternative one. */
  function ExtractIdempotencyKey(headers: map<string, HeaderValue>): (key: Option<string>)
    ensures key.Some? ==>
              (HeaderTruthy(Header(headers, StandardHeader)) && Carries(headers[StandardHeader], key.value))
              || (!HeaderTruthy(Header(headers, StandardHeader)) && AlternativeHeader in headers
                  && Carries(headers[AlternativeHeader], key.value))
    ensures key.None? ==>
              if HeaderTruthy(Header(headers, StandardHeader)) then headers[StandardHeader] == HList([])
              else AlternativeHeader !in headers || headers[AlternativeHeader] == HList([])
  {
    var standard := Header(headers, StandardHeader);
    var chosen := if HeaderTruthy(standard) then standard else Header(headers, AlternativeHeader);
    match chosen
    case Some(HStr(s)) => Some(s)
    case Some(HList(items)) => if |items| > 0 then Some(items[0]) else None
    case None => None
  }

  /** A truthy standard header decides the result whatever the alternative header holds. */
  lemma StandardHeaderWins(headers: map<string, HeaderValue>, alternative: HeaderValue)
    requires HeaderTruthy(Header(headers, StandardHeader))
    ensures ExtractIdempotencyKey(headers[AlternativeHeader := alternative]) == ExtractIdempotencyKey(headers)
  {
  }

  /** A non-empty string in the standard header is returned unchanged. */
  lemma StringKeyUnchanged(headers: map<string, HeaderValue>, key: string)
    requires StandardHeader in headers && headers[StandardHeader] == HStr(key) && key != ""
    ensures ExtractIdempotencyKey(headers) == Some(key)
  {
  }

  /** An empty list in the standard header is truthy, so the alternative header is never consulted. */
  lemma EmptyListBlocksFallback(headers: map<string, HeaderValue>)
    requires StandardHeader in headers && headers[StandardHeader] == HList([])
    ensures ExtractIdempotencyKey(headers) == None
  {
  }

  /**
   * An empty standard header is falsy: the result is what the headers give without
   * it, so a string in the alternative header is returned as is, even "".
   */
  lemma EmptyStringFallsThrough(headers: map<string, HeaderValue>)
    requires StandardHeader in headers && headers[StandardHeader] == HStr("")
    ensures ExtractIdempotencyKey(headers) == ExtractIdempotencyKey(headers - {StandardHeader})
    ensures AlternativeHeader in headers && headers[AlternativeHeader].HStr? ==>
              ExtractIdempotencyKey(headers) == Some(headers[AlternativeHeader].s)
  {
  }

  /** generateContentHash: SHA-256 (hex) of the payload's JSON text. */
  function GenerateContentHash(payload: Json, stringify: Json -> string, sha256: string -> string): string
  {
    sha256(stringify(payload))
  }

  /** Payloads that serialise to the same text, key order included, get the same hash. */
  lemma SameTextSameHash(p: Json, q: Json, stringify: Json -> string, sha256: string -> string)
    requires stringify(p) == stringify(q)
    ensures GenerateContentHash(p, stringify, sha256) == GenerateContentHash(q, stringify, sha256)
  {
  }
}
