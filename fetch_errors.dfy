/**
 * JavaScript `Error` values, and how the two `fetch`-based clients (the
 * frontend Kolosal client and the authentication service) turn a non-OK
 * response into an error message: the `HTTP <status>: <statusText>`
 * default, replaced by a field of the JSON body, or else by the raw body
 * text.
 */
module FetchErrors {
  import opened Wrappers
  import opened JsText
  import opened Json

  /** An `Error` object: its `name` and `message`. */
  datatype JsError = JsError(name: string, message: string)

  /** `new Error(message)` */
  function PlainError(message: string): JsError {
    JsError("Error", message)
  }

  /** A `fetch` Response, as far as it is read. `body` is `None` for a response with a null body. */
  datatype FetchResponse = FetchResponse(ok: bool, status: nat, statusText: string, body: Option<string>)

  /** What a call to `fetch` did: rejected, or resolved with a response. */
  datatype FetchOutcome =
    | Rejected(error: JsError)
    | Responded(response: FetchResponse)

  /** `HTTP ${response.status}: ${response.statusText}` */
  function StatusLine(r: FetchResponse): string {
    "HTTP " + NatToString(r.status) + ": " + r.statusText
  }

  /** `String(n)` for an integer. */
  function IntToString(n: int): string {
    if n < 0 then "-" + NatToString(-n) else NatToString(n)
  }

  /** `String(v)`, as a template literal writes a parsed value. */
  function Display(v: Json): string
    decreases v
  {
    match v
    case JNull => "null"
    case JBool(b) => if b then "true" else "false"
    case JNumber(n) => IntToString(n)
    case JString(s) => s
    case JArray(items) => JoinDisplay(items)
    case JObject(_) => "[object Object]"
  }

  /** `items.join(",")`, where `null` elements print as nothing. */
  function JoinDisplay(items: seq<Json>): string
    decreases items
  {
    if items == [] then []
    else
      var head := if items[0].JNull? then [] else Display(items[0]);
      if |items| == 1 then head else head + "," + JoinDisplay(items[1..])
  }

  /** `data.<first> || data.<second> || fallback` for a parsed body that is not `null`. */
  function FirstTruthyField(data: Json, first: string, second: string, fallback: string): (r: string)
    ensures Get(data, first).Some? && Truthy(Get(data, first).value) ==> r == Display(Get(data, first).value)
  {
    var a := Get(data, first);
    var b := Get(data, second);
    if a.Some? && Truthy(a.value) then Display(a.value)
    else if b.Some? && Truthy(b.value) then Display(b.value)
    else fallback
  }

  /** The body's JSON value, when `response.json()` resolves to something other than `null`. */
  function BodyJson(r: FetchResponse, decode: Decoder): (v: Option<Json>)
    ensures v.Some? ==> r.body.Some? && decode(r.body.value) == v && !v.value.JNull?
  {
    if r.body.Some? && decode(r.body.value).Some? && !decode(r.body.value).value.JNull? then decode(r.body.value) else None
  }

  /**
   * The error text as the clients are written: `response.json()` first and,
   * when that fails (or the body is `null`, whose fields cannot be read),
   * `response.text()` on the same response. The first read has already
   * consumed the body, so for any response with a body the second read
   * rejects with a `TypeError` (`bodyUsed`), which replaces the intended
   * message. With a null body `text()` resolves to `""` and the default stays.
   */
  function ErrorTextAsWritten(r: FetchResponse, decode: Decoder, first: string, second: string, bodyUsed: JsError): Result<string, JsError> {
    match BodyJson(r, decode)
    case Some(data) => Ok(FirstTruthyField(data, first, second, StatusLine(r)))
    case None => if r.body.Some? then Err(bodyUsed) else Ok(StatusLine(r))
  }

  /**
   * The error text the clients mean to produce, reading the body once:
   * the first truthy of the two JSON fields, else the raw body text when it
   * is not empty, else the status line.
   */
  function ErrorText(r: FetchResponse, decode: Decoder, first: string, second: string): (t: string)
    ensures BodyJson(r, decode).None? && r.body.Some? && r.body.value != [] ==> t == r.body.value
    ensures BodyJson(r, decode).None? && (r.body.None? || r.body.value == []) ==> t == StatusLine(r)
    ensures BodyJson(r, decode).Some? ==> t == FirstTruthyField(BodyJson(r, decode).value, first, second, StatusLine(r))
  {
    match BodyJson(r, decode)
    case Some(data) => FirstTruthyField(data, first, second, StatusLine(r))
    case None => if r.body.Some? && r.body.value != [] then r.body.value else StatusLine(r)
  }

  /**
   * The two readings agree whenever the body is JSON (or there is no body);
   * for every other response with a body, the code as written throws the
   * body-already-read `TypeError` instead.
   */
  lemma ErrorTextReadings(r: FetchResponse, decode: Decoder, first: string, second: string, bodyUsed: JsError)
    ensures BodyJson(r, decode).Some? || r.body.None? ==>
      ErrorTextAsWritten(r, decode, first, second, bodyUsed) == Ok(ErrorText(r, decode, first, second))
    ensures BodyJson(r, decode).None? && r.body.Some? ==>
      ErrorTextAsWritten(r, decode, first, second, bodyUsed) == Err(bodyUsed)
  {
  }

  /**
   * The input that shows it: a 502 whose body is the plain text
   * `Bad Gateway` (not JSON). Intended: the message is `Bad Gateway`.
   * As written: the second read of the body fails.
   */
  lemma PlainTextBodyIsLost(decode: Decoder, bodyUsed: JsError)
    requires decode("Bad Gateway").None?
    ensures var r := FetchResponse(false, 502, "Bad Gateway", Some("Bad Gateway"));
      ErrorText(r, decode, "error", "message") == "Bad Gateway"
      && ErrorTextAsWritten(r, decode, "error", "message", bodyUsed) == Err(bodyUsed)
  {
  }
}
