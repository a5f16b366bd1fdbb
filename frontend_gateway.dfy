/**
 * The frontend's Kolosal client (`KolosalAPIClient`): configuration
 * checks, `sendCompletion` over `fetch`, and the classifier that rewrites
 * any failure into a user-facing message. The `fetch` call is an input:
 * what it resolved or rejected with.
 */
module FrontendGateway {
  import opened Wrappers
  import opened JsText
  import opened Json
  import opened FetchErrors
  import ApiKeyFormat
  import KeywordRules

  const MissingKeyMessage: string := "Kolosal API Key tidak ditemukan. Pastikan VITE_KOLOSAL_API_KEY sudah diatur di file .env.local"
  const BadKeyMessage: string := "Format Kolosal API Key tidak valid. Pastikan menggunakan API key yang benar."
  const DefaultApiUrl: string := "https://api.kolosal.dev/v1/completions"
  const ProviderErrorMessage: string := "Kolosal API mengembalikan error"
  const TimeoutMessage: string := "Request timeout. Silakan coba lagi."
  const UnreachableMessage: string := "Tidak dapat terhubung ke server. Periksa koneksi internet Anda."
  const UnauthorizedMessage: string := "API Key tidak valid atau kadaluarsa. Periksa konfigurasi API key Anda."
  const QuotaMessage: string := "Kuota API telah habis. Silakan tambah kuota atau coba lagi nanti."
  const RateLimitMessage: string := "Permintaan terlalu cepat. Silakan tunggu sebentar dan coba lagi."
  const ModelMissingMessage: string := "Model yang diminta tidak tersedia. Gunakan model yang valid."
  const BadRequestMessage: string := "Permintaan tidak valid. Periksa format data yang dikirim."
  const UpstreamMessage: string := "Terjadi kesalahan di server. Silakan coba lagi nanti."
  const NetworkMessage: string := "Permintaan jaringan gagal. Periksa koneksi internet Anda."

  /** `getApiKey`: `VITE_KOLOSAL_API_KEY`, present, non-empty and well formed. */
  function GetApiKey(configured: Option<string>): (r: Result<string, JsError>)
    ensures r.Ok? <==> configured.Some? && ApiKeyFormat.IsValidApiKey(configured.value)
    ensures r.Ok? ==> r.value == configured.value
    ensures (configured.None? || configured == Some("")) ==> r == Err(PlainError(MissingKeyMessage))
    ensures r.Err? ==> r.error == PlainError(MissingKeyMessage) || r.error == PlainError(BadKeyMessage)
  {
    match configured
    case None => Err(PlainError(MissingKeyMessage))
    case Some(key) =>
      if key == [] then Err(PlainError(MissingKeyMessage))
      else if !ApiKeyFormat.IsValidApiKey(key) then Err(PlainError(BadKeyMessage))
      else Ok(key)
  }

  /**
   * `getApiUrl`: `VITE_KOLOSAL_API_URL || DefaultApiUrl`. `parsesAsUrl` stands
   * for `new URL(url)` not throwing, and `parseErrorText` for the text of the
   * `TypeError` it throws, which the message appends.
   */
  function GetApiUrl(configured: Option<string>, parsesAsUrl: string -> bool, parseErrorText: string): (r: Result<string, JsError>)
    ensures var url := OrElse(configured, DefaultApiUrl);
      (r.Ok? <==> parsesAsUrl(url)) && (r.Ok? ==> r.value == url)
      && (r.Err? ==> r.error == PlainError("Invalid API URL format: " + url + ". Pastikan URL diawali dengan http:// atau https://, " + parseErrorText))
  {
    var url := OrElse(configured, DefaultApiUrl);
    if parsesAsUrl(url) then Ok(url)
    else Err(PlainError("Invalid API URL format: " + url + ". Pastikan URL diawali dengan http:// atau https://, " + parseErrorText))
  }

  /** Whether `getApiUrl` logs the missing-`/v1/` warning for the URL it returned. */
  predicate WarnsMissingV1(url: string) {
    !Contains(url, "/v1/")
  }

  /** Any of the message patterns the classifier rewrites. */
  predicate Classified(e: JsError) {
    e.name == "AbortError" || e.name == "TimeoutError"
    || Contains(e.message, "Failed to fetch") || Contains(e.message, "Unauthorized")
    || Contains(e.message, "insufficient_quota") || Contains(e.message, "rate_limit")
    || Contains(e.message, "model_not_found") || Contains(e.message, "invalid_request")
    || Contains(e.message, "server_error") || Contains(e.message, "net::ERR_CONNECTION")
    || Contains(e.message, "network") || Contains(e.message, "timeout")
  }

  /** The catch block of `sendCompletion`: the first pattern that matches picks the message; anything else is rethrown. */
  function ClassifyError(e: JsError): (r: JsError)
    ensures !Classified(e) ==> r == e
    ensures Classified(e) ==>
      r.name == "Error" && r.message in
        {TimeoutMessage, UnreachableMessage, UnauthorizedMessage, QuotaMessage, RateLimitMessage,
         ModelMissingMessage, BadRequestMessage, UpstreamMessage, NetworkMessage}
    ensures e.name == "AbortError" ==> r == PlainError(TimeoutMessage)
  {
    if e.name == "AbortError" then PlainError(TimeoutMessage)
    else if Contains(e.message, "Failed to fetch") then PlainError(UnreachableMessage)
    else if Contains(e.message, "Unauthorized") then PlainError(UnauthorizedMessage)
    else if Contains(e.message, "insufficient_quota") then PlainError(QuotaMessage)
    else if Contains(e.message, "rate_limit") then PlainError(RateLimitMessage)
    else if Contains(e.message, "model_not_found") then PlainError(ModelMissingMessage)
    else if Contains(e.message, "invalid_request") then PlainError(BadRequestMessage)
    else if Contains(e.message, "server_error") then PlainError(UpstreamMessage)
    else if Contains(e.message, "net::ERR_CONNECTION") || Contains(e.message, "Failed to fetch") || Contains(e.message, "network") then
      PlainError(NetworkMessage)
    else if Contains(e.message, "timeout") || e.name == "TimeoutError" then PlainError(TimeoutMessage)
    else e
  }

  /** Whether test `k` of the catch block, counted from 0 in source order, fires on `e`. */
  predicate RuleFires(k: nat, e: JsError) {
    if k == 0 then e.name == "AbortError"
    else if k == 1 then Contains(e.message, "Failed to fetch")
    else if k == 2 then Contains(e.message, "Unauthorized")
    else if k == 3 then Contains(e.message, "insufficient_quota")
    else if k == 4 then Contains(e.message, "rate_limit")
    else if k == 5 then Contains(e.message, "model_not_found")
    else if k == 6 then Contains(e.message, "invalid_request")
    else if k == 7 then Contains(e.message, "server_error")
    else if k == 8 then Contains(e.message, "net::ERR_CONNECTION") || Contains(e.message, "Failed to fetch") || Contains(e.message, "network")
    else if k == 9 then Contains(e.message, "timeout") || e.name == "TimeoutError"
    else false
  }

  /** The message each of the ten tests throws, in the same order. */
  const RuleMessages: seq<string> := [
    TimeoutMessage, UnreachableMessage, UnauthorizedMessage, QuotaMessage, RateLimitMessage,
    ModelMissingMessage, BadRequestMessage, UpstreamMessage, NetworkMessage, TimeoutMessage]

  /** An error is rewritten exactly when one of the ten tests fires. */
  lemma ClassifiedIffSomeRule(e: JsError)
    ensures Classified(e) <==> exists k :: 0 <= k < 10 && RuleFires(k, e)
  {
    if Classified(e) {
      if e.name == "AbortError" { assert RuleFires(0, e); }
      else if e.name == "TimeoutError" { assert RuleFires(9, e); }
      else if Contains(e.message, "Failed to fetch") { assert RuleFires(1, e); }
      else if Contains(e.message, "Unauthorized") { assert RuleFires(2, e); }
      else if Contains(e.message, "insufficient_quota") { assert RuleFires(3, e); }
      else if Contains(e.message, "rate_limit") { assert RuleFires(4, e); }
      else if Contains(e.message, "model_not_found") { assert RuleFires(5, e); }
      else if Contains(e.message, "invalid_request") { assert RuleFires(6, e); }
      else if Contains(e.message, "server_error") { assert RuleFires(7, e); }
      else if Contains(e.message, "timeout") { assert RuleFires(9, e); }
      else { assert RuleFires(8, e); }
    }
  }

  /**
   * The classifier is a first-match table: when test `k` fires and no
   * earlier test does, the error becomes test `k`'s message.
   */
  lemma ClassifyFirstMatch(e: JsError, k: nat)
    requires k < 10 && RuleFires(k, e)
    requires forall j :: 0 <= j < k ==> !RuleFires(j, e)
    ensures ClassifyError(e) == PlainError(RuleMessages[k])
  {
    if k > 0 { assert !RuleFires(0, e); }
    if k > 1 { assert !RuleFires(1, e); }
    if k > 2 { assert !RuleFires(2, e); }
    if k > 3 { assert !RuleFires(3, e); }
    if k > 4 { assert !RuleFires(4, e); }
    if k > 5 { assert !RuleFires(5, e); }
    if k > 6 { assert !RuleFires(6, e); }
    if k > 7 { assert !RuleFires(7, e); }
    if k > 8 { assert !RuleFires(8, e); }
  }

  /** When no test fires, the error is rethrown unchanged. */
  lemma ClassifyNoMatch(e: JsError)
    requires forall k :: 0 <= k < 10 ==> !RuleFires(k, e)
    ensures ClassifyError(e) == e
  {
    ClassifiedIffSomeRule(e);
  }

  /**
   * The `Failed to fetch` alternative of the network group never decides:
   * that text is caught by the connection rule first. The network message
   * is produced only for `net::ERR_CONNECTION` or `network`, and only when no
   * earlier pattern matched.
   */
  lemma NetworkGroupShadowed(e: JsError)
    requires Classified(e) && ClassifyError(e) == PlainError(NetworkMessage)
    ensures !Contains(e.message, "Failed to fetch") && e.name != "AbortError"
    ensures Contains(e.message, "net::ERR_CONNECTION") || Contains(e.message, "network")
  {
    assert |NetworkMessage| != |TimeoutMessage| && |NetworkMessage| != |UnreachableMessage|;
  }

  /** A connection failure reported by `fetch` is the unreachable message, whatever else the text says. */
  lemma FailedFetchIsUnreachable(e: JsError)
    requires e.name != "AbortError" && Contains(e.message, "Failed to fetch")
    ensures ClassifyError(e) == PlainError(UnreachableMessage)
  {
  }

  /** The provider's quota error and rate limiting are told apart when only one of them is named. */
  lemma QuotaBeforeRateLimit(e: JsError)
    requires e.name != "AbortError" && !Contains(e.message, "Failed to fetch") && !Contains(e.message, "Unauthorized")
    requires Contains(e.message, "insufficient_quota")
    ensures ClassifyError(e) == PlainError(QuotaMessage)
  {
  }

  /** `data.success`, read as JavaScript reads it: a missing key is `undefined`, which is false. */
  predicate ReportsSuccess(data: Json) {
    Get(data, "success").Some? && Truthy(Get(data, "success").value)
  }

  /** `data.error || ProviderErrorMessage`, as the message `new Error` is given. */
  function ProviderError(data: Json): (r: string)
    ensures GetString(data, "error").Some? && GetString(data, "error").value != [] ==> r == GetString(data, "error").value
    ensures Get(data, "error").None? || !Truthy(Get(data, "error").value) ==> r == ProviderErrorMessage
  {
    match Get(data, "error")
    case Some(v) => if Truthy(v) then Display(v) else ProviderErrorMessage
    case None => ProviderErrorMessage
  }

  /**
   * What `sendCompletion` ended with: the parsed body or the error it threw,
   * and whether `fetch` was called. The abort timer is cleared on every
   * path, so it needs no field.
   */
  datatype SendResult = SendResult(result: Result<Json, JsError>, fetched: bool)

  /**
   * The body the `try` block returns, or the error it throws, before the
   * classifier: the URL error, else the key error, else what `fetch`
   * rejected with; for a non-OK response `Kolosal API error: ` and the
   * response's error text. For an OK one, `response.json()` throws
   * `syntaxError` on a body that is not JSON, reading `data.success` of a
   * `null` body throws `nullRead`, a body without a truthy `success` throws
   * `ProviderError(data)`, and any other body is returned as it was parsed.
   */
  function SendAttempt(
    apiUrl: Option<string>, apiKey: Option<string>, parsesAsUrl: string -> bool, parseErrorText: string,
    outcome: FetchOutcome, decode: Decoder, syntaxError: JsError, nullRead: JsError): (r: Result<Json, JsError>)
    ensures GetApiUrl(apiUrl, parsesAsUrl, parseErrorText).Err? ==> r == Err(GetApiUrl(apiUrl, parsesAsUrl, parseErrorText).error)
    ensures GetApiUrl(apiUrl, parsesAsUrl, parseErrorText).Ok? && GetApiKey(apiKey).Err? ==> r == Err(GetApiKey(apiKey).error)
    ensures GetApiUrl(apiUrl, parsesAsUrl, parseErrorText).Ok? && GetApiKey(apiKey).Ok? ==>
      (outcome.Rejected? ==> r == Err(outcome.error))
      && (outcome.Responded? && !outcome.response.ok ==>
            r == Err(PlainError("Kolosal API error: " + ErrorText(outcome.response, decode, "error", "message"))))
    ensures r.Ok? ==>
      (outcome.Responded? && outcome.response.ok && outcome.response.body.Some?
       && decode(outcome.response.body.value) == Some(r.value) && ReportsSuccess(r.value))
    ensures (outcome.Responded? && outcome.response.ok
       && GetApiUrl(apiUrl, parsesAsUrl, parseErrorText).Ok? && GetApiKey(apiKey).Ok?) ==>
        (outcome.response.body.None? || decode(outcome.response.body.value).None? ==> r == Err(syntaxError))
        && (outcome.response.body.Some? && decode(outcome.response.body.value) == Some(JNull) ==> r == Err(nullRead))
    ensures (outcome.Responded? && outcome.response.ok && outcome.response.body.Some?
       && decode(outcome.response.body.value).Some? && !decode(outcome.response.body.value).value.JNull?
       && GetApiUrl(apiUrl, parsesAsUrl, parseErrorText).Ok? && GetApiKey(apiKey).Ok?) ==>
        var data := decode(outcome.response.body.value).value;
        r == if ReportsSuccess(data) then Ok(data) else Err(PlainError(ProviderError(data)))
  {
    match GetApiUrl(apiUrl, parsesAsUrl, parseErrorText)
    case Err(e) => Err(e)
    case Ok(_) =>
      match GetApiKey(apiKey)
      case Err(e) => Err(e)
      case Ok(_) =>
        match outcome
        case Rejected(e) => Err(e)
        case Responded(response) =>
          if !response.ok then
            Err(PlainError("Kolosal API error: " + ErrorText(response, decode, "error", "message")))
          else
            var parsed := if response.body.Some? then decode(response.body.value) else None;
            match parsed
            case None => Err(syntaxError)
            case Some(JNull) => Err(nullRead)
            case Some(data) =>
              if !ReportsSuccess(data) then Err(PlainError(ProviderError(data))) else Ok(data)
  }

  /**
   * `sendCompletion`. `decode` is `response.json()`'s parser, `syntaxError`
   * is what `response.json()` throws on a body that is not JSON, and
   * `nullRead` is the `TypeError` of reading a field of `null`.
   */
  function SendCompletion(
    apiUrl: Option<string>, apiKey: Option<string>, parsesAsUrl: string -> bool, parseErrorText: string,
    outcome: FetchOutcome, decode: Decoder, syntaxError: JsError, nullRead: JsError): (s: SendResult)
    ensures s.fetched <==> parsesAsUrl(OrElse(apiUrl, DefaultApiUrl)) && GetApiKey(apiKey).Ok?
    ensures s.result.Ok? ==> s.fetched && ReportsSuccess(s.result.value)
    ensures s.result.Ok? <==> SendAttempt(apiUrl, apiKey, parsesAsUrl, parseErrorText, outcome, decode, syntaxError, nullRead).Ok?
    ensures s.result.Err? ==>
      s.result.error == ClassifyError(SendAttempt(apiUrl, apiKey, parsesAsUrl, parseErrorText, outcome, decode, syntaxError, nullRead).error)
  {
    var fetched := GetApiUrl(apiUrl, parsesAsUrl, parseErrorText).Ok? && GetApiKey(apiKey).Ok?;
    match SendAttempt(apiUrl, apiKey, parsesAsUrl, parseErrorText, outcome, decode, syntaxError, nullRead)
    case Ok(body) => SendResult(Ok(body), fetched)
    case Err(e) => SendResult(Err(ClassifyError(e)), fetched)
  }

  /**
   * A non-OK response reaches the caller as its error text behind
   * `Kolosal API error: `, rewritten by the first test that fires on it.
   */
  lemma FailedResponseClassified(apiUrl: Option<string>, apiKey: Option<string>, parsesAsUrl: string -> bool, parseErrorText: string,
    response: FetchResponse, decode: Decoder, syntaxError: JsError, nullRead: JsError)
    requires parsesAsUrl(OrElse(apiUrl, DefaultApiUrl)) && GetApiKey(apiKey).Ok? && !response.ok
    ensures SendCompletion(apiUrl, apiKey, parsesAsUrl, parseErrorText, Responded(response), decode, syntaxError, nullRead).result
      == Err(ClassifyError(PlainError("Kolosal API error: " + ErrorText(response, decode, "error", "message"))))
  {
  }

  /**
   * A 401 whose JSON body says `{"error": "Unauthorized"}` is reported as a
   * bad or expired key.
   */
  lemma UnauthorizedResponse(apiUrl: Option<string>, apiKey: Option<string>, parsesAsUrl: string -> bool, parseErrorText: string,
    response: FetchResponse, decode: Decoder, syntaxError: JsError, nullRead: JsError)
    requires parsesAsUrl(OrElse(apiUrl, DefaultApiUrl)) && GetApiKey(apiKey).Ok?
    requires response == FetchResponse(false, 401, "Unauthorized", Some("{\"error\":\"Unauthorized\"}"))
    requires decode("{\"error\":\"Unauthorized\"}") == Some(JObject(map["error" := JString("Unauthorized")]))
    ensures SendCompletion(apiUrl, apiKey, parsesAsUrl, parseErrorText, Responded(response), decode, syntaxError, nullRead).result
      == Err(PlainError(UnauthorizedMessage))
  {
    var data := JObject(map["error" := JString("Unauthorized")]);
    assert Get(data, "error") == Some(JString("Unauthorized"));
    assert ErrorText(response, decode, "error", "message") == "Unauthorized";
    var e := PlainError("Kolosal API error: " + "Unauthorized");
    UnauthorizedFires(e);
    ClassifyFirstMatch(e, 2);
  }

  /** The message of a non-OK response whose error text is `Unauthorized` fires the third test and no earlier one. */
  lemma UnauthorizedFires(e: JsError)
    requires e == PlainError("Kolosal API error: " + "Unauthorized")
    ensures !RuleFires(0, e) && !RuleFires(1, e) && RuleFires(2, e)
  {
    UnauthorizedText("Kolosal API error: " + "Unauthorized");
  }

  /** The message names `Unauthorized` and has no `F`, so it cannot contain `Failed to fetch`. */
  lemma UnauthorizedText(m: string)
    requires m == "Kolosal API error: " + "Unauthorized"
    ensures Contains(m, "Unauthorized") && !Contains(m, "Failed to fetch")
  {
    assert m[19..31] == "Unauthorized";
    assert OccursAt(m, 19, "Unauthorized");
    assert forall i :: 0 <= i < |m| ==> m[i] != 'F';
    KeywordRules.AbsentCharacter(m, "Failed to fetch", 'F');
  }

  /**
   * An OK response whose body does not report success reaches the caller as
   * the body's own error text (or the fixed provider message), rewritten by
   * the first test that fires on it; a body with no `success` key at all is
   * such a body.
   */
  lemma UnsuccessfulBodyClassified(apiUrl: Option<string>, apiKey: Option<string>, parsesAsUrl: string -> bool, parseErrorText: string,
    response: FetchResponse, decode: Decoder, syntaxError: JsError, nullRead: JsError)
    requires parsesAsUrl(OrElse(apiUrl, DefaultApiUrl)) && GetApiKey(apiKey).Ok? && response.ok && response.body.Some?
    requires decode(response.body.value).Some? && !decode(response.body.value).value.JNull?
    requires !ReportsSuccess(decode(response.body.value).value)
    ensures SendCompletion(apiUrl, apiKey, parsesAsUrl, parseErrorText, Responded(response), decode, syntaxError, nullRead).result
      == Err(ClassifyError(PlainError(ProviderError(decode(response.body.value).value))))
  {
  }

  /**
   * An OK reply of `{"error": "insufficient_quota"}`, with no `success` key,
   * is reported as an exhausted quota.
   */
  lemma QuotaReplyWithoutSuccess(apiUrl: Option<string>, apiKey: Option<string>, parsesAsUrl: string -> bool, parseErrorText: string,
    response: FetchResponse, decode: Decoder, syntaxError: JsError, nullRead: JsError)
    requires parsesAsUrl(OrElse(apiUrl, DefaultApiUrl)) && GetApiKey(apiKey).Ok? && response.ok && response.body.Some?
    requires decode(response.body.value) == Some(JObject(map["error" := JString("insufficient_quota")]))
    ensures SendCompletion(apiUrl, apiKey, parsesAsUrl, parseErrorText, Responded(response), decode, syntaxError, nullRead).result
      == Err(PlainError(QuotaMessage))
  {
    var data := JObject(map["error" := JString("insufficient_quota")]);
    assert !ReportsSuccess(data);
    assert ProviderError(data) == "insufficient_quota";
    QuotaFires(PlainError("insufficient_quota"));
    ClassifyFirstMatch(PlainError("insufficient_quota"), 3);
  }

  /** The bare quota code fires the fourth test and none of the three before it. */
  lemma QuotaFires(e: JsError)
    requires e == PlainError("insufficient_quota")
    ensures !RuleFires(0, e) && !RuleFires(1, e) && !RuleFires(2, e) && RuleFires(3, e)
  {
    var m := e.message;
    assert OccursAt(m, 0, "insufficient_quota");
    assert forall i :: 0 <= i < |m| ==> m[i] != 'F' && m[i] != 'U';
    KeywordRules.AbsentCharacter(m, "Failed to fetch", 'F');
    KeywordRules.AbsentCharacter(m, "Unauthorized", 'U');
  }

  /** An OK reply of `null` fails when `data.success` is read, with the `TypeError` passed through the classifier. */
  lemma NullReplyClassified(apiUrl: Option<string>, apiKey: Option<string>, parsesAsUrl: string -> bool, parseErrorText: string,
    response: FetchResponse, decode: Decoder, syntaxError: JsError, nullRead: JsError)
    requires parsesAsUrl(OrElse(apiUrl, DefaultApiUrl)) && GetApiKey(apiKey).Ok? && response.ok && response.body.Some?
    requires decode(response.body.value) == Some(JNull)
    ensures SendCompletion(apiUrl, apiKey, parsesAsUrl, parseErrorText, Responded(response), decode, syntaxError, nullRead).result
      == Err(ClassifyError(nullRead))
  {
  }

  /**
   * A bad configuration is reported without any network call: the URL is
   * checked first, then the key, and only then is `fetch` called.
   */
  lemma ConfigurationCheckedBeforeFetch(apiUrl: Option<string>, apiKey: Option<string>, parsesAsUrl: string -> bool, parseErrorText: string,
    outcome: FetchOutcome, decode: Decoder, syntaxError: JsError, nullRead: JsError)
    ensures var s := SendCompletion(apiUrl, apiKey, parsesAsUrl, parseErrorText, outcome, decode, syntaxError, nullRead);
      var url := GetApiUrl(apiUrl, parsesAsUrl, parseErrorText);
      (url.Err? ==> !s.fetched && s.result == Err(ClassifyError(url.error)))
      && (url.Ok? && GetApiKey(apiKey).Err? ==> !s.fetched && s.result == Err(ClassifyError(GetApiKey(apiKey).error)))
  {
  }
}
