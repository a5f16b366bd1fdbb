/**
 * The backend's Kolosal gateway (`KolosalApiService`): configuration checks,
 * `sendCompletion`, and the mapping of transport failures to HTTP errors.
 * The HTTP POST itself is an input: what axios reported.
 */
module BackendGateway {
  import opened Wrappers
  import opened JsText
  import opened Completion
  import ApiKeyFormat

  /** A Nest `HttpException`: status and message. */
  datatype HttpError = HttpError(status: nat, message: string)

  const MissingKeyMessage: string := "Kolosal API Key tidak ditemukan. Pastikan KOLOSAL_API_KEY sudah diatur di environment variables"
  const BadKeyMessage: string := "Format Kolosal API Key tidak valid. Pastikan menggunakan API key yang benar."
  const DefaultApiUrl: string := "https://api.kolosal.dev/v1/completions"
  const CommunicationMessage: string := "Terjadi kesalahan saat berkomunikasi dengan Kolosal API"
  const TimeoutMessage: string := "Request timeout. Silakan coba lagi."
  const UnreachableMessage: string := "Tidak dapat terhubung ke server. Periksa koneksi internet Anda."
  const UnauthorizedMessage: string := "API Key tidak valid atau kadaluarsa. Periksa konfigurasi API key Anda."
  const RateLimitMessage: string := "Permintaan terlalu cepat. Silakan tunggu sebentar dan coba lagi."
  const ModelMissingMessage: string := "Model yang diminta tidak tersedia. Gunakan model yang valid."
  const BadRequestMessage: string := "Permintaan tidak valid. Periksa format data yang dikirim."
  const UpstreamMessage: string := "Terjadi kesalahan di server. Silakan coba lagi nanti."
  const NetworkMessage: string := "Permintaan jaringan gagal. Periksa koneksi internet Anda."

  /** `getApiKey`: the configured `KOLOSAL_API_KEY`, which must be present, non-empty and well formed. */
  function GetApiKey(configured: Option<string>): (r: Result<string, HttpError>)
    ensures r.Ok? <==> configured.Some? && ApiKeyFormat.IsValidApiKey(configured.value)
    ensures r.Ok? ==> r.value == configured.value
    ensures (configured.None? || configured == Some("")) ==> r == Err(HttpError(500, MissingKeyMessage))
    ensures r.Err? ==> r.error.status == 500 && (r.error.message == MissingKeyMessage || r.error.message == BadKeyMessage)
  {
    match configured
    case None => Err(HttpError(500, MissingKeyMessage))
    case Some(key) =>
      if key == [] then Err(HttpError(500, MissingKeyMessage))
      else if !ApiKeyFormat.IsValidApiKey(key) then Err(HttpError(500, BadKeyMessage))
      else Ok(key)
  }

  /** The URL `getApiUrl` returns, and whether it logs the missing-`/v1/` warning. */
  datatype ApiUrl = ApiUrl(url: string, warnsMissingV1: bool)

  /**
   * `getApiUrl`: `KOLOSAL_API_URL || DefaultApiUrl`. `parsesAsUrl` stands for
   * `new URL(url)` not throwing.
   */
  function GetApiUrl(configured: Option<string>, parsesAsUrl: string -> bool): (r: Result<ApiUrl, HttpError>)
    ensures var url := OrElse(configured, DefaultApiUrl);
      (r.Ok? <==> parsesAsUrl(url))
      && (r.Ok? ==> r.value.url == url && (r.value.warnsMissingV1 <==> !Contains(url, "/v1/")))
      && (r.Err? ==> r.error == HttpError(500, "Invalid API URL format: " + url + ". Pastikan URL diawali dengan http:// atau https://"))
  {
    var url := OrElse(configured, DefaultApiUrl);
    if parsesAsUrl(url) then Ok(ApiUrl(url, !Contains(url, "/v1/")))
    else Err(HttpError(500, "Invalid API URL format: " + url + ". Pastikan URL diawali dengan http:// atau https://"))
  }

  /** The default URL already has the `/v1/` segment, so it never draws the warning. */
  lemma DefaultUrlHasV1(parsesAsUrl: string -> bool)
    requires parsesAsUrl(DefaultApiUrl)
    ensures GetApiUrl(None, parsesAsUrl) == Ok(ApiUrl(DefaultApiUrl, false))
  {
    assert OccursAt(DefaultApiUrl, 23, "/v1/");
  }

  /** The `data` of an error response, as far as it is read: its `error` and `message` strings. */
  datatype ErrorBody = ErrorBody(error: Option<string>, message: Option<string>)

  datatype AxiosResponse = AxiosResponse(status: nat, data: Option<ErrorBody>)

  datatype AxiosError = AxiosError(code: Option<string>, message: string, response: Option<AxiosResponse>)

  /** What `axiosInstance.post` did: resolved with a body, rejected with an axios error, or threw something else. */
  datatype PostOutcome = Delivered(body: CompletionBody) | AxiosFailure(failure: AxiosError) | OtherFailure

  /** `data?.error || data?.message || error.message` */
  function UpstreamDetail(e: AxiosError, data: Option<ErrorBody>): string {
    if data.Some? then OrElse(data.value.error, OrElse(data.value.message, e.message)) else e.message
  }

  /** `handleAxiosError`: the HTTP error an axios failure becomes. */
  function HandleAxiosError(e: AxiosError): (r: HttpError)
    ensures e.code == Some("ECONNABORTED") ==> r == HttpError(408, TimeoutMessage)
    ensures e.code != Some("ECONNABORTED") && (Contains(e.message, "ECONNREFUSED") || Contains(e.message, "ENOTFOUND")) ==>
      r == HttpError(503, UnreachableMessage)
    ensures r.status in {401, 429, 404, 400, 502, 408, 503}
      || (e.response.Some? && r.status == e.response.value.status && 400 < r.status < 500 && r.status !in {401, 404, 429})
      || (e.response.Some? && r.status == e.response.value.status && r.status < 400)
  {
    if e.code == Some("ECONNABORTED") then HttpError(408, TimeoutMessage)
    else if Contains(e.message, "ECONNREFUSED") || Contains(e.message, "ENOTFOUND") then HttpError(503, UnreachableMessage)
    else if e.response.Some? then
      var status := e.response.value.status;
      var detail := UpstreamDetail(e, e.response.value.data);
      if status == 401 then HttpError(401, UnauthorizedMessage)
      else if status == 429 then HttpError(429, RateLimitMessage)
      else if status == 404 then HttpError(404, ModelMissingMessage)
      else if status == 400 then HttpError(400, BadRequestMessage)
      else if status >= 500 then HttpError(502, UpstreamMessage)
      else HttpError(status, "Kolosal API error: " + detail)
    else HttpError(503, NetworkMessage)
  }

  /**
   * The upstream's own error text reaches the caller only for a response
   * whose status is not 400, 401, 404, 429 or 5xx; every 5xx becomes 502.
   */
  lemma UpstreamStatusMapping(e: AxiosError)
    requires e.code != Some("ECONNABORTED") && !Contains(e.message, "ECONNREFUSED") && !Contains(e.message, "ENOTFOUND")
    ensures e.response.None? ==> HandleAxiosError(e) == HttpError(503, NetworkMessage)
    ensures e.response.Some? && e.response.value.status >= 500 ==> HandleAxiosError(e) == HttpError(502, UpstreamMessage)
    ensures e.response.Some? && e.response.value.status !in {400, 401, 404, 429} && e.response.value.status < 500 ==>
      HandleAxiosError(e) == HttpError(e.response.value.status, "Kolosal API error: " + UpstreamDetail(e, e.response.value.data))
  {
  }

  /** A refused or unresolvable host is reported as unreachable whatever the response says, unless it timed out. */
  lemma ConnectionFailureWins(e: AxiosError, status: nat, data: Option<ErrorBody>)
    requires e.code != Some("ECONNABORTED")
    requires Contains(e.message, "ECONNREFUSED") || Contains(e.message, "ENOTFOUND")
    ensures HandleAxiosError(e) == HttpError(503, UnreachableMessage)
    ensures HandleAxiosError(e.(response := Some(AxiosResponse(status, data)))) == HandleAxiosError(e.(response := None))
  {
  }

  /**
   * The four client-error statuses the gateway knows get their fixed messages,
   * whatever the upstream body says, once neither a timeout nor a connection
   * failure was reported.
   */
  lemma KnownStatusMessages(e: AxiosError)
    requires e.code != Some("ECONNABORTED") && !Contains(e.message, "ECONNREFUSED") && !Contains(e.message, "ENOTFOUND")
    requires e.response.Some? && e.response.value.status in {401, 429, 404, 400}
    ensures var status := e.response.value.status;
      HandleAxiosError(e).status == status
      && HandleAxiosError(e).message
        == (if status == 401 then UnauthorizedMessage else if status == 429 then RateLimitMessage
            else if status == 404 then ModelMissingMessage else BadRequestMessage)
  {
  }

  /**
   * Conversely, each of those four statuses comes only from an upstream
   * response with that status, and always with its fixed message.
   */
  lemma KnownStatusesFromUpstream(e: AxiosError)
    requires HandleAxiosError(e).status in {401, 429, 404, 400}
    ensures var r := HandleAxiosError(e);
      e.code != Some("ECONNABORTED") && e.response.Some? && e.response.value.status == r.status
      && (r.status == 401 ==> r.message == UnauthorizedMessage) && (r.status == 429 ==> r.message == RateLimitMessage)
      && (r.status == 404 ==> r.message == ModelMissingMessage) && (r.status == 400 ==> r.message == BadRequestMessage)
  {
  }

  /**
   * `sendCompletion`: the body when the provider reports success. A body with
   * `success: false` raises an `HttpException` inside the `try`; it is not an
   * axios error, so the `catch` replaces it by the generic 500.
   */
  function SendCompletion(outcome: PostOutcome): (r: Result<CompletionBody, HttpError>)
    ensures r.Ok? <==> outcome.Delivered? && outcome.body.success
    ensures r.Ok? ==> r.value == outcome.body
    ensures outcome.Delivered? && !outcome.body.success ==> r == Err(HttpError(500, CommunicationMessage))
    ensures outcome.OtherFailure? ==> r == Err(HttpError(500, CommunicationMessage))
    ensures outcome.AxiosFailure? ==> r == Err(HandleAxiosError(outcome.failure))
  {
    match outcome
    case Delivered(body) =>
      if !body.success then Err(HttpError(500, CommunicationMessage)) else Ok(body)
    case AxiosFailure(e) => Err(HandleAxiosError(e))
    case OtherFailure => Err(HttpError(500, CommunicationMessage))
  }

  /** The provider's `error` text of an unsuccessful body never reaches the caller. */
  lemma ProviderErrorTextDiscarded(body: CompletionBody, text: string)
    requires !body.success
    ensures SendCompletion(Delivered(body)) == SendCompletion(Delivered(body.(error := Some(text))))
  {
  }
}
