/**
 * The backend voice pipeline (`AiVoiceNavigationService`): a transcript is
 * trimmed, sent with the navigation prompt to the completion gateway, and the
 * model's reply is read in two tiers: a structured JSON command, and else a
 * salvage scan of the raw text.
 */
module BackendVoice {
  import opened Wrappers
  import opened JsText
  import opened Json
  import opened Completion
  import opened Salvage
  import Gateway = BackendGateway

  /** `VoiceResponseDto`: `type` with the `data` fields that type carries. */
  datatype VoiceResponse =
    | Text(message: string)
    | Navigate(path: string, pathMessage: Option<string>)
    | Error(error: string)

  const EmptyTranscriptError: string := "Transcript kosong terdeteksi"
  const ProcessingError: string := "Error memproses transkripsi"
  const InvalidReplyError: string := "Response dari Kolosal AI tidak valid"
  const NoTextError: string := "Tidak ada teks yang diterima dari AI"
  const EmptyFallbackText: string := "Respon kosong"

  /** The backend's navigation system prompt; its wording is not modelled. */
  const NavigationSystemPrompt: string

  /**
   * The request `processWithAI` sends for a transcript: the navigation prompt
   * as the system message, the transcript as the one user message, model
   * `gpt-3.5-turbo`, temperature 0.3, at most 500 tokens, no streaming.
   */
  function CompletionRequestFor(transcript: string): (r: CompletionRequest)
    ensures r.messages == [ChatMessage(System, NavigationSystemPrompt), ChatMessage(User, transcript)]
    ensures r.model == Some("gpt-3.5-turbo") && r.temperature == Some(0.3)
    ensures r.maxTokens == Some(500) && r.stream == Some(false)
  {
    CompletionRequest(
      Some("gpt-3.5-turbo"),
      [ChatMessage(System, NavigationSystemPrompt), ChatMessage(User, transcript)],
      Some(0.3), Some(500), Some(false))
  }

  /** `extractNavigationFromText`: the salvage tier. */
  function ExtractNavigationFromText(text: string): (r: VoiceResponse)
    ensures !r.Error?
    ensures r.Navigate? <==> MentionsNavigation(text) && PathCapture(text).Some?
    ensures r.Navigate? ==>
      r.path != [] && NoQuote(r.path) && r.path == PathCapture(text).value && r.pathMessage == MessageCapture(text)
    ensures r.Text? ==> r.message == if Trim(text) == [] then EmptyFallbackText else Trim(text)
  {
    if MentionsNavigation(text) && PathCapture(text).Some? then
      Navigate(PathCapture(text).value, MessageCapture(text))
    else
      var cleaned := Trim(text);
      if cleaned == [] then Text(EmptyFallbackText) else Text(cleaned)
  }

  /** `obj && typeof obj === 'object' && 'action' in obj && 'response' in obj`, with the given action and an object response. */
  predicate IsCommandObject(v: Json, action: string) {
    IsObjectValue(v) && HasKey(v, "action") && HasKey(v, "response")
    && v.fields["action"] == JString(action) && IsObjectValue(v.fields["response"])
  }

  /** The structured tier: the command a parsed value stands for, or `None` when the text must be salvaged. */
  function StructuredTier(v: Json): (r: Option<VoiceResponse>)
    ensures r.Some? && r.value.Navigate? <==>
      IsCommandObject(v, "navigation") && GetString(v.fields["response"], "path").Some?
    ensures r.Some? && r.value.Navigate? ==>
      r.value == Navigate(GetString(v.fields["response"], "path").value, GetString(v.fields["response"], "message"))
    ensures r.Some? && r.value.Text? <==>
      IsCommandObject(v, "text") && GetString(v.fields["response"], "message").Some?
    ensures r.Some? && r.value.Text? ==> r.value == Text(GetString(v.fields["response"], "message").value)
    ensures r.Some? ==> !r.value.Error?
  {
    if IsObjectValue(v) && HasKey(v, "action") && HasKey(v, "response") then
      var action := v.fields["action"];
      var response := v.fields["response"];
      if action != JString("text") && action != JString("navigation") then None
      else if !IsObjectValue(response) then None
      else if action == JString("navigation") && GetString(response, "path").Some? then
        Some(Navigate(GetString(response, "path").value, GetString(response, "message")))
      else if action == JString("text") && GetString(response, "message").Some? then
        Some(Text(GetString(response, "message").value))
      else None
    else None
  }

  /**
   * `parseNavigationResponse`: the trimmed reply is first read as a
   * structured command; a reply that does not decode, or decodes to something
   * that is not a usable command, goes to `extractNavigationFromText`.
   */
  function ParseNavigationResponse(content: string, decode: Decoder): (r: VoiceResponse)
    ensures !r.Error?
    ensures Trim(content) == [] ==> r == Text([])
    ensures Trim(content) != [] && decode(Trim(content)).Some? && StructuredTier(decode(Trim(content)).value).Some? ==>
      r == StructuredTier(decode(Trim(content)).value).value
  {
    ReadTrimmed(Trim(content), decode)
  }

  /** `parseNavigationResponse` once the reply has been trimmed to `cleaned`. */
  function ReadTrimmed(cleaned: string, decode: Decoder): (r: VoiceResponse)
    ensures !r.Error?
    ensures cleaned == [] ==> r == Text([])
    ensures cleaned != [] && decode(cleaned).Some? && StructuredTier(decode(cleaned).value).Some? ==>
      r == StructuredTier(decode(cleaned).value).value
  {
    if cleaned == [] then Text(cleaned)
    else match decode(cleaned)
      case None => ExtractNavigationFromText(cleaned)
      case Some(v) =>
        match StructuredTier(v)
        case Some(command) => command
        case None => ExtractNavigationFromText(cleaned)
  }

  /**
   * Every navigation target comes from the model's reply: either the `path`
   * string of a well-formed navigation command, or the leftmost
   * `"path": "…"` capture of a reply that mentions navigation.
   */
  lemma NavigationPathOrigin(content: string, decode: Decoder)
    requires ParseNavigationResponse(content, decode).Navigate?
    ensures var r := ParseNavigationResponse(content, decode);
      var cleaned := Trim(content);
      (decode(cleaned).Some? && IsCommandObject(decode(cleaned).value, "navigation")
        && GetString(decode(cleaned).value.fields["response"], "path") == Some(r.path))
      || (MentionsNavigation(cleaned) && PathCapture(cleaned) == Some(r.path))
  {
  }

  /** A reply that is not JSON, or is JSON but not a usable command, is read by the salvage tier. */
  lemma UnstructuredReplySalvaged(content: string, decode: Decoder)
    requires Trim(content) != []
    requires decode(Trim(content)).None? || StructuredTier(decode(Trim(content)).value).None?
    ensures ParseNavigationResponse(content, decode) == ExtractNavigationFromText(Trim(content))
  {
  }

  /** Whitespace around the reply never changes how it is read. */
  lemma ParseIgnoresSurroundingSpace(content: string, decode: Decoder)
    ensures ParseNavigationResponse(Trim(content), decode) == ParseNavigationResponse(content, decode)
  {
    TrimIdempotent(content);
  }

  /**
   * The structured tier accepts any string path, the empty one included:
   * a reply `{"action":"navigation","response":{"path":""}}` navigates to `""`.
   */
  lemma StructuredEmptyPathAccepted(content: string, decode: Decoder)
    requires Trim(content) != []
    requires decode(Trim(content)) == Some(JObject(map["action" := JString("navigation"), "response" := JObject(map["path" := JString("")])]))
    ensures ParseNavigationResponse(content, decode) == Navigate("", None)
  {
    var response := JObject(map["path" := JString("")]);
    var v := JObject(map["action" := JString("navigation"), "response" := response]);
    assert v.fields["action"] == JString("navigation");
    assert v.fields["response"] == response;
    assert GetString(response, "path") == Some("");
    assert "message" !in response.fields;
    assert StructuredTier(v) == Some(Navigate("", None));
  }

  /**
   * `processWithAI` after the gateway answered: a gateway failure is
   * rethrown, a reply without a first message is an error, an empty message
   * is an error, and anything else is parsed.
   */
  function ProcessWithAI(reply: Result<CompletionBody, Gateway.HttpError>, decode: Decoder): (r: Result<VoiceResponse, Gateway.HttpError>)
    ensures r.Err? <==> reply.Err?
    ensures reply.Ok? && (!reply.value.success || FirstMessage(reply.value).None?) ==> r == Ok(Error(InvalidReplyError))
    ensures reply.Ok? && reply.value.success && FirstMessage(reply.value).Some? ==>
      var text := Trim(FirstMessage(reply.value).value.content);
      r == Ok(if text == [] then Error(NoTextError) else ParseNavigationResponse(text, decode))
  {
    match reply
    case Err(e) => Err(e)
    case Ok(body) =>
      if !body.success || FirstMessage(body).None? then Ok(Error(InvalidReplyError))
      else
        var aiMessage := Trim(FirstMessage(body).value.content);
        if aiMessage == [] then Ok(Error(NoTextError)) else Ok(ParseNavigationResponse(aiMessage, decode))
  }

  /** What the voice endpoint answered, and the completion request it sent (`None`: no call was made). */
  datatype VoiceOutcome = VoiceOutcome(response: VoiceResponse, sent: Option<CompletionRequest>)

  /** `processVoiceCommand`, with the gateway's POST outcome as input. */
  function ProcessVoiceCommand(transcript: string, post: Gateway.PostOutcome, decode: Decoder): (o: VoiceOutcome)
    ensures o.sent.None? <==> Trim(transcript) == []
    ensures o.sent.Some? ==> o.sent.value == CompletionRequestFor(Trim(transcript))
    ensures Trim(transcript) == [] ==> o.response == Error(EmptyTranscriptError)
    ensures Trim(transcript) != [] && Gateway.SendCompletion(post).Err? ==> o.response == Error(ProcessingError)
    ensures o.response.Error? ==> o.response.error in {EmptyTranscriptError, ProcessingError, InvalidReplyError, NoTextError}
  {
    var trimmed := Trim(transcript);
    if trimmed == [] then VoiceOutcome(Error(EmptyTranscriptError), None)
    else
      var request := CompletionRequestFor(trimmed);
      match ProcessWithAI(Gateway.SendCompletion(post), decode)
      case Err(_) => VoiceOutcome(Error(ProcessingError), Some(request))
      case Ok(response) => VoiceOutcome(response, Some(request))
  }

  /** When the gateway delivers a body, the endpoint answers with what `processWithAI` makes of it. */
  lemma GatewayReplyProcessed(transcript: string, post: Gateway.PostOutcome, decode: Decoder)
    requires Trim(transcript) != [] && Gateway.SendCompletion(post).Ok?
    ensures ProcessVoiceCommand(transcript, post, decode).response == ProcessWithAI(Gateway.SendCompletion(post), decode).value
  {
  }

  /**
   * A provider body with `success: false` never yields the "invalid reply"
   * error: the gateway already turned it into an exception, so the endpoint
   * answers with the processing error.
   */
  lemma UnsuccessfulBodyIsProcessingError(transcript: string, body: CompletionBody, decode: Decoder)
    requires Trim(transcript) != [] && !body.success
    ensures ProcessVoiceCommand(transcript, Gateway.Delivered(body), decode).response == Error(ProcessingError)
  {
  }

  /** A successful reply with a non-blank first message is answered by parsing that message; never with an error. */
  lemma ValidReplyParsed(transcript: string, body: CompletionBody, decode: Decoder)
    requires Trim(transcript) != [] && body.success && FirstMessage(body).Some?
    requires Trim(FirstMessage(body).value.content) != []
    ensures var o := ProcessVoiceCommand(transcript, Gateway.Delivered(body), decode);
      o.response == ParseNavigationResponse(FirstMessage(body).value.content, decode) && !o.response.Error?
  {
    ParseIgnoresSurroundingSpace(FirstMessage(body).value.content, decode);
  }

  /** A blank transcript gets the same answer whatever the gateway would have done. */
  lemma BlankTranscriptIndependentOfGateway(transcript: string, p: Gateway.PostOutcome, q: Gateway.PostOutcome, decode: Decoder)
    requires AllSpace(transcript)
    ensures ProcessVoiceCommand(transcript, p, decode) == ProcessVoiceCommand(transcript, q, decode)
    ensures ProcessVoiceCommand(transcript, p, decode).response == Error(EmptyTranscriptError)
  {
    TrimEmptyIff(transcript);
  }
}
