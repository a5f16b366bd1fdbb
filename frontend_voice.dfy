/**
 * The frontend's own voice pipeline (`VoiceService`): it asks the model to
 * classify the transcript as `{"type": …, "response": …}`, copies what comes
 * back, and on any failure falls back to a keyword matcher.
 */
module FrontendVoice {
  import opened Wrappers
  import opened JsText
  import opened Json
  import opened Completion
  import opened FetchErrors
  import VoiceRoutes

  /**
   * The `VoiceResponse` the service resolves with. `kind` and `message` are
   * whatever the model's JSON held under `type` and `response` (`None` is
   * `undefined`), so neither is checked against the declared union.
   */
  datatype VoiceReply = VoiceReply(kind: Option<Json>, message: Option<Json>, path: Option<Json>, error: Option<string>)

  const TextKind: Json := JString("text")
  const NavigateKind: Json := JString("navigate")
  const ErrorKind: Json := JString("error")

  const EmptyTranscriptError: string := "Transcript kosong terdeteksi"
  const InvalidReplyError: string := "Response dari AI tidak valid"
  const FallbackText: string := "Saya mengerti perintah Anda."

  /** The opening of the classification prompt, up to the quoted transcript. */
  const VoicePromptLead: string := "Tentukan tipe response untuk perintah berikut: \""
  /** The rest of the prompt after the transcript: the format and the rules given to the model. */
  const VoicePromptTail: string

  const NavigationKeywords: seq<string> := ["navigate", "go to", "open", "show", "buka", "pergi ke", "tampilkan"]

  /** The request `processWithAI` sends: one user message, temperature 0.3, at most 100 tokens, no model and no streaming. */
  function VoiceRequest(transcript: string): (q: CompletionRequest)
    ensures |q.messages| == 1 && q.messages[0].role == User
    ensures q.messages[0].content == VoicePromptLead + transcript + VoicePromptTail
    ensures q.model.None? && q.stream.None? && q.temperature == Some(0.3) && q.maxTokens == Some(100)
  {
    CompletionRequest(None, [ChatMessage(User, VoicePromptLead + transcript + VoicePromptTail)], Some(0.3), Some(100), None)
  }

  /** `isNavigationCommand`: the lower-cased transcript contains one of the keywords. */
  predicate IsNavigationCommand(transcript: string) {
    exists k :: 0 <= k < |NavigationKeywords| && Contains(ToLower(transcript), NavigationKeywords[k])
  }

  /** `extractNavigationPath`: the first keyword group found picks the route; `/dashboard` otherwise. */
  function ExtractNavigationPath(transcript: string): (r: string)
    ensures var l := ToLower(transcript);
      (r == "/dashboard/analytics" <==> !Contains(l, "dashboard") && (Contains(l, "analytics") || Contains(l, "analisis")))
      && (r == "/dashboard/reports" <==>
            !Contains(l, "dashboard") && !Contains(l, "analytics") && !Contains(l, "analisis")
            && (Contains(l, "report") || Contains(l, "laporan")))
      && (r == "/dashboard" || r == "/dashboard/analytics" || r == "/dashboard/reports")
  {
    var l := ToLower(transcript);
    if Contains(l, "dashboard") then "/dashboard"
    else if Contains(l, "analytics") || Contains(l, "analisis") then "/dashboard/analytics"
    else if Contains(l, "report") || Contains(l, "laporan") then "/dashboard/reports"
    else "/dashboard"
  }

  /** The reply of the outer catch block, computed from the transcript as the caller passed it. */
  function Fallback(transcript: string): (r: VoiceReply)
    ensures r.error.None?
    ensures IsNavigationCommand(transcript) ==>
      r.kind == Some(NavigateKind) && r.path == Some(JString(ExtractNavigationPath(transcript)))
      && r.message == Some(JString("Berhasil menuju " + ExtractNavigationPath(transcript)))
    ensures !IsNavigationCommand(transcript) ==>
      r == VoiceReply(Some(TextKind), Some(JString(FallbackText)), None, None)
  {
    if IsNavigationCommand(transcript) then
      var path := ExtractNavigationPath(transcript);
      VoiceReply(Some(NavigateKind), Some(JString("Berhasil menuju " + path)), Some(JString(path)), None)
    else
      VoiceReply(Some(TextKind), Some(JString(FallbackText)), None, None)
  }

  /**
   * How a parsed reply is copied: `type` and `response` as they are, and
   * `response` again as the path when `type` is exactly `"navigate"`.
   * `null` has no properties, so reading one throws and the reply counts as
   * plain text.
   */
  function ReplyFromJson(aiMessage: string, parsed: Option<Json>): (r: VoiceReply)
    ensures r.error.None?
    ensures (parsed.None? || parsed == Some(JNull)) ==> r == VoiceReply(Some(TextKind), Some(JString(aiMessage)), None, None)
    ensures parsed.Some? && !parsed.value.JNull? ==>
      r.kind == Get(parsed.value, "type") && r.message == Get(parsed.value, "response")
      && (r.path.Some? <==> r.kind == Some(NavigateKind) && r.message.Some?)
      && (r.path.Some? ==> r.path == r.message)
  {
    match parsed
    case None => VoiceReply(Some(TextKind), Some(JString(aiMessage)), None, None)
    case Some(JNull) => VoiceReply(Some(TextKind), Some(JString(aiMessage)), None, None)
    case Some(v) =>
      var kind := Get(v, "type");
      var message := Get(v, "response");
      VoiceReply(kind, message, if kind == Some(NavigateKind) then message else None, None)
  }

  /**
   * `processWithAI` once the client has answered: a failure is rethrown, a
   * body without success or without a first message is invalid, and
   * otherwise the trimmed content is parsed.
   */
  function ProcessWithAI(reply: Result<CompletionBody, JsError>, decode: Decoder): (r: Result<VoiceReply, JsError>)
    ensures reply.Err? ==> r == Err(reply.error)
    ensures reply.Ok? && (!reply.value.success || FirstMessage(reply.value).None?) ==> r == Err(PlainError(InvalidReplyError))
    ensures r.Ok? <==> reply.Ok? && reply.value.success && FirstMessage(reply.value).Some?
    ensures r.Ok? ==>
      var aiMessage := Trim(FirstMessage(reply.value).value.content);
      r.value == ReplyFromJson(aiMessage, decode(aiMessage))
  {
    match reply
    case Err(e) => Err(e)
    case Ok(body) =>
      if !body.success || FirstMessage(body).None? then Err(PlainError(InvalidReplyError))
      else
        var aiMessage := Trim(FirstMessage(body).value.content);
        Ok(ReplyFromJson(aiMessage, decode(aiMessage)))
  }

  /** What one call of `sendVoiceMessage` resolves with and which request, if any, it sent. */
  datatype VoiceOutcome = VoiceOutcome(reply: VoiceReply, sent: Option<CompletionRequest>)

  /**
   * `sendVoiceMessage`. `reply` is what `kolosalAPIClient.sendCompletion`
   * settled with for the request sent; it is not consulted for a blank
   * transcript.
   */
  function SendVoiceMessage(transcript: string, reply: Result<CompletionBody, JsError>, decode: Decoder): (o: VoiceOutcome)
    ensures o.sent.None? <==> Trim(transcript) == []
    ensures o.sent.None? ==> o.reply == VoiceReply(Some(ErrorKind), None, None, Some(EmptyTranscriptError))
    ensures o.sent.Some? ==> o.sent.value == VoiceRequest(Trim(transcript))
    ensures o.sent.Some? && ProcessWithAI(reply, decode).Ok? ==> o.reply == ProcessWithAI(reply, decode).value
    ensures o.sent.Some? && ProcessWithAI(reply, decode).Err? ==> o.reply == Fallback(transcript)
  {
    var trimmed := Trim(transcript);
    if trimmed == [] then
      VoiceOutcome(VoiceReply(Some(ErrorKind), None, None, Some(EmptyTranscriptError)), None)
    else
      match ProcessWithAI(reply, decode)
      case Ok(r) => VoiceOutcome(r, Some(VoiceRequest(trimmed)))
      case Err(_) => VoiceOutcome(Fallback(transcript), Some(VoiceRequest(trimmed)))
  }

  /**
   * Of the three routes the fallback can pick, only `/dashboard` is in the
   * application's route table: `/dashboard/analytics` and
   * `/dashboard/reports` are not routes.
   */
  lemma FallbackRoutesAvailability(transcript: string)
    ensures VoiceRoutes.IsAvailableRoute(ExtractNavigationPath(transcript)) <==> ExtractNavigationPath(transcript) == "/dashboard"
  {
  }

  /**
   * A failed call to the model, or a reply without success or without a
   * message, still answers: never with an error, and with a navigation
   * exactly when a keyword is present.
   */
  lemma FailureFallsBack(transcript: string, reply: Result<CompletionBody, JsError>, decode: Decoder)
    requires Trim(transcript) != []
    requires reply.Err? || !reply.value.success || FirstMessage(reply.value).None?
    ensures var o := SendVoiceMessage(transcript, reply, decode);
      o.reply.error.None? && o.reply.kind != Some(ErrorKind)
      && (o.reply.path.Some? <==> IsNavigationCommand(transcript))
      && (o.reply.kind == Some(NavigateKind) <==> IsNavigationCommand(transcript))
  {
    assert ProcessWithAI(reply, decode).Err?;
  }

  /**
   * The `type` field is copied without validation: a reply whose JSON is an
   * object gives back its `type` value, whatever it is.
   */
  lemma KindCopiedUnchecked(transcript: string, body: CompletionBody, decode: Decoder, fields: map<string, Json>)
    requires Trim(transcript) != [] && body.success && FirstMessage(body).Some?
    requires decode(Trim(FirstMessage(body).value.content)) == Some(JObject(fields))
    requires "type" in fields
    ensures SendVoiceMessage(transcript, Ok(body), decode).reply.kind == Some(fields["type"])
  {
    var aiMessage := Trim(FirstMessage(body).value.content);
    assert ProcessWithAI(Ok(body), decode) == Ok(ReplyFromJson(aiMessage, Some(JObject(fields))));
    assert Get(JObject(fields), "type") == Some(fields["type"]);
  }

  /** A model reply that is not JSON is passed on as text, trimmed. */
  lemma PlainReplyIsText(transcript: string, body: CompletionBody, decode: Decoder)
    requires Trim(transcript) != [] && body.success && FirstMessage(body).Some?
    requires decode(Trim(FirstMessage(body).value.content)).None?
    ensures SendVoiceMessage(transcript, Ok(body), decode).reply
      == VoiceReply(Some(TextKind), Some(JString(Trim(FirstMessage(body).value.content))), None, None)
  {
  }

  /** Trimming the transcript does not change whether it is a navigation command. */
  lemma NavigationCommandIgnoresTrim(transcript: string)
    ensures IsNavigationCommand(Trim(transcript)) <==> IsNavigationCommand(transcript)
  {
    forall k | 0 <= k < |NavigationKeywords|
      ensures Contains(ToLower(Trim(transcript)), NavigationKeywords[k]) <==> Contains(ToLower(transcript), NavigationKeywords[k])
    {
      KeywordInTrimmed(transcript, k);
    }
  }

  /** No keyword is empty or begins or ends with whitespace. */
  lemma KeywordEnds(k: nat)
    requires k < |NavigationKeywords|
    ensures var kw := NavigationKeywords[k]; |kw| > 0 && !IsSpace(kw[0]) && !IsSpace(kw[|kw| - 1])
  {
  }

  /**
   * The keywords have no surrounding spaces, so `isNavigationCommand` sees the
   * same thing in the raw transcript as in the trimmed one.
   */
  lemma KeywordInTrimmed(transcript: string, k: nat)
    requires k < |NavigationKeywords|
    ensures Contains(ToLower(Trim(transcript)), NavigationKeywords[k]) <==> Contains(ToLower(transcript), NavigationKeywords[k])
  {
    KeywordEnds(k);
    var a := TrimShape(transcript);
    var t := Trim(transcript);
    OccurrenceInTrimmed(transcript, a, t, NavigationKeywords[k]);
  }

  /** A pattern without surrounding whitespace occurs in the whole string exactly when it occurs in its non-blank middle. */
  lemma OccurrenceInTrimmed(s: string, a: nat, t: string, p: string)
    requires a + |t| <= |s| && s[a..a + |t|] == t
    requires AllSpace(s[..a]) && AllSpace(s[a + |t|..])
    requires |p| > 0 && !IsSpace(p[0]) && !IsSpace(p[|p| - 1])
    ensures Contains(ToLower(t), p) <==> Contains(ToLower(s), p)
  {
    if Contains(ToLower(t), p) {
      var j :| 0 <= j <= |t| - |p| && OccursAt(ToLower(t), j, p);
      OccurrenceWidens(s, a, t, p, j);
    }
    if Contains(ToLower(s), p) {
      var i :| 0 <= i <= |s| - |p| && OccursAt(ToLower(s), i, p);
      OccurrenceInside(s, a, |t|, p, i);
      OccurrenceNarrows(s, a, t, p, i);
    }
  }

  /** An occurrence in the lower-cased middle is one in the lower-cased whole. */
  lemma OccurrenceWidens(s: string, a: nat, t: string, p: string, j: nat)
    requires a + |t| <= |s| && s[a..a + |t|] == t
    requires OccursAt(ToLower(t), j, p)
    ensures OccursAt(ToLower(s), a + j, p)
  {
    var l, lt := ToLower(s), ToLower(t);
    forall m | 0 <= m < |p| ensures l[a + j..a + j + |p|][m] == p[m] {
      assert lt[j..j + |p|][m] == p[m];
      assert s[a..a + |t|][j + m] == s[a + j + m];
    }
  }

  /** An occurrence in the lower-cased whole that lies inside the middle is one in the lower-cased middle. */
  lemma OccurrenceNarrows(s: string, a: nat, t: string, p: string, i: nat)
    requires a + |t| <= |s| && s[a..a + |t|] == t
    requires OccursAt(ToLower(s), i, p) && a <= i && i + |p| <= a + |t|
    ensures OccursAt(ToLower(t), i - a, p)
  {
    var l, lt := ToLower(s), ToLower(t);
    forall m | 0 <= m < |p| ensures lt[i - a..i - a + |p|][m] == p[m] {
      assert l[i..i + |p|][m] == p[m];
      assert s[a..a + |t|][i - a + m] == s[i + m];
    }
  }

  /** An occurrence of such a pattern cannot overlap the whitespace around the middle. */
  lemma OccurrenceInside(s: string, a: nat, n: nat, p: string, i: nat)
    requires a + n <= |s| && AllSpace(s[..a]) && AllSpace(s[a + n..])
    requires |p| > 0 && !IsSpace(p[0]) && !IsSpace(p[|p| - 1])
    requires OccursAt(ToLower(s), i, p)
    ensures a <= i && i + |p| <= a + n
  {
    var l := ToLower(s);
    var last := i + |p| - 1;
    assert l[i] == l[i..i + |p|][0] == p[0];
    assert l[last] == l[i..i + |p|][|p| - 1] == p[|p| - 1];
    assert !IsSpace(s[i]) && !IsSpace(s[last]);
    assert forall m :: 0 <= m < a ==> IsSpace(s[m]) by {
      forall m | 0 <= m < a ensures IsSpace(s[m]) {
        assert s[..a][m] == s[m];
      }
    }
    assert forall m :: a + n <= m < |s| ==> IsSpace(s[m]) by {
      forall m | a + n <= m < |s| ensures IsSpace(s[m]) {
        assert s[a + n..][m - a - n] == s[m];
      }
    }
  }
}
