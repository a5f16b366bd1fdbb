/**
 * The backend and frontend copies of the reply parser, compared: where they
 * read the reply the same way, and the input on which they part.
 */
module ParserAgreement {
  import opened Wrappers
  import opened JsText
  import opened Json
  import Back = BackendVoice
  import Front = FrontendCommand

  /** The backend response and the frontend command say the same thing. */
  predicate Agree(b: Back.VoiceResponse, f: Front.NavigationCommand) {
    match b
    case Navigate(p, m) => f.action == Front.NavigationAction && f.response.path == Some(p) && f.response.message == m
    case Text(t) => f.action == Front.TextAction && f.response.message == Some(t)
    case Error(_) => false
  }

  /** The two salvage tiers read every text the same way. */
  lemma SalvageTiersAgree(text: string, now: int)
    ensures Agree(Back.ExtractNavigationFromText(text), Front.ExtractNavigationFromText(text, now))
  {
  }

  /** A reply that is blank, or not JSON at all, is read the same way by both parsers. */
  lemma ParsersAgreeOnUnstructuredReplies(content: string, decode: Decoder, now: int)
    requires Trim(content) == [] || decode(Trim(content)).None?
    ensures Agree(Back.ParseNavigationResponse(content, decode), Front.ParseNavigationResponse(content, decode, now))
  {
    SalvageTiersAgree(Trim(content), now);
  }

  /** A well-formed navigation command with a non-empty path is read the same way by both parsers. */
  lemma ParsersAgreeOnNavigationCommands(content: string, decode: Decoder, now: int, path: string, response: map<string, Json>)
    requires Trim(content) != [] && path != []
    requires "path" in response && response["path"] == JString(path)
    requires decode(Trim(content)) == Some(JObject(map["action" := JString("navigation"), "response" := JObject(response)]))
    ensures Agree(Back.ParseNavigationResponse(content, decode), Front.ParseNavigationResponse(content, decode, now))
  {
    var v := JObject(map["action" := JString("navigation"), "response" := JObject(response)]);
    assert v.fields["action"] == JString("navigation");
    assert v.fields["response"] == JObject(response);
    assert GetString(JObject(response), "path") == Some(path);
    var b := Back.StructuredTier(v);
    assert b == Some(Back.Navigate(path, GetString(JObject(response), "message")));
    var f := Front.StructuredTier(v, now);
    assert f == Some(Front.BuildCommand(Front.NavigationAction, JObject(response), now));
  }

  /**
   * Where they part: a navigation command with an empty path. The backend
   * navigates to `""`; the frontend hands the reply to its salvage tier.
   */
  lemma ParsersDisagreeOnEmptyPath(content: string, decode: Decoder, now: int)
    requires Trim(content) != []
    requires decode(Trim(content)) == Some(JObject(map["action" := JString("navigation"), "response" := JObject(map["path" := JString("")])]))
    ensures Back.ParseNavigationResponse(content, decode) == Back.Navigate("", None)
    ensures Front.ParseNavigationResponse(content, decode, now) == Front.ExtractNavigationFromText(Trim(content), now)
  {
    Back.StructuredEmptyPathAccepted(content, decode);
    var response := JObject(map["path" := JString("")]);
    var v := JObject(map["action" := JString("navigation"), "response" := response]);
    assert v.fields["action"] == JString("navigation");
    assert v.fields["response"] == response;
    assert GetString(response, "path") == Some("");
  }
}
