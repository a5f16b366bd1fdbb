/**
 * The frontend's copy of the command parser (`kolosal-api.types.ts`): the
 * request builder and `parseNavigationResponse`, which yields a
 * `NavigationCommand` stamped with the clock.
 */
module FrontendCommand {
  import opened Wrappers
  import opened JsText
  import opened Json
  import opened Completion
  import opened Salvage

  datatype CommandAction = TextAction | NavigationAction

  /** `response` of a `NavigationCommand`; `params` is `None` where the object has no `params` key. */
  datatype CommandResponse = CommandResponse(message: Option<string>, path: Option<string>, params: Option<Json>, timestamp: int)

  datatype NavigationCommand = NavigationCommand(action: CommandAction, response: CommandResponse)

  const EmptyFallbackText: string := "Respon kosong"

  /** The frontend's navigation system prompt; its wording is not modelled. */
  const NavigationSystemPrompt: string

  /** `createVoiceCommandCompletionRequest`: the command is sent as is, untrimmed. */
  function CreateVoiceCommandCompletionRequest(userCommand: string): (r: CompletionRequest)
    ensures r.messages == [ChatMessage(System, NavigationSystemPrompt), ChatMessage(User, userCommand)]
    ensures r.model == Some("gpt-3.5-turbo") && r.temperature == Some(0.3) && r.maxTokens == Some(500) && r.stream == Some(false)
  {
    CompletionRequest(
      Some("gpt-3.5-turbo"),
      [ChatMessage(System, NavigationSystemPrompt), ChatMessage(User, userCommand)],
      Some(0.3), Some(500), Some(false))
  }

  /** `extractNavigationFromText`: the salvage tier; navigation commands carry empty `params`. */
  function ExtractNavigationFromText(text: string, now: int): (r: NavigationCommand)
    ensures r.response.timestamp == now
    ensures r.action == NavigationAction <==> MentionsNavigation(text) && PathCapture(text).Some?
    ensures r.action == NavigationAction ==>
      r.response == CommandResponse(MessageCapture(text), PathCapture(text), Some(JObject(map[])), now)
    ensures r.action == TextAction ==>
      r.response == CommandResponse(Some(if Trim(text) == [] then EmptyFallbackText else Trim(text)), None, None, now)
  {
    if MentionsNavigation(text) && PathCapture(text).Some? then
      NavigationCommand(NavigationAction, CommandResponse(MessageCapture(text), PathCapture(text), Some(JObject(map[])), now))
    else
      var cleaned := Trim(text);
      NavigationCommand(TextAction, CommandResponse(Some(if cleaned == [] then EmptyFallbackText else cleaned), None, None, now))
  }

  /** The command assembled from a well-formed `response` object. */
  function BuildCommand(action: CommandAction, response: Json, now: int): (c: NavigationCommand)
    ensures c.action == action
    ensures c.response.timestamp == GetNumber(response, "timestamp").GetOr(now)
    ensures c.response.message == GetString(response, "message") && c.response.path == GetString(response, "path")
    ensures c.response.params.Some?
    ensures Get(response, "params").Some? && IsObjectValue(Get(response, "params").value) ==> c.response.params == Get(response, "params")
    ensures !(Get(response, "params").Some? && IsObjectValue(Get(response, "params").value)) ==> c.response.params == Some(JObject(map[]))
  {
    var params := Get(response, "params");
    NavigationCommand(action, CommandResponse(
      GetString(response, "message"),
      GetString(response, "path"),
      if params.Some? && IsObjectValue(params.value) then params else Some(JObject(map[])),
      GetNumber(response, "timestamp").GetOr(now)))
  }

  /** The action a parsed command names, when it is one of the two the parser accepts. */
  function ActionOf(v: Json): Option<CommandAction> {
    if v == JString("text") then Some(TextAction)
    else if v == JString("navigation") then Some(NavigationAction)
    else None
  }

  /** The structured tier: `None` sends the text to the salvage tier. */
  function StructuredTier(v: Json, now: int): (r: Option<NavigationCommand>)
    ensures r.Some? <==>
      IsObjectValue(v) && HasKey(v, "action") && HasKey(v, "response")
      && ActionOf(v.fields["action"]).Some? && IsObjectValue(v.fields["response"])
      && (ActionOf(v.fields["action"]) == Some(NavigationAction) ==>
            GetString(v.fields["response"], "path").Some? && GetString(v.fields["response"], "path").value != [])
    ensures r.Some? ==> r.value == BuildCommand(ActionOf(v.fields["action"]).value, v.fields["response"], now)
  {
    if IsObjectValue(v) && HasKey(v, "action") && HasKey(v, "response") then
      var action := ActionOf(v.fields["action"]);
      var response := v.fields["response"];
      if action.None? then None
      else if !IsObjectValue(response) then None
      else
        var command := BuildCommand(action.value, response, now);
        if action.value == NavigationAction && (command.response.path.None? || command.response.path.value == []) then None
        else Some(command)
    else None
  }

  /**
   * `parseNavigationResponse`: a blank reply is an empty text command; else
   * the trimmed reply is read as a structured command, and a reply that does
   * not decode, or decodes to something the structured tier refuses, goes to
   * `extractNavigationFromText`.
   */
  function ParseNavigationResponse(content: string, decode: Decoder, now: int): (r: NavigationCommand)
    ensures Trim(content) == [] ==> r == NavigationCommand(TextAction, CommandResponse(Some([]), None, None, now))
    ensures Trim(content) != [] && decode(Trim(content)).Some? && StructuredTier(decode(Trim(content)).value, now).Some? ==>
      r == StructuredTier(decode(Trim(content)).value, now).value
  {
    var cleaned := Trim(content);
    if cleaned == [] then NavigationCommand(TextAction, CommandResponse(Some(cleaned), None, None, now))
    else match decode(cleaned)
      case None => ExtractNavigationFromText(cleaned, now)
      case Some(v) =>
        match StructuredTier(v, now)
        case Some(command) => command
        case None => ExtractNavigationFromText(cleaned, now)
  }

  /** A reply that is not JSON, or is JSON the structured tier refuses, is read by the salvage tier. */
  lemma UnstructuredReplySalvaged(content: string, decode: Decoder, now: int)
    requires Trim(content) != []
    requires decode(Trim(content)).None? || StructuredTier(decode(Trim(content)).value, now).None?
    ensures ParseNavigationResponse(content, decode, now) == ExtractNavigationFromText(Trim(content), now)
  {
  }

  /**
   * A navigation command's path comes from the model's reply: the `path` of a
   * well-formed navigation command, or the leftmost `"path": "…"` capture.
   */
  lemma NavigationPathOrigin(content: string, decode: Decoder, now: int)
    requires ParseNavigationResponse(content, decode, now).action == NavigationAction
    ensures var r := ParseNavigationResponse(content, decode, now);
      var cleaned := Trim(content);
      (decode(cleaned).Some? && StructuredTier(decode(cleaned).value, now) == Some(r)
        && r.response.path == GetString(decode(cleaned).value.fields["response"], "path"))
      || (MentionsNavigation(cleaned) && r.response.path == PathCapture(cleaned))
  {
  }

  /**
   * Unlike the backend, the frontend never yields a navigation command with
   * an empty or missing path: the structured tier demands a non-empty `path`
   * and the salvage pattern captures at least one character.
   */
  lemma NavigationPathNonEmpty(content: string, decode: Decoder, now: int)
    ensures var r := ParseNavigationResponse(content, decode, now);
      r.action == NavigationAction ==> r.response.path.Some? && r.response.path.value != []
  {
  }

  /** Results the parser stamps itself carry the clock; only a numeric `timestamp` in the reply overrides it. */
  lemma TimestampOrigin(content: string, decode: Decoder, now: int)
    ensures var r := ParseNavigationResponse(content, decode, now);
      r.response.timestamp == now
      || (decode(Trim(content)).Some? && StructuredTier(decode(Trim(content)).value, now) == Some(r)
          && GetNumber(decode(Trim(content)).value.fields["response"], "timestamp") == Some(r.response.timestamp))
  {
  }

  /**
   * A structured text command need not carry a message: `{"action":"text","response":{}}`
   * is returned as a text command whose `message` is undefined.
   */
  lemma TextCommandWithoutMessage(content: string, decode: Decoder, now: int)
    requires Trim(content) != []
    requires decode(Trim(content)) == Some(JObject(map["action" := JString("text"), "response" := JObject(map[])]))
    ensures ParseNavigationResponse(content, decode, now) ==
      NavigationCommand(TextAction, CommandResponse(None, None, Some(JObject(map[])), now))
  {
    var v := JObject(map["action" := JString("text"), "response" := JObject(map[])]);
    assert v.fields["action"] == JString("text");
    assert v.fields["response"] == JObject(map[]);
    assert StructuredTier(v, now) == Some(NavigationCommand(TextAction, CommandResponse(None, None, Some(JObject(map[])), now)));
  }
}
