/**
 * The chat-completion wire format shared by the backend and frontend
 * gateways (`KolosalCompletionRequest` / `KolosalCompletionResponse`).
 */
module Completion {
  import opened Wrappers

  datatype Role = System | User | Assistant

  datatype ChatMessage = ChatMessage(role: Role, content: string)

  datatype CompletionRequest = CompletionRequest(
    model: Option<string>,
    messages: seq<ChatMessage>,
    temperature: Option<real>,
    maxTokens: Option<nat>,
    stream: Option<bool>)

  /** One choice; `message` is `None` when the provider sent none. */
  datatype Choice = Choice(message: Option<ChatMessage>)

  datatype CompletionData = CompletionData(model: string, choices: seq<Choice>)

  datatype CompletionBody = CompletionBody(success: bool, data: Option<CompletionData>, error: Option<string>)

  /** `body.data?.choices?.[0]?.message` */
  function FirstMessage(body: CompletionBody): (r: Option<ChatMessage>)
    ensures r.Some? <==> body.data.Some? && |body.data.value.choices| > 0 && body.data.value.choices[0].message.Some?
  {
    if body.data.Some? && |body.data.value.choices| > 0 then body.data.value.choices[0].message else None
  }
}
