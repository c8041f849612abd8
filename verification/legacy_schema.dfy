/** The older single-file schemas: the same request and health bodies as
    `ChatSchema`, and a response that carries only the reply. */
module LegacySchema {
  import opened Wrappers
  import opened Errors
  import opened Whitespace
  import ChatSchema

  /** The older `ChatRequest` applies the same three rules to `message`. */
  function ValidateChatRequest(message: Option<string>): (r: Result<ChatSchema.ChatRequest, seq<FieldError>>)
    ensures r.Ok? <==> message.Some? && |message.value| >= 1 && !AllSpace(message.value)
    ensures r.Ok? ==> r.value.message == message.value
    ensures message.None? ==> r == Err([FieldError("message", Missing)])
    ensures message == Some("") ==> r == Err([FieldError("message", StringTooShort(1))])
    ensures message.Some? && |message.value| > 0 && AllSpace(message.value)
            ==> r.Err? && |r.error| == 1 && r.error[0].kind.ValueError?
  {
    ChatSchema.ValidateChatRequest(message)
  }

  /** The reply-only response body. */
  datatype ChatResponse = ChatResponse(reply: string)

  function ValidateChatResponse(reply: Option<string>): (r: Result<ChatResponse, seq<FieldError>>)
    ensures r.Ok? <==> reply.Some?
    ensures r.Ok? ==> r.value.reply == reply.value
  {
    match reply
    case None => Err([FieldError("reply", Missing)])
    case Some(s) => Ok(ChatResponse(s))
  }

  /** The older `HealthResponse` also defaults `status` to "ok". */
  function ValidateHealthResponse(status: Option<string>): (r: ChatSchema.HealthResponse)
    ensures status.None? ==> r.status == "ok"
    ensures status.Some? ==> r.status == status.value
  {
    ChatSchema.ValidateHealthResponse(status)
  }
}
