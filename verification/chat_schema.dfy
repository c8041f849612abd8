/** The `/chat` and `/health` request and response bodies. */
module ChatSchema {
  import opened Wrappers
  import opened Errors
  import opened Whitespace
  import opened OrchestratorSchema

  /** A request whose `message` passed validation. */
  datatype ChatRequest = ChatRequest(message: string)

  const BlankMessage := "Message cannot be empty or whitespace only"

  /** Validates the `message` field: required, at least one character
      (`min_length=1`), and not all white space (the field validator, which
      returns the value unchanged). */
  function ValidateChatRequest(message: Option<string>): (r: Result<ChatRequest, seq<FieldError>>)
    ensures r.Ok? <==> message.Some? && !AllSpace(message.value)
    ensures r.Ok? ==> r.value.message == message.value
    ensures message.None? ==> r == Err([FieldError("message", Missing)])
    ensures message == Some("") ==> r == Err([FieldError("message", StringTooShort(1))])
    ensures message.Some? && |message.value| > 0 && AllSpace(message.value)
            ==> r == Err([FieldError("message", ValueError(BlankMessage))])
  {
    match message
    case None => Err([FieldError("message", Missing)])
    case Some(m) =>
      if |m| < 1 then Err([FieldError("message", StringTooShort(1))])
      else if Strip(m) == [] then Err([FieldError("message", ValueError(BlankMessage))])
      else Ok(ChatRequest(m))
  }

  /** The `/chat` answer: the reply, and the route and constraints the
      classifier decided on (both absent by default). */
  datatype ChatResponse = ChatResponse(
    reply: string,
    route: Option<Intent>,
    extractedConstraints: Option<Constraints>)

  datatype ChatResponseFields = ChatResponseFields(
    reply: Option<string>,
    route: Option<Option<string>>,
    extractedConstraints: Option<Option<ConstraintsFields>>)

  /** Validates a response record: `reply` is required, `route` is null or
      one of the two intent names. */
  function ValidateChatResponse(f: ChatResponseFields): (r: Result<ChatResponse, seq<FieldError>>)
    ensures r.Ok? <==> f.reply.Some? && (f.route.GetOr(None).None? || ParseIntent(f.route.GetOr(None).value).Some?)
    ensures r.Ok? ==> r.value.reply == f.reply.value
    ensures r.Ok? && r.value.route.Some? ==> f.route == Some(Some(IntentName(r.value.route.value)))
    ensures r.Ok? && f.route.GetOr(None).None? ==> r.value.route == None
    ensures r.Ok? && f.route.GetOr(None).Some? ==> r.value.route == ParseIntent(f.route.GetOr(None).value)
    ensures r.Ok? && f.extractedConstraints.GetOr(None).None? ==> r.value.extractedConstraints == None
    ensures r.Ok? && f.extractedConstraints.GetOr(None).Some?
            ==> r.value.extractedConstraints == Some(ValidateConstraints(f.extractedConstraints.GetOr(None).value))
    ensures f.reply.None? ==> r.Err? && FieldError("reply", Missing) in r.error
  {
    var replyErrs := if f.reply.None? then [FieldError("reply", Missing)] else [];
    var route := f.route.GetOr(None);
    var routeErrs :=
      if route.Some? && ParseIntent(route.value).None? then [FieldError("route", LiteralMismatch)] else [];
    if replyErrs + routeErrs != [] then Err(replyErrs + routeErrs)
    else
      Ok(ChatResponse(
        f.reply.value,
        if route.Some? then ParseIntent(route.value) else None,
        match f.extractedConstraints.GetOr(None)
        case None => None
        case Some(cf) => Some(ValidateConstraints(cf))))
  }

  function ChatResponseToFields(r: ChatResponse): ChatResponseFields {
    ChatResponseFields(
      Some(r.reply),
      Some(if r.route.Some? then Some(IntentName(r.route.value)) else None),
      Some(if r.extractedConstraints.Some? then Some(ConstraintsToFields(r.extractedConstraints.value)) else None))
  }

  /** Every response survives serialisation and validation, constraints
      included (a `["comedy"]` genre list comes back as `["comedy"]`). */
  lemma ChatResponseRoundTrip(r: ChatResponse)
    ensures ValidateChatResponse(ChatResponseToFields(r)) == Ok(r)
  {
    if r.route.Some? {
      IntentRoundTrip(r.route.value);
    }
    if r.extractedConstraints.Some? {
      ConstraintsRoundTrip(r.extractedConstraints.value);
    }
  }

  datatype HealthResponse = HealthResponse(status: string)

  /** Validates a health record; `status` defaults to "ok". */
  function ValidateHealthResponse(status: Option<string>): (r: HealthResponse)
    ensures status.None? ==> r.status == "ok"
    ensures status.Some? ==> r.status == status.value
  {
    HealthResponse(status.GetOr("ok"))
  }
}
