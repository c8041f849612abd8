/** The `/chat` request router and its agent handles.

    The three process-wide handles become an `Agents` value that is set up
    by `InitializeAgents`, cleared by `CleanupAgents` and passed to every
    request. The classifier is an oracle returning a decision or failing;
    each responder holds a chat-model oracle. A `Chat` outcome records the
    agent calls made, in order, beside the HTTP answer. */
module Routes {
  import opened Wrappers
  import opened Errors
  import opened OrchestratorSchema
  import opened ChatSchema
  import opened Responders

  /** `OrchestratorAgent.decide`: a decision, or the error it raised. */
  type Classifier = string -> Result<Decision, string>

  datatype MoviesResponder = MoviesResponder(llm: Llm)

  datatype SystemResponder = SystemResponder(llm: Llm)

  datatype Agents = Agents(
    orchestrator: Option<Classifier>,
    movies: Option<MoviesResponder>,
    system: Option<SystemResponder>)

  /** The handles before startup and after shutdown. */
  const NoAgents: Agents := Agents(None, None, None)

  predicate Initialized(agents: Agents) {
    agents.orchestrator.Some? && agents.movies.Some? && agents.system.Some?
  }

  /** Startup: all three handles are set. */
  function InitializeAgents(orch: Classifier, movies: MoviesResponder, system: SystemResponder): (agents: Agents)
    ensures Initialized(agents)
    ensures agents.orchestrator == Some(orch) && agents.movies == Some(movies) && agents.system == Some(system)
  {
    Agents(Some(orch), Some(movies), Some(system))
  }

  /** Shutdown: all three handles are cleared, whatever they held. */
  function CleanupAgents(agents: Agents): (cleared: Agents)
    ensures !Initialized(cleared)
    ensures cleared.orchestrator.None? && cleared.movies.None? && cleared.system.None?
  {
    NoAgents
  }

  const NotInitializedDetail := "Agents not initialized"
  const FailedDetail := "Failed to generate response. Please try again later."
  const FallbackQuestion := "Could you please clarify what you're looking for?"

  /** An agent call made while answering one request. */
  datatype AgentCall =
    | Decide(message: string)
    | RespondMovies(message: string, constraints: Constraints)
    | RespondSystem(message: string)

  datatype ChatOutcome = ChatOutcome(response: Result<ChatResponse, ErrorResponse>, calls: seq<AgentCall>)

  /** The clarification reply: the question when it is present and
      non-empty (Python truthiness), otherwise the fallback question. */
  function ClarificationReply(question: Option<string>): (reply: string)
    ensures question.Some? && question.value != "" ==> reply == question.value
    ensures question.None? || question.value == "" ==> reply == FallbackQuestion
  {
    if question.Some? && question.value != "" then question.value else FallbackQuestion
  }

  /** The single error boundary: any failure becomes the fixed 500 answer. */
  const Failed: ErrorResponse := HttpException(500, FailedDetail)

  /** `POST /chat` on a validated request. */
  function Chat(agents: Agents, request: ChatRequest): (out: ChatOutcome)
    // uninitialised guard: fixed 500, no agent call
    ensures !Initialized(agents)
            ==> out == ChatOutcome(Err(HttpException(500, NotInitializedDetail)), [])
    // otherwise the classifier is asked first, exactly once, with the message as given
    ensures Initialized(agents)
            ==> 1 <= |out.calls| <= 2 && out.calls[0] == Decide(request.message)
                && (|out.calls| == 2 ==> !out.calls[1].Decide? && out.calls[1].message == request.message)
    // the classifier failed: fixed 500, nothing else called
    ensures Initialized(agents) && agents.orchestrator.value(request.message).Err?
            ==> out == ChatOutcome(Err(Failed), [Decide(request.message)])
    // clarification: no responder, reply from the decision, route and constraints copied
    ensures Initialized(agents) && agents.orchestrator.value(request.message).Ok?
            && agents.orchestrator.value(request.message).value.needsClarification
            ==> var d := agents.orchestrator.value(request.message).value;
                out == ChatOutcome(
                  Ok(ChatResponse(ClarificationReply(d.clarificationQuestion), Some(d.intent), Some(d.constraints))),
                  [Decide(request.message)])
    // dispatch: exactly the responder the intent names, with the message (and constraints)
    ensures Initialized(agents) && agents.orchestrator.value(request.message).Ok?
            && !agents.orchestrator.value(request.message).value.needsClarification
            ==> var d := agents.orchestrator.value(request.message).value;
                var reply := if d.intent == Movies
                  then MoviesRespond(agents.movies.value.llm, request.message, d.constraints)
                  else SystemRespond(agents.system.value.llm, request.message);
                && out.calls == [Decide(request.message),
                                 if d.intent == Movies then RespondMovies(request.message, d.constraints)
                                 else RespondSystem(request.message)]
                && out.response == (if reply.Ok?
                                    then Ok(ChatResponse(reply.value, Some(d.intent), Some(d.constraints)))
                                    else Err(Failed))
    // the only error details ever sent
    ensures out.response.Err?
            ==> (out.response.error.Status() == 500
                 && out.response.error.detail in {NotInitializedDetail, FailedDetail})
  {
    if !Initialized(agents) then
      ChatOutcome(Err(HttpException(500, NotInitializedDetail)), [])
    else
      var message := request.message;
      match agents.orchestrator.value(message)
      case Err(_) => ChatOutcome(Err(Failed), [Decide(message)])
      case Ok(d) =>
        if d.needsClarification then
          ChatOutcome(
            Ok(ChatResponse(ClarificationReply(d.clarificationQuestion), Some(d.intent), Some(d.constraints))),
            [Decide(message)])
        else
          var call := if d.intent == Movies then RespondMovies(message, d.constraints) else RespondSystem(message);
          var reply := if d.intent == Movies
            then MoviesRespond(agents.movies.value.llm, message, d.constraints)
            else SystemRespond(agents.system.value.llm, message);
          match reply
          case Err(_) => ChatOutcome(Err(Failed), [Decide(message), call])
          case Ok(text) => ChatOutcome(Ok(ChatResponse(text, Some(d.intent), Some(d.constraints))), [Decide(message), call])
  }

  /** `POST /chat` on a raw body: an invalid message is answered with 422
      before any agent is called. */
  function PostChat(agents: Agents, message: Option<string>): (out: ChatOutcome)
    ensures ValidateChatRequest(message).Err?
            ==> out == ChatOutcome(Err(RequestValidationError(ValidateChatRequest(message).error)), [])
    ensures ValidateChatRequest(message).Err? ==> out.response.error.Status() == 422
    ensures ValidateChatRequest(message).Ok? ==> out == Chat(agents, ChatRequest(message.value))
  {
    match ValidateChatRequest(message)
    case Err(errors) => ChatOutcome(Err(RequestValidationError(errors)), [])
    case Ok(request) => Chat(agents, request)
  }

  /** `GET /health`. */
  function Health(): (r: HealthResponse)
    ensures r.status == "ok"
  {
    HealthResponse("ok")
  }

  /** A movies dispatch never depends on the system responder, and a system
      dispatch never depends on the movies responder: swapping the unused
      responder changes nothing, calls included. */
  lemma UnusedResponderIrrelevant(orch: Classifier, m1: MoviesResponder, m2: MoviesResponder,
                                  s1: SystemResponder, s2: SystemResponder, request: ChatRequest)
    ensures orch(request.message).Err? || orch(request.message).value.needsClarification
            ==> Chat(InitializeAgents(orch, m1, s1), request) == Chat(InitializeAgents(orch, m2, s2), request)
    ensures orch(request.message).Ok? && orch(request.message).value.intent == Movies
            ==> Chat(InitializeAgents(orch, m1, s1), request) == Chat(InitializeAgents(orch, m1, s2), request)
    ensures orch(request.message).Ok? && orch(request.message).value.intent == System
            ==> Chat(InitializeAgents(orch, m1, s1), request) == Chat(InitializeAgents(orch, m2, s1), request)
  {
  }

  /** The text of an upstream error never reaches the caller: classifiers
      or models that fail with different messages give the same answer. */
  lemma ErrorTextHidden(request: ChatRequest, orch: Classifier, m: MoviesResponder, s: SystemResponder, e1: string, e2: string)
    ensures Chat(InitializeAgents(_ => Err(e1), m, s), request) == Chat(InitializeAgents(_ => Err(e2), m, s), request)
    ensures Chat(InitializeAgents(_ => Err(e1), m, s), request).response == Err(Failed)
    ensures Chat(InitializeAgents(orch, MoviesResponder(_ => Err(e1)), SystemResponder(_ => Err(e1))), request)
            == Chat(InitializeAgents(orch, MoviesResponder(_ => Err(e2)), SystemResponder(_ => Err(e2))), request)
  {
  }

  /** After shutdown every request takes the uninitialised path. */
  lemma ChatAfterCleanup(agents: Agents, request: ChatRequest)
    ensures Chat(CleanupAgents(agents), request)
            == ChatOutcome(Err(HttpException(500, NotInitializedDetail)), [])
  {
  }

  /** A classified, unambiguous movies request: the movies model's reply is
      returned with the route and constraints. */
  lemma ComedyScenario(movies: Llm, s: SystemResponder)
    requires movies(MoviesConversation("Recommend a comedy movie", Constraints(["comedy"], None, None)))
             == Ok("Here are some comedy recommendations!")
    ensures var orch: Classifier := _ => Ok(Decision(Movies, Constraints(["comedy"], None, None), None, false, None));
            PostChat(InitializeAgents(orch, MoviesResponder(movies), s), Some("Recommend a comedy movie")).response
            == Ok(ChatResponse("Here are some comedy recommendations!", Some(Movies), Some(Constraints(["comedy"], None, None))))
  {
    var message := "Recommend a comedy movie";
    var c := Constraints(["comedy"], None, None);
    var orch: Classifier := _ => Ok(Decision(Movies, c, None, false, None));
    var agents := InitializeAgents(orch, MoviesResponder(movies), s);
    assert !Whitespace.AllSpace(message) by { assert !Whitespace.IsSpace(message[0]); }
    assert PostChat(agents, Some(message)) == Chat(agents, ChatRequest(message));
    assert orch(message) == Ok(Decision(Movies, c, None, false, None));
  }

  /** An ambiguous request: the classifier's question is the reply and no
      responder is called. */
  lemma ClarificationScenario(m: MoviesResponder, s: SystemResponder)
    ensures var q := "Are you looking for movie recommendations or a question about the app?";
            var orch: Classifier := _ => Ok(Decision(Movies, EmptyConstraints, None, true, Some(q)));
            var out := PostChat(InitializeAgents(orch, m, s), Some("help"));
            out.response.Ok? && out.response.value.reply == q && out.calls == [Decide("help")]
  {
    var q := "Are you looking for movie recommendations or a question about the app?";
    var orch: Classifier := _ => Ok(Decision(Movies, EmptyConstraints, None, true, Some(q)));
    var agents := InitializeAgents(orch, m, s);
    assert !Whitespace.AllSpace("help") by { assert !Whitespace.IsSpace("help"[0]); }
    assert PostChat(agents, Some("help")) == Chat(agents, ChatRequest("help"));
    assert orch("help") == Ok(Decision(Movies, EmptyConstraints, None, true, Some(q)));
    assert q != "";
  }
}
