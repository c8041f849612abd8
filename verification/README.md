# Movie assistant API core, in Dafny

This project models the deterministic core of a small movie-night
assistant API. The API has four parts:

- **The `/chat` router.** It checks that its agents are set up. It then asks a classifier (the orchestrator) for a decision. It answers with a clarification question, or hands the message to the movies or the system responder.
- **The responders.** They build the conversation sent to a chat model. The movies responder writes a summary of the extracted constraints (genres, maximum and minimum runtime) into a fixed template around the user's message.
- **The schemas.** These are the request, response and decision bodies, with their defaults, bounds and the message validator. The older single-file schemas are included.
- **The item list.** This is an in-memory list of items with create, list-with-limit and get-by-index endpoints.

The classifier and the chat model are external services. Here they are
oracles: `Classifier = string -> Result<Decision, string>` and
`Llm = Conversation -> Result<string, string>`. A failing call is an `Err`
carrying the error text. `Routes.Chat` returns the HTTP answer together
with the trace of agent calls it made, so the contracts can say which
oracle is consulted, with what, and how often.

Files, one module each:

- `wrappers.dfy`: `Option` and `Result`.
- `whitespace.dfy`: the white-space characters of Python's `str.isspace` and `str.strip`.
- `separators.dfy`: Python's `str.join`, `str.find` and `str.split` on a separator, and how they invert each other.
- `decimal.dfy`: `str(int)` and parsing it back.
- `errors.dfy`: validation errors and HTTP error answers.
- `orchestrator_schema.dfy`: `Constraints` and `OrchestratorDecision`.
- `chat_schema.dfy`: `ChatRequest`, `ChatResponse` and `HealthResponse` of the schemas package.
- `legacy_schema.dfy`: the older `schemas.py` bodies.
- `responders.dfy`: the constraint summary, the enhanced message and both responders.
- `routes.dfy`: agent set-up and tear-down, `/health`, and `/chat`.
- `items.dfy`: the item list of `main.py`.

Modelling choices:

- **Fields.** A body arriving for validation is a record of `Option` fields: `None` means the field is absent and its default applies. Nullable fields are `Option<Option<_>>`. Validation reports errors in field order.
- **White space.** `str.strip` uses this fixed set of white-space characters: U+0009–U+000D, U+001C–U+0020, U+0085, U+00A0, U+1680, U+2000–U+200A, U+2028, U+2029, U+202F, U+205F and U+3000.
- **Agent handles.** The three process-wide handles are an `Agents` value. `InitializeAgents` produces it and `CleanupAgents` clears it.
- **Item list.** The list is a `seq<Item>` passed in, with the updated list returned.
- **Schema modules.** The router imports `app.schemas`. That name resolves to the `schemas/` package, so `schemas.py` is shadowed and its bodies are modelled separately in `LegacySchema`.

## Model

| member | source | states |
|---|---|---|
| `Whitespace.Strip` | api/app/schemas/chat.py:19-20 | `strip` removes the leading and trailing white space and nothing else; the result is empty exactly when the input is all white space |
| `Decimal.IntToString` | api/app/agents/responder.py:45-47 | `str(n)` is the canonical decimal form of n: a minus sign exactly when n < 0, then digits with no leading zero (zero is exactly "0", never "00" or "-0"); it parses back to n |
| `OrchestratorSchema.ParseIntent` | api/app/schemas/orchestrator.py:26-29 | the intent literal accepts exactly "movies" and "system", and an accepted name is the name of the intent it gives |
| `OrchestratorSchema.IntentRoundTrip` | api/app/schemas/orchestrator.py:26-29 | each intent's name validates back to that intent |
| `OrchestratorSchema.ValidateConstraints` | api/app/schemas/orchestrator.py:6-20 | every constraints field is optional; a present field is kept and an absent one takes its own default (empty genres, no maximum, no minimum), independently of the others |
| `OrchestratorSchema.ConstraintsRoundTrip` | api/app/schemas/orchestrator.py:6-20 | a serialised `Constraints` validates back to itself |
| `OrchestratorSchema.MinAboveMaxAccepted` | api/app/schemas/orchestrator.py:13-20 | a minimum runtime above the maximum is accepted unchanged: no relation between the two is enforced |
| `OrchestratorSchema.IntentErrors` | api/app/schemas/orchestrator.py:26-29 | `intent` yields no error exactly when it is present and one of the two names |
| `OrchestratorSchema.ConfidenceErrors` | api/app/schemas/orchestrator.py:34-39 | `confidence` yields no error exactly when it is null or lies in [0.0, 1.0] |
| `OrchestratorSchema.ValidateDecision` | api/app/schemas/orchestrator.py:23-47 | a decision validates exactly when the intent is valid and the confidence is in bounds; every present optional field is kept (constraints validated as `Constraints`), every absent one takes its default (empty constraints, no confidence, no clarification, no question); a missing intent is reported |
| `OrchestratorSchema.DecisionRoundTrip` | api/app/schemas/orchestrator.py:23-47 | every decision with an in-bounds confidence validates back to itself after serialisation |
| `OrchestratorSchema.DecisionDefaults` | api/app/schemas/orchestrator.py:30-47 | a decision given only its intent has empty constraints, no confidence, needs no clarification and has no question |
| `OrchestratorSchema.ClarificationNotTied` | api/app/schemas/orchestrator.py:40-47 | a clarification flag without a question, and a question without the flag, both validate, with the flag and the question exactly as given |
| `ChatSchema.ValidateChatRequest` | api/app/schemas/chat.py:8-22 | a message is accepted exactly when present and not all white space; a missing message, the empty string and an all-white-space message each give their own error; an accepted message is kept unchanged, not trimmed |
| `ChatSchema.ValidateChatResponse` | api/app/schemas/chat.py:25-39 | a response validates exactly when `reply` is present and `route` is null or one of the two intent names; the reply, a present route and present constraints are kept, and an absent or null route or constraints is null |
| `ChatSchema.ChatResponseRoundTrip` | api/app/schemas/chat.py:25-39 | every response, constraints included, validates back to itself after serialisation |
| `ChatSchema.ValidateHealthResponse` | api/app/schemas/chat.py:42-48 | `status` defaults to "ok" and otherwise is kept |
| `LegacySchema.ValidateChatRequest` | api/app/schemas.py:4-18 | the older request applies the same rules: required, at least one character, not all white space, kept unchanged |
| `LegacySchema.ValidateChatResponse` | api/app/schemas.py:21-27 | the older response validates exactly when `reply` is present, and carries only that reply |
| `LegacySchema.ValidateHealthResponse` | api/app/schemas.py:30-36 | the older `status` also defaults to "ok" |
| `Responders.ContextText` | api/app/agents/responder.py:41-49 | the summary is the fixed placeholder exactly when there are no genres and neither runtime is truthy |
| `Responders.ContextLines` | api/app/agents/responder.py:41-49 | read as lines, the summary is the genres line (the label, then the genres joined by ", " in order, duplicates kept), then "Max runtime: N minutes" when the maximum is truthy, then the same for the minimum; or the placeholder alone |
| `Responders.ContextRoundTrip` | api/app/agents/responder.py:41-49 | the constraints can be read back from the summary, with a zero runtime reading as absent |
| `Responders.ZeroRuntimeOmitted` | api/app/agents/responder.py:44-47 | a runtime of 0 gives the same summary as no runtime |
| `Responders.EnhancedRoundTrip` | api/app/agents/responder.py:51-56 | whatever the user message contains, it and the summary can be read back from the enhanced message: the message is copied verbatim after "User message: " |
| `Responders.MoviesConversation` | api/app/agents/responder.py:58-61 | the movies conversation is the movies system prompt followed by one human turn, from which the message and the summary can be read back |
| `Responders.MoviesRespond` | api/app/agents/responder.py:58-69 | the reply, or the error, is the model's answer to the movies conversation, unchanged |
| `Responders.MoviesRespondOneCall` | api/app/agents/responder.py:65-69 | the movies responder depends on the model only through its answer to that one conversation |
| `Responders.SystemConversation` | api/app/agents/responder.py:98-101 | the system conversation is the system prompt followed by the user message, unmodified, as the only human turn |
| `Responders.SystemRespond` | api/app/agents/responder.py:98-109 | the reply, or the error, is the model's answer to the system conversation, unchanged |
| `Routes.InitializeAgents` | api/app/api/routes.py:17-29 | start-up sets all three handles to the given agents |
| `Routes.CleanupAgents` | api/app/api/routes.py:32-37 | shutdown clears all three handles |
| `Routes.Health` | api/app/api/routes.py:40-43 | `/health` answers with status "ok" |
| `Routes.ClarificationReply` | api/app/api/routes.py:80 | the clarification reply is the question when it is non-empty, else the fixed fallback question |
| `Routes.Chat` | api/app/api/routes.py:46-105 | with a handle unset: 500 "Agents not initialized" and no agent call; otherwise the classifier is called first, once, with the message as given; a classifier failure gives the fixed 500; when clarification is needed, no responder is called and the reply comes from the decision; otherwise only the responder named by the intent is called (movies with the message and constraints, system with the message); its reply is returned unchanged with the route and constraints copied; every error is a 500 with one of the two fixed details |
| `Routes.PostChat` | api/app/api/routes.py:46-47 | an invalid request body is answered with 422 before any agent is called; a valid one goes to the router with the message unchanged |
| `Routes.UnusedResponderIrrelevant` | api/app/api/routes.py:79-90 | the answer does not depend on a responder the decision does not select |
| `Routes.ErrorTextHidden` | api/app/api/routes.py:100-105 | upstream error text never reaches the caller: classifiers failing with different texts give the same fixed 500, and so do models failing with different texts |
| `Routes.ChatAfterCleanup` | api/app/api/routes.py:32-37 | after shutdown every chat request takes the not-initialised path |
| `Routes.ComedyScenario` | api/app/api/routes.py:87-98 | a classified comedy request returns the movies model's reply with route "movies" and the genre list `["comedy"]` |
| `Routes.ClarificationScenario` | api/app/api/routes.py:79-85 | an ambiguous request returns the classifier's question, and only the classifier is called |
| `Items.ValidateItem` | api/app/main.py:6-8 | an item's text defaults to null and its done flag to false |
| `Items.ItemRoundTrip` | api/app/main.py:6-8 | a serialised item validates back to itself |
| `Items.CreateItem` | api/app/main.py:18-21 | creating appends the item at the end and answers with the whole list: one longer, with the earlier items unchanged |
| `Items.ListItems` | api/app/main.py:23-25 | the page is a prefix of the list, and holds exactly the positions in the Python slice `[0:limit]`: below the limit for a non-negative limit, all but the last abs(limit) for a negative one |
| `Items.ListDefault` | api/app/main.py:23-25 | the default limit gives the first ten items, or all of them when there are fewer |
| `Items.ListNegativeEmpty` | api/app/main.py:23-25 | a negative limit at least as long as the list gives the empty page |
| `Items.ListAfterCreate` | api/app/main.py:18-25 | creating an item leaves unchanged every page whose limit lies between 0 and the old length |
| `Items.GetItem` | api/app/main.py:27-31 | lookup succeeds exactly when 0 <= id < length, giving the item at that position; otherwise, negative ids included, a 404 whose detail is exactly "Item ", the id in decimal, " not found", from which the id reads back |
| `Items.NotFoundRoundTrip` | api/app/main.py:31 | the id can be read back from the "Item {id} not found" detail |
| `Items.GetAfterCreate` | api/app/main.py:18-31 | a created item is found at the old length, and earlier items are still found where they were |
| `Items.Health` | api/app/main.py:14-16 | the item service's `/health` answers with status "ok" |

## Left out

- The classifier and the chat model are oracles. Their prompts, the LangChain and Azure clients and structured-output parsing are not modelled. The system prompts are named, not spelled out.
- `str(response.content)` is not modelled: a model answer is already a string here.
- Logging, latency timing and the `request.message[:50]` log excerpt are not modelled. They do not affect any answer.
- FastAPI routing, JSON encoding and pydantic type coercion are not modelled. A body arrives as a record of already-typed optional fields.
- The mutable module-level handles and the item list are values passed in and returned. Concurrent requests are not modelled.
- `Items.ListItems` is a pure function of the list, so it cannot modify it. No separate clause states that `list_items` leaves the list alone.
- `confidence` is a `real`. Floating-point NaN and infinities are not modelled.
- Settings loading, the Streamlit UI and the re-export `__init__` modules are not part of this model.
- `Whitespace.Strip`: uses the fixed white-space set listed above rather than Python's full Unicode database.
- `Responders.ContextRoundTrip`: stated only for genres that contain no comma and no newline. With such characters the joined summary is ambiguous, and its lines are given instead by `Responders.ContextLines` (which only excludes newlines).
- `Responders.EnhancedRoundTrip`: stated only for genres without newlines, for the same reason. The user message itself may contain anything.
- `Responders.MoviesConversation`: its read-back clause needs genres without newlines, for the same reason.
- `Responders.ContextLines`: stated only for genres without newlines, since a newline inside a genre would split its line in two.
- Strings are sequences of Unicode scalar values. A Python `str` decoded from JSON can hold lone surrogates such as U+D800; such strings are not modelled.
- The old `/chat` tests in `api/test/test_main.py` patch an `assistant` that `main.py` does not define. They describe no code in this model.
