/** The classifier's structured output: `Constraints` and
    `OrchestratorDecision`, with their defaults and bounds.

    An input record gives every field as an `Option`: `None` when the field
    is absent (so its default applies) and `Some(v)` when it is present.
    Fields that admit `null` carry an inner `Option`. */
module OrchestratorSchema {
  import opened Wrappers
  import opened Errors

  /** The literal `"movies" | "system"`. */
  datatype Intent = Movies | System

  function IntentName(i: Intent): string {
    match i
    case Movies => "movies"
    case System => "system"
  }

  /** Literal validation: exactly the two names are accepted. */
  function ParseIntent(s: string): (r: Option<Intent>)
    ensures r.Some? <==> s == "movies" || s == "system"
    ensures r.Some? ==> IntentName(r.value) == s
  {
    if s == "movies" then Some(Movies)
    else if s == "system" then Some(System)
    else None
  }

  lemma IntentRoundTrip(i: Intent)
    ensures ParseIntent(IntentName(i)) == Some(i)
  {
  }

  /** Movie constraints. Nothing relates the two runtimes. */
  datatype Constraints = Constraints(
    genres: seq<string>,
    maxRuntimeMinutes: Option<int>,
    minRuntimeMinutes: Option<int>)

  /** `Constraints()`: no genres and no runtime bounds. */
  const EmptyConstraints := Constraints([], None, None)

  datatype ConstraintsFields = ConstraintsFields(
    genres: Option<seq<string>>,
    maxRuntimeMinutes: Option<Option<int>>,
    minRuntimeMinutes: Option<Option<int>>)

  const NoConstraintsFields := ConstraintsFields(None, None, None)

  /** Builds a `Constraints` from its fields; every field has a default, so
      this never fails. */
  function ValidateConstraints(f: ConstraintsFields): (c: Constraints)
    ensures f.genres.Some? ==> c.genres == f.genres.value
    ensures f.maxRuntimeMinutes.Some? ==> c.maxRuntimeMinutes == f.maxRuntimeMinutes.value
    ensures f.minRuntimeMinutes.Some? ==> c.minRuntimeMinutes == f.minRuntimeMinutes.value
    ensures f.genres.None? ==> c.genres == []
    ensures f.maxRuntimeMinutes.None? ==> c.maxRuntimeMinutes == None
    ensures f.minRuntimeMinutes.None? ==> c.minRuntimeMinutes == None
    ensures f == NoConstraintsFields ==> c == EmptyConstraints
  {
    Constraints(
      f.genres.GetOr([]),
      f.maxRuntimeMinutes.GetOr(None),
      f.minRuntimeMinutes.GetOr(None))
  }

  /** Serialisation: every field written out. */
  function ConstraintsToFields(c: Constraints): ConstraintsFields {
    ConstraintsFields(Some(c.genres), Some(c.maxRuntimeMinutes), Some(c.minRuntimeMinutes))
  }

  /** A serialised `Constraints` reads back as itself. */
  lemma ConstraintsRoundTrip(c: Constraints)
    ensures ValidateConstraints(ConstraintsToFields(c)) == c
  {
  }

  /** A minimum above the maximum is accepted unchanged. */
  lemma MinAboveMaxAccepted(lo: int, hi: int)
    requires lo > hi
    ensures var c := ValidateConstraints(ConstraintsFields(None, Some(Some(hi)), Some(Some(lo))));
            c.maxRuntimeMinutes == Some(hi) && c.minRuntimeMinutes == Some(lo)
            && c.minRuntimeMinutes.value > c.maxRuntimeMinutes.value
  {
  }

  /** The classifier's decision. */
  datatype Decision = Decision(
    intent: Intent,
    constraints: Constraints,
    confidence: Option<real>,
    needsClarification: bool,
    clarificationQuestion: Option<string>)

  /** `confidence` is absent or lies in [0.0, 1.0]. */
  predicate ValidConfidence(c: Option<real>) {
    c.None? || (0.0 <= c.value && c.value <= 1.0)
  }

  predicate ValidDecision(d: Decision) {
    ValidConfidence(d.confidence)
  }

  datatype DecisionFields = DecisionFields(
    intent: Option<string>,
    constraints: Option<ConstraintsFields>,
    confidence: Option<Option<real>>,
    needsClarification: Option<bool>,
    clarificationQuestion: Option<Option<string>>)

  /** Errors for the required literal field `intent`. */
  function IntentErrors(intent: Option<string>): (errs: seq<FieldError>)
    ensures errs == [] <==> intent.Some? && ParseIntent(intent.value).Some?
  {
    match intent
    case None => [FieldError("intent", Missing)]
    case Some(s) => if ParseIntent(s).Some? then [] else [FieldError("intent", LiteralMismatch)]
  }

  /** Errors for the bounded optional `confidence` (ge 0.0, le 1.0). */
  function ConfidenceErrors(confidence: Option<real>): (errs: seq<FieldError>)
    ensures errs == [] <==> ValidConfidence(confidence)
  {
    match confidence
    case None => []
    case Some(v) =>
      if v < 0.0 then [FieldError("confidence", LessThanBound(0.0))]
      else if v > 1.0 then [FieldError("confidence", GreaterThanBound(1.0))]
      else []
  }

  /** Validates a decision record, reporting every bad field in field order. */
  function ValidateDecision(f: DecisionFields): (r: Result<Decision, seq<FieldError>>)
    ensures r.Ok? <==> f.intent.Some? && ParseIntent(f.intent.value).Some?
                       && ValidConfidence(f.confidence.GetOr(None))
    ensures r.Ok? ==> ValidDecision(r.value) && IntentName(r.value.intent) == f.intent.value
    ensures r.Ok? && f.constraints.None? ==> r.value.constraints == EmptyConstraints
    ensures r.Ok? && f.constraints.Some? ==> r.value.constraints == ValidateConstraints(f.constraints.value)
    ensures r.Ok? && f.confidence.None? ==> r.value.confidence == None
    ensures r.Ok? && f.confidence.Some? ==> r.value.confidence == f.confidence.value
    ensures r.Ok? && f.needsClarification.None? ==> !r.value.needsClarification
    ensures r.Ok? && f.needsClarification.Some? ==> r.value.needsClarification == f.needsClarification.value
    ensures r.Ok? && f.clarificationQuestion.None? ==> r.value.clarificationQuestion == None
    ensures r.Ok? && f.clarificationQuestion.Some? ==> r.value.clarificationQuestion == f.clarificationQuestion.value
    ensures r.Err? ==> |r.error| > 0
    ensures f.intent.None? ==> r.Err? && FieldError("intent", Missing) in r.error
  {
    var confidence := f.confidence.GetOr(None);
    var errs := IntentErrors(f.intent) + ConfidenceErrors(confidence);
    if errs != [] then Err(errs)
    else
      Ok(Decision(
        ParseIntent(f.intent.value).value,
        ValidateConstraints(f.constraints.GetOr(NoConstraintsFields)),
        confidence,
        f.needsClarification.GetOr(false),
        f.clarificationQuestion.GetOr(None)))
  }

  /** Serialisation: every field written out. */
  function DecisionToFields(d: Decision): DecisionFields {
    DecisionFields(
      Some(IntentName(d.intent)),
      Some(ConstraintsToFields(d.constraints)),
      Some(d.confidence),
      Some(d.needsClarification),
      Some(d.clarificationQuestion))
  }

  /** Every valid decision survives serialisation and validation. */
  lemma DecisionRoundTrip(d: Decision)
    requires ValidDecision(d)
    ensures ValidateDecision(DecisionToFields(d)) == Ok(d)
  {
    IntentRoundTrip(d.intent);
    ConstraintsRoundTrip(d.constraints);
  }

  /** A decision that names only its intent takes every other default. */
  lemma DecisionDefaults(s: string)
    requires s == "movies" || s == "system"
    ensures ValidateDecision(DecisionFields(Some(s), None, None, None, None))
            == Ok(Decision(ParseIntent(s).value, EmptyConstraints, None, false, None))
  {
  }

  /** `clarification_question` is not tied to `needs_clarification`: both
      mismatched combinations validate, with flag and question as given. */
  lemma ClarificationNotTied(s: string, q: string)
    requires s == "movies" || s == "system"
    ensures ValidateDecision(DecisionFields(Some(s), None, None, Some(true), None))
            == Ok(Decision(ParseIntent(s).value, EmptyConstraints, None, true, None))
    ensures ValidateDecision(DecisionFields(Some(s), None, None, Some(false), Some(Some(q))))
            == Ok(Decision(ParseIntent(s).value, EmptyConstraints, None, false, Some(q)))
  {
  }
}
