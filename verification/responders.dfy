/** The two responders: the conversation each one sends to the chat model,
    and the constraint summary the movies responder writes into its prompt.

    The chat model is an oracle `Llm`: given a conversation it answers with
    text or fails with an error message. The system prompts are named, not
    spelled out. */
module Responders {
  import opened Wrappers
  import opened Separators
  import opened Decimal
  import opened OrchestratorSchema

  datatype Prompt = MoviesResponderPrompt | SystemResponderPrompt

  datatype ChatMessage = SystemMessage(prompt: Prompt) | HumanMessage(content: string)

  type Conversation = seq<ChatMessage>

  /** One invocation of the chat model: its reply text, or the error raised. */
  type Llm = Conversation -> Result<string, string>

  const GenresLabel := "Genres mentioned: "
  const GenreSeparator := ", "
  const MaxRuntimeLabel := "Max runtime: "
  const MinRuntimeLabel := "Min runtime: "
  const MinutesUnit := " minutes"
  const NewLine := "\n"
  const NoConstraintsText := "No specific constraints detected."
  const UserMessageLabel := "User message: "
  const ConstraintsHeader := "Extracted constraints:"
  /** The closing request, written in two halves only so that each is short
      enough for the verifier to see it is a single line. */
  const ClosingRequestStart := "Please respond to the user's movie request, "
  const ClosingRequestEnd := "acknowledging any constraints found."
  const ClosingRequest := ClosingRequestStart + ClosingRequestEnd

  /** Python truthiness of an `int | None`: `None` and `0` are false. */
  predicate Truthy(n: Option<int>) {
    n.Some? && n.value != 0
  }

  function GenresLine(genres: seq<string>): string {
    GenresLabel + Join(genres, GenreSeparator)
  }

  function RuntimeLine(heading: string, minutes: int): string {
    heading + IntToString(minutes) + MinutesUnit
  }

  /** The runtime line for `n` under `heading`, when `n` is truthy. */
  function RuntimeParts(n: Option<int>, heading: string): seq<string> {
    if Truthy(n) then [RuntimeLine(heading, n.value)] else []
  }

  /** The summary lines, in the order genres, maximum, minimum. */
  function ContextParts(c: Constraints): seq<string> {
    (if |c.genres| > 0 then [GenresLine(c.genres)] else [])
    + RuntimeParts(c.maxRuntimeMinutes, MaxRuntimeLabel)
    + RuntimeParts(c.minRuntimeMinutes, MinRuntimeLabel)
  }

  /** The constraint summary: its lines joined by newlines, or the fixed
      placeholder exactly when nothing is worth mentioning. */
  function ContextText(c: Constraints): (r: string)
    ensures r == NoConstraintsText
            <==> |c.genres| == 0 && !Truthy(c.maxRuntimeMinutes) && !Truthy(c.minRuntimeMinutes)
  {
    var parts := ContextParts(c);
    if parts == [] then NoConstraintsText
    else
      var r := Join(parts, NewLine);
      assert r[0] == parts[0][0] != 'N';
      r
  }

  /** What the summary preserves of a `Constraints`: falsy runtimes read as
      absent. */
  function Canonical(c: Constraints): Constraints {
    Constraints(
      c.genres,
      if Truthy(c.maxRuntimeMinutes) then c.maxRuntimeMinutes else None,
      if Truthy(c.minRuntimeMinutes) then c.minRuntimeMinutes else None)
  }

  /** Genres the summary can be read back from: no commas, no newlines. */
  predicate Summarizable(genres: seq<string>) {
    NoneContains(genres, ',') && NoneContains(genres, '\n')
  }

  /** Reads one optional runtime line labelled `heading` off the front of `lines`. */
  function DecodeRuntime(lines: seq<string>, heading: string): Option<(Option<int>, seq<string>)> {
    if |lines| > 0 && StartsWith(lines[0], heading) then
      var body := lines[0][|heading|..];
      if EndsWith(body, MinutesUnit) then
        match ParseInt(body[..|body| - |MinutesUnit|])
        case Some(n) => if n != 0 then Some((Some(n), lines[1..])) else None
        case None => None
      else None
    else Some((None, lines))
  }

  /** Reads the summary lines back: an optional genres line, then optional
      maximum and minimum lines, and nothing else. */
  function DecodeParts(lines: seq<string>): Option<Constraints> {
    var hasGenres := |lines| > 0 && StartsWith(lines[0], GenresLabel);
    var genres := if hasGenres then Split(lines[0][|GenresLabel|..], GenreSeparator) else [];
    var rest := if hasGenres then lines[1..] else lines;
    var max :- DecodeRuntime(rest, MaxRuntimeLabel);
    var min :- DecodeRuntime(max.1, MinRuntimeLabel);
    if min.1 == [] then Some(Constraints(genres, max.0, min.0)) else None
  }

  /** Reads a constraint summary back. */
  function DecodeContext(text: string): Option<Constraints> {
    if text == NoConstraintsText then Some(EmptyConstraints)
    else DecodeParts(Split(text, NewLine))
  }

  lemma RuntimeLineDecodes(n: Option<int>, heading: string, rest: seq<string>)
    requires heading == MaxRuntimeLabel || heading == MinRuntimeLabel
    requires rest == [] || !StartsWith(rest[0], heading)
    ensures DecodeRuntime(RuntimeParts(n, heading) + rest, heading)
            == Some((if Truthy(n) then n else None, rest))
  {
    if Truthy(n) {
      var lines := RuntimeParts(n, heading) + rest;
      assert lines[0] == RuntimeLine(heading, n.value) && lines[1..] == rest;
      RuntimeLineBody(heading, n.value);
    } else {
      assert RuntimeParts(n, heading) + rest == rest;
    }
  }

  /** A runtime line starts with its heading, and its body is the decimal
      number followed by the unit. */
  lemma RuntimeLineBody(heading: string, minutes: int)
    ensures StartsWith(RuntimeLine(heading, minutes), heading)
    ensures var body := RuntimeLine(heading, minutes)[|heading|..];
            EndsWith(body, MinutesUnit) && ParseInt(body[..|body| - |MinutesUnit|]) == Some(minutes)
  {
    var digits := IntToString(minutes);
    var line := RuntimeLine(heading, minutes);
    assert line[..|heading|] == heading;
    var body := line[|heading|..];
    assert body == digits + MinutesUnit;
    assert body[|body| - |MinutesUnit|..] == MinutesUnit;
    assert body[..|body| - |MinutesUnit|] == digits;
  }

  /** No summary line contains a newline. */
  lemma PartsAvoidNewline(c: Constraints)
    requires NoneContains(c.genres, '\n')
    ensures NoneContains(ContextParts(c), '\n')
  {
    JoinAvoids(c.genres, GenreSeparator, '\n');
    assert '\n' !in GenresLine(c.genres);
    RuntimePartsAvoidNewline(c.maxRuntimeMinutes, MaxRuntimeLabel);
    RuntimePartsAvoidNewline(c.minRuntimeMinutes, MinRuntimeLabel);
  }

  lemma RuntimePartsAvoidNewline(n: Option<int>, heading: string)
    requires '\n' !in heading
    ensures NoneContains(RuntimeParts(n, heading), '\n')
  {
    if Truthy(n) {
      var digits := IntToString(n.value);
      forall k | 0 <= k < |digits|
        ensures digits[k] != '\n'
      {
      }
      assert '\n' !in MinutesUnit;
      assert '\n' !in RuntimeLine(heading, n.value);
    }
  }

  /** Every summary line starts with 'G' (genres) or 'M' (a runtime). */
  lemma PartsInitials(c: Constraints)
    ensures forall i :: 0 <= i < |ContextParts(c)|
              ==> (|ContextParts(c)[i]| > 0 && (ContextParts(c)[i][0] == 'G' || ContextParts(c)[i][0] == 'M'))
  {
  }

  /** The runtime lines read back as the truthy runtimes. */
  lemma RuntimesDecode(c: Constraints)
    ensures var minParts := RuntimeParts(c.minRuntimeMinutes, MinRuntimeLabel);
            && DecodeRuntime(RuntimeParts(c.maxRuntimeMinutes, MaxRuntimeLabel) + minParts, MaxRuntimeLabel)
               == Some((Canonical(c).maxRuntimeMinutes, minParts))
            && DecodeRuntime(minParts, MinRuntimeLabel) == Some((Canonical(c).minRuntimeMinutes, []))
  {
    var minParts := RuntimeParts(c.minRuntimeMinutes, MinRuntimeLabel);
    if minParts != [] {
      DiffersAt(minParts[0], MaxRuntimeLabel, 1);
    }
    RuntimeLineDecodes(c.maxRuntimeMinutes, MaxRuntimeLabel, minParts);
    RuntimeLineDecodes(c.minRuntimeMinutes, MinRuntimeLabel, []);
    assert minParts + [] == minParts;
  }

  /** The genres line reads back as the genres. */
  lemma GenresDecode(genres: seq<string>)
    requires |genres| > 0 && NoneContains(genres, ',')
    ensures StartsWith(GenresLine(genres), GenresLabel)
    ensures Split(GenresLine(genres)[|GenresLabel|..], GenreSeparator) == genres
  {
    var line := GenresLine(genres);
    assert line[..|GenresLabel|] == GenresLabel;
    assert line[|GenresLabel|..] == Join(genres, GenreSeparator);
    SplitJoin(genres, GenreSeparator);
  }

  lemma DecodePartsOf(c: Constraints)
    requires Summarizable(c.genres)
    ensures DecodeParts(ContextParts(c)) == Some(Canonical(c))
  {
    var parts := ContextParts(c);
    var rest := RuntimeParts(c.maxRuntimeMinutes, MaxRuntimeLabel) + RuntimeParts(c.minRuntimeMinutes, MinRuntimeLabel);
    RuntimesDecode(c);
    if |c.genres| > 0 {
      assert parts == [GenresLine(c.genres)] + rest;
      assert parts[0] == GenresLine(c.genres) && parts[1..] == rest;
      GenresDecode(c.genres);
    } else {
      assert parts == rest;
      if parts != [] {
        DiffersAt(parts[0], GenresLabel, 0);
      }
    }
  }

  /** Reading the summary back gives the constraints, up to falsy runtimes. */
  lemma {:induction false} ContextRoundTrip(c: Constraints)
    requires Summarizable(c.genres)
    ensures DecodeContext(ContextText(c)) == Some(Canonical(c))
  {
    var parts := ContextParts(c);
    if parts != [] {
      var text := Join(parts, NewLine);
      assert ContextText(c) == text;
      PartsAvoidNewline(c);
      SplitJoin(parts, NewLine);
      DecodePartsOf(c);
    }
  }

  /** The summary as lines: the genres line when there are genres, then a
      line per truthy runtime, maximum first; the placeholder alone when
      there is none of these. */
  lemma ContextLines(c: Constraints)
    requires NoneContains(c.genres, '\n')
    ensures var lines := (if |c.genres| > 0 then [GenresLabel + Join(c.genres, GenreSeparator)] else [])
                         + (if Truthy(c.maxRuntimeMinutes)
                            then [MaxRuntimeLabel + IntToString(c.maxRuntimeMinutes.value) + MinutesUnit] else [])
                         + (if Truthy(c.minRuntimeMinutes)
                            then [MinRuntimeLabel + IntToString(c.minRuntimeMinutes.value) + MinutesUnit] else []);
            Split(ContextText(c), NewLine) == if lines == [] then [NoConstraintsText] else lines
  {
    var parts := ContextParts(c);
    if parts == [] {
      assert '\n' !in NoConstraintsText;
      FindNone(NoConstraintsText, NewLine);
    } else {
      PartsAvoidNewline(c);
      SplitJoin(parts, NewLine);
    }
  }

  /** The summary cannot tell a zero runtime from a missing one. */
  lemma ZeroRuntimeOmitted(c: Constraints)
    ensures ContextText(c.(maxRuntimeMinutes := Some(0))) == ContextText(c.(maxRuntimeMinutes := None))
    ensures ContextText(c.(minRuntimeMinutes := Some(0))) == ContextText(c.(minRuntimeMinutes := None))
  {
  }

  /** The human turn of the movies conversation: the user message after its
      label, a blank line, the header, the constraint summary, a blank line
      and the closing request. */
  function EnhancedMessage(message: string, c: Constraints): string {
    UserMessageLabel + message + NewLine + NewLine + ConstraintsHeader + NewLine
    + ContextText(c) + NewLine + NewLine + ClosingRequest
  }

  /** The index of the last header line that follows an empty line. */
  function LastHeader(lines: seq<string>): (r: Option<nat>)
    ensures r.Some? ==> 1 <= r.value < |lines|
    decreases |lines|
  {
    if |lines| < 2 then None
    else if lines[|lines| - 1] == ConstraintsHeader && lines[|lines| - 2] == "" then Some(|lines| - 1)
    else LastHeader(lines[..|lines| - 1])
  }

  /** Reads the lines of an enhanced message back into the user message
      and the summary: the message runs up to the last header line, the
      summary from there to the closing request. */
  function DecodeLines(lines: seq<string>): Option<(string, string)> {
    var n := |lines|;
    if n < 2 || lines[n - 1] != ClosingRequest || lines[n - 2] != "" then None
    else DecodeBody(lines[..n - 2])
  }

  /** The lines before the closing request: the message lines, an empty
      line, the header, the summary lines. */
  function DecodeBody(lines: seq<string>): Option<(string, string)> {
    match LastHeader(lines)
    case None => None
    case Some(j) =>
      var head := Join(lines[..j - 1], NewLine);
      if StartsWith(head, UserMessageLabel) then
        Some((head[|UserMessageLabel|..], Join(lines[j + 1..], NewLine)))
      else None
  }

  function DecodeEnhanced(s: string): Option<(string, string)> {
    DecodeLines(Split(s, NewLine))
  }

  lemma {:induction false} LastHeaderOf(pre: seq<string>, post: seq<string>)
    requires forall i :: 0 <= i < |post| ==> post[i] != ConstraintsHeader
    ensures LastHeader(pre + ["", ConstraintsHeader] + post) == Some(|pre| + 1)
    decreases |post|
  {
    var lines := pre + ["", ConstraintsHeader] + post;
    if |post| > 0 {
      assert lines[|lines| - 1] == post[|post| - 1];
      assert lines[..|lines| - 1] == pre + ["", ConstraintsHeader] + post[..|post| - 1];
      LastHeaderOf(pre, post[..|post| - 1]);
    }
  }

  /** No line of a summary is the header line. */
  lemma ContextLinesNotHeader(c: Constraints)
    requires NoneContains(c.genres, '\n')
    ensures forall i :: 0 <= i < |Split(ContextText(c), NewLine)| ==> Split(ContextText(c), NewLine)[i] != ConstraintsHeader
  {
    var parts := ContextParts(c);
    if parts == [] {
      assert '\n' !in NoConstraintsText;
      FindNone(NoConstraintsText, NewLine);
    } else {
      PartsAvoidNewline(c);
      SplitJoin(parts, NewLine);
      PartsInitials(c);
      assert ConstraintsHeader[0] == 'E';
    }
  }

  /** A line followed by a newline is split off as one piece. */
  lemma SplitLine(x: string, b: string)
    requires '\n' !in x
    ensures Split(x + (NewLine + b), NewLine) == [x] + Split(b, NewLine)
  {
    assert x + (NewLine + b) == x + NewLine + b;
    SplitConcat(x, NewLine, b);
    FindNone(x, NewLine);
  }

  /** The header and the closing request are single lines. */
  lemma NoNewlineInText()
    ensures '\n' !in ConstraintsHeader && '\n' !in ClosingRequest
  {
    NoNewlineInClosingStart();
    NoNewlineInClosingEnd();
  }

  lemma NoNewlineInClosingStart()
    ensures '\n' !in ClosingRequestStart
  {
  }

  lemma NoNewlineInClosingEnd()
    ensures '\n' !in ClosingRequestEnd
  {
  }

  /** The summary, a blank line and the closing request, as lines. */
  lemma ClosingLines(ctx: string, closing: string)
    requires '\n' !in closing
    ensures Split(ctx + (NewLine + (NewLine + closing)), NewLine) == Split(ctx, NewLine) + ["", closing]
  {
    var t := NewLine + closing;
    assert Split(t, NewLine) == ["", closing] by {
      FindNone(closing, NewLine);
      SplitLine("", closing);
      assert "" + (NewLine + closing) == t;
    }
    SplitConcat(ctx, NewLine, t);
    assert ctx + NewLine + t == ctx + (NewLine + (NewLine + closing));
  }

  /** Everything after the user message's own newline, as lines. */
  lemma BlockLines(ctx: string, header: string, closing: string)
    requires '\n' !in header && '\n' !in closing
    ensures Split(NewLine + (header + (NewLine + (ctx + (NewLine + (NewLine + closing))))), NewLine)
            == ["", header] + Split(ctx, NewLine) + ["", closing]
  {
    var t2 := ctx + (NewLine + (NewLine + closing));
    var t1 := header + (NewLine + t2);
    var lines := Split(ctx, NewLine);
    assert Split(t2, NewLine) == lines + ["", closing] by {
      ClosingLines(ctx, closing);
    }
    assert Split(t1, NewLine) == [header] + (lines + ["", closing]) by {
      SplitLine(header, t2);
    }
    assert Split(NewLine + t1, NewLine) == [""] + Split(t1, NewLine) by {
      SplitLine("", t1);
      assert "" + (NewLine + t1) == NewLine + t1;
    }
    assert [""] + ([header] + (lines + ["", closing])) == ["", header] + lines + ["", closing];
  }

  /** The lines of a framed summary: those of the text before it, an empty
      line, the header, those of the summary, an empty line, the closing. */
  lemma FramingLines(a: string, ctx: string, header: string, closing: string)
    requires '\n' !in header && '\n' !in closing
    ensures Split(a + NewLine + NewLine + header + NewLine + ctx + NewLine + NewLine + closing, NewLine)
            == Split(a, NewLine) + (["", header] + Split(ctx, NewLine) + ["", closing])
  {
    var block := NewLine + (header + (NewLine + (ctx + (NewLine + (NewLine + closing)))));
    assert a + NewLine + NewLine + header + NewLine + ctx + NewLine + NewLine + closing == a + NewLine + block;
    BlockLines(ctx, header, closing);
    SplitConcat(a, NewLine, block);
  }

  lemma DecodeLinesOf(pre: seq<string>, post: seq<string>)
    requires forall i :: 0 <= i < |post| ==> post[i] != ConstraintsHeader
    requires StartsWith(Join(pre, NewLine), UserMessageLabel)
    ensures DecodeLines(pre + (["", ConstraintsHeader] + post + ["", ClosingRequest]))
            == Some((Join(pre, NewLine)[|UserMessageLabel|..], Join(post, NewLine)))
  {
    var mid := pre + ["", ConstraintsHeader] + post;
    var lines := pre + (["", ConstraintsHeader] + post + ["", ClosingRequest]);
    assert lines == mid + ["", ClosingRequest];
    DecodeLinesClosing(mid);
    DecodeBodyOf(pre, post);
  }

  lemma DecodeLinesClosing(mid: seq<string>)
    ensures DecodeLines(mid + ["", ClosingRequest]) == DecodeBody(mid)
  {
    var lines := mid + ["", ClosingRequest];
    assert lines[..|lines| - 2] == mid;
  }

  lemma DecodeBodyOf(pre: seq<string>, post: seq<string>)
    requires forall i :: 0 <= i < |post| ==> post[i] != ConstraintsHeader
    requires StartsWith(Join(pre, NewLine), UserMessageLabel)
    ensures DecodeBody(pre + ["", ConstraintsHeader] + post)
            == Some((Join(pre, NewLine)[|UserMessageLabel|..], Join(post, NewLine)))
  {
    var mid := pre + ["", ConstraintsHeader] + post;
    LastHeaderOf(pre, post);
    var j := |pre| + 1;
    assert mid[..j - 1] == pre;
    assert mid[j + 1..] == post;
  }

  /** The user message is copied verbatim: it and the summary can be read
      back from the enhanced message, whatever the message contains. */
  lemma {:induction false} EnhancedRoundTrip(message: string, c: Constraints)
    requires NoneContains(c.genres, '\n')
    ensures DecodeEnhanced(EnhancedMessage(message, c)) == Some((message, ContextText(c)))
  {
    var a := UserMessageLabel + message;
    var ctx := ContextText(c);
    assert '\n' !in ConstraintsHeader && '\n' !in ClosingRequest by {
      NoNewlineInText();
    }
    FramingLines(a, ctx, ConstraintsHeader, ClosingRequest);
    ContextLinesNotHeader(c);
    JoinSplit(a, NewLine);
    JoinSplit(ctx, NewLine);
    assert StartsWith(a, UserMessageLabel) by { assert a[..|UserMessageLabel|] == UserMessageLabel; }
    DecodeLinesOf(Split(a, NewLine), Split(ctx, NewLine));
    assert a[|UserMessageLabel|..] == message;
  }

  /** The movies conversation: the movies system prompt, then the enhanced
      message as the only human turn. */
  function MoviesConversation(message: string, c: Constraints): (conv: Conversation)
    ensures |conv| == 2 && conv[0] == SystemMessage(MoviesResponderPrompt) && conv[1].HumanMessage?
    ensures NoneContains(c.genres, '\n')
            ==> DecodeEnhanced(conv[1].content) == Some((message, ContextText(c)))
  {
    var conv := [SystemMessage(MoviesResponderPrompt), HumanMessage(EnhancedMessage(message, c))];
    if NoneContains(c.genres, '\n') then
      EnhancedRoundTrip(message, c);
      conv
    else conv
  }

  /** `MoviesResponder.respond`: one model call; its reply text, or the
      error it raised, is passed back unchanged. */
  function MoviesRespond(llm: Llm, message: string, c: Constraints): (r: Result<string, string>)
    ensures r == llm(MoviesConversation(message, c))
  {
    llm(MoviesConversation(message, c))
  }

  /** The system conversation: the system prompt, then the user message
      unmodified as the only human turn. */
  function SystemConversation(message: string): (conv: Conversation)
    ensures |conv| == 2 && conv[0] == SystemMessage(SystemResponderPrompt)
    ensures conv[1] == HumanMessage(message)
  {
    [SystemMessage(SystemResponderPrompt), HumanMessage(message)]
  }

  /** The movies responder makes exactly one model call: two models that
      answer that conversation alike give the same result. */
  lemma MoviesRespondOneCall(l1: Llm, l2: Llm, message: string, c: Constraints)
    requires l1(MoviesConversation(message, c)) == l2(MoviesConversation(message, c))
    ensures MoviesRespond(l1, message, c) == MoviesRespond(l2, message, c)
  {
  }

  /** `SystemResponder.respond`: one model call, passed back unchanged. */
  function SystemRespond(llm: Llm, message: string): (r: Result<string, string>)
    ensures r == llm(SystemConversation(message))
  {
    llm(SystemConversation(message))
  }
}
