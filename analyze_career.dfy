/**
 * The `analyze-career` edge function (supabase/functions/analyze-career/index.ts):
 * the answer summary built from the catalog and the answers, the two
 * messages posted to the gateway, and the mapping of the gateway's outcome
 * onto the HTTP response.
 */
module AnalyzeCareer {
  import opened Wrappers
  import opened JsStrings
  import opened QuizData
  import opened Questionnaire
  import opened Gateway

  /** `${answer}` of a stored answer; lists are joined with ", ". */
  function DisplayAnswer(a: Answer): string {
    match a
    case ListAnswer(items) => Join(", ", items)
    case TextAnswer(t) => t
    case NumberAnswer(n) => IntToString(n)
  }

  /** The summary line of one answered question. */
  function SummaryLine(q: Question, a: Answer): string {
    q.question + ": " + DisplayAnswer(a)
  }

  /** The question has a truthy answer: it contributes a line. */
  predicate HasLine(q: Question, answers: map<string, Answer>) {
    q.id in answers && Truthy(answers[q.id])
  }

  /** The lines of the questions from position `from` on, in catalog order. */
  function SummaryLinesFrom(catalog: seq<Question>, answers: map<string, Answer>, from: nat): seq<string>
    decreases |catalog| - from
  {
    if from >= |catalog| then []
    else
      (if HasLine(catalog[from], answers) then [SummaryLine(catalog[from], answers[catalog[from].id])] else [])
      + SummaryLinesFrom(catalog, answers, from + 1)
  }

  /** `questions.map(...).filter(Boolean)`: one line per question with a truthy answer. */
  function SummaryLines(catalog: seq<Question>, answers: map<string, Answer>): seq<string> {
    SummaryLinesFrom(catalog, answers, 0)
  }

  /** `.join("\n")` of the lines. */
  function AnswerSummary(catalog: seq<Question>, answers: map<string, Answer>): string {
    Join("\n", SummaryLines(catalog, answers))
  }

  const UserMessagePrefix := "Here are the student's quiz responses:\n\n"
  const UserMessageSuffix := "\n\nPlease analyze their profile and provide career recommendations."

  function UserMessage(catalog: seq<Question>, answers: map<string, Answer>): string {
    UserMessagePrefix + AnswerSummary(catalog, answers) + UserMessageSuffix
  }

  /**
   * The catalog positions from `from` on that produce a line: increasing,
   * and holding exactly the questions whose answer is truthy.
   */
  function LineIndicesFrom(catalog: seq<Question>, answers: map<string, Answer>, from: nat): (idx: seq<nat>)
    ensures forall k :: 0 <= k < |idx| ==> from <= idx[k] < |catalog| && HasLine(catalog[idx[k]], answers)
    ensures forall k, l :: 0 <= k < l < |idx| ==> idx[k] < idx[l]
    ensures forall i :: from <= i < |catalog| && HasLine(catalog[i], answers) ==> i in idx
    decreases |catalog| - from
  {
    if from >= |catalog| then []
    else (if HasLine(catalog[from], answers) then [from] else []) + LineIndicesFrom(catalog, answers, from + 1)
  }

  function LineIndices(catalog: seq<Question>, answers: map<string, Answer>): seq<nat> {
    LineIndicesFrom(catalog, answers, 0)
  }

  lemma {:induction false} LinesFromInOrder(catalog: seq<Question>, answers: map<string, Answer>, from: nat)
    ensures var lines, idx := SummaryLinesFrom(catalog, answers, from), LineIndicesFrom(catalog, answers, from);
      && |lines| == |idx|
      && forall k :: 0 <= k < |lines| ==> lines[k] == SummaryLine(catalog[idx[k]], answers[catalog[idx[k]].id])
    decreases |catalog| - from
  {
    if from < |catalog| {
      LinesFromInOrder(catalog, answers, from + 1);
    }
  }

  /**
   * The summary has one line per question with a truthy answer, in catalog
   * order: line k renders the k-th such question.
   */
  lemma SummaryLinesInCatalogOrder(catalog: seq<Question>, answers: map<string, Answer>)
    ensures var lines, idx := SummaryLines(catalog, answers), LineIndices(catalog, answers);
      && |lines| == |idx|
      && (forall k :: 0 <= k < |idx| ==> idx[k] < |catalog| && HasLine(catalog[idx[k]], answers))
      && (forall k, l :: 0 <= k < l < |idx| ==> idx[k] < idx[l])
      && (forall i :: 0 <= i < |catalog| && HasLine(catalog[i], answers) ==> i in idx)
      && forall k :: 0 <= k < |lines| ==> lines[k] == SummaryLine(catalog[idx[k]], answers[catalog[idx[k]].id])
  {
    LinesFromInOrder(catalog, answers, 0);
  }

  /** An absent answer, "" or 0 produces no line. */
  lemma FalsyAnswerNoLine(catalog: seq<Question>, answers: map<string, Answer>, i: nat)
    requires i < |catalog|
    requires catalog[i].id !in answers || answers[catalog[i].id] in {TextAnswer(""), NumberAnswer(0)}
    ensures i !in LineIndices(catalog, answers)
  {
  }

  /** An empty list is truthy: its line is the question, a colon and a space, and nothing after. */
  lemma EmptyListLine(catalog: seq<Question>, answers: map<string, Answer>, i: nat)
    requires i < |catalog| && catalog[i].id in answers && answers[catalog[i].id] == ListAnswer([])
    ensures i in LineIndices(catalog, answers)
    ensures SummaryLine(catalog[i], ListAnswer([])) == catalog[i].question + ": "
  {
  }

  /** When no line contains a newline, splitting the summary at newlines recovers the lines. */
  lemma SummarySplitsIntoLines(catalog: seq<Question>, answers: map<string, Answer>)
    requires SummaryLines(catalog, answers) != []
    requires forall k :: 0 <= k < |SummaryLines(catalog, answers)| ==> '\n' !in SummaryLines(catalog, answers)[k]
    ensures SplitOn(AnswerSummary(catalog, answers), '\n') == SummaryLines(catalog, answers)
  {
    SplitJoin('\n', SummaryLines(catalog, answers));
  }

  /** The user message is the summary between the fixed opening and closing sentences. */
  lemma UserMessageShape(catalog: seq<Question>, answers: map<string, Answer>)
    ensures var m, s := UserMessage(catalog, answers), AnswerSummary(catalog, answers);
      && |m| == |UserMessagePrefix| + |s| + |UserMessageSuffix|
      && m[..|UserMessagePrefix|] == UserMessagePrefix
      && m[|UserMessagePrefix|..|UserMessagePrefix| + |s|] == s
      && m[|UserMessagePrefix| + |s|..] == UserMessageSuffix
  {
  }

  // ---------------------------------------------------------------------------
  // The request and the response

  /** The counsellor instructions sent as the system message. */
  const SystemPrompt: string :=
    "You are a career counselor AI specializing in tech careers for engineering students and recent graduates. You will receive a student's quiz answers covering their education, skills, interests, work preferences, and career goals.\n"
    + "\n"
    + "Analyze their profile and return structured career recommendations using the tool provided.\n"
    + "\n"
    + "Guidelines:\n"
    + "- Provide exactly 4 career recommendations ranked by fit score (highest first)\n"
    + "- Fit scores should be realistic (60-95 range), not all high\n"
    + "- Tailor salary ranges to Indian market (in LPA format)\n"
    + "- Be specific about WHY each career fits based on their actual answers\n"
    + "- Skills they have should reference what they told you\n"
    + "- Next steps should be actionable and specific (6 items for top pick, 5 for others)\n"
    + "- Confidence level: High if answers are consistent and clear, Medium if mixed signals, Low if very uncertain\n"
    + "- Consider their constraints (family pressure, location, financial) in your recommendations"

  /**
   * The messages posted to the gateway, or the error thrown before any
   * request is made when the API key is missing.
   */
  function AnalysisRequest(apiKey: Option<string>, catalog: seq<Question>, answers: map<string, Answer>): (r: Result<seq<Message>, string>)
    ensures !HasKey(apiKey) <==> r == Failure(MissingKeyMessage)
    ensures r.Success? ==> r.value == [Message(System, SystemPrompt), Message(User, UserMessage(catalog, answers))]
  {
    if !HasKey(apiKey) then Failure(MissingKeyMessage)
    else Success([Message(System, SystemPrompt), Message(User, UserMessage(catalog, answers))])
  }

  /**
   * With a key, exactly two messages are posted: the counsellor prompt as
   * the system message, then one user message whose summary holds the line
   * of every question with a truthy answer and no other line.
   */
  lemma AnalysisRequestCarriesAnswers(apiKey: Option<string>, catalog: seq<Question>, answers: map<string, Answer>)
    requires HasKey(apiKey)
    ensures var r, lines := AnalysisRequest(apiKey, catalog, answers), SummaryLines(catalog, answers);
      && r.Success? && |r.value| == 2
      && r.value[0] == Message(System, SystemPrompt)
      && r.value[1].role == User
      && r.value[1].content == UserMessagePrefix + Join("\n", lines) + UserMessageSuffix
      && (forall i :: 0 <= i < |catalog| && HasLine(catalog[i], answers) ==>
            SummaryLine(catalog[i], answers[catalog[i].id]) in lines)
      && (forall k :: 0 <= k < |lines| ==>
            exists i :: 0 <= i < |catalog| && HasLine(catalog[i], answers) && lines[k] == SummaryLine(catalog[i], answers[catalog[i].id]))
  {
    var lines, idx := SummaryLines(catalog, answers), LineIndices(catalog, answers);
    SummaryLinesInCatalogOrder(catalog, answers);
    forall i | 0 <= i < |catalog| && HasLine(catalog[i], answers)
      ensures SummaryLine(catalog[i], answers[catalog[i].id]) in lines
    {
      var k :| 0 <= k < |idx| && idx[k] == i;
      assert lines[k] == SummaryLine(catalog[i], answers[catalog[i].id]);
    }
    forall k | 0 <= k < |lines|
      ensures exists i :: 0 <= i < |catalog| && HasLine(catalog[i], answers) && lines[k] == SummaryLine(catalog[i], answers[catalog[i].id])
    {
      var i := idx[k];
      assert 0 <= i < |catalog| && HasLine(catalog[i], answers) && lines[k] == SummaryLine(catalog[i], answers[catalog[i].id]);
    }
  }

  const UsageLimitMessage := "AI usage limit reached. Please try again later."
  const NoStructuredResponseMessage := "No structured response from AI"

  /**
   * The response for the gateway's outcome once the request was sent;
   * `parse` stands for `JSON.parse` of the tool arguments followed by
   * `JSON.stringify` of the result, or the parser's error message.
   */
  function AnalysisResponse(upstream: Upstream, parse: string -> Result<string, string>): HttpResponse {
    match upstream
    case Unreachable(m) => ServerError(m)
    case Responded(status, data) =>
      if !IsOk(status) then
        if status == 429 then HttpResponse(429, ErrorBody(RateLimitMessage))
        else if status == 402 then HttpResponse(402, ErrorBody(UsageLimitMessage))
        else ServerError(GatewayErrorMessage(status))
      else match data
        case Failure(m) => ServerError(m)
        case Success(c) =>
          if c.toolArguments.None? || c.toolArguments.value == "" then ServerError(NoStructuredResponseMessage)
          else match parse(c.toolArguments.value)
            case Failure(m) => ServerError(m)
            case Success(json) => HttpResponse(200, JsonBody(json))
  }

  /** The whole handler, from the environment's key and the request body to the response. */
  function HandleAnalyze(apiKey: Option<string>, catalog: seq<Question>, answers: map<string, Answer>,
                         upstream: Upstream, parse: string -> Result<string, string>): HttpResponse
  {
    match AnalysisRequest(apiKey, catalog, answers)
    case Failure(m) => ServerError(m)
    case Success(_) => AnalysisResponse(upstream, parse)
  }

  /** Without a key the handler answers 500 whatever the gateway would have said: no request is made. */
  lemma MissingKeyFailsFirst(apiKey: Option<string>, catalog: seq<Question>, answers: map<string, Answer>,
                             u1: Upstream, u2: Upstream, parse: string -> Result<string, string>)
    requires !HasKey(apiKey)
    ensures HandleAnalyze(apiKey, catalog, answers, u1, parse) == ServerError(MissingKeyMessage)
    ensures HandleAnalyze(apiKey, catalog, answers, u1, parse) == HandleAnalyze(apiKey, catalog, answers, u2, parse)
  {
  }

  /**
   * The status mapping: 429 and 402 pass through, 200 means the tool
   * arguments were present and parsed, and every other failure is a 500.
   */
  lemma AnalysisStatusMapping(upstream: Upstream, parse: string -> Result<string, string>)
    ensures var r := AnalysisResponse(upstream, parse);
      && r.status in {200, 402, 429, 500}
      && (r.status == 429 <==> upstream.Responded? && upstream.status == 429)
      && (r.status == 402 <==> upstream.Responded? && upstream.status == 402)
      && (r.status == 200 <==>
            && upstream.Responded? && IsOk(upstream.status) && upstream.data.Success?
            && upstream.data.value.toolArguments.Some? && upstream.data.value.toolArguments.value != ""
            && parse(upstream.data.value.toolArguments.value).Success?)
      && (r.status == 200 ==> r.body == JsonBody(parse(upstream.data.value.toolArguments.value).value))
  {
  }

  /** A non-OK status other than 429 and 402 gives a 500 naming the status. */
  lemma OtherStatusIsGatewayError(status: int, data: Result<Completion, string>, parse: string -> Result<string, string>)
    requires !IsOk(status) && status != 429 && status != 402
    ensures AnalysisResponse(Responded(status, data), parse) == ServerError("AI gateway error: " + IntToString(status))
  {
  }

  /** An OK reply without tool-call arguments gives a 500 with the fixed message. */
  lemma MissingToolCall(status: int, content: Option<string>, parse: string -> Result<string, string>)
    requires IsOk(status)
    ensures AnalysisResponse(Responded(status, Success(Completion(None, content))), parse) == ServerError(NoStructuredResponseMessage)
    ensures AnalysisResponse(Responded(status, Success(Completion(Some(""), content))), parse) == ServerError(NoStructuredResponseMessage)
  {
  }
}
