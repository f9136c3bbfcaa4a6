/**
 * The `career-chat` edge function (supabase/functions/career-chat/index.ts):
 * the system message that carries the student's analysis results, the
 * conversation forwarded after it, and the mapping of the gateway's
 * outcome onto the HTTP response.
 */
module CareerChat {
  import opened Wrappers
  import opened JsStrings
  import opened QuizData
  import opened Gateway

  /** The advisor instructions that open the system message. */
  const SystemPrompt: string :=
    "You are PathGenie, a friendly and knowledgeable AI career advisor for engineering students and recent graduates. You have already analyzed the student's profile and provided career recommendations.\n"
    + "\n"
    + "You are now in a follow-up conversation. The student may ask you:\n"
    + "- Deeper questions about any of their recommended careers\n"
    + "- How to get started with a specific path\n"
    + "- Salary negotiation tips\n"
    + "- Interview preparation advice\n"
    + "- Course/certification recommendations\n"
    + "- How to transition between fields\n"
    + "- Comparisons between different career paths\n"
    + "- General career guidance\n"
    + "\n"
    + "Guidelines:\n"
    + "- Be conversational, warm, and encouraging\n"
    + "- Give specific, actionable advice (not generic)\n"
    + "- Reference their actual profile data when relevant\n"
    + "- Keep responses concise (2-4 paragraphs max)\n"
    + "- Use Indian market context for salary/job info when relevant\n"
    + "- If asked something completely unrelated to careers/tech, gently redirect"

  /** How many characters of `why_fits` a context line keeps. */
  const WhyFitsLimit: nat := 150

  /** `#rank title (fit% fit) - ` followed by the first 150 characters of `why_fits`. */
  function RecommendationLine(r: CareerRecommendation): string {
    "#" + IntToString(r.rank) + " " + r.careerTitle + " (" + IntToString(r.fitScore) + "% fit) - "
      + Prefix(r.whyFits, WhyFitsLimit)
  }

  /** `results.recommendations.map(...)`: one line per recommendation, in order. */
  function RecommendationLines(recs: seq<CareerRecommendation>): (lines: seq<string>)
    ensures |lines| == |recs|
    ensures forall k :: 0 <= k < |recs| ==> lines[k] == RecommendationLine(recs[k])
  {
    if recs == [] then [] else [RecommendationLine(recs[0])] + RecommendationLines(recs[1..])
  }

  const ContextHeading := "\nThe student's career analysis results:\n- Top recommendation: "

  /** The summary part of the context, up to and including the heading of the list. */
  function SummaryContext(s: Summary): string {
    ContextHeading + s.topRecommendation + " (Confidence: " + s.confidenceLevel + ")\n- "
      + s.confidenceExplanation + "\n\nCareer recommendations:\n"
  }

  /** `resultsContext`: the summary, then the recommendation lines joined with newlines, then a newline. */
  function ResultsContext(results: AnalysisResult): string {
    SummaryContext(results.summary) + Join("\n", RecommendationLines(results.recommendations)) + "\n"
  }

  const ContextIntro := "\n\nContext about the student:\n"

  function SystemMessage(results: AnalysisResult): string {
    SystemPrompt + ContextIntro + ResultsContext(results)
  }

  /**
   * The messages posted to the gateway: the system message followed by the
   * conversation exactly as the client sent it; or the error thrown before
   * any request is made when the API key is missing.
   */
  function ChatRequest(apiKey: Option<string>, turns: seq<Message>, results: AnalysisResult): (r: Result<seq<Message>, string>)
    ensures !HasKey(apiKey) <==> r == Failure(MissingKeyMessage)
    ensures r.Success? ==> |r.value| == |turns| + 1 && r.value[0] == Message(System, SystemMessage(results)) && r.value[1..] == turns
  {
    if !HasKey(apiKey) then Failure(MissingKeyMessage)
    else Success([Message(System, SystemMessage(results))] + turns)
  }

  /**
   * With a key, when the client's conversation holds no system turn, the
   * posted system message is the only one: it comes first, and every later
   * message is the client's turn at the same position.
   */
  lemma ChatRequestSingleSystem(apiKey: Option<string>, turns: seq<Message>, results: AnalysisResult)
    requires HasKey(apiKey)
    requires forall k :: 0 <= k < |turns| ==> turns[k].role != System
    ensures var r := ChatRequest(apiKey, turns, results);
      && r.Success? && |r.value| == |turns| + 1
      && r.value[0] == Message(System, SystemMessage(results))
      && (forall k :: 0 <= k < |r.value| && r.value[k].role == System ==> k == 0)
      && (forall k :: 0 < k < |r.value| ==> r.value[k] == turns[k - 1])
  {
    var r := ChatRequest(apiKey, turns, results);
    forall k | 0 < k < |r.value|
      ensures r.value[k] == turns[k - 1]
    {
      assert r.value[k] == r.value[1..][k - 1];
    }
  }

  const NoReplyMessage := "No response from AI"

  /** The response for the gateway's outcome once the request was sent. */
  function ChatResponse(upstream: Upstream): HttpResponse {
    match upstream
    case Unreachable(m) => ServerError(m)
    case Responded(status, data) =>
      if !IsOk(status) then
        if status == 429 then HttpResponse(429, ErrorBody(RateLimitMessage))
        else ServerError(GatewayErrorMessage(status))
      else match data
        case Failure(m) => ServerError(m)
        case Success(c) =>
          if c.content.None? || c.content.value == "" then ServerError(NoReplyMessage)
          else HttpResponse(200, ReplyBody(c.content.value))
  }

  /** The whole handler, from the environment's key and the request body to the response. */
  function HandleChat(apiKey: Option<string>, turns: seq<Message>, results: AnalysisResult, upstream: Upstream): HttpResponse {
    match ChatRequest(apiKey, turns, results)
    case Failure(m) => ServerError(m)
    case Success(_) => ChatResponse(upstream)
  }

  /** Without a key the handler answers 500 whatever the gateway would have said. */
  lemma ChatMissingKeyFailsFirst(apiKey: Option<string>, turns: seq<Message>, results: AnalysisResult, u1: Upstream, u2: Upstream)
    requires !HasKey(apiKey)
    ensures HandleChat(apiKey, turns, results, u1) == ServerError(MissingKeyMessage)
    ensures HandleChat(apiKey, turns, results, u1) == HandleChat(apiKey, turns, results, u2)
  {
  }

  /**
   * The status mapping: only 429 passes through; 200 carries the gateway's
   * non-empty reply text, and every other failure is a 500.
   */
  lemma ChatStatusMapping(upstream: Upstream)
    ensures var r := ChatResponse(upstream);
      && r.status in {200, 429, 500}
      && (r.status == 429 <==> upstream.Responded? && upstream.status == 429)
      && (r.status == 200 <==>
            && upstream.Responded? && IsOk(upstream.status) && upstream.data.Success?
            && upstream.data.value.content.Some? && upstream.data.value.content.value != "")
      && (r.status == 200 ==> r.body == ReplyBody(upstream.data.value.content.value) && r.body.reply != "")
  {
  }

  /** Unlike the analysis function, the chat function has no 402 branch: a 402 becomes a 500 naming the status. */
  lemma UsageLimitIsGatewayError(data: Result<Completion, string>)
    ensures ChatResponse(Responded(402, data)) == ServerError("AI gateway error: 402")
  {
    assert IntToString(402) == "402";
  }

  /** A context line ends with the first `min(150, |why_fits|)` characters of `why_fits`. */
  lemma {:induction false} RecommendationLineEndsWithWhy(r: CareerRecommendation)
    ensures var line, p := RecommendationLine(r), Prefix(r.whyFits, WhyFitsLimit);
      && |p| <= WhyFitsLimit
      && p == r.whyFits[..|p|]
      && (|r.whyFits| <= WhyFitsLimit ==> p == r.whyFits)
      && |p| <= |line|
      && line[|line| - |p|..] == p
      && line[..2] == "#" + IntToString(r.rank)[..1]
  {
    var p := Prefix(r.whyFits, WhyFitsLimit);
    if |r.whyFits| <= WhyFitsLimit {
      assert r.whyFits[..|r.whyFits|] == r.whyFits;
    }
  }

  /** No character of the text is a newline. */
  predicate NewlineFree(s: string) {
    '\n' !in s
  }

  lemma {:induction false} IntToStringNewlineFree(i: int)
    ensures NewlineFree(IntToString(i))
  {
    var d := NatToString(if i < 0 then -i else i);
    assert forall k :: 0 <= k < |d| ==> d[k] != '\n';
  }

  /** A line is newline-free when the title and the reason are. */
  lemma {:induction false} RecommendationLineNewlineFree(r: CareerRecommendation)
    requires NewlineFree(r.careerTitle) && NewlineFree(r.whyFits)
    ensures NewlineFree(RecommendationLine(r))
  {
    IntToStringNewlineFree(r.rank);
    IntToStringNewlineFree(r.fitScore);
    var p := Prefix(r.whyFits, WhyFitsLimit);
    assert forall k :: 0 <= k < |p| ==> p[k] == r.whyFits[k];
  }

  /**
   * The context lists every recommendation in order: splitting the list
   * part at newlines gives back one line per recommendation.
   */
  lemma ContextListsEveryRecommendation(results: AnalysisResult)
    requires results.recommendations != []
    requires forall k :: 0 <= k < |results.recommendations| ==>
      NewlineFree(results.recommendations[k].careerTitle) && NewlineFree(results.recommendations[k].whyFits)
    ensures var ctx, head := ResultsContext(results), SummaryContext(results.summary);
      && ctx[..|head|] == head
      && ctx[|ctx| - 1] == '\n'
      && SplitOn(ctx[|head|..|ctx| - 1], '\n') == RecommendationLines(results.recommendations)
  {
    var lines := RecommendationLines(results.recommendations);
    forall k | 0 <= k < |lines| ensures '\n' !in lines[k] {
      RecommendationLineNewlineFree(results.recommendations[k]);
    }
    SplitJoin('\n', lines);
    var head, body := SummaryContext(results.summary), Join("\n", lines);
    SliceMiddle(head, body, "\n");
  }

  lemma SliceMiddle(a: string, b: string, c: string)
    requires c != []
    ensures var s := a + b + c; s[..|a|] == a && s[|a|..|s| - |c|] == b && s[|s| - 1] == c[|c| - 1]
  {
  }

  /** The system message opens with the fixed prompt and ends with the results context. */
  lemma SystemMessageShape(results: AnalysisResult)
    ensures var m, ctx := SystemMessage(results), ResultsContext(results);
      && m[..|SystemPrompt|] == SystemPrompt
      && |m| == |SystemPrompt| + |ContextIntro| + |ctx|
      && m[|m| - |ctx|..] == ctx
  {
  }
}
