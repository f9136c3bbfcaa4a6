# PathGenie career quiz, modelled in Dafny

PathGenie is a career quiz for engineering students. A student enters an
email on the landing screen and answers nineteen questions. An analysis
screen then steps through four stages, and a results page follows. The
results page shows ranked career recommendations as cards. The page
discards the answers and always shows the fixed `mockResults`; it never
calls a server function to analyse them.

The repository also holds parts that nothing in it wires together:

- A chart component (`ResultsCharts`) and a chat panel (`CareerChatbot`). No page or component renders either of them: `ResultsView` imports neither, and the pages render only `ResultsView`.
- Two server functions that talk to an AI gateway. `analyze-career` turns the answers into a prompt and returns the gateway's structured recommendations. The client never calls it. `career-chat` forwards a conversation, prefixed with a system message that describes the student's results. Only the unmounted chat panel calls it.

This project models that core in Dafny and proves what each part promises:

- **Data** (`quiz_data.dfy`, module `QuizData`): the question catalog and the mock results, as datatypes and constants, with the catalog facts proved by evaluation.
- **Questionnaire** (`questionnaire.dfy`): the `isAnswered` gate, the multi-select toggle, the input handlers, and a `Questionnaire` class whose methods update `currentIndex` and `answers`.
- **analyze-career** (`analyze_career.dfy`) and **career-chat** (`career_chat.dfy`): the prompt and context builders, and the mapping of the gateway's outcome onto an HTTP response. Shared response and gateway shapes are in `gateway.dfy`.
- **Results page**: the presentation rules and card toggle (`results_view.dfy`), and the data of the unmounted chart component (`results_charts.dfy`).
- **Chat panel** (`career_chatbot.dfy`), a component nothing mounts: a `Chatbot` class holding `messages`, `input` and `loading`.
- **Screens**: the landing-screen email check (`landing_screen.dfy`), the analysis stage counter (`analysis_screen.dfy`), and the page's step machine (`index_page.dfy`).
- **Helpers**: `js_strings.dfy` models the JavaScript string operations the code relies on (`trim`, `\s`, `includes`, `join`, `split`, `slice`, and number formatting). `wrappers.dfy` holds `Option` and `Result`.

Modelling conventions:

- Strings are sequences of Unicode scalar values.
- Numbers that the code treats as integers are `int`.
- The gateway's reply is an input value (`Gateway.Upstream`), never a call.
- `JSON.parse` of the tool arguments is a function parameter that returns the serialised result or the parser's error message.

## Model

| member | source | states |
|---|---|---|
| QuizData.CatalogIdsDistinct | src/lib/quizData.ts:20-355 | the catalog has 19 questions and their ids are pairwise distinct |
| QuizData.CatalogOptionsFitKind | src/lib/quizData.ts:20-355 | select and multi-select questions carry a non-empty option list; text, textarea and rating questions carry none |
| QuizData.CatalogOptionValuesDistinct | src/lib/quizData.ts:40-333 | within every question the option values are pairwise distinct |
| QuizData.LanguageOptionsDistinct | src/lib/quizData.ts:79-115 | the 35 language values are distinct |
| QuizData.SubjectOptionsDistinct | src/lib/quizData.ts:125-154 | the 28 subject values are distinct |
| QuizData.ToolOptionsDistinct | src/lib/quizData.ts:178-194 | the 15 tool values are distinct |
| QuizData.InterestOptionsDistinct | src/lib/quizData.ts:203-216 | the 12 interest values are distinct |
| QuizData.MajorOptionsDistinct | src/lib/quizData.ts:40-51 | the ten major values are distinct |
| QuizData.SelectOptionsDistinct | src/lib/quizData.ts:55-267 | the option values of the year, proficiency, work-style and work-pace questions are distinct |
| QuizData.PriorityOptionsDistinct | src/lib/quizData.ts:271-333 | the option values of the collaboration, salary, growth and failure-handling questions are distinct |
| QuizData.CatalogOptionalQuestions | src/lib/quizData.ts:20-355 | a question is optional exactly when its id is `tools`, `hackathons` or `constraints` |
| QuizData.CatalogRatingQuestion | src/lib/quizData.ts:336-344 | a question is a rating question exactly when its id is `pre_confidence` |
| QuizData.MockResultsShape | src/lib/quizData.ts:384-490 | the mock result has four recommendations ranked 1..4 in list order, with fit scores strictly decreasing and inside 60..95 |
| QuizData.MockResultsSummary | src/lib/quizData.ts:520-525 | the summary's top recommendation is the rank-1 title, and its confidence level is High, Medium or Low |
| Questionnaire.AnsweredCases | src/components/Questionnaire.tsx:85-91 | an optional question is always answered; a required one is unanswered exactly when the answer is absent, blank text, an empty list or 0 |
| Questionnaire.Remove | src/components/Questionnaire.tsx:56 | a removed value is gone, every other value keeps its membership, and the multiset loses only that value |
| Questionnaire.ToggleMembership | src/components/Questionnaire.tsx:48-58 | after a toggle the value is selected exactly when it was not before, and no other value changes |
| Questionnaire.RemoveKeepsDistinct | src/components/Questionnaire.tsx:56 | removing from a list without duplicates leaves a list without duplicates |
| Questionnaire.ToggleKeepsDistinct | src/components/Questionnaire.tsx:53-58 | a toggle never introduces a duplicate |
| Questionnaire.RemoveAbsent | src/components/Questionnaire.tsx:56 | removing an absent value leaves the list unchanged |
| Questionnaire.RemoveSnoc | src/components/Questionnaire.tsx:56-57 | removing a value that was just appended gives back the list before the append |
| Questionnaire.ToggleTwiceAbsent | src/components/Questionnaire.tsx:53-58 | toggling an unselected value twice restores the list exactly |
| Questionnaire.ToggleTwice | src/components/Questionnaire.tsx:53-58 | toggling any value twice restores the selected set, and for a list without duplicates the multiset |
| Questionnaire.DistinctCountsOne | src/components/Questionnaire.tsx:48 | in a list without duplicates a selected value occurs exactly once |
| Questionnaire.RatingChoicesRange | src/components/Questionnaire.tsx:18-22 | the rating buttons offer exactly the integers 1..10 |
| Questionnaire.NewValueFits | src/components/Questionnaire.tsx:109-160 | the value any input hands to `setAnswer` fits its question's kind, and typed text is stored untrimmed |
| Questionnaire.Questionnaire.constructor | src/components/Questionnaire.tsx:77-78 | the component starts on question 0 of the catalog with no answers |
| Questionnaire.Questionnaire.SetAnswer | src/components/Questionnaire.tsx:93-95 | only the current question's entry is overwritten; every other entry and the index are unchanged |
| Questionnaire.Questionnaire.Input | src/components/Questionnaire.tsx:109-160 | an input event stores the handler's value under the current id and keeps every stored answer well-shaped |
| Questionnaire.Questionnaire.Next | src/components/Questionnaire.tsx:97-103 | below the last index the index grows by one; at the last index it stays and the answers are emitted |
| Questionnaire.Questionnaire.ClickNext | src/components/Questionnaire.tsx:246-247 | while `isAnswered` fails, a click on Next changes nothing and emits nothing; otherwise it acts as `next` |
| Questionnaire.Questionnaire.Back | src/components/Questionnaire.tsx:105-107 | the index drops by one unless it is 0, so it stays within the catalog, and it stays put exactly when the Back button is disabled (line 238) |
| AnalyzeCareer.LineIndicesFrom | supabase/functions/analyze-career/index.ts:35-42 | the positions that produce a line increase and are in range, and they are exactly the questions with a truthy answer |
| AnalyzeCareer.SummaryLinesInCatalogOrder | supabase/functions/analyze-career/index.ts:35-42 | the summary has one line per question with a truthy answer, in catalog order, each `question: answer` |
| AnalyzeCareer.FalsyAnswerNoLine | supabase/functions/analyze-career/index.ts:37-38 | an absent answer, `""` or `0` produces no line |
| AnalyzeCareer.EmptyListLine | supabase/functions/analyze-career/index.ts:38-40 | an empty list is truthy and produces the line `question: ` with nothing after it |
| AnalyzeCareer.SummarySplitsIntoLines | supabase/functions/analyze-career/index.ts:43 | when no line holds a newline, splitting the summary at newlines gives back the lines |
| AnalyzeCareer.UserMessageShape | supabase/functions/analyze-career/index.ts:45 | the user message is the summary between the fixed opening and closing sentences |
| AnalyzeCareer.AnalysisRequestCarriesAnswers | supabase/functions/analyze-career/index.ts:31-60 | with a key, exactly two messages are posted: the counsellor prompt as system message, then a user message whose summary holds the line of every question with a truthy answer and no other line |
| AnalyzeCareer.MissingKeyFailsFirst | supabase/functions/analyze-career/index.ts:31-32 | without a key the handler answers 500 whatever the gateway would have said |
| AnalyzeCareer.AnalysisStatusMapping | supabase/functions/analyze-career/index.ts:158-193 | 429 and 402 pass through; the result is 200 exactly when the status is OK and the tool arguments are present, non-empty and parse; everything else is 500 |
| AnalyzeCareer.OtherStatusIsGatewayError | supabase/functions/analyze-career/index.ts:171-173 | any other non-OK status gives a 500 with `AI gateway error: <status>` |
| AnalyzeCareer.MissingToolCall | supabase/functions/analyze-career/index.ts:177-181 | an OK reply with missing or empty tool arguments gives a 500 with "No structured response from AI" |
| CareerChat.RecommendationLines | supabase/functions/career-chat/index.ts:47 | one context line per recommendation, in list order |
| CareerChat.RecommendationLineEndsWithWhy | supabase/functions/career-chat/index.ts:47 | a context line opens with `#` and ends with the first min(150, length) characters of `why_fits` |
| CareerChat.ContextListsEveryRecommendation | supabase/functions/career-chat/index.ts:41-48 | the context opens with the summary part, ends with a newline, and between them splits at newlines into exactly the recommendation lines |
| CareerChat.SystemMessageShape | supabase/functions/career-chat/index.ts:50 | the system message is the fixed prompt, the context heading and then the results context, in that order |
| CareerChat.ChatRequestSingleSystem | supabase/functions/career-chat/index.ts:37-65 | with a key and a conversation without system turns, the posted system message is the only one, comes first, and is followed by the client's turns unchanged and in order |
| CareerChat.ChatMissingKeyFailsFirst | supabase/functions/career-chat/index.ts:37-38 | without a key the handler answers 500 whatever the gateway would have said |
| CareerChat.ChatStatusMapping | supabase/functions/career-chat/index.ts:70-95 | only 429 passes through; the result is 200 exactly when the status is OK and the reply is non-empty, and it then carries that reply; everything else is 500 |
| CareerChat.UsageLimitIsGatewayError | supabase/functions/career-chat/index.ts:70-80 | there is no 402 branch: a 402 becomes a 500 with `AI gateway error: 402` |
| ResultsCharts.ShortNameFits | src/components/ResultsCharts.tsx:32 | with a one-character ellipsis a bar name never exceeds 15 characters; a short title is kept whole and a long one keeps its first 14 |
| ResultsCharts.ShortNameAsWrittenOverflows | src/components/ResultsCharts.tsx:32 | with the three-character sequence in the file, every shortened name is 17 characters long |
| ResultsCharts.ShortNameAsWrittenExample | src/components/ResultsCharts.tsx:32 | "Machine Learning Engineer" becomes 17 characters as written and 15 as intended |
| ResultsCharts.BarsWith | src/components/ResultsCharts.tsx:31-35 | one bar per recommendation, in order, each holding that career's score, its full title and its title shortened with the given ending |
| ResultsCharts.BarDataAsWrittenOverflows | src/components/ResultsCharts.tsx:31-35 | with line 32 as written, each bar keeps its score and full title, a short title is shown whole, and a title over 15 characters gets a 17-character name |
| ResultsCharts.MockFirstBarName | src/components/ResultsCharts.tsx:31-35 | the mock results' first bar, "Machine Learning Engineer", is named with 17 characters as written and 15 as intended |
| ResultsCharts.BarDataFaithful | src/components/ResultsCharts.tsx:31-35 | with the intended single ellipsis, each bar carries its fit score and full title, under a name of at most 15 characters that is the title or its first 14 characters and an ellipsis |
| ResultsCharts.Top3 | src/components/ResultsCharts.tsx:38 | the top three are the first min(3, n) recommendations, in order |
| ResultsCharts.ParseFirstWord | src/components/ResultsCharts.tsx:60-65 | the loop with early return computes the keyword score |
| ResultsCharts.KeywordScoreFirstMatch | src/components/ResultsCharts.tsx:60-65 | when key j is the first key in declaration order that occurs in the text, the score is its value |
| ResultsCharts.KeywordScoreNoMatch | src/components/ResultsCharts.tsx:64 | when no key occurs, the score is 50 |
| ResultsCharts.KeywordScoreIsAValue | src/components/ResultsCharts.tsx:60-65 | the score is one of the map's values or 50 |
| ResultsCharts.KeywordScoresInRange | src/components/ResultsCharts.tsx:41-65 | with the three maps of the source, the score is one of 95, 80, 60, 40 and 50 |
| ResultsCharts.VeryHighBeatsHigh | src/components/ResultsCharts.tsx:41-46 | "Very High", which also contains "High", scores 95; "High" scores 80 |
| ResultsCharts.SkillsMatch | src/components/ResultsCharts.tsx:71-74 | the skills match is the nearest whole percentage of have / (have + develop), halves rounded up, and lies in 0..100 |
| ResultsCharts.SkillsMatchEnds | src/components/ResultsCharts.tsx:71-74 | nothing to develop gives 100, nothing in hand gives 0 |
| ResultsCharts.SkillsMatchExamples | src/components/ResultsCharts.tsx:71-74 | (2,1) gives 67, (3,5) gives 38, (1,2) gives 33 |
| ResultsCharts.DimensionValuesDefined | src/components/ResultsCharts.tsx:67-81 | each of the five dimensions gets a value; Fit Score is the fit score and the others lie in 0..100 |
| ResultsCharts.SeriesKeyInjective | src/components/ResultsCharts.tsx:70 | different careers get different keys `c0`, `c1`, ... |
| ResultsCharts.RadarData | src/components/ResultsCharts.tsx:39-83 | the radar has the five dimensions in fixed order; each row has exactly the keys `c0..c{k-1}` for the top three, holding that career's value |
| ResultsCharts.RadarEntry | src/components/ResultsCharts.tsx:68-82 | the keyed values of one row, written career by career, hold exactly one value per career under `c0..c{k-1}` |
| ResultsCharts.BarColorCycles | src/components/ResultsCharts.tsx:22-28 | bar colours repeat with period five, and the five colours of a period differ |
| ResultsCharts.RadarColorMatchesBar | src/components/ResultsCharts.tsx:128-154 | radar series i has the colour of bar i |
| ResultsView.TierOf | src/components/ResultsView.tsx:26-30 | a score is Strong from 85, Fair from 70 to 84, and Weak below 70 |
| ResultsView.FitColorsFollowTier | src/components/ResultsView.tsx:26-36 | the text class and the bar class both pick the colour of the score's tier, so they always agree |
| ResultsView.TierClassNames | src/components/ResultsView.tsx:26-36 | the class names of each tier are `text-`/`bg-` followed by success, highlight or muted-foreground |
| ResultsView.FitColorBoundaries | src/components/ResultsView.tsx:26-30 | 85 is success, 84 and 70 are highlight, and 69 is muted |
| ResultsView.ConfidenceColor | src/components/ResultsView.tsx:239-244 | High maps to success, Medium to highlight, and anything else to muted, each in both directions |
| ResultsView.Preview | src/components/ResultsView.tsx:76 | the preview is the first min(120, length) characters of `why_fits` followed by "..." |
| ResultsView.StepNumbersAreOneToN | src/components/ResultsView.tsx:189-193 | every step is shown once, in order, with its own text, and the numbers run 1, 2, ..., n without gaps |
| ResultsView.OnlyFirstCardIsTopMatch | src/components/ResultsView.tsx:52-67 | one card per recommendation, in list order, and exactly the first is marked as the top match |
| ResultsView.CareerCard.constructor | src/components/ResultsView.tsx:45 | a card starts collapsed |
| ResultsView.CareerCard.Click | src/components/ResultsView.tsx:58 | a click flips the card's `expanded` flag |
| ResultsView.ClickCard | src/components/ResultsView.tsx:58 | a click on card k flips that card only |
| CareerChatbot.SubmitDisabledIffBlank | src/components/CareerChatbot.tsx:193 | the send button is disabled exactly when the input is all white space or a reply is awaited |
| CareerChatbot.SuggestionsAreNotBlank | src/components/CareerChatbot.tsx:12-17 | none of the four suggested questions is blank |
| CareerChatbot.AskKeepsWellFormed | src/components/CareerChatbot.tsx:32-40 | appending a trimmed student turn to a settled conversation gives an odd-length alternating conversation awaiting a reply |
| CareerChatbot.AnswerKeepsWellFormed | src/components/CareerChatbot.tsx:49-61 | appending the assistant turn to a conversation awaiting a reply settles it again |
| CareerChatbot.ExchangeKeepsAlternating | src/components/CareerChatbot.tsx:36-58 | a student turn followed by an assistant turn keeps the conversation alternating |
| CareerChatbot.AlternatingHasNoSystem | src/components/CareerChatbot.tsx:42-46 | the alternating conversation the widget posts to `career-chat` holds no system turn, so that function's single-system guarantee applies to it |
| CareerChatbot.Chatbot.constructor | src/components/CareerChatbot.tsx:20-23 | the panel starts closed, with no messages, an empty input and no reply awaited |
| CareerChatbot.Chatbot.SetOpen | src/components/CareerChatbot.tsx:75-106 | the floating button (line 75) opens the panel and the close button (line 106) closes it; the conversation, the input and `loading` are unchanged |
| CareerChatbot.Chatbot.Send | src/components/CareerChatbot.tsx:32-47 | blank text or an awaited reply changes nothing and sends nothing; otherwise the trimmed text is appended, the input cleared, loading set, and the whole history sent |
| CareerChatbot.Chatbot.Ask | src/components/CareerChatbot.tsx:35-47 | an accepted turn is appended, the input cleared, loading set and the whole history sent, keeping the conversation well formed |
| CareerChatbot.Chatbot.Submit | src/components/CareerChatbot.tsx:178-181 | submitting sends the input box's text and is ignored exactly when the button is disabled |
| CareerChatbot.Chatbot.Suggest | src/components/CareerChatbot.tsx:115-127 | the suggestions are shown only on an empty conversation, and a click on one is always accepted: it becomes the first turn, loading is set and it is sent |
| CareerChatbot.Chatbot.Receive | src/components/CareerChatbot.tsx:49-61 | exactly one assistant turn is appended and loading is cleared |
| CareerChatbot.Chatbot.Exchange | src/components/CareerChatbot.tsx:32-61 | an accepted send and its reply grow the conversation by exactly two turns and leave loading false |
| CareerChatbot.Chatbot.Type | src/components/CareerChatbot.tsx:185-189 | typing stores the text and changes nothing else |
| LandingScreen.ValidEmail | src/components/LandingScreen.tsx:15 | the part-by-part check holds exactly when the pattern `^[^\s@]+@[^\s@]+\.[^\s@]+$` matches |
| LandingScreen.PatternByParts | src/components/LandingScreen.tsx:15 | with the first `@` fixed, the pattern matches exactly when there is a non-empty local part, no second `@`, and a dot that is neither first nor last in the domain |
| LandingScreen.ValidEmailExamples | src/components/LandingScreen.tsx:15 | `""`, `a@b` and `a@.b` are rejected and `a@b.co` is accepted |
| LandingScreen.LandingScreen.constructor | src/components/LandingScreen.tsx:10-11 | the screen starts with an empty email and no error |
| LandingScreen.LandingScreen.Submit | src/components/LandingScreen.tsx:13-20 | a rejected email sets the fixed error and starts nothing; an accepted one is passed on unchanged |
| LandingScreen.LandingScreen.Edit | src/components/LandingScreen.tsx:102-105 | every edit stores the text and clears the error |
| AnalysisScreen.HighlightedDots | src/components/AnalysisScreen.tsx:59-66 | the number of highlighted dots is `stageIndex + 1` |
| AnalysisScreen.AnalysisScreen.constructor | src/components/AnalysisScreen.tsx:17-20 | the screen starts on stage 0 with the interval running and no completion scheduled |
| AnalysisScreen.StageLabelsDistinct | src/components/AnalysisScreen.tsx:5-10 | the four stage labels are pairwise different |
| AnalysisScreen.AnalysisScreen.Label | src/components/AnalysisScreen.tsx:56 | the heading shows one of the stage labels, the label of the current stage and of no other |
| AnalysisScreen.AnalysisScreen.Tick | src/components/AnalysisScreen.tsx:20-28 | below the last stage the index grows by one; at the last it stays, the interval stops, and completion is scheduled once; a stopped interval changes nothing |
| AnalysisScreen.AnalysisScreen.TickMany | src/components/AnalysisScreen.tsx:20-31 | after n firings from the start the index is min(n, 3), and completion has been scheduled once exactly when n > 3 |
| IndexPage.StepsFormOneCycle | src/pages/Index.tsx:32-41 | the steps form one cycle of length four |
| IndexPage.App.constructor | src/pages/Index.tsx:11-12 | the page starts on the landing step with an empty email |
| IndexPage.App.Render | src/pages/Index.tsx:32-41 | only the results step shows the results screen, and it always shows the mock results |
| IndexPage.App.Start | src/pages/Index.tsx:14-17 | the email is stored and the questionnaire opens |
| IndexPage.App.QuizComplete | src/pages/Index.tsx:19-21 | the answers are discarded and the analysis step follows |
| IndexPage.App.AnalysisComplete | src/pages/Index.tsx:23-25 | the results step follows the analysis |
| IndexPage.App.StartOver | src/pages/Index.tsx:27-30 | the page returns to the landing step and the email is cleared |
| IndexPage.App.Round | src/pages/Index.tsx:14-41 | a whole round shows the mock results whatever the answers, and ends on the landing step with no email |
| JsStrings.TrimEmptyIffBlank | src/components/CareerChatbot.tsx:33 | `trim()` gives the empty string exactly when every character is white space |
| JsStrings.TrimShape | src/components/CareerChatbot.tsx:35 | the result of `trim` neither starts nor ends with white space and occurs in the input |
| JsStrings.Includes | src/components/ResultsCharts.tsx:62 | `includes` holds exactly when the key occurs at some position |
| JsStrings.JoinLength | supabase/functions/analyze-career/index.ts:43 | a join is as long as its parts plus one separator between each pair |
| JsStrings.SplitJoin | supabase/functions/analyze-career/index.ts:43 | splitting a join at its separator gives back the parts when no part contains it |
| JsStrings.Prefix | supabase/functions/career-chat/index.ts:47 | `slice(0, n)` keeps the first min(n, length) characters |
| JsStrings.NatToString | supabase/functions/analyze-career/index.ts:173 | the rendering of a number is non-empty decimal digits with no leading zero |
| JsStrings.ParseNatToString | supabase/functions/analyze-career/index.ts:173 | reading a rendered number back gives the number |
| JsStrings.NatToStringInjective | src/components/ResultsCharts.tsx:70 | different numbers render differently |
| JsStrings.IntToStringShape | supabase/functions/analyze-career/index.ts:173 | a rendered integer is non-empty, starts with `-` exactly when it is negative, and is digits otherwise |
| JsStrings.IntToStringInjective | supabase/functions/analyze-career/index.ts:173 | different integers render differently |

## Left out

- Network and server plumbing are not modelled. This covers the `fetch` to the AI gateway, `serve`, the CORS preflight, `supabase.functions.invoke`, and `req.json()`. The gateway's outcome is an input value (`Gateway.Upstream`). The request body arrives already typed as catalog and answers, or as turns and results.
- `JSON.parse` of the tool arguments, and `JSON.stringify` of its result, are a parameter `parse` of `AnalyzeCareer.AnalysisResponse`. The JSON text format is not modelled.
- The `catch` branch for a thrown value that is not an `Error` ("Unknown error") is not modelled: every failure in the model carries a message.
- The tool schema, the model names and the headers of the gateway request are not modelled. Only the messages and the response mapping are.
- Nothing constrains what the AI returns: the count, ranks and score bands in the prompts are guidelines, not checks. Only the mock results are proved to meet them.
- `handleEmailReport` (src/components/ResultsView.tsx:209-237) is not modelled. It raises a `sending` flag, invokes the `send-report-email` server function (line 214), which is not part of this model, downloads the returned HTML and shows a toast. These steps are network and browser I/O. Since the report is left out, so is the fact that the page never passes the stored email to the results screen (src/pages/Index.tsx:40).
- src/pages/SharedResults.tsx and src/components/ThemeToggle.tsx are not part of this model. They are a database fetch wrapper and local-storage theme code.
- Rendering is not modelled: animations, chart components, JSX layout and the tooltip.
- The progress percentage of the questionnaire (src/components/Questionnaire.tsx:81) is not modelled, because it uses floating point.
- ResultsCharts.SkillsMatch: computed in integer arithmetic as `(200·have + t) / (2·t)` with `t = have + develop`. This can differ from the floating-point `Math.round` when a product is not exact in binary. The source divides by zero when both skill lists are empty and gets NaN; the model requires `t > 0`, and `ResultsCharts.RadarData` requires it of the top three.
- Timer delays and cleanup (`setInterval`, `setTimeout`, `clearInterval` on unmount) are not modelled. `AnalysisScreen.AnalysisScreen.Tick` is one firing, and `completions` counts scheduled callbacks.
- Each React handler is an atomic state update. `sendMessage` is split at its `await` into `Send` and `Receive`. Overlapping sends cannot happen because of the `loading` guard, so the model does not represent them.
- Indices and lengths count Unicode scalar values, while JavaScript's `length` and `slice` count UTF-16 code units. This matters for `ResultsCharts.ShortName`, `ResultsView.Preview` and `CareerChat.RecommendationLine` only on characters outside the Basic Multilingual Plane.
- JavaScript number formatting is modelled for integers only: ranks, fit scores and the numeric rating answer. Other numbers appear nowhere in the core.
- ResultsCharts.BarData: uses the corrected line 32 with the single ellipsis U+2026. The bars as written are `ResultsCharts.BarDataAsWritten`, and the Findings table gives the difference.
- The browser's own check of the `<input type="email">` field (src/components/LandingScreen.tsx:95-100) is not modelled. It can stop a submission such as "abc" before `handleSubmit` runs. `LandingScreen.LandingScreen.Submit` models `handleSubmit` alone.
- The screen handlers of `IndexPage.App` require their source step. Each handler is handed only to the screen of that step, so no other call can occur.

## Findings

| source | as written | input that shows it | evidently intended | confidence | as-written member | corrected member |
|---|---|---|---|---|---|---|
| src/components/ResultsCharts.tsx:32 | a long bar title is cut to 14 characters and followed by the three characters "â€¦". These are the UTF-8 bytes of U+2026 read back as Windows-1252. | "Machine Learning Engineer" (25 characters) gives a 17-character name | 14 characters followed by the single ellipsis U+2026, so that no name is longer than 15 | high; not executed | ResultsCharts.ShortNameAsWrittenOverflows | ResultsCharts.ShortNameFits |
