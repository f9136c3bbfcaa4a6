/**
 * The page that strings the screens together (src/pages/Index.tsx): the
 * step machine landing, questionnaire, analysis, results and back to
 * landing, and the email it stores.  Each handler is handed only to the
 * screen of one step, so each method requires that step.
 */
module IndexPage {
  import opened QuizData
  import opened Questionnaire

  datatype AppStep = Landing | QuestionnaireStep | Analysis | Results

  /** The step each screen's handler leads to. */
  function Successor(step: AppStep): AppStep {
    match step
    case Landing => QuestionnaireStep
    case QuestionnaireStep => Analysis
    case Analysis => Results
    case Results => Landing
  }

  /** The machine is one cycle through all four steps: no step is its own successor, and four moves return. */
  lemma StepsFormOneCycle(step: AppStep)
    ensures Successor(step) != step
    ensures Successor(Successor(step)) != step
    ensures Successor(Successor(Successor(step))) != step
    ensures Successor(Successor(Successor(Successor(step)))) == step
  {
  }

  /** What the page renders on each step. */
  datatype Screen = LandingView | QuestionnaireView | AnalysisView | ResultsView(results: AnalysisResult)

  class App {
    var step: AppStep
    var email: string

    /** The page opens on the landing screen with no email. */
    constructor ()
      ensures step == Landing && email == ""
    {
      step := Landing;
      email := "";
    }

    /** The results screen is always given the fixed results, whatever was answered. */
    function Render(): (s: Screen)
      reads this
      ensures s.ResultsView? <==> step == Results
      ensures s.ResultsView? ==> s.results == MockResults
    {
      match step
      case Landing => LandingView
      case QuestionnaireStep => QuestionnaireView
      case Analysis => AnalysisView
      case Results => ResultsView(MockResults)
    }

    /** `handleStart`: store the email and open the questionnaire. */
    method Start(address: string)
      requires step == Landing
      modifies this
      ensures step == QuestionnaireStep && step == Successor(old(step))
      ensures email == address
    {
      email := address;
      step := QuestionnaireStep;
    }

    /** `handleQuizComplete`: the answers are dropped and the analysis starts. */
    method QuizComplete(answers: map<string, Answer>)
      requires step == QuestionnaireStep
      modifies this
      ensures step == Analysis && step == Successor(old(step))
      ensures email == old(email)
    {
      step := Analysis;
    }

    /** `handleAnalysisComplete`: show the results. */
    method AnalysisComplete()
      requires step == Analysis
      modifies this
      ensures step == Results && step == Successor(old(step))
      ensures email == old(email)
    {
      step := Results;
    }

    /** `handleStartOver`: back to the landing screen, with the email cleared. */
    method StartOver()
      requires step == Results
      modifies this
      ensures step == Landing && step == Successor(old(step))
      ensures email == ""
    {
      step := Landing;
      email := "";
    }

    /**
     * A whole round from the landing screen: whatever the answers, the
     * results screen shows the fixed results, and the machine ends where it
     * began with the email cleared.
     */
    method Round(address: string, answers: map<string, Answer>) returns (shown: Screen)
      requires step == Landing
      modifies this
      ensures shown == ResultsView(MockResults)
      ensures step == Landing && email == ""
    {
      Start(address);
      QuizComplete(answers);
      AnalysisComplete();
      shown := Render();
      StartOver();
    }
  }
}
