/**
 * The presentation rules of the results page (src/components/ResultsView.tsx):
 * the colour tiers of fit scores and of the confidence level, the preview
 * of each card, which card is the top match, step numbering, and each
 * card's expand toggle.
 */
module ResultsView {
  import opened JsStrings
  import opened QuizData

  /** `fitColor`: the text colour class of a fit score. */
  function FitColor(score: int): string {
    if score >= 85 then "text-success"
    else if score >= 70 then "text-highlight"
    else "text-muted-foreground"
  }

  /** `fitBgColor`: the colour class of a fit score's bar. */
  function FitBgColor(score: int): string {
    if score >= 85 then "bg-success"
    else if score >= 70 then "bg-highlight"
    else "bg-muted-foreground"
  }

  /** The three tiers of a fit score. */
  datatype Tier = Strong | Fair | Weak

  function TierOf(score: int): (t: Tier)
    ensures t == Strong <==> 85 <= score
    ensures t == Fair <==> 70 <= score < 85
    ensures t == Weak <==> score < 70
  {
    if score >= 85 then Strong else if score >= 70 then Fair else Weak
  }

  /** The colour name of a tier, shared by the text and the bar classes. */
  function TierColor(t: Tier): string {
    match t
    case Strong => "success"
    case Fair => "highlight"
    case Weak => "muted-foreground"
  }

  /** The text and bar class names built from each tier's colour. */
  lemma TierClassNames(t: Tier)
    ensures "text-" + TierColor(t) == match t
      case Strong => "text-success" case Fair => "text-highlight" case Weak => "text-muted-foreground"
    ensures "bg-" + TierColor(t) == match t
      case Strong => "bg-success" case Fair => "bg-highlight" case Weak => "bg-muted-foreground"
  {
    match t
    case Strong =>
      assert "text-" + "success" == "text-success";
      assert "bg-" + "success" == "bg-success";
    case Fair =>
      assert "text-" + "highlight" == "text-highlight";
      assert "bg-" + "highlight" == "bg-highlight";
    case Weak =>
      assert "text-" + "muted-foreground" == "text-muted-foreground";
      assert "bg-" + "muted-foreground" == "bg-muted-foreground";
  }

  /** Both class functions pick the colour of the score's tier: text and bar always agree. */
  lemma FitColorsFollowTier(score: int)
    ensures FitColor(score) == "text-" + TierColor(TierOf(score))
    ensures FitBgColor(score) == "bg-" + TierColor(TierOf(score))
  {
    TierClassNames(TierOf(score));
  }

  /** The boundaries fall at 85 and 70, both inclusive. */
  lemma FitColorBoundaries()
    ensures FitColor(85) == "text-success" && FitColor(84) == "text-highlight"
    ensures FitColor(70) == "text-highlight" && FitColor(69) == "text-muted-foreground"
  {
  }

  /** `confidenceColor`: success for "High", highlight for "Medium", muted for anything else. */
  function ConfidenceColor(level: string): (c: string)
    ensures c == "text-success" <==> level == "High"
    ensures c == "text-highlight" <==> level == "Medium"
    ensures c == "text-muted-foreground" <==> level != "High" && level != "Medium"
  {
    if level == "High" then "text-success"
    else if level == "Medium" then "text-highlight"
    else "text-muted-foreground"
  }

  /** How many characters of `why_fits` the collapsed card shows. */
  const PreviewLength: nat := 120

  /** The collapsed card's text: the first 120 characters of `why_fits` and "...", whatever its length. */
  function Preview(whyFits: string): (p: string)
    ensures |p| == (if |whyFits| < PreviewLength then |whyFits| else PreviewLength) + 3
    ensures p[..|p| - 3] == whyFits[..|p| - 3]
    ensures p[|p| - 3..] == "..."
  {
    Prefix(whyFits, PreviewLength) + "..."
  }

  /** A numbered step of the expanded card. */
  datatype Step = Step(number: nat, text: string)

  /** `next_steps.map((step, i) => ... i + 1 ...)`. */
  function NumberedSteps(steps: seq<string>): (r: seq<Step>)
    ensures |r| == |steps|
    ensures forall i :: 0 <= i < |r| ==> r[i] == Step(i + 1, steps[i])
  {
    seq(|steps|, i requires 0 <= i < |steps| => Step(i + 1, steps[i]))
  }

  /** Every step is shown once, in order, with its own text; the numbers run 1, 2, ..., n without gaps. */
  lemma StepNumbersAreOneToN(steps: seq<string>)
    ensures var r := NumberedSteps(steps);
      && |r| == |steps|
      && (forall i :: 0 <= i < |r| ==> r[i].text == steps[i])
      && (steps != [] ==> r[0].number == 1 && r[|r| - 1].number == |steps|)
      && (forall i :: 0 <= i < |r| - 1 ==> r[i + 1].number == r[i].number + 1)
  {
  }

  /** What a collapsed card shows. */
  datatype CardFace = CardFace(
    topMatch: bool,      // the ring and the "Top Match" badge
    rankLabel: string,   // `#{rank}`
    title: string,
    preview: string,
    fitLabel: string,    // `{fit_score}%`
    fitClass: string,
    barClass: string
  )

  function Face(rec: CareerRecommendation, index: nat): CardFace {
    CardFace(index == 0, "#" + IntToString(rec.rank), rec.careerTitle, Preview(rec.whyFits),
             IntToString(rec.fitScore) + "%", FitColor(rec.fitScore), FitBgColor(rec.fitScore))
  }

  /** `recommendations.map((rec, i) => <CareerCard rec={rec} index={i} />)`. */
  function Faces(recs: seq<CareerRecommendation>): (faces: seq<CardFace>)
    ensures |faces| == |recs|
    ensures forall i :: 0 <= i < |recs| ==> faces[i] == Face(recs[i], i)
  {
    seq(|recs|, i requires 0 <= i < |recs| => Face(recs[i], i))
  }

  /** The cards follow the list order, and only the first is marked as the top match. */
  lemma OnlyFirstCardIsTopMatch(recs: seq<CareerRecommendation>)
    ensures var faces := Faces(recs);
      && |faces| == |recs|
      && (forall i :: 0 <= i < |faces| ==> faces[i].title == recs[i].careerTitle)
      && (forall i :: 0 <= i < |faces| ==> (faces[i].topMatch <==> i == 0))
      && (recs != [] ==> |set i | 0 <= i < |faces| && faces[i].topMatch| == 1)
  {
    var faces := Faces(recs);
    if recs != [] {
      assert (set i | 0 <= i < |faces| && faces[i].topMatch) == {0};
    }
  }

  /** One career card with its own `expanded` flag. */
  class CareerCard {
    const rec: CareerRecommendation
    const index: nat
    var expanded: bool

    /** A card starts collapsed. */
    constructor (rec: CareerRecommendation, index: nat)
      ensures this.rec == rec && this.index == index && !expanded
    {
      this.rec := rec;
      this.index := index;
      expanded := false;
    }

    /** A click on the card's header flips its flag. */
    method Click()
      modifies this
      ensures expanded == !old(expanded)
    {
      expanded := !expanded;
    }
  }

  /** A click on card `k` of the page flips that card only. */
  method ClickCard(cards: seq<CareerCard>, k: nat)
    requires k < |cards|
    requires forall i, j :: 0 <= i < j < |cards| ==> cards[i] != cards[j]
    modifies cards[k]
    ensures cards[k].expanded == !old(cards[k].expanded)
    ensures forall i :: 0 <= i < |cards| && i != k ==> cards[i].expanded == old(cards[i].expanded)
  {
    cards[k].Click();
  }
}
