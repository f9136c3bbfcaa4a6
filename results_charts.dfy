/**
 * The data behind the two charts of src/components/ResultsCharts.tsx, a
 * component written for the results page that no page of the repository
 * renders: the bar chart of fit scores with shortened names, and the radar
 * chart comparing the top three careers on five dimensions.
 */
module ResultsCharts {
  import opened Wrappers
  import opened JsStrings
  import opened QuizData

  /** The five chart colours; bars cycle through them, radar series take them in order. */
  const Colors: seq<string> := [
    "hsl(234, 85%, 60%)",
    "hsl(174, 72%, 45%)",
    "hsl(36, 95%, 55%)",
    "hsl(152, 60%, 45%)",
    "hsl(260, 80%, 60%)"
  ]

  /** The fill of bar `i`: `COLORS[i % COLORS.length]`. */
  function BarColor(i: nat): string {
    Colors[i % |Colors|]
  }

  /** Bar colours repeat with period five, and the five of one period are all different. */
  lemma BarColorCycles(i: nat)
    ensures BarColor(i + 5) == BarColor(i)
    ensures forall j :: i < j < i + 5 ==> BarColor(j) != BarColor(i)
  {
    assert |Colors| == 5;
    assert forall a, b :: 0 <= a < b < 5 ==> Colors[a][4] != Colors[b][4] || Colors[a][5] != Colors[b][5];
  }

  /** The radar series of career `i` of the top three is drawn in the colour of bar `i`. */
  lemma RadarColorMatchesBar(i: nat)
    requires i < 3
    ensures Colors[i] == BarColor(i)
  {
  }

  // ---------------------------------------------------------------------------
  // Bar data

  datatype BarEntry = BarEntry(name: string, score: int, fullName: string)

  /** The longest name a bar shows. */
  const MaxNameLength: nat := 15

  /** The characters kept before the ellipsis when a title is shortened. */
  const KeptLength: nat := 14

  /** The horizontal ellipsis, U+2026: one UTF-16 code unit. */
  const Ellipsis: char := '\U{2026}'

  /**
   * The three characters U+00E2 U+20AC U+00A6 ("â€¦"): the UTF-8 bytes of
   * the ellipsis read back as Windows-1252, which is what the source file
   * holds at that point.
   */
  const MisencodedEllipsis: string := ['\U{00E2}', '\U{20AC}', '\U{00A6}']

  /** A title longer than 15 characters becomes its first 14 followed by `tail`. */
  function ShortenWith(title: string, tail: string): string {
    if |title| > MaxNameLength then Prefix(title, KeptLength) + tail else title
  }

  /** The name as the source writes it: the first 14 characters and the misencoded ellipsis. */
  function ShortNameAsWritten(title: string): string {
    ShortenWith(title, MisencodedEllipsis)
  }

  /** The name as intended: a title longer than 15 characters becomes its first 14 and one ellipsis. */
  function ShortName(title: string): string {
    ShortenWith(title, [Ellipsis])
  }

  /** A bar name is never longer than 15, a short title is shown whole, a long one keeps its first 14 characters. */
  lemma ShortNameFits(title: string)
    ensures |ShortName(title)| <= MaxNameLength
    ensures |title| <= MaxNameLength ==> ShortName(title) == title
    ensures |title| > MaxNameLength ==>
      |ShortName(title)| == MaxNameLength && ShortName(title) == title[..KeptLength] + [Ellipsis]
  {
  }

  /** As written, every shortened name is 17 characters long: two more than the limit. */
  lemma ShortNameAsWrittenOverflows(title: string)
    requires |title| > MaxNameLength
    ensures |ShortNameAsWritten(title)| == MaxNameLength + 2
  {
  }

  /** The title that shows it: "Machine Learning Engineer", one of the results' own titles. */
  lemma ShortNameAsWrittenExample()
    ensures |ShortNameAsWritten(MockMachineLearningEngineer.careerTitle)| == 17
    ensures |ShortName(MockMachineLearningEngineer.careerTitle)| == 15
  {
    var t := MockMachineLearningEngineer.careerTitle;
    assert t == "Machine Learning Engineer";
    assert |t| == 25;
  }

  /** `barData` with the shortened names ending in `tail`: one bar per recommendation, in order. */
  function BarsWith(recs: seq<CareerRecommendation>, tail: string): (bars: seq<BarEntry>)
    ensures |bars| == |recs|
    ensures forall k :: 0 <= k < |recs| ==>
      bars[k] == BarEntry(ShortenWith(recs[k].careerTitle, tail), recs[k].fitScore, recs[k].careerTitle)
  {
    if recs == [] then []
    else [BarEntry(ShortenWith(recs[0].careerTitle, tail), recs[0].fitScore, recs[0].careerTitle)] + BarsWith(recs[1..], tail)
  }

  /** `barData` as the source writes it, with the misencoded ellipsis. */
  function BarDataAsWritten(recs: seq<CareerRecommendation>): seq<BarEntry> {
    BarsWith(recs, MisencodedEllipsis)
  }

  /** `barData` as intended, with the single ellipsis. */
  function BarData(recs: seq<CareerRecommendation>): seq<BarEntry> {
    BarsWith(recs, [Ellipsis])
  }

  /**
   * As written, a bar keeps its score and full title, but the name of a
   * career whose title is longer than 15 characters is 17 characters long.
   */
  lemma BarDataAsWrittenOverflows(recs: seq<CareerRecommendation>, k: nat)
    requires k < |recs|
    ensures var b := BarDataAsWritten(recs)[k];
      && b.score == recs[k].fitScore
      && b.fullName == recs[k].careerTitle
      && (|b.fullName| <= MaxNameLength ==> b.name == b.fullName)
      && (|b.fullName| > MaxNameLength ==> |b.name| == MaxNameLength + 2)
  {
    if |recs[k].careerTitle| > MaxNameLength {
      ShortNameAsWrittenOverflows(recs[k].careerTitle);
    }
  }

  /** The first bar of the mock results, "Machine Learning Engineer", is named with 17 characters as written and 15 as intended. */
  lemma MockFirstBarName()
    ensures |MockResults.recommendations| > 0
    ensures |BarDataAsWritten(MockResults.recommendations)[0].name| == 17
    ensures |BarData(MockResults.recommendations)[0].name| == 15
  {
    assert MockResults.recommendations[0] == MockMachineLearningEngineer;
    ShortNameAsWrittenExample();
  }

  /**
   * Each bar shows its career's fit score under a name of at most 15
   * characters that begins the full title, and keeps the full title for the
   * tooltip.
   */
  lemma BarDataFaithful(recs: seq<CareerRecommendation>, k: nat)
    requires k < |recs|
    ensures var b := BarData(recs)[k];
      && b.score == recs[k].fitScore
      && b.fullName == recs[k].careerTitle
      && |b.name| <= MaxNameLength
      && (b.name == b.fullName || (|b.fullName| > MaxNameLength && b.name == b.fullName[..KeptLength] + [Ellipsis]))
  {
    ShortNameFits(recs[k].careerTitle);
  }

  /** `recommendations.slice(0, 3)`. */
  function Top3(recs: seq<CareerRecommendation>): (top: seq<CareerRecommendation>)
    ensures |top| == if |recs| < 3 then |recs| else 3
    ensures top == recs[..|top|]
  {
    if |recs| <= 3 then recs else recs[..3]
  }

  // ---------------------------------------------------------------------------
  // Keyword scores

  /** A keyword map as the list of its entries in declaration order (`Object.keys` order). */
  type KeywordMap = seq<(string, int)>

  const GrowthKeywords: KeywordMap := [("Very High", 95), ("High", 80), ("Moderate", 60), ("Low", 40)]
  const WorkLifeKeywords: KeywordMap := [("Excellent", 95), ("Good", 80), ("Moderate", 60), ("Poor", 40)]
  const JobKeywords: KeywordMap := [("Very High", 95), ("High", 80), ("Moderate", 60), ("Low", 40)]

  /** The score when no keyword occurs. */
  const DefaultScore: int := 50

  /** The value of the first key, in order, that occurs in `s`; 50 when none does. */
  function KeywordScore(s: string, keys: KeywordMap): int {
    if keys == [] then DefaultScore
    else if Includes(s, keys[0].0) then keys[0].1
    else KeywordScore(s, keys[1..])
  }

  /** `parseFirstWord`: scan the keys in order and return at the first that occurs. */
  method ParseFirstWord(s: string, keys: KeywordMap) returns (score: int)
    ensures score == KeywordScore(s, keys)
  {
    for i := 0 to |keys|
      invariant KeywordScore(s, keys) == KeywordScore(s, keys[i..])
    {
      assert keys[i..][1..] == keys[i + 1..];
      if Includes(s, keys[i].0) {
        return keys[i].1;
      }
    }
    return DefaultScore;
  }

  /** When key `j` is the first that occurs in `s`, the score is its value. */
  lemma {:induction false} KeywordScoreFirstMatch(s: string, keys: KeywordMap, j: nat)
    requires j < |keys| && Includes(s, keys[j].0)
    requires forall l :: 0 <= l < j ==> !Includes(s, keys[l].0)
    ensures KeywordScore(s, keys) == keys[j].1
  {
    if j > 0 {
      KeywordScoreFirstMatch(s, keys[1..], j - 1);
    }
  }

  /** When no key occurs in `s`, the score is 50. */
  lemma {:induction false} KeywordScoreNoMatch(s: string, keys: KeywordMap)
    requires forall l :: 0 <= l < |keys| ==> !Includes(s, keys[l].0)
    ensures KeywordScore(s, keys) == DefaultScore
  {
    if keys != [] {
      KeywordScoreNoMatch(s, keys[1..]);
    }
  }

  /** The score is one of the map's values or 50. */
  lemma {:induction false} KeywordScoreIsAValue(s: string, keys: KeywordMap)
    ensures var r := KeywordScore(s, keys); r == DefaultScore || exists j :: 0 <= j < |keys| && r == keys[j].1
  {
    if keys != [] && !Includes(s, keys[0].0) {
      KeywordScoreIsAValue(s, keys[1..]);
      var r := KeywordScore(s, keys);
      if r != DefaultScore {
        var j :| 0 <= j < |keys[1..]| && r == keys[1..][j].1;
        assert r == keys[j + 1].1;
      }
    }
  }

  /** With the three maps of the source, a keyword score is one of 95, 80, 60, 40 and 50. */
  lemma KeywordScoresInRange(s: string)
    ensures KeywordScore(s, GrowthKeywords) in {95, 80, 60, 40, 50}
    ensures KeywordScore(s, WorkLifeKeywords) in {95, 80, 60, 40, 50}
    ensures KeywordScore(s, JobKeywords) in {95, 80, 60, 40, 50}
  {
    KeywordScoreIsAValue(s, GrowthKeywords);
    KeywordScoreIsAValue(s, WorkLifeKeywords);
    KeywordScoreIsAValue(s, JobKeywords);
  }

  /** Declaration order decides: "Very High" also contains "High", but scores 95. */
  lemma VeryHighBeatsHigh()
    ensures KeywordScore("Very High", GrowthKeywords) == 95
    ensures KeywordScore("High", GrowthKeywords) == 80
  {
    assert Includes("Very High", "Very High");
    assert !Includes("High", "Very High");
    assert Includes("High", "High");
  }

  // ---------------------------------------------------------------------------
  // Skills match

  /** Floor division brackets its dividend. */
  lemma DivBracket(n: nat, m: nat)
    requires m > 0
    ensures (n / m) * m <= n < (n / m + 1) * m
  {
    assert n == m * (n / m) + n % m;
  }

  /** A product bound cancels a positive factor. */
  lemma CancelBelow(a: nat, b: nat, t: nat)
    requires t > 0 && a * t < b * t
    ensures a < b
  {
    MulMonotone(b, a, t);
  }

  lemma MulMonotone(a: nat, b: nat, t: nat)
    ensures a <= b ==> a * t <= b * t
  {
    if a <= b {
      assert b * t == a * t + (b - a) * t;
    }
  }

  /**
   * `Math.round(have / (have + develop) * 100)` in integer arithmetic: the
   * nearest whole percentage, a half rounded up.
   */
  function SkillsMatch(have: nat, develop: nat): (p: nat)
    requires have + develop > 0
    ensures p <= 100
    ensures p * (2 * (have + develop)) <= 200 * have + (have + develop) < (p + 1) * (2 * (have + develop))
  {
    var t := have + develop;
    var p := (200 * have + t) / (2 * t);
    DivBracket(200 * have + t, 2 * t);
    assert p * (2 * t) < 101 * (2 * t) by {
      assert 200 * have + t <= 201 * t;
    }
    CancelBelow(p, 101, 2 * t);
    p
  }

  /** Nothing to develop is a full match; nothing in hand is none. */
  lemma SkillsMatchEnds(have: nat, develop: nat)
    ensures have > 0 ==> SkillsMatch(have, 0) == 100
    ensures develop > 0 ==> SkillsMatch(0, develop) == 0
  {
    if have > 0 {
      var p := SkillsMatch(have, 0);
      assert 200 * have + have < (p + 1) * (2 * have);
      assert 201 * have < (p + 1) * (2 * have);
      if p < 100 {
        MulMonotone(p + 1, 100, 2 * have);
      }
    }
    if develop > 0 {
      var p := SkillsMatch(0, develop);
      if p > 0 {
        MulMonotone(1, p, 2 * develop);
      }
    }
  }

  lemma SkillsMatchExamples()
    ensures SkillsMatch(2, 1) == 67   // 66.67 rounds up
    ensures SkillsMatch(3, 5) == 38   // 37.5 rounds half up
    ensures SkillsMatch(1, 2) == 33   // 33.33 rounds down
  {
  }

  // ---------------------------------------------------------------------------
  // Radar data

  const Dimensions: seq<string> := ["Fit Score", "Skills Match", "Growth", "Work-Life", "Job Availability"]

  /** The skills lists are not both empty, so the match percentage is defined. */
  predicate HasSkills(r: CareerRecommendation) {
    |r.skillsYouHave| + |r.skillsToDevelop| > 0
  }

  /** What the `forEach` writes for one career on one dimension; nothing for a dimension it does not know. */
  function DimensionValue(dim: string, r: CareerRecommendation): Option<int>
    requires HasSkills(r)
  {
    if dim == "Fit Score" then Some(r.fitScore)
    else if dim == "Skills Match" then Some(SkillsMatch(|r.skillsYouHave|, |r.skillsToDevelop|))
    else if dim == "Growth" then Some(KeywordScore(r.careerOutlook.growthPotential, GrowthKeywords))
    else if dim == "Work-Life" then Some(KeywordScore(r.careerOutlook.workLifeBalance, WorkLifeKeywords))
    else if dim == "Job Availability" then Some(KeywordScore(r.careerOutlook.jobAvailability, JobKeywords))
    else None
  }

  /** Every one of the five dimensions gets a value, and each is a percentage. */
  lemma DimensionValuesDefined(r: CareerRecommendation, d: nat)
    requires HasSkills(r) && d < |Dimensions|
    ensures DimensionValue(Dimensions[d], r).Some?
    ensures d > 0 ==> 0 <= DimensionValue(Dimensions[d], r).value <= 100
    ensures d == 0 ==> DimensionValue(Dimensions[d], r).value == r.fitScore
  {
    KeywordScoresInRange(r.careerOutlook.growthPotential);
    KeywordScoresInRange(r.careerOutlook.workLifeBalance);
    KeywordScoresInRange(r.careerOutlook.jobAvailability);
  }

  /** The key of the `i`-th career's series: `c${i}`. */
  function SeriesKey(i: nat): string {
    "c" + NatToString(i)
  }

  lemma SeriesKeyInjective(i: nat, j: nat)
    requires SeriesKey(i) == SeriesKey(j)
    ensures i == j
  {
    assert SeriesKey(i)[1..] == NatToString(i);
    assert SeriesKey(j)[1..] == NatToString(j);
    NatToStringInjective(i, j);
  }

  /** The keys of the first `n` series: `c0`, ..., `c{n-1}`. */
  function SeriesKeys(n: nat): set<string> {
    set i | 0 <= i < n :: SeriesKey(i)
  }

  /** One more series adds exactly its own key. */
  lemma SeriesKeysStep(n: nat)
    ensures SeriesKeys(n + 1) == SeriesKeys(n) + {SeriesKey(n)}
  {
  }

  /** One row of the radar chart: `{ dimension, c0, c1, ... }`. */
  datatype RadarRow = RadarRow(dimension: string, values: map<string, int>)

  /** The value career `r` gets on the `d`-th dimension. */
  function DimensionScore(d: nat, r: CareerRecommendation): (v: int)
    requires HasSkills(r) && d < |Dimensions|
    ensures DimensionValue(Dimensions[d], r) == Some(v)
  {
    DimensionValuesDefined(r, d);
    DimensionValue(Dimensions[d], r).value
  }

  /** The key of the next series is not among the earlier ones. */
  lemma SeriesKeyFresh(n: nat)
    ensures SeriesKey(n) !in SeriesKeys(n)
  {
    forall j | 0 <= j < n ensures SeriesKey(j) != SeriesKey(n) {
      if SeriesKey(j) == SeriesKey(n) {
        SeriesKeyInjective(j, n);
      }
    }
  }

  /** Every career of `top` has skills listed. */
  predicate AllHaveSkills(top: seq<CareerRecommendation>) {
    forall i :: 0 <= i < |top| ==> HasSkills(top[i])
  }

  /** Row `e` is the `e`-th dimension, keyed by series, holding each career's value. */
  predicate RowHolds(row: RadarRow, e: nat, top: seq<CareerRecommendation>)
    requires e < |Dimensions| && AllHaveSkills(top)
  {
    && row.dimension == Dimensions[e]
    && row.values.Keys == SeriesKeys(|top|)
    && forall i :: 0 <= i < |top| ==> SeriesKey(i) in row.values && row.values[SeriesKey(i)] == DimensionScore(e, top[i])
  }

  /** The rows built so far, one per dimension from the first. */
  predicate RowsHold(rows: seq<RadarRow>, top: seq<CareerRecommendation>)
    requires |rows| <= |Dimensions| && AllHaveSkills(top)
  {
    forall e :: 0 <= e < |rows| ==> RowHolds(rows[e], e, top)
  }

  lemma RowsHoldExtend(rows: seq<RadarRow>, row: RadarRow, top: seq<CareerRecommendation>)
    requires |rows| < |Dimensions| && AllHaveSkills(top)
    requires RowsHold(rows, top) && RowHolds(row, |rows|, top)
    ensures RowsHold(rows + [row], top)
  {
    forall e | 0 <= e < |rows| + 1 ensures RowHolds((rows + [row])[e], e, top) {
      if e < |rows| {
        assert (rows + [row])[e] == rows[e];
      }
    }
  }

  /** What the finished rows say, spelled out per dimension and career. */
  lemma RowsHoldMeans(rows: seq<RadarRow>, top: seq<CareerRecommendation>)
    requires |rows| == |Dimensions| && AllHaveSkills(top) && RowsHold(rows, top)
    ensures forall d :: 0 <= d < |rows| ==> rows[d].dimension == Dimensions[d]
    ensures forall d :: 0 <= d < |rows| ==> rows[d].values.Keys == SeriesKeys(|top|)
    ensures forall d, i :: 0 <= d < |rows| && 0 <= i < |top| ==>
      SeriesKey(i) in rows[d].values && Some(rows[d].values[SeriesKey(i)]) == DimensionValue(Dimensions[d], top[i])
  {
    forall d, i | 0 <= d < |rows| && 0 <= i < |top|
      ensures SeriesKey(i) in rows[d].values && Some(rows[d].values[SeriesKey(i)]) == DimensionValue(Dimensions[d], top[i])
    {
      assert RowHolds(rows[d], d, top);
    }
  }

  /**
   * `radarData`: one row per dimension in the fixed order; each row has one
   * key per career of the top three, holding that career's value.
   */
  method RadarData(recs: seq<CareerRecommendation>) returns (rows: seq<RadarRow>)
    requires forall k :: 0 <= k < |recs| && k < 3 ==> HasSkills(recs[k])
    ensures |rows| == |Dimensions|
    ensures forall d :: 0 <= d < |rows| ==> rows[d].dimension == Dimensions[d]
    ensures forall d :: 0 <= d < |rows| ==> rows[d].values.Keys == SeriesKeys(|Top3(recs)|)
    ensures forall d, i :: 0 <= d < |rows| && 0 <= i < |Top3(recs)| ==>
      SeriesKey(i) in rows[d].values && Some(rows[d].values[SeriesKey(i)]) == DimensionValue(Dimensions[d], Top3(recs)[i])
  {
    var top := Top3(recs);
    assert AllHaveSkills(top);
    rows := [];
    for d := 0 to |Dimensions|
      invariant |rows| == d
      invariant RowsHold(rows, top)
    {
      var entry := RadarEntry(d, top);
      RowsHoldExtend(rows, RadarRow(Dimensions[d], entry), top);
      rows := rows + [RadarRow(Dimensions[d], entry)];
    }
    RowsHoldMeans(rows, top);
  }

  /** The keyed values of the `d`-th radar row, written career by career. */
  method RadarEntry(d: nat, top: seq<CareerRecommendation>) returns (entry: map<string, int>)
    requires d < |Dimensions| && AllHaveSkills(top)
    ensures entry.Keys == SeriesKeys(|top|)
    ensures forall i :: 0 <= i < |top| ==> SeriesKey(i) in entry && entry[SeriesKey(i)] == DimensionScore(d, top[i])
  {
    entry := map[];
    for i := 0 to |top|
      invariant entry.Keys == SeriesKeys(i)
      invariant forall j :: 0 <= j < i ==> SeriesKey(j) in entry && entry[SeriesKey(j)] == DimensionScore(d, top[j])
    {
      SeriesKeysStep(i);
      SeriesKeyFresh(i);
      entry := entry[SeriesKey(i) := DimensionScore(d, top[i])];
    }
  }
}
