/** Score analytics over a results dictionary and the treatment priorities
    derived from them. Unlike the per-subscale classifier, the overall severity
    uses one set of cut-offs (28, 21, 14, 8) on the largest of the three scores. */
module Analytics {

  import opened Payload
  import Dass

  datatype Risk = Low | Moderate | High | VeryHigh {
    function Label(): string
    {
      match this
      case Low => "Low"
      case Moderate => "Moderate"
      case High => "High"
      case VeryHigh => "Very High"
    }
  }

  datatype Analysis = Analysis(
    overallSeverity: Dass.Level,
    primaryConcern: Option<Dass.Scale>,
    riskLevel: Risk,
    insights: seq<string>)

  const DepressionInsight := "Depression symptoms are significantly impacting daily functioning"
  const AnxietyInsight := "Anxiety levels are in the severe range and may require immediate attention"
  const StressInsight := "Stress levels are very high and may be affecting physical health"
  const ComorbidityInsight := "Multiple areas of concern detected - comprehensive treatment approach recommended"

  /** The three scores, a missing subscale or score reading as 0. */
  function ScoreOf(results: Dict, s: Dass.Scale): int
  {
    ScoreOr0(results, s.Name())
  }

  function Max3(a: int, b: int, c: int): int
  {
    if a >= b && a >= c then a else if b >= c then b else c
  }

  /** Python's `max(scores, key=scores.get)`: the first subscale, in dictionary
      order, whose score is the largest. */
  function ArgMax(d: int, a: int, s: int): Dass.Scale
  {
    if d >= a && d >= s then Dass.Depression
    else if a >= s then Dass.Anxiety
    else Dass.Stress
  }

  /** How many of the scores reach 14. */
  function ElevatedCount(d: int, a: int, s: int): nat
  {
    (if d >= 14 then 1 else 0) + (if a >= 14 then 1 else 0) + (if s >= 14 then 1 else 0)
  }

  /** The overall severity and the risk for the largest score: at 28 or more,
      21, 14 and 8 they are Extremely Severe / Very High, Severe / High,
      Moderate / Moderate, Mild / Low, and Normal / Low below 8. */
  function SeverityAndRisk(m: int): (r: (Dass.Level, Risk))
    ensures r.1 == VeryHigh <==> r.0 == Dass.ExtremelySevere
    ensures r.1 == High <==> r.0 == Dass.Severe
    ensures r.1 == Moderate <==> r.0 == Dass.Moderate
    ensures r.1 == Low <==> r.0 in {Dass.Mild, Dass.Normal}
    ensures r.0.Rank() == (if m >= 8 then 1 else 0) + (if m >= 14 then 1 else 0) + (if m >= 21 then 1 else 0) + (if m >= 28 then 1 else 0)
  {
    if m >= 28 then (Dass.ExtremelySevere, VeryHigh)
    else if m >= 21 then (Dass.Severe, High)
    else if m >= 14 then (Dass.Moderate, Moderate)
    else if m >= 8 then (Dass.Mild, Low)
    else (Dass.Normal, Low)
  }

  /** The primary concern: the first subscale, in dictionary order, with the largest
      score, and none when that score is not positive. */
  function PrimaryConcern(d: int, a: int, s: int): (c: Option<Dass.Scale>)
    ensures c.None? <==> d <= 0 && a <= 0 && s <= 0
    ensures c == Some(Dass.Depression) ==> d > 0 && d >= a && d >= s
    ensures c == Some(Dass.Anxiety) ==> a > 0 && a > d && a >= s
    ensures c == Some(Dass.Stress) ==> s > 0 && s > d && s > a
  {
    var primary := ArgMax(d, a, s);
    if Max3(d, a, s) > 0 then Some(primary) else None
  }

  /** The insights: one per subscale past its own cut-off (14, 15, 26), in
      subscale order, then one more when at least two scores reach 14; each at
      most once, so at most four. */
  function Insights(d: int, a: int, s: int): (r: seq<string>)
    ensures DepressionInsight in r <==> d >= 14
    ensures AnxietyInsight in r <==> a >= 15
    ensures StressInsight in r <==> s >= 26
    ensures ComorbidityInsight in r <==> ElevatedCount(d, a, s) >= 2
    ensures |r| == (if d >= 14 then 1 else 0) + (if a >= 15 then 1 else 0) + (if s >= 26 then 1 else 0)
      + (if ElevatedCount(d, a, s) >= 2 then 1 else 0)
    ensures d >= 14 ==> r[0] == DepressionInsight
    ensures a >= 15 ==> r[if d >= 14 then 1 else 0] == AnxietyInsight
    ensures s >= 26 ==> r[(if d >= 14 then 1 else 0) + (if a >= 15 then 1 else 0)] == StressInsight
    ensures ElevatedCount(d, a, s) >= 2 ==> r[|r| - 1] == ComorbidityInsight
  {
    (if d >= 14 then [DepressionInsight] else [])
    + (if a >= 15 then [AnxietyInsight] else [])
    + (if s >= 26 then [StressInsight] else [])
    + (if ElevatedCount(d, a, s) >= 2 then [ComorbidityInsight] else [])
  }

  /** `analyze_dass_scores`. */
  function AnalyzeDassScores(results: Dict): (r: Analysis)
    ensures var d, a, s := ScoreOf(results, Dass.Depression), ScoreOf(results, Dass.Anxiety), ScoreOf(results, Dass.Stress);
      (r.overallSeverity, r.riskLevel) == SeverityAndRisk(Max3(d, a, s)) &&
      r.primaryConcern == PrimaryConcern(d, a, s) &&
      r.insights == Insights(d, a, s)
  {
    var d := ScoreOf(results, Dass.Depression);
    var a := ScoreOf(results, Dass.Anxiety);
    var s := ScoreOf(results, Dass.Stress);
    var (severity, risk) := SeverityAndRisk(Max3(d, a, s));
    Analysis(severity, PrimaryConcern(d, a, s), risk, Insights(d, a, s))
  }

  /** The overall severity and risk depend on the largest score only: Extremely
      Severe exactly when some score reaches 28, High or Very High risk exactly
      when some score reaches 21, Low risk exactly when all are below 14. */
  lemma SeverityFollowsLargestScore(results: Dict)
    ensures var r := AnalyzeDassScores(results);
      var d, a, s := ScoreOf(results, Dass.Depression), ScoreOf(results, Dass.Anxiety), ScoreOf(results, Dass.Stress);
      (r.overallSeverity == Dass.ExtremelySevere <==> d >= 28 || a >= 28 || s >= 28) &&
      (r.riskLevel in {High, VeryHigh} <==> d >= 21 || a >= 21 || s >= 21) &&
      (r.riskLevel == Low <==> d < 14 && a < 14 && s < 14) &&
      (r.overallSeverity == Dass.Normal <==> d < 8 && a < 8 && s < 8)
  {
  }

  /** Missing subscales count as 0: an empty dictionary is Normal, Low risk, with
      no primary concern and no insights. */
  lemma EmptyResults()
    ensures AnalyzeDassScores([]) == Analysis(Dass.Normal, None, Low, [])
  {
  }

  const CrisisPriorities: seq<string> := ["Immediate professional intervention", "Safety planning and crisis resources"]

  /** The three priorities for a primary concern. */
  function ConcernPriorities(c: Dass.Scale): (r: seq<string>)
    ensures |r| == 3 && r[0] !in CrisisPriorities + GeneralPriorities
  {
    match c
    case Depression => ["Mood stabilization techniques", "Behavioral activation strategies", "Sleep and routine optimization"]
    case Anxiety => ["Anxiety management techniques", "Relaxation and breathing exercises", "Gradual exposure therapy"]
    case Stress => ["Stress reduction strategies", "Time management and boundaries", "Physical wellness activities"]
  }

  const GeneralPriorities: seq<string> := ["Social support enhancement", "Self-care routine development", "Regular progress monitoring"]

  /** `generate_treatment_priorities`: at most five items; they open with the two
      crisis items exactly when the risk is High or Very High; a primary concern's
      first item is always kept, and the general items are kept only as far as
      the cap allows. */
  function GenerateTreatmentPriorities(analysis: Analysis): (r: seq<string>)
    ensures |r| == if analysis.riskLevel !in {High, VeryHigh} && analysis.primaryConcern.None? then 3 else 5
    ensures (|r| >= 2 && r[..2] == CrisisPriorities) <==> analysis.riskLevel in {High, VeryHigh}
    ensures analysis.primaryConcern.Some? ==> ConcernPriorities(analysis.primaryConcern.value)[0] in r
    ensures GeneralPriorities[0] in r <==> !(analysis.riskLevel in {High, VeryHigh} && analysis.primaryConcern.Some?)
    ensures var crisis := if analysis.riskLevel in {High, VeryHigh} then 2 else 0;
      var concern := if analysis.primaryConcern.Some? then 3 else 0;
      (analysis.primaryConcern.Some? ==>
        r[crisis..crisis + concern] == ConcernPriorities(analysis.primaryConcern.value)) &&
      r[crisis + concern..] == GeneralPriorities[..|r| - crisis - concern]
  {
    var crisis := if analysis.riskLevel in {High, VeryHigh} then CrisisPriorities else [];
    var concern := if analysis.primaryConcern.Some? then ConcernPriorities(analysis.primaryConcern.value) else [];
    var priorities := crisis + concern + GeneralPriorities;
    if |priorities| <= 5 then
      assert concern == [];
      assert crisis == [] ==> priorities[0] != CrisisPriorities[0];
      assert priorities[|crisis|..] == GeneralPriorities;
      priorities
    else
      assert |concern| == 3;
      assert priorities[..5] == crisis + concern + GeneralPriorities[..2 - |crisis|];
      assert crisis == [] ==> priorities[0] == concern[0] != CrisisPriorities[0];
      priorities[..5]
  }

  /** High risk with a primary concern leaves no room for any general priority. */
  lemma CrisisCrowdsOutGeneral(analysis: Analysis)
    requires analysis.riskLevel in {High, VeryHigh} && analysis.primaryConcern.Some?
    ensures var r := GenerateTreatmentPriorities(analysis);
      r == CrisisPriorities + ConcernPriorities(analysis.primaryConcern.value)
      && forall g :: g in GeneralPriorities ==> g !in r
  {
    var r := GenerateTreatmentPriorities(analysis);
    var concern := ConcernPriorities(analysis.primaryConcern.value);
    assert |r| == 5 && r[..2] == CrisisPriorities && r[2..5] == concern;
    assert r == r[..2] + r[2..5];
  }

  /** The analytics read back the scores of serialised backend results. */
  lemma ScoreOfComputed(res: Dass.Results, s: Dass.Scale)
    ensures ScoreOf(Dass.ToDict(res), s) == res.For(s).score
  {
  }

  /** On results the backend computed, High or Very High risk means exactly that
      some subscale score reaches 21. */
  lemma RiskOnComputedResults(res: Dass.Results)
    ensures AnalyzeDassScores(Dass.ToDict(res)).riskLevel in {High, VeryHigh} <==>
      exists s: Dass.Scale :: res.For(s).score >= 21
  {
    var d := Dass.ToDict(res);
    ScoreOfComputed(res, Dass.Depression);
    ScoreOfComputed(res, Dass.Anxiety);
    ScoreOfComputed(res, Dass.Stress);
    SeverityFollowsLargestScore(d);
    if exists s: Dass.Scale :: res.For(s).score >= 21 {
      var s: Dass.Scale :| res.For(s).score >= 21;
      assert s == Dass.Depression || s == Dass.Anxiety || s == Dass.Stress;
    }
  }

  /** Severe or Extremely Severe depression, as the backend classifies it,
      always puts the analytics at High or Very High risk. */
  lemma SevereDepressionHighRisk(res: Dass.Results)
    requires Dass.Classified(res) && res.depression.level.IsSevere()
    ensures AnalyzeDassScores(Dass.ToDict(res)).riskLevel in {High, VeryHigh}
  {
    assert res.depression.level == Dass.GetScoreLevel(Dass.Depression, res.depression.score);
    assert res.For(Dass.Depression).score >= 21;
    RiskOnComputedResults(res);
  }
}
