/** The backend's DASS-21 engine: item-to-subscale assignment, the doubled
    subscale sums, the per-scale severity classifier, the severe-case test and
    the validation of a submitted answer list. */
module Dass {

  import opened Payload

  /** The number of questionnaire items. */
  const ItemCount := 21

  datatype Scale = Depression | Anxiety | Stress {
    /** The key the results dictionary uses for this subscale. */
    function Name(): string
    {
      match this
      case Depression => "depression"
      case Anxiety => "anxiety"
      case Stress => "stress"
    }
  }

  /** `ranges[score_type]`: the subscale a key names, or none (a KeyError). */
  function ScaleNamed(name: string): (r: Option<Scale>)
    ensures r.Some? ==> r.value.Name() == name
    ensures r.None? ==> forall s: Scale :: s.Name() != name
  {
    if name == "depression" then Some(Depression)
    else if name == "anxiety" then Some(Anxiety)
    else if name == "stress" then Some(Stress)
    else None
  }

  /** Severity levels, in increasing order. */
  datatype Level = Normal | Mild | Moderate | Severe | ExtremelySevere {
    function Rank(): nat
    {
      match this
      case Normal => 0
      case Mild => 1
      case Moderate => 2
      case Severe => 3
      case ExtremelySevere => 4
    }

    /** The label the classifier returns. */
    function Label(): string
    {
      match this
      case Normal => "Normal"
      case Mild => "Mild"
      case Moderate => "Moderate"
      case Severe => "Severe"
      case ExtremelySevere => "Extremely Severe"
    }

    /** Severe or Extremely Severe. */
    predicate IsSevere()
    {
      this == Severe || this == ExtremelySevere
    }
  }

  /** The labels counted as a severe case. */
  const SevereLabels: seq<string> := ["Severe", "Extremely Severe"]

  /** 0-indexed item positions of each subscale. */
  const DepressionItems: seq<nat> := [2, 4, 9, 12, 15, 16, 20]
  const AnxietyItems: seq<nat> := [1, 3, 6, 8, 14, 18, 19]
  const StressItems: seq<nat> := [0, 5, 7, 10, 11, 13, 17]

  function Items(s: Scale): seq<nat>
  {
    match s
    case Depression => DepressionItems
    case Anxiety => AnxietyItems
    case Stress => StressItems
  }

  /** An inclusive score band of the ranges table. */
  datatype Band = Band(lo: int, hi: int)

  /** The five bands of one subscale. */
  datatype Ranges = Ranges(normal: Band, mild: Band, moderate: Band, severe: Band, extremelySevere: Band) {
    function BandOf(l: Level): Band
    {
      match l
      case Normal => normal
      case Mild => mild
      case Moderate => moderate
      case Severe => severe
      case ExtremelySevere => extremelySevere
    }
  }

  /** The backend's ranges table. */
  function RangesFor(s: Scale): Ranges
  {
    match s
    case Depression => Ranges(Band(0, 9), Band(10, 13), Band(14, 20), Band(21, 27), Band(28, 42))
    case Anxiety => Ranges(Band(0, 7), Band(8, 9), Band(10, 14), Band(15, 19), Band(20, 42))
    case Stress => Ranges(Band(0, 14), Band(15, 18), Band(19, 25), Band(26, 33), Band(34, 42))
  }

  /** The lower bound the classifier tests for level `l` of subscale `s`. */
  function LowerBound(s: Scale, l: Level): int
  {
    RangesFor(s).BandOf(l).lo
  }

  /** `get_score_level`: the lower bounds are tested from the highest band down;
      the result is the highest non-Normal level whose lower bound the score
      reaches, and Normal when it reaches none. */
  function GetScoreLevel(s: Scale, score: int): (l: Level)
    ensures l != Normal ==> LowerBound(s, l) <= score
    ensures forall h: Level :: h.Rank() > l.Rank() ==> score < LowerBound(s, h)
  {
    var r := RangesFor(s);
    if score >= r.extremelySevere.lo then ExtremelySevere
    else if score >= r.severe.lo then Severe
    else if score >= r.moderate.lo then Moderate
    else if score >= r.mild.lo then Mild
    else Normal
  }

  /** `get_score_level(score_type, score)` with a string key: an unknown key fails. */
  function GetScoreLevelNamed(name: string, score: int): (r: Option<Level>)
    ensures r.None? <==> name !in {"depression", "anxiety", "stress"}
    ensures r.Some? ==> exists s: Scale :: s.Name() == name && r.value == GetScoreLevel(s, score)
  {
    match ScaleNamed(name)
    case None => None
    case Some(s) => Some(GetScoreLevel(s, score))
  }

  /** `sum(answers[i] for i in items if i < len(answers))`. */
  function SumAt(answers: seq<int>, items: seq<nat>): int
  {
    if items == [] then 0
    else (if items[0] < |answers| then answers[items[0]] else 0) + SumAt(answers, items[1..])
  }

  /** A subscale score: twice the sum of its items. */
  function Score(answers: seq<int>, s: Scale): int
  {
    SumAt(answers, Items(s)) * 2
  }

  datatype SubscaleResult = SubscaleResult(score: int, level: Level)

  datatype Results = Results(depression: SubscaleResult, anxiety: SubscaleResult, stress: SubscaleResult) {
    function For(s: Scale): SubscaleResult
    {
      match s
      case Depression => depression
      case Anxiety => anxiety
      case Stress => stress
    }
  }

  /** `results.values()`, in the order the dictionary is built. */
  function Values(r: Results): seq<SubscaleResult>
  {
    [r.depression, r.anxiety, r.stress]
  }

  /** The results as the JSON object the backend returns and the browser sends back. */
  function ToDict(r: Results): (d: Dict)
    ensures forall s: Scale :: Get(d, s.Name()) == Some(EntryOf(r.For(s)))
  {
    var d := [("depression", EntryOf(r.depression)), ("anxiety", EntryOf(r.anxiety)), ("stress", EntryOf(r.stress))];
    assert Get(d, "anxiety") == Get(d[1..], "anxiety");
    assert Get(d, "stress") == Get(d[2..], "stress");
    d
  }

  function EntryOf(r: SubscaleResult): Entry
  {
    Entry(Some(r.score), Some(r.level.Label()))
  }

  /** Each subscale's level is the classifier's verdict on its score. */
  ghost predicate Classified(r: Results)
  {
    forall s: Scale :: r.For(s).level == GetScoreLevel(s, r.For(s).score)
  }

  /** `calculate_dass_scores`. */
  function CalculateDassScores(answers: seq<int>): (r: Results)
    ensures Classified(r)
    ensures forall s: Scale :: r.For(s).score == Score(answers, s)
  {
    var d := Score(answers, Depression);
    var a := Score(answers, Anxiety);
    var st := Score(answers, Stress);
    Results(SubscaleResult(d, GetScoreLevel(Depression, d)),
            SubscaleResult(a, GetScoreLevel(Anxiety, a)),
            SubscaleResult(st, GetScoreLevel(Stress, st)))
  }

  /** `check_severe_case`: some value has a severe label. */
  function CheckSevereCase(values: seq<SubscaleResult>): (r: bool)
    ensures r <==> exists i :: 0 <= i < |values| && values[i].level.Label() in SevereLabels
  {
    if values == [] then false
    else values[0].level.Label() in SevereLabels || CheckSevereCase(values[1..])
  }

  /** An allowed answer value. */
  predicate IsAnswerValue(x: int)
  {
    x in [0, 1, 2, 3]
  }

  /** `[i for i, answer in enumerate(answers) if answer not in [0, 1, 2, 3]]`,
      starting at position `from`. */
  function InvalidPositions(answers: seq<int>, from: nat): (r: seq<nat>)
    requires from <= |answers|
    ensures forall k :: 0 <= k < |r| ==> from <= r[k] < |answers| && !IsAnswerValue(answers[r[k]])
    ensures forall i :: from <= i < |answers| && !IsAnswerValue(answers[i]) ==> i in r
    ensures forall k, m :: 0 <= k < m < |r| ==> r[k] < r[m]
    decreases |answers| - from
  {
    if from == |answers| then []
    else if IsAnswerValue(answers[from]) then InvalidPositions(answers, from + 1)
    else [from] + InvalidPositions(answers, from + 1)
  }

  datatype AnswerError = WrongCount(received: nat) | InvalidValues(positions: seq<nat>)

  datatype Assessment = Assessment(results: Results, severeCaseDetected: bool)

  datatype Outcome = Assessed(assessment: Assessment) | Rejected(error: AnswerError)

  /** Every answer is an allowed value. */
  ghost predicate ValidAnswers(answers: seq<int>)
  {
    |answers| == ItemCount && forall i :: 0 <= i < |answers| ==> IsAnswerValue(answers[i])
  }

  /** The validation in `assess_mental_health`: the count is checked first; then
      every position holding a value outside 0..3 is reported, in increasing order. */
  function ValidateAnswers(answers: seq<int>): (r: Option<AnswerError>)
    ensures r.None? <==> ValidAnswers(answers)
    ensures |answers| != ItemCount ==> r == Some(WrongCount(|answers|))
    ensures |answers| == ItemCount && r.Some? ==> r.value.InvalidValues?
    ensures r.Some? && r.value.InvalidValues? ==>
      var p := r.value.positions;
      |answers| == ItemCount && p != [] &&
      (forall i :: 0 <= i < |answers| ==> (!IsAnswerValue(answers[i]) <==> i in p)) &&
      (forall k, m :: 0 <= k < m < |p| ==> p[k] < p[m])
  {
    if |answers| != ItemCount then Some(WrongCount(|answers|))
    else
      var invalid := InvalidPositions(answers, 0);
      if invalid == [] then None
      else
        assert invalid[0] in invalid;
        Some(InvalidValues(invalid))
  }

  /** `assess_mental_health` without its I/O: validation, scoring and the severe-case
      test (the notification e-mail, logging and response envelope are not modelled). */
  function AssessMentalHealth(answers: seq<int>): (r: Outcome)
    ensures r.Assessed? <==> ValidAnswers(answers)
    ensures r.Rejected? ==> Some(r.error) == ValidateAnswers(answers)
    ensures r.Assessed? ==> r.assessment.results == CalculateDassScores(answers)
    ensures r.Assessed? ==> (r.assessment.severeCaseDetected <==> exists s: Scale :: r.assessment.results.For(s).level.IsSevere())
  {
    match ValidateAnswers(answers)
    case Some(e) => Rejected(e)
    case None =>
      var results := CalculateDassScores(answers);
      CheckSevereCaseOnResults(results);
      Assessed(Assessment(results, CheckSevereCase(Values(results))))
  }

  /** With answers in 0..3 the sum over `items` lies in 0 .. 3 * |items|. */
  lemma {:induction false} SumAtBounds(answers: seq<int>, items: seq<nat>)
    requires forall i :: 0 <= i < |answers| ==> IsAnswerValue(answers[i])
    ensures 0 <= SumAt(answers, items) <= 3 * |items|
  {
    if items != [] {
      SumAtBounds(answers, items[1..]);
    }
  }

  /** For a valid answer set every subscale score is even and lies in [0, 42]. */
  lemma ScoresEvenAndBounded(answers: seq<int>, s: Scale)
    requires ValidAnswers(answers)
    ensures var score := CalculateDassScores(answers).For(s).score;
      score % 2 == 0 && 0 <= score <= 42
  {
    SumAtBounds(answers, Items(s));
  }

  /** The three item lists are pairwise disjoint and together cover exactly 0..20. */
  lemma ItemsPartition()
    ensures forall i :: 0 <= i < ItemCount <==> i in DepressionItems || i in AnxietyItems || i in StressItems
    ensures forall i :: !(i in DepressionItems && i in AnxietyItems)
    ensures forall i :: !(i in DepressionItems && i in StressItems)
    ensures forall i :: !(i in AnxietyItems && i in StressItems)
    ensures |DepressionItems| == |AnxietyItems| == |StressItems| == 7
  {
  }

  /** The classifier is monotone: a higher score never gets a lower level. */
  lemma GetScoreLevelMonotone(s: Scale, x: int, y: int)
    requires x <= y
    ensures GetScoreLevel(s, x).Rank() <= GetScoreLevel(s, y).Rank()
  {
  }

  /** Testing lower bounds top-down puts every score of 0..42 into the band of the
      ranges table that contains it: the upper bounds the table lists are implied. */
  lemma LevelWithinBand(s: Scale, score: int)
    requires 0 <= score <= 42
    ensures var l := GetScoreLevel(s, score);
      RangesFor(s).BandOf(l).lo <= score <= RangesFor(s).BandOf(l).hi
  {
  }

  /** The inclusive lower-bound boundaries of the three tables. */
  lemma BoundaryExamples()
    ensures GetScoreLevel(Depression, 20) == Moderate && GetScoreLevel(Depression, 21) == Severe
    ensures GetScoreLevel(Anxiety, 9) == Mild && GetScoreLevel(Anxiety, 10) == Moderate
    ensures GetScoreLevel(Stress, 14) == Normal && GetScoreLevel(Stress, 15) == Mild
  {
  }

  /** `check_severe_case` on computed results holds exactly when some subscale is
      Severe or Extremely Severe. */
  lemma CheckSevereCaseOnResults(r: Results)
    ensures CheckSevereCase(Values(r)) <==> exists s: Scale :: r.For(s).level.IsSevere()
  {
    assert Values(r)[0] == r.For(Depression);
    assert Values(r)[1] == r.For(Anxiety);
    assert Values(r)[2] == r.For(Stress);
  }

  /** Scenario: 21 zeros score 0 everywhere, all Normal, not severe. */
  lemma AllZeroAnswers()
    ensures var r := AssessMentalHealth(seq(21, _ => 0));
      r.Assessed? && r.assessment.results == Results(SubscaleResult(0, Normal), SubscaleResult(0, Normal), SubscaleResult(0, Normal))
      && !r.assessment.severeCaseDetected
  {
    var a := seq(21, _ => 0);
    forall s: Scale ensures SumAt(a, Items(s)) == 0 {
      SumAtZero(a, Items(s));
    }
  }

  /** Answers that are all 0 sum to 0 over any items. */
  lemma {:induction false} SumAtZero(answers: seq<int>, items: seq<nat>)
    requires forall i :: 0 <= i < |answers| ==> answers[i] == 0
    ensures SumAt(answers, items) == 0
  {
    if items != [] {
      SumAtZero(answers, items[1..]);
    }
  }

  /** Scenario: depression items summing to 14 (score 28) make depression Extremely
      Severe and the case severe, whatever the other answers are. */
  lemma DepressionExtremelySevere(answers: seq<int>)
    requires ValidAnswers(answers)
    requires SumAt(answers, DepressionItems) == 14
    ensures var r := AssessMentalHealth(answers);
      r.Assessed? && r.assessment.results.depression == SubscaleResult(28, ExtremelySevere)
      && r.assessment.severeCaseDetected
  {
  }
}
