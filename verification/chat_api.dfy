/** The chat endpoint's end-of-session rule and the fixed-threshold
    recommendation list it attaches when a session ends. */
module ChatApi {

  import opened Text
  import opened Payload

  const EndKeywords: seq<string> := ["end session", "finish", "goodbye", "end chat", "stop", "bye", "quit"]

  const ClosingNote := " Thank you for our session today. I've prepared some recommendations for you."
  const FallbackReply := "I'm having some technical difficulties right now. Could you please rephrase your message or try again?"

  const ProfessionalCounseling := Recommendation("Professional Counseling",
    "Consider speaking with a licensed mental health professional for depression support.")
  const AnxietyManagement := Recommendation("Anxiety Management",
    "Practice breathing exercises and mindfulness techniques to manage anxiety.")
  const StressReduction := Recommendation("Stress Reduction",
    "Implement stress management techniques and consider workload adjustments.")
  const RegularExercise := Recommendation("Regular Exercise",
    "Engage in physical activity to improve overall mental health.")
  const SocialSupport := Recommendation("Social Support",
    "Maintain connections with colleagues, friends, and family.")

  /** The three scores the list depends on. */
  datatype Scores = Scores(depression: int, anxiety: int, stress: int)

  /** How many of the three subscale items the scores switch on. */
  function Triggered(scores: Scores): nat
  {
    (if scores.depression >= 14 then 1 else 0) + (if scores.anxiety >= 10 then 1 else 0)
    + (if scores.stress >= 19 then 1 else 0)
  }

  /** `results["depression"]["score"]` and so on: fails when a subscale or its
      score is missing. */
  function RequiredScores(results: Dict): (r: Option<Scores>)
    ensures r.Some? <==>
      Get(results, "depression").Some? && Get(results, "depression").value.score.Some? &&
      Get(results, "anxiety").Some? && Get(results, "anxiety").value.score.Some? &&
      Get(results, "stress").Some? && Get(results, "stress").value.score.Some?
  {
    match (Get(results, "depression"), Get(results, "anxiety"), Get(results, "stress"))
    case (Some(Entry(Some(d), _)), Some(Entry(Some(a), _)), Some(Entry(Some(s), _))) => Some(Scores(d, a, s))
    case _ => None
  }

  /** The list the scores call for: the depression, anxiety and stress items
      appear exactly when the score reaches 14, 10 and 19, in that order, and
      the list always ends with Regular Exercise then Social Support. */
  predicate AssessmentList(scores: Scores, recs: seq<Recommendation>)
  {
    (ProfessionalCounseling in recs <==> scores.depression >= 14) &&
    (AnxietyManagement in recs <==> scores.anxiety >= 10) &&
    (StressReduction in recs <==> scores.stress >= 19) &&
    |recs| == 2 + Triggered(scores) &&
    (scores.depression >= 14 ==> recs[0] == ProfessionalCounseling) &&
    (scores.anxiety >= 10 ==> recs[if scores.depression >= 14 then 1 else 0] == AnxietyManagement) &&
    (scores.stress >= 19 ==> recs[|recs| - 3] == StressReduction) &&
    recs[|recs| - 2..] == [RegularExercise, SocialSupport]
  }

  /** `generate_recommendations_from_assessment`, given the three scores. */
  method GenerateRecommendationsFromAssessment(scores: Scores) returns (recs: seq<Recommendation>)
    ensures AssessmentList(scores, recs)
    ensures 2 <= |recs| <= 5
  {
    recs := [];
    if scores.depression >= 14 {
      recs := recs + [ProfessionalCounseling];
    }
    if scores.anxiety >= 10 {
      recs := recs + [AnxietyManagement];
    }
    if scores.stress >= 19 {
      recs := recs + [StressReduction];
    }
    recs := recs + [RegularExercise, SocialSupport];
    var d, a, st := scores.depression >= 14, scores.anxiety >= 10, scores.stress >= 19;
    assert recs == Layout(d, a, st);
    LayoutMembers(d, a, st);
    LayoutPositions(d, a, st);
  }

  /** The list for the items switched on, in subscale order, then the closing pair. */
  ghost function Layout(depression: bool, anxiety: bool, stress: bool): seq<Recommendation>
  {
    (if depression then [ProfessionalCounseling] else [])
    + (if anxiety then [AnxietyManagement] else [])
    + (if stress then [StressReduction] else [])
    + [RegularExercise, SocialSupport]
  }

  /** Each subscale's item is in the list exactly when it is switched on. */
  lemma LayoutMembers(depression: bool, anxiety: bool, stress: bool)
    ensures ProfessionalCounseling in Layout(depression, anxiety, stress) <==> depression
    ensures AnxietyManagement in Layout(depression, anxiety, stress) <==> anxiety
    ensures StressReduction in Layout(depression, anxiety, stress) <==> stress
  {
    ItemsDistinct();
  }

  /** One item per subscale switched on, each where its predecessors end. */
  lemma LayoutPositions(depression: bool, anxiety: bool, stress: bool)
    ensures var l := Layout(depression, anxiety, stress);
      |l| == 2 + (if depression then 1 else 0) + (if anxiety then 1 else 0) + (if stress then 1 else 0) &&
      l[|l| - 2..] == [RegularExercise, SocialSupport] &&
      (depression ==> l[0] == ProfessionalCounseling) &&
      (anxiety ==> l[if depression then 1 else 0] == AnxietyManagement) &&
      (stress ==> l[|l| - 3] == StressReduction)
  {
  }

  /** The five items are pairwise different (their titles already differ in
      their first two letters). */
  lemma ItemsDistinct()
    ensures var items := [ProfessionalCounseling, AnxietyManagement, StressReduction, RegularExercise, SocialSupport];
      forall i, j :: 0 <= i < j < |items| ==> items[i] != items[j]
  {
    var items := [ProfessionalCounseling, AnxietyManagement, StressReduction, RegularExercise, SocialSupport];
    assert forall i :: 0 <= i < |items| ==> items[i].title[..2] == ["Pr", "An", "St", "Re", "So"][i];
  }

  /** The end-of-session test: the lower-cased message contains an end keyword. */
  predicate EndRequested(message: string)
  {
    ContainsAny(Lower(message), EndKeywords)
  }

  datatype ChatReply = ChatReply(response: string, shouldEndSession: bool, recommendations: Option<seq<Recommendation>>)

  /** `chat_with_counselor` when the completion client is present; `reply` is what
      the completion call returned (it never raises: failures come back as text).
      An end keyword ends the session with the list above; when the results are
      absent or lack a score the lookup raises and the handler answers with its
      fallback reply, leaving the session open. */
  method ChatWithCounselor(message: string, results: Option<Dict>, reply: string) returns (out: ChatReply)
    ensures !EndRequested(message) ==> out == ChatReply(reply, false, None)
    ensures EndRequested(message) && (results.None? || RequiredScores(results.value).None?) ==>
      out == ChatReply(FallbackReply, false, None)
    ensures EndRequested(message) && results.Some? && RequiredScores(results.value).Some? ==>
      out.response == reply + ClosingNote && out.shouldEndSession && out.recommendations.Some? &&
      AssessmentList(RequiredScores(results.value).value, out.recommendations.value)
  {
    var response := reply;
    var shouldEnd := false;
    var recommendations: Option<seq<Recommendation>> := None;
    if EndRequested(message) {
      shouldEnd := true;
      var scores := if results.Some? then RequiredScores(results.value) else None;
      if scores.None? {
        return ChatReply(FallbackReply, false, None);
      }
      var recs := GenerateRecommendationsFromAssessment(scores.value);
      recommendations := Some(recs);
      response := response + ClosingNote;
    }
    out := ChatReply(response, shouldEnd, if shouldEnd then recommendations else None);
  }

  /** "Goodbye!" is an end request; by the contract of `ChatWithCounselor`, sent
      without an assessment it gets the fallback reply and the session stays open. */
  lemma GoodbyeIsEndRequest()
    ensures EndRequested("Goodbye!")
  {
    assert Lower("Goodbye!") == "goodbye!";
    assert OccursAt("goodbye!", "goodbye", 0);
  }

  /** Matching is by substring: a keyword anywhere in the lower-cased message,
      even inside a longer word ("stop" in "unstoppable"), ends the session. */
  lemma KeywordInsideWord(message: string, k: string, i: int)
    requires k in EndKeywords && OccursAt(Lower(message), k, i)
    ensures EndRequested(message)
  {
  }

  /** A message with none of the keywords keeps the session open. */
  lemma HelloIsNoEnd()
    ensures !EndRequested("hello")
  {
    assert Lower("hello") == "hello";
    assert !Contains("hello", "end session");
    assert !Contains("hello", "finish");
    assert !Contains("hello", "goodbye");
    assert !Contains("hello", "end chat");
    assert !Contains("hello", "stop");
    assert !Contains("hello", "bye");
    assert !Contains("hello", "quit");
  }
}
