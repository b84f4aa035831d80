/** The browser side of the questionnaire and the chat: the offline copy of the
    DASS-21 scorer, the severe-case alert test, the fixed recommendation list, the
    greeting tier of the opening message, the question navigation state and the
    chat history the page keeps for the counselor. */
module Browser {

  import opened Payload
  import Dass

  /** `dassQuestions.length`. */
  const QuestionCount := 21

  /** The browser's own copies of the item groups. */
  const JsDepressionItems: seq<nat> := [2, 4, 9, 12, 15, 16, 20]
  const JsAnxietyItems: seq<nat> := [1, 3, 6, 8, 14, 18, 19]
  const JsStressItems: seq<nat> := [0, 5, 7, 10, 11, 13, 17]

  function JsItems(s: Dass.Scale): seq<nat>
  {
    match s
    case Depression => JsDepressionItems
    case Anxiety => JsAnxietyItems
    case Stress => JsStressItems
  }

  /** `answers[index] || 0`: the answers array is sparse, and a question never
      answered reads as 0. */
  function AnswerOr0(answers: map<int, int>, index: int): int
  {
    if index in answers then answers[index] else 0
  }

  /** The `reduce` over one item group. */
  function JsSum(answers: map<int, int>, items: seq<nat>): int
  {
    if items == [] then 0 else AnswerOr0(answers, items[0]) + JsSum(answers, items[1..])
  }

  /** The browser's ranges table. */
  function JsRanges(s: Dass.Scale): Dass.Ranges
  {
    match s
    case Depression => Dass.Ranges(Dass.Band(0, 9), Dass.Band(10, 13), Dass.Band(14, 20), Dass.Band(21, 27), Dass.Band(28, 42))
    case Anxiety => Dass.Ranges(Dass.Band(0, 7), Dass.Band(8, 9), Dass.Band(10, 14), Dass.Band(15, 19), Dass.Band(20, 42))
    case Stress => Dass.Ranges(Dass.Band(0, 14), Dass.Band(15, 18), Dass.Band(19, 25), Dass.Band(26, 33), Dass.Band(34, 42))
  }

  /** `getScoreLevel`: the same lower bounds, tested from the top down, so it
      classifies every score as the backend does. */
  function JsGetScoreLevel(s: Dass.Scale, score: int): (l: Dass.Level)
    ensures l == Dass.GetScoreLevel(s, score)
  {
    var r := JsRanges(s);
    if score >= r.extremelySevere.lo then Dass.ExtremelySevere
    else if score >= r.severe.lo then Dass.Severe
    else if score >= r.moderate.lo then Dass.Moderate
    else if score >= r.mild.lo then Dass.Mild
    else Dass.Normal
  }

  /** `calculateDassScores`. */
  function JsCalculateDassScores(answers: map<int, int>): (r: Dass.Results)
    ensures Dass.Classified(r)
    ensures forall s: Dass.Scale :: r.For(s).score == JsSum(answers, JsItems(s)) * 2
  {
    var d := JsSum(answers, JsDepressionItems) * 2;
    var a := JsSum(answers, JsAnxietyItems) * 2;
    var st := JsSum(answers, JsStressItems) * 2;
    Dass.Results(Dass.SubscaleResult(d, JsGetScoreLevel(Dass.Depression, d)),
                 Dass.SubscaleResult(a, JsGetScoreLevel(Dass.Anxiety, a)),
                 Dass.SubscaleResult(st, JsGetScoreLevel(Dass.Stress, st)))
  }

  /** The sparse array holding the answers of a list, position by position. */
  function Sparse(answers: seq<int>): map<int, int>
  {
    map i | 0 <= i < |answers| :: answers[i]
  }

  /** Summing through the sparse array gives the backend's sum, which skips
      positions past the end of the list just as the browser reads them as 0. */
  lemma {:induction false} JsSumAgrees(answers: seq<int>, items: seq<nat>)
    ensures JsSum(Sparse(answers), items) == Dass.SumAt(answers, items)
  {
    if items != [] {
      JsSumAgrees(answers, items[1..]);
    }
  }

  /** The browser scorer and the backend scorer agree on every answer list. */
  lemma ScorersAgree(answers: seq<int>)
    ensures JsCalculateDassScores(Sparse(answers)) == Dass.CalculateDassScores(answers)
  {
    JsSumAgrees(answers, JsDepressionItems);
    JsSumAgrees(answers, JsAnxietyItems);
    JsSumAgrees(answers, JsStressItems);
  }

  /** `checkSevereCases`: some result carries a severe level; it is the backend's
      test on the same results. */
  function CheckSevereCases(results: Dass.Results): (r: bool)
    ensures r <==> exists s: Dass.Scale :: results.For(s).level.IsSevere()
    ensures r <==> Dass.CheckSevereCase(Dass.Values(results))
  {
    Dass.CheckSevereCaseOnResults(results);
    assert results.depression == results.For(Dass.Depression);
    assert results.anxiety == results.For(Dass.Anxiety);
    assert results.stress == results.For(Dass.Stress);
    results.depression.level.IsSevere() || results.anxiety.level.IsSevere() || results.stress.level.IsSevere()
  }

  const CounselingRec := Recommendation("Professional Counseling",
    "Consider speaking with a licensed mental health professional who can provide personalized treatment strategies for depression.")
  const DailyRoutineRec := Recommendation("Daily Routine",
    "Establish a consistent daily routine with regular sleep, meals, and activities to help stabilize mood.")
  const BreathingRec := Recommendation("Breathing Exercises",
    "Practice deep breathing techniques and mindfulness meditation to help manage anxiety symptoms.")
  const ExposureRec := Recommendation("Gradual Exposure",
    "Gradually face anxiety-provoking situations in a controlled way to build confidence and reduce avoidance.")
  const StressRec := Recommendation("Stress Management",
    "Learn stress management techniques such as time management, relaxation exercises, and setting boundaries.")
  const ActivityRec := Recommendation("Physical Activity",
    "Engage in regular physical exercise, which can significantly reduce stress levels and improve overall well-being.")
  const SocialRec := Recommendation("Social Support",
    "Connect with friends, family, or support groups. Social connections are crucial for mental health recovery.")
  const SelfCareRec := Recommendation("Self-Care Practices",
    "Prioritize self-care activities that you enjoy and that help you relax, such as hobbies, reading, or listening to music.")

  /** How many of the three blocks the scores switch on (14, 10 and 19). */
  function BlockCount(results: Dass.Results): nat
  {
    (if results.depression.score >= 14 then 1 else 0)
    + (if results.anxiety.score >= 10 then 1 else 0)
    + (if results.stress.score >= 19 then 1 else 0)
  }

  /** `generateRecommendations`: each subscale's pair appears, in subscale order,
      exactly when its score reaches its threshold, and the two general items
      always close the list. */
  method GenerateRecommendations(results: Dass.Results) returns (recs: seq<Recommendation>)
    ensures CounselingRec in recs <==> results.depression.score >= 14
    ensures DailyRoutineRec in recs <==> results.depression.score >= 14
    ensures BreathingRec in recs <==> results.anxiety.score >= 10
    ensures ExposureRec in recs <==> results.anxiety.score >= 10
    ensures StressRec in recs <==> results.stress.score >= 19
    ensures ActivityRec in recs <==> results.stress.score >= 19
    ensures |recs| == 2 + 2 * BlockCount(results)
    ensures |recs| in {2, 4, 6, 8}
    ensures recs[|recs| - 2..] == [SocialRec, SelfCareRec]
    ensures results.depression.score >= 14 ==> recs[..2] == [CounselingRec, DailyRoutineRec]
    ensures results.anxiety.score >= 10 ==>
      var at := if results.depression.score >= 14 then 2 else 0;
      recs[at..at + 2] == [BreathingRec, ExposureRec]
    ensures results.stress.score >= 19 ==> recs[|recs| - 4..|recs| - 2] == [StressRec, ActivityRec]
  {
    recs := [];
    if results.depression.score >= 14 {
      recs := recs + [CounselingRec, DailyRoutineRec];
    }
    if results.anxiety.score >= 10 {
      recs := recs + [BreathingRec, ExposureRec];
    }
    if results.stress.score >= 19 {
      recs := recs + [StressRec, ActivityRec];
    }
    recs := recs + [SocialRec, SelfCareRec];
    var d, a, st := results.depression.score >= 14, results.anxiety.score >= 10, results.stress.score >= 19;
    assert recs == Layout(d, a, st);
    LayoutMembers(d, a, st);
    LayoutPositions(d, a, st);
  }

  /** The list for the blocks switched on, in subscale order, then the closing pair. */
  ghost function Layout(depression: bool, anxiety: bool, stress: bool): seq<Recommendation>
  {
    (if depression then [CounselingRec, DailyRoutineRec] else [])
    + (if anxiety then [BreathingRec, ExposureRec] else [])
    + (if stress then [StressRec, ActivityRec] else [])
    + [SocialRec, SelfCareRec]
  }

  /** Each block's items are in the list exactly when the block is on. */
  lemma LayoutMembers(depression: bool, anxiety: bool, stress: bool)
    ensures CounselingRec in Layout(depression, anxiety, stress) <==> depression
    ensures DailyRoutineRec in Layout(depression, anxiety, stress) <==> depression
    ensures BreathingRec in Layout(depression, anxiety, stress) <==> anxiety
    ensures ExposureRec in Layout(depression, anxiety, stress) <==> anxiety
    ensures StressRec in Layout(depression, anxiety, stress) <==> stress
    ensures ActivityRec in Layout(depression, anxiety, stress) <==> stress
  {
    var titles := [CounselingRec.title, DailyRoutineRec.title, BreathingRec.title, ExposureRec.title,
                   StressRec.title, ActivityRec.title, SocialRec.title, SelfCareRec.title];
    assert forall i :: 0 <= i < |titles| ==> titles[i][..2] == ["Pr", "Da", "Br", "Gr", "St", "Ph", "So", "Se"][i];
  }

  /** The blocks' positions: two items per block on, and each block where its
      predecessors end. */
  lemma LayoutPositions(depression: bool, anxiety: bool, stress: bool)
    ensures var l := Layout(depression, anxiety, stress);
      |l| == 2 + (if depression then 2 else 0) + (if anxiety then 2 else 0) + (if stress then 2 else 0) &&
      l[|l| - 2..] == [SocialRec, SelfCareRec] &&
      (depression ==> l[..2] == [CounselingRec, DailyRoutineRec]) &&
      (anxiety ==> var at := if depression then 2 else 0; l[at..at + 2] == [BreathingRec, ExposureRec]) &&
      (stress ==> l[|l| - 4..|l| - 2] == [StressRec, ActivityRec])
  {
  }

  /** The three texts the opening message can carry. */
  datatype Tier = SignificantChallenges | SomeDifficulties | ManagingWell

  function MaxScore(results: Dass.Results): int
  {
    var d, a, s := results.depression.score, results.anxiety.score, results.stress.score;
    if d >= a && d >= s then d else if a >= s then a else s
  }

  /** The tier of the opening message, from the largest of the three scores. */
  function GreetingTier(results: Dass.Results): (t: Tier)
    ensures t == SignificantChallenges <==> exists s: Dass.Scale :: results.For(s).score >= 21
    ensures t == SomeDifficulties <==>
      (exists s: Dass.Scale :: results.For(s).score >= 14) && forall s: Dass.Scale :: results.For(s).score < 21
    ensures t == ManagingWell <==> forall s: Dass.Scale :: results.For(s).score < 14
  {
    var severity := MaxScore(results);
    assert severity in {results.For(Dass.Depression).score, results.For(Dass.Anxiety).score, results.For(Dass.Stress).score};
    if severity >= 21 then SignificantChallenges
    else if severity >= 14 then SomeDifficulties
    else ManagingWell
  }

  /** The tier ignores each subscale's own cut-offs: severe anxiety (15 to 19)
      raises the severe-case alert yet gets the milder "some difficulties" text. */
  lemma SevereAnxietyMildGreeting(results: Dass.Results)
    requires Dass.Classified(results)
    requires results.depression.score < 14 && results.stress.score < 14
    requires 15 <= results.anxiety.score <= 19
    ensures CheckSevereCases(results)
    ensures GreetingTier(results) == SomeDifficulties
  {
    assert results.anxiety == results.For(Dass.Anxiety);
  }

  /** The navigation state of the questionnaire page. */
  class Questionnaire {
    var currentQuestion: int
    var answers: map<int, int>

    /** The shown question is one of the 21, and answers are kept only for them. */
    ghost predicate Valid()
      reads this
    {
      0 <= currentQuestion < QuestionCount && forall k :: k in answers ==> 0 <= k < QuestionCount
    }

    constructor ()
      ensures Valid() && currentQuestion == 0 && answers == map[]
    {
      currentQuestion := 0;
      answers := map[];
    }

    /** `nextQuestion`: `selected` is the checked radio button's parsed value, or
        none when nothing is checked (a warning, and nothing changes). Otherwise
        the answer to the shown question is stored, and the page moves on, or on
        the last question reports that the assessment completes. */
    method NextQuestion(selected: Option<int>) returns (completes: bool)
      requires Valid()
      modifies this
      ensures Valid()
      ensures selected.None? ==>
        currentQuestion == old(currentQuestion) && answers == old(answers) && !completes
      ensures selected.Some? ==> answers == old(answers)[old(currentQuestion) := selected.value]
      ensures forall k :: k != old(currentQuestion) ==>
        (k in answers <==> k in old(answers)) && (k in answers ==> answers[k] == old(answers)[k])
      ensures selected.Some? && old(currentQuestion) < QuestionCount - 1 ==>
        currentQuestion == old(currentQuestion) + 1 && !completes
      ensures selected.Some? && old(currentQuestion) == QuestionCount - 1 ==>
        currentQuestion == old(currentQuestion) && completes
    {
      if selected.None? {
        return false;
      }
      answers := answers[currentQuestion := selected.value];
      if currentQuestion < QuestionCount - 1 {
        currentQuestion := currentQuestion + 1;
        completes := false;
      } else {
        completes := true;
      }
    }

    /** `previousQuestion`: one question back, and nothing on the first. */
    method PreviousQuestion()
      requires Valid()
      modifies this
      ensures Valid()
      ensures answers == old(answers)
      ensures currentQuestion == if old(currentQuestion) > 0 then old(currentQuestion) - 1 else 0
    {
      if currentQuestion > 0 {
        currentQuestion := currentQuestion - 1;
      }
    }

    /** The reset `startNewSession` performs on this state. */
    method StartNewSession()
      modifies this
      ensures Valid() && currentQuestion == 0 && answers == map[]
    {
      currentQuestion := 0;
      answers := map[];
    }
  }

  /** Answering every question in turn from a fresh page completes the
      assessment on the last one, and the browser then scores exactly what the
      backend scores for the same answer list. */
  method AnswerAll(q: Questionnaire, selections: seq<int>) returns (completes: bool)
    requires q.Valid() && q.currentQuestion == 0 && q.answers == map[]
    requires |selections| == QuestionCount
    modifies q
    ensures completes && q.answers == Sparse(selections)
    ensures JsCalculateDassScores(q.answers) == Dass.CalculateDassScores(selections)
  {
    completes := false;
    for i := 0 to QuestionCount
      invariant q.Valid()
      invariant i < QuestionCount ==> q.currentQuestion == i && !completes
      invariant i == QuestionCount ==> completes
      invariant q.answers == Sparse(selections[..i])
    {
      completes := q.NextQuestion(Some(selections[i]));
      assert Sparse(selections[..i + 1]) == Sparse(selections[..i])[i := selections[i]];
    }
    assert selections[..QuestionCount] == selections;
    ScorersAgree(selections);
  }

  /** One entry of the history sent with each chat request. */
  datatype ChatTurn = ChatTurn(role: string, content: string)

  const UserPlaceholder := "Hello, How are you?"
  const BotPlaceholder := "I am doing well, thank you for asking. "

  /** What the page appends for a message from `sender`, as written: a fixed
      text per role, whatever the message said; nothing for other senders. */
  function AppendedTurn(message: string, sender: string): (r: Option<ChatTurn>)
    ensures r.Some? <==> sender in {"user", "bot"}
    ensures r.Some? ==> r.value.role == (if sender == "user" then "user" else "assistant")
    ensures r.Some? ==> r.value.content == (if sender == "user" then UserPlaceholder else BotPlaceholder)
  {
    if sender == "user" then Some(ChatTurn("user", UserPlaceholder))
    else if sender == "bot" then Some(ChatTurn("assistant", BotPlaceholder))
    else None
  }

  /** The entry the history is evidently meant to receive: the message itself,
      under the role the counselor expects. */
  function IntendedTurn(message: string, sender: string): (r: Option<ChatTurn>)
    ensures r.Some? <==> sender in {"user", "bot"}
    ensures r.Some? ==> r.value.content == message
    ensures r.Some? ==> r.value.role == (if sender == "user" then "user" else "assistant")
  {
    if sender == "user" then Some(ChatTurn("user", message))
    else if sender == "bot" then Some(ChatTurn("assistant", message))
    else None
  }

  /** As written, the history loses what the user typed: any user message other
      than the placeholder itself is recorded as the placeholder. */
  lemma PlaceholderLosesMessage(message: string)
    requires message != UserPlaceholder
    ensures AppendedTurn(message, "user").value.content != message
    ensures IntendedTurn(message, "user").value.content == message
  {
  }

  /** The `chatHistory` array of the chat page. */
  class ChatLog {
    var chatHistory: seq<ChatTurn>

    constructor ()
      ensures chatHistory == []
    {
      chatHistory := [];
    }

    /** The history update of `addMessageToChat` as written (the display part is
        not modelled): one entry for "user" or "bot", none otherwise. */
    method AddMessageToChat(message: string, sender: string)
      modifies this
      ensures AppendedTurn(message, sender).Some? ==> chatHistory == old(chatHistory) + [AppendedTurn(message, sender).value]
      ensures AppendedTurn(message, sender).None? ==> chatHistory == old(chatHistory)
      ensures |chatHistory| == |old(chatHistory)| + (if sender in {"user", "bot"} then 1 else 0)
    {
      if sender == "user" {
        chatHistory := chatHistory + [ChatTurn("user", UserPlaceholder)];
      } else if sender == "bot" {
        chatHistory := chatHistory + [ChatTurn("assistant", BotPlaceholder)];
      }
    }

    /** The corrected update: the message itself is recorded, so the history
        holds the conversation in order. */
    method AddMessageToChatCorrected(message: string, sender: string)
      modifies this
      ensures IntendedTurn(message, sender).Some? ==> chatHistory == old(chatHistory) + [IntendedTurn(message, sender).value]
      ensures IntendedTurn(message, sender).None? ==> chatHistory == old(chatHistory)
      ensures sender in {"user", "bot"} ==> chatHistory[|chatHistory| - 1].content == message
    {
      if sender == "user" {
        chatHistory := chatHistory + [ChatTurn("user", message)];
      } else if sender == "bot" {
        chatHistory := chatHistory + [ChatTurn("assistant", message)];
      }
    }
  }
}
