/** The AI counselor's turn logic without the completion call itself: the
    severe-case test on client-supplied results, the cleaning of the session
    history, the layout of the outgoing message list and the keyword flags
    that end a session and attach emergency resources. */
module Counselor {

  import opened Text
  import opened Payload
  import Dass

  const EmergencyRecommendations: seq<Recommendation> := [
    Recommendation("Crisis Hotlines", "National Suicide Prevention Lifeline: 988. Crisis Text Line: Text HOME to 741741."),
    Recommendation("Professional Help", "Contact a mental health professional or crisis counselor immediately."),
    Recommendation("Support System", "Reach out to trusted friends, family members, or support groups."),
    Recommendation("Safety Planning", "Work with a professional to create a safety plan for managing crisis situations.")
  ]

  const EndPhrases: seq<string> := ["bye", "goodbye", "end session", "i want to stop"]
  const SelfHarmKeywords: seq<string> := ["harm myself", "kill myself", "suicide", "end my life", "hurt myself"]

  const UnavailableReply := "I am sorry, but the AI counselor is currently unavailable. Please try again later."
  const TroubleReply := "I'm sorry, I'm having trouble connecting to the AI counselor right now. Please try again later."

  /** The categories the severe-case test inspects, in order. */
  const Categories: seq<string> := ["depression", "anxiety", "stress"]

  /** A label that marks a severe case. */
  predicate IsSevereLabel(level: Option<string>)
  {
    level == Some("Severe") || level == Some("Extremely Severe")
  }

  /** The severe-case condition: results are present and some inspected category
      carries a severe label (missing categories and other keys are ignored). */
  ghost predicate SevereCase(results: Option<Dict>)
  {
    results.Some? && exists j :: 0 <= j < |Categories| && IsSevereLabel(LevelOf(results.value, Categories[j]))
  }

  /** `_is_severe_case`: absent or empty results are not severe; otherwise the
      three categories are checked in turn and the first severe one answers. */
  method IsSevereCase(results: Option<Dict>) returns (severe: bool)
    ensures severe <==> SevereCase(results)
  {
    if results.None? || results.value == [] {
      return false;
    }
    var d := results.value;
    for j := 0 to |Categories|
      invariant forall k :: 0 <= k < j ==> !IsSevereLabel(LevelOf(d, Categories[k]))
    {
      if IsSevereLabel(LevelOf(d, Categories[j])) {
        return true;
      }
    }
    return false;
  }

  /** A level's label is a severe label exactly for the two severe levels. */
  lemma SevereLabelOfLevel(l: Dass.Level)
    ensures IsSevereLabel(Some(l.Label())) <==> l.IsSevere()
  {
  }

  /** The counselor reads each category of serialised backend results as that
      subscale's severity. */
  lemma CategorySeverity(r: Dass.Results, j: int)
    requires 0 <= j < |Categories|
    ensures var s := if j == 0 then Dass.Depression else if j == 1 then Dass.Anxiety else Dass.Stress;
      IsSevereLabel(LevelOf(Dass.ToDict(r), Categories[j])) <==> r.For(s).level.IsSevere()
  {
    var s := if j == 0 then Dass.Depression else if j == 1 then Dass.Anxiety else Dass.Stress;
    assert Categories[j] == s.Name();
    assert LevelOf(Dass.ToDict(r), s.Name()) == Some(r.For(s).level.Label());
    SevereLabelOfLevel(r.For(s).level);
  }

  /** On results the backend computed and serialised, the counselor's test and
      the backend's severe-case flag agree. */
  lemma SevereCaseAgreesWithBackend(r: Dass.Results)
    ensures SevereCase(Some(Dass.ToDict(r))) <==> Dass.CheckSevereCase(Dass.Values(r))
  {
    CategorySeverity(r, 0);
    CategorySeverity(r, 1);
    CategorySeverity(r, 2);
    Dass.CheckSevereCaseOnResults(r);
    if Dass.CheckSevereCase(Dass.Values(r)) {
      var s: Dass.Scale :| r.For(s).level.IsSevere();
      var j := match s case Depression => 0 case Anxiety => 1 case Stress => 2;
      assert IsSevereLabel(LevelOf(Dass.ToDict(r), Categories[j]));
    }
  }

  /** An item of the session history the browser sends: either not a dictionary
      at all, or a dictionary of string fields. */
  datatype HistoryItem = NotADict | Dict(fields: map<string, string>)

  /** A dictionary with both "role" and "content". */
  predicate WellFormed(m: HistoryItem)
  {
    m.Dict? && "role" in m.fields && "content" in m.fields
  }

  /** The well-formed items of a history, in their original order. */
  function WellFormedOnly(history: seq<HistoryItem>): (r: seq<HistoryItem>)
  {
    if history == [] then []
    else
      var last := history[|history| - 1];
      WellFormedOnly(history[..|history| - 1]) + (if WellFormed(last) then [last] else [])
  }

  /** The filter keeps every well-formed item and drops every other. */
  lemma {:induction false} WellFormedOnlyMembership(history: seq<HistoryItem>)
    ensures forall m :: m in WellFormedOnly(history) <==> m in history && WellFormed(m)
  {
    if history != [] {
      var init, last := history[..|history| - 1], history[|history| - 1];
      WellFormedOnlyMembership(init);
      assert history == init + [last];
      forall m ensures m in WellFormedOnly(history) <==> m in history && WellFormed(m) {
        assert m in history <==> m in init || m == last;
      }
    }
  }

  /** A history whose items are all well-formed passes through unchanged. */
  lemma {:induction false} WellFormedOnlyIdentity(history: seq<HistoryItem>)
    requires forall i :: 0 <= i < |history| ==> WellFormed(history[i])
    ensures WellFormedOnly(history) == history
  {
    if history != [] {
      var init := history[..|history| - 1];
      assert forall i :: 0 <= i < |init| ==> init[i] == history[i];
      WellFormedOnlyIdentity(init);
      assert history == init + [history[|history| - 1]];
    }
  }

  /** The cleaning loop of `process_message`. */
  method CleanHistory(history: seq<HistoryItem>) returns (cleaned: seq<HistoryItem>)
    ensures cleaned == WellFormedOnly(history)
  {
    cleaned := [];
    for i := 0 to |history|
      invariant cleaned == WellFormedOnly(history[..i])
    {
      assert history[..i + 1][..i] == history[..i];
      if WellFormed(history[i]) {
        cleaned := cleaned + [history[i]];
      }
    }
    assert history[..|history|] == history;
  }

  function Message(role: string, content: string): HistoryItem
  {
    Dict(map["role" := role, "content" := content])
  }

  /** The opening instructions and the notes appended to them (the wording of the
      instructions is shortened, and the per-subscale summary is not rendered). */
  const BasePrompt := "You are MindCare, an empathetic and supportive AI mental health counselor."
  const AssessmentNote := "\nUser's DASS-21 Assessment Results."
  const SevereNote := "\nUser has severe symptoms based on assessment."

  /** The system message: the assessment note when results are present and
      non-empty, the severe note when the severe-case test also holds. */
  function SystemPrompt(results: Option<Dict>, severe: bool): string
  {
    if results.Some? && results.value != [] then
      BasePrompt + AssessmentNote + (if severe then SevereNote else "")
    else BasePrompt
  }

  /** The session flags the keyword tests derive from the lower-cased message:
      either kind of keyword ends the session; a self-harm keyword brings the
      emergency list, an end phrase alone brings nothing. */
  function KeywordSignal(lowered: string): (bool, seq<Recommendation>)
  {
    var selfHarm := ContainsAny(lowered, SelfHarmKeywords);
    (selfHarm || ContainsAny(lowered, EndPhrases), if selfHarm then EmergencyRecommendations else [])
  }

  /** `process_message`. `clientReady` says whether the completion client was
      initialised; `completion` is what the completion call returned, or None when
      it raised. `sent` is the message list passed to that call (empty when the
      client is absent). */
  method ProcessMessage(userMessage: string, results: Option<Dict>, history: seq<HistoryItem>,
                        clientReady: bool, completion: Option<string>)
    returns (response: string, shouldEndSession: bool, recommendations: seq<Recommendation>, sent: seq<HistoryItem>)
    ensures !clientReady ==> response == UnavailableReply && !shouldEndSession && recommendations == [] && sent == []
    ensures clientReady ==>
      |sent| >= 2 &&
      sent[0] == Message("system", SystemPrompt(results, SevereCase(results))) &&
      sent[1..|sent| - 1] == WellFormedOnly(history) &&
      sent[|sent| - 1] == Message("user", userMessage)
    ensures clientReady && completion.None? ==>
      response == TroubleReply && !shouldEndSession && recommendations == []
    ensures clientReady && completion.Some? ==>
      response == completion.value &&
      (shouldEndSession, recommendations) == KeywordSignal(Lower(userMessage))
  {
    response := UnavailableReply;
    shouldEndSession := false;
    recommendations := [];
    sent := [];
    if !clientReady {
      return;
    }
    var severe := IsSevereCase(results);
    sent := [Message("system", SystemPrompt(results, severe))];
    var cleaned := CleanHistory(history);
    sent := sent + cleaned;
    sent := sent + [Message("user", userMessage)];

    if completion.None? {
      response := TroubleReply;
      shouldEndSession := false;
      return;
    }
    response := completion.value;
    var lowered := Lower(userMessage);
    if ContainsAny(lowered, EndPhrases) {
      shouldEndSession := true;
    }
    if ContainsAny(lowered, SelfHarmKeywords) {
      shouldEndSession := true;
      recommendations := EmergencyRecommendations;
    }
  }

  /** A self-harm keyword always ends the session with exactly the four emergency
      items, whatever end phrase is also present. */
  lemma SelfHarmOverrides(lowered: string)
    requires ContainsAny(lowered, SelfHarmKeywords)
    ensures KeywordSignal(lowered) == (true, EmergencyRecommendations)
    ensures |KeywordSignal(lowered).1| == 4 && KeywordSignal(lowered).1[0].title == "Crisis Hotlines"
  {
  }

  /** An end phrase without a self-harm keyword ends the session with no
      recommendations; with neither, the session stays open. */
  lemma EndPhraseAlone(lowered: string)
    requires !ContainsAny(lowered, SelfHarmKeywords)
    ensures KeywordSignal(lowered) == (ContainsAny(lowered, EndPhrases), [])
  {
  }

  /** Scenario: "I want to kill myself" raises the self-harm flag. */
  lemma KillMyselfScenario(message: string)
    requires message == "I want to kill myself"
    ensures KeywordSignal(Lower(message)) == (true, EmergencyRecommendations)
  {
    var m := Lower(message);
    assert m[10..21] == SelfHarmKeywords[1];
    assert OccursAt(m, SelfHarmKeywords[1], 10);
  }
}
