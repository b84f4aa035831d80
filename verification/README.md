# MindCare core in Dafny

MindCare is a workplace mental-health service. An employee fills in the
21-item DASS-21 questionnaire, either in the browser or through the backend's
assessment endpoint. The answers are scored into three subscales (depression,
anxiety, stress), and each score is classified into one of five severity bands.
A severe result raises an alert and a notification to HR or a manager. The
employee then chats with an AI counselor, whose turns are gated by keyword
tests. A session ends with recommendations built from the scores.

This project models the decision logic of that service and proves its
properties:

- `text.dfy` (module `Text`): ASCII lower-casing and substring search. These are
  what the keyword gates use.
- `payload.dfy` (module `Payload`): the loosely typed result dictionaries that
  clients send back. A dictionary is an ordered list of distinct keys, each
  mapped to an optional score and an optional level.
- `dass.dfy` (module `Dass`): the backend engine. It covers item groups, doubled
  sums, the per-subscale classifier, the severe-case test, validation of
  answers, and the assessment endpoint's outcome.
- `chat_api.dfy` (module `ChatApi`): the chat endpoint's end-of-session rule,
  and the recommendation list with thresholds 14, 10 and 19.
- `counselor.dfy` (module `Counselor`): the AI counselor's turn. It covers the
  severe-case loop, history cleaning, the layout of the outgoing message list,
  and the self-harm and end-phrase flags.
- `routing.dfy` (module `Routing`): both copies of the recipient-routing tables.
- `session_log.dfy` (module `SessionLog`): the in-memory session table, as a
  class whose methods update it in place.
- `analytics.dfy` (module `Analytics`): the overall severity, risk level,
  primary concern and insights, and the capped treatment-priority list.
- `recommender.dfy` (module `Recommender`): the personalised recommendation
  engine. It has a candidate loop, title de-duplication, and a stop at six
  items.
- `browser.dfy` (module `Browser`): the page's offline scorer, alert test,
  recommendation list and greeting tier. It also holds the question navigation
  state and the chat history, as classes.

The four recommendation builders use different thresholds, and the model keeps
them apart:

- the chat endpoint uses 14/10/19, one item per subscale;
- the page uses 14/10/19, two items per subscale;
- the engine uses a flat 14, up to two items per qualifying entry, de-duplicated
  and capped at 6;
- the analytics priorities use the largest score, capped at 5.

The scorer and the classifier exist twice, in the backend engine and in the
page; the severe-case test exists three times, in the backend engine, the AI
counselor and the page. Lemmas connect the copies. `Browser.ScorersAgree`
proves that the browser and the backend score every answer list alike.
`Browser.JsGetScoreLevel` proves the two classifiers agree.
`Browser.CheckSevereCases` and `Counselor.SevereCaseAgreesWithBackend` prove
that the page's and the counselor's severe tests agree with the backend flag
on results the backend produced.

Some behaviours of the code worth stating:

- The chat endpoint's end keywords are the seven in the code. A bare "goodbye"
  sent without assessment results does not end the session. Building the
  recommendation list fails on the missing scores, and the handler answers
  with its fallback reply and `shouldEndSession` false.
- The counselor's self-harm and end-phrase flags are computed only after a
  successful completion call. Without a client, or when the call fails, the
  session stays open and no emergency list is attached, whatever the message
  says.
- The flat "score ≥ 14" cut-off belongs to the personalised engine only. The
  chat endpoint and the page use 14/10/19.

## Model

| member | source | states |
|---|---|---|
| Text.Lower | backend/main.py:487 | `str.lower()` on ASCII: same length, each letter A–Z mapped to a–z, everything else kept |
| Text.LowerOfLowerCase | backend/email_service.py:111 | lower-casing a string without capitals changes nothing |
| Text.Contains | backend/main.py:487 | the substring test `k in s` holds exactly when `k` occurs at some position of `s` |
| Text.OccurrenceShift | backend/main.py:487 | when `s` does not start with `k`, `k` occurs in `s` exactly when it occurs in `s[1..]` |
| Text.ContainsAny | backend/ai_model.py:123 | `any(k in s for k in keys)` holds exactly when some key occurs in `s` |
| Payload.Get | backend/utils.py:90-92 | `dict.get`: none exactly when no entry has the key, otherwise an entry stored under it |
| Dass.ScaleNamed | backend/main.py:151 | `ranges[score_type]`: a subscale exactly for the three known keys, and that subscale has that name |
| Dass.GetScoreLevel | backend/main.py:125-161 | the level returned has its lower bound reached, and no higher level's lower bound is reached |
| Dass.GetScoreLevelNamed | backend/main.py:151-161 | an unknown key fails; a known key gives the classifier's level for its subscale |
| Dass.CalculateDassScores | backend/main.py:99-123 | every subscale score is twice its item sum, and every level is the classifier's verdict on that score |
| Dass.ToDict | backend/main.py:110-123 | the results dictionary maps each subscale name to its score and level label |
| Dass.CheckSevereCase | backend/main.py:163-168 | true exactly when some result's label is "Severe" or "Extremely Severe" |
| Dass.InvalidPositions | backend/main.py:429 | lists exactly the positions whose answer is not 0–3, in increasing order |
| Dass.ValidateAnswers | backend/main.py:424-432 | a wrong count is reported first; 21 answers with a bad value get the invalid-values error listing every bad position in increasing order; none exactly for 21 answers in 0–3 |
| Dass.AssessMentalHealth | backend/main.py:417-450 | assessed exactly for valid answers, with the computed results and the severe flag iff some level is severe; otherwise rejected with the validation error |
| Dass.SumAtBounds | backend/main.py:106-108 | an item sum over answers in 0–3 lies between 0 and 3 per item |
| Dass.ScoresEvenAndBounded | backend/main.py:106-108 | on valid answers every subscale score is even and within 0–42 |
| Dass.ItemsPartition | backend/main.py:102-104 | the three item groups are disjoint and together cover exactly the indices 0–20 |
| Dass.GetScoreLevelMonotone | backend/main.py:153-161 | a higher score never gets a lower level |
| Dass.LevelWithinBand | backend/main.py:127-149 | for scores 0–42 the level found is the band whose bounds contain the score |
| Dass.BoundaryExamples | backend/main.py:127-149 | the band edges: depression 20/21, anxiety 9/10, stress 14/15 |
| Dass.CheckSevereCaseOnResults | backend/main.py:163-168 | on computed results the severe test is "some subscale level is Severe or Extremely Severe" |
| Dass.AllZeroAnswers | backend/main.py:417-450 | 21 zero answers are assessed as Normal everywhere and not severe |
| Dass.SumAtZero | backend/main.py:106 | an all-zero answer list sums to 0 over any items |
| Dass.DepressionExtremelySevere | backend/main.py:417-450 | a depression item sum of 14 on valid answers gives score 28, Extremely Severe, and the severe flag |
| ChatApi.RequiredScores | backend/main.py:747-759 | the three score lookups succeed exactly when each subscale and its score are present |
| ChatApi.GenerateRecommendationsFromAssessment | backend/main.py:743-777 | each subscale item present iff its score reaches 14, 10, 19; counselling first, anxiety next, stress just before the tail; always ends with Regular Exercise, Social Support; two items plus one per subscale switched on |
| ChatApi.ItemsDistinct | backend/main.py:748-775 | the five items of the list are pairwise different |
| ChatApi.LayoutMembers | backend/main.py:747-764 | a subscale's item is in the list exactly when that subscale is switched on |
| ChatApi.LayoutPositions | backend/main.py:747-775 | one item per subscale switched on, in subscale order, then Regular Exercise and Social Support |
| ChatApi.ChatWithCounselor | backend/main.py:474-514 | no end keyword: the reply passes through and the session stays open; end keyword with scores: closing note, session ends, and the list the scores call for, with the same length and positions as above; end keyword without scores: fallback reply, session open |
| ChatApi.GoodbyeIsEndRequest | backend/main.py:486-487 | "Goodbye!" is an end request (the test is case-insensitive) |
| ChatApi.KeywordInsideWord | backend/main.py:487 | a keyword inside a longer word still ends the session (substring match) |
| ChatApi.HelloIsNoEnd | backend/main.py:486-487 | "hello" contains no end keyword |
| Counselor.IsSevereCase | backend/ai_model.py:38-47 | true exactly when results are present and depression, anxiety or stress carries a severe label |
| Counselor.SevereLabelOfLevel | backend/ai_model.py:45 | a level's label is a severe label exactly for Severe and Extremely Severe |
| Counselor.CategorySeverity | backend/ai_model.py:43-45 | each inspected category of serialised backend results reads as that subscale's severity |
| Counselor.SevereCaseAgreesWithBackend | backend/ai_model.py:38-47 | on serialised backend results the counselor's test equals the backend's severe flag |
| Counselor.WellFormedOnlyMembership | backend/ai_model.py:95-103 | the cleaned history keeps exactly the items that are dictionaries with "role" and "content" |
| Counselor.WellFormedOnlyIdentity | backend/ai_model.py:95-103 | a history of well-formed items passes through unchanged |
| Counselor.CleanHistory | backend/ai_model.py:95-103 | the cleaning loop returns the well-formed items in their original order |
| Counselor.ProcessMessage | backend/ai_model.py:49-138 | no client: unavailable reply, nothing sent; otherwise the system prompt, the cleaned history and the user message are sent in that order; a failed call keeps the session open; a successful one sets the flags from the lower-cased message |
| Counselor.SelfHarmOverrides | backend/ai_model.py:123-131 | a self-harm keyword ends the session with the four emergency items, whatever end phrase is also present |
| Counselor.EndPhraseAlone | backend/ai_model.py:123-131 | without a self-harm keyword, the session ends exactly on an end phrase, with no recommendations |
| Counselor.KillMyselfScenario | backend/ai_model.py:126-130 | "I want to kill myself" ends the session with the emergency items |
| Routing.Lookup | backend/main.py:739 | `table.get(department, table["default"])`: the entry when present, the default otherwise, always a table value |
| Routing.GetRecipientEmail | backend/main.py:719-741 | the HR table exactly when the preference lower-cases to "hr", else the manager table; exact department lookup with default fallback |
| Routing.ServiceRecipientEmail | backend/email_service.py:89-114 | the same rule over the service's larger tables |
| Routing.NotificationRecipient | backend/email_service.py:75 | a missing preference reads as "hr" and a missing department as ""; with neither, the HR address |
| Routing.HrPreferenceIgnoresCase | backend/email_service.py:111 | "HR", "Hr" and "hr" all select the HR address |
| Routing.ManagerFallbacks | backend/email_service.py:112-114 | "manager" or "" select the manager table; "it" and "Sales" are unknown departments and get the default |
| Routing.CopiesAgree | backend/email_service.py:89-114 | the two copies agree exactly unless the report goes to a manager from Operations or sales |
| SessionLog.SessionLogger.constructor | backend/utils.py:17-18 | the table starts empty |
| SessionLog.SessionLogger.LogSessionStart | backend/utils.py:20-35 | a fresh active record with no messages, results or recommendations is stored under the id, which is returned |
| SessionLog.SessionLogger.LogMessage | backend/utils.py:37-44 | a known session gets the message appended at the end; an unknown id changes nothing; other sessions are untouched |
| SessionLog.SessionLogger.LogAssessmentResults | backend/utils.py:46-50 | a known session's results are replaced; an unknown id changes nothing |
| SessionLog.SessionLogger.LogSessionEnd | backend/utils.py:52-63 | a known session is completed with the recommendations stored, its messages and results kept; an unknown id changes nothing |
| SessionLog.SessionLogger.GetSessionData | backend/utils.py:65-67 | the stored record exactly for a known id, none otherwise |
| Analytics.SeverityAndRisk | backend/utils.py:96-108 | the cut-offs 28, 21, 14, 8 pair each severity with its risk level; the severity rank counts the cut-offs reached |
| Analytics.PrimaryConcern | backend/utils.py:110-113 | none exactly when no score is positive; otherwise a subscale with the largest score, ties going to the earlier one |
| Analytics.Insights | backend/utils.py:115-130 | each subscale insight iff its own cut-off (14, 15, 26); the comorbidity insight iff two scores reach 14; each at most once, in depression, anxiety, stress, comorbidity order |
| Analytics.AnalyzeDassScores | backend/utils.py:80-134 | missing scores read as 0; severity and risk follow the largest score; concern and insights as above |
| Analytics.SeverityFollowsLargestScore | backend/utils.py:96-108 | Extremely Severe iff some score reaches 28; High or Very High risk iff some score reaches 21; Low risk iff all are below 14 |
| Analytics.EmptyResults | backend/utils.py:82-93 | an empty dictionary gives Normal, Low risk, no concern, no insights |
| Analytics.ConcernPriorities | backend/utils.py:145-162 | three items per concern, the first of them not a crisis or general item |
| Analytics.GenerateTreatmentPriorities | backend/utils.py:137-170 | 3 or 5 items; opens with the crisis pair iff the risk is High or Very High; a concern's three items follow in full; the rest is a prefix of the general items, cut when crisis and concern fill the list |
| Analytics.CrisisCrowdsOutGeneral | backend/utils.py:141-170 | High risk with a concern gives the crisis pair and the concern's three items, and no general item |
| Analytics.ScoreOfComputed | backend/utils.py:89-93 | the analytics read each subscale's score back from serialised backend results |
| Analytics.RiskOnComputedResults | backend/utils.py:96-102 | on backend results, High or Very High risk iff some subscale score reaches 21 |
| Analytics.SevereDepressionHighRisk | backend/utils.py:96-102 | depression classified Severe or Extremely Severe by the backend always gives High or Very High risk |
| Recommender.Take | backend/utils.py:280 | `s[:n]` is the prefix of length min(n, len(s)) |
| Recommender.FirstWinsDistinct | backend/utils.py:287-292 | the de-duplicated list has no repeated title |
| Recommender.FirstWinsCovers | backend/utils.py:287-292 | only candidates are kept, and every candidate title is kept |
| Recommender.FirstWinsPrefix | backend/utils.py:293-294 | de-duplicating a prefix gives a prefix of the whole result, so the early stop keeps the first six |
| Recommender.FirstWinsSnoc | backend/utils.py:289-292 | one more candidate is kept exactly when its title is new |
| Recommender.FirstWinsOfDistinct | backend/utils.py:287-292 | candidates with distinct titles pass through unchanged |
| Recommender.CollectCandidates | backend/utils.py:276-284 | two items per entry scoring 14 or more, in dictionary order, then the first two general items |
| Recommender.DropRepeats | backend/utils.py:286-296 | the loop returns the first six items with titles not seen before |
| Recommender.GeneratePersonalizedRecommendations | backend/utils.py:271-296 | the result is the first six title-distinct candidates |
| Recommender.PersonalizedShape | backend/utils.py:271-296 | at most six items, no repeated title, each one a candidate |
| Recommender.NoDomainQualifies | backend/utils.py:277-280 | no entry reaching 14 contributes no domain item |
| Recommender.GeneralHeadDistinct | backend/utils.py:247-257 | the first two general items have different titles |
| Recommender.OnlyGeneralWhenNothingElevated | backend/utils.py:271-296 | with no score of 14 the result is the first two general items |
| Recommender.GeneralEntryRepeats | backend/utils.py:277-292 | an elevated "general" entry repeats the general pair, and the repeats are dropped |
| Recommender.RepeatedPair | backend/utils.py:287-292 | a pair repeated twice keeps one copy of each |
| Recommender.ThreeDomainsCandidates | backend/utils.py:276-284 | all three subscales at 14 or more give their six items and then the general pair |
| Recommender.SixAndGeneralDistinct | backend/utils.py:180-268 | the six subscale items and the general items all have distinct titles |
| Recommender.GeneralNotAmongSix | backend/utils.py:180-268 | no general item's title is one of the six subscale titles |
| Recommender.ThreeDomainsCrowdOutGeneral | backend/utils.py:286-296 | all three subscales at 14 or more give exactly their six items and no general item |
| Browser.JsGetScoreLevel | counseling.js:381-413 | the page's classifier gives the backend's level for every subscale and score |
| Browser.JsCalculateDassScores | counseling.js:355-379 | every level is the classifier's verdict on a score that is twice the item sum, unanswered items reading 0 |
| Browser.JsSumAgrees | counseling.js:360-362 | the sparse-array sum equals the backend's sum over the same list |
| Browser.ScorersAgree | counseling.js:355-379 | the page and the backend compute identical results for every answer list |
| Browser.CheckSevereCases | counseling.js:456-459 | true exactly when some level is severe, which is the backend's flag on the same results |
| Browser.GenerateRecommendations | counseling.js:822-880 | each pair present iff its score reaches 14, 10, 19; the pairs in subscale order, each in its own order; ends with Social Support, Self-Care Practices; two items per pair switched on plus two |
| Browser.LayoutMembers | counseling.js:826-866 | a pair's items are in the list exactly when its block is switched on |
| Browser.LayoutPositions | counseling.js:822-880 | each block sits where the blocks before it end, and the closing pair comes last |
| Browser.GreetingTier | counseling.js:694-709 | "significant challenges" iff some score reaches 21; "some difficulties" iff the largest is 14–20; "managing well" iff all are below 14 |
| Browser.SevereAnxietyMildGreeting | counseling.js:694-709 | severe anxiety alone raises the alert yet gets the "some difficulties" text |
| Browser.Questionnaire.constructor | counseling.js:46-47 | the page starts on question 0 with no answers |
| Browser.Questionnaire.NextQuestion | counseling.js:227-244 | no selection changes nothing; otherwise only the shown question's answer is written, and the page advances or, on the last question, completes |
| Browser.Questionnaire.PreviousQuestion | counseling.js:246-261 | one question back, nothing on the first; answers untouched; the index stays within 0–20 |
| Browser.Questionnaire.StartNewSession | counseling.js:1069-1072 | back to question 0 with no answers |
| Browser.AnswerAll | counseling.js:227-244 | answering all 21 questions in turn completes on the last, and the page's scores are the backend's for that list |
| Browser.AppendedTurn | counseling.js:521-525 | an entry exactly for "user" or "bot": role "user" with the user placeholder, or role "assistant" with the bot placeholder, whatever the message |
| Browser.IntendedTurn | counseling.js:520-525 | an entry exactly for "user" or "bot", holding the message under role user or assistant |
| Browser.PlaceholderLosesMessage | counseling.js:521-522 | as written, a user message is recorded as the placeholder, not as what was typed |
| Browser.ChatLog.constructor | counseling.js:62 | the history starts empty |
| Browser.ChatLog.AddMessageToChat | counseling.js:494-526 | one placeholder entry appended for "user" or "bot", nothing for other senders |
| Browser.ChatLog.AddMessageToChatCorrected | counseling.js:494-526 | the message itself appended for "user" or "bot", nothing for other senders |

## Findings

| source | as written | input that shows it | evidently intended | confidence | as-written member | corrected member |
|---|---|---|---|---|---|---|
| counseling.js:521-525 | the history sent to the counselor records "Hello, How are you?" for every user message and a fixed reply for every bot message | any user message other than "Hello, How are you?", such as "I feel anxious" | record the message itself under role user or assistant | high; not executed | Browser.PlaceholderLosesMessage | Browser.ChatLog.AddMessageToChatCorrected |

## Left out

- The completion calls to the language-model service, and client set-up, are left out. `generate_groq_response` (backend/main.py:170-213) and the completion call (backend/ai_model.py:108-118) are network calls. Their result is a parameter: a reply string in `ChatApi.ChatWithCounselor`, and an optional string (none when the call raised) in `Counselor.ProcessMessage`.
- Web framework plumbing is left out: routes, static files, exception handlers and request logging. This includes the chat endpoint's path when no client was configured, which fails on an unset variable. It is request wiring, not logic.
- The HTTP 400 responses of the assessment endpoint are modelled as the `Rejected` outcome carrying the same count or positions. The message text is not modelled.
- The severe-case e-mail body, the session report, the Word document and SMTP transport are left out. They are formatting and network I/O. Only the choice of recipient is modelled.
- `SessionLog.SessionLogger.LogSessionStart` takes the session id as a parameter. The source derives the id from the clock. Timestamps, the end time, the duration in minutes and the JSON export (backend/utils.py:69-74) are left out because they are clock or formatting work.
- `Text.Lower` lower-cases ASCII letters only. Python's `str.lower` and JavaScript's case folding also map non-ASCII letters. All keywords, table keys and the "hr" preference are ASCII, but a non-ASCII capital in a message is left unchanged here.
- `Counselor.ProcessMessage` builds a shortened system prompt. The full instruction text and the per-subscale summary lines are not rendered; only the presence of the assessment note and the severe note is modelled.
- `Browser.Questionnaire.NextQuestion` takes the already parsed radio value. `parseInt` and the DOM query are not modelled, so a non-numeric value (NaN) is outside the model.
- `Browser.JsCalculateDassScores` reads an unanswered item as 0, as `answers[i] || 0` does. NaN answers are not modelled.
- `Browser.GreetingTier` models the choice of the opening text. The user's first name, read from local storage, and the assembled message are left out.
- The page's DOM rendering, notifications, timers, local storage, fetch calls, file downloads and the `completeAssessment` request are left out. They are UI and I/O. For functions defined twice in counseling.js, the later (effective) definition is modelled.
- `Payload.Entry` models an entry's score and level as present or missing. A value that is present but null, not a number or not a string, and an entry that is not a dictionary at all, are not modelled. On those shapes the source raises (the `max` and the comparisons in backend/utils.py:89-130, the `.get` chain in backend/ai_model.py:44), and those exceptions are not modelled either.
- `Dass.CheckSevereCase` takes typed results as the engine produces them. The end-of-session endpoint (backend/main.py:523) applies the same test to the client-sent dictionary, where an entry without a "level" key raises KeyError. That path and its exception are not modelled.
- `Recommender.GeneratePersonalizedRecommendations` takes the results dictionary only. The source's `user_preferences` argument is accepted but never read.
- The fixed recommendation lists of the `/api/recommendations/{type}` endpoint (backend/main.py:560-606) are left out. That endpoint is a static table lookup.
- The landing-page script (script.js), the server launcher (backend/run_server.py) and the configuration module (backend/config.py) are not part of this model. They are UI, process launching and environment parsing. The crisis keyword list in the configuration module is never read; the model uses the list the counselor actually tests.
