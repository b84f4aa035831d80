/** The recommendation engine of the utilities module: up to two catalogue items
    for every subscale whose score reaches 14, then the first two general items,
    with repeated titles dropped and the list cut at six. */
module Recommender {

  import opened Payload

  datatype CatalogRec = CatalogRec(title: string, description: string, kind: string)

  const DepressionItems: seq<CatalogRec> := [
    CatalogRec("Cognitive Behavioral Therapy (CBT)",
      "CBT helps identify and change negative thought patterns that contribute to depression.", "therapy"),
    CatalogRec("Behavioral Activation",
      "Gradually increase pleasant and meaningful activities to improve mood.", "behavioral"),
    CatalogRec("Exercise Routine",
      "Regular physical activity can be as effective as medication for mild to moderate depression.", "lifestyle"),
    CatalogRec("Sleep Hygiene",
      "Establish consistent sleep patterns to support mood regulation.", "lifestyle")]
  const AnxietyItems: seq<CatalogRec> := [
    CatalogRec("Deep Breathing Exercises",
      "Practice diaphragmatic breathing to activate the body's relaxation response.", "technique"),
    CatalogRec("Progressive Muscle Relaxation",
      "Systematically tense and relax muscle groups to reduce physical anxiety.", "technique"),
    CatalogRec("Mindfulness Meditation",
      "Practice staying present to reduce worry about future events.", "mindfulness"),
    CatalogRec("Exposure Therapy",
      "Gradually face feared situations to reduce avoidance and build confidence.", "therapy")]
  const StressItems: seq<CatalogRec> := [
    CatalogRec("Time Management",
      "Learn to prioritize tasks and manage time more effectively.", "skill"),
    CatalogRec("Boundary Setting",
      "Practice saying no and setting healthy limits on commitments.", "skill"),
    CatalogRec("Stress Inoculation Training",
      "Build resilience by learning to cope with manageable levels of stress.", "training"),
    CatalogRec("Regular Breaks",
      "Schedule regular breaks throughout the day to prevent burnout.", "lifestyle")]
  const GeneralItems: seq<CatalogRec> := [
    CatalogRec("Social Support Network",
      "Build and maintain relationships with supportive friends and family.", "social"),
    CatalogRec("Professional Counseling",
      "Work with a licensed mental health professional for personalized treatment.", "professional"),
    CatalogRec("Journaling",
      "Write about thoughts and feelings to gain insight and process emotions.", "self-help"),
    CatalogRec("Healthy Lifestyle",
      "Maintain good nutrition, regular exercise, and adequate sleep.", "lifestyle")]

  /** The engine's fixed catalogue; an unknown domain has no items. */
  function Catalog(domain: string): seq<CatalogRec>
  {
    if domain == "depression" then DepressionItems
    else if domain == "anxiety" then AnxietyItems
    else if domain == "stress" then StressItems
    else if domain == "general" then GeneralItems
    else []
  }

  /** Python's `s[:n]`. */
  function Take<T>(s: seq<T>, n: nat): (r: seq<T>)
    ensures |r| == if |s| <= n then |s| else n
    ensures r <= s
  {
    if |s| <= n then s else s[..n]
  }

  /** A subscale entry qualifies when its score, 0 when missing, reaches 14. */
  predicate Elevated(result: Entry)
  {
    result.score.GetOr(0) >= 14
  }

  /** The domain part of the candidate list: for each entry of the results, in
      order, the first two catalogue items of a qualifying domain. */
  function DomainRecs(results: seq<(string, Entry)>): seq<CatalogRec>
  {
    if results == [] then []
    else
      var (domain, result) := results[|results| - 1];
      DomainRecs(results[..|results| - 1]) + (if Elevated(result) then Take(Catalog(domain), 2) else [])
  }

  /** Every candidate, before duplicates are dropped. */
  function Candidates(results: Dict): seq<CatalogRec>
  {
    DomainRecs(results) + Take(GeneralItems, 2)
  }

  ghost function TitleSet(s: seq<CatalogRec>): set<string>
  {
    set r | r in s :: r.title
  }

  /** The items of `s` whose title has not appeared earlier in `s`, in order. */
  function FirstWins(s: seq<CatalogRec>): seq<CatalogRec>
  {
    if s == [] then []
    else
      var kept, last := FirstWins(s[..|s| - 1]), s[|s| - 1];
      if exists r :: r in kept && r.title == last.title then kept else kept + [last]
  }

  /** No title occurs twice. */
  predicate DistinctTitles(s: seq<CatalogRec>)
  {
    forall i, j :: 0 <= i < j < |s| ==> s[i].title != s[j].title
  }

  /** The kept items have pairwise distinct titles. */
  lemma {:induction false} FirstWinsDistinct(s: seq<CatalogRec>)
    ensures DistinctTitles(FirstWins(s))
  {
    if s != [] {
      var kept, last := FirstWins(s[..|s| - 1]), s[|s| - 1];
      FirstWinsDistinct(s[..|s| - 1]);
      if !exists r :: r in kept && r.title == last.title {
        var f := kept + [last];
        forall i, j | 0 <= i < j < |f| ensures f[i].title != f[j].title {
          assert f[i] == kept[i];
          if j == |kept| {
            assert f[i] in kept && f[j] == last;
          } else {
            assert f[j] == kept[j];
          }
        }
        assert FirstWins(s) == f;
      }
    }
  }

  /** Only items of `s` are kept, and every title of `s` is kept once. */
  lemma {:induction false} FirstWinsCovers(s: seq<CatalogRec>)
    ensures forall r :: r in FirstWins(s) ==> r in s
    ensures TitleSet(FirstWins(s)) == TitleSet(s)
  {
    if s != [] {
      var init, last := s[..|s| - 1], s[|s| - 1];
      FirstWinsCovers(init);
      assert s == init + [last];
      assert TitleSet(s) == TitleSet(init) + {last.title};
      var kept := FirstWins(init);
      if exists r :: r in kept && r.title == last.title {
        assert last.title in TitleSet(kept);
      } else {
        assert TitleSet(kept + [last]) == TitleSet(kept) + {last.title};
      }
    }
  }

  /** Dropping repeats of a prefix gives a prefix of the whole result, which is
      why stopping at six items early does not change what the first six are. */
  lemma {:induction false} FirstWinsPrefix(s: seq<CatalogRec>, i: nat)
    requires i <= |s|
    ensures FirstWins(s[..i]) <= FirstWins(s)
  {
    if i < |s| {
      var init := s[..|s| - 1];
      assert s[..i] == init[..i];
      FirstWinsPrefix(init, i);
    } else {
      assert s[..i] == s;
    }
  }

  /** The candidate-building loops of `generate_personalized_recommendations`. */
  method CollectCandidates(results: Dict) returns (recommendations: seq<CatalogRec>)
    ensures recommendations == Candidates(results)
  {
    recommendations := [];
    for i := 0 to |results|
      invariant recommendations == DomainRecs(results[..i])
    {
      assert results[..i + 1][..i] == results[..i];
      var (domain, result) := results[i];
      if Elevated(result) {
        recommendations := recommendations + Take(Catalog(domain), 2);
      }
    }
    assert results[..|results|] == results;
    recommendations := recommendations + Take(GeneralItems, 2);
  }

  /** The de-duplication loop: a title seen before is skipped, and the loop stops
      as soon as six items are kept. */
  method DropRepeats(recommendations: seq<CatalogRec>) returns (unique: seq<CatalogRec>)
    ensures unique == Take(FirstWins(recommendations), 6)
  {
    var seen: set<string> := {};
    unique := [];
    var i := 0;
    while i < |recommendations|
      invariant 0 <= i <= |recommendations|
      invariant unique == FirstWins(recommendations[..i])
      invariant seen == TitleSet(unique)
      invariant |unique| < 6
    {
      assert recommendations[..i + 1][..i] == recommendations[..i];
      var rec := recommendations[i];
      if rec.title !in seen {
        assert !exists r :: r in unique && r.title == rec.title;
        unique := unique + [rec];
        seen := seen + {rec.title};
        if |unique| >= 6 {
          FirstWinsPrefix(recommendations, i + 1);
          return;
        }
      } else {
        assert exists r :: r in unique && r.title == rec.title;
      }
      i := i + 1;
    }
    assert recommendations[..i] == recommendations;
  }

  /** `generate_personalized_recommendations` (the user preferences it accepts are
      unused and are not a parameter here). */
  method GeneratePersonalizedRecommendations(results: Dict) returns (unique: seq<CatalogRec>)
    ensures unique == Take(FirstWins(Candidates(results)), 6)
  {
    var recommendations := CollectCandidates(results);
    unique := DropRepeats(recommendations);
  }

  /** The result holds at most six candidates, each title once. */
  lemma PersonalizedShape(results: Dict)
    ensures var r := Take(FirstWins(Candidates(results)), 6);
      |r| <= 6 && DistinctTitles(r) &&
      (forall x :: x in r ==> x in Candidates(results))
  {
    FirstWinsDistinct(Candidates(results));
    FirstWinsCovers(Candidates(results));
  }

  /** With no qualifying entry, only the first two general items remain. */
  lemma {:induction false} NoDomainQualifies(results: seq<(string, Entry)>)
    requires forall k :: 0 <= k < |results| ==> !Elevated(results[k].1)
    ensures DomainRecs(results) == []
  {
    if results != [] {
      NoDomainQualifies(results[..|results| - 1]);
    }
  }

  /** One more item is kept exactly when its title is new. */
  lemma FirstWinsSnoc(s: seq<CatalogRec>, x: CatalogRec)
    ensures FirstWins(s + [x]) ==
      if exists r :: r in FirstWins(s) && r.title == x.title then FirstWins(s) else FirstWins(s) + [x]
  {
    assert (s + [x])[..|s|] == s;
  }

  /** The two general items the list always ends with have different titles. */
  lemma GeneralHeadDistinct()
    ensures GeneralItems[0].title != GeneralItems[1].title
  {
    assert GeneralItems[0].title[0] != GeneralItems[1].title[0];
  }

  /** Scenario: results with no score of 14 or more get the two general items. */
  lemma OnlyGeneralWhenNothingElevated(results: Dict)
    requires forall k :: 0 <= k < |results| ==> !Elevated(results[k].1)
    ensures Take(FirstWins(Candidates(results)), 6) == GeneralItems[..2]
  {
    var g := GeneralItems[..2];
    assert Candidates(results) == g by {
      NoDomainQualifies(results);
    }
    assert DistinctTitles(g) by {
      GeneralHeadDistinct();
    }
    FirstWinsOfDistinct(g);
  }

  /** Scenario: an entry keyed "general" that reaches 14 repeats the two general
      items; the repeats are dropped. */
  lemma GeneralEntryRepeats(results: Dict, e: Entry)
    requires results == [("general", e)] && Elevated(e)
    ensures Take(FirstWins(Candidates(results)), 6) == GeneralItems[..2]
  {
    GeneralHeadDistinct();
    var g := GeneralItems[..2];
    assert DomainRecs(results[..0]) == [];
    assert Catalog("general") == GeneralItems;
    assert Candidates(results) == g + g;
    var x, y := g[0], g[1];
    assert g == [x, y] && Candidates(results) == [x, y, x, y];
    RepeatedPair(x, y);
  }

  /** A repeated pair of differently titled items keeps one copy of each. */
  lemma RepeatedPair(x: CatalogRec, y: CatalogRec)
    requires x.title != y.title
    ensures FirstWins([x, y, x, y]) == [x, y]
  {
    FirstWinsSnoc([], x);
    assert [] + [x] == [x];
    FirstWinsSnoc([x], y);
    assert [x] + [y] == [x, y];
    FirstWinsSnoc([x, y], x);
    assert [x, y] + [x] == [x, y, x];
    assert x in FirstWins([x, y]);
    FirstWinsSnoc([x, y, x], y);
    assert [x, y, x] + [y] == [x, y, x, y];
    assert y in FirstWins([x, y, x]);
  }

  /** Items whose titles are already distinct pass through unchanged. */
  lemma {:induction false} FirstWinsOfDistinct(s: seq<CatalogRec>)
    requires DistinctTitles(s)
    ensures FirstWins(s) == s
  {
    if s != [] {
      var init, last := s[..|s| - 1], s[|s| - 1];
      assert DistinctTitles(init);
      FirstWinsOfDistinct(init);
      forall r | r in init ensures r.title != last.title {
        var k :| 0 <= k < |init| && init[k] == r;
        assert s[k] == r;
      }
      assert s == init + [last];
    }
  }

  /** The candidates when depression, anxiety and stress all reach 14. */
  lemma ThreeDomainsCandidates(results: Dict, d: Entry, a: Entry, st: Entry)
    requires results == [("depression", d), ("anxiety", a), ("stress", st)]
    requires Elevated(d) && Elevated(a) && Elevated(st)
    ensures Candidates(results) == DepressionItems[..2] + AnxietyItems[..2] + StressItems[..2] + GeneralItems[..2]
  {
    assert Catalog("depression") == DepressionItems;
    assert Catalog("anxiety") == AnxietyItems;
    assert Catalog("stress") == StressItems;
    assert results[..2][..1] == results[..1] && results[..1][..0] == [];
    assert results[..3][..2] == results[..2];
    assert results[..3] == results;
    assert DomainRecs(results[..1]) == DepressionItems[..2];
    assert DomainRecs(results[..2]) == DepressionItems[..2] + AnxietyItems[..2];
  }

  /** The six subscale items and the general pair have distinct titles (the
      titles even differ in length). */
  lemma SixAndGeneralDistinct()
    ensures DistinctTitles(DepressionItems[..2] + AnxietyItems[..2] + StressItems[..2] + GeneralItems[..2])
  {
    var c := DepressionItems[..2] + AnxietyItems[..2] + StressItems[..2] + GeneralItems[..2];
    assert forall i :: 0 <= i < |c| ==> |c[i].title| == [34, 21, 24, 29, 15, 16, 22, 23][i];
  }

  /** No general item is among the six subscale items. */
  lemma GeneralNotAmongSix()
    ensures forall g :: g in GeneralItems ==> g !in DepressionItems[..2] + AnxietyItems[..2] + StressItems[..2]
  {
    var six := DepressionItems[..2] + AnxietyItems[..2] + StressItems[..2];
    forall g | g in GeneralItems ensures g !in six {
      assert |g.title| in {22, 23, 10, 17};
      forall i | 0 <= i < |six| ensures six[i] != g {
        assert |six[i].title| == [34, 21, 24, 29, 15, 16][i];
      }
    }
  }

  /** Scenario: when depression, anxiety and stress all reach 14, their six items
      fill the list and no general item is left. */
  lemma ThreeDomainsCrowdOutGeneral(results: Dict, d: Entry, a: Entry, st: Entry)
    requires results == [("depression", d), ("anxiety", a), ("stress", st)]
    requires Elevated(d) && Elevated(a) && Elevated(st)
    ensures Take(FirstWins(Candidates(results)), 6) == DepressionItems[..2] + AnxietyItems[..2] + StressItems[..2]
    ensures forall g :: g in GeneralItems ==> g !in Take(FirstWins(Candidates(results)), 6)
  {
    ThreeDomainsCandidates(results, d, a, st);
    var six := DepressionItems[..2] + AnxietyItems[..2] + StressItems[..2];
    var c := six + GeneralItems[..2];
    assert DistinctTitles(c) by {
      SixAndGeneralDistinct();
    }
    FirstWinsOfDistinct(c);
    assert Take(c, 6) == six;
    GeneralNotAmongSix();
  }
}
