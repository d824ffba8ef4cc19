/** The scorer, `calculate_risk`: the score is the number of keys in the
    results, that is the number of categories with at least one match, and
    it is mapped to one of three risk labels with its indicator symbol. */
module Scorer {
  import opened Text
  import opened Taxonomy
  import opened Matcher

  /** `len(results)`: the number of keys. */
  function Score(results: MatchSet): nat
  {
    |results.lists|
  }

  /** The number of keys is the length of the key order. */
  lemma KeyCount(m: MatchSet)
    requires Valid(m)
    ensures Score(m) == |m.order|
  {
    assert m.lists.Keys == Elements(m.order);
    DistinctElements(m.order);
  }

  /** Score counts categories, not hits: a further append to an existing key
      leaves the score unchanged, and the first append to a new category
      raises it by exactly one. */
  lemma ScoreOfRecord(m: MatchSet, h: Hit)
    requires Valid(m)
    ensures Score(Record(m, h)) == if h.category in m.lists then Score(m) else Score(m) + 1
  {
    KeyCount(m);
    KeyCount(Record(m, h));
  }

  /** The three-way threshold on a score, with the label and symbol shown. */
  function RiskLevel(score: nat): (risk: (string, string))
    ensures risk.0 == "Low Risk" <==> score <= 2
    ensures risk.0 == "Moderate Risk" <==> 3 <= score <= 4
    ensures risk.0 == "High Risk" <==> 5 <= score
    ensures score <= 2 ==> risk == ("Low Risk", "\U{1F7E2}")
    ensures 3 <= score <= 4 ==> risk == ("Moderate Risk", "\U{1F7E1}")
    ensures 5 <= score ==> risk == ("High Risk", "\U{1F534}")
  {
    if score <= 2 then ("Low Risk", "\U{1F7E2}")
    else if score <= 4 then ("Moderate Risk", "\U{1F7E1}")
    else ("High Risk", "\U{1F534}")
  }

  /** `calculate_risk`: the label and symbol for the number of keys. */
  function CalculateRisk(results: MatchSet): (risk: (string, string))
    ensures risk.0 == "Low Risk" <==> Score(results) <= 2
    ensures risk.0 == "Moderate Risk" <==> 3 <= Score(results) <= 4
    ensures risk.0 == "High Risk" <==> 5 <= Score(results)
    ensures risk == RiskLevel(Score(results))
  {
    RiskLevel(Score(results))
  }

  /** The boundaries land as documented: 2 is Low, 3 and 4 Moderate, 5 High. */
  lemma RiskBoundaries()
    ensures RiskLevel(2).0 == "Low Risk"
    ensures RiskLevel(3).0 == "Moderate Risk" && RiskLevel(4).0 == "Moderate Risk"
    ensures RiskLevel(5).0 == "High Risk"
  {
  }

  /** The names of the taxonomy's categories that some token matches, in
      taxonomy order. */
  function MatchedCategories(tokens: seq<string>, tax: Taxonomy): (cs: seq<string>)
    ensures |cs| <= |tax|
    decreases |tax|
  {
    if tax == [] then []
    else
      var g := tax[|tax| - 1];
      MatchedCategories(tokens, tax[..|tax| - 1]) + (if MatchedKeywords(tokens, g.keywords) != [] then [g.name] else [])
  }

  lemma {:induction false} NoKeywordsNoMatches(tokens: seq<string>)
    ensures MatchedKeywords(tokens, []) == []
    decreases |tokens|
  {
    if tokens != [] {
      NoKeywordsNoMatches(tokens[..|tokens| - 1]);
    }
  }

  lemma {:induction false} MatchedCategoriesMembers(tokens: seq<string>, tax: Taxonomy)
    requires WellFormed(tax)
    ensures Distinct(MatchedCategories(tokens, tax))
    ensures forall c :: c in MatchedCategories(tokens, tax) <==> MatchedKeywords(tokens, KeywordsOf(tax, c)) != []
    decreases |tax|
  {
    NoKeywordsNoMatches(tokens);
    if tax != [] {
      var init, g := tax[..|tax| - 1], tax[|tax| - 1];
      MatchedCategoriesMembers(tokens, init);
      assert !HasCategory(init, g.name);
      assert KeywordsOf(init, g.name) == [];
      assert g.name !in MatchedCategories(tokens, init);
    }
  }

  /** The score of the results is the number of taxonomy categories with at
      least one matching token, so it never exceeds the number of
      categories. */
  lemma ScoreCountsMatchedCategories(tokens: seq<string>, tax: Taxonomy)
    requires WellFormed(tax)
    ensures Score(Analyze(tokens, tax)) == |MatchedCategories(tokens, tax)| <= |tax|
  {
    var r := Analyze(tokens, tax);
    var cs := MatchedCategories(tokens, tax);
    AnalyzeContents(tokens, tax);
    MatchedCategoriesMembers(tokens, tax);
    KeyCount(r);
    assert Elements(r.order) == Elements(cs);
    DistinctElements(r.order);
    DistinctElements(cs);
  }

  /** With the default taxonomy the score is at most seven. */
  lemma DefaultScoreAtMostSeven(tokens: seq<string>)
    ensures Score(Analyze(tokens, PrivacyKeywords)) <= 7
  {
    PrivacyKeywordsShape();
    ScoreCountsMatchedCategories(tokens, PrivacyKeywords);
  }

  /** Reading more text never lowers the score or the risk level. */
  lemma MoreTextNeverLowersRisk(tokens: seq<string>, more: seq<string>, tax: Taxonomy)
    ensures Score(Analyze(tokens, tax)) <= Score(Analyze(tokens + more, tax))
    ensures CalculateRisk(Analyze(tokens, tax)).0 != "Low Risk" ==>
      CalculateRisk(Analyze(tokens + more, tax)).0 != "Low Risk"
    ensures CalculateRisk(Analyze(tokens, tax)).0 == "High Risk" ==>
      CalculateRisk(Analyze(tokens + more, tax)).0 == "High Risk"
  {
    AnalyzeKeysGrow(tokens, more, tax);
    KeyCount(Analyze(tokens, tax));
    KeyCount(Analyze(tokens + more, tax));
  }
}
