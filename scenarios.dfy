/** Concrete scenarios of the analyzer: the substring matching policy, an
    empty document, and a sentence scored against the default taxonomy. */
module Scenarios {
  import opened Text
  import opened Taxonomy
  import opened Matcher
  import opened Scorer
  import opened Reporter

  /** Matching is plain substring containment: "tracking" matches "track"
      and "storecookies" matches "store", "attackers" does not match
      "track", and the phrase "third party" never matches a token holding
      only one of its words. */
  lemma SubstringPolicy()
    ensures IsSubstring("track", "tracking")
    ensures IsSubstring("store", "storecookies")
    ensures !IsSubstring("track", "attackers")
    ensures !IsSubstring("third party", "third") && !IsSubstring("third party", "party")
  {
    AttackersMissesTrack();
  }

  lemma AttackersMissesTrack()
    ensures !IsSubstring("track", "attackers")
  {
    var t := "attackers";
    forall i ensures !OccursAt("track", t, i) {
      if 0 <= i <= |t| - 5 {
        assert t[i..i + 5][1] == t[i + 1];
        assert t[i..i + 5][2] == t[i + 2];
      }
    }
  }

  /** An empty token sequence gives no keys, score 0, "Low Risk" and no
      bars. */
  lemma EmptyInput(tax: Taxonomy)
    ensures Analyze([], tax) == Empty
    ensures Score(Analyze([], tax)) == 0
    ensures CalculateRisk(Analyze([], tax)).0 == "Low Risk"
    ensures ChartData(Analyze([], tax)) == []
  {
  }

  /** The word tokens of "We track your location and share data with third
      party advertising partners." */
  const Sentence: seq<string> := [
    "we", "track", "your", "location", "and", "share", "data", "with",
    "third", "party", "advertising", "partners", "."]

  /** Tokens that include "track", "location", "share", "advertising" and
      "partners", as the sentence does, match Tracking, Location, Data
      Sharing, Advertising and Third-Party Sharing. */
  lemma SentenceCategories(tokens: seq<string>)
    requires "track" in tokens && "location" in tokens && "share" in tokens
    requires "advertising" in tokens && "partners" in tokens
    ensures "Tracking" in Analyze(tokens, PrivacyKeywords).lists
    ensures "Location" in Analyze(tokens, PrivacyKeywords).lists
    ensures "Data Sharing" in Analyze(tokens, PrivacyKeywords).lists
    ensures "Advertising" in Analyze(tokens, PrivacyKeywords).lists
    ensures "Third-Party Sharing" in Analyze(tokens, PrivacyKeywords).lists
    ensures "partners" in Analyze(tokens, PrivacyKeywords).lists["Third-Party Sharing"]
  {
    PrivacyKeywordsShape();
    TokenRecorded(tokens, "track", 1, 0);
    TokenRecorded(tokens, "location", 3, 0);
    TokenRecorded(tokens, "share", 5, 0);
    TokenRecorded(tokens, "advertising", 4, 1);
    TokenRecorded(tokens, "partners", 2, 2);
  }

  /** A token equal to a default keyword records that keyword. */
  lemma TokenRecorded(tokens: seq<string>, w: string, j: nat, k: nat)
    requires w in tokens && j < |PrivacyKeywords| && k < |PrivacyKeywords[j].keywords|
    requires PrivacyKeywords[j].keywords[k] == w
    ensures PrivacyKeywords[j].name in Analyze(tokens, PrivacyKeywords).lists
    ensures w in Analyze(tokens, PrivacyKeywords).lists[PrivacyKeywords[j].name]
  {
    PrivacyKeywordsShape();
    var i :| 0 <= i < |tokens| && tokens[i] == w;
    assert OccursAt(w, tokens[i], 0);
    MatchRecorded(tokens, PrivacyKeywords, i, j, k);
  }

  /** Five matched categories make such tokens High Risk; the sentence is
      one of them. */
  lemma SentenceHighRisk(tokens: seq<string>)
    requires "track" in tokens && "location" in tokens && "share" in tokens
    requires "advertising" in tokens && "partners" in tokens
    ensures CalculateRisk(Analyze(tokens, PrivacyKeywords)).0 == "High Risk"
  {
    SentenceCategories(tokens);
    FiveKeysHighRisk(Analyze(tokens, PrivacyKeywords));
  }

  /** Results holding these five categories score at least five. */
  lemma FiveKeysHighRisk(r: MatchSet)
    requires "Tracking" in r.lists && "Location" in r.lists && "Data Sharing" in r.lists
    requires "Advertising" in r.lists && "Third-Party Sharing" in r.lists
    ensures CalculateRisk(r).0 == "High Risk"
  {
    var five := {"Tracking", "Location", "Data Sharing", "Advertising", "Third-Party Sharing"};
    assert |five| == 5;
    SubsetCard(five, r.lists.Keys);
  }

  lemma SentenceContainsFiveWords()
    ensures "track" in Sentence && "location" in Sentence && "share" in Sentence
    ensures "advertising" in Sentence && "partners" in Sentence
  {
  }

  /** The sentence itself is scored High Risk with the default taxonomy. */
  lemma SentenceIsHighRisk()
    ensures CalculateRisk(Analyze(Sentence, PrivacyKeywords)).0 == "High Risk"
  {
    SentenceContainsFiveWords();
    SentenceHighRisk(Sentence);
  }

  /** The phrase "third party" spans two tokens of the sentence, so it is
      not recorded: Third-Party Sharing is matched only through "partners". */
  lemma SentenceMissesThirdParty(tokens: seq<string>)
    requires |tokens| == |Sentence| && forall i :: 0 <= i < |tokens| ==> tokens[i] == Sentence[i]
    ensures "Third-Party Sharing" in Analyze(tokens, PrivacyKeywords).lists
    ensures "third party" !in Analyze(tokens, PrivacyKeywords).lists["Third-Party Sharing"]
  {
    assert tokens[11] == "partners";
    TokenRecorded(tokens, "partners", 2, 2);
    PrivacyKeywordsShape();
    AnalyzeSound(tokens, PrivacyKeywords);
    forall i | 0 <= i < |tokens| ensures !IsSubstring("third party", tokens[i]) {
      ThirdPartyInNoToken(tokens[i]);
    }
  }

  /** No single token of the sentence contains the phrase "third party". */
  lemma ThirdPartyInNoToken(t: string)
    requires t in Sentence
    ensures !IsSubstring("third party", t)
  {
    forall j ensures !OccursAt("third party", t, j) {
      if 0 <= j && j + 11 <= |t| {
        assert t == "advertising" && j == 0;
        assert t[j..j + 11][0] == 'a';
      }
    }
  }
}
