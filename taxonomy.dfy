/** The keyword taxonomy: category names, each with its list of lower-case
    keyword phrases, in the order of the `privacy_keywords` dictionary. */
module Taxonomy {
  import opened Text

  /** One dictionary entry: a category and its keyword phrases. */
  datatype Group = Group(name: string, keywords: seq<string>)

  /** The dictionary as its ordered list of entries. */
  type Taxonomy = seq<Group>

  /** Category names are unique, as the keys of a dictionary are. */
  predicate WellFormed(tax: Taxonomy)
  {
    forall i, j :: 0 <= i < j < |tax| ==> tax[i].name != tax[j].name
  }

  /** `c` is one of the taxonomy's categories. */
  predicate HasCategory(tax: Taxonomy, c: string)
  {
    exists i :: 0 <= i < |tax| && tax[i].name == c
  }

  /** The keyword list filed under `c`, or the empty list when `c` is not a
      category (dictionary lookup, where a later entry for a repeated key
      replaces an earlier one). */
  function KeywordsOf(tax: Taxonomy, c: string): (kws: seq<string>)
    ensures !HasCategory(tax, c) ==> kws == []
    ensures WellFormed(tax) ==>
      forall i :: 0 <= i < |tax| && tax[i].name == c ==> kws == tax[i].keywords
    decreases |tax|
  {
    if tax == [] then []
    else if tax[|tax| - 1].name == c then tax[|tax| - 1].keywords
    else
      var init := tax[..|tax| - 1];
      assert HasCategory(tax, c) ==> HasCategory(init, c) by {
        if HasCategory(tax, c) {
          var i :| 0 <= i < |tax| && tax[i].name == c;
          assert init[i].name == c;
        }
      }
      KeywordsOf(init, c)
  }

  /** A lower-case phrase: no character is an ASCII capital. */
  predicate IsLowerCase(s: string)
  {
    forall i :: 0 <= i < |s| ==> !('A' <= s[i] <= 'Z')
  }

  /** The default taxonomy, `privacy_keywords`. */
  const PrivacyKeywords: Taxonomy := [
    Group("Data Collection", ["collect", "gather", "record", "store", "log"]),
    Group("Tracking", ["track", "monitor", "cookie", "beacon"]),
    Group("Third-Party Sharing", ["third party", "affiliates", "partners", "vendors"]),
    Group("Location", ["location", "gps", "geolocation"]),
    Group("Advertising", ["ads", "advertising", "marketing", "promotion"]),
    Group("Data Sharing", ["share", "sell", "transfer", "disclose"]),
    Group("Personal Info", ["email", "name", "phone", "address", "birthdate"])
  ]

  /** The default taxonomy has seven distinct categories, each with three to
      five keyword phrases. */
  lemma PrivacyKeywordsShape()
    ensures |PrivacyKeywords| == 7
    ensures WellFormed(PrivacyKeywords)
    ensures forall i :: 0 <= i < 7 ==> 3 <= |PrivacyKeywords[i].keywords| <= 5
  {
  }

  /** Every default keyword phrase is lower-case, so it can match the
      lower-cased text the tokens come from: the text is lower-cased before
      matching, and a phrase holding a capital would never be recorded. */
  lemma PrivacyKeywordsLowerCase()
    ensures forall i, k :: 0 <= i < |PrivacyKeywords| && k in PrivacyKeywords[i].keywords ==> IsLowerCase(k)
  {
    forall i, k | 0 <= i < |PrivacyKeywords| && k in PrivacyKeywords[i].keywords
      ensures IsLowerCase(k)
    {
      var j :| 0 <= j < |PrivacyKeywords[i].keywords| && PrivacyKeywords[i].keywords[j] == k;
      KeywordLowerCase(i, j);
    }
  }

  lemma KeywordLowerCase(i: nat, j: nat)
    requires i < |PrivacyKeywords| && j < |PrivacyKeywords[i].keywords|
    ensures IsLowerCase(PrivacyKeywords[i].keywords[j])
  {
    var kws := PrivacyKeywords[i].keywords;
    if i == 0 {
      assert kws == ["collect", "gather", "record", "store", "log"];
    } else if i == 1 {
      assert kws == ["track", "monitor", "cookie", "beacon"];
    } else if i == 2 {
      assert kws == ["third party", "affiliates", "partners", "vendors"];
    } else if i == 3 {
      assert kws == ["location", "gps", "geolocation"];
    } else if i == 4 {
      assert kws == ["ads", "advertising", "marketing", "promotion"];
    } else if i == 5 {
      assert kws == ["share", "sell", "transfer", "disclose"];
    } else {
      assert kws == ["email", "name", "phone", "address", "birthdate"];
    }
  }
}
