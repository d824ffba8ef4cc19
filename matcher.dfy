/** The matcher, `analyze_terms`: every token is tested against every
    (category, keyword) pair of the taxonomy, and each keyword that is a
    substring of the token is appended to its category's list in a
    `defaultdict(list)`. Tokens are the already lower-cased token texts. */
module Matcher {
  import opened Text
  import opened Taxonomy

  /** One append the matcher performs: `keyword` recorded under `category`. */
  datatype Hit = Hit(category: string, keyword: string)

  /** The `defaultdict(list)` of results: `order` holds the keys in insertion
      order and `lists` maps each key to its list of recorded keywords. */
  datatype MatchSet = MatchSet(order: seq<string>, lists: map<string, seq<string>>)

  /** A fresh `defaultdict(list)`. */
  const Empty := MatchSet([], map[])

  /** The keys are listed once each, `order` and `lists` agree on them, and
      a key exists only because something was appended to it. */
  ghost predicate Valid(m: MatchSet)
  {
    && Distinct(m.order)
    && (forall c :: c in m.lists <==> c in m.order)
    && (forall c :: c in m.lists ==> m.lists[c] != [])
  }

  /** `results[category].append(keyword)`: a missing key is first inserted,
      after all existing keys, with an empty list. */
  function Record(m: MatchSet, h: Hit): (r: MatchSet)
    requires Valid(m)
    ensures Valid(r)
    ensures h.category in r.lists && r.lists[h.category] == (if h.category in m.lists then m.lists[h.category] else []) + [h.keyword]
    ensures r.order == if h.category in m.lists then m.order else m.order + [h.category]
    ensures forall c :: c != h.category ==> (c in r.lists <==> c in m.lists)
    ensures forall c :: c != h.category && c in m.lists ==> r.lists[c] == m.lists[c]
  {
    if h.category in m.lists then
      MatchSet(m.order, m.lists[h.category := m.lists[h.category] + [h.keyword]])
    else
      MatchSet(m.order + [h.category], m.lists[h.category := [h.keyword]])
  }

  /** The results after performing the appends `hits` in order on a fresh
      `defaultdict(list)`. */
  function Replay(hits: seq<Hit>): (r: MatchSet)
    ensures Valid(r)
    decreases |hits|
  {
    if hits == [] then Empty else Record(Replay(hits[..|hits| - 1]), hits[|hits| - 1])
  }

  /** The keywords among `hits` recorded under category `c`, in order. */
  function Project(hits: seq<Hit>, c: string): seq<string>
    decreases |hits|
  {
    if hits == [] then []
    else
      var h := hits[|hits| - 1];
      Project(hits[..|hits| - 1], c) + (if h.category == c then [h.keyword] else [])
  }

  /** The categories of `hits`, in order. The ensures expose the
      comprehension to the inductions over `hits` without unfolding it. */
  function Categories(hits: seq<Hit>): (cs: seq<string>)
    ensures |cs| == |hits|
    ensures forall i :: 0 <= i < |hits| ==> cs[i] == hits[i].category
  {
    seq(|hits|, i requires 0 <= i < |hits| => hits[i].category)
  }

  /** Projection distributes over concatenation. */
  lemma {:induction false} ProjectAppend(a: seq<Hit>, b: seq<Hit>, c: string)
    ensures Project(a + b, c) == Project(a, c) + Project(b, c)
    decreases |b|
  {
    if b == [] {
      assert a + b == a;
    } else {
      var init := b[..|b| - 1];
      assert (a + b)[..|a + b| - 1] == a + init;
      ProjectAppend(a, init, c);
    }
  }

  /** The defaultdict after `hits` holds, under every category, exactly the
      keywords appended to it, in order of appending; a category is a key
      exactly when something was appended to it; and the keys stand in the
      order of each category's first append. */
  lemma ReplayContents(hits: seq<Hit>)
    ensures forall c :: c in Replay(hits).lists <==> Project(hits, c) != []
    ensures forall c :: c in Replay(hits).lists ==> Replay(hits).lists[c] == Project(hits, c)
    ensures Replay(hits).order == Dedup(Categories(hits))
  {
    ReplayLists(hits);
    ReplayOrder(hits);
  }

  lemma {:induction false} ReplayLists(hits: seq<Hit>)
    ensures forall c :: c in Replay(hits).lists <==> Project(hits, c) != []
    ensures forall c :: c in Replay(hits).lists ==> Replay(hits).lists[c] == Project(hits, c)
    decreases |hits|
  {
    if hits != [] {
      var init, h := hits[..|hits| - 1], hits[|hits| - 1];
      ReplayLists(init);
      var m, r := Replay(init), Replay(hits);
      assert r == Record(m, h);
      forall c
        ensures (c in r.lists <==> Project(hits, c) != [])
        ensures c in r.lists ==> r.lists[c] == Project(hits, c)
      {
        assert Project(hits, c) == Project(init, c) + (if h.category == c then [h.keyword] else []);
      }
    }
  }

  lemma {:induction false} ReplayOrder(hits: seq<Hit>)
    ensures Replay(hits).order == Dedup(Categories(hits))
    decreases |hits|
  {
    if hits != [] {
      var init, h := hits[..|hits| - 1], hits[|hits| - 1];
      ReplayOrder(init);
      var m := Replay(init);
      var cs := Categories(hits);
      assert cs[..|cs| - 1] == Categories(init);
      assert cs[|cs| - 1] == h.category;
      assert h.category in m.lists <==> h.category in Elements(m.order);
    }
  }

  /** Appending more hits only appends keys: the earlier key order is a
      prefix of the later one. */
  lemma {:induction false} ReplayKeysGrow(a: seq<Hit>, b: seq<Hit>)
    ensures Replay(a).order <= Replay(a + b).order
    decreases |b|
  {
    if b == [] {
      assert a + b == a;
    } else {
      var init := b[..|b| - 1];
      assert (a + b)[..|a + b| - 1] == a + init;
      ReplayKeysGrow(a, init);
    }
  }

  // ---------------------------------------------------------------------
  // The appends `analyze_terms` performs, and what they amount to.

  /** The keywords of `kws` that occur in `token`, in list order: the inner
      loop over one category's keywords. */
  function Matching(token: string, kws: seq<string>): seq<string>
    decreases |kws|
  {
    if kws == [] then []
    else
      var k := kws[|kws| - 1];
      Matching(token, kws[..|kws| - 1]) + (if IsSubstring(k, token) then [k] else [])
  }

  /** The keywords of `kws` matched by the tokens, token by token: what
      one category's list receives over the whole scan. */
  function MatchedKeywords(tokens: seq<string>, kws: seq<string>): seq<string>
    decreases |tokens|
  {
    if tokens == [] then []
    else MatchedKeywords(tokens[..|tokens| - 1], kws) + Matching(tokens[|tokens| - 1], kws)
  }

  /** How many tokens contain `w`. */
  function TokensContaining(tokens: seq<string>, w: string): (n: nat)
    ensures n <= |tokens|
    ensures n > 0 <==> exists i :: 0 <= i < |tokens| && IsSubstring(w, tokens[i])
    decreases |tokens|
  {
    if tokens == [] then 0
    else
      var init := tokens[..|tokens| - 1];
      var n := TokensContaining(init, w);
      assert forall i :: 0 <= i < |init| ==> init[i] == tokens[i];
      n + (if IsSubstring(w, tokens[|tokens| - 1]) then 1 else 0)
  }

  /** A product of naturals is positive exactly when both factors are; kept
      apart from its one use for the same reason as `MulSucc`. */
  lemma MulPositive(m: nat, n: nat)
    ensures m * n > 0 <==> m > 0 && n > 0
  {
  }

  /** Each keyword position of `kws` whose keyword occurs in `token`
      contributes exactly one copy, and no other keyword is recorded. */
  lemma {:induction false} MatchingMultiplicity(token: string, kws: seq<string>, w: string)
    ensures multiset(Matching(token, kws))[w] == if IsSubstring(w, token) then multiset(kws)[w] else 0
    decreases |kws|
  {
    if kws != [] {
      var init := kws[..|kws| - 1];
      assert kws == init + [kws[|kws| - 1]];
      MatchingMultiplicity(token, init, w);
    }
  }

  /** Over all tokens, keyword `w` is recorded once per pair of a token
      containing it and a position of `w` in the category's list. */
  lemma {:induction false} MatchedMultiplicity(tokens: seq<string>, kws: seq<string>, w: string)
    ensures multiset(MatchedKeywords(tokens, kws))[w] == multiset(kws)[w] * TokensContaining(tokens, w)
    decreases |tokens|
  {
    if tokens != [] {
      var init, last := tokens[..|tokens| - 1], tokens[|tokens| - 1];
      var a, b := MatchedKeywords(init, kws), Matching(last, kws);
      MatchedMultiplicity(init, kws, w);
      MatchingMultiplicity(last, kws, w);
      assert multiset(a + b)[w] == multiset(a)[w] + multiset(b)[w];
      var m, n := multiset(kws)[w], TokensContaining(init, w);
      assert TokensContaining(tokens, w) == n + (if IsSubstring(w, last) then 1 else 0);
      MulSucc(m, n);
    }
  }

  /** Kept apart so that the nonlinear step is proved in an empty context;
      stated inline, it drowns the solver in the induction's facts. */
  lemma MulSucc(m: nat, n: nat)
    ensures m * (n + 1) == m * n + m
  {
  }

  /** A keyword is recorded exactly when it is in the list and some token
      contains it. */
  lemma MatchedKeywordsMembers(tokens: seq<string>, kws: seq<string>, w: string)
    ensures w in MatchedKeywords(tokens, kws) <==>
      w in kws && exists i :: 0 <= i < |tokens| && IsSubstring(w, tokens[i])
  {
    MatchedMultiplicity(tokens, kws, w);
    MulPositive(multiset(kws)[w], TokensContaining(tokens, w));
    assert w in kws <==> multiset(kws)[w] > 0;
    assert w in MatchedKeywords(tokens, kws) <==> multiset(MatchedKeywords(tokens, kws))[w] > 0;
  }


  /** The appends for one token and one category (lines 29-31). */
  function KeywordHits(token: string, category: string, kws: seq<string>): seq<Hit>
    decreases |kws|
  {
    if kws == [] then []
    else
      var k := kws[|kws| - 1];
      KeywordHits(token, category, kws[..|kws| - 1]) + (if IsSubstring(k, token) then [Hit(category, k)] else [])
  }

  /** The appends for one token, category by category (lines 28-31). */
  function TokenHits(token: string, tax: Taxonomy): seq<Hit>
    decreases |tax|
  {
    if tax == [] then []
    else
      var g := tax[|tax| - 1];
      TokenHits(token, tax[..|tax| - 1]) + KeywordHits(token, g.name, g.keywords)
  }

  /** All appends of the scan, token by token (lines 27-31). */
  function AllHits(tokens: seq<string>, tax: Taxonomy): seq<Hit>
    decreases |tokens|
  {
    if tokens == [] then []
    else AllHits(tokens[..|tokens| - 1], tax) + TokenHits(tokens[|tokens| - 1], tax)
  }

  /** The results `analyze_terms` returns for `tokens`. */
  function Analyze(tokens: seq<string>, tax: Taxonomy): (r: MatchSet)
    ensures Valid(r)
  {
    Replay(AllHits(tokens, tax))
  }

  lemma {:induction false} ProjectKeywordHits(token: string, category: string, kws: seq<string>, c: string)
    ensures Project(KeywordHits(token, category, kws), c) == if c == category then Matching(token, kws) else []
    decreases |kws|
  {
    if kws != [] {
      var init := kws[..|kws| - 1];
      ProjectKeywordHits(token, category, init, c);
      var h := KeywordHits(token, category, init);
      var k := kws[|kws| - 1];
      ProjectAppend(h, if IsSubstring(k, token) then [Hit(category, k)] else [], c);
      assert Project([Hit(category, k)], c) == if c == category then [k] else [] by {
        assert [Hit(category, k)][..0] == [];
      }
    }
  }

  lemma {:induction false} ProjectTokenHits(token: string, tax: Taxonomy, c: string)
    requires WellFormed(tax)
    ensures Project(TokenHits(token, tax), c) == Matching(token, KeywordsOf(tax, c))
    decreases |tax|
  {
    if tax == [] {
      assert KeywordsOf(tax, c) == [];
    } else {
      var init, g := tax[..|tax| - 1], tax[|tax| - 1];
      assert WellFormed(init) by {
        assert forall i :: 0 <= i < |init| ==> init[i] == tax[i];
      }
      ProjectTokenHits(token, init, c);
      ProjectAppend(TokenHits(token, init), KeywordHits(token, g.name, g.keywords), c);
      ProjectKeywordHits(token, g.name, g.keywords, c);
      if g.name == c {
        assert !HasCategory(init, c);
        assert KeywordsOf(init, c) == [];
        assert Matching(token, []) == [];
      } else {
        assert KeywordsOf(tax, c) == KeywordsOf(init, c);
      }
    }
  }

  lemma {:induction false} ProjectAllHits(tokens: seq<string>, tax: Taxonomy, c: string)
    requires WellFormed(tax)
    ensures Project(AllHits(tokens, tax), c) == MatchedKeywords(tokens, KeywordsOf(tax, c))
    decreases |tokens|
  {
    if tokens != [] {
      var init := tokens[..|tokens| - 1];
      ProjectAllHits(init, tax, c);
      ProjectAppend(AllHits(init, tax), TokenHits(tokens[|tokens| - 1], tax), c);
      ProjectTokenHits(tokens[|tokens| - 1], tax, c);
    }
  }

  /** Completeness and multiplicity: under a well-formed taxonomy the results
      hold, for each category `c`, the keywords of `c` matched token by
      token, one copy per matching (token, keyword position) pair; `c` is a
      key exactly when that list is non-empty. */
  lemma AnalyzeContents(tokens: seq<string>, tax: Taxonomy)
    requires WellFormed(tax)
    ensures forall c :: c in Analyze(tokens, tax).lists <==> MatchedKeywords(tokens, KeywordsOf(tax, c)) != []
    ensures forall c :: c in Analyze(tokens, tax).lists ==>
      Analyze(tokens, tax).lists[c] == MatchedKeywords(tokens, KeywordsOf(tax, c))
  {
    ReplayContents(AllHits(tokens, tax));
    forall c {
      ProjectAllHits(tokens, tax, c);
    }
  }

  /** Soundness: every key is a category of the taxonomy, and every keyword
      recorded under it is one of its keywords and occurs in some token. */
  lemma AnalyzeSound(tokens: seq<string>, tax: Taxonomy)
    requires WellFormed(tax)
    ensures forall c :: c in Analyze(tokens, tax).lists ==> HasCategory(tax, c)
    ensures forall c, w :: c in Analyze(tokens, tax).lists && w in Analyze(tokens, tax).lists[c] ==>
      w in KeywordsOf(tax, c) && exists i :: 0 <= i < |tokens| && IsSubstring(w, tokens[i])
  {
    AnalyzeContents(tokens, tax);
    forall c, w | c in Analyze(tokens, tax).lists && w in Analyze(tokens, tax).lists[c]
      ensures w in KeywordsOf(tax, c) && exists i :: 0 <= i < |tokens| && IsSubstring(w, tokens[i])
    {
      MatchedKeywordsMembers(tokens, KeywordsOf(tax, c), w);
    }
    forall c | c in Analyze(tokens, tax).lists
      ensures HasCategory(tax, c)
    {
      var w := Analyze(tokens, tax).lists[c][0];
      MatchedKeywordsMembers(tokens, KeywordsOf(tax, c), w);
    }
  }

  /** Every matching (token, keyword) pair is recorded: the keyword's
      category becomes a key and the keyword is on its list. */
  lemma MatchRecorded(tokens: seq<string>, tax: Taxonomy, i: nat, j: nat, k: nat)
    requires WellFormed(tax)
    requires i < |tokens| && j < |tax| && k < |tax[j].keywords|
    requires IsSubstring(tax[j].keywords[k], tokens[i])
    ensures tax[j].name in Analyze(tokens, tax).lists
    ensures tax[j].keywords[k] in Analyze(tokens, tax).lists[tax[j].name]
  {
    var c, w := tax[j].name, tax[j].keywords[k];
    AnalyzeContents(tokens, tax);
    assert KeywordsOf(tax, c) == tax[j].keywords;
    MatchedKeywordsMembers(tokens, tax[j].keywords, w);
  }

  /** The same, by category name and keyword. */
  lemma KeywordRecorded(tokens: seq<string>, tax: Taxonomy, i: nat, c: string, w: string)
    requires WellFormed(tax)
    requires i < |tokens| && w in KeywordsOf(tax, c) && IsSubstring(w, tokens[i])
    ensures c in Analyze(tokens, tax).lists && w in Analyze(tokens, tax).lists[c]
  {
    AnalyzeContents(tokens, tax);
    MatchedKeywordsMembers(tokens, KeywordsOf(tax, c), w);
  }

  /** No token containing any keyword means no results at all. */
  lemma NoMatchesNoResults(tokens: seq<string>, tax: Taxonomy)
    requires forall i, j, k :: 0 <= i < |tokens| && 0 <= j < |tax| && 0 <= k < |tax[j].keywords| ==>
      !IsSubstring(tax[j].keywords[k], tokens[i])
    ensures Analyze(tokens, tax) == Empty
  {
    NoHits(tokens, tax);
  }

  lemma {:induction false} NoHits(tokens: seq<string>, tax: Taxonomy)
    requires forall i, j, k :: 0 <= i < |tokens| && 0 <= j < |tax| && 0 <= k < |tax[j].keywords| ==>
      !IsSubstring(tax[j].keywords[k], tokens[i])
    ensures AllHits(tokens, tax) == []
    decreases |tokens|
  {
    if tokens != [] {
      NoHits(tokens[..|tokens| - 1], tax);
      NoTokenHits(tokens[|tokens| - 1], tax);
    }
  }

  lemma {:induction false} NoTokenHits(token: string, tax: Taxonomy)
    requires forall j, k :: 0 <= j < |tax| && 0 <= k < |tax[j].keywords| ==> !IsSubstring(tax[j].keywords[k], token)
    ensures TokenHits(token, tax) == []
    decreases |tax|
  {
    if tax != [] {
      NoTokenHits(token, tax[..|tax| - 1]);
      NoKeywordHits(token, tax[|tax| - 1].name, tax[|tax| - 1].keywords);
    }
  }

  lemma {:induction false} NoKeywordHits(token: string, category: string, kws: seq<string>)
    requires forall k :: 0 <= k < |kws| ==> !IsSubstring(kws[k], token)
    ensures KeywordHits(token, category, kws) == []
    decreases |kws|
  {
    if kws != [] {
      NoKeywordHits(token, category, kws[..|kws| - 1]);
    }
  }

  /** Reading more tokens never removes or reorders keys: the keys for a
      prefix of the input are a prefix of the keys for the whole input. */
  lemma {:induction false} AnalyzeKeysGrow(tokens: seq<string>, more: seq<string>, tax: Taxonomy)
    ensures Analyze(tokens, tax).order <= Analyze(tokens + more, tax).order
    decreases |more|
  {
    AllHitsAppend(tokens, more, tax);
    ReplayKeysGrow(AllHits(tokens, tax), AllHits(more, tax));
  }

  lemma {:induction false} AllHitsAppend(tokens: seq<string>, more: seq<string>, tax: Taxonomy)
    ensures AllHits(tokens + more, tax) == AllHits(tokens, tax) + AllHits(more, tax)
    decreases |more|
  {
    if more == [] {
      assert tokens + more == tokens;
    } else {
      var init, last := more[..|more| - 1], more[|more| - 1];
      var all := tokens + more;
      assert all[..|all| - 1] == tokens + init && all[|all| - 1] == last;
      assert AllHits(all, tax) == AllHits(tokens + init, tax) + TokenHits(last, tax);
      AllHitsAppend(tokens, init, tax);
      assert AllHits(more, tax) == AllHits(init, tax) + TokenHits(last, tax);
    }
  }

  // One step of each specification, in the shape the loops of
  // `AnalyzeTerms` take it: the stream up to index k + 1 is the stream up to
  // k followed by the hits of element k.

  /** One more hit is one more `Record`. */
  lemma ReplayStep(hits: seq<Hit>, h: Hit)
    ensures Replay(hits + [h]) == Record(Replay(hits), h)
  {
    assert (hits + [h])[..|hits|] == hits;
  }

  /** One more keyword of a category. */
  lemma KeywordHitsStep(token: string, category: string, kws: seq<string>, k: nat)
    requires k < |kws|
    ensures KeywordHits(token, category, kws[..k + 1]) ==
      KeywordHits(token, category, kws[..k]) + (if IsSubstring(kws[k], token) then [Hit(category, kws[k])] else [])
  {
    assert kws[..k + 1][..k] == kws[..k];
  }

  /** One more category of the taxonomy. */
  lemma TokenHitsStep(token: string, tax: Taxonomy, j: nat)
    requires j < |tax|
    ensures TokenHits(token, tax[..j + 1]) == TokenHits(token, tax[..j]) + KeywordHits(token, tax[j].name, tax[j].keywords)
  {
    assert tax[..j + 1][..j] == tax[..j];
  }

  /** One more token. */
  lemma AllHitsStep(tokens: seq<string>, tax: Taxonomy, i: nat)
    requires i < |tokens|
    ensures AllHits(tokens[..i + 1], tax) == AllHits(tokens[..i], tax) + TokenHits(tokens[i], tax)
  {
    assert tokens[..i + 1][..i] == tokens[..i];
  }

  /** Associativity of concatenation on hit streams, as a lemma: inside the
      loops of `AnalyzeTerms` the same fact stated as an assertion costs the
      solver far more than the call does. */
  lemma Assoc(a: seq<Hit>, b: seq<Hit>, c: seq<Hit>)
    ensures a + b + c == a + (b + c)
  {
  }

  /** `analyze_terms`: the triple loop over tokens, categories and keywords,
      appending each keyword that is a substring of the token to its
      category's list. */
  method AnalyzeTerms(tokens: seq<string>, tax: Taxonomy) returns (results: MatchSet)
    ensures results == Analyze(tokens, tax)
  {
    results := Empty;
    assert tokens[..0] == [];
    for i := 0 to |tokens|
      invariant results == Replay(AllHits(tokens[..i], tax))
    {
      var token := tokens[i];
      ghost var before := AllHits(tokens[..i], tax);
      assert tax[..0] == [] && before + [] == before;
      for j := 0 to |tax|
        invariant results == Replay(before + TokenHits(token, tax[..j]))
      {
        var category, keywords := tax[j].name, tax[j].keywords;
        ghost var done := before + TokenHits(token, tax[..j]);
        assert keywords[..0] == [] && done + [] == done;
        for k := 0 to |keywords|
          invariant results == Replay(done + KeywordHits(token, category, keywords[..k]))
        {
          var keyword := keywords[k];
          ghost var hits := KeywordHits(token, category, keywords[..k]);
          KeywordHitsStep(token, category, keywords, k);
          if IsSubstring(keyword, token) {
            ReplayStep(done + hits, Hit(category, keyword));
            Assoc(done, hits, [Hit(category, keyword)]);
            results := Record(results, Hit(category, keyword));
          } else {
            assert hits + [] == hits;
          }
        }
        assert keywords[..|keywords|] == keywords;
        TokenHitsStep(token, tax, j);
        Assoc(before, TokenHits(token, tax[..j]), KeywordHits(token, category, keywords));
      }
      assert tax[..|tax|] == tax;
      AllHitsStep(tokens, tax, i);
    }
    assert tokens[..|tokens|] == tokens;
  }
}
