# Privacy analyzer keyword engine

A Dafny model of the keyword categorisation and risk-scoring engine of the
App Privacy Analyzer (`privacy_analyzer.py`). The analyzer reads a Terms &
Conditions text. It matches every token of the text against a taxonomy of
privacy keywords and collects the matches per category. Then it renders a
summary, a three-level risk label and the data for a bar chart.

The model has five modules, plus `Scenarios`:

- `Text`: the string helpers the engine relies on.
  - Python's substring test `keyword in token.text` (`IsSubstring`, with
    occurrence at an index as its meaning).
  - `", ".join` / `"\n".join` (`Join`).
  - Duplicate removal (`Dedup`) and the distinct count (`DistinctCount`),
    standing in for `set(...)` and `len(set(...))`.
- `Taxonomy`: the `privacy_keywords` dictionary as an ordered sequence of
  (category, keyword list) groups, with dictionary lookup (`KeywordsOf`).
- `Matcher`: `analyze_terms`.
  - The `defaultdict(list)` is a `MatchSet`: the key insertion order plus a
    map from key to list.
  - `results[category].append(keyword)` is `Record`.
  - The method `AnalyzeTerms` keeps the three nested loops over tokens,
    categories and keywords. It is proved equal to the functional
    specification `Analyze`. `Analyze` replays the stream of
    (category, keyword) hits in loop order.
- `Scorer`: `calculate_risk`, the number of keys mapped to Low, Moderate
  or High Risk with its indicator symbol.
- `Reporter`:
  - `generate_summary` as a method with the source's loop.
  - The (category, distinct count) chart data of `plot_results`.

`Scenarios` holds worked instances:
- the substring policy ("tracking" matches "track", "attackers" does not);
- the empty document;
- a sentence with five matched categories.

The token sequence is an input to the model. It stands for the token texts
spaCy produces from the lower-cased document.

The sentence "We track your location and share data with third party
advertising partners." contains the phrase "third party", yet the code
matches Third-Party Sharing only through "partners": "third party" contains
a space, so it is a substring of no single token.
`Scenarios.SentenceMissesThirdParty` proves that the phrase is not
recorded, and `Scenarios.SentenceIsHighRisk` that the sentence is scored
High Risk.

## Model

| member | source | states |
|---|---|---|
| Taxonomy.PrivacyKeywords | privacy_analyzer.py:12-20 | the default taxonomy: the seven categories and their keyword phrases, in dictionary order |
| Taxonomy.KeywordsOf | privacy_analyzer.py:12-20 | dictionary lookup: the keyword list filed under a category of a taxonomy with distinct names, and the empty list for a name that is not a category |
| Taxonomy.PrivacyKeywordsShape | privacy_analyzer.py:12-20 | the default taxonomy has seven categories with distinct names, each with three to five keyword phrases |
| Taxonomy.PrivacyKeywordsLowerCase | privacy_analyzer.py:12-20 | every default keyword phrase is lower-case, so it can match the lower-cased text |
| Text.IsSubstring | privacy_analyzer.py:30 | `keyword in token.text` holds exactly when the keyword occurs at some index of the token |
| Scenarios.SubstringPolicy | privacy_analyzer.py:30 | "tracking" contains "track" and "storecookies" contains "store"; "attackers" does not contain "track"; "third party" is in neither "third" nor "party" |
| Matcher.Empty | privacy_analyzer.py:24 | a fresh `defaultdict(list)`: no keys |
| Matcher.Record | privacy_analyzer.py:24-31 | appending to a defaultdict keeps its keys distinct and every list non-empty; the category's list becomes its earlier keywords (none for a new key) followed by the keyword; a new category is added after all existing keys, an existing one leaves the key order unchanged; every other key and list is unchanged |
| Matcher.Replay | privacy_analyzer.py:24-31 | appending a stream of hits in order always leaves a well-formed accumulator |
| Matcher.ReplayContents | privacy_analyzer.py:24-31 | after a stream of hits, a category is a key exactly when some hit names it; its list is that category's keywords in stream order; keys appear in first-hit order |
| Matcher.ReplayKeysGrow | privacy_analyzer.py:24-31 | further hits never remove or reorder keys; they only add keys at the end |
| Matcher.Analyze | privacy_analyzer.py:23-33 | the accumulator after appending every (category, keyword) hit in token, category, keyword order; always well-formed |
| Matcher.AnalyzeTerms | privacy_analyzer.py:23-33 | the triple loop over tokens, categories and keywords yields exactly the accumulator of the specification `Analyze` |
| Matcher.AnalyzeContents | privacy_analyzer.py:27-31 | a category is a key exactly when some token contains one of its keywords; its list is, token by token, each of its keywords that the token contains, in keyword order |
| Matcher.AnalyzeSound | privacy_analyzer.py:27-31 | every key is a taxonomy category; every recorded keyword is in that category's list and is a substring of some token |
| Matcher.MatchRecorded | privacy_analyzer.py:27-31 | whenever the keyword at position k of category j is a substring of token i, the category is a key and that keyword is in its list |
| Matcher.KeywordRecorded | privacy_analyzer.py:27-31 | the same by name: a keyword of category c contained in some token is recorded under c |
| Matcher.MatchingMultiplicity | privacy_analyzer.py:29-31 | one token contributes each keyword as many times as it is listed if the token contains it, and zero times otherwise |
| Matcher.MatchedMultiplicity | privacy_analyzer.py:27-31 | a keyword is recorded once per (containing token, listed position) pair: its listed multiplicity times the number of tokens that contain it |
| Matcher.MatchedKeywordsMembers | privacy_analyzer.py:27-31 | a keyword is recorded exactly when it is listed and some token contains it |
| Matcher.TokensContaining | privacy_analyzer.py:27-30 | the number of tokens containing a keyword is at most the number of tokens, and is positive exactly when some token contains it |
| Matcher.NoMatchesNoResults | privacy_analyzer.py:24-33 | when no keyword is a substring of any token, the results are empty |
| Matcher.AnalyzeKeysGrow | privacy_analyzer.py:27-31 | scanning more tokens keeps the earlier keys as a prefix of the key order |
| Scorer.Score | privacy_analyzer.py:44 | `len(results)`: the number of keys of the results |
| Scorer.KeyCount | privacy_analyzer.py:44 | `len(results)` is the number of keys in insertion order |
| Scorer.ScoreOfRecord | privacy_analyzer.py:31-44 | a match in a category already present leaves the score unchanged; the first match in a new category raises it by one |
| Scorer.RiskLevel | privacy_analyzer.py:45-50 | the label is Low Risk exactly for scores up to 2, Moderate Risk exactly for 3 and 4, High Risk exactly from 5; each comes with its indicator, green, yellow or red circle |
| Scorer.CalculateRisk | privacy_analyzer.py:43-50 | the same three-way threshold, with its indicator, applied to the number of keys of the results |
| Scorer.RiskBoundaries | privacy_analyzer.py:45-50 | 2 is Low Risk, 3 and 4 are Moderate Risk, 5 is High Risk |
| Scorer.MatchedCategories | privacy_analyzer.py:27-31 | the taxonomy categories with at least one matching token number at most the taxonomy's categories |
| Scorer.MatchedCategoriesMembers | privacy_analyzer.py:27-31 | the matched categories are distinct, and a name is among them exactly when some token contains one of its keywords |
| Scorer.ScoreCountsMatchedCategories | privacy_analyzer.py:27-44 | the score equals the number of matched taxonomy categories, so it never exceeds the number of categories |
| Scorer.DefaultScoreAtMostSeven | privacy_analyzer.py:12-44 | with the default taxonomy the score is at most seven |
| Scorer.MoreTextNeverLowersRisk | privacy_analyzer.py:27-50 | scanning more tokens never lowers the score; a Moderate or High label stays at least Moderate, and a High label stays High |
| Text.Join | privacy_analyzer.py:39-40 | joining non-empty parts gives the empty string exactly when there are no parts |
| Text.JoinLength | privacy_analyzer.py:39-40 | a join of at least one part is as long as all parts together plus one separator between each pair of neighbours |
| Text.Dedup | privacy_analyzer.py:39 | `set(words)` as a sequence: duplicate-free, with the same elements, and no longer than the input |
| Text.DistinctCount | privacy_analyzer.py:55 | `len(set(words))`: the length of every duplicate-free listing of the words; at least one for a non-empty list and at most its length |
| Reporter.SummaryLine | privacy_analyzer.py:39 | the line is the category, ": ", then every distinct keyword exactly once separated by ", " |
| Reporter.GenerateSummary | privacy_analyzer.py:36-40 | one summary line per key, in key order, joined by newlines with no trailing separator; the summary is empty exactly when there are no keys |
| Reporter.ChartData | privacy_analyzer.py:54-55 | one (category, count) bar per key, in key order; each count is the number of distinct keywords of that category, between one and the length of its list |
| Reporter.ChartAgreesWithSummary | privacy_analyzer.py:39-55 | a category's bar length is the number of keywords on its summary line |
| Reporter.ChartWithinTaxonomy | privacy_analyzer.py:54-55 | on the results of a scan, each bar is at most the number of keywords the taxonomy lists for that category |
| Scenarios.EmptyInput | privacy_analyzer.py:24-55 | an empty token sequence gives no keys, score 0, Low Risk and no bars |
| Scenarios.TokenRecorded | privacy_analyzer.py:27-31 | a token equal to a default keyword records that keyword under its category |
| Scenarios.SentenceCategories | privacy_analyzer.py:12-31 | tokens including "track", "location", "share", "advertising" and "partners" match Tracking, Location, Data Sharing, Advertising and Third-Party Sharing |
| Scenarios.FiveKeysHighRisk | privacy_analyzer.py:43-50 | results holding those five categories are High Risk |
| Scenarios.SentenceHighRisk | privacy_analyzer.py:23-50 | such tokens are scored High Risk with the default taxonomy |
| Scenarios.SentenceIsHighRisk | privacy_analyzer.py:23-50 | the example sentence is scored High Risk with the default taxonomy |
| Scenarios.SentenceContainsFiveWords | privacy_analyzer.py:25 | the example sentence's tokens include the five words above |
| Scenarios.SentenceMissesThirdParty | privacy_analyzer.py:15-30 | in the example sentence Third-Party Sharing is matched, but "third party" is not recorded, because it spans two tokens |
| Scenarios.ThirdPartyInNoToken | privacy_analyzer.py:15-30 | no single token of the example sentence contains "third party" |

## Left out

- Tokenisation (`nlp(text.lower())`, privacy_analyzer.py:9,25): spaCy and its Unicode lower-casing are a foreign NLP library. The model takes the token texts as an input sequence of strings.
- The Streamlit page, the file upload and its UTF-8 decoding (privacy_analyzer.py:64-85): these are I/O and presentation.
- The matplotlib figure and `st.pyplot` (privacy_analyzer.py:57-61): only the bar labels and counts of lines 54-55 are modelled.
- Reporter.SummaryLine: `set(words)` iterates in an order fixed by string hashing. The model lists keywords in first-occurrence order, and the contract (`IsSummaryLine`) promises only some duplicate-free ordering of the matched keywords.
- Reporter.GenerateSummary: its contract admits any keyword order on each line, for the same reason.
- Taxonomy.WellFormed: a Python dict cannot hold a key twice. The lemmas over an arbitrary taxonomy assume distinct category names, which the default taxonomy is proved to have.
- The risk symbols are modelled only as the three emoji values returned; how they are displayed is not modelled.
