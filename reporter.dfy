/** The reporter: `generate_summary` renders one line per key of the
    results, and `plot_results` draws one bar per key whose length is the
    number of distinct keywords matched in that category. */
module Reporter {
  import opened Text
  import opened Taxonomy
  import opened Matcher

  /** `line` is a summary line for `category`: the category, a colon and a
      space, then every distinct keyword of `words` exactly once, separated
      by ", ". The keyword order is that of a Python set, so any order is
      admitted. */
  ghost predicate IsSummaryLine(line: string, category: string, words: seq<string>)
  {
    exists ws :: Distinct(ws) && Elements(ws) == Elements(words) && line == category + ": " + Join(ws, ", ")
  }

  /** `lines` holds one summary line per key of `results`, in key order. */
  ghost predicate LinesOf(lines: seq<string>, results: MatchSet)
    requires Valid(results)
  {
    && |lines| == |results.order|
    && forall i :: 0 <= i < |lines| ==> IsSummaryLine(lines[i], results.order[i], results.lists[results.order[i]])
  }

  /** The f-string of one summary line; first-occurrence order stands in
      for the set's iteration order. */
  function SummaryLine(category: string, words: seq<string>): (line: string)
    ensures IsSummaryLine(line, category, words)
    ensures |line| >= 2
  {
    category + ": " + Join(Dedup(words), ", ")
  }

  /** `generate_summary`: one line per key, in key order, joined by newlines
      with no separator after the last line; empty exactly when there are
      no keys. */
  method GenerateSummary(results: MatchSet) returns (summary: string)
    requires Valid(results)
    ensures exists lines :: LinesOf(lines, results) && summary == Join(lines, "\n")
    ensures summary == "" <==> results.order == []
  {
    var lines: seq<string> := [];
    for i := 0 to |results.order|
      invariant |lines| == i
      invariant forall k :: 0 <= k < i ==> lines[k] != ""
      invariant forall k :: 0 <= k < i ==> IsSummaryLine(lines[k], results.order[k], results.lists[results.order[k]])
    {
      var category := results.order[i];
      lines := lines + [SummaryLine(category, results.lists[category])];
    }
    summary := Join(lines, "\n");
    assert LinesOf(lines, results);
  }

  /** The chart data of `plot_results`: one (category, number of distinct
      keywords) pair per key, in key order; each count is the length of any
      duplicate-free listing of that category's keywords, at least one and
      at most the length of that category's list. */
  function ChartData(results: MatchSet): (bars: seq<(string, nat)>)
    requires Valid(results)
    ensures |bars| == |results.order|
    ensures forall i :: 0 <= i < |bars| ==>
      bars[i].0 == results.order[i] && 1 <= bars[i].1 <= |results.lists[results.order[i]]|
    ensures forall i, ws :: 0 <= i < |bars| && Distinct(ws) && Elements(ws) == Elements(results.lists[results.order[i]]) ==>
      bars[i].1 == |ws|
  {
    seq(|results.order|, i requires 0 <= i < |results.order| =>
      (results.order[i], DistinctCount(results.lists[results.order[i]])))
  }

  /** A category's bar is as long as the number of keywords on its summary
      line. */
  lemma ChartAgreesWithSummary(results: MatchSet, i: nat, line: string)
    requires Valid(results) && i < |results.order|
    requires IsSummaryLine(line, results.order[i], results.lists[results.order[i]])
    ensures exists ws :: line == results.order[i] + ": " + Join(ws, ", ") && |ws| == ChartData(results)[i].1
  {
    var words := results.lists[results.order[i]];
    var ws :| Distinct(ws) && Elements(ws) == Elements(words) && line == results.order[i] + ": " + Join(ws, ", ");
    assert |ws| == DistinctCount(words);
  }

  /** On the results of a scan, each bar is at most the number of keywords
      the taxonomy lists for that category. */
  lemma ChartWithinTaxonomy(tokens: seq<string>, tax: Taxonomy)
    requires WellFormed(tax)
    ensures forall i :: 0 <= i < |Analyze(tokens, tax).order| ==>
      ChartData(Analyze(tokens, tax))[i].1 <= |KeywordsOf(tax, Analyze(tokens, tax).order[i])|
  {
    var r := Analyze(tokens, tax);
    AnalyzeSound(tokens, tax);
    forall i | 0 <= i < |r.order|
      ensures ChartData(r)[i].1 <= |KeywordsOf(tax, r.order[i])|
    {
      var c := r.order[i];
      SubsetCount(r.lists[c], KeywordsOf(tax, c));
    }
  }
}
