/** Sequence and string helpers standing in for the Python built-ins the
    analyzer relies on: the `in` operator between two strings, `str.join`,
    and `set(...)` taken of a list. */
module Text {

  /** No element of `s` appears twice. */
  predicate Distinct<T(==)>(s: seq<T>)
  {
    forall i, j :: 0 <= i < j < |s| ==> s[i] != s[j]
  }

  /** The set of elements of `s`, Python's `set(s)`. */
  function Elements<T>(s: seq<T>): set<T>
  {
    set x | x in s
  }

  /** `pat` occurs in `text` starting at index `i`. */
  ghost predicate OccursAt(pat: string, text: string, i: int)
  {
    0 <= i && i + |pat| <= |text| && text[i..i + |pat|] == pat
  }

  /** Python's `pat in text` on two strings: plain substring containment,
      true for the empty pattern. */
  function IsSubstring(pat: string, text: string): (r: bool)
    ensures r <==> exists i :: OccursAt(pat, text, i)
    decreases |text|
  {
    if |pat| > |text| then
      false
    else if text[..|pat|] == pat then
      assert OccursAt(pat, text, 0);
      true
    else
      ShiftOccurrence(pat, text);
      IsSubstring(pat, text[1..])
  }

  /** When `pat` is not a prefix of `text`, it occurs in `text` exactly when
      it occurs in `text` without its first character. */
  lemma ShiftOccurrence(pat: string, text: string)
    requires |pat| <= |text| && text[..|pat|] != pat
    ensures |text| > 0
    ensures (exists i :: OccursAt(pat, text, i)) <==> (exists j :: OccursAt(pat, text[1..], j))
  {
    if i :| OccursAt(pat, text, i) {
      assert i != 0;
      assert text[1..][i - 1..i - 1 + |pat|] == text[i..i + |pat|];
      assert OccursAt(pat, text[1..], i - 1);
    }
    if j :| OccursAt(pat, text[1..], j) {
      assert text[1..][j..j + |pat|] == text[j + 1..j + 1 + |pat|];
      assert OccursAt(pat, text, j + 1);
    }
  }

  /** The elements of `s` in first-occurrence order, each once: one
      admissible iteration order of Python's `set(s)`. */
  function Dedup<T(==)>(s: seq<T>): (r: seq<T>)
    ensures Distinct(r)
    ensures Elements(r) == Elements(s)
    ensures |r| <= |s|
    decreases |s|
  {
    if s == [] then
      []
    else
      var init, last := s[..|s| - 1], s[|s| - 1];
      assert s == init + [last];
      var r := Dedup(init);
      if last in init then
        r
      else
        assert last !in Elements(r);
        assert Elements(r + [last]) == Elements(r) + {last};
        r + [last]
  }

  /** A duplicate-free sequence has as many elements as its set. */
  lemma {:induction false} DistinctElements<T>(s: seq<T>)
    requires Distinct(s)
    ensures |Elements(s)| == |s|
    decreases |s|
  {
    if s != [] {
      var init, last := s[..|s| - 1], s[|s| - 1];
      assert s == init + [last];
      assert Elements(s) == Elements(init) + {last};
      assert last !in Elements(init);
      DistinctElements(init);
    }
  }

  /** Python's `len(set(s))`: at least one for a non-empty list, never more
      than its length, and equal to the number of entries of any
      duplicate-free listing of its elements. */
  function DistinctCount(s: seq<string>): (n: nat)
    ensures s != [] ==> 1 <= n
    ensures n <= |s|
    ensures forall ws :: Distinct(ws) && Elements(ws) == Elements(s) ==> |ws| == n
  {
    DistinctElements(Dedup(s));
    forall ws | Distinct(ws) && Elements(ws) == Elements(s)
      ensures |ws| == |Elements(s)|
    {
      DistinctElements(ws);
    }
    assert s != [] ==> s[0] in Elements(s);
    |Elements(s)|
  }

  /** A set of sequence elements contained in another sequence's elements
      has no more members than that sequence has entries. */
  lemma SubsetCount(a: seq<string>, b: seq<string>)
    requires Elements(a) <= Elements(b)
    ensures |Elements(a)| <= |b|
  {
    SubsetCard(Elements(a), Elements(b));
    assert DistinctCount(b) == |Elements(b)|;
  }

  /** A subset has no more members than its superset. */
  lemma SubsetCard<T>(a: set<T>, b: set<T>)
    requires a <= b
    ensures |a| <= |b|
  {
    assert b == a + (b - a);
  }

  /** Python's `sep.join(parts)`: the parts with `sep` between neighbours
      and at neither end. */
  function Join(parts: seq<string>, sep: string): (r: string)
    ensures (forall i :: 0 <= i < |parts| ==> parts[i] != "") ==> (r == "" <==> parts == [])
    decreases |parts|
  {
    if |parts| == 0 then ""
    else if |parts| == 1 then parts[0]
    else Join(parts[..|parts| - 1], sep) + sep + parts[|parts| - 1]
  }

  /** The total length of the parts. */
  function TotalLength(parts: seq<string>): nat
    decreases |parts|
  {
    if parts == [] then 0 else TotalLength(parts[..|parts| - 1]) + |parts[|parts| - 1]|
  }

  /** A join holds every part once and exactly one separator between each
      pair of neighbours: its length is the parts' total length plus one
      separator fewer than there are parts. */
  lemma {:induction false} JoinLength(parts: seq<string>, sep: string)
    requires parts != []
    ensures |Join(parts, sep)| == TotalLength(parts) + (|parts| - 1) * |sep|
    decreases |parts|
  {
    if |parts| == 1 {
      assert parts[..0] == [];
    } else {
      var init := parts[..|parts| - 1];
      JoinLength(init, sep);
      MulStep(|init| - 1, |sep|);
    }
  }

  /** Kept apart so that the nonlinear step is proved in an empty context. */
  lemma MulStep(n: nat, m: nat)
    ensures n * m + m == (n + 1) * m
  {
  }
}
