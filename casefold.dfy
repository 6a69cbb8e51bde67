/** ASCII case folding and the substring test behind the catalog search
    `input_text.str.contains(query, case=False)`. */
module CaseFold {

  /** Lower-cases an ASCII capital letter; every other character is kept. */
  function Lower(c: char): char
  {
    if 'A' <= c <= 'Z' then (c as int + 32) as char else c
  }

  /** Lower-cases every character of `s`. */
  function LowerStr(s: string): (r: string)
    ensures |r| == |s|
    ensures forall i :: 0 <= i < |s| ==> r[i] == Lower(s[i])
  {
    if s == [] then [] else [Lower(s[0])] + LowerStr(s[1..])
  }

  /** `a` and `b` are the same text once case is ignored. */
  predicate SameIgnoringCase(a: string, b: string)
  {
    |a| == |b| && forall i :: 0 <= i < |a| ==> Lower(a[i]) == Lower(b[i])
  }

  lemma SameIgnoringCaseIffLowerEqual(a: string, b: string)
    ensures SameIgnoringCase(a, b) <==> LowerStr(a) == LowerStr(b)
  {

  }

  /** Lower-casing a slice is slicing the lower-cased text. */
  lemma LowerStrSlice(s: string, i: nat, j: nat)
    requires i <= j <= |s|
    ensures LowerStr(s[i..j]) == LowerStr(s)[i..j]
  {

  }

  /** Case-sensitive substring test: some suffix of `text` starts with `pat`. */
  predicate Contains(text: string, pat: string)
    decreases |text|
  {
    pat <= text || (text != [] && Contains(text[1..], pat))
  }

  /** `pat` occurs in `text` starting at position `i`. */
  ghost predicate OccursAt(text: string, pat: string, i: int)
  {
    0 <= i && i + |pat| <= |text| && text[i..i + |pat|] == pat
  }

  /** The recursive test agrees with the positional definition of a substring. */
  lemma {:induction false} ContainsIffOccurs(text: string, pat: string)
    ensures Contains(text, pat) <==> exists i :: OccursAt(text, pat, i)
    decreases |text|
  {
    if pat <= text {
      assert OccursAt(text, pat, 0);
    } else if text == [] {
      assert |pat| > 0;
    } else {
      ContainsIffOccurs(text[1..], pat);
      if Contains(text[1..], pat) {
        var j :| OccursAt(text[1..], pat, j);
        assert text[1..][j..j + |pat|] == text[j + 1..j + 1 + |pat|];
        assert OccursAt(text, pat, j + 1);
      }
      if i :| OccursAt(text, pat, i) {
        assert i != 0;
        assert text[1..][i - 1..i - 1 + |pat|] == text[i..i + |pat|];
        assert OccursAt(text[1..], pat, i - 1);
      }
    }
  }

  /** `query` occurs in `passage` at position `i`, ignoring case. */
  ghost predicate OccursIgnoringCaseAt(passage: string, query: string, i: int)
  {
    0 <= i && i + |query| <= |passage| && SameIgnoringCase(passage[i..i + |query|], query)
  }

  /** The relevance test: `passage` contains `query`, ignoring ASCII case. */
  predicate Matches(passage: string, query: string)
  {
    Contains(LowerStr(passage), LowerStr(query))
  }

  /** Matching means some window of the passage equals the query up to case. */
  lemma MatchesIffOccursIgnoringCase(passage: string, query: string)
    ensures Matches(passage, query) <==> exists i :: OccursIgnoringCaseAt(passage, query, i)
  {
    var lp, lq := LowerStr(passage), LowerStr(query);
    ContainsIffOccurs(lp, lq);
    forall i | 0 <= i && i + |query| <= |passage|
      ensures OccursAt(lp, lq, i) <==> OccursIgnoringCaseAt(passage, query, i)
    {
      LowerStrSlice(passage, i, i + |query|);
      SameIgnoringCaseIffLowerEqual(passage[i..i + |query|], query);
    }
  }

  /** Changing the case of letters in the passage or in the query never
      changes whether they match. */
  lemma MatchesIgnoresCase(p1: string, p2: string, q1: string, q2: string)
    requires SameIgnoringCase(p1, p2) && SameIgnoringCase(q1, q2)
    ensures Matches(p1, q1) == Matches(p2, q2)
  {
    SameIgnoringCaseIffLowerEqual(p1, p2);
    SameIgnoringCaseIffLowerEqual(q1, q2);
  }

  /** The empty query is found in every passage. */
  lemma EmptyQueryMatches(passage: string)
    ensures Matches(passage, "")
  {

  }
}
