/** The relevance matcher and `get_answer`: filter the corpus by a
    case-insensitive substring test, answer with a fixed sentence when nothing
    matches, otherwise hand the first match to the answer extractor. */
module Matcher {
  import opened Wrappers
  import opened CaseFold

  /** The answer given when no passage contains the query. */
  const NoInfo: string := "No relevant information found."

  /** The extractive question-answering model, seen from outside: given a
      question and a context it returns an answer or raises. */
  type Extractor = (string, string) -> Result<string>

  /** The boolean-mask selection: every passage that contains the query,
      ignoring case, kept in corpus order. */
  function RelevantPassages(query: string, corpus: seq<string>): (r: seq<string>)
    ensures |r| <= |corpus|
    ensures forall p :: p in r ==> p in corpus && Matches(p, query)
    ensures forall i :: 0 <= i < |corpus| && Matches(corpus[i], query) ==> corpus[i] in r
  {
    if corpus == [] then []
    else if Matches(corpus[0], query) then [corpus[0]] + RelevantPassages(query, corpus[1..])
    else RelevantPassages(query, corpus[1..])
  }

  /** The filter keeps corpus order: filtering a concatenation is the
      concatenation of the filtered parts, and a single passage is kept exactly
      when it matches. Together these determine the filter on every corpus. */
  lemma {:induction false} RelevantPassagesKeepsOrder(query: string, a: seq<string>, b: seq<string>)
    ensures RelevantPassages(query, a + b) == RelevantPassages(query, a) + RelevantPassages(query, b)
    ensures forall p :: RelevantPassages(query, [p]) == if Matches(p, query) then [p] else []
    decreases |a|
  {
    if a == [] {
      assert a + b == b;
    } else {
      assert (a + b)[1..] == a[1..] + b;
      RelevantPassagesKeepsOrder(query, a[1..], b);
    }
    forall p ensures RelevantPassages(query, [p]) == if Matches(p, query) then [p] else [] {
      assert [p][1..] == [];
    }
  }

  /** Reference definition of the selected passage: the position of the first
      matching passage, if any. */
  function FirstMatchIndex(query: string, corpus: seq<string>): (r: Option<nat>)
    ensures r.Some? ==> r.value < |corpus| && Matches(corpus[r.value], query)
    ensures r.Some? ==> forall j :: 0 <= j < r.value ==> !Matches(corpus[j], query)
    ensures r.None? <==> forall j :: 0 <= j < |corpus| ==> !Matches(corpus[j], query)
  {
    if corpus == [] then None
    else if Matches(corpus[0], query) then Some(0)
    else match FirstMatchIndex(query, corpus[1..])
      case None => None
      case Some(k) => Some(k + 1)
  }

  /** The head of the filtered passages is the first match in corpus order,
      and the filter is empty exactly when nothing matches. */
  lemma {:induction false} RelevantHeadIsFirstMatch(query: string, corpus: seq<string>)
    ensures RelevantPassages(query, corpus) == [] <==> FirstMatchIndex(query, corpus).None?
    ensures FirstMatchIndex(query, corpus).Some? ==>
      RelevantPassages(query, corpus)[0] == corpus[FirstMatchIndex(query, corpus).value]
  {
    if corpus != [] && !Matches(corpus[0], query) {
      RelevantHeadIsFirstMatch(query, corpus[1..]);
    }
  }

  /** `get_answer`: the fixed sentence when no passage matches, otherwise the
      extractor's outcome on the query and the first matching passage. */
  function GetAnswer(query: string, corpus: seq<string>, qa: Extractor): (r: Result<string>)
    ensures FirstMatchIndex(query, corpus).None? ==> r == Ok(NoInfo)
    ensures FirstMatchIndex(query, corpus).Some? ==>
      r == qa(query, corpus[FirstMatchIndex(query, corpus).value])
  {
    RelevantHeadIsFirstMatch(query, corpus);
    var relevant := RelevantPassages(query, corpus);
    if relevant == [] then Ok(NoInfo) else qa(query, relevant[0])
  }

  /** The passage handed to the extractor: an element of the corpus that
      contains the query, ignoring case, and every earlier passage does not. */
  lemma {:induction false} ContextIsFirstMatchingPassage(query: string, corpus: seq<string>)
    requires RelevantPassages(query, corpus) != []
    ensures exists k :: (0 <= k < |corpus| && RelevantPassages(query, corpus)[0] == corpus[k]
      && Matches(corpus[k], query)
      && forall j :: 0 <= j < k ==> !Matches(corpus[j], query))
  {
    RelevantHeadIsFirstMatch(query, corpus);
    var k := FirstMatchIndex(query, corpus).value;
    assert RelevantPassages(query, corpus)[0] == corpus[k];
  }

  /** The fixed sentence is returned exactly when no passage matches, provided
      the extractor does not itself answer with that sentence. */
  lemma NoInfoIffNothingMatches(query: string, corpus: seq<string>, qa: Extractor)
    requires forall context :: qa(query, context) != Ok(NoInfo)
    ensures GetAnswer(query, corpus, qa) == Ok(NoInfo) <==>
      forall i :: 0 <= i < |corpus| ==> !Matches(corpus[i], query)
  {
  }

  /** Without the proviso above the "only if" fails: an extractor that answers
      with the whole context, asked about a passage that is the fixed sentence
      itself, gives that sentence although a passage matched. */
  lemma SentinelIsAmbiguous()
    ensures var qa: Extractor := (q, context) => Ok(context);
      Matches(NoInfo, "no") && GetAnswer("no", [NoInfo], qa) == Ok(NoInfo)
  {

  }

  /** The extractor is consulted on one input only, (query, first match): two
      extractors that agree there give the same result, and when nothing
      matches the extractor is not consulted at all. */
  lemma OnlyFirstMatchIsConsulted(query: string, corpus: seq<string>, qa1: Extractor, qa2: Extractor)
    requires FirstMatchIndex(query, corpus).Some? ==>
      qa1(query, corpus[FirstMatchIndex(query, corpus).value]) ==
      qa2(query, corpus[FirstMatchIndex(query, corpus).value])
    ensures GetAnswer(query, corpus, qa1) == GetAnswer(query, corpus, qa2)
  {
  }

  /** Changing the case of letters in the query does not change which passage
      is selected. */
  lemma {:induction false} SelectionIgnoresQueryCase(q1: string, q2: string, corpus: seq<string>)
    requires SameIgnoringCase(q1, q2)
    ensures FirstMatchIndex(q1, corpus) == FirstMatchIndex(q2, corpus)
    ensures RelevantPassages(q1, corpus) == RelevantPassages(q2, corpus)
  {
    if corpus != [] {
      MatchesIgnoresCase(corpus[0], corpus[0], q1, q2);
      SelectionIgnoresQueryCase(q1, q2, corpus[1..]);
    }
  }

  /** Changing the case of letters in the passages does not change the
      position of the selected passage. */
  lemma {:induction false} SelectionIgnoresCorpusCase(query: string, c1: seq<string>, c2: seq<string>)
    requires |c1| == |c2| && forall i :: 0 <= i < |c1| ==> SameIgnoringCase(c1[i], c2[i])
    ensures FirstMatchIndex(query, c1) == FirstMatchIndex(query, c2)
  {
    if c1 != [] {
      MatchesIgnoresCase(c1[0], c2[0], query, query);
      SelectionIgnoresCorpusCase(query, c1[1..], c2[1..]);
    }
  }
}
