# Product-catalog question answering: retrieval core

This project models the deterministic part of a small question-answering
service over a retail product catalog (`app.py`). At startup the service
composes a searchable `input_text` for every catalog row (`product`, one
space, `description`) and assembles a batch of documents for a vector store,
each with a positional id, an embedding vector and four metadata fields. Per
request, `answer_question` reads `question` from the JSON body and calls
`get_answer`. That function keeps every composed text that contains the
question, ignoring case. When none does it answers with the fixed sentence
`No relevant information found.`. Otherwise it hands the question and the
first match to an extractive question-answering model. Any exception raised on
the way becomes an `{"error": message}` payload.

Modules, one per component:

- `Wrappers` (`wrappers.dfy`): `Option`, and `Result` for a Python call that returns or raises.
- `CaseFold` (`casefold.dfy`): ASCII lower-casing, substring containment and the case-insensitive `Matches` test.
- `Catalog` (`catalog.dfy`): the catalog row, the composed text, the `input_text` column as a function (`Corpus`) and as the array-filling method `ComposeInputText`.
- `Matcher` (`matcher.dfy`): the boolean-mask filter `RelevantPassages`, the reference `FirstMatchIndex`, and `GetAnswer`, which takes the extractor as a function parameter.
- `Indexing` (`indexing.dfy`): the document batch built by `enumerate(zip(...))`, with the embedding vector as an opaque type parameter.
- `Service` (`service.dfy`): the decoded JSON body, the `data['question']` lookup and `AnswerQuestion`.

The answer extractor is the parameter `qa: (string, string) -> Result<string>`.
It may return an answer or raise. The outcome of `request.get_json()` is the
parameter `body: Result<Json>`.

## Model

| member | source | states |
|---|---|---|
| `Catalog.InputText` | app.py:12 | the composed text is the product name, exactly one space, then the description, with nothing trimmed; its length is the sum of both lengths plus one |
| `Catalog.Corpus` | app.py:12 | the `input_text` column has one entry per row, and entry `i` is row `i`'s composed text |
| `Catalog.CorpusOfRows` | app.py:12 | for a table of rows, entry `i` of the corpus is built from row `i`'s `product` and `description` |
| `Catalog.ComposeInputText` | app.py:12 | filling a new array row by row yields exactly the `input_text` column, with the same length as the table |
| `CaseFold.ContainsIffOccurs` | app.py:58 | the recursive containment test holds exactly when the pattern occurs at some position of the text |
| `CaseFold.MatchesIffOccursIgnoringCase` | app.py:58 | a passage matches a query exactly when some window of the passage equals the query up to ASCII case |
| `CaseFold.MatchesIgnoresCase` | app.py:58 | changing letter case in the passage or the query never changes whether they match |
| `CaseFold.EmptyQueryMatches` | app.py:58 | the empty query matches every passage |
| `Matcher.RelevantPassages` | app.py:58 | the filter keeps only corpus passages that match, and keeps every passage that matches |
| `Matcher.RelevantPassagesKeepsOrder` | app.py:58 | the filter keeps corpus order: filtering a concatenation gives the filtered parts in sequence, and a single passage is kept exactly when it matches |
| `Matcher.FirstMatchIndex` | app.py:58-64 | the selected position holds a matching passage and no earlier passage matches; there is no position exactly when no passage matches |
| `Matcher.RelevantHeadIsFirstMatch` | app.py:58-64 | the filter is empty exactly when nothing matches, and otherwise its first element is the passage at the first matching position |
| `Matcher.GetAnswer` | app.py:56-65 | with no match the result is the fixed sentence; with a match it is exactly the extractor's outcome on the query and the first matching passage |
| `Matcher.ContextIsFirstMatchingPassage` | app.py:58-64 | the context handed to the extractor is a corpus element that contains the query ignoring case, and no earlier passage does |
| `Matcher.NoInfoIffNothingMatches` | app.py:58-61 | if the extractor never answers with the fixed sentence itself, the fixed sentence comes back exactly when no passage matches |
| `Matcher.SentinelIsAmbiguous` | app.py:60-65 | without that proviso the "only if" direction fails: an extractor answering with the whole context, over a corpus holding the fixed sentence, returns the sentence although a passage matched |
| `Matcher.OnlyFirstMatchIsConsulted` | app.py:60-65 | two extractors that agree on (query, first match) give the same result; when nothing matches, any two extractors do, so the extractor is not consulted |
| `Matcher.SelectionIgnoresQueryCase` | app.py:58 | queries that differ only in letter case select the same position and filter the same passages |
| `Matcher.SelectionIgnoresCorpusCase` | app.py:58 | corpora that differ only in letter case, passage by passage, give the same selected position |
| `Indexing.Enumerated` | app.py:24-31 | the batch is as long as the shortest of labels, rows and vectors; document `i` has id `start + i`, vector `i` and row `i`'s product, category, brand and description unchanged |
| `Indexing.Documents` | app.py:24-31 | the startup batch numbers its documents from 0 by position |
| `Indexing.BatchMatchesCatalog` | app.py:24-31 | for aligned inputs the ids are exactly 0..n-1 in row order, and document `i` carries vector `i` and row `i`'s metadata |
| `Indexing.IdsAreUnique` | app.py:26-30 | no two documents of one batch share an id |
| `Indexing.IdsIgnoreLabels` | app.py:26-30 | the table's row labels do not affect the batch; only their count does, through `zip` |
| `Indexing.RunsReuseIds` | app.py:24-31 | two runs over tables of the same size produce the same id sequence, so ids repeat across runs |
| `Service.Subscript` | app.py:73 | looking up a present key of an object gives its value; a missing key raises with the quoted key as message; any non-object value raises |
| `Service.AnswerQuestion` | app.py:70-81 | the response is an answer exactly when the body is an object with a string `question` and `get_answer` returns, and the answer is then `get_answer`'s result; every other path is an error |
| `Service.MissingQuestionIsError` | app.py:71-81 | a body without a `question` key gives the error `'question'` |
| `Service.NonStringQuestionIsError` | app.py:58-81 | a non-string `question` gives an error: `unhashable type: 'list'` for a list, `unhashable type: 'dict'` for an object, and the not-a-string pattern message for null, booleans and numbers |
| `Service.ExtractorFailureIsError` | app.py:64-81 | an extractor that raises on the selected passage gives an error carrying its message |
| `Service.NoMatchAnswersNoInfo` | app.py:58-78 | a question that no passage contains is answered with the fixed sentence, whatever the extractor |
| `Service.GarlicScenario` | app.py:12-78 | for a one-row catalog "Garlic Oil", asking "garlic" passes that row's composed text to the extractor and returns its answer |

## Left out

- Loading the catalog CSV from its remote URL (app.py:8-9): network and pandas I/O. The catalog is an input sequence of rows.
- The embedding step and the `embeddings` column (app.py:15-21): a foreign model with floating-point output. Vectors are an opaque type parameter. As written, line 18 reads the column `context`, which is never created, so startup raises `KeyError` before any request is served.
- The shape defects of the document comprehension (app.py:24-31). `df.iterrows()` yields `(label, row)` pairs, so `row['product']` at line 28 indexes a tuple. `vector.tolist()` at line 27 is called on a Python list. Both would raise at startup. The model builds the intended documents: id, vector, and the row's four fields.
- JSON serialisation, the POST to the vector store and the status check (app.py:34-46): network I/O whose only observable effect is a printed line.
- The internals of the question-answering model (app.py:49, app.py:64): a foreign model with float scoring. It is the parameter `qa`, which may raise.
- Flask plumbing (app.py:52, app.py:69, app.py:72, app.py:78, app.py:84-86): routing, `request.get_json()` (its outcome is the parameter `body`), `jsonify` and `app.run`. Both response shapes are returned with HTTP status 200.
- Regular-expression semantics of `str.contains`: pandas compiles the query as a pattern. The model matches the query literally, which agrees for queries without metacharacters. An invalid pattern would raise and end in the error branch.
- Unicode case folding: `Lower` folds ASCII letters only.
- Missing fields: a missing `product` or `description` makes `input_text` a missing value and the mask at app.py:58 raises. Fields are modelled as present strings.
- `Service.Subscript`: the `TypeError` messages for non-object bodies follow CPython 3.11 wording. JSON numbers are modelled as integers, so a float body's message ("'float' object ...") is not distinguished.
- `Service.AnswerQuestion`: a non-string `question` reaches pattern compilation and raises. The model gives the message that compilation raises (unhashable for a list or an object, not-a-string otherwise), but it does not model the compilation itself.
