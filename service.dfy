/** The `/answer` request handler: read the question from the JSON body, call
    `get_answer`, and turn every exception on the way into an error payload. */
module Service {
  import opened Wrappers
  import opened CaseFold
  import opened Matcher
  import opened Catalog

  /** A decoded JSON value, as the request body may hold it. */
  datatype Json =
    | JNull
    | JBool(b: bool)
    | JNumber(n: int)
    | JString(s: string)
    | JArray(items: seq<Json>)
    | JObject(fields: map<string, Json>)

  /** The two response shapes: `{"answer": s}` and `{"error": msg}`. */
  datatype Response = Answer(answer: string) | Error(error: string)

  /** `data[key]` in Python: a dictionary lookup, `KeyError` when the key is
      absent (its message is the quoted key), `TypeError` for other values. */
  function Subscript(data: Json, key: string): (r: Result<Json>)
    ensures data.JObject? && key in data.fields ==> r == Ok(data.fields[key])
    ensures data.JObject? && key !in data.fields ==> r == Fail("'" + key + "'")
    ensures !data.JObject? ==> r.Fail?
  {
    match data
    case JObject(m) => if key in m then Ok(m[key]) else Fail("'" + key + "'")
    case JNull => Fail("'NoneType' object is not subscriptable")
    case JBool(_) => Fail("'bool' object is not subscriptable")
    case JNumber(_) => Fail("'int' object is not subscriptable")
    case JString(_) => Fail("string indices must be integers, not 'str'")
    case JArray(_) => Fail("list indices must be integers or slices, not str")
  }

  /** Raised when a non-string, hashable query is compiled as a search pattern. */
  const PatternTypeError: string := "first argument must be string or compiled pattern"

  /** The message raised when a non-string query is compiled as a search
      pattern: the pattern cache hashes it first, so a list or an object fails
      as unhashable; any other value fails the string test that follows. */
  function PatternError(query: Json): string
  {
    match query
    case JArray(_) => "unhashable type: 'list'"
    case JObject(_) => "unhashable type: 'dict'"
    case _ => PatternTypeError
  }

  /** `answer_question`. `body` is what `request.get_json()` returned or the
      message of what it raised; `corpus` is the `input_text` column; `qa` is
      the extractor. */
  function AnswerQuestion(body: Result<Json>, corpus: seq<string>, qa: Extractor): (r: Response)
    ensures r.Answer? <==>
      body.Ok? && body.value.JObject? && "question" in body.value.fields &&
      body.value.fields["question"].JString? &&
      GetAnswer(body.value.fields["question"].s, corpus, qa).Ok?
    ensures r.Answer? ==> r.answer == GetAnswer(body.value.fields["question"].s, corpus, qa).value
  {
    match body
    case Fail(e) => Error(e)
    case Ok(data) =>
      match Subscript(data, "question")
      case Fail(e) => Error(e)
      case Ok(JString(query)) =>
        (match GetAnswer(query, corpus, qa)
         case Ok(answer) => Answer(answer)
         case Fail(e) => Error(e))
      case Ok(query) => Error(PatternError(query))
  }

  /** A body without a `question` key gives the `KeyError` message. */
  lemma MissingQuestionIsError(fields: map<string, Json>, corpus: seq<string>, qa: Extractor)
    requires "question" !in fields
    ensures AnswerQuestion(Ok(JObject(fields)), corpus, qa) == Error("'question'")
  {
  }

  /** A `question` that is not a string fails at pattern compilation: a list
      or an object as unhashable, any other value as not a string. */
  lemma NonStringQuestionIsError(question: Json, corpus: seq<string>, qa: Extractor)
    requires !question.JString?
    ensures var r := AnswerQuestion(Ok(JObject(map["question" := question])), corpus, qa);
      && (question.JArray? ==> r == Error("unhashable type: 'list'"))
      && (question.JObject? ==> r == Error("unhashable type: 'dict'"))
      && (!question.JArray? && !question.JObject? ==> r == Error(PatternTypeError))
  {
  }

  /** An extractor that raises on the selected passage gives an error payload
      carrying its message. */
  lemma ExtractorFailureIsError(query: string, corpus: seq<string>, qa: Extractor, k: nat)
    requires FirstMatchIndex(query, corpus) == Some(k)
    requires qa(query, corpus[k]).Fail?
    ensures AnswerQuestion(Ok(JObject(map["question" := JString(query)])), corpus, qa)
      == Error(qa(query, corpus[k]).message)
  {
  }

  /** A question that no passage contains is answered with the fixed sentence,
      whatever the extractor would do. */
  lemma NoMatchAnswersNoInfo(query: string, corpus: seq<string>, qa: Extractor)
    requires forall i :: 0 <= i < |corpus| ==> !Matches(corpus[i], query)
    ensures AnswerQuestion(Ok(JObject(map["question" := JString(query)])), corpus, qa) == Answer(NoInfo)
  {
  }

  /** A catalog with the single row "Garlic Oil" asked "garlic": the extractor
      receives that row's composed text as its context, and its answer is the
      response. */
  lemma GarlicScenario(description: string, qa: Extractor)
    requires qa("garlic", InputText("Garlic Oil", description)).Ok?
    ensures AnswerQuestion(Ok(JObject(map["question" := JString("garlic")])), Corpus(["Garlic Oil"], [description]), qa)
      == Answer(qa("garlic", InputText("Garlic Oil", description)).value)
  {

  }
}
