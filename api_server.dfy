/*
 * The REST layer in front of the orchestrator: the /query handler's mapping
 * of a processing result onto the response model, the readiness probe and
 * the CSV download with its filename guard.  The process-wide orchestrator
 * is a nullable reference (null when start-up failed); the filesystem is a
 * predicate telling which paths exist.
 */
module ApiServer {
  import opened Common
  import opened Json
  import opened Orchestrator

  datatype Http<T> = Ok(body: T) | HttpError(status: int, detail: string)

  /** QueryResponse; the optional fields are Null when not given. */
  datatype QueryResponse = QueryResponse(
    success: bool, description: Value, responseType: string,
    data: Value, csvFilename: Value, rowCount: Value, error: Value)

  const NotReady := "Orchestrator not initialized"
  const DataDefaultDescription := "Query processed successfully"
  const ClarificationDescription := "I need more information to process your query"

  function Plain(success: bool, description: string, responseType: string, data: Value, error: Value): QueryResponse {
    QueryResponse(success, Str(description), responseType, data, Null, Null, error)
  }

  /** `result[k]`: the value, or the KeyError's text. */
  function Subscript(d: Dict, k: string): Result<Value> {
    match DictGet(d, k)
    case Some(v) => Success(v)
    case None => Failure(KeyErrorText(k))
  }

  /** `result["llm_response"].get(k, default)` */
  function ResponseField(result: Dict, k: string, default: Value): Result<Value> {
    match Subscript(result, "llm_response")
    case Failure(e) => Failure(e)
    case Success(v) => if v.Obj? then Success(GetOr(v.fields, k, default)) else Failure(NoAttribute(v, "get"))
  }

  // ---------------------------------------------------------------------
  // The response model's validation
  // ---------------------------------------------------------------------

  /** Optional[Union[Dict[str, Any], List[Dict[str, Any]]]] */
  predicate DataAccepted(v: Value) {
    v.Null? || v.Obj? || (v.List? && forall i :: 0 <= i < |v.items| ==> v.items[i].Obj?)
  }

  /** Optional[str] */
  predicate OptionalStr(v: Value) {
    v.Null? || v.Str?
  }

  /** Optional[int]; a bool is an int to the model, as in Python. */
  predicate OptionalInt(v: Value) {
    v.Null? || v.Int? || v.Bool?
  }

  /** The row count as the model stores it: a bool becomes 0 or 1. */
  function AsInt(v: Value): Value {
    if v.Bool? then Int(if v.b then 1 else 0) else v
  }

  /** The fields pydantic refuses when QueryResponse(...) is built, in declaration order. */
  function RefusedFields(q: QueryResponse): seq<string> {
    (if q.description.Str? then [] else ["description"]) +
    (if DataAccepted(q.data) then [] else ["data"]) +
    (if OptionalStr(q.csvFilename) then [] else ["csv_filename"]) +
    (if OptionalInt(q.rowCount) then [] else ["row_count"]) +
    (if OptionalStr(q.error) then [] else ["error"])
  }

  /** The heading of the ValidationError, followed by the refused fields, one per line. */
  function ValidationErrorText(fields: seq<string>): string
    requires fields != []
  {
    IntToString(|fields|) + " validation error" + (if |fields| == 1 then "" else "s") + " for QueryResponse" +
    Join(seq(|fields|, i requires 0 <= i < |fields| => "\n" + fields[i]), "")
  }

  /** QueryResponse(...): the model, or the ValidationError it raises. */
  function Construct(q: QueryResponse): (r: Result<QueryResponse>)
    ensures r.Success? <==> RefusedFields(q) == []
    ensures r.Success? ==> r.value == q.(rowCount := AsInt(q.rowCount))
  {
    var refused := RefusedFields(q);
    if refused == [] then Success(q.(rowCount := AsInt(q.rowCount))) else Failure(ValidationErrorText(refused))
  }

  /**
   * The /query handler's mapping of an orchestrator result; a failure is the
   * text of the KeyError, AttributeError or ValidationError the handler
   * would raise.
   */
  function MapResult(result: Dict): Result<QueryResponse> {
    match Subscript(result, "success")
    case Failure(e) => Failure(e)
    case Success(ok) =>
      if !Truthy(ok) then
        Construct(Plain(false, "Failed to process query", "error", Null, GetOr(result, "error", Str("Unknown error occurred"))))
      else
        match Subscript(result, "response_type")
        case Failure(e) => Failure(e)
        case Success(kind) =>
          if kind == Str("data_result") then
            match ResponseField(result, "description", Str(DataDefaultDescription))
            case Failure(e) => Failure(e)
            case Success(description) =>
              Construct(QueryResponse(true, description, "data_result", GetOr(result, "cube_data", Null),
                                      GetOr(result, "csv_filename", Null), GetOr(result, "row_count", Null), Null))
          else if kind == Str("clarification") then
            match ResponseField(result, "clarification_questions", List([]))
            case Failure(e) => Failure(e)
            case Success(questions) =>
              match ResponseField(result, "suggestions", List([]))
              case Failure(e) => Failure(e)
              case Success(suggestions) =>
                Construct(Plain(true, ClarificationDescription, "clarification",
                                Obj([("clarification_questions", questions), ("suggestions", suggestions)]), Null))
          else
            Construct(Plain(false, "Unknown response type", "error", Null, Str("Unexpected response type: " + PyStr(kind))))
  }

  /** The handler's answer: the mapped response, or a 500 carrying the exception's text. */
  function QueryHttp(result: Dict): Http<QueryResponse> {
    match MapResult(result)
    case Success(q) => Ok(q)
    case Failure(e) => HttpError(500, "Error processing query: " + e)
  }

  /** The answer to a response built inside the handler's try: the model, or a 500 naming the refused fields. */
  function Answer(q: QueryResponse): Http<QueryResponse> {
    if RefusedFields(q) == [] then Ok(q.(rowCount := AsInt(q.rowCount)))
    else HttpError(500, "Error processing query: " + ValidationErrorText(RefusedFields(q)))
  }

  /**
   * Only a data result or a clarification is a success; everything else
   * comes back as response type "error".
   */
  lemma MappedSuccessIsDataOrClarification(result: Dict)
    requires MapResult(result).Success?
    ensures var q := MapResult(result).value;
      (q.success <==> q.responseType in {"data_result", "clarification"}) &&
      (!q.success <==> q.responseType == "error")
  {
  }

  /**
   * A failed orchestrator result keeps its error text, "Unknown error
   * occurred" when it has none; an error that is neither a str nor None is
   * refused by the response model and answered with a 500.
   */
  lemma FailureKeepsError(result: Dict)
    requires DictGet(result, "success") == Some(Bool(false))
    ensures var e := GetOr(result, "error", Str("Unknown error occurred"));
      (OptionalStr(e) ==> QueryHttp(result) == Ok(Plain(false, "Failed to process query", "error", Null, e))) &&
      (!OptionalStr(e) ==> QueryHttp(result) == HttpError(500, "Error processing query: " + ValidationErrorText(["error"])))
  {
    var e := GetOr(result, "error", Str("Unknown error occurred"));
    assert RefusedFields(Plain(false, "Failed to process query", "error", Null, e)) ==
      (if OptionalStr(e) then [] else ["error"]);
  }

  /** Before initialisation the handler answers 200 with the orchestrator's refusal as the error. */
  lemma NotInitializedIsReported(errors: seq<string>)
    ensures QueryHttp(NotInitialized(errors)) == Ok(Plain(false, "Failed to process query", "error", Null, Str(NotInitializedError)))
  {
    var r := NotInitialized(errors);
    DictGetAt(r, 0);
    DictGetAt(r, 1);
    FailureKeepsError(r);
  }

  /**
   * A clarification the model asked for reaches the client as a successful
   * response carrying the model's questions and suggestions, each [] when absent.
   */
  lemma ClarificationReachesClient(steps: Dict, llmResponse: Dict, execute: CubeExecutor, userQuery: string, now: string)
    requires DictGet(llmResponse, "response_type") == Some(Str("clarification_needed"))
    ensures QueryHttp(Dispatch(steps, llmResponse, execute, userQuery, now)) ==
      Ok(Plain(true, ClarificationDescription, "clarification",
               Obj([("clarification_questions", GetOr(llmResponse, "clarification_questions", List([]))),
                    ("suggestions", GetOr(llmResponse, "suggestions", List([])))]), Null))
  {
    var base := Base(now, userQuery, steps);
    var u := Clarification(llmResponse);
    ClarificationKeys(llmResponse);
    DispatchClarification(steps, llmResponse, execute, userQuery, now);
    assert Dispatch(steps, llmResponse, execute, userQuery, now) == Update(base, u);
    UpdateGetAt(base, u, 2);
    ClarificationMapping(Update(base, u), llmResponse);
  }

  /**
   * A successful clarification result is passed on with the model's
   * questions and suggestions; the response model accepts it whatever they hold.
   */
  lemma ClarificationMapping(result: Dict, llmResponse: Dict)
    requires DictGet(result, "success") == Some(Bool(true)) && DictGet(result, "response_type") == Some(Str("clarification"))
    requires DictGet(result, "llm_response") == Some(Obj(llmResponse))
    ensures QueryHttp(result) ==
      Ok(Plain(true, ClarificationDescription, "clarification",
               Obj([("clarification_questions", GetOr(llmResponse, "clarification_questions", List([]))),
                    ("suggestions", GetOr(llmResponse, "suggestions", List([])))]), Null))
  {
    assert Str("clarification") != Str("data_result");
  }

  /**
   * A successful data_result is passed on with the model's description, or
   * the default when it gave none, the Cube data, the CSV name and the row
   * count, when the response model accepts them; otherwise the answer is a
   * 500 naming the refused fields.
   */
  lemma DataResultMapping(result: Dict, llmResponse: Dict)
    requires DictGet(result, "success") == Some(Bool(true)) && DictGet(result, "response_type") == Some(Str("data_result"))
    requires DictGet(result, "llm_response") == Some(Obj(llmResponse))
    ensures QueryHttp(result) ==
      Answer(QueryResponse(true, GetOr(llmResponse, "description", Str(DataDefaultDescription)), "data_result",
                           GetOr(result, "cube_data", Null), GetOr(result, "csv_filename", Null), GetOr(result, "row_count", Null), Null))
  {
  }

  /**
   * A data result reaches the client with the model's description or the
   * default and the Cube result's data, CSV name and row count; the answer
   * is a success iff the description is a str, the data a dict or a list of
   * dicts (or absent), the CSV name a str and the row count an int (or absent).
   */
  lemma DataResultReachesClient(base: Dict, llmResponse: Dict, c: Dict)
    ensures var q := QueryResponse(true, GetOr(llmResponse, "description", Str(DataDefaultDescription)), "data_result",
                                   GetOr(c, "data", Null), GetOr(c, "csv_filename", Null), GetOr(c, "row_count", Null), Null);
      QueryHttp(Update(base, DataResult(llmResponse, c))) == Answer(q) &&
      (Answer(q).Ok? <==> q.description.Str? && DataAccepted(q.data) && OptionalStr(q.csvFilename) && OptionalInt(q.rowCount))
  {
    var u := DataResult(llmResponse, c);
    var r := Update(base, u);
    DataResultKeysDistinct(llmResponse, c);
    UpdateGetAt(base, u, 0);
    UpdateGetAt(base, u, 1);
    UpdateGetAt(base, u, 2);
    DataResultMapping(r, llmResponse);
    UpdateGetAt(base, u, 3);
    UpdateGetAt(base, u, 4);
    UpdateGetAt(base, u, 6);
  }

  lemma DataResultKeysDistinct(llmResponse: Dict, c: Dict)
    ensures DistinctKeys(DataResult(llmResponse, c))
  {
  }

  /** A description the model gave as null is refused by the response model: the client gets a 500. */
  lemma NullDescriptionIsServerError(result: Dict, llmResponse: Dict)
    requires DictGet(result, "success") == Some(Bool(true)) && DictGet(result, "response_type") == Some(Str("data_result"))
    requires DictGet(result, "llm_response") == Some(Obj(llmResponse))
    requires DictGet(llmResponse, "description") == Some(Null)
    ensures QueryHttp(result).HttpError? && QueryHttp(result).status == 500
  {
    DataResultMapping(result, llmResponse);
  }

  /** POST /query */
  method Query(orchestrator: QueryOrchestrator?, query: string, now: string) returns (r: Http<QueryResponse>)
    requires orchestrator != null ==> orchestrator.Valid()
    modifies if orchestrator != null then {orchestrator.conversation} else {}
    ensures orchestrator == null ==> r == HttpError(503, NotReady)
    ensures orchestrator != null && !orchestrator.isInitialized ==>
      r == QueryHttp(NotInitialized(orchestrator.initializationErrors))
    ensures orchestrator != null && orchestrator.isInitialized ==>
      r == QueryHttp(Pipeline(old(orchestrator.conversation.history), orchestrator.conversation.maxMessages,
                              orchestrator.systemPrompt.value, orchestrator.llm.model, orchestrator.llm.chat,
                              orchestrator.execute, query, now).0)
  {
    if orchestrator == null {
      return HttpError(503, NotReady);
    }
    var result := orchestrator.ProcessQuery(query, now);
    r := QueryHttp(result);
  }

  // ---------------------------------------------------------------------
  // Readiness
  // ---------------------------------------------------------------------

  datatype Readiness = Readiness(status: string, systemPromptCached: bool)

  /** GET /readyz: ready exactly when there is an orchestrator and its prompt cache file exists. */
  function ReadinessCheck(orchestrator: QueryOrchestrator?, exists_: string -> bool): (r: Readiness)
    ensures r.systemPromptCached <==> orchestrator != null && exists_(orchestrator.systemPromptCacheFile)
    ensures r.status == "ready" <==> r.systemPromptCached
    ensures r.status in {"ready", "not_ready"}
  {
    var cached := orchestrator != null && exists_(orchestrator.systemPromptCacheFile);
    Readiness(if cached then "ready" else "not_ready", cached)
  }

  // ---------------------------------------------------------------------
  // Downloads
  // ---------------------------------------------------------------------

  datatype FileServe = FileServe(path: string, filename: string, mediaType: string)

  const ResultDirectories: seq<string> := ["/app/results/", "/app/orchestrator/tests/results/", "/tmp/"]

  function Candidates(filename: string): (r: seq<string>)
    ensures |r| == |ResultDirectories|
    ensures forall i :: 0 <= i < |r| ==> r[i] == ResultDirectories[i] + filename
  {
    seq(|ResultDirectories|, i requires 0 <= i < |ResultDirectories| => ResultDirectories[i] + filename)
  }

  /** A name that could leave the result directories. */
  predicate Escapes(filename: string) {
    Contains(filename, "..") || Contains(filename, "/") || Contains(filename, "\\")
  }

  /**
   * GET /download/{filename}: a CSV name without "..", "/" or "\" is served
   * from the first result directory that has it, and is a 404 iff none has
   * it; the name checks come before any lookup.
   */
  method Download(filename: string, exists_: string -> bool) returns (r: Http<FileServe>)
    ensures !EndsWith(filename, ".csv") ==> r == HttpError(400, "Only CSV files can be downloaded")
    ensures EndsWith(filename, ".csv") && Escapes(filename) ==> r == HttpError(400, "Invalid filename")
    ensures EndsWith(filename, ".csv") && !Escapes(filename) ==>
      (r == HttpError(404, "File not found") <==> forall i :: 0 <= i < |ResultDirectories| ==> !exists_(Candidates(filename)[i]))
    ensures (EndsWith(filename, ".csv") && !Escapes(filename) &&
             exists i :: 0 <= i < |ResultDirectories| && exists_(Candidates(filename)[i])) ==> r.Ok?
    ensures r.Ok? ==>
      EndsWith(filename, ".csv") && !Escapes(filename) &&
      r.body.filename == filename && r.body.mediaType == "text/csv" &&
      exists k :: 0 <= k < |ResultDirectories| && r.body.path == Candidates(filename)[k] && exists_(r.body.path) &&
        forall i :: 0 <= i < k ==> !exists_(Candidates(filename)[i])
  {
    if !EndsWith(filename, ".csv") {
      return HttpError(400, "Only CSV files can be downloaded");
    }
    if Contains(filename, "..") || Contains(filename, "/") || Contains(filename, "\\") {
      return HttpError(400, "Invalid filename");
    }
    var paths := Candidates(filename);
    var k := 0;
    while k < |paths|
      invariant 0 <= k <= |paths|
      invariant forall i :: 0 <= i < k ==> !exists_(paths[i])
    {
      if exists_(paths[k]) {
        return Ok(FileServe(paths[k], filename, "text/csv"));
      }
      k := k + 1;
    }
    r := HttpError(404, "File not found");
  }
}
