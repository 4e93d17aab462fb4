/*
 * The chat-completion client of the orchestrator.  The network call is an
 * oracle: `Chat(messages, jsonFormat)` is what the API answers when asked
 * with (or without) the JSON response format, either a completion whose
 * text json.loads turned into a value (or failed on), or the exception the
 * client library raised.  Everything around the call is modelled: the copy
 * of the conversation plus the user turn, the one retry without the JSON
 * format, the normalisation of the model's JSON and the error envelope.
 */
module LlmClient {
  import opened Common
  import opened Json

  const DefaultModel := "gpt-4"
  const MissingKeyError := "OpenAI API key not provided. Set OPENAI_API_KEY environment variable."

  const DefaultInterpretation := "Processing your query..."
  const QueryDefaultDescription := "Query processed successfully"
  const ErrorDefaultDescription := "An error occurred processing your query"
  const ErrorInterpretation := "I encountered an issue processing your request"
  const MissingFieldsError := "Invalid cube query: missing measures and dimensions"
  const ApiErrorPrefix := "LLM API error: "
  const JsonErrorPrefix := "Invalid JSON response from LLM: "
  /** str() of the TypeError json.loads raises for a completion without text. */
  const NoTextError := "the JSON object must be str, bytes or bytearray, not NoneType"

  /** The literals 0.5 and 0.0. */
  const DefaultConfidence: Value := Float(5, 1)
  const NoConfidence: Value := Float(0, 1)

  // ---------------------------------------------------------------------
  // The error envelope
  // ---------------------------------------------------------------------

  function ErrorBody(message: string, userQuery: string): Dict {
    [("response_type", Str("error")),
     ("interpretation", Str(ErrorInterpretation)),
     ("description", Str(message)),
     ("confidence_score", NoConfidence),
     ("original_query", Str(userQuery))]
  }

  /** _create_error_response: an unsuccessful result whose response is an error that echoes the query. */
  function ErrorResponse(message: string, userQuery: string, now: string): (r: Dict)
    ensures DictGet(r, "success") == Some(Bool(false))
    ensures DictGet(r, "response") == Some(Obj(ErrorBody(message, userQuery)))
    ensures !HasKey(r, "response_type")
  {
    var r := [("success", Bool(false)), ("response", Obj(ErrorBody(message, userQuery))), ("timestamp", Str(now))];
    DictGetAt(r, 0);
    DictGetAt(r, 1);
    r
  }

  /** The error inside the envelope: type "error", confidence 0.0, the message and the original query. */
  lemma ErrorBodyFields(message: string, userQuery: string)
    ensures var b := ErrorBody(message, userQuery);
      DictGet(b, "response_type") == Some(Str("error")) &&
      DictGet(b, "description") == Some(Str(message)) &&
      DictGet(b, "confidence_score") == Some(NoConfidence) &&
      DictGet(b, "original_query") == Some(Str(userQuery))
  {
    var b := ErrorBody(message, userQuery);
    DictGetAt(b, 0);
    DictGetAt(b, 2);
    DictGetAt(b, 3);
    DictGetAt(b, 4);
  }

  // ---------------------------------------------------------------------
  // Normalisation of the model's JSON
  // ---------------------------------------------------------------------

  /** The response_type the normalisation sees: the model's own, or "error" when it gave none. */
  function TypeOf(d: Dict): Value {
    GetOr(d, "response_type", Str("error"))
  }

  /** response_type, interpretation and confidence_score with their defaults. */
  function BaseFields(d: Dict): Dict {
    [("response_type", TypeOf(d)),
     ("interpretation", GetOr(d, "interpretation", Str(DefaultInterpretation))),
     ("confidence_score", GetOr(d, "confidence_score", DefaultConfidence))]
  }

  predicate KnownType(t: Value) {
    t == Str("cube_query") || t == Str("clarification_needed") || t == Str("error")
  }

  /** `not q.get("measures") and not q.get("dimensions")` on a dictionary. */
  predicate LacksFields(q: Dict) {
    !Truthy(GetOr(q, "measures", Null)) && !Truthy(GetOr(q, "dimensions", Null))
  }

  /**
   * _normalize_response.  A failure is the AttributeError raised by `.get`
   * on a model answer, or on a cube_query, that is not a JSON object.
   */
  function NormalizeResponse(raw: Value, userQuery: string, now: string): (r: Result<Dict>)
    ensures !raw.Obj? ==> r == Failure(NoAttribute(raw, "get"))
  {
    if !raw.Obj? then Failure(NoAttribute(raw, "get"))
    else
      var d := raw.fields;
      var kind := TypeOf(d);
      if kind == Str("cube_query") then
        var query := GetOr(d, "cube_query", Obj([]));
        if !query.Obj? then Failure(NoAttribute(query, "get"))
        else if LacksFields(query.fields) then Success(ErrorResponse(MissingFieldsError, userQuery, now))
        else Success(BaseFields(d) + [("cube_query", query), ("description", GetOr(d, "description", Str(QueryDefaultDescription)))])
      else if kind == Str("clarification_needed") then
        Success(BaseFields(d) + [("clarification_questions", GetOr(d, "clarification_questions", List([]))),
                                 ("suggestions", GetOr(d, "suggestions", List([])))])
      else if kind == Str("error") then
        Success(BaseFields(d) + [("description", GetOr(d, "description", Str(ErrorDefaultDescription)))])
      else
        Success(ErrorResponse("Unknown response type: " + PyStr(kind), userQuery, now))
  }

  /** The answers the normalisation turns into the whole error envelope. */
  predicate Rejected(d: Dict) {
    var kind := TypeOf(d);
    !KnownType(kind) ||
    (kind == Str("cube_query") && GetOr(d, "cube_query", Obj([])).Obj? && LacksFields(GetOr(d, "cube_query", Obj([])).fields))
  }

  /**
   * A normalised answer keeps the model's response type (one of the three
   * known ones) with the defaults filled in; a rejected one is the error
   * envelope, which carries `success` and no response_type of its own.
   */
  lemma NormalizeKeepsOrEnvelops(d: Dict, userQuery: string, now: string)
    requires NormalizeResponse(Obj(d), userQuery, now).Success?
    ensures var n := NormalizeResponse(Obj(d), userQuery, now).value;
      (Rejected(d) ==> HasKey(n, "success") && !HasKey(n, "response_type")) &&
      (!Rejected(d) ==> !HasKey(n, "success") && KnownType(TypeOf(d)) &&
                        n[..3] == BaseFields(d) && DictGet(n, "response_type") == Some(TypeOf(d)))
  {
    var n := NormalizeResponse(Obj(d), userQuery, now).value;
    if !Rejected(d) {
      assert n[..3] == BaseFields(d);
      DictGetAt(n, 0);
      assert forall i :: 0 <= i < |n| ==> n[i].0 != "success";
    }
  }

  /** With nothing but the type "error" given, every field takes its documented default. */
  lemma NormalizeDefaults(userQuery: string, now: string)
    ensures NormalizeResponse(Obj([]), userQuery, now) ==
      Success([("response_type", Str("error")),
               ("interpretation", Str(DefaultInterpretation)),
               ("confidence_score", DefaultConfidence),
               ("description", Str(ErrorDefaultDescription))])
  {
    var base := [("response_type", Str("error")), ("interpretation", Str(DefaultInterpretation)), ("confidence_score", DefaultConfidence)];
    assert BaseFields([]) == base;
    assert "error" != "cube_query" && "error" != "clarification_needed";
    assert base + [("description", Str(ErrorDefaultDescription))] ==
      [("response_type", Str("error")), ("interpretation", Str(DefaultInterpretation)),
       ("confidence_score", DefaultConfidence), ("description", Str(ErrorDefaultDescription))];
  }

  /** A clarification keeps its questions and suggestions, each an empty list when missing. */
  lemma ClarificationKeepsLists(d: Dict, userQuery: string, now: string)
    requires TypeOf(d) == Str("clarification_needed")
    ensures NormalizeResponse(Obj(d), userQuery, now).Success?
    ensures var n := NormalizeResponse(Obj(d), userQuery, now).value;
      DictGet(n, "clarification_questions") == Some(GetOr(d, "clarification_questions", List([]))) &&
      DictGet(n, "suggestions") == Some(GetOr(d, "suggestions", List([])))
  {
    ClarificationTypeIsNotQuery();
    var q := GetOr(d, "clarification_questions", List([]));
    var sg := GetOr(d, "suggestions", List([]));
    assert NormalizeResponse(Obj(d), userQuery, now) == Success(BaseFields(d) + [("clarification_questions", q), ("suggestions", sg)]);
    ClarificationKeysDistinct();
    TwoAfterBase(BaseFields(d), "clarification_questions", q, "suggestions", sg);
  }

  lemma ClarificationTypeIsNotQuery()
    ensures Str("clarification_needed") != Str("cube_query")
  {
    assert "clarification_needed"[1] != "cube_query"[1];
  }

  lemma ClarificationKeysDistinct()
    ensures "clarification_questions" != "suggestions"
    ensures forall k :: k in ["response_type", "interpretation", "confidence_score"] ==>
      k != "clarification_questions" && k != "suggestions"
  {
    assert "response_type"[0] != "clarification_questions"[0] && "response_type"[0] != "suggestions"[0];
    assert "interpretation"[0] != "clarification_questions"[0] && "interpretation"[0] != "suggestions"[0];
    assert "confidence_score"[1] != "clarification_questions"[1] && "confidence_score"[0] != "suggestions"[0];
    assert "clarification_questions"[0] != "suggestions"[0];
  }

  /** Two entries appended after three base entries with other keys are found as they were appended. */
  lemma TwoAfterBase(base: Dict, k1: string, v1: Value, k2: string, v2: Value)
    requires |base| == 3 && k1 != k2
    requires forall i :: 0 <= i < 3 ==> base[i].0 != k1 && base[i].0 != k2
    ensures DictGet(base + [(k1, v1), (k2, v2)], k1) == Some(v1)
    ensures DictGet(base + [(k1, v1), (k2, v2)], k2) == Some(v2)
  {
    var n := base + [(k1, v1), (k2, v2)];
    DictGetAt(n, 3);
    DictGetAt(n, 4);
  }

  // ---------------------------------------------------------------------
  // The call
  // ---------------------------------------------------------------------

  datatype Usage = Usage(promptTokens: int, completionTokens: int, totalTokens: int)

  /** What json.loads made of the completion's text. */
  datatype Parsed = Parsed(value: Value) | NotJson(message: string) | NoText

  datatype ChatOutcome = Replied(content: Parsed, usage: Usage) | Raised(message: string)

  /** The chat-completions endpoint: the answer to these messages, with or without the JSON response format. */
  type Chat = (seq<Dict>, bool) -> ChatOutcome

  function UserTurn(userQuery: string): Dict {
    [("role", Str("user")), ("content", Str(userQuery))]
  }

  /** The JSON-format call, repeated once without the format when the API objects to "response_format". */
  function Call(chat: Chat, messages: seq<Dict>): ChatOutcome {
    var first := chat(messages, true);
    if first.Raised? && Contains(first.message, "response_format") then chat(messages, false) else first
  }

  function UsageValue(u: Usage): Value {
    Obj([("prompt_tokens", Int(u.promptTokens)), ("completion_tokens", Int(u.completionTokens)), ("total_tokens", Int(u.totalTokens))])
  }

  /** process_query's result for the messages the caller passed; the system prompt argument is not used. */
  function Reply(model: string, chat: Chat, userQuery: string, conversation: seq<Dict>, now: string): Dict {
    match Call(chat, conversation + [UserTurn(userQuery)])
    case Raised(e) => ErrorResponse(ApiErrorPrefix + e, userQuery, now)
    case Replied(NotJson(e), _) => ErrorResponse(JsonErrorPrefix + e, userQuery, now)
    case Replied(NoText, _) => ErrorResponse(ApiErrorPrefix + NoTextError, userQuery, now)
    case Replied(Parsed(v), usage) =>
      match NormalizeResponse(v, userQuery, now)
      case Failure(e) => ErrorResponse(ApiErrorPrefix + e, userQuery, now)
      case Success(n) =>
        [("success", Bool(true)), ("response", Obj(n)), ("usage", UsageValue(usage)), ("model", Str(model)), ("timestamp", Str(now))]
  }

  /** Every failure of the call, of the decoding or of the normalisation ends in the error envelope. */
  lemma ReplyNeverRaises(model: string, chat: Chat, userQuery: string, conversation: seq<Dict>, now: string)
    ensures var r := Reply(model, chat, userQuery, conversation, now);
      DictGet(r, "success") == Some(Bool(true)) ||
      (DictGet(r, "success") == Some(Bool(false)) &&
       exists e ::
         r == ErrorResponse(ApiErrorPrefix + e, userQuery, now) || r == ErrorResponse(JsonErrorPrefix + e, userQuery, now))
  {
    var r := Reply(model, chat, userQuery, conversation, now);
    match Call(chat, conversation + [UserTurn(userQuery)])
    case Raised(e) =>
    case Replied(NotJson(e), _) =>
    case Replied(NoText, _) =>
      assert r == ErrorResponse(ApiErrorPrefix + NoTextError, userQuery, now);
    case Replied(Parsed(v), usage) =>
      match NormalizeResponse(v, userQuery, now)
      case Failure(e) =>
      case Success(n) => DictGetAt(r, 0);
  }

  /**
   * The envelope of a rejected answer is nested as a successful result: the
   * object under "response" has a `success` of false and no response_type.
   */
  lemma RejectedAnswerLooksSuccessful(model: string, chat: Chat, userQuery: string, conversation: seq<Dict>, now: string, d: Dict, usage: Usage)
    requires Call(chat, conversation + [UserTurn(userQuery)]) == Replied(Parsed(Obj(d)), usage)
    requires !KnownType(TypeOf(d))
    ensures var r := Reply(model, chat, userQuery, conversation, now);
      DictGet(r, "success") == Some(Bool(true)) &&
      DictGet(r, "response") == Some(Obj(ErrorResponse("Unknown response type: " + PyStr(TypeOf(d)), userQuery, now)))
  {
    var r := Reply(model, chat, userQuery, conversation, now);
    DictGetAt(r, 0);
    DictGetAt(r, 1);
  }

  /** len(text) // 4 */
  function EstimateTokens(text: string): (r: nat)
    ensures 4 * r <= |text| < 4 * r + 4
  {
    |text| / 4
  }

  class Client {
    const apiKey: string
    const model: string
    const chat: Chat

    constructor (apiKey: string, model: string, chat: Chat)
      ensures this.apiKey == apiKey && this.model == model && this.chat == chat
    {
      this.apiKey := apiKey;
      this.model := model;
      this.chat := chat;
    }

    /** `api_key or os.getenv("OPENAI_API_KEY")`, refused when empty. */
    static method Create(apiKey: Option<string>, environmentKey: Option<string>, model: string, chat: Chat) returns (r: Result<Client>)
      ensures r.Failure? <==> (apiKey.None? || apiKey.value == "") && (environmentKey.None? || environmentKey.value == "")
      ensures r.Failure? ==> r.error == MissingKeyError
      ensures r.Success? ==> r.value.model == model && r.value.apiKey != "" &&
                             r.value.apiKey == (if apiKey.Some? && apiKey.value != "" then apiKey.value else environmentKey.value)
    {
      var key := if apiKey.Some? && apiKey.value != "" then apiKey else environmentKey;
      if key.None? || key.value == "" {
        return Failure(MissingKeyError);
      }
      var c := new Client(key.value, model, chat);
      r := Success(c);
    }

    /**
     * process_query: the caller's messages are copied and the user turn
     * appended to the copy; nothing the call does escapes as an exception.
     */
    method ProcessQuery(userQuery: string, systemPrompt: string, conversationMessages: seq<Dict>, now: string) returns (r: Dict)
      ensures r == Reply(model, chat, userQuery, conversationMessages, now)
    {
      var messages := conversationMessages;
      messages := messages + [UserTurn(userQuery)];
      var outcome := chat(messages, true);
      if outcome.Raised? && Contains(outcome.message, "response_format") {
        outcome := chat(messages, false);
      }
      if outcome.Raised? {
        return ErrorResponse(ApiErrorPrefix + outcome.message, userQuery, now);
      }
      match outcome.content {
        case NotJson(e) => return ErrorResponse(JsonErrorPrefix + e, userQuery, now);
        case NoText => return ErrorResponse(ApiErrorPrefix + NoTextError, userQuery, now);
        case Parsed(v) =>
          var normalized := NormalizeResponse(v, userQuery, now);
          if normalized.Failure? {
            return ErrorResponse(ApiErrorPrefix + normalized.error, userQuery, now);
          }
          r := [("success", Bool(true)), ("response", Obj(normalized.value)), ("usage", UsageValue(outcome.usage)),
                ("model", Str(model)), ("timestamp", Str(now))];
      }
    }
  }
}
