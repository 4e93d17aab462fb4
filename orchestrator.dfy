/*
 * The query orchestrator: it brings up the Cube client, the language-model
 * client and the system prompt, then runs each natural-language question
 * through the conversation memory, the language model and, for a Cube
 * query, the Cube executor.  The Cube client and the prompt generator are
 * oracles: their answers are arguments.  Timestamps are one opaque string.
 */
module Orchestrator {
  import opened Common
  import opened Json
  import opened Conversation
  import LlmClient

  const DefaultCacheDir := "/app/cache"

  const UnexpectedInitPrefix := "Unexpected initialization error: "
  const CubeInitPrefix := "CUBE initialization failed: "
  const LlmKeyError := "OpenAI API key validation failed"
  const PromptInitPrefix := "System prompt initialization failed: "

  const NotInitializedError := "Orchestrator not initialized"
  const NotInitializedDetails := "Call initialize() first"
  const LlmFailed := "LLM processing failed"
  const CubeFailed := "CUBE query execution failed"
  const LlmReportedError := "LLM reported an error"
  const PipelinePrefix := "Pipeline processing failed: "
  const PipelineDetails := "Unexpected error in query processing pipeline"

  // ---------------------------------------------------------------------
  // Initialisation
  // ---------------------------------------------------------------------

  /**
   * What the system-prompt cache gave: the text and its metadata, the text
   * alone (the metadata file could not be read, so the load counts as
   * failed after the text was already installed), or nothing.
   */
  datatype CacheLoad = Cached(prompt: string) | TextOnly(prompt: string) | NoCache

  datatype InitReport = InitReport(success: bool, errors: seq<string>, promptSource: Option<string>)

  /** The report, the system prompt afterwards, and whether the outcome was recorded in the fields. */
  datatype InitOutcome = InitOutcome(report: InitReport, prompt: Option<string>, settled: bool)

  datatype PromptStep = PromptStep(prompt: Option<string>, errors: seq<string>, source: Option<string>)

  /**
   * `cube_init["success"]`, and `cube_init["error"]` when it is falsy: None
   * for a ready client, the error line otherwise, a failure for the KeyError.
   */
  function CubeCheck(cubeInit: Dict): Result<Option<string>> {
    if !HasKey(cubeInit, "success") then Failure(KeyErrorText("success"))
    else if Truthy(GetOr(cubeInit, "success", Null)) then Success(None)
    else if !HasKey(cubeInit, "error") then Failure(KeyErrorText("error"))
    else Success(Some(CubeInitPrefix + PyStr(GetOr(cubeInit, "error", Null))))
  }

  /** The cache first; on a miss the generator, whose failure leaves the earlier prompt in place. */
  function LoadPrompt(current: Option<string>, cache: CacheLoad, generated: Result<string>): PromptStep {
    match cache
    case Cached(p) => PromptStep(Some(p), [], Some("cache"))
    case _ =>
      var before := if cache.TextOnly? then Some(cache.prompt) else current;
      match generated
      case Success(g) => PromptStep(Some(g), [], Some("generated"))
      case Failure(e) => PromptStep(before, [PromptInitPrefix + e], None)
  }

  /** The Cube part of initialize(): its "success" flag, and its "error" when that flag is false. */
  method CheckCube(c: Dict) returns (r: Result<Option<string>>)
    ensures r == CubeCheck(c)
  {
    if !HasKey(c, "success") {
      return Failure(KeyErrorText("success"));
    }
    if Truthy(GetOr(c, "success", Null)) {
      return Success(None);
    }
    if !HasKey(c, "error") {
      return Failure(KeyErrorText("error"));
    }
    r := Success(Some(CubeInitPrefix + PyStr(GetOr(c, "error", Null))));
  }

  /** The prompt part of initialize(): the cache, then the generator, each step overwriting the prompt. */
  method ChoosePrompt(current: Option<string>, cache: CacheLoad, generated: Result<string>) returns (step: PromptStep)
    ensures step == LoadPrompt(current, cache, generated)
  {
    var prompt := current;
    var source: Option<string> := None;
    var errors: seq<string> := [];
    if cache.Cached? {
      prompt := Some(cache.prompt);
      source := Some("cache");
    } else {
      if cache.TextOnly? {
        prompt := Some(cache.prompt);
      }
      if generated.Success? {
        prompt := Some(generated.value);
        source := Some("generated");
      } else {
        errors := [PromptInitPrefix + generated.error];
      }
    }
    step := PromptStep(prompt, errors, source);
  }

  function OptionList(x: Option<string>): seq<string> {
    if x.Some? then [x.value] else []
  }

  /** The errors initialize() collects before loading the prompt: the Cube one, then the missing key. */
  method ReadinessErrors(cubeError: Option<string>, llmValid: bool) returns (errors: seq<string>)
    ensures errors == OptionList(cubeError) + (if llmValid then [] else [LlmKeyError])
  {
    errors := [];
    if cubeError.Some? {
      errors := errors + [cubeError.value];
    }
    if !llmValid {
      errors := errors + [LlmKeyError];
    }
  }

  /** initialize(): a raised cube initialisation or a missing key leaves the fields as they were. */
  function InitSpec(current: Option<string>, cubeInit: Result<Dict>, llmValid: bool, cache: CacheLoad, generated: Result<string>): InitOutcome {
    match cubeInit
    case Failure(e) => InitOutcome(InitReport(false, [UnexpectedInitPrefix + e], None), current, false)
    case Success(c) =>
      match CubeCheck(c)
      case Failure(e) => InitOutcome(InitReport(false, [UnexpectedInitPrefix + e], None), current, false)
      case Success(cubeError) =>
        var step := LoadPrompt(current, cache, generated);
        var errors := OptionList(cubeError) + (if llmValid then [] else [LlmKeyError]) + step.errors;
        InitOutcome(InitReport(cubeError.None? && llmValid && step.prompt.Some?, errors, step.source), step.prompt, true)
  }

  predicate CubeReady(cubeInit: Result<Dict>) {
    cubeInit.Success? && CubeCheck(cubeInit.value) == Success(None)
  }

  /**
   * The orchestrator is initialised exactly when the Cube client is ready,
   * the key is valid and some system prompt is installed, which holds when
   * the cache or the generator supplied one or an earlier one remains.
   */
  lemma InitializedIff(current: Option<string>, cubeInit: Result<Dict>, llmValid: bool, cache: CacheLoad, generated: Result<string>)
    ensures var o := InitSpec(current, cubeInit, llmValid, cache, generated);
      o.report.success <==>
        CubeReady(cubeInit) && llmValid && (!cache.NoCache? || generated.Success? || current.Some?)
    ensures var o := InitSpec(current, cubeInit, llmValid, cache, generated);
      o.report.success ==> o.prompt.Some?
  {
  }

  /** The error list is empty exactly when the three components came up on this call. */
  lemma InitErrorsIff(current: Option<string>, cubeInit: Result<Dict>, llmValid: bool, cache: CacheLoad, generated: Result<string>)
    requires InitSpec(current, cubeInit, llmValid, cache, generated).settled
    ensures var o := InitSpec(current, cubeInit, llmValid, cache, generated);
      o.report.errors == [] <==> CubeReady(cubeInit) && llmValid && (cache.Cached? || generated.Success?)
  {
    var c := cubeInit.value;
    var o := InitSpec(current, cubeInit, llmValid, cache, generated);
    var cubeError := CubeCheck(c).value;
    var step := LoadPrompt(current, cache, generated);
    assert o.report.errors == OptionList(cubeError) + (if llmValid then [] else [LlmKeyError]) + step.errors;
    assert step.errors == [] <==> cache.Cached? || generated.Success?;
  }

  /**
   * A failed regeneration on a second initialize() keeps the earlier prompt:
   * the orchestrator reports success while listing the prompt error.
   */
  lemma StalePromptStillInitializes(p: string, cubeInit: Result<Dict>, e: string)
    requires CubeReady(cubeInit)
    ensures var o := InitSpec(Some(p), cubeInit, true, NoCache, Failure(e));
      o.report.success && o.prompt == Some(p) && o.report.errors == [PromptInitPrefix + e]
  {
  }

  // ---------------------------------------------------------------------
  // One query through the pipeline
  // ---------------------------------------------------------------------

  /** The Cube client's execute_query: its result dictionary, or the exception it raised. */
  type CubeExecutor = (Value, string) -> Result<Dict>

  function NotInitialized(errors: seq<string>): Dict {
    [("success", Bool(false)), ("error", Str(NotInitializedError)), ("details", Str(NotInitializedDetails)),
     ("initialization_errors", List(Strs(errors)))]
  }

  /** processing_result as first built. */
  function Base(now: string, userQuery: string, steps: Dict): Dict {
    [("success", Bool(false)), ("timestamp", Str(now)), ("user_query", Str(userQuery)), ("pipeline_steps", Obj(steps))]
  }

  /** The except clause: the result so far, marked failed with the exception's text. */
  function Crash(result: Dict, e: string): Dict {
    Update(result, [("success", Bool(false)), ("error", Str(PipelinePrefix + e)), ("details", Str(PipelineDetails))])
  }

  /** The first of data, csv_filename, csv_path and row_count missing from a Cube result. */
  function MissingDataKey(cubeResult: Dict): Option<string> {
    if !HasKey(cubeResult, "data") then Some("data")
    else if !HasKey(cubeResult, "csv_filename") then Some("csv_filename")
    else if !HasKey(cubeResult, "csv_path") then Some("csv_path")
    else if !HasKey(cubeResult, "row_count") then Some("row_count")
    else None
  }

  function DataResult(llmResponse: Dict, cubeResult: Dict): Dict {
    [("success", Bool(true)), ("response_type", Str("data_result")), ("llm_response", Obj(llmResponse)),
     ("cube_data", GetOr(cubeResult, "data", Null)), ("csv_filename", GetOr(cubeResult, "csv_filename", Null)),
     ("csv_path", GetOr(cubeResult, "csv_path", Null)), ("row_count", GetOr(cubeResult, "row_count", Null))]
  }

  function CubeError(llmResponse: Dict, cubeResult: Dict): Dict {
    [("success", Bool(false)), ("response_type", Str("cube_error")), ("error", Str(CubeFailed)),
     ("llm_response", Obj(llmResponse)), ("cube_error", Obj(cubeResult))]
  }

  function Clarification(llmResponse: Dict): Dict {
    [("success", Bool(true)), ("response_type", Str("clarification")), ("llm_response", Obj(llmResponse)),
     ("clarification_questions", GetOr(llmResponse, "clarification_questions", List([]))),
     ("suggestions", GetOr(llmResponse, "suggestions", List([])))]
  }

  function LlmError(llmResponse: Dict): Dict {
    [("success", Bool(false)), ("response_type", Str("llm_error")), ("error", Str(LlmReportedError)),
     ("llm_response", Obj(llmResponse))]
  }

  function Unknown(llmResponse: Dict): Dict {
    [("success", Bool(false)), ("response_type", Str("unknown")),
     ("error", Str("Unknown response type: " + PyStr(GetOr(llmResponse, "response_type", Null)))),
     ("llm_response", Obj(llmResponse))]
  }

  /** The Cube branch once the query ran: data, a Cube error, or the KeyError of a short result. */
  function CubeOutcome(result: Dict, llmResponse: Dict, cubeResult: Dict): Dict {
    if !HasKey(cubeResult, "success") then Crash(result, KeyErrorText("success"))
    else if Truthy(GetOr(cubeResult, "success", Null)) then
      match MissingDataKey(cubeResult)
      case Some(k) => Crash(result, KeyErrorText(k))
      case None => Update(result, DataResult(llmResponse, cubeResult))
    else Update(result, CubeError(llmResponse, cubeResult))
  }

  /** Step 5: the dispatch on the model's response_type. */
  function Dispatch(steps: Dict, llmResponse: Dict, execute: CubeExecutor, userQuery: string, now: string): Dict {
    var kind := DictGet(llmResponse, "response_type");
    if kind == Some(Str("cube_query")) then
      match execute(GetOr(llmResponse, "cube_query", Null), userQuery)
      case Failure(e) => Crash(Base(now, userQuery, steps), e)
      case Success(c) => CubeOutcome(Base(now, userQuery, steps + [("cube_execution", Obj(c))]), llmResponse, c)
    else if kind == Some(Str("clarification_needed")) then Update(Base(now, userQuery, steps), Clarification(llmResponse))
    else if kind == Some(Str("error")) then Update(Base(now, userQuery, steps), LlmError(llmResponse))
    else Update(Base(now, userQuery, steps), Unknown(llmResponse))
  }

  /** The history once the user's message is recorded. */
  function WithQuestion(h: seq<Dict>, maxMessages: int, userQuery: string, now: string): seq<Dict> {
    Trim(h + [UserMessage(userQuery, now)], maxMessages)
  }

  /** Steps 1 to 3 leave these pipeline steps behind. */
  function StepsUpTo3(messageCount: nat, reply: Dict): Dict {
    [("conversation_updated", Bool(true)),
     ("conversation_prepared", Obj([("message_count", Int(messageCount))])),
     ("llm_processing", Obj(reply))]
  }

  /** process_query on an initialised orchestrator: the result and the history afterwards. */
  function Pipeline(h: seq<Dict>, maxMessages: int, prompt: string, model: string, chat: LlmClient.Chat,
                    execute: CubeExecutor, userQuery: string, now: string): (Dict, seq<Dict>)
  {
    var h1 := WithQuestion(h, maxMessages, userQuery, now);
    match OpenaiMessages(h1, prompt)
    case Failure(e) => (Crash(Base(now, userQuery, [("conversation_updated", Bool(true))]), e), h1)
    case Success(messages) =>
      var reply := LlmClient.Reply(model, chat, userQuery, messages, now);
      AfterReply(h1, maxMessages, StepsUpTo3(|messages|, reply), reply, execute, userQuery, now)
  }

  /** Steps 4 and 5 of process_query, once the client has answered with `reply`. */
  function AfterReply(h1: seq<Dict>, maxMessages: int, steps: Dict, reply: Dict, execute: CubeExecutor,
                      userQuery: string, now: string): (Dict, seq<Dict>)
  {
    match DictGet(reply, "success")
    case None => (Crash(Base(now, userQuery, steps), KeyErrorText("success")), h1)
    case Some(ok) =>
      if !Truthy(ok) then
        (Update(Base(now, userQuery, steps), [("error", Str(LlmFailed)), ("details", GetOr(reply, "response", Obj([])))]), h1)
      else
        match DictGet(reply, "response")
        case None => (Crash(Base(now, userQuery, steps), KeyErrorText("response")), h1)
        case Some(v) =>
          if !v.Obj? then (Crash(Base(now, userQuery, steps), NoAttribute(v, "get")), h1)
          else (Dispatch(steps, v.fields, execute, userQuery, now), Trim(h1 + [AssistantMessage(v.fields, now)], maxMessages))
  }

  /** The messages the chat API receives: the projected history and, once more, the user's turn. */
  function SentToModel(h: seq<Dict>, maxMessages: int, prompt: string, userQuery: string, now: string): Result<seq<Dict>> {
    match OpenaiMessages(WithQuestion(h, maxMessages, userQuery, now), prompt)
    case Failure(e) => Failure(e)
    case Success(messages) => Success(messages + [LlmClient.UserTurn(userQuery)])
  }

  /**
   * The user's message is stored before the call and the client appends it
   * again, so the model receives the question twice in a row, after the
   * system prompt.
   */
  lemma QuestionSentTwice(h: seq<Dict>, maxMessages: int, prompt: string, userQuery: string, now: string)
    requires maxMessages >= 1
    requires forall i :: 0 <= i < |h| ==> HasRoleAndContent(h[i])
    ensures SentToModel(h, maxMessages, prompt, userQuery, now).Success?
    ensures var sent := SentToModel(h, maxMessages, prompt, userQuery, now).value;
      |sent| >= 3 && sent[0] == SystemMessage(prompt) &&
      sent[|sent| - 2] == LlmClient.UserTurn(userQuery) && sent[|sent| - 1] == LlmClient.UserTurn(userQuery)
  {
    var u := UserMessage(userQuery, now);
    var turn := LlmClient.UserTurn(userQuery);
    var h1 := WithQuestion(h, maxMessages, userQuery, now);
    UserTurnProjection(userQuery, now);
    TrimKeepsNewest(h, u, maxMessages);
    var p := Projection(h1);
    assert p.Success?;
    var ms := p.value;
    assert ms[|ms| - 1] == ApiMessage(h1[|h1| - 1]);
    assert ms[|ms| - 1] == turn;
    assert OpenaiMessages(h1, prompt) == Success([SystemMessage(prompt)] + ms);
    SentShape([SystemMessage(prompt)] + ms, turn);
  }

  /** Appending the turn again to messages that already end with it. */
  lemma SentShape(messages: seq<Dict>, turn: Dict)
    requires |messages| >= 2 && messages[|messages| - 1] == turn
    ensures var sent := messages + [turn];
      |sent| >= 3 && sent[0] == messages[0] && sent[|sent| - 2] == turn && sent[|sent| - 1] == turn
  {
  }

  /** The chat view of a stored user message is the client's own user turn. */
  lemma UserTurnProjection(userQuery: string, now: string)
    ensures HasRoleAndContent(UserMessage(userQuery, now))
    ensures ApiMessage(UserMessage(userQuery, now)) == LlmClient.UserTurn(userQuery)
  {
    var u := UserMessage(userQuery, now);
    DictGetAt(u, 0);
    DictGetAt(u, 1);
  }

  /** After an append and a trim to at least one entry, the new entry is last and every entry came from before. */
  lemma TrimKeepsNewest(h: seq<Dict>, u: Dict, maxMessages: int)
    requires maxMessages >= 1
    requires HasRoleAndContent(u) && forall i :: 0 <= i < |h| ==> HasRoleAndContent(h[i])
    ensures var t := Trim(h + [u], maxMessages);
      |t| >= 1 && t[|t| - 1] == u && forall i :: 0 <= i < |t| ==> HasRoleAndContent(t[i])
  {
    var full := h + [u];
    var t := Trim(full, maxMessages);
    assert t == full[|full| - |t|..];
    forall i | 0 <= i < |t| ensures HasRoleAndContent(t[i]) {
      var j := |full| - |t| + i;
      assert t[i] == full[j];
      if j < |h| { assert full[j] == h[j]; }
    }
  }

  lemma BaseFields(now: string, userQuery: string, steps: Dict)
    ensures DictGet(Base(now, userQuery, steps), "success") == Some(Bool(false))
  {
    DictGetAt(Base(now, userQuery, steps), 0);
  }

  /**
   * When the language model's call fails, the result says so, carries the
   * client's error response, and no assistant message is recorded.
   */
  lemma FailedCallAddsNoReply(h: seq<Dict>, maxMessages: int, prompt: string, model: string, chat: LlmClient.Chat,
                              execute: CubeExecutor, userQuery: string, now: string)
    requires OpenaiMessages(WithQuestion(h, maxMessages, userQuery, now), prompt).Success?
    requires var messages := OpenaiMessages(WithQuestion(h, maxMessages, userQuery, now), prompt).value;
      DictGet(LlmClient.Reply(model, chat, userQuery, messages, now), "success") == Some(Bool(false))
    ensures var (r, h') := Pipeline(h, maxMessages, prompt, model, chat, execute, userQuery, now);
      h' == WithQuestion(h, maxMessages, userQuery, now) &&
      DictGet(r, "success") == Some(Bool(false)) && DictGet(r, "error") == Some(Str(LlmFailed))
  {
    var h1 := WithQuestion(h, maxMessages, userQuery, now);
    var messages := OpenaiMessages(h1, prompt).value;
    var reply := LlmClient.Reply(model, chat, userQuery, messages, now);
    var steps := StepsUpTo3(|messages|, reply);
    assert Pipeline(h, maxMessages, prompt, model, chat, execute, userQuery, now) ==
      AfterReply(h1, maxMessages, steps, reply, execute, userQuery, now);
    FailedReplyReported(h1, maxMessages, steps, reply, execute, userQuery, now);
  }

  /** A reply whose success flag is False is reported as "LLM processing failed" and records nothing. */
  lemma FailedReplyReported(h1: seq<Dict>, maxMessages: int, steps: Dict, reply: Dict, execute: CubeExecutor,
                            userQuery: string, now: string)
    requires DictGet(reply, "success") == Some(Bool(false))
    ensures var (r, h') := AfterReply(h1, maxMessages, steps, reply, execute, userQuery, now);
      h' == h1 && DictGet(r, "success") == Some(Bool(false)) && DictGet(r, "error") == Some(Str(LlmFailed))
  {
    var base := Base(now, userQuery, steps);
    var details := GetOr(reply, "response", Obj([]));
    assert AfterReply(h1, maxMessages, steps, reply, execute, userQuery, now) ==
      (Update(base, [("error", Str(LlmFailed)), ("details", details)]), h1);
    BaseFields(now, userQuery, steps);
    FailureUpdate(base, details);
  }

  /** Marking a failed result with the LLM error keeps it failed. */
  lemma FailureUpdate(base: Dict, details: Value)
    requires DictGet(base, "success") == Some(Bool(false))
    ensures var r := Update(base, [("error", Str(LlmFailed)), ("details", details)]);
      DictGet(r, "success") == Some(Bool(false)) && DictGet(r, "error") == Some(Str(LlmFailed))
  {
    var u := [("error", Str(LlmFailed)), ("details", details)];
    assert u[0].0 != u[1].0;
    assert !HasKey(u, "success") by {
      assert u[0].0 != "success" && u[1].0 != "success";
    }
    UpdateGet(base, u, "success");
    UpdateGetAt(base, u, 0);
  }

  /** A successful call records exactly one assistant message, built from the model's response. */
  lemma SuccessfulCallAddsOneReply(h: seq<Dict>, maxMessages: int, prompt: string, model: string, chat: LlmClient.Chat,
                                   execute: CubeExecutor, userQuery: string, now: string, response: Dict)
    requires OpenaiMessages(WithQuestion(h, maxMessages, userQuery, now), prompt).Success?
    requires var messages := OpenaiMessages(WithQuestion(h, maxMessages, userQuery, now), prompt).value;
      var reply := LlmClient.Reply(model, chat, userQuery, messages, now);
      DictGet(reply, "success") == Some(Bool(true)) && DictGet(reply, "response") == Some(Obj(response))
    ensures Pipeline(h, maxMessages, prompt, model, chat, execute, userQuery, now).1 ==
      Trim(WithQuestion(h, maxMessages, userQuery, now) + [AssistantMessage(response, now)], maxMessages)
    ensures var messages := OpenaiMessages(WithQuestion(h, maxMessages, userQuery, now), prompt).value;
      var reply := LlmClient.Reply(model, chat, userQuery, messages, now);
      Pipeline(h, maxMessages, prompt, model, chat, execute, userQuery, now).0 ==
      Dispatch(StepsUpTo3(|messages|, reply), response, execute, userQuery, now)
  {
    var h1 := WithQuestion(h, maxMessages, userQuery, now);
    var messages := OpenaiMessages(h1, prompt).value;
    var reply := LlmClient.Reply(model, chat, userQuery, messages, now);
    var steps := StepsUpTo3(|messages|, reply);
    assert Pipeline(h, maxMessages, prompt, model, chat, execute, userQuery, now) ==
      AfterReply(h1, maxMessages, steps, reply, execute, userQuery, now);
    SuccessfulReplyDispatched(h1, maxMessages, steps, reply, execute, userQuery, now, response);
  }

  /** A reply whose success flag is True and whose response is a dictionary is dispatched and recorded. */
  lemma SuccessfulReplyDispatched(h1: seq<Dict>, maxMessages: int, steps: Dict, reply: Dict, execute: CubeExecutor,
                                  userQuery: string, now: string, response: Dict)
    requires DictGet(reply, "success") == Some(Bool(true)) && DictGet(reply, "response") == Some(Obj(response))
    ensures AfterReply(h1, maxMessages, steps, reply, execute, userQuery, now) ==
      (Dispatch(steps, response, execute, userQuery, now), Trim(h1 + [AssistantMessage(response, now)], maxMessages))
  {
  }

  /** The keys a dispatch result is read by. */
  predicate Reports(r: Dict, success: bool, responseType: string) {
    DictGet(r, "success") == Some(Bool(success)) && DictGet(r, "response_type") == Some(Str(responseType))
  }

  lemma UpdateReports(result: Dict, u: Dict, success: bool, responseType: string)
    requires DistinctKeys(u) && |u| >= 2
    requires u[0] == ("success", Bool(success)) && u[1] == ("response_type", Str(responseType))
    ensures Reports(Update(result, u), success, responseType)
  {
    UpdateGet(result, u, "success");
    UpdateGet(result, u, "response_type");
    DictGetAt(u, 0);
    DictGetAt(u, 1);
  }

  lemma ClarificationKeys(llmResponse: Dict)
    ensures DistinctKeys(Clarification(llmResponse))
  {
    var u := Clarification(llmResponse);
    assert u[0].0 == "success" && u[1].0 == "response_type" && u[2].0 == "llm_response";
    assert u[3].0 == "clarification_questions" && u[4].0 == "suggestions";
  }

  lemma LlmErrorKeys(llmResponse: Dict)
    ensures DistinctKeys(LlmError(llmResponse))
  {
    var u := LlmError(llmResponse);
    assert u[0].0 == "success" && u[1].0 == "response_type" && u[2].0 == "error" && u[3].0 == "llm_response";
  }

  lemma UnknownKeys(llmResponse: Dict)
    ensures DistinctKeys(Unknown(llmResponse))
  {
    var u := Unknown(llmResponse);
    assert u[0].0 == "success" && u[1].0 == "response_type" && u[2].0 == "error" && u[3].0 == "llm_response";
  }

  /** A clarification succeeds without running anything. */
  lemma DispatchClarification(steps: Dict, llmResponse: Dict, execute: CubeExecutor, userQuery: string, now: string)
    requires DictGet(llmResponse, "response_type") == Some(Str("clarification_needed"))
    ensures Reports(Dispatch(steps, llmResponse, execute, userQuery, now), true, "clarification")
  {
    var base := Base(now, userQuery, steps);
    var u := Clarification(llmResponse);
    ClarificationKeys(llmResponse);
    assert Dispatch(steps, llmResponse, execute, userQuery, now) == Update(base, u);
    UpdateReports(base, u, true, "clarification");
  }

  /** An error reported by the model is an llm_error. */
  lemma DispatchLlmError(steps: Dict, llmResponse: Dict, execute: CubeExecutor, userQuery: string, now: string)
    requires DictGet(llmResponse, "response_type") == Some(Str("error"))
    ensures Reports(Dispatch(steps, llmResponse, execute, userQuery, now), false, "llm_error")
  {
    var base := Base(now, userQuery, steps);
    var u := LlmError(llmResponse);
    LlmErrorKeys(llmResponse);
    assert Dispatch(steps, llmResponse, execute, userQuery, now) == Update(base, u);
    UpdateReports(base, u, false, "llm_error");
  }

  /** Any other response type, a missing one included, is unknown and named in the error. */
  lemma DispatchUnknown(steps: Dict, llmResponse: Dict, execute: CubeExecutor, userQuery: string, now: string)
    requires DictGet(llmResponse, "response_type") !in {Some(Str("cube_query")), Some(Str("clarification_needed")), Some(Str("error"))}
    ensures var r := Dispatch(steps, llmResponse, execute, userQuery, now);
      Reports(r, false, "unknown") &&
      DictGet(r, "error") == Some(Str("Unknown response type: " + PyStr(GetOr(llmResponse, "response_type", Null))))
  {
    var base := Base(now, userQuery, steps);
    var u := Unknown(llmResponse);
    UnknownKeys(llmResponse);
    assert Dispatch(steps, llmResponse, execute, userQuery, now) == Update(base, u);
    UpdateReports(base, u, false, "unknown");
    UpdateGet(base, u, "error");
    DictGetAt(u, 2);
  }

  /** An executed Cube query succeeds as data_result exactly when the Cube result says success. */
  lemma DispatchCubeQuery(steps: Dict, llmResponse: Dict, execute: CubeExecutor, userQuery: string, now: string, c: Dict)
    requires DictGet(llmResponse, "response_type") == Some(Str("cube_query"))
    requires execute(GetOr(llmResponse, "cube_query", Null), userQuery) == Success(c)
    requires HasKey(c, "success") && MissingDataKey(c).None?
    ensures var r := Dispatch(steps, llmResponse, execute, userQuery, now);
      if Truthy(GetOr(c, "success", Null)) then Reports(r, true, "data_result") else Reports(r, false, "cube_error")
  {
    var base := Base(now, userQuery, steps + [("cube_execution", Obj(c))]);
    assert Dispatch(steps, llmResponse, execute, userQuery, now) == CubeOutcome(base, llmResponse, c);
    CubeOutcomeReports(base, llmResponse, c);
  }

  lemma CubeOutcomeReports(result: Dict, llmResponse: Dict, c: Dict)
    requires HasKey(c, "success") && MissingDataKey(c).None?
    ensures var r := CubeOutcome(result, llmResponse, c);
      if Truthy(GetOr(c, "success", Null)) then Reports(r, true, "data_result") else Reports(r, false, "cube_error")
  {
    if Truthy(GetOr(c, "success", Null)) {
      var u := DataResult(llmResponse, c);
      assert DistinctKeys(u);
      UpdateReports(result, u, true, "data_result");
    } else {
      var u := CubeError(llmResponse, c);
      assert DistinctKeys(u);
      UpdateReports(result, u, false, "cube_error");
    }
  }

  /** The client's error envelope has no response_type, so its dispatch is "unknown" with the type printed as None. */
  lemma EnvelopeIsUnknown(steps: Dict, message: string, execute: CubeExecutor, userQuery: string, now: string)
    ensures var r := Dispatch(steps, LlmClient.ErrorResponse(message, userQuery, now), execute, userQuery, now);
      Reports(r, false, "unknown") && DictGet(r, "error") == Some(Str("Unknown response type: None"))
  {
    var envelope := LlmClient.ErrorResponse(message, userQuery, now);
    assert GetOr(envelope, "response_type", Null) == Null;
    assert PyStr(Null) == "None";
    assert "Unknown response type: " + "None" == "Unknown response type: None";
    DispatchUnknown(steps, envelope, execute, userQuery, now);
  }

  /**
   * An answer the client normalises into its error envelope reaches the
   * dispatch as a successful call without a response_type, so the query
   * ends as "unknown" with the type printed as None.
   */
  lemma RejectedAnswerEndsUnknown(h: seq<Dict>, maxMessages: int, prompt: string, model: string, chat: LlmClient.Chat,
                                  execute: CubeExecutor, userQuery: string, now: string, d: Dict, usage: LlmClient.Usage)
    requires SentToModel(h, maxMessages, prompt, userQuery, now).Success?
    requires LlmClient.Call(chat, SentToModel(h, maxMessages, prompt, userQuery, now).value) == LlmClient.Replied(LlmClient.Parsed(Obj(d)), usage)
    requires !LlmClient.KnownType(LlmClient.TypeOf(d))
    ensures var r := Pipeline(h, maxMessages, prompt, model, chat, execute, userQuery, now).0;
      Reports(r, false, "unknown") && DictGet(r, "error") == Some(Str("Unknown response type: None"))
  {
    var messages := OpenaiMessages(WithQuestion(h, maxMessages, userQuery, now), prompt).value;
    var message := "Unknown response type: " + PyStr(LlmClient.TypeOf(d));
    var envelope := LlmClient.ErrorResponse(message, userQuery, now);
    var reply := LlmClient.Reply(model, chat, userQuery, messages, now);
    LlmClient.RejectedAnswerLooksSuccessful(model, chat, userQuery, messages, now, d, usage);
    SuccessfulCallAddsOneReply(h, maxMessages, prompt, model, chat, execute, userQuery, now, envelope);
    EnvelopeIsUnknown(StepsUpTo3(|messages|, reply), message, execute, userQuery, now);
  }

  // ---------------------------------------------------------------------
  // The orchestrator object
  // ---------------------------------------------------------------------

  class QueryOrchestrator {
    const conversation: ConversationManager
    const llm: LlmClient.Client
    const execute: CubeExecutor
    const cacheDir: string
    const systemPromptCacheFile: string
    const systemPromptMetadataFile: string
    var isInitialized: bool
    var systemPrompt: Option<string>
    var initializationErrors: seq<string>

    /** An initialised orchestrator always has a system prompt. */
    predicate Valid()
      reads this
    {
      isInitialized ==> systemPrompt.Some?
    }

    /** `cacheDir` is the CACHE_DIR environment variable, when it is set. */
    constructor (llm: LlmClient.Client, execute: CubeExecutor, maxConversationMessages: int, cacheDir: Option<string>)
      ensures fresh(conversation) && conversation.history == [] && conversation.maxMessages == maxConversationMessages
      ensures this.llm == llm && this.execute == execute
      ensures this.cacheDir == (if cacheDir.Some? then cacheDir.value else DefaultCacheDir)
      ensures systemPromptCacheFile == PathJoin(this.cacheDir, "system_prompt.txt")
      ensures systemPromptMetadataFile == PathJoin(this.cacheDir, "system_prompt_metadata.json")
      ensures !isInitialized && systemPrompt == None && initializationErrors == [] && Valid()
    {
      conversation := new ConversationManager(maxConversationMessages);
      this.llm := llm;
      this.execute := execute;
      var directory := if cacheDir.Some? then cacheDir.value else DefaultCacheDir;
      this.cacheDir := directory;
      systemPromptCacheFile := PathJoin(directory, "system_prompt.txt");
      systemPromptMetadataFile := PathJoin(directory, "system_prompt_metadata.json");
      isInitialized := false;
      systemPrompt := None;
      initializationErrors := [];
    }

    /**
     * initialize() given what the Cube client's initialize() returned (or
     * raised), whether the key validated, what the cache held and what the
     * prompt generator produced (or raised).
     */
    method Initialize(cubeInit: Result<Dict>, llmValid: bool, cache: CacheLoad, generated: Result<string>) returns (r: InitReport)
      requires Valid()
      modifies this
      ensures var o := InitSpec(old(systemPrompt), cubeInit, llmValid, cache, generated);
        r == o.report && systemPrompt == o.prompt &&
        if o.settled then isInitialized == r.success && initializationErrors == r.errors
        else isInitialized == old(isInitialized) && initializationErrors == old(initializationErrors)
      ensures Valid()
    {
      if cubeInit.Failure? {
        return InitReport(false, [UnexpectedInitPrefix + cubeInit.error], None);
      }
      var check := CheckCube(cubeInit.value);
      if check.Failure? {
        return InitReport(false, [UnexpectedInitPrefix + check.error], None);
      }
      var cubeReady := check.value.None?;
      var errors := ReadinessErrors(check.value, llmValid);
      var step := ChoosePrompt(systemPrompt, cache, generated);
      systemPrompt := step.prompt;
      errors := errors + step.errors;
      isInitialized := cubeReady && llmValid && systemPrompt.Some?;
      initializationErrors := errors;
      r := InitReport(isInitialized, errors, step.source);
    }

    /** Step 5 of process_query, run against the Cube executor. */
    method Respond(steps: Dict, llmResponse: Dict, userQuery: string, now: string) returns (r: Dict)
      ensures r == Dispatch(steps, llmResponse, execute, userQuery, now)
    {
      var kind := DictGet(llmResponse, "response_type");
      var result := Base(now, userQuery, steps);
      if kind == Some(Str("cube_query")) {
        var executed := execute(GetOr(llmResponse, "cube_query", Null), userQuery);
        if executed.Failure? {
          return Crash(result, executed.error);
        }
        var c := executed.value;
        result := Base(now, userQuery, steps + [("cube_execution", Obj(c))]);
        if !HasKey(c, "success") {
          return Crash(result, KeyErrorText("success"));
        }
        if Truthy(GetOr(c, "success", Null)) {
          var missing := MissingDataKey(c);
          if missing.Some? {
            return Crash(result, KeyErrorText(missing.value));
          }
          result := Update(result, DataResult(llmResponse, c));
        } else {
          result := Update(result, CubeError(llmResponse, c));
        }
      } else if kind == Some(Str("clarification_needed")) {
        result := Update(result, Clarification(llmResponse));
      } else if kind == Some(Str("error")) {
        result := Update(result, LlmError(llmResponse));
      } else {
        result := Update(result, Unknown(llmResponse));
      }
      r := result;
    }

    /** process_query: refused before initialisation, otherwise the pipeline. */
    method ProcessQuery(userQuery: string, now: string) returns (r: Dict)
      requires Valid()
      modifies conversation
      ensures conversation.maxMessages == old(conversation.maxMessages)
      ensures !isInitialized ==> r == NotInitialized(initializationErrors) && conversation.history == old(conversation.history)
      ensures isInitialized ==>
        (r, conversation.history) ==
        Pipeline(old(conversation.history), conversation.maxMessages, systemPrompt.value, llm.model, llm.chat, execute, userQuery, now)
    {
      if !isInitialized {
        return NotInitialized(initializationErrors);
      }
      var prompt := systemPrompt.value;
      var steps: Dict := [("conversation_updated", Bool(true))];
      conversation.AddUserMessage(userQuery, now);
      var messages := conversation.GetOpenaiMessages(prompt);
      if messages.Failure? {
        return Crash(Base(now, userQuery, steps), messages.error);
      }
      steps := steps + [("conversation_prepared", Obj([("message_count", Int(|messages.value|))]))];
      var reply := llm.ProcessQuery(userQuery, prompt, messages.value, now);
      steps := steps + [("llm_processing", Obj(reply))];
      assert steps == StepsUpTo3(|messages.value|, reply);
      var ok := DictGet(reply, "success");
      if ok.None? {
        return Crash(Base(now, userQuery, steps), KeyErrorText("success"));
      }
      if !Truthy(ok.value) {
        return Update(Base(now, userQuery, steps), [("error", Str(LlmFailed)), ("details", GetOr(reply, "response", Obj([])))]);
      }
      var response := DictGet(reply, "response");
      if response.None? {
        return Crash(Base(now, userQuery, steps), KeyErrorText("response"));
      }
      if !response.value.Obj? {
        return Crash(Base(now, userQuery, steps), NoAttribute(response.value, "get"));
      }
      conversation.AddAssistantMessage(response.value.fields, now);
      r := Respond(steps, response.value.fields, userQuery, now);
    }

    method GetConversationHistory() returns (r: seq<Dict>)
      ensures r == conversation.history
    {
      r := conversation.ExportConversation();
    }

    method ClearConversation()
      modifies conversation
      ensures conversation.history == [] && conversation.maxMessages == old(conversation.maxMessages)
    {
      conversation.ClearConversation();
    }
  }
}
