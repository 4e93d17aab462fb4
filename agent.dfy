/*
 * QueryAmbiguityAssessor: the state machine that assesses a query, asks for
 * clarification, takes the answer, confirms the interpretation, handles a
 * rejection and constructs the Cube query.
 *
 * The language model is an oracle.  A run is asked with the state's prompt,
 * BuildStatePrompt of a PromptRequest; the oracle is given the request the
 * text is built from, so it may answer any function of the text.  It answers
 * with the tool calls it made, in order, and then either the structured
 * output or the exception that ended the run.  The tools that
 * write the query context (update, clear) take effect on the shared context
 * during the run, before the output is seen; the others only read.
 *
 * Each method is proved against a function of the session (messages and query
 * context) before the call; those functions are what the lemmas talk about.
 */
module Agent {
  import opened Common
  import opened Json
  import opened AgentSchemas
  import opened Prompts
  import ContextTools

  // ---------------------------------------------------------------------
  // The model as an oracle
  // ---------------------------------------------------------------------

  datatype ToolCall =
    | GetAvailableMeasures
    | GetAvailableDimensions
    | GetTimeDimensions
    | ValidateMeasure(measureName: string)
    | ValidateDimension(dimensionName: string)
    | UpdateContext(key: string, value: Value)
    | GetContext
    | ClearContext

  datatype Run<T> = Run(tools: seq<ToolCall>, outcome: Result<T>)

  /** What build_state_prompt is called with. */
  datatype PromptRequest = PromptRequest(state: AgentState, md: CubeMetadata, queryContext: Dict, args: PromptArgs)

  /** The text the model is sent for a request. */
  function PromptText(req: PromptRequest): (r: string)
    ensures HasTemplate(req.state) ==> StartsWith(r, Header(req.state))
  {
    BuildStatePrompt(req.state, req.md, req.queryContext, req.args)
  }

  /** One answer per output type, as a function of the prompt. */
  datatype Model = Model(
    assess: PromptRequest -> Run<QueryAssessmentOutput>,
    clarify: PromptRequest -> Run<ClarificationRequestOutput>,
    receive: PromptRequest -> Run<ReceiveClarificationOutput>,
    confirm: PromptRequest -> Run<QueryConfirmationOutput>,
    reject: PromptRequest -> Run<QueryRejectionOutput>,
    construct: PromptRequest -> Run<ApiCallConstructionOutput>)

  /** The effect of one tool call on the query context. */
  function ApplyTool(queryContext: Dict, t: ToolCall): Dict {
    match t
    case UpdateContext(k, v) => DictSet(queryContext, k, v)
    case ClearContext => []
    case _ => queryContext
  }

  function ApplyTools(queryContext: Dict, ts: seq<ToolCall>): Dict {
    if ts == [] then queryContext else ApplyTool(ApplyTools(queryContext, ts[..|ts| - 1]), ts[|ts| - 1])
  }

  predicate Writes(t: ToolCall) {
    t.UpdateContext?
  }

  /** Without an update call, a context that starts empty stays empty. */
  lemma {:induction false} NoUpdateKeepsEmpty(ts: seq<ToolCall>)
    requires forall i :: 0 <= i < |ts| ==> !Writes(ts[i])
    ensures ApplyTools([], ts) == []
  {
    if ts != [] {
      NoUpdateKeepsEmpty(ts[..|ts| - 1]);
    }
  }

  /** After a clear call, what came before it no longer matters. */
  lemma {:induction false} ClearForgets(d1: Dict, d2: Dict, ts: seq<ToolCall>, i: int)
    requires 0 <= i < |ts| && ts[i].ClearContext?
    ensures ApplyTools(d1, ts) == ApplyTools(d2, ts)
  {
    if i < |ts| - 1 {
      ClearForgets(d1, d2, ts[..|ts| - 1], i);
    }
  }

  // ---------------------------------------------------------------------
  // Sessions and responses
  // ---------------------------------------------------------------------

  datatype Session = Session(messages: seq<StrMap>, queryContext: Dict)

  datatype Outcome = Outcome(response: AgentResponse, session: Session)

  /** The response every method gives when its run raises. */
  function Failed(error: string): AgentResponse {
    AgentResponse(false, Error, ErrorType, [], Some(error))
  }

  /** The state that goes with each successful response type. */
  const SuccessPairs: seq<(AgentState, ResponseType)> :=
    [(ClarificationRequest, Clarification), (QueryConfirmation, Confirmation),
     (QueryRejectionHandler, Rejection), (ApiCallConstruction, CubeQuery)]

  /**
   * A successful response pairs its state and type as above and has no error;
   * a failed one is in state ERROR, of type "error", with empty data and an error.
   */
  predicate WellFormed(r: AgentResponse) {
    if r.success then r.error.None? && (r.state, r.responseType) in SuccessPairs
    else r.state == Error && r.responseType == ErrorType && r.data == [] && r.error.Some?
  }

  /** The outcome of a run on the query context, and the session without its new messages. */
  function AfterRun<T>(s: Session, run: Run<T>): Session {
    Session(s.messages, ApplyTools(s.queryContext, run.tools))
  }

  function Say(s: Session, content: string, now: string): Session {
    Session(s.messages + [ChatMessage("assistant", content, now)], s.queryContext)
  }

  function NoArgs(): PromptArgs {
    PromptArgs(None, None, None, None, None, None)
  }

  // ---------------------------------------------------------------------
  // The states, as functions of the session
  // ---------------------------------------------------------------------

  /** request_clarification */
  function ClarifySpec(llm: Model, aspects: seq<string>, userQuery: string, md: CubeMetadata, s: Session, now: string): (o: Outcome)
    ensures WellFormed(o.response)
    ensures o.response.success ==> o.response.state == ClarificationRequest
    ensures s.messages <= o.session.messages
  {
    var run := llm.clarify(PromptRequest(ClarificationRequest, md, s.queryContext,
      NoArgs().(userQuery := Some(userQuery), ambiguousAspects := Some(aspects))));
    var s1 := AfterRun(s, run);
    match run.outcome
    case Failure(e) => Outcome(Failed("Failed to request clarification: " + e), s1)
    case Success(c) =>
      Outcome(AgentResponse(true, ClarificationRequest, Clarification,
        [("clarification_question", Str(c.clarificationQuestion)), ("ambiguous_aspect", Str(c.ambiguousAspect)),
         ("suggestions", List(Strs(c.suggestions)))], None),
        Say(s1, c.clarificationQuestion, now))
  }

  /** confirm_query */
  function ConfirmSpec(llm: Model, originalQuery: string, md: CubeMetadata, s: Session, now: string): (o: Outcome)
    ensures WellFormed(o.response)
    ensures o.response.success ==> o.response.state == QueryConfirmation
    ensures s.messages <= o.session.messages
  {
    var run := llm.confirm(PromptRequest(QueryConfirmation, md, s.queryContext,
      NoArgs().(originalQuery := Some(originalQuery))));
    var s1 := AfterRun(s, run);
    match run.outcome
    case Failure(e) => Outcome(Failed("Failed to confirm query: " + e), s1)
    case Success(c) =>
      Outcome(AgentResponse(true, QueryConfirmation, Confirmation,
        [("confirmation_message", Str(c.confirmationMessage)),
         ("interpreted_parameters", Obj(c.interpretedParameters))], None),
        Say(s1, c.confirmationMessage, now))
  }

  /** The two messages assess_query adds before it routes. */
  function Assessed(s: Session, userQuery: string, reasoning: string, now: string): seq<StrMap> {
    s.messages + [ChatMessage("user", userQuery, now), ChatMessage("assistant", "Assessment: " + reasoning, now)]
  }

  /**
   * assess_query: record the query, ask the model, record its reasoning, then
   * go to clarification or confirmation as the model's next state says.
   */
  function AssessSpec(llm: Model, userQuery: string, md: CubeMetadata, s: Session, now: string): (o: Outcome)
    ensures WellFormed(o.response)
    ensures o.response.success ==> o.response.state in {ClarificationRequest, QueryConfirmation}
    ensures s.messages + [ChatMessage("user", userQuery, now)] <= o.session.messages
  {
    var s0 := Session(s.messages + [ChatMessage("user", userQuery, now)], s.queryContext);
    var run := llm.assess(PromptRequest(QueryAssessment, md, s0.queryContext,
      NoArgs().(userQuery := Some(userQuery))));
    var s1 := AfterRun(s0, run);
    match run.outcome
    case Failure(e) => Outcome(Failed("Failed to assess query: " + e), s1)
    case Success(a) =>
      var s2 := Say(s1, "Assessment: " + a.reasoning, now);
      if a.state == ClarificationRequest then
        ClarifySpec(llm, AmbiguousAspects(a.ambiguityFlags), userQuery, md, s2, now)
      else if a.state == QueryConfirmation then
        ConfirmSpec(llm, userQuery, md, s2, now)
      else
        Outcome(Failed("Unexpected state transition: " + StateText(a.state)), s2)
  }

  /** The extracted information written into the context, key by key in order. */
  function MergeInfo(queryContext: Dict, info: Dict): Dict {
    if info == [] then queryContext
    else DictSet(MergeInfo(queryContext, info[..|info| - 1]), info[|info| - 1].0, info[|info| - 1].1)
  }

  /** receive_clarification */
  function ReceiveSpec(llm: Model, userResponse: string, aspect: string, originalQuery: string, md: CubeMetadata,
                       s: Session, now: string): (o: Outcome)
    ensures WellFormed(o.response)
    ensures o.response.success ==> o.response.state in {ClarificationRequest, QueryConfirmation}
    ensures s.messages + [ChatMessage("user", userResponse, now)] <= o.session.messages
  {
    var s0 := Session(s.messages + [ChatMessage("user", userResponse, now)], s.queryContext);
    var run := llm.receive(PromptRequest(ReceiveClarification, md, s0.queryContext,
      NoArgs().(userResponse := Some(userResponse), ambiguousAspect := Some(aspect), originalQuery := Some(originalQuery))));
    var s1 := AfterRun(s0, run);
    match run.outcome
    case Failure(e) => Outcome(Failed("Failed to process clarification: " + e), s1)
    case Success(c) =>
      var s2 := Say(Session(s1.messages, MergeInfo(s1.queryContext, c.extractedInfo)), c.reasoning, now);
      if c.state == QueryAssessment then
        AssessSpec(llm, originalQuery, md, s2, now)
      else if c.state == QueryConfirmation then
        ConfirmSpec(llm, originalQuery, md, s2, now)
      else
        Outcome(Failed("Unexpected state: " + StateText(c.state)), s2)
  }

  /** The metadata handle_rejection runs with: an empty view. */
  const NoMetadata: CubeMetadata := CubeMetadata("", [], [])

  /** handle_rejection: the context is emptied before anything else happens. */
  function RejectSpec(llm: Model, originalQuery: string, s: Session, now: string): (o: Outcome)
    ensures WellFormed(o.response)
    ensures o.response.success ==> o.response.state == QueryRejectionHandler
    ensures s.messages <= o.session.messages
  {
    var s0 := Session(s.messages, []);
    var run := llm.reject(PromptRequest(QueryRejectionHandler, NoMetadata, [],
      NoArgs().(originalQuery := Some(originalQuery))));
    var s1 := AfterRun(s0, run);
    match run.outcome
    case Failure(e) => Outcome(Failed("Failed to handle rejection: " + e), s1)
    case Success(r) =>
      Outcome(AgentResponse(true, QueryRejectionHandler, Rejection,
        [("rephrasing_prompt", Str(r.rephrasingPrompt))], None),
        Say(s1, r.rephrasingPrompt, now))
  }

  /** construct_api_call */
  function ConstructSpec(llm: Model, confirmedParameters: Dict, originalQuery: string, md: CubeMetadata,
                         s: Session, now: string): (o: Outcome)
    ensures WellFormed(o.response)
    ensures o.response.success ==> o.response.state == ApiCallConstruction
    ensures s.messages <= o.session.messages
  {
    var run := llm.construct(PromptRequest(ApiCallConstruction, md, s.queryContext,
      NoArgs().(confirmedParameters := Some(confirmedParameters), originalQuery := Some(originalQuery))));
    var s1 := AfterRun(s, run);
    match run.outcome
    case Failure(e) => Outcome(Failed("Failed to construct API call: " + e), s1)
    case Success(a) =>
      Outcome(AgentResponse(true, ApiCallConstruction, CubeQuery,
        [("cube_query", Obj(ModelDump(a.cubeQuery))), ("query_description", Str(a.queryDescription)),
         ("reasoning", Str(a.reasoning))], None),
        Say(s1, "Constructed query: " + a.queryDescription, now))
  }

  // ---------------------------------------------------------------------
  // Properties of the states
  // ---------------------------------------------------------------------

  /**
   * After a successful assessment run the session holds the user's query and
   * then "Assessment: <reasoning>", before anything the next state adds; a
   * next state other than clarification or confirmation is an error.
   */
  lemma AssessRecordsBeforeRouting(llm: Model, userQuery: string, md: CubeMetadata, s: Session, now: string)
    ensures var run := llm.assess(PromptRequest(QueryAssessment, md, s.queryContext, NoArgs().(userQuery := Some(userQuery))));
      var o := AssessSpec(llm, userQuery, md, s, now);
      run.outcome.Success? ==>
        Assessed(s, userQuery, run.outcome.value.reasoning, now) <= o.session.messages &&
        (run.outcome.value.state !in {ClarificationRequest, QueryConfirmation} ==>
           o.response == Failed("Unexpected state transition: " + StateText(run.outcome.value.state)))
  {
  }

  /** The clarification asked about is the first ambiguous aspect the assessment flagged. */
  lemma AssessAsksAboutFirstAspect(llm: Model, userQuery: string, md: CubeMetadata, s: Session, now: string)
    ensures var run := llm.assess(PromptRequest(QueryAssessment, md, s.queryContext, NoArgs().(userQuery := Some(userQuery))));
      var s0 := Session(s.messages + [ChatMessage("user", userQuery, now)], s.queryContext);
      var s2 := Say(AfterRun(s0, run), "Assessment: " + (if run.outcome.Success? then run.outcome.value.reasoning else ""), now);
      run.outcome.Success? && run.outcome.value.state == ClarificationRequest ==>
        AssessSpec(llm, userQuery, md, s, now) ==
          ClarifySpec(llm, AmbiguousAspects(run.outcome.value.ambiguityFlags), userQuery, md, s2, now)
  {
  }

  /** A key the extracted information does not mention keeps the value it had in the context. */
  lemma {:induction false} MergeInfoKeepsOthers(queryContext: Dict, info: Dict, k: string)
    requires forall i :: 0 <= i < |info| ==> info[i].0 != k
    ensures DictGet(MergeInfo(queryContext, info), k) == DictGet(queryContext, k)
  {
    if info != [] {
      var n := |info| - 1;
      MergeInfoKeepsOthers(queryContext, info[..n], k);
      DictSetGetOther(MergeInfo(queryContext, info[..n]), info[n].0, info[n].1, k);
    }
  }

  /** The last binding of a key in the extracted information is the one the context holds. */
  lemma {:induction false} MergeInfoBindsAt(queryContext: Dict, info: Dict, i: int)
    requires 0 <= i < |info|
    requires forall j :: i < j < |info| ==> info[j].0 != info[i].0
    ensures DictGet(MergeInfo(queryContext, info), info[i].0) == Some(info[i].1)
  {
    var n := |info| - 1;
    var m := MergeInfo(queryContext, info[..n]);
    if i == n {
      DictSetGetSame(m, info[n].0, info[n].1);
    } else {
      assert info[..n][i] == info[i];
      MergeInfoBindsAt(queryContext, info[..n], i);
      DictSetGetOther(m, info[n].0, info[n].1, info[i].0);
    }
  }

  /** MergeInfo binds every key of the extracted information and leaves the others alone. */
  lemma MergeInfoBinds(queryContext: Dict, info: Dict)
    requires DistinctKeys(info)
    ensures forall i :: 0 <= i < |info| ==> DictGet(MergeInfo(queryContext, info), info[i].0) == Some(info[i].1)
    ensures forall k :: !HasKey(info, k) ==> DictGet(MergeInfo(queryContext, info), k) == DictGet(queryContext, k)
  {
    forall i | 0 <= i < |info| ensures DictGet(MergeInfo(queryContext, info), info[i].0) == Some(info[i].1) {
      MergeInfoBindsAt(queryContext, info, i);
    }
    forall k | !HasKey(info, k) ensures DictGet(MergeInfo(queryContext, info), k) == DictGet(queryContext, k) {
      MergeInfoKeepsOthers(queryContext, info, k);
    }
  }

  /**
   * After a clarification the model said to confirm, the context the
   * confirmation prompt sees holds every extracted key with its value.
   */
  lemma ReceiveWritesEveryKey(llm: Model, userResponse: string, aspect: string, originalQuery: string, md: CubeMetadata,
                              s: Session, now: string)
    ensures var s0 := Session(s.messages + [ChatMessage("user", userResponse, now)], s.queryContext);
      var run := llm.receive(PromptRequest(ReceiveClarification, md, s0.queryContext,
        NoArgs().(userResponse := Some(userResponse), ambiguousAspect := Some(aspect), originalQuery := Some(originalQuery))));
      run.outcome.Success? && DistinctKeys(run.outcome.value.extractedInfo) ==>
        var info := run.outcome.value.extractedInfo;
        var written := MergeInfo(ApplyTools(s.queryContext, run.tools), info);
        (forall i :: 0 <= i < |info| ==> DictGet(written, info[i].0) == Some(info[i].1)) &&
        (run.outcome.value.state == QueryConfirmation ==>
          ReceiveSpec(llm, userResponse, aspect, originalQuery, md, s, now) ==
            ConfirmSpec(llm, originalQuery, md,
              Session(s0.messages + [ChatMessage("assistant", run.outcome.value.reasoning, now)], written), now))
  {
    var s0 := Session(s.messages + [ChatMessage("user", userResponse, now)], s.queryContext);
    var run := llm.receive(PromptRequest(ReceiveClarification, md, s0.queryContext,
      NoArgs().(userResponse := Some(userResponse), ambiguousAspect := Some(aspect), originalQuery := Some(originalQuery))));
    if run.outcome.Success? && DistinctKeys(run.outcome.value.extractedInfo) {
      MergeInfoBinds(ApplyTools(s.queryContext, run.tools), run.outcome.value.extractedInfo);
    }
  }

  /**
   * handle_rejection forgets the old context: the resulting context and
   * response do not depend on it, and without an update call the context
   * ends empty, whether or not the run succeeded.
   */
  lemma RejectionForgetsContext(llm: Model, originalQuery: string, s: Session, qc: Dict, now: string)
    ensures RejectSpec(llm, originalQuery, s, now) ==
            RejectSpec(llm, originalQuery, Session(s.messages, qc), now)
    ensures var run := llm.reject(PromptRequest(QueryRejectionHandler, NoMetadata, [],
        NoArgs().(originalQuery := Some(originalQuery))));
      (forall i :: 0 <= i < |run.tools| ==> !Writes(run.tools[i])) ==>
        RejectSpec(llm, originalQuery, s, now).session.queryContext == []
  {
    var run := llm.reject(PromptRequest(QueryRejectionHandler, NoMetadata, [],
      NoArgs().(originalQuery := Some(originalQuery))));
    if forall i :: 0 <= i < |run.tools| ==> !Writes(run.tools[i]) {
      NoUpdateKeepsEmpty(run.tools);
    }
  }

  // ---------------------------------------------------------------------
  // The agent
  // ---------------------------------------------------------------------

  function SessionOf(ctx: ConversationContext): Session
    reads ctx
  {
    Session(ctx.messages, ctx.queryContext)
  }

  class QueryAmbiguityAssessor {
    const modelName: string
    const apiKey: Option<string>
    const baseSystemPrompt: string := BaseSystemPrompt
    const llm: Model
    var currentState: AgentState

    /** current_state starts at QUERY_ASSESSMENT; no method has this object in its modifies clause. */
    constructor (modelName: string, apiKey: Option<string>, llm: Model)
      ensures this.modelName == modelName && this.apiKey == apiKey && this.llm == llm
      ensures currentState == QueryAssessment
    {
      this.modelName := modelName;
      this.apiKey := apiKey;
      this.llm := llm;
      currentState := QueryAssessment;
    }

    /** The context-writing tool calls of one run, through the context tools. */
    static method RunTools(ctx: ConversationContext, tools: seq<ToolCall>)
      modifies ctx
      ensures ctx.queryContext == ApplyTools(old(ctx.queryContext), tools)
      ensures ctx.messages == old(ctx.messages)
    {
      var i := 0;
      while i < |tools|
        invariant 0 <= i <= |tools|
        invariant ctx.queryContext == ApplyTools(old(ctx.queryContext), tools[..i])
        invariant ctx.messages == old(ctx.messages)
      {
        assert tools[..i + 1][..i] == tools[..i];
        ghost var before := ctx.queryContext;
        match tools[i] {
          case UpdateContext(k, v) =>
            var report := ContextTools.UpdateQueryContext(ctx, k, v);
          case ClearContext =>
            var report := ContextTools.ClearQueryContext(ctx);
          case _ =>
        }
        assert ctx.queryContext == ApplyTool(before, tools[i]);
        i := i + 1;
      }
      assert tools[..i] == tools;
    }

    method RequestClarification(aspects: seq<string>, userQuery: string, md: CubeMetadata, ctx: ConversationContext, now: string)
      returns (r: AgentResponse)
      modifies ctx
      ensures Outcome(r, SessionOf(ctx)) == ClarifySpec(llm, aspects, userQuery, md, old(SessionOf(ctx)), now)
    {
      var prompt := PromptRequest(ClarificationRequest, md, ctx.queryContext,
        NoArgs().(userQuery := Some(userQuery), ambiguousAspects := Some(aspects)));
      var run := llm.clarify(prompt);
      RunTools(ctx, run.tools);
      if run.outcome.Failure? {
        return Failed("Failed to request clarification: " + run.outcome.error);
      }
      var c := run.outcome.value;
      ctx.AddMessage("assistant", c.clarificationQuestion, now);
      r := AgentResponse(true, ClarificationRequest, Clarification,
        [("clarification_question", Str(c.clarificationQuestion)), ("ambiguous_aspect", Str(c.ambiguousAspect)),
         ("suggestions", List(Strs(c.suggestions)))], None);
    }

    method ConfirmQuery(originalQuery: string, md: CubeMetadata, ctx: ConversationContext, now: string)
      returns (r: AgentResponse)
      modifies ctx
      ensures Outcome(r, SessionOf(ctx)) == ConfirmSpec(llm, originalQuery, md, old(SessionOf(ctx)), now)
    {
      var prompt := PromptRequest(QueryConfirmation, md, ctx.queryContext, NoArgs().(originalQuery := Some(originalQuery)));
      var run := llm.confirm(prompt);
      RunTools(ctx, run.tools);
      if run.outcome.Failure? {
        return Failed("Failed to confirm query: " + run.outcome.error);
      }
      var c := run.outcome.value;
      ctx.AddMessage("assistant", c.confirmationMessage, now);
      r := AgentResponse(true, QueryConfirmation, Confirmation,
        [("confirmation_message", Str(c.confirmationMessage)),
         ("interpreted_parameters", Obj(c.interpretedParameters))], None);
    }

    /** assess_query on a given context. */
    method Assess(userQuery: string, md: CubeMetadata, ctx: ConversationContext, now: string)
      returns (r: AgentResponse)
      modifies ctx
      ensures Outcome(r, SessionOf(ctx)) == AssessSpec(llm, userQuery, md, old(SessionOf(ctx)), now)
    {
      ctx.AddMessage("user", userQuery, now);
      var prompt := PromptRequest(QueryAssessment, md, ctx.queryContext, NoArgs().(userQuery := Some(userQuery)));
      var run := llm.assess(prompt);
      RunTools(ctx, run.tools);
      if run.outcome.Failure? {
        return Failed("Failed to assess query: " + run.outcome.error);
      }
      var a := run.outcome.value;
      ctx.AddMessage("assistant", "Assessment: " + a.reasoning, now);
      if a.state == ClarificationRequest {
        r := RequestClarification(AmbiguousAspects(a.ambiguityFlags), userQuery, md, ctx, now);
      } else if a.state == QueryConfirmation {
        r := ConfirmQuery(userQuery, md, ctx, now);
      } else {
        r := Failed("Unexpected state transition: " + StateText(a.state));
      }
    }

    /** assess_query: without a context, a fresh one for the session is used and then dropped. */
    method AssessQuery(userQuery: string, sessionId: string, md: CubeMetadata, ctx: ConversationContext?, now: string)
      returns (r: AgentResponse)
      modifies ctx
      ensures ctx != null ==> Outcome(r, SessionOf(ctx)) == AssessSpec(llm, userQuery, md, old(SessionOf(ctx)), now)
      ensures ctx == null ==> r == AssessSpec(llm, userQuery, md, Session([], []), now).response
    {
      if ctx == null {
        var created := new ConversationContext(sessionId);
        r := Assess(userQuery, md, created, now);
      } else {
        r := Assess(userQuery, md, ctx, now);
      }
    }

    method ReceiveClarification(userResponse: string, aspect: string, originalQuery: string, md: CubeMetadata,
                                ctx: ConversationContext, now: string)
      returns (r: AgentResponse)
      modifies ctx
      ensures Outcome(r, SessionOf(ctx)) == ReceiveSpec(llm, userResponse, aspect, originalQuery, md, old(SessionOf(ctx)), now)
    {
      ctx.AddMessage("user", userResponse, now);
      var prompt := PromptRequest(AgentState.ReceiveClarification, md, ctx.queryContext,
        NoArgs().(userResponse := Some(userResponse), ambiguousAspect := Some(aspect), originalQuery := Some(originalQuery)));
      var run := llm.receive(prompt);
      RunTools(ctx, run.tools);
      if run.outcome.Failure? {
        return Failed("Failed to process clarification: " + run.outcome.error);
      }
      var c := run.outcome.value;
      var info := c.extractedInfo;
      var i := 0;
      ghost var start := ctx.queryContext;
      while i < |info|
        invariant 0 <= i <= |info|
        invariant ctx.queryContext == MergeInfo(start, info[..i])
        invariant ctx.messages == old(ctx.messages) + [ChatMessage("user", userResponse, now)]
      {
        assert info[..i + 1][..i] == info[..i];
        ctx.UpdateContext(info[i].0, info[i].1);
        i := i + 1;
      }
      assert info[..i] == info;
      ctx.AddMessage("assistant", c.reasoning, now);
      if c.state == QueryAssessment {
        r := Assess(originalQuery, md, ctx, now);
      } else if c.state == QueryConfirmation {
        r := ConfirmQuery(originalQuery, md, ctx, now);
      } else {
        r := Failed("Unexpected state: " + StateText(c.state));
      }
    }

    method HandleRejection(originalQuery: string, ctx: ConversationContext, now: string)
      returns (r: AgentResponse)
      modifies ctx
      ensures Outcome(r, SessionOf(ctx)) == RejectSpec(llm, originalQuery, old(SessionOf(ctx)), now)
    {
      ctx.queryContext := [];
      var prompt := PromptRequest(QueryRejectionHandler, NoMetadata, ctx.queryContext,
        NoArgs().(originalQuery := Some(originalQuery)));
      var run := llm.reject(prompt);
      RunTools(ctx, run.tools);
      if run.outcome.Failure? {
        return Failed("Failed to handle rejection: " + run.outcome.error);
      }
      var rejection := run.outcome.value;
      ctx.AddMessage("assistant", rejection.rephrasingPrompt, now);
      r := AgentResponse(true, QueryRejectionHandler, Rejection,
        [("rephrasing_prompt", Str(rejection.rephrasingPrompt))], None);
    }

    method ConstructApiCall(confirmedParameters: Dict, originalQuery: string, md: CubeMetadata, ctx: ConversationContext, now: string)
      returns (r: AgentResponse)
      modifies ctx
      ensures Outcome(r, SessionOf(ctx)) == ConstructSpec(llm, confirmedParameters, originalQuery, md, old(SessionOf(ctx)), now)
    {
      var prompt := PromptRequest(ApiCallConstruction, md, ctx.queryContext,
        NoArgs().(confirmedParameters := Some(confirmedParameters), originalQuery := Some(originalQuery)));
      var run := llm.construct(prompt);
      RunTools(ctx, run.tools);
      if run.outcome.Failure? {
        return Failed("Failed to construct API call: " + run.outcome.error);
      }
      var a := run.outcome.value;
      ctx.AddMessage("assistant", "Constructed query: " + a.queryDescription, now);
      r := AgentResponse(true, ApiCallConstruction, CubeQuery,
        [("cube_query", Obj(ModelDump(a.cubeQuery))), ("query_description", Str(a.queryDescription)),
         ("reasoning", Str(a.reasoning))], None);
    }
  }
}
