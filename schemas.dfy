/*
 * The data model of the query-ambiguity assessor: its workflow states, the
 * ambiguity flags a model assessment sets, the Cube metadata the prompts and
 * tools read, the session context that accumulates messages and clarified
 * values, and the structured outputs and responses of each state.
 */
module AgentSchemas {
  import opened Common
  import opened Json

  // ---------------------------------------------------------------------
  // States and response kinds
  // ---------------------------------------------------------------------

  datatype AgentState =
    | QueryAssessment
    | ClarificationRequest
    | ReceiveClarification
    | QueryConfirmation
    | QueryRejectionHandler
    | ApiCallConstruction
    | Completed
    | Error

  const AllStates: seq<AgentState> := [QueryAssessment, ClarificationRequest, ReceiveClarification,
    QueryConfirmation, QueryRejectionHandler, ApiCallConstruction, Completed, Error]

  /** The enum member's value. */
  function StateValue(s: AgentState): string {
    match s
    case QueryAssessment => "query_assessment"
    case ClarificationRequest => "clarification_request"
    case ReceiveClarification => "receive_clarification"
    case QueryConfirmation => "query_confirmation"
    case QueryRejectionHandler => "query_rejection_handler"
    case ApiCallConstruction => "api_call_construction"
    case Completed => "completed"
    case Error => "error"
  }

  /** The enum member's name. */
  function StateName(s: AgentState): string {
    match s
    case QueryAssessment => "QUERY_ASSESSMENT"
    case ClarificationRequest => "CLARIFICATION_REQUEST"
    case ReceiveClarification => "RECEIVE_CLARIFICATION"
    case QueryConfirmation => "QUERY_CONFIRMATION"
    case QueryRejectionHandler => "QUERY_REJECTION_HANDLER"
    case ApiCallConstruction => "API_CALL_CONSTRUCTION"
    case Completed => "COMPLETED"
    case Error => "ERROR"
  }

  /** f"{state}" of the str-mixin enum: "AgentState.<NAME>". */
  function StateText(s: AgentState): string {
    "AgentState." + StateName(s)
  }

  /** AgentState(v): the member with value v, if any. */
  function ParseState(v: string): (r: Option<AgentState>)
    ensures r.Some? ==> StateValue(r.value) == v
  {
    if v == "query_assessment" then Some(QueryAssessment)
    else if v == "clarification_request" then Some(ClarificationRequest)
    else if v == "receive_clarification" then Some(ReceiveClarification)
    else if v == "query_confirmation" then Some(QueryConfirmation)
    else if v == "query_rejection_handler" then Some(QueryRejectionHandler)
    else if v == "api_call_construction" then Some(ApiCallConstruction)
    else if v == "completed" then Some(Completed)
    else if v == "error" then Some(Error)
    else None
  }

  /** Exactly eight states, each recovered from its value. */
  lemma EightStates()
    ensures |AllStates| == 8
    ensures forall s: AgentState :: s in AllStates && ParseState(StateValue(s)) == Some(s)
    ensures forall i, j :: 0 <= i < j < |AllStates| ==> AllStates[i] != AllStates[j]
  {
    forall s: AgentState ensures s in AllStates && ParseState(StateValue(s)) == Some(s) {
      match s
      case QueryAssessment => assert AllStates[0] == s;
      case ClarificationRequest => assert AllStates[1] == s;
      case ReceiveClarification => assert AllStates[2] == s;
      case QueryConfirmation => assert AllStates[3] == s;
      case QueryRejectionHandler => assert AllStates[4] == s;
      case ApiCallConstruction => assert AllStates[5] == s;
      case Completed => assert AllStates[6] == s;
      case Error => assert AllStates[7] == s;
    }
  }

  /** The six literals AgentResponse.response_type admits. */
  datatype ResponseType = Assessment | Clarification | Confirmation | Rejection | CubeQuery | ErrorType

  function ResponseTypeValue(t: ResponseType): string {
    match t
    case Assessment => "assessment"
    case Clarification => "clarification"
    case Confirmation => "confirmation"
    case Rejection => "rejection"
    case CubeQuery => "cube_query"
    case ErrorType => "error"
  }

  function ParseResponseType(v: string): (r: Option<ResponseType>)
    ensures r.Some? ==> ResponseTypeValue(r.value) == v
  {
    if v == "assessment" then Some(Assessment)
    else if v == "clarification" then Some(Clarification)
    else if v == "confirmation" then Some(Confirmation)
    else if v == "rejection" then Some(Rejection)
    else if v == "cube_query" then Some(CubeQuery)
    else if v == "error" then Some(ErrorType)
    else None
  }

  lemma SixResponseTypes()
    ensures forall t: ResponseType :: ParseResponseType(ResponseTypeValue(t)) == Some(t)
  {
    forall t: ResponseType ensures ParseResponseType(ResponseTypeValue(t)) == Some(t) {
      match t
      case Assessment =>
      case Clarification =>
      case Confirmation =>
      case Rejection =>
      case CubeQuery =>
      case ErrorType =>
    }
  }

  // ---------------------------------------------------------------------
  // Ambiguity flags
  // ---------------------------------------------------------------------

  datatype AmbiguityFlags = AmbiguityFlags(
    timeSpecificationUnclear: bool,
    groupingGranularityUnclear: bool,
    filterCriteriaUnclear: bool,
    measureAmbiguous: bool,
    dimensionAmbiguous: bool)

  /** The aspect names, in the order get_ambiguous_aspects tests their flags. */
  const AspectOrder: seq<string> := ["time_specification", "grouping_granularity", "filter_criteria", "measure", "dimension"]

  function FlagList(f: AmbiguityFlags): seq<bool> {
    [f.timeSpecificationUnclear, f.groupingGranularityUnclear, f.filterCriteriaUnclear,
     f.measureAmbiguous, f.dimensionAmbiguous]
  }

  /** any([...]) over the five flags. */
  predicate IsAmbiguous(f: AmbiguityFlags) {
    f.timeSpecificationUnclear || f.groupingGranularityUnclear || f.filterCriteriaUnclear ||
    f.measureAmbiguous || f.dimensionAmbiguous
  }

  /** get_ambiguous_aspects: the names of the set flags, in the fixed order. */
  function AmbiguousAspects(f: AmbiguityFlags): (r: seq<string>)
    ensures r != [] <==> IsAmbiguous(f)
    ensures |r| <= 5
  {
    var flags := FlagList(f);
    var idx := SelectedIndices(flags);
    assert IsAmbiguous(f) ==> idx != [] by {
      if f.timeSpecificationUnclear { assert flags[0] && 0 in idx; }
      else if f.groupingGranularityUnclear { assert flags[1] && 1 in idx; }
      else if f.filterCriteriaUnclear { assert flags[2] && 2 in idx; }
      else if f.measureAmbiguous { assert flags[3] && 3 in idx; }
      else if f.dimensionAmbiguous { assert flags[4] && 4 in idx; }
    }
    assert idx != [] ==> IsAmbiguous(f) by {
      if idx != [] { assert flags[idx[0]]; }
    }
    Select(AspectOrder, flags)
  }

  /** An aspect is listed exactly when its flag is set, and the listed ones keep the fixed order. */
  lemma AspectsFollowFlags(f: AmbiguityFlags)
    ensures var r := AmbiguousAspects(f); var idx := SelectedIndices(FlagList(f));
      |r| == |idx| &&
      (forall k :: 0 <= k < |r| ==> r[k] == AspectOrder[idx[k]] && FlagList(f)[idx[k]]) &&
      (forall k, l :: 0 <= k < l < |r| ==> idx[k] < idx[l]) &&
      (forall i :: 0 <= i < 5 ==> (FlagList(f)[i] <==> AspectOrder[i] in r))
  {
    var r := AmbiguousAspects(f);
    var flags := FlagList(f);
    var idx := SelectedIndices(flags);
    SelectIsOrderedFilter(AspectOrder, flags);
    forall i | 0 <= i < 5
      ensures flags[i] <==> AspectOrder[i] in r
    {
      if AspectOrder[i] in r {
        var k :| 0 <= k < |r| && r[k] == AspectOrder[i];
        AspectNamesDistinct(idx[k], i);
      }
      if flags[i] {
        var k :| 0 <= k < |idx| && idx[k] == i;
        assert r[k] == AspectOrder[i];
      }
    }
  }

  lemma AspectNamesDistinct(i: int, j: int)
    requires 0 <= i < 5 && 0 <= j < 5 && AspectOrder[i] == AspectOrder[j]
    ensures i == j
  {
    assert AspectOrder[0][0] == 't' && AspectOrder[1][0] == 'g' && AspectOrder[2][0] == 'f';
    assert AspectOrder[3][0] == 'm' && AspectOrder[4][0] == 'd';
  }

  // ---------------------------------------------------------------------
  // Cube metadata
  // ---------------------------------------------------------------------

  /** A view's metadata; each measure and dimension is a Dict[str, str]. */
  datatype CubeMetadata = CubeMetadata(viewName: string, measures: seq<StrMap>, dimensions: seq<StrMap>)

  /** [e.get("name", "") for e in entries] */
  function NamesOf(entries: seq<StrMap>): (r: seq<string>)
    ensures |r| == |entries|
    ensures forall i :: 0 <= i < |entries| ==> r[i] == LookupOr(entries[i], "name", "")
  {
    seq(|entries|, i requires 0 <= i < |entries| => LookupOr(entries[i], "name", ""))
  }

  function MeasureNames(md: CubeMetadata): seq<string> {
    NamesOf(md.measures)
  }

  function DimensionNames(md: CubeMetadata): seq<string> {
    NamesOf(md.dimensions)
  }

  /** d.get("type") == "time" */
  predicate IsTimeTyped(d: StrMap) {
    Lookup(d, "type") == Some("time")
  }

  function TimeFlags(dimensions: seq<StrMap>): (r: seq<bool>)
    ensures |r| == |dimensions| && forall i :: 0 <= i < |dimensions| ==> r[i] == IsTimeTyped(dimensions[i])
  {
    seq(|dimensions|, i requires 0 <= i < |dimensions| => IsTimeTyped(dimensions[i]))
  }

  /** get_time_dimensions */
  function TimeDimensions(md: CubeMetadata): seq<string> {
    Select(DimensionNames(md), TimeFlags(md.dimensions))
  }

  /**
   * The time dimensions are the dimension names read at increasing positions,
   * which are exactly the positions whose type is "time": an order-preserving
   * sub-list of get_dimension_names.
   */
  lemma TimeDimensionsAreTimeTypedNames(md: CubeMetadata)
    ensures var idx := SelectedIndices(TimeFlags(md.dimensions)); var r := TimeDimensions(md);
      |r| == |idx| &&
      (forall k :: 0 <= k < |r| ==>
        (idx[k] < |md.dimensions| && r[k] == DimensionNames(md)[idx[k]] && IsTimeTyped(md.dimensions[idx[k]]))) &&
      (forall k, l :: 0 <= k < l < |r| ==> idx[k] < idx[l]) &&
      (forall i :: 0 <= i < |md.dimensions| && IsTimeTyped(md.dimensions[i]) ==> exists k :: 0 <= k < |idx| && idx[k] == i)
  {
    SelectIsOrderedFilter(DimensionNames(md), TimeFlags(md.dimensions));
  }

  /** Every time dimension is a dimension name. */
  lemma TimeDimensionsAreDimensions(md: CubeMetadata)
    ensures forall x :: x in TimeDimensions(md) ==> x in DimensionNames(md)
  {
    TimeDimensionsAreTimeTypedNames(md);
    forall x | x in TimeDimensions(md) ensures x in DimensionNames(md) {
      var k :| 0 <= k < |TimeDimensions(md)| && TimeDimensions(md)[k] == x;
    }
  }

  // ---------------------------------------------------------------------
  // Session context
  // ---------------------------------------------------------------------

  function ChatMessage(role: string, content: string, timestamp: string): StrMap {
    [("role", role), ("content", content), ("timestamp", timestamp)]
  }

  /**
   * One message seen by get_last_user_message: message["role"] raises KeyError
   * when absent; a user message yields message["content"], which may raise too.
   */
  function UserContent(m: StrMap): Result<Option<Option<string>>> {
    match Lookup(m, "role")
    case None => Failure(KeyErrorText("role"))
    case Some(role) =>
      if role != "user" then Success(None)
      else
        match Lookup(m, "content")
        case None => Failure(KeyErrorText("content"))
        case Some(c) => Success(Some(Some(c)))
  }

  function UserContents(ms: seq<StrMap>): (r: seq<Result<Option<Option<string>>>>)
    ensures |r| == |ms| && forall i :: 0 <= i < |ms| ==> r[i] == UserContent(ms[i])
  {
    seq(|ms|, i requires 0 <= i < |ms| => UserContent(ms[i]))
  }

  /** get_last_user_message */
  function LastUserMessage(ms: seq<StrMap>): Result<Option<string>> {
    LastDecided(UserContents(ms), None)
  }

  /** The content returned belongs to the newest user message; None means there is none. */
  lemma LastUserMessageIsNewest(ms: seq<StrMap>, x: Option<string>)
    requires LastUserMessage(ms) == Success(x)
    ensures x.None? ==> forall i :: 0 <= i < |ms| ==> Lookup(ms[i], "role").Some? && Lookup(ms[i], "role") != Some("user")
    ensures x.Some? ==> exists k :: (0 <= k < |ms| && Lookup(ms[k], "role") == Some("user") &&
      Lookup(ms[k], "content") == x && forall j :: k < j < |ms| ==> Lookup(ms[j], "role") != Some("user"))
  {
    var cs := UserContents(ms);
    LastDecidedIsNewest(cs, None, x);
    if x.Some? {
      var k :| 0 <= k < |cs| && cs[k] == Success(Some(x)) && forall j :: k < j < |cs| ==> cs[j] == Success(None);
      UserContentFound(ms[k], x);
      forall j | k < j < |ms| ensures Lookup(ms[j], "role") != Some("user") {
        UserContentSkipped(ms[j]);
      }
    } else {
      if exists k :: 0 <= k < |cs| && cs[k] == Success(Some(x)) {
        var k :| 0 <= k < |cs| && cs[k] == Success(Some(x));
        UserContentFound(ms[k], x);
      }
      forall i | 0 <= i < |ms| ensures Lookup(ms[i], "role").Some? && Lookup(ms[i], "role") != Some("user") {
        UserContentSkipped(ms[i]);
      }
    }
  }

  lemma UserContentFound(m: StrMap, x: Option<string>)
    requires UserContent(m) == Success(Some(x))
    ensures Lookup(m, "role") == Some("user") && Lookup(m, "content") == x && x.Some?
  {
  }

  lemma UserContentSkipped(m: StrMap)
    requires UserContent(m) == Success(None)
    ensures Lookup(m, "role").Some? && Lookup(m, "role") != Some("user")
  {
  }

  /** After add_message("user", c), the last user message is c. */
  lemma LastUserMessageAfterAdd(ms: seq<StrMap>, content: string, timestamp: string)
    ensures LastUserMessage(ms + [ChatMessage("user", content, timestamp)]) == Success(Some(content))
  {
    var m := ChatMessage("user", content, timestamp);
    assert m[1].0 == "content" && m[0].0 != "content";
    assert Lookup(m[1..], "content") == Some(content);
    var cs := UserContents(ms + [m]);
    assert cs[|cs| - 1] == UserContent(m);
  }

  /** The session state the agent reads and writes. */
  class ConversationContext {
    const sessionId: string
    var messages: seq<StrMap>
    var queryContext: Dict

    constructor (sessionId: string)
      ensures this.sessionId == sessionId && messages == [] && queryContext == []
    {
      this.sessionId := sessionId;
      messages := [];
      queryContext := [];
    }

    /** Appends one message; no cap on the list. */
    method AddMessage(role: string, content: string, timestamp: string)
      modifies this
      ensures messages == old(messages) + [ChatMessage(role, content, timestamp)]
      ensures queryContext == old(queryContext)
    {
      messages := messages + [ChatMessage(role, content, timestamp)];
    }

    method GetLastUserMessage() returns (r: Result<Option<string>>)
      ensures r == LastUserMessage(messages)
    {
      ghost var outcomes := UserContents(messages);
      var i := |messages|;
      assert outcomes[..i] == outcomes;
      while i > 0
        invariant 0 <= i <= |messages|
        invariant LastUserMessage(messages) == LastDecided(outcomes[..i], None)
      {
        assert outcomes[..i][..i - 1] == outcomes[..i - 1];
        var m := messages[i - 1];
        var role := Lookup(m, "role");
        if role.None? {
          return Failure(KeyErrorText("role"));
        }
        if role.value == "user" {
          var content := Lookup(m, "content");
          if content.None? {
            return Failure(KeyErrorText("content"));
          }
          return Success(content);
        }
        i := i - 1;
      }
      r := Success(None);
    }

    /** query_context[key] = value */
    method UpdateContext(key: string, value: Value)
      modifies this
      ensures queryContext == DictSet(old(queryContext), key, value)
      ensures messages == old(messages)
    {
      queryContext := DictSet(queryContext, key, value);
    }
  }

  /** update_context binds the key and leaves every other key as it was. */
  lemma UpdateContextBinds(d: Dict, key: string, value: Value)
    ensures DictGet(DictSet(d, key, value), key) == Some(value)
    ensures forall k :: k != key ==> DictGet(DictSet(d, key, value), k) == DictGet(d, k)
  {
    DictSetGetSame(d, key, value);
    forall k | k != key ensures DictGet(DictSet(d, key, value), k) == DictGet(d, k) {
      DictSetGetOther(d, key, value, k);
    }
  }

  // ---------------------------------------------------------------------
  // Structured model outputs and the unified response
  // ---------------------------------------------------------------------

  datatype QueryAssessmentOutput = QueryAssessmentOutput(
    state: AgentState, ambiguityFlags: AmbiguityFlags, reasoning: string, nextAction: string)

  datatype ClarificationRequestOutput = ClarificationRequestOutput(
    state: AgentState, clarificationQuestion: string, ambiguousAspect: string, suggestions: seq<string>)

  datatype ReceiveClarificationOutput = ReceiveClarificationOutput(
    state: AgentState, extractedInfo: Dict, reasoning: string)

  datatype QueryConfirmationOutput = QueryConfirmationOutput(
    state: AgentState, confirmationMessage: string, interpretedParameters: Dict, confirmationRequired: bool)

  datatype QueryRejectionOutput = QueryRejectionOutput(
    state: AgentState, rephrasingPrompt: string, resetContext: bool)

  datatype CubeQueryParameters = CubeQueryParameters(
    measures: seq<string>, dimensions: seq<string>, filters: seq<Dict>, timeDimensions: seq<Dict>,
    order: StrMap, limit: Option<int>)

  datatype ApiCallConstructionOutput = ApiCallConstructionOutput(
    state: AgentState, cubeQuery: CubeQueryParameters, queryDescription: string, reasoning: string)

  datatype AgentResponse = AgentResponse(
    success: bool, state: AgentState, responseType: ResponseType, data: Dict, error: Option<string>)

  function StrMapValue(m: StrMap): (r: Dict)
    ensures |r| == |m| && forall i :: 0 <= i < |m| ==> r[i] == (m[i].0, Str(m[i].1))
  {
    seq(|m|, i requires 0 <= i < |m| => (m[i].0, Str(m[i].1)))
  }

  /** cube_query.model_dump(): the fields in declaration order. */
  function ModelDump(p: CubeQueryParameters): Dict {
    [("measures", List(Strs(p.measures))), ("dimensions", List(Strs(p.dimensions))),
     ("filters", List(Objs(p.filters))), ("time_dimensions", List(Objs(p.timeDimensions))),
     ("order", Obj(StrMapValue(p.order))), ("limit", if p.limit.Some? then Int(p.limit.value) else Null)]
  }

  // Reading a dump back, as CubeQueryParameters(**d) validates it.

  function AsStrings(vs: seq<Value>): (r: Option<seq<string>>)
    ensures r.Some? ==> |r.value| == |vs|
  {
    if vs == [] then Some([])
    else if !vs[0].Str? then None
    else
      match AsStrings(vs[1..])
      case None => None
      case Some(rest) => Some([vs[0].s] + rest)
  }

  function AsDicts(vs: seq<Value>): (r: Option<seq<Dict>>)
  {
    if vs == [] then Some([])
    else if !vs[0].Obj? then None
    else
      match AsDicts(vs[1..])
      case None => None
      case Some(rest) => Some([vs[0].fields] + rest)
  }

  function AsStrMap(d: Dict): (r: Option<StrMap>)
  {
    if d == [] then Some([])
    else if !d[0].1.Str? then None
    else
      match AsStrMap(d[1..])
      case None => None
      case Some(rest) => Some([(d[0].0, d[0].1.s)] + rest)
  }

  lemma {:induction false} AsStringsOfStrs(xs: seq<string>)
    ensures AsStrings(Strs(xs)) == Some(xs)
  {
    if xs != [] {
      AsStringsOfStrs(xs[1..]);
      assert Strs(xs)[1..] == Strs(xs[1..]);
      assert xs == [xs[0]] + xs[1..];
    }
  }

  lemma {:induction false} AsDictsOfObjs(ds: seq<Dict>)
    ensures AsDicts(Objs(ds)) == Some(ds)
  {
    if ds != [] {
      AsDictsOfObjs(ds[1..]);
      assert Objs(ds)[1..] == Objs(ds[1..]);
      assert ds == [ds[0]] + ds[1..];
    }
  }

  lemma {:induction false} AsStrMapOfValue(m: StrMap)
    ensures AsStrMap(StrMapValue(m)) == Some(m)
  {
    if m != [] {
      AsStrMapOfValue(m[1..]);
      assert StrMapValue(m)[1..] == StrMapValue(m[1..]);
      assert m == [m[0]] + m[1..];
    }
  }

  /** The parameters a dump describes, read field by field in order. */
  function FromDump(d: Dict): Option<CubeQueryParameters> {
    if |d| != 6 || d[0].0 != "measures" || d[1].0 != "dimensions" || d[2].0 != "filters" ||
       d[3].0 != "time_dimensions" || d[4].0 != "order" || d[5].0 != "limit" then None
    else if !d[0].1.List? || !d[1].1.List? || !d[2].1.List? || !d[3].1.List? || !d[4].1.Obj? then None
    else if !(d[5].1.Null? || d[5].1.Int?) then None
    else
      var measures := AsStrings(d[0].1.items);
      var dimensions := AsStrings(d[1].1.items);
      var filters := AsDicts(d[2].1.items);
      var timeDimensions := AsDicts(d[3].1.items);
      var order := AsStrMap(d[4].1.fields);
      if measures.None? || dimensions.None? || filters.None? || timeDimensions.None? || order.None? then None
      else Some(CubeQueryParameters(measures.value, dimensions.value, filters.value, timeDimensions.value,
        order.value, if d[5].1.Int? then Some(d[5].1.i) else None))
  }

  /** The dump loses nothing: reading it back gives the same parameters. */
  lemma DumpRoundTrip(p: CubeQueryParameters)
    ensures FromDump(ModelDump(p)) == Some(p)
  {
    AsStringsOfStrs(p.measures);
    AsStringsOfStrs(p.dimensions);
    AsDictsOfObjs(p.filters);
    AsDictsOfObjs(p.timeDimensions);
    AsStrMapOfValue(p.order);
  }
}
