/*
 * The assessor's prompts: a fixed system prompt and one template per state,
 * chosen by build_state_prompt.  Dictionaries and lists appear in the text as
 * Python renders them (repr), and the conversation context contributes only
 * its query_context dictionary.
 */
module Prompts {
  import opened Common
  import opened Json
  import opened AgentSchemas
  import MetadataTools

  // ---------------------------------------------------------------------
  // Fixed text
  // ---------------------------------------------------------------------

  const BaseSystemPrompt: string :=
    "You are a Query Ambiguity Assessor agent. Your role is to help users formulate clear,\n" +
    "unambiguous queries for a data analytics system built on Cube.js.\n" +
    "\n" +
    "CRITICAL: Be MINIMAL with clarifications. Only ask when truly necessary.\n" +
    "\n" +
    "Your primary responsibilities:\n" +
    "1. Parse user queries to extract measures, dimensions, time references, and filters\n" +
    "2. Make intelligent ASSUMPTIONS when information is not explicitly provided:\n" +
    "   - If NO time range mentioned → Assume ALL TIME (no time dimension needed)\n" +
    "   - If NO dimensions mentioned → Assume NO GROUPING (aggregate all data)\n" +
    "   - If NO filters mentioned → Assume NO FILTERING (include all data)\n" +
    "   - ONLY measures are REQUIRED. Everything else is optional.\n" +
    "3. Ask clarifying questions ONLY for:\n" +
    "   - Ambiguous time references (e.g., \"January\" without context)\n" +
    "   - Invalid/non-existent dimensions or filter values\n" +
    "   - Missing required measures\n" +
    "4. Confirm your interpretation with the user before constructing API calls\n" +
    "\n" +
    "Key principles:\n" +
    "- **ASSUME rather than ASK** - Only clarify true ambiguities\n" +
    "- Be conversational and helpful, not robotic\n" +
    "- Focus on ONE ambiguity at a time when clarification is needed\n" +
    "- Provide contextual examples and suggestions based on cube metadata\n" +
    "- Use fuzzy matching to find similar values when user input doesn't exactly match\n" +
    "- Always confirm your interpretation before proceeding to API call construction\n" +
    "\n" +
    "You operate in a state-based workflow. Follow the state transitions carefully and provide\n" +
    "outputs in the exact format specified for each state."

  const AssessmentInstructions: string :=
    "\n" +
    "\n" +
    "CRITICAL: Use your language understanding to SEMANTICALLY MATCH user requests to available measures and dimensions.\n" +
    "DO NOT require exact string matches. For example:\n" +
    "- \"total revenue\" should match \"revenue\" measure\n" +
    "- \"show me sales\" should match \"tickets_sold\" or \"total_order_value\" measure\n" +
    "- \"by venue\" should match \"venue_name\" dimension\n" +
    "\n" +
    "Only flag as ambiguous if there is NO reasonable semantic match or if multiple matches are equally valid.\n" +
    "\n" +
    "Your task - Parse the query for:\n" +
    "\n" +
    "1. **MEASURES** (REQUIRED - ask if missing or unclear):\n" +
    "   - Extract what metrics/calculations the user wants\n" +
    "   - Use SEMANTIC MATCHING to find the appropriate measure from available list\n" +
    "   - Examples of semantic matches:\n" +
    "     * \"total revenue\" → matches \"revenue\" measure\n" +
    "     * \"ticket sales\" → matches \"tickets_sold\" measure\n" +
    "     * \"average price\" → matches \"avg_order_value\" measure\n" +
    "   - ONLY set measure_ambiguous = TRUE if:\n" +
    "     * No measure is mentioned in the query at all\n" +
    "     * Multiple measures could match and it's unclear which one\n" +
    "     * The requested measure has NO semantic match to any available measure\n" +
    "   - DO NOT flag as ambiguous if there's a clear semantic match (even if not exact string match)\n" +
    "\n" +
    "2. **TIME RANGE** (OPTIONAL - assume ALL TIME if not mentioned):\n" +
    "   - IF NO time reference mentioned:\n" +
    "     → time_specification_unclear = FALSE\n" +
    "     → Assume all time (no time dimension needed)\n" +
    "     → SKIP clarification\n" +
    "\n" +
    "   - IF time reference IS mentioned:\n" +
    "     → Check if it's ambiguous (e.g., \"January\", \"Monday\" without context)\n" +
    "     → If \"last month\", \"this year\", \"last 7 days\" = CLEAR (no clarification)\n" +
    "     → If \"January\" or \"Monday\" alone = AMBIGUOUS (ask: specific period or compare all?)\n" +
    "     → Set time_specification_unclear accordingly\n" +
    "\n" +
    "3. **DIMENSIONS** (OPTIONAL - assume NO GROUPING if not mentioned):\n" +
    "   - IF NO dimensions mentioned:\n" +
    "     → dimension_ambiguous = FALSE\n" +
    "     → Assume no grouping needed\n" +
    "     → SKIP clarification\n" +
    "\n" +
    "   - IF dimensions ARE mentioned:\n" +
    "     → Use SEMANTIC MATCHING to find appropriate dimensions from available list\n" +
    "     → Examples of semantic matches:\n" +
    "       * \"by venue\" → matches \"venue_name\" dimension\n" +
    "       * \"by event\" → matches \"event_name\" dimension\n" +
    "       * \"by genre\" → matches \"genre\" dimension (if exists)\n" +
    "     → ONLY set dimension_ambiguous = TRUE if:\n" +
    "       * The requested dimension has NO semantic match to any available dimension\n" +
    "       * Multiple dimensions could match and it's unclear which one\n" +
    "     → DO NOT flag as ambiguous if there's a clear semantic match\n" +
    "\n" +
    "4. **FILTERS** (OPTIONAL - assume NO FILTERING if not mentioned):\n" +
    "   - IF NO filters mentioned:\n" +
    "     → filter_criteria_unclear = FALSE\n" +
    "     → Assume no filtering needed\n" +
    "     → SKIP clarification\n" +
    "\n" +
    "   - IF filters ARE mentioned:\n" +
    "     → Validate filter dimension exists\n" +
    "     → Validate filter values (use fuzzy matching)\n" +
    "     → Only set filter_criteria_unclear = TRUE if invalid filter found\n" +
    "\n" +
    "5. **DECISION**:\n" +
    "   - Set ambiguity flags ONLY for TRUE ambiguities or invalid values\n" +
    "   - Next state:\n" +
    "     → If ANY ambiguity flag is TRUE → CLARIFICATION_REQUEST\n" +
    "     → If NO ambiguity flags set → QUERY_CONFIRMATION\n" +
    "\n" +
    "Respond with a QueryAssessmentOutput object.\n" +
    "\n" +
    "REMEMBER: Only measures are required. Time, dimensions, and filters are ALL OPTIONAL."

  const ClarificationTaskHead: string :=
    "\n" +
    "\n" +
    "Your task:\n" +
    "1. Formulate a friendly, conversational clarification question focusing ONLY on: "

  const ClarificationTaskTail: string :=
    "\n" +
    "2. Provide 2-3 specific, actionable suggestions based on:\n" +
    "   - Available cube metadata (use the tools to get similar values)\n" +
    "   - Fuzzy matching if user input was close to a valid value\n" +
    "   - Context from the query\n" +
    "3. Keep the question simple and focused on ONE thing\n" +
    "4. Frame suggestions as concrete options the user can choose from\n" +
    "\n" +
    "Respond with a ClarificationRequestOutput object."

  const ReceiveInstructions: string :=
    "\n" +
    "\n" +
    "Your task:\n" +
    "1. Extract the relevant information from the user's response\n" +
    "2. Update the query context with this information\n" +
    "3. Determine if we should:\n" +
    "   - Go back to QUERY_ASSESSMENT to check for remaining ambiguities\n" +
    "   - Proceed to QUERY_CONFIRMATION if this was the last clarification needed\n" +
    "\n" +
    "Respond with a ReceiveClarificationOutput object."

  const ConfirmationInstructions: string :=
    "\n" +
    "\n" +
    "CRITICAL OUTPUT REQUIREMENTS:\n" +
    "You MUST return a QueryConfirmationOutput object with these REQUIRED fields:\n" +
    "\n" +
    "1. state: MUST be \"query_confirmation\" (string, exact value)\n" +
    "\n" +
    "2. confirmation_message: A natural language summary in this format:\n" +
    "   \"I understand you want to see:\n" +
    "    - Measure: [measure name and description]\n" +
    "    - Grouped by: [dimension] OR \"No grouping (total only)\"\n" +
    "    - Time period: [period] OR \"All time\"\n" +
    "    - Filters: [any filters] OR \"No filters\"\n" +
    "\n" +
    "    Is this correct?\"\n" +
    "\n" +
    "3. interpreted_parameters: REQUIRED dictionary with this EXACT structure:\n" +
    "   {\n" +
    "     \"measures\": [\"full.measure.name\"],  // REQUIRED - use exact names from available measures\n" +
    "     \"dimensions\": [\"full.dimension.name\"],  // Use [] if no non-time dimensions\n" +
    "     \"timeDimensions\": [  // Use [] if no time grouping\n" +
    "       {\n" +
    "         \"dimension\": \"full.time.dimension.name\",\n" +
    "         \"granularity\": \"year|month|week|day|null\"\n" +
    "       }\n" +
    "     ],\n" +
    "     \"filters\": []  // Use [] if no filters\n" +
    "   }\n" +
    "\n" +
    "4. confirmation_required: true (boolean)\n" +
    "\n" +
    "PARSING RULES for interpreted_parameters:\n" +
    "\n" +
    "For \"Show me total tickets sold by year\":\n" +
    "- measures: Identify the tickets sold measure from available measures\n" +
    "- dimensions: [] (no non-time grouping)\n" +
    "- timeDimensions: [{ \"dimension\": \"<time_dimension_name>\", \"granularity\": \"year\" }]\n" +
    "- filters: []\n" +
    "\n" +
    "CRITICAL: The interpreted_parameters field is MANDATORY and must match the structure above exactly.\n" +
    "DO NOT omit this field or the validation will fail."

  const ApiCallInstructions: string :=
    "\n" +
    "\n" +
    "Your task:\n" +
    "Construct a valid Cube.js query with these components:\n" +
    "\n" +
    "1. measures: List of measure names\n" +
    "   - Map the user's requested metrics to the EXACT measure names from available list\n" +
    "   - Example: if user said \"total revenue\", use the \"revenue\" measure name\n" +
    "\n" +
    "2. dimensions: List of dimension names for grouping\n" +
    "   - Map the user's requested groupings to the EXACT dimension names from available list\n" +
    "   - Example: if user said \"by venue\", use the \"venue_name\" dimension name\n" +
    "\n" +
    "3. timeDimensions: List of time dimension configs with:\n" +
    "   - dimension: time dimension name (exact name from available list)\n" +
    "   - granularity: \"day\", \"week\", \"month\", \"year\", or null\n" +
    "   - dateRange: \"last week\", \"last month\", \"this year\", etc. (if applicable)\n" +
    "\n" +
    "4. filters: List of filter objects (if applicable):\n" +
    "   - member: dimension or measure name (exact name from available list)\n" +
    "   - operator: \"equals\", \"contains\", \"gt\", \"lt\", etc.\n" +
    "   - values: array of filter values\n" +
    "\n" +
    "5. order: Ordering specification (if applicable)\n" +
    "6. limit: Result limit (if applicable)\n" +
    "\n" +
    "CRITICAL: The confirmed parameters may use user's language (e.g., \"total revenue\").\n" +
    "You must translate these to the EXACT measure/dimension names from the available lists above.\n" +
    "\n" +
    "Respond with an APICallConstructionOutput object containing the complete CubeQueryParameters."

  const RejectionInstructions: string :=
    "\n" +
    "\n" +
    "Your task:\n" +
    "1. Acknowledge that you misunderstood\n" +
    "2. Ask the user to rephrase or clarify their query\n" +
    "3. Reset the query context to start fresh\n" +
    "\n" +
    "Respond with a QueryRejectionOutput object with:\n" +
    "- A friendly message asking them to rephrase\n" +
    "- reset_context set to True"

  const TimeGuidance: string :=
    "The time reference is ambiguous. Examples:\n" +
    "- \"January\" alone → Ask: \"Do you want data for only last January, or compare across all Januaries?\"\n" +
    "- \"Monday\" alone → Ask: \"Do you want data for only last Monday, or compare all Mondays?\"\n" +
    "Provide two options: specific period vs. comparison across all periods."


  const MeasureGuidance: string :=
    "The requested measure doesn't exist. Suggest similar measures from the available list using fuzzy matching."
  const DimensionGuidance: string :=
    "The requested dimension doesn't exist. Suggest similar dimensions from the available list using fuzzy matching."
  const FilterGuidance: string :=
    "The requested filter value doesn't exist or the filter dimension is invalid. Suggest similar values or dimensions."
  const GroupingGuidance: string :=
    "Only ask if the grouping level is truly unclear after parsing the query."
  const DefaultGuidance: string := "Ask for the needed clarification."
  const PreviousClarifications: string := "\n\nPrevious clarifications in this session:\n"

  /** The first line of every state's prompt. */
  function Header(s: AgentState): string {
    "STATE: " + StateName(s)
  }

  lemma HeaderIsPrefix(s: AgentState, body: string)
    ensures StartsWith(Header(s) + body, Header(s))
  {
    assert (Header(s) + body)[..|Header(s)|] == Header(s);
  }

  /** f"{some_list}" of a list of strings. */
  function ListRepr(xs: seq<string>): string {
    PyRepr(List(Strs(xs)))
  }

  // ---------------------------------------------------------------------
  // QUERY_ASSESSMENT
  // ---------------------------------------------------------------------

  function MeasureLine(m: StrMap): string {
    "  - " + LookupOr(m, "name", "") + ": " + LookupOr(m, "title", "") + " - " + LookupOr(m, "description", "")
  }

  /** A dimension line names its type, "string" when the entry has none. */
  function DimensionLine(d: StrMap): string {
    "  - " + LookupOr(d, "name", "") + " (" + LookupOr(d, "type", "string") + "): " +
    LookupOr(d, "title", "") + " - " + LookupOr(d, "description", "")
  }

  function MeasureLines(entries: seq<StrMap>): (r: seq<string>)
    ensures |r| == |entries| && forall i :: 0 <= i < |entries| ==> r[i] == MeasureLine(entries[i])
  {
    seq(|entries|, i requires 0 <= i < |entries| => MeasureLine(entries[i]))
  }

  function DimensionLines(entries: seq<StrMap>): (r: seq<string>)
    ensures |r| == |entries| && forall i :: 0 <= i < |entries| ==> r[i] == DimensionLine(entries[i])
  {
    seq(|entries|, i requires 0 <= i < |entries| => DimensionLine(entries[i]))
  }

  /** The "Previous clarifications" section, present exactly when the query context is non-empty. */
  function ContextInfo(queryContext: Dict): (r: string)
    ensures r == "" <==> queryContext == []
    ensures queryContext != [] ==> r == PreviousClarifications + PyRepr(Obj(queryContext))
  {
    if queryContext == [] then "" else PreviousClarifications + PyRepr(Obj(queryContext))
  }

  function AssessmentLists(userQuery: string, md: CubeMetadata): string {
    "\n\nAnalyze this user query using MINIMAL clarification approach:\n\"" +
    userQuery + "\"\n\nAvailable Cube view: " + md.viewName +
    "\n\nAvailable Measures:\n" + Join(MeasureLines(md.measures), "\n") +
    "\n\nAvailable Dimensions:\n" + Join(DimensionLines(md.dimensions), "\n")
  }

  function AssessmentBody(userQuery: string, md: CubeMetadata, queryContext: Dict): string {
    AssessmentLists(userQuery, md) + ContextInfo(queryContext) + AssessmentInstructions
  }

  /** get_query_assessment_prompt */
  function QueryAssessmentPrompt(userQuery: string, md: CubeMetadata, queryContext: Dict): (r: string)
    ensures StartsWith(r, Header(QueryAssessment))
  {
    HeaderIsPrefix(QueryAssessment, AssessmentBody(userQuery, md, queryContext));
    Header(QueryAssessment) + AssessmentBody(userQuery, md, queryContext)
  }

  // ---------------------------------------------------------------------
  // CLARIFICATION_REQUEST
  // ---------------------------------------------------------------------

  /** The aspect asked about: the first listed one, or "general". */
  function ClarifiedAspect(aspects: seq<string>): (r: string)
    ensures aspects != [] ==> r == aspects[0]
    ensures aspects == [] ==> r == "general"
  {
    if aspects != [] then aspects[0] else "general"
  }

  /** The printed priority: measure 1, dimension and filter_criteria 2, time 3, grouping 4, others 5. */
  function Priority(aspect: string): (r: int)
    ensures 1 <= r <= 5
    ensures r == 5 <==> aspect !in AspectOrder
  {
    if aspect == "measure" then 1
    else if aspect == "dimension" || aspect == "filter_criteria" then 2
    else if aspect == "time_specification" then 3
    else if aspect == "grouping_granularity" then 4
    else 5
  }

  function Guidance(aspect: string): string {
    if aspect == "measure" then MeasureGuidance
    else if aspect == "dimension" then DimensionGuidance
    else if aspect == "filter_criteria" then FilterGuidance
    else if aspect == "time_specification" then TimeGuidance
    else if aspect == "grouping_granularity" then GroupingGuidance
    else DefaultGuidance
  }

  /** The sample of at most five entries: the title, or the name when the entry has no title. */
  function SampleLabels(entries: seq<StrMap>): (r: seq<string>)
    ensures |r| == if |entries| < 5 then |entries| else 5
    ensures forall i :: 0 <= i < |r| ==>
      r[i] == match Lookup(entries[i], "title")
              case Some(title) => title
              case None => LookupOr(entries[i], "name", "")
  {
    var sample := if |entries| < 5 then entries else entries[..5];
    seq(|sample|, i requires 0 <= i < |sample| => LookupOr(sample[i], "title", LookupOr(sample[i], "name", "")))
  }

  function ClarificationBody(aspects: seq<string>, userQuery: string, md: CubeMetadata, queryContext: Dict): string {
    var aspect := ClarifiedAspect(aspects);
    "\n\nUser query: \"" + userQuery +
    "\"\nAmbiguous aspect to clarify: " + aspect +
    "\nPriority order: " + IntToString(Priority(aspect)) + " (1=highest, 5=lowest)\n\nGuidance: " + Guidance(aspect) +
    "\n\nQuery context so far: " + PyRepr(Obj(queryContext)) +
    "\n\nAvailable measures (sample): " + Join(SampleLabels(md.measures), ", ") +
    "\nAvailable dimensions (sample): " + Join(SampleLabels(md.dimensions), ", ") +
    ClarificationTaskHead + aspect + ClarificationTaskTail
  }

  /** get_clarification_request_prompt */
  function ClarificationRequestPrompt(aspects: seq<string>, userQuery: string, md: CubeMetadata, queryContext: Dict): (r: string)
    ensures StartsWith(r, Header(ClarificationRequest))
  {
    HeaderIsPrefix(ClarificationRequest, ClarificationBody(aspects, userQuery, md, queryContext));
    Header(ClarificationRequest) + ClarificationBody(aspects, userQuery, md, queryContext)
  }

  /**
   * The aspect asked about is the first set flag in the fixed order, whatever
   * its printed priority: a measure ambiguity (priority 1) waits behind an
   * unclear time specification (priority 3).
   */
  lemma {:induction false} ClarifiesFirstSetFlag(f: AmbiguityFlags)
    ensures !IsAmbiguous(f) ==> ClarifiedAspect(AmbiguousAspects(f)) == "general"
    ensures IsAmbiguous(f) ==>
      exists k :: 0 <= k < 5 && FlagList(f)[k] && (forall j :: 0 <= j < k ==> !FlagList(f)[j]) &&
        ClarifiedAspect(AmbiguousAspects(f)) == AspectOrder[k]
    ensures f.timeSpecificationUnclear && f.measureAmbiguous ==>
      ClarifiedAspect(AmbiguousAspects(f)) == "time_specification" &&
      Priority("measure") < Priority(ClarifiedAspect(AmbiguousAspects(f)))
  {
    var flags := FlagList(f);
    var idx := SelectedIndices(flags);
    AspectsFollowFlags(f);
    if IsAmbiguous(f) {
      var k := idx[0];
      assert forall l :: 0 <= l < |idx| ==> k <= idx[l];
      assert forall j :: 0 <= j < k ==> !flags[j];
      assert ClarifiedAspect(AmbiguousAspects(f)) == AspectOrder[k];
      if f.timeSpecificationUnclear {
        assert flags[0];
        assert k == 0;
      }
    }
  }

  // ---------------------------------------------------------------------
  // RECEIVE_CLARIFICATION, QUERY_CONFIRMATION, API_CALL_CONSTRUCTION,
  // QUERY_REJECTION_HANDLER
  // ---------------------------------------------------------------------

  function ReceiveBody(userResponse: string, aspect: string, originalQuery: string, queryContext: Dict): string {
    "\n\nOriginal query: \"" + originalQuery +
    "\"\nAmbiguous aspect: " + aspect + "\nUser's clarifying response: \"" + userResponse +
    "\"\n\nCurrent query context: " + PyRepr(Obj(queryContext)) + ReceiveInstructions
  }

  /** get_receive_clarification_prompt */
  function ReceiveClarificationPrompt(userResponse: string, aspect: string, originalQuery: string, queryContext: Dict): (r: string)
    ensures StartsWith(r, Header(ReceiveClarification))
  {
    HeaderIsPrefix(ReceiveClarification, ReceiveBody(userResponse, aspect, originalQuery, queryContext));
    Header(ReceiveClarification) + ReceiveBody(userResponse, aspect, originalQuery, queryContext)
  }

  /** The confirmation prompt filters the dimensions itself; its list is get_time_dimensions(). */
  function ConfirmationTimeNames(md: CubeMetadata): (r: seq<string>)
    ensures r == TimeDimensions(md)
  {
    MetadataTools.NamesOfSelect(md.dimensions, TimeFlags(md.dimensions));
    NamesOf(Select(md.dimensions, TimeFlags(md.dimensions)))
  }

  /** The three "Available" lines shared by the confirmation and construction prompts. */
  function AvailableLists(md: CubeMetadata, timeNames: seq<string>): string {
    "\n- Measures: " + ListRepr(MeasureNames(md)) + "\n- Dimensions: " + ListRepr(DimensionNames(md)) +
    "\n- Time dimensions: " + ListRepr(timeNames)
  }

  function ConfirmationBody(originalQuery: string, queryContext: Dict, md: CubeMetadata): string {
    "\n\nOriginal query: \"" + originalQuery +
    "\"\nAccumulated context: " + PyRepr(Obj(queryContext)) + "\n\nAvailable metadata:" +
    AvailableLists(md, ConfirmationTimeNames(md)) + ConfirmationInstructions
  }

  /** get_query_confirmation_prompt */
  function QueryConfirmationPrompt(originalQuery: string, queryContext: Dict, md: CubeMetadata): (r: string)
    ensures StartsWith(r, Header(QueryConfirmation))
  {
    HeaderIsPrefix(QueryConfirmation, ConfirmationBody(originalQuery, queryContext, md));
    Header(QueryConfirmation) + ConfirmationBody(originalQuery, queryContext, md)
  }

  function ApiCallBody(confirmedParameters: Dict, md: CubeMetadata, originalQuery: string): string {
    "\n\nOriginal query: \"" + originalQuery +
    "\"\nConfirmed parameters: " + PyRepr(Obj(confirmedParameters)) + "\n\nAvailable in Cube:" +
    AvailableLists(md, TimeDimensions(md)) + ApiCallInstructions
  }

  /** get_api_call_construction_prompt */
  function ApiCallConstructionPrompt(confirmedParameters: Dict, md: CubeMetadata, originalQuery: string): (r: string)
    ensures StartsWith(r, Header(ApiCallConstruction))
  {
    HeaderIsPrefix(ApiCallConstruction, ApiCallBody(confirmedParameters, md, originalQuery));
    Header(ApiCallConstruction) + ApiCallBody(confirmedParameters, md, originalQuery)
  }

  /** The confirmation and construction prompts offer the same time dimensions. */
  lemma SameAvailableLists(md: CubeMetadata)
    ensures AvailableLists(md, ConfirmationTimeNames(md)) == AvailableLists(md, TimeDimensions(md))
  {
  }

  function RejectionBody(originalQuery: string, queryContext: Dict): string {
    "\n\nThe user rejected your interpretation of their query.\n\nOriginal query: \"" +
    originalQuery + "\"\nYour previous interpretation: " + PyRepr(Obj(queryContext)) + RejectionInstructions
  }

  /** get_rejection_handler_prompt */
  function RejectionHandlerPrompt(originalQuery: string, queryContext: Dict): (r: string)
    ensures StartsWith(r, Header(QueryRejectionHandler))
  {
    HeaderIsPrefix(QueryRejectionHandler, RejectionBody(originalQuery, queryContext));
    Header(QueryRejectionHandler) + RejectionBody(originalQuery, queryContext)
  }

  // ---------------------------------------------------------------------
  // build_state_prompt
  // ---------------------------------------------------------------------

  /** The keyword arguments build_state_prompt reads; an absent one takes its default. */
  datatype PromptArgs = PromptArgs(
    userQuery: Option<string>, ambiguousAspects: Option<seq<string>>, userResponse: Option<string>,
    ambiguousAspect: Option<string>, originalQuery: Option<string>, confirmedParameters: Option<Dict>)

  function TextArg(a: Option<string>): string {
    if a.Some? then a.value else ""
  }

  /** The six states that have a template. */
  predicate HasTemplate(s: AgentState) {
    !(s.Completed? || s.Error?)
  }

  /** The template of one of the six states, filled from the arguments and their defaults. */
  function TemplatePrompt(s: AgentState, md: CubeMetadata, queryContext: Dict, args: PromptArgs): (r: string)
    requires HasTemplate(s)
    ensures StartsWith(r, Header(s))
  {
    match s
    case QueryAssessment => QueryAssessmentPrompt(TextArg(args.userQuery), md, queryContext)
    case ClarificationRequest =>
      ClarificationRequestPrompt(if args.ambiguousAspects.Some? then args.ambiguousAspects.value else [],
        TextArg(args.userQuery), md, queryContext)
    case ReceiveClarification =>
      ReceiveClarificationPrompt(TextArg(args.userResponse), TextArg(args.ambiguousAspect),
        TextArg(args.originalQuery), queryContext)
    case QueryConfirmation => QueryConfirmationPrompt(TextArg(args.originalQuery), queryContext, md)
    case ApiCallConstruction =>
      ApiCallConstructionPrompt(if args.confirmedParameters.Some? then args.confirmedParameters.value else [],
        md, TextArg(args.originalQuery))
    case QueryRejectionHandler => RejectionHandlerPrompt(TextArg(args.originalQuery), queryContext)
  }

  /** build_state_prompt: the template of the state, or "Unknown state: AgentState.<NAME>". */
  function BuildStatePrompt(s: AgentState, md: CubeMetadata, queryContext: Dict, args: PromptArgs): (r: string)
    ensures HasTemplate(s) ==> StartsWith(r, Header(s))
    ensures !HasTemplate(s) ==> r == "Unknown state: " + StateText(s)
  {
    if HasTemplate(s) then TemplatePrompt(s, md, queryContext, args) else "Unknown state: " + StateText(s)
  }
}
