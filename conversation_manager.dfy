/*
 * The bounded conversation history of the query orchestrator: a list of
 * message dictionaries, trimmed after every append to the newest
 * `maxMessages` entries, with projections for the chat API, a search for
 * the last Cube query, keyword topics, a summary and an integrity report.
 * Timestamps (datetime.now() in the source) are supplied by the caller.
 */
module Conversation {
  import opened Common
  import opened Json

  const DefaultMaxMessages: int := 6

  // ---------------------------------------------------------------------
  // Trimming
  // ---------------------------------------------------------------------

  /**
   * `if len(h) > m: h = h[-m:]`.  Python's slice makes the result a suffix of h
   * in every case: the newest m entries for m >= 1, everything for m == 0
   * (because -0 == 0), and h without its first -m entries for m < 0.
   */
  function Trim(h: seq<Dict>, m: int): (r: seq<Dict>)
    ensures |r| <= |h| && r == h[|h| - |r|..]
    ensures m >= 1 ==> |r| == (if |h| <= m then |h| else m)
    ensures m == 0 ==> r == h
    ensures m < 0 ==> |r| == (if |h| + m >= 0 then |h| + m else 0)
  {
    if |h| > m then PySliceFrom(h, -m) else h
  }

  /** `h[-m:] if h else []`, the history import_conversation installs. */
  function Imported(h: Option<seq<Dict>>, m: int): (r: seq<Dict>)
    ensures h.None? ==> r == []
    ensures h.Some? ==> r == Trim(h.value, m)
  {
    if h.None? || h.value == [] then [] else PySliceFrom(h.value, -m)
  }

  // ---------------------------------------------------------------------
  // Message records
  // ---------------------------------------------------------------------

  const CubeQueryPrefix := "I found data for your query: "
  const ClarificationPrefix := "I need clarification: "
  const ErrorPrefix := "Error occurred: "

  function UserMessage(message: string, timestamp: string): Dict {
    [("role", Str("user")), ("content", Str(message)), ("timestamp", Str(timestamp))]
  }

  /** The assistant's content, chosen by llm_response.get("response_type"). */
  function AssistantContent(llm: Dict): (r: Value)
    ensures GetOr(llm, "response_type", Null) == Str("cube_query") ==>
      r == Str(CubeQueryPrefix + PyStr(GetOr(llm, "interpretation", Str(""))))
    ensures GetOr(llm, "response_type", Null) == Str("clarification_needed") ==>
      r == Str(ClarificationPrefix + PyStr(GetOr(llm, "interpretation", Str(""))))
    ensures GetOr(llm, "response_type", Null) == Str("error") ==>
      r == Str(ErrorPrefix + PyStr(GetOr(llm, "interpretation", Str(""))))
    ensures GetOr(llm, "response_type", Null) !in [Str("cube_query"), Str("clarification_needed"), Str("error")] ==>
      r == GetOr(llm, "interpretation", Str("Response processed"))
  {
    var kind := GetOr(llm, "response_type", Null);
    var interpretation := PyStr(GetOr(llm, "interpretation", Str("")));
    if kind == Str("cube_query") then Str(CubeQueryPrefix + interpretation)
    else if kind == Str("clarification_needed") then Str(ClarificationPrefix + interpretation)
    else if kind == Str("error") then Str(ErrorPrefix + interpretation)
    else GetOr(llm, "interpretation", Str("Response processed"))
  }

  function AssistantMessage(llm: Dict, timestamp: string): Dict {
    [("role", Str("assistant")), ("content", AssistantContent(llm)), ("timestamp", Str(timestamp)),
     ("response_data", Obj(llm))]
  }

  /** Both kinds of record carry the three fields the integrity report asks for. */
  lemma RecordFields(m: Dict)
    requires exists message, timestamp :: m == UserMessage(message, timestamp)
    ensures HasKey(m, "role") && HasKey(m, "content") && HasKey(m, "timestamp") && RoleOf(m) == Str("user")
  {
    var message, timestamp :| m == UserMessage(message, timestamp);
    assert m[0].0 == "role" && m[1].0 == "content" && m[2].0 == "timestamp";
    DictGetAt(m, 0);
  }

  lemma AssistantFields(llm: Dict, timestamp: string)
    ensures var m := AssistantMessage(llm, timestamp);
      HasKey(m, "role") && HasKey(m, "content") && HasKey(m, "timestamp") &&
      RoleOf(m) == Str("assistant") && GetOr(m, "response_data", Obj([])) == Obj(llm)
  {
    var m := AssistantMessage(llm, timestamp);
    assert m[0].0 == "role" && m[1].0 == "content" && m[2].0 == "timestamp" && m[3].0 == "response_data";
    DictGetAt(m, 0);
    DictGetAt(m, 3);
  }

  // ---------------------------------------------------------------------
  // Projection for the chat API
  // ---------------------------------------------------------------------

  function SystemMessage(systemPrompt: string): Dict {
    [("role", Str("system")), ("content", Str(systemPrompt))]
  }

  predicate HasRoleAndContent(m: Dict) {
    HasKey(m, "role") && HasKey(m, "content")
  }

  /** {"role": m["role"], "content": m["content"]} */
  function ApiMessage(m: Dict): Dict
    requires HasRoleAndContent(m)
  {
    [("role", DictGet(m, "role").value), ("content", DictGet(m, "content").value)]
  }

  /**
   * The history with every entry cut down to role and content; the first
   * entry lacking either fails with the KeyError the subscript raises.
   */
  function Projection(h: seq<Dict>): (r: Result<seq<Dict>>)
    ensures r.Success? <==> forall i :: 0 <= i < |h| ==> HasRoleAndContent(h[i])
    ensures r.Success? ==> |r.value| == |h| && forall i :: 0 <= i < |h| ==> r.value[i] == ApiMessage(h[i])
  {
    if h == [] then Success([])
    else
      var last := h[|h| - 1];
      match Projection(h[..|h| - 1])
      case Failure(e) => Failure(e)
      case Success(front) =>
        if !HasKey(last, "role") then Failure(KeyErrorText("role"))
        else if !HasKey(last, "content") then Failure(KeyErrorText("content"))
        else Success(front + [ApiMessage(last)])
  }

  /** get_openai_messages: the system message, then the projected history. */
  function OpenaiMessages(h: seq<Dict>, systemPrompt: string): Result<seq<Dict>> {
    match Projection(h)
    case Failure(e) => Failure(e)
    case Success(ms) => Success([SystemMessage(systemPrompt)] + ms)
  }

  /** Once a prefix fails, the whole history fails with the same error. */
  lemma {:induction false} ProjectionFailureSticks(h: seq<Dict>, i: int)
    requires 0 <= i <= |h| && Projection(h[..i]).Failure?
    ensures Projection(h) == Projection(h[..i])
    decreases |h| - i
  {
    if i < |h| {
      var front := h[..|h| - 1];
      assert front[..i] == h[..i];
      ProjectionFailureSticks(front, i);
    } else {
      assert h[..i] == h;
    }
  }

  /** The API view is one longer than the history, starts with the system prompt and carries no response_data. */
  lemma OpenaiMessagesShape(h: seq<Dict>, systemPrompt: string)
    requires forall i :: 0 <= i < |h| ==> HasRoleAndContent(h[i])
    ensures OpenaiMessages(h, systemPrompt).Success?
    ensures var ms := OpenaiMessages(h, systemPrompt).value;
      |ms| == |h| + 1 && ms[0] == SystemMessage(systemPrompt) &&
      forall i :: 0 <= i < |h| ==>
        Some(GetOr(ms[i + 1], "role", Null)) == DictGet(h[i], "role") &&
        Some(GetOr(ms[i + 1], "content", Null)) == DictGet(h[i], "content") &&
        !HasKey(ms[i + 1], "response_data")
  {
    var ms := OpenaiMessages(h, systemPrompt).value;
    forall i | 0 <= i < |h|
      ensures Some(GetOr(ms[i + 1], "role", Null)) == DictGet(h[i], "role")
      ensures Some(GetOr(ms[i + 1], "content", Null)) == DictGet(h[i], "content")
      ensures !HasKey(ms[i + 1], "response_data")
    {
      assert ms[i + 1] == ApiMessage(h[i]);
      assert ms[i + 1][0].0 == "role" && ms[i + 1][1].0 == "content";
      DictGetAt(ms[i + 1], 0);
      DictGetAt(ms[i + 1], 1);
    }
  }

  // ---------------------------------------------------------------------
  // The last Cube query
  // ---------------------------------------------------------------------

  function RoleOf(m: Dict): Value {
    GetOr(m, "role", Null)
  }

  /**
   * Whether one message is an assistant reply carrying a Cube query, and the
   * query: `message.get("response_data", {})` must then be a dictionary, or
   * `.get` raises AttributeError.
   */
  function CubeQueryOf(m: Dict): Result<Option<Value>> {
    if RoleOf(m) != Str("assistant") then Success(None)
    else
      var data := GetOr(m, "response_data", Obj([]));
      if !data.Obj? then Failure(NoAttribute(data, "get"))
      else if GetOr(data.fields, "response_type", Null) == Str("cube_query") then
        Success(Some(GetOr(data.fields, "cube_query", Null)))
      else Success(None)
  }

  /** What CubeQueryOf says about each message, in history order. */
  function Outcomes(h: seq<Dict>): (r: seq<Result<Option<Value>>>)
    ensures |r| == |h| && forall i :: 0 <= i < |h| ==> r[i] == CubeQueryOf(h[i])
  {
    seq(|h|, i requires 0 <= i < |h| => CubeQueryOf(h[i]))
  }

  /** get_last_cube_query; None is Null. */
  function LastCubeQuery(h: seq<Dict>): Result<Value> {
    LastDecided(Outcomes(h), Null)
  }

  predicate Skipped(m: Dict) {
    CubeQueryOf(m) == Success(None)
  }

  /** A query found is the one of the newest matching message, with only non-matching messages after it. */
  lemma LastCubeQueryIsNewest(h: seq<Dict>, q: Value)
    requires LastCubeQuery(h) == Success(q)
    ensures ((forall i :: 0 <= i < |h| ==> Skipped(h[i])) && q == Null) ||
      exists k :: 0 <= k < |h| && CubeQueryOf(h[k]) == Success(Some(q)) && forall j :: k < j < |h| ==> Skipped(h[j])
  {
    LastDecidedIsNewest(Outcomes(h), Null, q);
  }

  /** With no matching message the result is None. */
  lemma NoMatchGivesNull(h: seq<Dict>)
    requires forall i :: 0 <= i < |h| ==> Skipped(h[i])
    ensures LastCubeQuery(h) == Success(Null)
  {
    LastDecidedOfNothing(Outcomes(h), Null);
  }

  /** After an assistant reply with a Cube query is added, that query is the last one. */
  lemma LastCubeQueryAfterReply(h: seq<Dict>, m: int, llm: Dict, timestamp: string)
    requires m >= 1
    requires GetOr(llm, "response_type", Null) == Str("cube_query")
    ensures LastCubeQuery(Trim(h + [AssistantMessage(llm, timestamp)], m)) == Success(GetOr(llm, "cube_query", Null))
  {
    var reply := AssistantMessage(llm, timestamp);
    AssistantFields(llm, timestamp);
    assert CubeQueryOf(reply) == Success(Some(GetOr(llm, "cube_query", Null)));
    var t := Trim(h + [reply], m);
    assert t[|t| - 1] == reply;
    var cs := Outcomes(t);
    assert cs[|cs| - 1] == CubeQueryOf(reply);
  }

  // ---------------------------------------------------------------------
  // Topics and summary
  // ---------------------------------------------------------------------

  /** (keyword searched in a user message, topic reported), in the order the source tests them. */
  const TopicTable: seq<(string, string)> :=
    [("revenue", "revenue"), ("event", "events"), ("ticket", "tickets"), ("sales", "sales")]

  /** message.get("content", "").lower() for a user message; other types have no lower(). */
  function LoweredContent(m: Dict): Result<string> {
    var c := GetOr(m, "content", Str(""));
    if c.Str? then Success(Lower(c.s)) else Failure(NoAttribute(c, "lower"))
  }

  predicate Mentions(m: Dict, keyword: string) {
    RoleOf(m) == Str("user") && LoweredContent(m).Success? && Contains(LoweredContent(m).value, keyword)
  }

  function TopicsIn(text: string, table: seq<(string, string)>): (r: seq<string>)
    ensures forall t :: t in r <==> exists k :: 0 <= k < |table| && table[k].1 == t && Contains(text, table[k].0)
  {
    if table == [] then []
    else (if Contains(text, table[0].0) then [table[0].1] else []) + TopicsIn(text, table[1..])
  }

  /** The topics one message contributes; only user messages count. */
  function MessageTopics(m: Dict): Result<seq<string>> {
    if RoleOf(m) != Str("user") then Success([])
    else
      match LoweredContent(m)
      case Failure(e) => Failure(e)
      case Success(text) => Success(TopicsIn(text, TopicTable))
  }

  /** The topics list before de-duplication, in message order. */
  function TopicHits(h: seq<Dict>): Result<seq<string>> {
    if h == [] then Success([])
    else
      match TopicHits(h[..|h| - 1])
      case Failure(e) => Failure(e)
      case Success(front) =>
        match MessageTopics(h[|h| - 1])
        case Failure(e) => Failure(e)
        case Success(ts) => Success(front + ts)
  }

  lemma {:induction false} TopicHitsFailureSticks(h: seq<Dict>, i: int)
    requires 0 <= i <= |h| && TopicHits(h[..i]).Failure?
    ensures TopicHits(h) == TopicHits(h[..i])
    decreases |h| - i
  {
    if i < |h| {
      var front := h[..|h| - 1];
      assert front[..i] == h[..i];
      TopicHitsFailureSticks(front, i);
    } else {
      assert h[..i] == h;
    }
  }

  /** The four keyword tests, written out in the order of the table. */
  lemma TopicsInTable(text: string)
    ensures TopicsIn(text, TopicTable) ==
      (if Contains(text, "revenue") then ["revenue"] else []) + (if Contains(text, "event") then ["events"] else []) +
      (if Contains(text, "ticket") then ["tickets"] else []) + (if Contains(text, "sales") then ["sales"] else [])
  {
    var t := TopicTable;
    assert t[1..][1..][1..][1..] == [];
    assert TopicsIn(text, t[1..][1..][1..]) == (if Contains(text, "sales") then ["sales"] else []);
    assert TopicsIn(text, t[1..][1..]) ==
      (if Contains(text, "ticket") then ["tickets"] else []) + TopicsIn(text, t[1..][1..][1..]);
    assert TopicsIn(text, t[1..]) == (if Contains(text, "event") then ["events"] else []) + TopicsIn(text, t[1..][1..]);
  }

  /** get_conversation_topics: the topics without duplicates. */
  function Topics(h: seq<Dict>): Result<seq<string>> {
    match TopicHits(h)
    case Failure(e) => Failure(e)
    case Success(ts) => Success(Distinct(ts))
  }

  /** A topic is reported exactly when some user message mentions its keyword. */
  lemma {:induction false} TopicHitsMentioned(h: seq<Dict>, t: string)
    requires TopicHits(h).Success?
    ensures t in TopicHits(h).value <==>
      exists i, k :: 0 <= i < |h| && 0 <= k < |TopicTable| && TopicTable[k].1 == t && Mentions(h[i], TopicTable[k].0)
  {
    if h != [] {
      var front := h[..|h| - 1];
      var last := h[|h| - 1];
      TopicHitsMentioned(front, t);
      assert TopicHits(h).value == TopicHits(front).value + MessageTopics(last).value;
      if exists i, k :: 0 <= i < |h| && 0 <= k < |TopicTable| && TopicTable[k].1 == t && Mentions(h[i], TopicTable[k].0) {
        var i, k :| 0 <= i < |h| && 0 <= k < |TopicTable| && TopicTable[k].1 == t && Mentions(h[i], TopicTable[k].0);
        if i < |h| - 1 {
          assert front[i] == h[i];
        }
      }
      if t in MessageTopics(last).value {
        var k :| 0 <= k < |TopicTable| && TopicTable[k].1 == t && Contains(LoweredContent(last).value, TopicTable[k].0);
        assert Mentions(h[|h| - 1], TopicTable[k].0);
      }
      if t in TopicHits(front).value {
        var i, k :| 0 <= i < |front| && 0 <= k < |TopicTable| && TopicTable[k].1 == t && Mentions(front[i], TopicTable[k].0);
        assert Mentions(h[i], TopicTable[k].0);
      }
    }
  }

  lemma TopicsMentioned(h: seq<Dict>, t: string)
    requires Topics(h).Success?
    ensures t in Topics(h).value <==>
      exists i, k :: 0 <= i < |h| && 0 <= k < |TopicTable| && TopicTable[k].1 == t && Mentions(h[i], TopicTable[k].0)
  {
    TopicHitsMentioned(h, t);
  }

  /** len([m for m in h if m.get("role") == role]) */
  function CountRole(h: seq<Dict>, role: string): (r: nat)
    ensures r <= |h|
  {
    if h == [] then 0
    else CountRole(h[..|h| - 1], role) + (if RoleOf(h[|h| - 1]) == Str(role) then 1 else 0)
  }

  /** _generate_summary */
  function Summary(h: seq<Dict>): Result<string> {
    if h == [] then Success("No conversation history")
    else
      match Topics(h)
      case Failure(e) => Failure(e)
      case Success(ts) =>
        Success(NatToString(CountRole(h, "user")) + " user queries, " + NatToString(CountRole(h, "assistant")) +
          " responses about " + (if ts == [] then "general queries" else Join(ts, ", ")))
  }

  /** get_conversation_context; the last timestamp is a subscript and may raise KeyError. */
  function ContextOf(h: seq<Dict>, m: int): Result<Dict> {
    if h != [] && !HasKey(h[|h| - 1], "timestamp") then Failure(KeyErrorText("timestamp"))
    else
      match Summary(h)
      case Failure(e) => Failure(e)
      case Success(summary) =>
        Success([("message_count", Int(|h|)), ("max_messages", Int(m)), ("has_history", Bool(|h| > 0)),
                 ("last_message_timestamp", if h == [] then Null else DictGet(h[|h| - 1], "timestamp").value),
                 ("conversation_summary", Str(summary))])
  }

  // ---------------------------------------------------------------------
  // Integrity report
  // ---------------------------------------------------------------------

  function MissingText(i: nat, field: string): string {
    "Message " + NatToString(i) + " missing '" + field + "' field"
  }

  function MissingIssue(i: nat, m: Dict, field: string): seq<string> {
    if HasKey(m, field) then [] else [MissingText(i, field)]
  }

  predicate KnownRole(m: Dict) {
    RoleOf(m) == Str("user") || RoleOf(m) == Str("assistant")
  }

  /** The issues of message number i, in the order the source checks them. */
  function MessageIssues(i: nat, m: Dict): (r: seq<string>)
    ensures |r| <= 4
  {
    MissingIssue(i, m, "role") + MissingIssue(i, m, "content") + MissingIssue(i, m, "timestamp") +
    (if KnownRole(m) then [] else ["Message " + NatToString(i) + " has invalid role: " + PyStr(RoleOf(m))])
  }

  function IntegrityIssues(h: seq<Dict>): seq<string> {
    if h == [] then [] else IntegrityIssues(h[..|h| - 1]) + MessageIssues(|h| - 1, h[|h| - 1])
  }

  predicate WellFormed(m: Dict) {
    HasKey(m, "role") && HasKey(m, "content") && HasKey(m, "timestamp") && KnownRole(m)
  }

  /** The checks of one message, in the order the source makes them. */
  method CheckMessage(i: nat, m: Dict) returns (found: seq<string>)
    ensures found == MessageIssues(i, m)
  {
    found := [];
    if !HasKey(m, "role") { found := found + [MissingText(i, "role")]; }
    if !HasKey(m, "content") { found := found + [MissingText(i, "content")]; }
    if !HasKey(m, "timestamp") { found := found + [MissingText(i, "timestamp")]; }
    if !KnownRole(m) { found := found + ["Message " + NatToString(i) + " has invalid role: " + PyStr(RoleOf(m))]; }
  }

  lemma IntegrityStep(h: seq<Dict>, i: nat)
    requires i < |h|
    ensures IntegrityIssues(h[..i + 1]) == IntegrityIssues(h[..i]) + MessageIssues(i, h[i])
  {
    assert h[..i + 1][..i] == h[..i];
  }

  /** No issue is reported exactly when every message is well formed. */
  lemma {:induction false} NoIssuesIffWellFormed(h: seq<Dict>)
    ensures IntegrityIssues(h) == [] <==> forall i :: 0 <= i < |h| ==> WellFormed(h[i])
  {
    if h != [] {
      var front := h[..|h| - 1];
      NoIssuesIffWellFormed(front);
      assert forall i :: 0 <= i < |front| ==> front[i] == h[i];
      assert MessageIssues(|h| - 1, h[|h| - 1]) == [] <==> WellFormed(h[|h| - 1]);
    }
  }

  /** Messages the manager itself adds keep a clean history clean. */
  lemma AddingKeepsIntegrity(h: seq<Dict>, m: int, added: Dict)
    requires IntegrityIssues(h) == []
    requires (exists message, timestamp :: added == UserMessage(message, timestamp)) ||
      (exists llm, timestamp :: added == AssistantMessage(llm, timestamp))
    ensures IntegrityIssues(Trim(h + [added], m)) == []
  {
    NoIssuesIffWellFormed(h);
    AddedWellFormed(added);
    var h' := h + [added];
    assert forall i :: 0 <= i < |h'| ==> WellFormed(h'[i]);
    var t := Trim(h', m);
    SuffixWellFormed(h', t);
    NoIssuesIffWellFormed(t);
  }

  /** The records the manager builds are well formed. */
  lemma AddedWellFormed(added: Dict)
    requires (exists message, timestamp :: added == UserMessage(message, timestamp)) ||
      (exists llm, timestamp :: added == AssistantMessage(llm, timestamp))
    ensures WellFormed(added)
  {
    if exists message, timestamp :: added == UserMessage(message, timestamp) {
      RecordFields(added);
    } else {
      var llm, timestamp :| added == AssistantMessage(llm, timestamp);
      AssistantFields(llm, timestamp);
    }
  }

  lemma SuffixWellFormed(h: seq<Dict>, t: seq<Dict>)
    requires |t| <= |h| && t == h[|h| - |t|..]
    requires forall i :: 0 <= i < |h| ==> WellFormed(h[i])
    ensures forall i :: 0 <= i < |t| ==> WellFormed(t[i])
  {
    assert forall i :: 0 <= i < |t| ==> t[i] == h[|h| - |t| + i];
  }

  // ---------------------------------------------------------------------
  // The manager
  // ---------------------------------------------------------------------

  class ConversationManager {
    var maxMessages: int
    var history: seq<Dict>

    /** With a positive maximum the history never holds more entries than it. */
    predicate Bounded()
      reads this
    {
      maxMessages >= 1 ==> |history| <= maxMessages
    }

    constructor (maxMessages: int)
      ensures this.maxMessages == maxMessages && history == [] && Bounded()
    {
      this.maxMessages := maxMessages;
      history := [];
    }

    method TrimHistory()
      modifies this
      ensures maxMessages == old(maxMessages) && history == Trim(old(history), maxMessages)
      ensures Bounded()
    {
      if |history| > maxMessages {
        history := PySliceFrom(history, -maxMessages);
      }
    }

    method AddUserMessage(message: string, timestamp: string)
      modifies this
      ensures maxMessages == old(maxMessages)
      ensures history == Trim(old(history) + [UserMessage(message, timestamp)], maxMessages)
      ensures Bounded()
    {
      history := history + [UserMessage(message, timestamp)];
      TrimHistory();
    }

    method AddAssistantMessage(llm: Dict, timestamp: string)
      modifies this
      ensures maxMessages == old(maxMessages)
      ensures history == Trim(old(history) + [AssistantMessage(llm, timestamp)], maxMessages)
      ensures Bounded()
    {
      history := history + [AssistantMessage(llm, timestamp)];
      TrimHistory();
    }

    method GetOpenaiMessages(systemPrompt: string) returns (r: Result<seq<Dict>>)
      ensures r == OpenaiMessages(history, systemPrompt)
    {
      var messages := [];
      var i := 0;
      while i < |history|
        invariant 0 <= i <= |history|
        invariant Projection(history[..i]) == Success(messages)
      {
        var m := history[i];
        assert history[..i + 1][..i] == history[..i];
        if !HasKey(m, "role") {
          ProjectionFailureSticks(history, i + 1);
          return Failure(KeyErrorText("role"));
        }
        if !HasKey(m, "content") {
          ProjectionFailureSticks(history, i + 1);
          return Failure(KeyErrorText("content"));
        }
        messages := messages + [ApiMessage(m)];
        i := i + 1;
      }
      assert history[..i] == history;
      r := Success([SystemMessage(systemPrompt)] + messages);
    }

    method GetConversationContext() returns (r: Result<Dict>)
      ensures r == ContextOf(history, maxMessages)
    {
      if history != [] && !HasKey(history[|history| - 1], "timestamp") {
        return Failure(KeyErrorText("timestamp"));
      }
      var summary := GenerateSummary();
      if summary.Failure? {
        return Failure(summary.error);
      }
      var last := if history == [] then Null else DictGet(history[|history| - 1], "timestamp").value;
      r := Success([("message_count", Int(|history|)), ("max_messages", Int(maxMessages)),
                    ("has_history", Bool(|history| > 0)), ("last_message_timestamp", last),
                    ("conversation_summary", Str(summary.value))]);
    }

    method ClearConversation()
      modifies this
      ensures maxMessages == old(maxMessages) && history == [] && Bounded()
    {
      history := [];
    }

    /** A copy: the history is a value, so later changes to either side do not reach the other. */
    method ExportConversation() returns (r: seq<Dict>)
      ensures r == history
    {
      r := history;
    }

    /** `history[-max:] if history else []`; None is an absent history. */
    method ImportConversation(h: Option<seq<Dict>>)
      modifies this
      ensures maxMessages == old(maxMessages) && history == Imported(h, maxMessages)
      ensures Bounded()
    {
      if h.None? || h.value == [] {
        history := [];
      } else {
        history := PySliceFrom(h.value, -maxMessages);
      }
    }

    method GetLastCubeQuery() returns (r: Result<Value>)
      ensures r == LastCubeQuery(history)
    {
      ghost var outcomes := Outcomes(history);
      var i := |history|;
      assert outcomes[..i] == outcomes;
      while i > 0
        invariant 0 <= i <= |history|
        invariant LastCubeQuery(history) == LastDecided(outcomes[..i], Null)
      {
        var found := CubeQueryOf(history[i - 1]);
        assert outcomes[..i][..i - 1] == outcomes[..i - 1];
        match found
        case Failure(e) => return Failure(e);
        case Success(Some(q)) => return Success(q);
        case Success(None) =>
        i := i - 1;
      }
      r := Success(Null);
    }

    /** The four keyword tests on a lowered user message. */
    static method KeywordTopics(text: string) returns (found: seq<string>)
      ensures found == TopicsIn(text, TopicTable)
    {
      TopicsInTable(text);
      found := [];
      if Contains(text, "revenue") { found := found + ["revenue"]; }
      if Contains(text, "event") { found := found + ["events"]; }
      if Contains(text, "ticket") { found := found + ["tickets"]; }
      if Contains(text, "sales") { found := found + ["sales"]; }
    }

    /** The topics one message of the history contributes. */
    static method TopicsOfMessage(m: Dict) returns (r: Result<seq<string>>)
      ensures r == MessageTopics(m)
    {
      if RoleOf(m) != Str("user") {
        return Success([]);
      }
      var content := GetOr(m, "content", Str(""));
      if !content.Str? {
        return Failure(NoAttribute(content, "lower"));
      }
      var found := KeywordTopics(Lower(content.s));
      r := Success(found);
    }

    method GetConversationTopics() returns (r: Result<seq<string>>)
      ensures r == Topics(history)
    {
      var topics := [];
      var i := 0;
      while i < |history|
        invariant 0 <= i <= |history|
        invariant TopicHits(history[..i]) == Success(topics)
      {
        assert history[..i + 1][..i] == history[..i];
        var found := TopicsOfMessage(history[i]);
        if found.Failure? {
          TopicHitsFailureSticks(history, i + 1);
          return Failure(found.error);
        }
        topics := topics + found.value;
        i := i + 1;
      }
      assert history[..i] == history;
      r := Success(Distinct(topics));
    }

    method GenerateSummary() returns (r: Result<string>)
      ensures r == Summary(history)
    {
      if history == [] {
        return Success("No conversation history");
      }
      var users := 0;
      var assistants := 0;
      var i := 0;
      while i < |history|
        invariant 0 <= i <= |history|
        invariant users == CountRole(history[..i], "user")
        invariant assistants == CountRole(history[..i], "assistant")
      {
        assert history[..i + 1][..i] == history[..i];
        if RoleOf(history[i]) == Str("user") { users := users + 1; }
        if RoleOf(history[i]) == Str("assistant") { assistants := assistants + 1; }
        i := i + 1;
      }
      assert history[..i] == history;
      var topics := GetConversationTopics();
      if topics.Failure? {
        return Failure(topics.error);
      }
      var topicText := if topics.value == [] then "general queries" else Join(topics.value, ", ");
      r := Success(NatToString(users) + " user queries, " + NatToString(assistants) + " responses about " + topicText);
    }

    method ValidateConversationIntegrity() returns (issues: seq<string>)
      ensures issues == IntegrityIssues(history)
    {
      issues := [];
      var i := 0;
      while i < |history|
        invariant 0 <= i <= |history|
        invariant issues == IntegrityIssues(history[..i])
      {
        var found := CheckMessage(i, history[i]);
        IntegrityStep(history, i);
        issues := issues + found;
        i := i + 1;
      }
      assert history[..i] == history;
    }
  }
}
