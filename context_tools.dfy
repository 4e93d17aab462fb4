/*
 * The tools through which the assessor's model writes the session's
 * accumulated query context: set one key, read the whole context, clear it.
 */
module ContextTools {
  import opened Common
  import opened Json
  import opened AgentSchemas

  datatype UpdateReport = UpdateReport(success: bool, key: string, value: Value, message: string, currentContext: Dict)

  function UpdateMessage(key: string, value: Value): string {
    "Updated query context: " + key + " = " + PyStr(value)
  }

  /** update_query_context */
  method UpdateQueryContext(ctx: ConversationContext, key: string, value: Value) returns (r: UpdateReport)
    modifies ctx
    ensures ctx.queryContext == DictSet(old(ctx.queryContext), key, value)
    ensures ctx.messages == old(ctx.messages)
    ensures r == UpdateReport(true, key, value, UpdateMessage(key, value), ctx.queryContext)
    ensures DictGet(r.currentContext, key) == Some(value)
  {
    ctx.UpdateContext(key, value);
    DictSetGetSame(old(ctx.queryContext), key, value);
    r := UpdateReport(true, key, value, UpdateMessage(key, value), ctx.queryContext);
  }

  datatype ContextView = ContextView(queryContext: Dict, contextKeys: seq<string>, message: string)

  /** get_query_context: a read; the key list is the context's keys in order. */
  function GetQueryContext(ctx: ConversationContext): (r: ContextView)
    reads ctx
    ensures r.queryContext == ctx.queryContext
    ensures |r.contextKeys| == |ctx.queryContext|
    ensures forall i :: 0 <= i < |r.contextKeys| ==> r.contextKeys[i] == ctx.queryContext[i].0
  {
    ContextView(ctx.queryContext, Keys(ctx.queryContext), "Retrieved current query context")
  }

  datatype ClearReport = ClearReport(success: bool, message: string, queryContext: Dict)

  /** clear_query_context */
  method ClearQueryContext(ctx: ConversationContext) returns (r: ClearReport)
    modifies ctx
    ensures ctx.queryContext == [] && ctx.messages == old(ctx.messages)
    ensures r == ClearReport(true, "Query context cleared", [])
  {
    ctx.queryContext := [];
    r := ClearReport(true, "Query context cleared", []);
  }
}
