/*
 * The response every tool of the data analyst service returns.
 */
module ToolModels {

  /** A tool's verdict: whether it succeeded, its result text and its error text ("" when none). */
  datatype ToolResponse = ToolResponse(success: bool, data: string, error: string)
}
