/** The error a tool raises to its MCP client: a JSON-RPC code and a message. */
module Mcp {

  datatype McpError = McpError(code: int, message: string)

  /** JSON-RPC "invalid params". */
  const INVALID_PARAMS: int := -32602

  /** JSON-RPC "internal error". */
  const INTERNAL_ERROR: int := -32603

  /**
   * How a tool call can end without a result: an argument the declared
   * field constraints refuse before the tool runs, an `McpError` the tool
   * raises on purpose, or any other exception that escapes it.
   */
  datatype ToolError =
    | InvalidArgument(name: string)
    | Raised(error: McpError)
    | Uncaught(message: string)
}
