/** The query-executor tool `db_query_tool` of `tools.py`, as written: it
    runs a query on the store and maps an empty reply to a retry message.
    `agent.py` lists it among its tools but builds the agent from the SQL
    toolkit alone, so the agent does not call it. The store call
    `db.run_no_throw` is a parameter; it returns the rows as text, or an
    error text, and never raises. */
module Tools {

  /** The fixed reply that asks the agent to try another query. */
  const RetryMessage := "Error: Query failed. Please rewrite your query and try again."

  /** Maps the store's reply to the tool's reply: an empty (falsy) reply
      becomes the retry message, anything else is passed through. */
  function ToolReply(storeReply: string): (r: string)
    ensures r != ""
    ensures storeReply == "" ==> r == RetryMessage
    ensures storeReply != "" ==> r == storeReply
  {
    if storeReply == "" then RetryMessage else storeReply
  }

  /** `db_query_tool`: the query text is handed to the store exactly once and
      unmodified. There is no whitelist of statements here; the ban on data
      modification exists only in the agent's instructions. */
  function DbQueryTool(query: string, runNoThrow: string -> string): (r: string)
    ensures r != ""
    ensures runNoThrow(query) != "" ==> r == runNoThrow(query)
    ensures runNoThrow(query) == "" ==> r == RetryMessage
  {
    var result := runNoThrow(query);
    ToolReply(result)
  }

  /** The tool's reply is the retry message exactly when the store gave
      nothing back or gave back that very text. */
  lemma RetryMessageExactly(storeReply: string)
    ensures ToolReply(storeReply) == RetryMessage <==> storeReply == "" || storeReply == RetryMessage
  {
  }

  /** There is no statement gate: whatever the query text, data-modifying
      statements such as DELETE or DROP included, it goes to the store as it
      is, and the store's reply is mapped as for any query. */
  lemma {:induction false} WriteStatementsAreForwarded(query: string, runNoThrow: string -> string)
    ensures DbQueryTool(query, runNoThrow) == ToolReply(runNoThrow(query))
    ensures runNoThrow(query) != "" ==> DbQueryTool(query, runNoThrow) == runNoThrow(query)
  {
  }

  /** The tool's reply depends on the query only through the store's reply to
      that very query text. */
  lemma {:induction false} ReplyDependsOnlyOnStore(query: string, store1: string -> string, store2: string -> string)
    requires store1(query) == store2(query)
    ensures DbQueryTool(query, store1) == DbQueryTool(query, store2)
  {
  }
}
