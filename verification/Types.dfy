/** The conversation's values: neoagent/core/types.py and neoagent/v2/schema.py. */
module Types {
  import opened Prelude

  /** A parsed JSON value; object keys are unordered. */
  datatype Json =
    | JNull
    | JBool(b: bool)
    | JInt(i: int)
    | JStr(s: string)
    | JArr(items: seq<Json>)
    | JObj(fields: map<string, Json>)

  /** A point in time, kept as its ISO 8601 text. */
  datatype DateTime = DateTime(iso: string)

  datatype Role = User | Assistant

  datatype Block =
    | Text(text: string)
    | ToolUse(id: string, name: string, input: Json)
    | ToolResult(toolUseId: string, content: string, isError: bool)

  datatype Content = Str(s: string) | Blocks(blocks: seq<Block>)

  datatype Message = Message(id: Option<string>, turn: Option<int>, role: Role, content: Content)

  datatype BatchMember = BatchMember(id: string, role: string, preview: string, turn: Option<int>)

  datatype Batch = Batch(
    sessionId: string, batchId: string, turnsFrom: int, turnsTo: int,
    timeFrom: DateTime, timeTo: DateTime, summary: Json,
    members: seq<BatchMember>, trigger: string, createdAt: DateTime)

  datatype FreedToolResult = FreedToolResult(
    id: string, toolName: string, size: nat, preview: string, originalContent: string)

  function ToolUseIdsOf(blocks: seq<Block>): seq<string> {
    Map(Filter(blocks, (b: Block) => b.ToolUse?), (b: Block) => if b.ToolUse? then b.id else "")
  }

  function ResultIdsOf(blocks: seq<Block>): seq<string> {
    Map(Filter(blocks, (b: Block) => b.ToolResult?), (b: Block) => if b.ToolResult? then b.toolUseId else "")
  }

  /** The ids of a message's tool_use blocks, in order. */
  function ToolUseIds(m: Message): seq<string> {
    if m.content.Blocks? then ToolUseIdsOf(m.content.blocks) else []
  }

  /** The ids answered by a message's tool_result blocks, in order. */
  function ResultIds(m: Message): seq<string> {
    if m.content.Blocks? then ResultIdsOf(m.content.blocks) else []
  }
}
