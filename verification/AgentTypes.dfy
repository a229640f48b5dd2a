/** Messages, tool outcomes and events of packages/agent/src/types.ts. Texts, arguments and details
    stay opaque, the loop's own texts are named, and timestamps are left out. */
module AgentTypes {
  import opened Prelude

  /** Tool call ids are only ever compared. */
  type CallId = nat

  datatype ToolCall = ToolCall(id: CallId, name: string, args: string)

  datatype Text =
    | Given(text: string)
    | ToolNotFound(tool: string)
    | OperationAborted
    | ExecutionBlocked
    | NotExecutedWhenTruncated(tool: string)
    | NoContent
    | NoDetails

  datatype Block = TextBlock(text: string) | CallBlock(call: ToolCall)

  datatype StopReason = Pending | Stop | Length | ToolUse | Errored | Aborted | Deferred

  datatype AssistantMessage = AssistantMessage(
    content: seq<Block>,
    stopReason: StopReason,
    errorMessage: Option<string>)

  /** The result of a tool; `content` can be missing because tools may be untyped. */
  datatype ToolOutput = ToolOutput(
    content: Option<Text>,
    details: Text,
    usage: Option<string>,
    addedToolNames: seq<string>,
    terminate: Option<bool>)

  datatype ToolResult = ToolResult(
    toolCallId: CallId,
    toolName: string,
    content: Text,
    details: Text,
    usage: Option<string>,
    addedToolNames: seq<string>,
    isError: bool)

  /** `Other` stands for user, developer and custom messages. */
  datatype Message = Other(text: string) | FromAssistant(assistant: AssistantMessage) | FromTool(result: ToolResult)

  datatype AgentEvent =
    | AgentStart
    | AgentEnd(messages: seq<Message>)
    | TurnStart
    | TurnEnd(response: AssistantMessage, toolResults: seq<Message>)
    | MessageStart(message: Message)
    | MessageUpdate(message: Message)
    | MessageEnd(message: Message)
    | ToolStart(call: ToolCall)
    | ToolUpdate(call: ToolCall, partial: ToolOutput)
    | ToolEnd(call: ToolCall, output: ToolOutput, isError: bool)

  type Trace = seq<AgentEvent>

  function ToolCalls(content: seq<Block>): seq<ToolCall> {
    if content == [] then []
    else (if content[0].CallBlock? then [content[0].call] else []) + ToolCalls(content[1..])
  }

  /** Start and end of a message that is not streamed. */
  function Pair(message: Message): Trace {
    [MessageStart(message), MessageEnd(message)]
  }

  function Pairs(messages: seq<Message>): Trace {
    if messages == [] then [] else Pair(messages[0]) + Pairs(messages[1..])
  }
}
