/** Chats, their logs, and what is published about them. */
module Chats {
  import opened Prelude

  /** Identifiers of chats, messages and tool calls. */
  type Uuid = nat

  type BranchId = string

  /** Token usage and cost of one operation; only carried along. */
  type Cost = nat

  /** A JSON value, by its printed form. */
  type Json = string

  const NULL: Json := "null"

  /** Root-first lineage of a chat, its own id last. */
  type ChatPath = p: seq<Uuid> | p != [] witness [0]

  function RootId(path: ChatPath): Uuid { path[0] }

  function Current(path: ChatPath): Uuid { path[|path| - 1] }

  function Depth(path: ChatPath): nat { |path| - 1 }

  datatype Role = System | Agent | User

  datatype TextMessage = TextMessage(role: Role, content: string)

  datatype ToolCallEvent =
    | Started(toolCallId: Uuid, toolName: string, arguments: Json)
    | Completed(toolCallId: Uuid, toolName: string, resultPreview: string)
    | Failed(toolCallId: Uuid, toolName: string, message: string)

  datatype EventBody =
    | Message(message: TextMessage)
    | ToolCall(toolCall: ToolCallEvent)
    | AppEvent

  datatype ChatEvent = ChatEvent(
    id: Uuid, parentId: Option<Uuid>, branchId: BranchId, body: EventBody, observability: Option<Cost>)

  datatype ContextState = Active | CompactedAway

  datatype LogEntry = LogEntry(event: ChatEvent, contextState: ContextState)

  datatype Branch = Branch(id: BranchId, head: Option<Uuid>)

  datatype Chat = Chat(id: Uuid, activeBranchId: BranchId, branches: seq<Branch>, events: seq<LogEntry>)

  datatype FinishReason = Stop | ToolCalls

  datatype Call = Call(name: string, arguments: Option<Json>)

  /** One completion of the model. */
  datatype Response = Response(
    message: TextMessage, toolCalls: seq<Call>, finishReason: FinishReason, observability: Option<Cost>)

  datatype BusPayload =
    | MessagePosted(message: TextMessage)
    | TextDelta(delta: string)
    | ThinkingDelta(delta: string)
    | ToolCalled(toolCall: ToolCallEvent)
    | TurnStarted
    | TurnFinished(reason: FinishReason)
    | AgentShutdown
    | Error(text: string)

  datatype BusEvent = BusEvent(path: ChatPath, payload: BusPayload)

  datatype Command = SubmitUserMessage(message: TextMessage) | SendUserMessage(message: TextMessage) | Shutdown
}
