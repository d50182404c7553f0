/**
 * The conversation data model: roles, tool calls, tool results and
 * messages, with the constructors the rest of the system uses.
 *
 * Messages carry the three token counters that the agent loop and the
 * store read and write. The random identifier and the creation time are
 * not part of this model.
 */
module Messages {

  /** Who authored a message */
  datatype Role = User | Assistant | System | Tool

  /** The role as it is written on the wire and in the store */
  function RoleName(r: Role): string
  {
    match r
    case User => "user"
    case Assistant => "assistant"
    case System => "system"
    case Tool => "tool"
  }

  /** A tool invocation requested by the model; `input` is raw JSON text */
  datatype ToolCall = ToolCall(id: string, name: string, input: string)

  /** The output of executing one tool call */
  datatype ToolResult = ToolResult(toolCallId: string, name: string, output: string, isError: bool)

  datatype Message = Message(
    sessionId: string,
    role: Role,
    content: string,
    toolCalls: seq<ToolCall>,
    toolResults: seq<ToolResult>,
    inputTokens: nat,
    outputTokens: nat,
    totalTokens: nat)
  {
    /** The message requests tools */
    predicate IsToolCall()
    {
      |toolCalls| > 0
    }

    /** The message carries tool results */
    predicate IsToolResult()
    {
      |toolResults| > 0
    }
  }

  /** A message never carries both tool calls and tool results */
  predicate WellFormed(m: Message)
  {
    !(m.IsToolCall() && m.IsToolResult())
  }

  function NewUserMessage(sessionId: string, content: string): (m: Message)
    ensures m.role == User && m.sessionId == sessionId && m.content == content
    ensures !m.IsToolCall() && !m.IsToolResult() && WellFormed(m)
    ensures m.inputTokens == m.outputTokens == m.totalTokens == 0
  {
    Message(sessionId, User, content, [], [], 0, 0, 0)
  }

  function NewAssistantMessage(sessionId: string, content: string, toolCalls: seq<ToolCall>): (m: Message)
    ensures m.role == Assistant && m.sessionId == sessionId && m.content == content
    ensures m.toolCalls == toolCalls
    ensures m.IsToolCall() <==> |toolCalls| > 0
    ensures !m.IsToolResult() && WellFormed(m)
    ensures m.inputTokens == m.outputTokens == m.totalTokens == 0
  {
    Message(sessionId, Assistant, content, toolCalls, [], 0, 0, 0)
  }

  function NewToolResultMessage(sessionId: string, results: seq<ToolResult>): (m: Message)
    ensures m.role == Tool && m.sessionId == sessionId && m.content == ""
    ensures m.toolResults == results
    ensures m.IsToolResult() <==> |results| > 0
    ensures !m.IsToolCall() && WellFormed(m)
    ensures m.inputTokens == m.outputTokens == m.totalTokens == 0
  {
    Message(sessionId, Tool, "", [], results, 0, 0, 0)
  }

  function NewSystemMessage(sessionId: string, content: string): (m: Message)
    ensures m.role == System && m.sessionId == sessionId && m.content == content
    ensures !m.IsToolCall() && !m.IsToolResult() && WellFormed(m)
    ensures m.inputTokens == m.outputTokens == m.totalTokens == 0
  {
    Message(sessionId, System, content, [], [], 0, 0, 0)
  }
}
