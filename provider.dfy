/**
 * The provider-agnostic vocabulary between the agent loop and an LLM
 * provider: streaming events, tool definitions and requests.
 */
module Provider {

  import opened Messages
  import opened Tools

  /**
   * Token counts of one response. The type is read by the agent loop but
   * declared nowhere in the repository; it is given the three counters the
   * agent copies into the assistant message.
   */
  datatype Usage = Usage(inputTokens: nat, outputTokens: nat, totalTokens: nat)

  const NoUsage := Usage(0, 0, 0)

  /**
   * One event of a streaming response. For `ToolCallEnd` the input is the
   * complete JSON input of the call; for `ToolCallDelta` it is one fragment.
   * An error is carried as its message text.
   */
  datatype StreamEvent =
    | TextDelta(text: string)
    | ToolCallStart(id: string, name: string)
    | ToolCallDelta(id: string, name: string, input: string)
    | ToolCallEnd(id: string, name: string, input: string)
    | Done(usage: Usage)
    | Error(error: string)
  {
    /** Done and Error end a stream */
    predicate IsTerminal()
    {
      Done? || Error?
    }
  }

  /** A tool as the model is told about it */
  datatype ToolDefinition = ToolDefinition(name: string, description: string, parameters: Schema)

  datatype Request = Request(systemPrompt: string, messages: seq<Message>, tools: seq<ToolDefinition>, maxTokens: int)

  /** The definition of one tool: its name, description and parameters, unchanged */
  function Definition(t: Tool): (d: ToolDefinition)
    ensures d.name == t.name && d.description == t.description && d.parameters == t.parameters
  {
    ToolDefinition(t.name, t.description, t.parameters)
  }

  /**
   * One definition per registered tool, in registration order; unlike the
   * agent's own tool list, no tool is filtered out.
   */
  method ToolsToDefinitions(registry: Registry) returns (defs: seq<ToolDefinition>)
    requires registry.Valid()
    ensures |defs| == |registry.order|
    ensures forall i :: 0 <= i < |defs| ==> defs[i] == Definition(registry.Contents()[i])
    ensures forall i :: 0 <= i < |defs| ==> defs[i].name == registry.order[i]
  {
    var all := registry.All();
    defs := [];
    for i := 0 to |all|
      invariant |defs| == i
      invariant forall k :: 0 <= k < i ==> defs[k] == Definition(all[k])
    {
      defs := defs + [Definition(all[i])];
    }
  }
}
