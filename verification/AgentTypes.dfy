/**
 The data the agent engine works on: messages, tool calls and results, the ten loop
 events, and what the outside world answers during a run.

 JSON payloads are opaque strings here; model identity, token usage and timestamps are
 not represented, since no branch of the engine looks at them.
 */
module AgentTypes {
  import opened Options

  type Json = string

  datatype ToolCall = ToolCall(id: string, name: string, arguments: Json)

  datatype Block =
    | Text(text: string)
    | Thinking(thinking: string)
    | CallBlock(call: ToolCall)

  datatype StopReason = Stop | Length | ToolUse | Error | Aborted

  datatype AssistantMessage = AssistantMessage(
    content: seq<Block>,
    stopReason: StopReason,
    errorMessage: Option<string>)

  datatype ToolResult = ToolResult(
    content: seq<string>,
    details: Json,
    addedToolNames: Option<seq<string>>,
    terminate: Option<bool>)

  datatype ToolResultMessage = ToolResultMessage(
    toolCallId: string,
    toolName: string,
    content: seq<string>,
    details: Json,
    addedToolNames: Option<seq<string>>,
    isError: bool)

  /** User text and the harness's own variants are all `Other`: the engine never inspects them. */
  datatype AgentMessage =
    | Assistant(assistant: AssistantMessage)
    | ToolReply(reply: ToolResultMessage)
    | Other(body: string)

  datatype AgentEvent =
    | AgentStart
    | AgentEnd(messages: seq<AgentMessage>)
    | TurnStart
    | TurnEnd(message: AgentMessage, toolResults: seq<ToolResultMessage>)
    | MessageStart(message: AgentMessage)
    | MessageUpdate(message: AgentMessage)
    | MessageEnd(message: AgentMessage)
    | ToolExecutionStart(toolCallId: string, toolName: string, args: Json)
    | ToolExecutionUpdate(toolCallId: string, toolName: string, args: Json, partialResult: ToolResult)
    | ToolExecutionEnd(toolCallId: string, toolName: string, result: ToolResult, isError: bool)

  datatype ThinkingLevel = Off | Minimal | Low | Medium | High | Xhigh | Max

  datatype ExecutionMode = Sequential | Parallel

  datatype Tool = Tool(name: string, executionMode: Option<ExecutionMode>)

  // ---------------------------------------------------------------- the environment

  /** One item of a provider stream. `Delta` stands for the nine events carrying a partial snapshot. */
  datatype StreamItem =
    | StreamStart(partial: AssistantMessage)
    | Delta(partial: AssistantMessage)
    | StreamDone(message: AssistantMessage)
    | StreamError(error: AssistantMessage)

  datatype BeforeResult = BeforeResult(block: Option<bool>, reason: Option<string>)

  datatype AfterResult = AfterResult(
    content: Option<seq<string>>,
    details: Option<Json>,
    isError: Option<bool>,
    terminate: Option<bool>)

  datatype Execution = Finished(result: ToolResult) | Failed(error: string)

  /** What the outside answers about one tool call: schema check, hooks and the tool itself. */
  datatype CallScript = CallScript(
    invalid: Option<string>,
    before: Option<BeforeResult>,
    updates: seq<ToolResult>,
    execution: Execution,
    after: Option<AfterResult>)

  datatype NewContext = NewContext(messages: seq<AgentMessage>, tools: Option<seq<Tool>>)

  datatype TurnUpdate = TurnUpdate(
    context: Option<NewContext>,
    thinkingLevel: Option<ThinkingLevel>)

  /** What the outside answers during one turn. `calls(k)` is about the k-th tool call. */
  datatype TurnScript = TurnScript(
    stream: seq<StreamItem>,
    result: AssistantMessage,
    calls: nat -> CallScript,
    prepare: Option<TurnUpdate>,
    stop: bool)

  datatype LoopConfig = LoopConfig(
    toolExecution: Option<ExecutionMode>,
    reasoning: Option<ThinkingLevel>,
    hasBefore: bool,
    hasAfter: bool,
    hasPrepare: bool,
    hasStop: bool)

  // ---------------------------------------------------------------- small helpers

  function ToolCallsIn(content: seq<Block>): (calls: seq<ToolCall>) {
    if content == [] then []
    else if content[0].CallBlock? then [content[0].call] + ToolCallsIn(content[1..])
    else ToolCallsIn(content[1..])
  }

  ghost predicate IsFirst(tools: seq<Tool>, name: string, i: int) {
    0 <= i < |tools| && tools[i].name == name && forall j :: 0 <= j < i ==> tools[j].name != name
  }

  function FindTool(tools: Option<seq<Tool>>, name: string): (found: Option<Tool>)
    ensures found.Some? ==> tools.Some? && exists i :: IsFirst(tools.value, name, i) && tools.value[i] == found.value
    ensures found.None? ==> tools.None? || forall t <- tools.value :: t.name != name
    decreases if tools.Some? then |tools.value| else 0
  {
    if tools.None? || tools.value == [] then None
    else if tools.value[0].name == name then Some(tools.value[0])
    else
      var rest := FindTool(Some(tools.value[1..]), name);
      assert forall i :: 0 <= i < |tools.value[1..]| ==> tools.value[1..][i] == tools.value[i + 1];
      rest
  }

  function ErrorToolResult(message: string): ToolResult {
    ToolResult([message], "{}", None, None)
  }

  predicate StopsRun(reason: StopReason) {
    reason == Error || reason == Aborted
  }
}
