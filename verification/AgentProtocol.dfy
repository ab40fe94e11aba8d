/**
 The event protocol of one agent run, written as a deterministic automaton.

 A run is recorded as a log of steps: the events it emits (each tagged with the part of the
 engine that caused it), the provider calls it makes, the queues it polls and the
 turn updates it receives. `Next` says which step may follow which, and with what payload; it is
 written independently of the loops that produce the log. Everything a listener may rely on
 about a whole run is a theorem about the logs this automaton accepts.
 */
module AgentProtocol {
  import opened Options
  import opened AgentTypes

  datatype Source = Loop | Prompt | Steering | FollowUp | Model | ToolSlot(index: nat)

  /** A poll records what it was handed and what the queue still held afterwards. */
  datatype Step =
    | Emit(src: Source, event: AgentEvent)
    | CallProvider(sent: seq<AgentMessage>, reasoning: Option<ThinkingLevel>)
    | PollQueue(queue: Source, got: seq<AgentMessage>, left: seq<AgentMessage>)
    | Update(thinkingLevel: Option<ThinkingLevel>)

  /** The outcome a tool call settled with. */
  datatype Outcome = Outcome(result: ToolResult, isError: bool)

  datatype Phase =
    | Fresh
    | Started
    | Prompting
    | PromptOpen(open: AgentMessage)
    | Injecting(src: Source, todo: seq<AgentMessage>)
    | InjectOpen(src: Source, open: AgentMessage, todo: seq<AgentMessage>)
    | Awaiting
    | Streaming(partial: AgentMessage)
    | Settling(final: AssistantMessage, started: nat, outcomes: map<nat, Outcome>,
               replies: seq<ToolResultMessage>)
    | ReplyOpen(final: AssistantMessage, started: nat, outcomes: map<nat, Outcome>,
                replies: seq<ToolResultMessage>, reply: ToolResultMessage)
    | Between(more: bool)
    | Ready(src: Source, todo: seq<AgentMessage>)
    | Idle
    | Closing
    | Done
    | Violation

  /**
   `base` is the transcript the run started from and `ends` the messages it has completed;
   `prompted` and `responses` are those of them that were prompts and model responses, and
   `opening` is what the first poll handed over.
   `steered` and `followed` are what the two queues handed over. `restarts` counts stream
   starts after a turn's first one, and `faithful` says that every provider call so far
   was shown exactly `base + ends`.
   */
  datatype State = State(
    phase: Phase,
    base: seq<AgentMessage>,
    ends: seq<AgentMessage>,
    prompted: seq<AgentMessage>,
    responses: seq<AssistantMessage>,
    opening: Option<seq<AgentMessage>>,
    reasoning: Option<ThinkingLevel>,
    steered: seq<AgentMessage>,
    followed: seq<AgentMessage>,
    restarts: nat,
    faithful: bool)

  function Initial(base: seq<AgentMessage>, reasoning: Option<ThinkingLevel>): State {
    State(Fresh, base, [], [], [], None, reasoning, [], [], 0, true)
  }

  /** The reply message a settled call must be reported with. */
  function ReplyFor(call: ToolCall, outcome: Outcome): ToolResultMessage {
    var r := outcome.result;
    ToolResultMessage(
      call.id, call.name, r.content, r.details,
      if r.addedToolNames.Some? && r.addedToolNames.value != [] then r.addedToolNames else None,
      outcome.isError)
  }

  /** A batch asks the run to stop when it is non-empty and every outcome says so. */
  predicate BatchTerminates(outcomes: map<nat, Outcome>) {
    outcomes != map[] && forall k <- outcomes :: outcomes[k].result.terminate == Some(true)
  }

  function Calls(final: AssistantMessage): seq<ToolCall> {
    ToolCallsIn(final.content)
  }

  predicate BatchComplete(p: Phase)
    requires p.Settling?
  {
    && (forall k :: 0 <= k < p.started ==> k in p.outcomes)
    && (forall k <- p.outcomes :: k < p.started)
    && |p.replies| == p.started
    && (if StopsRun(p.final.stopReason) then p.started == 0
        else Calls(p.final) != [] ==> p.started > 0)
  }

  function Remap(current: Option<ThinkingLevel>, level: Option<ThinkingLevel>): Option<ThinkingLevel> {
    match level
    case None => current
    case Some(Off) => None
    case Some(l) => Some(l)
  }

  function Reject(g: State): State { g.(phase := Violation) }

  function Next(g: State, step: Step): State {
    match step
    case Emit(src, event) => NextEvent(g, src, event)
    case CallProvider(sent, reasoning) =>
      if g.phase.Injecting? && g.phase.todo == [] && reasoning == g.reasoning
      then g.(phase := Awaiting, faithful := g.faithful && sent == g.base + g.ends) else Reject(g)
    case PollQueue(queue, got, left) => NextPoll(g, queue, got, left)
    case Update(level) =>
      if g.phase.Between? then g.(reasoning := Remap(g.reasoning, level)) else Reject(g)
  }

  /** Once the first turn has begun, a poll comes back empty only from an empty queue. */
  function NextPoll(g: State, queue: Source, got: seq<AgentMessage>, left: seq<AgentMessage>): State {
    if queue == Steering && g.phase == Prompting then
      g.(phase := Injecting(Steering, got), opening := Some(got), steered := g.steered + got)
    else if got == [] && left != [] then Reject(g)
    else if queue == Steering && g.phase.Between? then
      g.(phase := if got != [] || g.phase.more then Ready(Steering, got) else Idle, steered := g.steered + got)
    else if queue == FollowUp && g.phase == Idle then
      g.(phase := if got != [] then Ready(FollowUp, got) else Closing, followed := g.followed + got)
    else Reject(g)
  }

  function NextEvent(g: State, src: Source, event: AgentEvent): State {
    match g.phase
    case Fresh =>
      if event == AgentStart && src == Loop then g.(phase := Started) else Reject(g)
    case Started =>
      if event == TurnStart && src == Loop then g.(phase := Prompting) else Reject(g)
    case Prompting =>
      if event.MessageStart? && src == Prompt then g.(phase := PromptOpen(event.message)) else Reject(g)
    case PromptOpen(m) =>
      if event == MessageEnd(m) && src == Prompt
      then g.(phase := Prompting, ends := g.ends + [m], prompted := g.prompted + [m]) else Reject(g)
    case Injecting(q, todo) =>
      if todo != [] && src == q && event == MessageStart(todo[0])
      then g.(phase := InjectOpen(q, todo[0], todo[1..])) else Reject(g)
    case InjectOpen(q, m, todo) =>
      if src == q && event == MessageEnd(m)
      then g.(phase := Injecting(q, todo), ends := g.ends + [m]) else Reject(g)
    case Awaiting =>
      if src == Model && event.MessageStart? && event.message.Assistant?
      then g.(phase := Streaming(event.message)) else Reject(g)
    case Streaming(_) =>
      if src == Model && event.MessageUpdate? && event.message.Assistant?
      then g.(phase := Streaming(event.message))
      else if src == Model && event.MessageStart? && event.message.Assistant?
      then g.(phase := Streaming(event.message), restarts := g.restarts + 1)
      else if src == Model && event.MessageEnd? && event.message.Assistant?
      then g.(phase := Settling(event.message.assistant, 0, map[], []), ends := g.ends + [event.message],
              responses := g.responses + [event.message.assistant])
      else Reject(g)
    case Settling(_, _, _, _) =>
      if src == Loop then NextTurnEnd(g, event)
      else if src.ToolSlot? then NextTool(g, src.index, event)
      else Reject(g)
    case ReplyOpen(final, started, outcomes, replies, reply) =>
      if src == ToolSlot(|replies|) && event == MessageEnd(ToolReply(reply))
      then g.(phase := Settling(final, started, outcomes, replies + [reply]),
              ends := g.ends + [ToolReply(reply)])
      else Reject(g)
    case Between(_) => NextAgentEnd(g, src, event)
    case Ready(q, todo) =>
      if src == Loop && event == TurnStart then g.(phase := Injecting(q, todo)) else Reject(g)
    case Closing => NextAgentEnd(g, src, event)
    case _ => Reject(g)
  }

  function NextTool(g: State, k: nat, event: AgentEvent): State
    requires g.phase.Settling?
  {
    var Settling(final, started, outcomes, replies) := g.phase;
    var calls := Calls(final);
    match event
    case ToolExecutionStart(id, name, args) =>
      if k == started < |calls| && ToolCall(id, name, args) == calls[k]
      then g.(phase := Settling(final, started + 1, outcomes, replies)) else Reject(g)
    case ToolExecutionUpdate(id, name, args, _) =>
      if k < started <= |calls| && k !in outcomes && ToolCall(id, name, args) == calls[k] then g else Reject(g)
    case ToolExecutionEnd(id, name, result, isError) =>
      if k < started <= |calls| && k !in outcomes && id == calls[k].id && name == calls[k].name
      then g.(phase := Settling(final, started, outcomes[k := Outcome(result, isError)], replies)) else Reject(g)
    case MessageStart(m) =>
      if k == |replies| && k < |calls| && k in outcomes && m == ToolReply(ReplyFor(calls[k], outcomes[k]))
      then g.(phase := ReplyOpen(final, started, outcomes, replies, m.reply)) else Reject(g)
    case _ => Reject(g)
  }

  function NextTurnEnd(g: State, event: AgentEvent): State
    requires g.phase.Settling?
  {
    var p := g.phase;
    if event != TurnEnd(Assistant(p.final), p.replies) || !BatchComplete(p) then Reject(g)
    else if StopsRun(p.final.stopReason) then g.(phase := Closing)
    else g.(phase := Between(p.started > 0 && !BatchTerminates(p.outcomes)))
  }

  function NextAgentEnd(g: State, src: Source, event: AgentEvent): State {
    if src == Loop && event == AgentEnd(g.ends) then g.(phase := Done) else Reject(g)
  }

  /** The log of a run that ended because both queues were found empty, steering first. */
  predicate RanDry(log: seq<Step>) {
    && |log| >= 3
    && log[|log| - 3] == PollQueue(Steering, [], [])
    && log[|log| - 2] == PollQueue(FollowUp, [], [])
  }

  /** The state reached after a whole log. */
  function Run(g: State, log: seq<Step>): State
    decreases |log|
  {
    if log == [] then g else Next(Run(g, log[..|log| - 1]), log[|log| - 1])
  }
}
