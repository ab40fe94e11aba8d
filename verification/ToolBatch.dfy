/**
 A whole batch of tool calls: which form runs, what a truncated message does to its
 calls, and why the choice of form does not matter when nobody cancels the run.
 */
module ToolBatch {
  import opened Options
  import opened AgentTypes
  import opened AgentProtocol
  import opened AgentState
  import opened ToolPipeline
  import opened ParallelTools

  lemma {:induction false} ProjectCount(trace: seq<Step>, x: Step, k: nat)
    requires x.Emit? && x.src == ToolSlot(k)
    ensures multiset(trace)[x] == multiset(Project(trace, k))[x]
  {
    if trace != [] {
      var front, last := trace[..|trace| - 1], trace[|trace| - 1];
      assert trace == front + [last];
      ProjectCount(front, x, k);
    }
  }

  lemma SameProjectionsSameBag(a: seq<Step>, b: seq<Step>)
    requires OnlyTools(a) && OnlyTools(b)
    requires forall k: nat :: Project(a, k) == Project(b, k)
    ensures multiset(a) == multiset(b)
  {
    forall x: Step
      ensures multiset(a)[x] == multiset(b)[x]
    {
      if x.Emit? && x.src.ToolSlot? {
        ProjectCount(a, x, x.src.index);
        ProjectCount(b, x, x.src.index);
      } else {
        assert x !in a && x !in b;
      }
    }
  }

  /**
   With no cancellation, a batch that ran concurrently is indistinguishable from one that
   ran call after call, up to the interleaving of different calls' events: same settlements, same
   replies in the same order, same verdict, the same steps, and call by call the same
   sequence of start, updates, end and reply.
   */
  lemma ParallelRefinesSequential(
      tools: Option<seq<Tool>>, config: LoopConfig, calls: seq<ToolCall>, scripts: nat -> CallScript,
      settled: seq<Settlement>, messages: seq<ToolResultMessage>, trace: seq<Step>,
      settled': seq<Settlement>, messages': seq<ToolResultMessage>, trace': seq<Step>)
    requires Honest(tools, config, calls, scripts, false, settled) && |settled| == |calls|
    requires Honest(tools, config, calls, scripts, false, settled') && |settled'| == |calls|
    requires Reported(calls, settled, messages) && TraceOf(trace, calls, settled)
    requires Reported(calls, settled', messages') && TraceOf(trace', calls, settled')
    ensures settled == settled' && messages == messages' && Terminating(settled) == Terminating(settled')
    ensures forall k: nat :: Project(trace, k) == Project(trace', k)
    ensures multiset(trace) == multiset(trace')
  {
    hide Settled, Project, CallTrace, ReplyFor;
    assert settled == settled';
    assert messages == messages';
    SameProjectionsSameBag(trace, trace');
  }

  ghost predicate RunsSequentially(tools: Option<seq<Tool>>, config: LoopConfig, calls: seq<ToolCall>) {
    config.toolExecution == Some(Sequential) || exists k :: 0 <= k < |calls| && IsSequential(tools, calls[k])
  }

  /** `execute_tool_calls`: one sequential tool makes the whole batch sequential. */
  method ExecuteToolCalls(tools: Option<seq<Tool>>, config: LoopConfig, ghost final: AssistantMessage,
                          calls: seq<ToolCall>, scripts: nat -> CallScript, token: Token, sink: Sink)
    returns (messages: seq<ToolResultMessage>, terminate: bool, ghost settled: seq<Settlement>, ghost trace: seq<Step>)
    requires sink.Valid() && sink.Now().phase == Settling(final, 0, map[], [])
    requires calls == Calls(final) && calls != []
    modifies token, sink`messages, sink`streamingMessage, sink`pendingToolCalls, sink`errorMessage, sink`log
    ensures sink.Valid() && (old(token.cancelled) ==> token.cancelled)
    ensures sink.log == old(sink.log) + trace
    ensures sink.Now() == AfterBatch(old(sink.Now()), messages, settled)
    ensures Reported(calls, settled, messages) && settled != [] && TraceOf(trace, calls, settled)
    ensures terminate == Terminating(settled)
    ensures Honest(tools, config, calls, scripts, token.cancelled, settled)
    ensures !token.cancelled ==> |settled| == |calls|
    ensures if RunsSequentially(tools, config, calls) then trace == InOrder(calls, settled)
            else exists a, b :: InRounds(trace, a, b)
  {
    hide Run, Fold, Next, Calls, AfterBatch, Reported, TraceOf, Terminating, Honest, IsSequential, InOrder, InRounds;
    var sequential := AnySequential(tools, calls);
    if config.toolExecution == Some(Sequential) || sequential {
      messages, terminate, settled, trace := ExecuteSequential(tools, config, final, calls, scripts, token, sink);
    } else {
      messages, terminate, settled, trace := ExecuteParallel(tools, config, final, calls, scripts, token, sink);
    }
  }

  predicate IsSequential(tools: Option<seq<Tool>>, call: ToolCall) {
    var tool := FindTool(tools, call.name);
    tool.Some? && tool.value.executionMode == Some(Sequential)
  }

  method AnySequential(tools: Option<seq<Tool>>, calls: seq<ToolCall>) returns (any: bool)
    ensures any <==> exists k :: 0 <= k < |calls| && IsSequential(tools, calls[k])
  {
    hide IsSequential;
    for k := 0 to |calls|
      invariant forall i :: 0 <= i < k ==> !IsSequential(tools, calls[i])
    {
      if IsSequential(tools, calls[k]) {
        return true;
      }
    }
    return false;
  }

  function TruncationText(name: string): string {
    "Tool call \"" + name + "\" was not executed: the response hit the output token limit, so its arguments "
    + "may be truncated. Re-issue the tool call with complete arguments."
  }

  /** A length stop may have cut any call's arguments short, so none is executed. */
  method FailTruncated(ghost final: AssistantMessage, calls: seq<ToolCall>, sink: Sink)
    returns (messages: seq<ToolResultMessage>, terminate: bool, ghost settled: seq<Settlement>, ghost trace: seq<Step>)
    requires sink.Valid() && sink.Now().phase == Settling(final, 0, map[], [])
    requires calls == Calls(final) && calls != []
    modifies sink`messages, sink`streamingMessage, sink`pendingToolCalls, sink`errorMessage, sink`log
    ensures sink.Valid() && sink.log == old(sink.log) + trace
    ensures sink.Now() == AfterBatch(old(sink.Now()), messages, settled)
    ensures Reported(calls, settled, messages) && |settled| == |calls| && TraceOf(trace, calls, settled)
    ensures forall k :: 0 <= k < |calls| ==> settled[k] == Immediate(TruncationText(calls[k].name))
    ensures !terminate && !Terminating(settled) && trace == InOrder(calls, settled)
  {
    hide Run, Fold, Next, Calls, Reported, TraceOf, Replies, ReplyFor, Outcomes, TruncationText, CallTrace, StartOf;
    hide EndOf, ReplyOf;
    messages, settled, trace := [], [], [];
    ghost var g := sink.Now();
    NothingTruncated(g, calls);
    assert sink.log + [] == sink.log;
    for i := 0 to |calls|
      invariant |settled| == i == |messages| && sink.Valid()
      invariant sink.log == old(sink.log) + trace
      invariant sink.Now() == AfterBatch(g, messages, settled)
      invariant Reported(calls, settled, messages) && TraceOf(trace, calls, settled)
      invariant forall k :: 0 <= k < i ==> settled[k] == Immediate(TruncationText(calls[k].name))
      invariant trace == InOrder(calls, settled)
    {
      NextSlot(settled);
      var call := calls[i];
      EmitStart(i, call, sink);
      var outcome := Outcome(ErrorToolResult(TruncationText(call.name)), true);
      EmitEnd(i, call, outcome, sink);
      var message := EmitReply(i, call, outcome, sink);
      ghost var s := Immediate(TruncationText(call.name));
      CallTraceParts(old(sink.log) + trace, i, call, s);
      assert old(sink.log) + (trace + CallTrace(i, call, s)) == (old(sink.log) + trace) + CallTrace(i, call, s);
      StateGrows(g, messages, settled, message, s);
      TraceGrows(calls, settled, trace, s);
      ReportGrows(calls, settled, messages, s);
      InOrderGrows(calls, settled, s);
      messages, settled, trace := messages + [message], settled + [s], trace + CallTrace(i, call, s);
    }
    terminate := false;
    assert settled[0].outcome.result.terminate == None;
  }

  lemma NothingTruncated(g: State, calls: seq<ToolCall>)
    requires g.phase.Settling? && g.phase.started == 0 && g.phase.outcomes == map[] && g.phase.replies == []
    ensures AfterBatch(g, [], []) == g && Reported(calls, [], []) && TraceOf([], calls, [])
  {
    assert Outcomes([]) == map[] && Replies([]) == [];
  }

  lemma ReportGrows(calls: seq<ToolCall>, settled: seq<Settlement>, messages: seq<ToolResultMessage>, s: Settlement)
    requires Reported(calls, settled, messages) && |settled| < |calls|
    ensures Reported(calls, settled + [s], messages + [ReplyFor(calls[|settled|], s.outcome)])
  {
  }
}
