/**
 The three-stage tool pipeline: prepare, execute, finalize, run one call after the
 other or concurrently with the results put back in source order.
 */
module ToolPipeline {
  import opened Options
  import opened AgentTypes
  import opened AgentProtocol
  import opened AgentState

  /** How one call settled: the updates it streamed, then its outcome. */
  datatype Settlement = Settlement(updates: seq<ToolResult>, outcome: Outcome)

  const ABORTED := Settlement([], Outcome(ErrorToolResult("Operation aborted"), true))

  function Immediate(message: string): Settlement {
    Settlement([], Outcome(ErrorToolResult(message), true))
  }

  function BlockReason(b: BeforeResult): string {
    if b.reason.Some? && b.reason.value != "" then b.reason.value else "Tool execution was blocked"
  }

  /** `afterToolCall` overrides field by field; omitted fields keep the executed value. */
  function Merge(executed: Outcome, after: Option<AfterResult>): Outcome {
    match after
    case None => executed
    case Some(a) =>
      Outcome(
        ToolResult(
          a.content.GetOr(executed.result.content),
          a.details.GetOr(executed.result.details),
          executed.result.addedToolNames,
          if a.terminate.Some? then a.terminate else executed.result.terminate),
        a.isError.GetOr(executed.isError))
  }

  function Executed(execution: Execution): Outcome {
    match execution
    case Finished(result) => Outcome(result, false)
    case Failed(error) => Outcome(ErrorToolResult(error), true)
  }

  /** What a call settles with when nobody cancels the run. */
  function Settled(tools: Option<seq<Tool>>, config: LoopConfig, call: ToolCall, script: CallScript): Settlement {
    if FindTool(tools, call.name).None? then Immediate("Tool " + call.name + " not found")
    else if script.invalid.Some? then Immediate(script.invalid.value)
    else if config.hasBefore && script.before.Some? && script.before.value.block == Some(true)
    then Immediate(BlockReason(script.before.value))
    else Settlement(script.updates,
                    Merge(Executed(script.execution), if config.hasAfter then script.after else None))
  }

  // ---------------------------------------------------------------- the trace of one call

  function StartOf(k: nat, call: ToolCall): Step {
    Emit(ToolSlot(k), ToolExecutionStart(call.id, call.name, call.arguments))
  }

  function UpdatesOf(k: nat, call: ToolCall, updates: seq<ToolResult>): seq<Step> {
    seq(|updates|, i requires 0 <= i < |updates| =>
      Emit(ToolSlot(k), ToolExecutionUpdate(call.id, call.name, call.arguments, updates[i])))
  }

  function EndOf(k: nat, call: ToolCall, outcome: Outcome): Step {
    Emit(ToolSlot(k), ToolExecutionEnd(call.id, call.name, outcome.result, outcome.isError))
  }

  function ReplyOf(k: nat, call: ToolCall, outcome: Outcome): seq<Step> {
    var m := ToolReply(ReplyFor(call, outcome));
    [Emit(ToolSlot(k), MessageStart(m)), Emit(ToolSlot(k), MessageEnd(m))]
  }

  function ExecutionTrace(k: nat, call: ToolCall, s: Settlement): seq<Step> {
    [StartOf(k, call)] + UpdatesOf(k, call, s.updates) + [EndOf(k, call, s.outcome)]
  }

  /** Start, updates, end, then the reply message. */
  function CallTrace(k: nat, call: ToolCall, s: Settlement): seq<Step> {
    ExecutionTrace(k, call, s) + ReplyOf(k, call, s.outcome)
  }

  lemma CallTraceParts(log: seq<Step>, k: nat, call: ToolCall, s: Settlement)
    ensures s.updates == [] ==>
              log + [StartOf(k, call)] + [EndOf(k, call, s.outcome)] + ReplyOf(k, call, s.outcome) ==
              log + CallTrace(k, call, s)
    ensures log + [StartOf(k, call)] + UpdatesOf(k, call, s.updates) + [EndOf(k, call, s.outcome)]
            + ReplyOf(k, call, s.outcome) == log + CallTrace(k, call, s)
  {
  }

  /** One call's whole trace after the other, in source order. */
  function InOrder(calls: seq<ToolCall>, settled: seq<Settlement>): seq<Step>
    requires |settled| <= |calls|
  {
    if settled == [] then []
    else
      var n := |settled| - 1;
      InOrder(calls, settled[..n]) + CallTrace(n, calls[n], settled[n])
  }

  lemma InOrderGrows(calls: seq<ToolCall>, settled: seq<Settlement>, s: Settlement)
    requires |settled| < |calls|
    ensures InOrder(calls, settled + [s]) == InOrder(calls, settled) + CallTrace(|settled|, calls[|settled|], s)
  {
    assert (settled + [s])[..|settled|] == settled;
  }

  /** The part of a trace that belongs to call `k`. */
  function Project(trace: seq<Step>, k: nat): seq<Step>
  {
    if trace == [] then []
    else
      var rest := Project(trace[..|trace| - 1], k);
      var last := trace[|trace| - 1];
      if last.Emit? && last.src == ToolSlot(k) then rest + [last] else rest
  }

  ghost predicate OnlyTools(trace: seq<Step>) {
    forall i :: 0 <= i < |trace| ==> trace[i].Emit? && trace[i].src.ToolSlot?
  }

  lemma ProjectAppend(a: seq<Step>, b: seq<Step>, k: nat)
    ensures Project(a + b, k) == Project(a, k) + Project(b, k)
  {
    if b == [] {
      assert a + b == a;
    } else {
      var b' := b[..|b| - 1];
      ProjectAppend(a, b', k);
      assert (a + b)[..|a + b| - 1] == a + b';
    }
  }

  lemma ProjectOwn(trace: seq<Step>, k: nat, owner: nat)
    requires forall i :: 0 <= i < |trace| ==> trace[i].Emit? && trace[i].src == ToolSlot(owner)
    ensures Project(trace, k) == if k == owner then trace else []
  {
    if trace != [] {
      ProjectOwn(trace[..|trace| - 1], k, owner);
      assert trace == trace[..|trace| - 1] + [trace[|trace| - 1]];
    }
  }

  /** Appending steps of call `owner` extends only that call's part of the trace. */
  lemma ProjectExtend(trace: seq<Step>, more: seq<Step>, owner: nat)
    requires forall i :: 0 <= i < |more| ==> more[i].Emit? && more[i].src == ToolSlot(owner)
    ensures forall k: nat ::
              Project(trace + more, k) == if k == owner then Project(trace, k) + more else Project(trace, k)
  {
    forall k: nat
      ensures Project(trace + more, k) == if k == owner then Project(trace, k) + more else Project(trace, k)
    {
      ProjectAppend(trace, more, k);
      ProjectOwn(more, k, owner);
    }
  }

  // ---------------------------------------------------------------- the three stages

  datatype Finalized = Finalized(toolCall: ToolCall, outcome: Outcome)

  datatype Preparation =
    | Prepared(toolCall: ToolCall)
    | Refused(outcome: Outcome)

  /** What a call may settle with: its own settlement, or the abort error. */
  ghost predicate MaySettle(tools: Option<seq<Tool>>, config: LoopConfig, call: ToolCall, script: CallScript,
                            s: Settlement) {
    s == Settled(tools, config, call, script) || s == ABORTED
  }

  method PrepareToolCall(tools: Option<seq<Tool>>, config: LoopConfig, call: ToolCall, script: CallScript, token: Token)
    returns (p: Preparation)
    modifies token
    ensures old(token.cancelled) ==> token.cancelled
    ensures p.Prepared? ==> p.toolCall == call
    ensures p.Prepared? ==>
              Settled(tools, config, call, script) == Carried(config, script)
    ensures p.Refused? ==> MaySettle(tools, config, call, script, Settlement([], p.outcome))
    ensures p.Refused? && !token.cancelled ==> Settled(tools, config, call, script) == Settlement([], p.outcome)
  {
    var tool := FindTool(tools, call.name);
    if tool.None? {
      return Refused(Outcome(ErrorToolResult("Tool " + call.name + " not found"), true));
    }
    if script.invalid.Some? {
      return Refused(Outcome(ErrorToolResult(script.invalid.value), true));
    }
    if config.hasBefore {
      var c := token.IsCancelled();
      if c {
        return Refused(Outcome(ErrorToolResult("Operation aborted"), true));
      }
      if script.before.Some? && script.before.value.block == Some(true) {
        return Refused(Outcome(ErrorToolResult(BlockReason(script.before.value)), true));
      }
    }
    var c := token.IsCancelled();
    if c {
      return Refused(Outcome(ErrorToolResult("Operation aborted"), true));
    }
    p := Prepared(call);
  }

  /** The settlement of a call that ran to its end. */
  function Carried(config: LoopConfig, script: CallScript): Settlement {
    Settlement(script.updates, Finalize(config, script, Executed(script.execution)))
  }

  function Finalize(config: LoopConfig, script: CallScript, executed: Outcome): Outcome {
    Merge(executed, if config.hasAfter then script.after else None)
  }

  function ShouldTerminate(finalized: seq<Finalized>): bool {
    finalized != [] && forall f <- finalized :: f.outcome.result.terminate == Some(true)
  }

  // ---------------------------------------------------------------- what a batch leaves behind

  function Outcomes(settled: seq<Settlement>): map<nat, Outcome> {
    map k: nat | k < |settled| :: settled[k].outcome
  }

  function Replies(messages: seq<ToolResultMessage>): seq<AgentMessage> {
    seq(|messages|, i requires 0 <= i < |messages| => ToolReply(messages[i]))
  }

  /** The protocol state after a batch whose first |settled| calls settled and were reported. */
  ghost function AfterBatch(g: State, messages: seq<ToolResultMessage>, settled: seq<Settlement>): State
    requires g.phase.Settling?
  {
    g.(phase := Settling(g.phase.final, |settled|, Outcomes(settled), messages),
       ends := g.ends + Replies(messages))
  }

  ghost predicate Reported(calls: seq<ToolCall>, settled: seq<Settlement>, messages: seq<ToolResultMessage>) {
    && |settled| == |messages| <= |calls|
    && forall k :: 0 <= k < |settled| ==> messages[k] == ReplyFor(calls[k], settled[k].outcome)
  }

  /** Every call's part of the trace is its own call trace, and nothing else is in it. */
  ghost predicate TraceOf(trace: seq<Step>, calls: seq<ToolCall>, settled: seq<Settlement>)
    requires |settled| <= |calls|
  {
    && OnlyTools(trace)
    && forall k: nat :: Project(trace, k) ==
                        if k < |settled| then CallTrace(k, calls[k], settled[k]) else []
  }

  ghost predicate Terminating(settled: seq<Settlement>) {
    settled != [] && forall k :: 0 <= k < |settled| ==> settled[k].outcome.result.terminate == Some(true)
  }

  // ---------------------------------------------------------------- emitting

  method EmitUpdates(k: nat, call: ToolCall, updates: seq<ToolResult>, sink: Sink)
    requires sink.Valid() && sink.Now().phase.Settling?
    requires var p := sink.Now().phase;
             k < p.started <= |Calls(p.final)| && k !in p.outcomes && call == Calls(p.final)[k]
    modifies sink`messages, sink`streamingMessage, sink`pendingToolCalls, sink`errorMessage, sink`log
    ensures sink.Valid() && sink.Now() == old(sink.Now())
    ensures sink.log == old(sink.log) + UpdatesOf(k, call, updates)
  {
    hide Run, Fold;
    ghost var all := UpdatesOf(k, call, updates);
    for i := 0 to |updates|
      invariant sink.Valid() && sink.Now() == old(sink.Now())
      invariant sink.log == old(sink.log) + all[..i]
    {
      sink.Process(ToolSlot(k), ToolExecutionUpdate(call.id, call.name, call.arguments, updates[i]));
      assert all[..i + 1] == all[..i] + [all[i]];
    }
    assert all[..|updates|] == all;
  }

  method EmitStart(k: nat, call: ToolCall, sink: Sink)
    requires sink.Valid() && sink.Now().phase.Settling?
    requires var p := sink.Now().phase; p.started == k < |Calls(p.final)| && call == Calls(p.final)[k]
    modifies sink`messages, sink`streamingMessage, sink`pendingToolCalls, sink`errorMessage, sink`log
    ensures sink.Valid() && sink.log == old(sink.log) + [StartOf(k, call)]
    ensures var p := old(sink.Now().phase);
            sink.Now() == old(sink.Now()).(phase := Settling(p.final, k + 1, p.outcomes, p.replies))
  {
    hide Run, Fold;
    sink.Process(ToolSlot(k), ToolExecutionStart(call.id, call.name, call.arguments));
  }

  method EmitEnd(k: nat, call: ToolCall, outcome: Outcome, sink: Sink)
    requires sink.Valid() && sink.Now().phase.Settling?
    requires var p := sink.Now().phase;
             k < p.started <= |Calls(p.final)| && k !in p.outcomes && call == Calls(p.final)[k]
    modifies sink`messages, sink`streamingMessage, sink`pendingToolCalls, sink`errorMessage, sink`log
    ensures sink.Valid() && sink.log == old(sink.log) + [EndOf(k, call, outcome)]
    ensures var p := old(sink.Now().phase);
            sink.Now() == old(sink.Now()).(phase := Settling(p.final, p.started, p.outcomes[k := outcome], p.replies))
  {
    hide Run, Fold;
    sink.Process(ToolSlot(k), ToolExecutionEnd(call.id, call.name, outcome.result, outcome.isError));
  }

  method EmitReply(k: nat, call: ToolCall, outcome: Outcome, sink: Sink) returns (message: ToolResultMessage)
    requires sink.Valid() && sink.Now().phase.Settling?
    requires var p := sink.Now().phase;
             && k == |p.replies| && k < |Calls(p.final)| && call == Calls(p.final)[k]
             && k in p.outcomes && p.outcomes[k] == outcome
    modifies sink`messages, sink`streamingMessage, sink`pendingToolCalls, sink`errorMessage, sink`log
    ensures message == ReplyFor(call, outcome)
    ensures sink.Valid() && sink.log == old(sink.log) + ReplyOf(k, call, outcome)
    ensures var p := old(sink.Now().phase);
            sink.Now() == old(sink.Now()).(phase := Settling(p.final, p.started, p.outcomes, p.replies + [message]),
                                           ends := old(sink.Now()).ends + [ToolReply(message)])
  {
    hide Run, Fold;
    message := ReplyFor(call, outcome);
    sink.Process(ToolSlot(k), MessageStart(ToolReply(message)));
    sink.Process(ToolSlot(k), MessageEnd(ToolReply(message)));
  }

  // ---------------------------------------------------------------- one call after the other

  /** One round of the sequential loop: the call is started, settled and reported. */
  method SettleCall(k: nat, tools: Option<seq<Tool>>, config: LoopConfig, call: ToolCall, script: CallScript,
                    token: Token, sink: Sink)
    returns (finalized: Finalized, message: ToolResultMessage, ghost s: Settlement)
    requires sink.Valid() && sink.Now().phase.Settling?
    requires var p := sink.Now().phase;
             p.started == |p.replies| == k && k !in p.outcomes && k < |Calls(p.final)| && call == Calls(p.final)[k]
    modifies token, sink`messages, sink`streamingMessage, sink`pendingToolCalls, sink`errorMessage, sink`log
    ensures sink.Valid() && (old(token.cancelled) ==> token.cancelled)
    ensures sink.log == old(sink.log) + CallTrace(k, call, s)
    ensures finalized == Finalized(call, s.outcome) && message == ReplyFor(call, s.outcome)
    ensures var g := old(sink.Now()); var p := g.phase;
            sink.Now() == g.(phase := Settling(p.final, k + 1, p.outcomes[k := s.outcome], p.replies + [message]),
                             ends := g.ends + [ToolReply(message)])
    ensures MaySettle(tools, config, call, script, s)
    ensures !token.cancelled ==> s == Settled(tools, config, call, script)
  {
    hide Run, Fold, Next, Settled, Finalize, ReplyFor, StartOf, EndOf, UpdatesOf, ReplyOf;
    EmitStart(k, call, sink);
    var preparation := PrepareToolCall(tools, config, call, script, token);
    match preparation {
      case Refused(outcome) =>
        finalized, s := Finalized(call, outcome), Settlement([], outcome);
      case Prepared(prepared) =>
        EmitUpdates(k, prepared, script.updates, sink);
        finalized := Finalized(prepared, Finalize(config, script, Executed(script.execution)));
        s := Carried(config, script);
    }
    EmitEnd(k, call, finalized.outcome, sink);
    message := EmitReply(k, call, finalized.outcome, sink);
    CallTraceParts(old(sink.log), k, call, s);
  }

  /** What holds after the first `i` calls have been settled and reported. */
  ghost predicate SequentialSoFar(tools: Option<seq<Tool>>, config: LoopConfig, calls: seq<ToolCall>,
                                  scripts: nat -> CallScript, cancelled: bool, finalizedCalls: seq<Finalized>,
                                  settled: seq<Settlement>, messages: seq<ToolResultMessage>, trace: seq<Step>) {
    && Reported(calls, settled, messages) && TraceOf(trace, calls, settled)
    && |finalizedCalls| == |settled|
    && (forall k :: 0 <= k < |settled| ==> finalizedCalls[k] == Finalized(calls[k], settled[k].outcome))
    && Honest(tools, config, calls, scripts, cancelled, settled)
  }

  /** Each call settled as scripted, or with the abort error once the run is cancelled. */
  ghost predicate Honest(tools: Option<seq<Tool>>, config: LoopConfig, calls: seq<ToolCall>,
                         scripts: nat -> CallScript, cancelled: bool, settled: seq<Settlement>) {
    && |settled| <= |calls|
    && (forall k :: 0 <= k < |settled| ==> MaySettle(tools, config, calls[k], scripts(k), settled[k]))
    && (!cancelled ==>
          forall k :: 0 <= k < |settled| ==> settled[k] == Settled(tools, config, calls[k], scripts(k)))
  }

  method ExecuteSequential(tools: Option<seq<Tool>>, config: LoopConfig, ghost final: AssistantMessage,
                           calls: seq<ToolCall>, scripts: nat -> CallScript, token: Token, sink: Sink)
    returns (messages: seq<ToolResultMessage>, terminate: bool, ghost settled: seq<Settlement>, ghost trace: seq<Step>)
    requires sink.Valid() && sink.Now().phase == Settling(final, 0, map[], [])
    requires calls == Calls(final) && calls != []
    modifies token, sink`messages, sink`streamingMessage, sink`pendingToolCalls, sink`errorMessage, sink`log
    ensures sink.Valid() && (old(token.cancelled) ==> token.cancelled)
    ensures sink.log == old(sink.log) + trace
    ensures sink.Now() == AfterBatch(old(sink.Now()), messages, settled)
    ensures Reported(calls, settled, messages) && settled != [] && TraceOf(trace, calls, settled)
    ensures terminate == Terminating(settled)
    ensures Honest(tools, config, calls, scripts, token.cancelled, settled)
    ensures !token.cancelled ==> |settled| == |calls|
    ensures trace == InOrder(calls, settled)
  {
    hide Run, Fold, Next, Calls, TraceOf, Honest, Reported, Terminating, ShouldTerminate, SequentialSoFar;
    hide Settled, MaySettle, CallTrace, Replies, ReplyFor, Outcomes;
    var finalizedCalls: seq<Finalized> := [];
    messages, settled, trace := [], [], [];
    NothingYet(tools, config, old(sink.Now()), calls, scripts, token.cancelled);
    var i := 0;
    while i < |calls|
      invariant 0 <= i <= |calls| && |settled| == i == |messages|
      invariant sink.Valid() && (old(token.cancelled) ==> token.cancelled)
      invariant sink.log == old(sink.log) + trace
      invariant sink.Now() == AfterBatch(old(sink.Now()), messages, settled)
      invariant SequentialSoFar(tools, config, calls, scripts, token.cancelled, finalizedCalls, settled, messages,
                                trace)
      invariant trace == InOrder(calls, settled)
    {
      ghost var before := token.cancelled;
      NextSlot(settled);
      var finalized, message, s := SettleCall(i, tools, config, calls[i], scripts(i), token, sink);
      OneMore(tools, config, calls, scripts, before, token.cancelled, finalizedCalls, settled, messages, trace, s);
      StateGrows(old(sink.Now()), messages, settled, message, s);
      finalizedCalls := finalizedCalls + [finalized];
      InOrderGrows(calls, settled, s);
      trace := trace + CallTrace(i, calls[i], s);
      messages, settled := messages + [message], settled + [s];
      i := i + 1;
      before := token.cancelled;
      var c := token.IsCancelled();
      LaterCancelled(tools, config, calls, scripts, before, token.cancelled, finalizedCalls, settled, messages, trace);
      if c {
        break;
      }
    }
    terminate := ShouldTerminate(finalizedCalls);
    TerminateAgrees(tools, config, calls, scripts, token.cancelled, finalizedCalls, settled, messages, trace);
  }

  lemma NothingYet(tools: Option<seq<Tool>>, config: LoopConfig, g: State, calls: seq<ToolCall>,
                   scripts: nat -> CallScript, cancelled: bool)
    requires g.phase.Settling? && g.phase.started == 0 && g.phase.outcomes == map[] && g.phase.replies == []
    ensures AfterBatch(g, [], []) == g
    ensures SequentialSoFar(tools, config, calls, scripts, cancelled, [], [], [], [])
  {
    assert Outcomes([]) == map[] && Replies([]) == [];
  }

  lemma LaterCancelled(tools: Option<seq<Tool>>, config: LoopConfig, calls: seq<ToolCall>,
                       scripts: nat -> CallScript, before: bool, cancelled: bool, finalizedCalls: seq<Finalized>,
                       settled: seq<Settlement>, messages: seq<ToolResultMessage>, trace: seq<Step>)
    requires SequentialSoFar(tools, config, calls, scripts, before, finalizedCalls, settled, messages, trace)
    requires before ==> cancelled
    ensures SequentialSoFar(tools, config, calls, scripts, cancelled, finalizedCalls, settled, messages, trace)
  {
  }

  lemma OneMore(tools: Option<seq<Tool>>, config: LoopConfig, calls: seq<ToolCall>, scripts: nat -> CallScript,
                before: bool, cancelled: bool, finalizedCalls: seq<Finalized>, settled: seq<Settlement>,
                messages: seq<ToolResultMessage>, trace: seq<Step>, s: Settlement)
    requires |settled| < |calls| && (before ==> cancelled)
    requires SequentialSoFar(tools, config, calls, scripts, before, finalizedCalls, settled, messages, trace)
    requires MaySettle(tools, config, calls[|settled|], scripts(|settled|), s)
    requires !cancelled ==> s == Settled(tools, config, calls[|settled|], scripts(|settled|))
    ensures var n := |settled|;
            SequentialSoFar(tools, config, calls, scripts, cancelled, finalizedCalls + [Finalized(calls[n], s.outcome)],
                            settled + [s], messages + [ReplyFor(calls[n], s.outcome)],
                            trace + CallTrace(n, calls[n], s))
  {
    hide Settled, MaySettle, CallTrace, TraceOf, ReplyFor;
    TraceGrows(calls, settled, trace, s);
  }

  lemma TerminateAgrees(tools: Option<seq<Tool>>, config: LoopConfig, calls: seq<ToolCall>, scripts: nat -> CallScript,
                        cancelled: bool, finalizedCalls: seq<Finalized>, settled: seq<Settlement>,
                        messages: seq<ToolResultMessage>, trace: seq<Step>)
    requires SequentialSoFar(tools, config, calls, scripts, cancelled, finalizedCalls, settled, messages, trace)
    ensures ShouldTerminate(finalizedCalls) == Terminating(settled)
    ensures Reported(calls, settled, messages) && TraceOf(trace, calls, settled)
    ensures Honest(tools, config, calls, scripts, cancelled, settled)
  {
    hide TraceOf, Honest, ShouldTerminate, Terminating;
    TerminateMatches(calls, settled, finalizedCalls);
  }

  lemma TerminateMatches(calls: seq<ToolCall>, settled: seq<Settlement>, finalizedCalls: seq<Finalized>)
    requires |finalizedCalls| == |settled| <= |calls|
    requires forall k :: 0 <= k < |settled| ==> finalizedCalls[k] == Finalized(calls[k], settled[k].outcome)
    ensures ShouldTerminate(finalizedCalls) == Terminating(settled)
  {
    if ShouldTerminate(finalizedCalls) {
      forall k | 0 <= k < |settled|
        ensures settled[k].outcome.result.terminate == Some(true)
      {
        assert finalizedCalls[k] in finalizedCalls;
      }
    }
  }

  lemma NextSlot(settled: seq<Settlement>)
    ensures |settled| !in Outcomes(settled)
  {
  }

  /** Reporting one more call moves the protocol state on by exactly that call. */
  lemma StateGrows(g: State, messages: seq<ToolResultMessage>, settled: seq<Settlement>, m: ToolResultMessage,
                   s: Settlement)
    requires g.phase.Settling? && |settled| == |messages|
    ensures var h := AfterBatch(g, messages, settled);
            AfterBatch(g, messages + [m], settled + [s]) ==
            h.(phase := Settling(g.phase.final, |settled| + 1, h.phase.outcomes[|settled| := s.outcome],
                                 messages + [m]),
               ends := h.ends + [ToolReply(m)])
  {
    assert Outcomes(settled + [s]) == Outcomes(settled)[|settled| := s.outcome];
    assert Replies(messages + [m]) == Replies(messages) + [ToolReply(m)];
    assert g.ends + (Replies(messages) + [ToolReply(m)]) == (g.ends + Replies(messages)) + [ToolReply(m)];
  }

  lemma TraceGrows(calls: seq<ToolCall>, settled: seq<Settlement>, trace: seq<Step>, s: Settlement)
    requires |settled| < |calls| && TraceOf(trace, calls, settled)
    ensures TraceOf(trace + CallTrace(|settled|, calls[|settled|], s), calls, settled + [s])
  {
    hide CallTrace, Project, OnlyTools;
    var n := |settled|;
    var more := CallTrace(n, calls[n], s);
    CallTraceIsOwn(n, calls[n], s);
    ProjectExtend(trace, more, n);
    OnlyToolsExtend(trace, more, n);
    forall k: nat
      ensures Project(trace + more, k) == if k < n + 1 then CallTrace(k, calls[k], (settled + [s])[k]) else []
    {
      if k == n {
        assert [] + more == more;
      }
    }
  }

  lemma CallTraceIsOwn(k: nat, call: ToolCall, s: Settlement)
    ensures forall i :: 0 <= i < |CallTrace(k, call, s)| ==>
              CallTrace(k, call, s)[i].Emit? && CallTrace(k, call, s)[i].src == ToolSlot(k)
  {
    hide ReplyFor;
  }

  lemma OnlyToolsExtend(trace: seq<Step>, more: seq<Step>, owner: nat)
    requires OnlyTools(trace) && forall i :: 0 <= i < |more| ==> more[i].Emit? && more[i].src == ToolSlot(owner)
    ensures OnlyTools(trace + more)
  {
  }
}
