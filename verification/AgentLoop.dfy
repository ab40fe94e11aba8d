/**
 The two-level loop of a run: turns inside follow-up rounds, with the streaming of one
 assistant response and the injection of queued messages.

 `turns` is what the provider, the tools and the hooks answer during the first |turns| provider
 calls; a run that would need more returns with `finished` false. Cancellation and the
 arrival of queued messages may happen at any point.
 */
module AgentLoop {
  import opened Options
  import opened AgentTypes
  import opened AgentProtocol
  import opened AgentState
  import opened ToolPipeline
  import opened ParallelTools
  import opened ToolBatch

  /** The loop's own copy of the conversation. */
  class AgentContext {
    var messages: seq<AgentMessage>
    var tools: Option<seq<Tool>>

    constructor (messages: seq<AgentMessage>, tools: Option<seq<Tool>>)
      ensures this.messages == messages && this.tools == tools
    {
      this.messages := messages;
      this.tools := tools;
    }

    method SetLast(message: AgentMessage)
      modifies this`messages
      ensures messages == Replaced(old(messages), message)
    {
      if messages != [] {
        messages := messages[|messages| - 1 := message];
      }
    }
  }

  function Replaced(messages: seq<AgentMessage>, last: AgentMessage): seq<AgentMessage> {
    if messages == [] then [] else messages[|messages| - 1 := last]
  }

  const ABORTED_MESSAGE := AssistantMessage([], Aborted, Some("Operation aborted"))

  // ---------------------------------------------------------------- one assistant response

  /** How many stream starts come before the stream's terminal item. */
  function StartsIn(stream: seq<StreamItem>): nat {
    if stream == [] || stream[0].StreamDone? || stream[0].StreamError? then 0
    else (if stream[0].StreamStart? then 1 else 0) + StartsIn(stream[1..])
  }

  /** The message an uninterrupted stream ends with. */
  function FinalOf(stream: seq<StreamItem>, result: AssistantMessage): AssistantMessage {
    if stream == [] then result
    else match stream[0]
      case StreamDone(m) => m
      case StreamError(e) => e
      case _ => FinalOf(stream[1..], result)
  }

  predicate Terminal(item: StreamItem) {
    item.StreamDone? || item.StreamError?
  }

  predicate Begun(items: seq<StreamItem>) {
    exists i :: 0 <= i < |items| && items[i].StreamStart?
  }

  /** What one item shows the listeners: a delta is visible only once the message has started. */
  function StepsOf(item: StreamItem, begun: bool): seq<Step> {
    match item
    case StreamStart(partial) => [Emit(Model, MessageStart(Assistant(partial)))]
    case Delta(partial) => if begun then [Emit(Model, MessageUpdate(Assistant(partial)))] else []
    case _ => []
  }

  function StreamSteps(items: seq<StreamItem>): seq<Step> {
    if items == [] then []
    else
      var front := items[..|items| - 1];
      StreamSteps(front) + StepsOf(items[|items| - 1], Begun(front))
  }

  /** The end of a response; one that never started is started here. */
  function LastSteps(final: AssistantMessage, begun: bool): seq<Step> {
    (if begun then [] else [Emit(Model, MessageStart(Assistant(final)))]) + [Emit(Model, MessageEnd(Assistant(final)))]
  }

  /** A moment of a run: the protocol state and the loop's copy of the conversation. */
  datatype Point = Point(state: State, messages: seq<AgentMessage>)

  /** Ending the response: the last partial, if there is one, gives way to the final message. */
  function Ended(at: Point, begun: bool, final: AssistantMessage): Point {
    var g := at.state;
    Point(g.(phase := Settling(final, 0, map[], []), ends := g.ends + [Assistant(final)],
             responses := g.responses + [final]),
          if begun then Replaced(at.messages, Assistant(final)) else at.messages + [Assistant(final)])
  }

  method FinishStream(ctx: AgentContext, sink: Sink, final: AssistantMessage, partialAdded: bool)
    requires sink.Valid() && (if partialAdded then sink.Now().phase.Streaming? else sink.Now().phase.Awaiting?)
    modifies ctx`messages
    modifies sink`messages, sink`streamingMessage, sink`pendingToolCalls, sink`errorMessage, sink`log
    ensures sink.Valid()
    ensures Point(sink.Now(), ctx.messages) == Ended(Point(old(sink.Now()), old(ctx.messages)), partialAdded, final)
    ensures sink.log == old(sink.log) + LastSteps(final, partialAdded)
  {
    hide Run, Fold;
    var wrapped := Assistant(final);
    if partialAdded {
      ctx.SetLast(wrapped);
    } else {
      ctx.messages := ctx.messages + [wrapped];
      sink.Process(Model, MessageStart(wrapped));
    }
    sink.Process(Model, MessageEnd(wrapped));
  }

  method TakeStart(ctx: AgentContext, sink: Sink, partial: AssistantMessage)
    requires sink.Valid() && (sink.Now().phase.Awaiting? || sink.Now().phase.Streaming?)
    modifies ctx`messages
    modifies sink`messages, sink`streamingMessage, sink`pendingToolCalls, sink`errorMessage, sink`log
    ensures sink.Valid() && ctx.messages == old(ctx.messages) + [Assistant(partial)]
    ensures var g := old(sink.Now());
            sink.Now() == g.(phase := Streaming(Assistant(partial)),
                             restarts := g.restarts + if g.phase.Streaming? then 1 else 0)
    ensures sink.log == old(sink.log) + [Emit(Model, MessageStart(Assistant(partial)))]
  {
    hide Run, Fold;
    ctx.messages := ctx.messages + [Assistant(partial)];
    sink.Process(Model, MessageStart(Assistant(partial)));
  }

  method TakeDelta(ctx: AgentContext, sink: Sink, partial: AssistantMessage)
    requires sink.Valid() && sink.Now().phase.Streaming?
    modifies ctx`messages
    modifies sink`messages, sink`streamingMessage, sink`pendingToolCalls, sink`errorMessage, sink`log
    ensures sink.Valid() && ctx.messages == Replaced(old(ctx.messages), Assistant(partial))
    ensures sink.Now() == old(sink.Now()).(phase := Streaming(Assistant(partial)))
    ensures sink.log == old(sink.log) + [Emit(Model, MessageUpdate(Assistant(partial)))]
  {
    hide Run, Fold;
    ctx.SetLast(Assistant(partial));
    sink.Process(Model, MessageUpdate(Assistant(partial)));
  }

  /** A start opens the partial message, or opens it again; a delta before any start is dropped. */
  method TakeItem(ctx: AgentContext, sink: Sink, script: TurnScript, i: nat, partialAdded: bool,
                  ghost starts: nat, ghost at: Point, ghost log: seq<Step>)
    returns (begun: bool, ghost starts': nat)
    requires sink.Valid() && i < |script.stream| && !Terminal(script.stream[i]) && partialAdded == (starts > 0)
    requires if partialAdded then sink.Now().phase.Streaming? else sink.Now().phase.Awaiting?
    requires Midway(script, i, starts, at, Point(sink.Now(), ctx.messages), log, sink.log) && at.state.phase.Awaiting?
    modifies ctx`messages
    modifies sink`messages, sink`streamingMessage, sink`pendingToolCalls, sink`errorMessage, sink`log
    ensures sink.Valid() && begun == (starts' > 0)
    ensures if begun then sink.Now().phase.Streaming? else sink.Now().phase.Awaiting?
    ensures Midway(script, i + 1, starts', at, Point(sink.Now(), ctx.messages), log, sink.log)
  {
    hide Run, Fold, Next, Midway, Sink.Valid, Replaced;
    MidwayMoves(script, i, starts, at, Point(sink.Now(), ctx.messages), log, sink.log);
    begun, starts' := partialAdded, starts;
    if script.stream[i].StreamStart? {
      TakeStart(ctx, sink, script.stream[i].partial);
      begun, starts' := true, starts + 1;
    } else if partialAdded {
      TakeDelta(ctx, sink, script.stream[i].partial);
    }
  }

  /**
   Stream one response. Of the stream, `consumed` items are taken before the terminal one or
   the abort, `starts` of them stream starts; the context ends up one message longer exactly
   when there was at most one.
   */
  method StreamAssistantResponse(ctx: AgentContext, script: TurnScript, reasoning: Option<ThinkingLevel>,
                                 token: Token, sink: Sink)
    returns (final: AssistantMessage, ghost starts: nat, ghost consumed: nat)
    requires sink.Valid() && sink.Now().phase.Injecting? && sink.Now().phase.todo == []
    requires sink.Now().reasoning == reasoning
    modifies ctx`messages, token
    modifies sink`messages, sink`streamingMessage, sink`pendingToolCalls, sink`errorMessage, sink`log
    ensures sink.Valid() && (old(token.cancelled) ==> token.cancelled)
    ensures Streamed(Point(old(sink.Now()), old(ctx.messages)), Point(sink.Now(), ctx.messages), starts, final)
    ensures starts <= StartsIn(script.stream) && (!token.cancelled ==> starts == StartsIn(script.stream))
    ensures Answered(script, final, token.cancelled)
    ensures Consumed(script, consumed, starts)
    ensures !token.cancelled ==> consumed == |script.stream| || Terminal(script.stream[consumed])
    ensures sink.log == old(sink.log) + [CallProvider(old(ctx.messages), reasoning)]
                        + StreamSteps(script.stream[..consumed]) + LastSteps(final, starts > 0)
  {
    hide Run, Fold, Next;
    sink.Note(CallProvider(ctx.messages, reasoning));
    ghost var at0, at, log := Point(old(sink.Now()), ctx.messages), Point(sink.Now(), ctx.messages), sink.log;
    CallBegins(at0, at);
    hide *;
    starts, consumed := 0, 0;
    var partialAdded := false;
    var i := 0;
    MidwayBegins(script, at, log);
    while true
      invariant 0 <= i <= |script.stream| && partialAdded == (starts > 0)
      invariant sink.Valid() && (old(token.cancelled) ==> token.cancelled)
      invariant if partialAdded then sink.Now().phase.Streaming? else sink.Now().phase.Awaiting?
      invariant Midway(script, i, starts, at, Point(sink.Now(), ctx.messages), log, sink.log)
      decreases |script.stream| - i
    {
      var cancelled := token.IsCancelled();
      var cancellationWins: bool := *;
      consumed := i;
      if (cancelled && cancellationWins) || i == |script.stream| {
        var c := token.IsCancelled();
        final := if c then ABORTED_MESSAGE else script.result;
        break;
      }
      match script.stream[i] {
        case StreamDone(message) =>
          final := message;
          break;
        case StreamError(error) =>
          final := error;
          break;
        case _ =>
          partialAdded, starts := TakeItem(ctx, sink, script, i, partialAdded, starts, at, log);
          i := i + 1;
      }
    }
    MidwayEnds(script, consumed, starts, at0, Point(sink.Now(), ctx.messages), log, sink.log, final, token.cancelled);
    FinishStream(ctx, sink, final, partialAdded);
  }

  /** A response is what its stream says, or the abort once the run is cancelled. */
  predicate Answered(script: TurnScript, final: AssistantMessage, cancelled: bool) {
    final == FinalOf(script.stream, script.result) || (cancelled && final == ABORTED_MESSAGE)
  }

  /** After `i` items without a terminal one, `starts` of them stream starts. */
  ghost predicate Consumed(script: TurnScript, i: nat, starts: nat) {
    && i <= |script.stream|
    && (forall j :: 0 <= j < i ==> !Terminal(script.stream[j]))
    && (starts > 0 <==> Begun(script.stream[..i]))
    && starts + StartsIn(script.stream[i..]) == StartsIn(script.stream)
    && FinalOf(script.stream[i..], script.result) == FinalOf(script.stream, script.result)
  }

  lemma NothingConsumed(script: TurnScript)
    ensures Consumed(script, 0, 0) && StreamSteps(script.stream[..0]) == []
  {
    assert script.stream[0..] == script.stream;
  }

  lemma ConsumeOne(script: TurnScript, i: nat, starts: nat)
    requires Consumed(script, i, starts) && i < |script.stream|
    ensures var item := script.stream[i];
            && (item.StreamStart? ==> Consumed(script, i + 1, starts + 1))
            && (item.Delta? ==> Consumed(script, i + 1, starts))
    ensures StreamSteps(script.stream[..i + 1]) ==
            StreamSteps(script.stream[..i]) + StepsOf(script.stream[i], starts > 0)
  {
    assert script.stream[i..][1..] == script.stream[i + 1..];
    assert script.stream[..i + 1][..i] == script.stream[..i];
    assert script.stream[..i + 1] == script.stream[..i] + [script.stream[i]];
    hide StreamSteps;
    if starts > 0 {
      var j :| 0 <= j < i && script.stream[..i][j].StreamStart?;
      assert script.stream[..i + 1][j].StreamStart?;
    } else if script.stream[i].StreamStart? {
      assert script.stream[..i + 1][i].StreamStart?;
    }
  }

  /** What `i` items have left behind: the steps they show, and the moves of state and context. */
  ghost predicate Midway(script: TurnScript, i: nat, starts: nat, a: Point, b: Point, log: seq<Step>, now: seq<Step>) {
    && Consumed(script, i, starts)
    && MidStream(a, b, starts)
    && now == log + StreamSteps(script.stream[..i])
  }

  lemma CallBegins(a: Point, b: Point)
    requires a.state.phase.Injecting? && a.state.phase.todo == [] && b.messages == a.messages
    requires b.state == Next(a.state, CallProvider(a.messages, a.state.reasoning))
    ensures b == Called(a) && b.state.phase.Awaiting?
  {
  }

  lemma MidwayBegins(script: TurnScript, a: Point, log: seq<Step>)
    ensures Midway(script, 0, 0, a, a, log, log)
  {
    NothingConsumed(script);
  }

  /** One more item that is not terminal. */
  lemma MidwayMoves(script: TurnScript, i: nat, starts: nat, a: Point, b: Point, log: seq<Step>, now: seq<Step>)
    requires Midway(script, i, starts, a, b, log, now) && a.state.phase.Awaiting? && i < |script.stream|
    ensures var item, g := script.stream[i], b.state;
            && (item.StreamStart? ==>
                  var m := Assistant(item.partial);
                  Midway(script, i + 1, starts + 1, a,
                         Point(g.(phase := Streaming(m), restarts := g.restarts + if g.phase.Streaming? then 1 else 0),
                               b.messages + [m]),
                         log, now + [Emit(Model, MessageStart(m))]))
            && (item.Delta? && starts > 0 ==>
                  var m := Assistant(item.partial);
                  Midway(script, i + 1, starts, a, Point(g.(phase := Streaming(m)), Replaced(b.messages, m)),
                         log, now + [Emit(Model, MessageUpdate(m))]))
            && (item.Delta? && starts == 0 ==> Midway(script, i + 1, starts, a, b, log, now))
  {
    hide Consumed, MidStream, StreamSteps, Replaced;
    var item := script.stream[i];
    ConsumeOne(script, i, starts);
    Joined(log, StreamSteps(script.stream[..i]), StepsOf(item, starts > 0));
    if item.StreamStart? || item.Delta? {
      MidStreamMoves(a, b, starts, Assistant(item.partial));
    }
  }

  /** What the stream says once `i` items are consumed: its terminal item, or the result when it has run out. */
  ghost predicate SaidAt(script: TurnScript, i: nat, final: AssistantMessage)
    requires i <= |script.stream|
  {
    if i == |script.stream| then final == script.result
    else match script.stream[i]
      case StreamDone(message) => final == message
      case StreamError(error) => final == error
      case _ => false
  }

  /** The response may end with what the stream says, or with the abort message once the run is cancelled. */
  lemma MidwayEnds(script: TurnScript, i: nat, starts: nat, a: Point, b: Point, log: seq<Step>, now: seq<Step>,
                   final: AssistantMessage, cancelled: bool)
    requires Midway(script, i, starts, Called(a), b, log, now)
    requires i <= |script.stream| && (SaidAt(script, i, final) || (cancelled && final == ABORTED_MESSAGE))
    ensures Consumed(script, i, starts) && now == log + StreamSteps(script.stream[..i])
    ensures starts <= StartsIn(script.stream) && (!cancelled ==> starts == StartsIn(script.stream))
    ensures Streamed(a, Ended(b, starts > 0, final), starts, final) && Answered(script, final, cancelled)
    ensures !cancelled ==> i == |script.stream| || Terminal(script.stream[i])
  {
    hide StreamSteps;
    MidStreamEnds(a, b, starts, final);
  }

  lemma Joined(log: seq<Step>, more: seq<Step>, last: seq<Step>)
    ensures log + (more + last) == (log + more) + last
    ensures log + more + [] == log + more
  {
  }

  /** Mid-stream, only the partial message and the restart count have moved. */
  ghost predicate MidStream(a: Point, b: Point, starts: nat) {
    if starts == 0 then a == b
    else
      && b.state.phase.Streaming?
      && b.state == a.state.(phase := b.state.phase, restarts := a.state.restarts + starts - 1)
      && |b.messages| == |a.messages| + starts && b.messages[..|a.messages|] == a.messages
  }

  /** What streaming a response does to the protocol state and to the loop's context. */
  ghost predicate Streamed(a: Point, b: Point, starts: nat, final: AssistantMessage) {
    var g := a.state;
    && b.state == g.(phase := Settling(final, 0, map[], []), ends := g.ends + [Assistant(final)],
                     responses := g.responses + [final], restarts := g.restarts + Excess(starts),
                     faithful := g.faithful && a.messages == g.base + g.ends)
    && |b.messages| == |a.messages| + 1 + Excess(starts)
    && (starts <= 1 ==> b.messages == a.messages + [Assistant(final)])
  }

  function Excess(starts: nat): nat { if starts == 0 then 0 else starts - 1 }

  function Called(a: Point): Point {
    var g := a.state;
    a.(state := g.(phase := Awaiting, faithful := g.faithful && a.messages == g.base + g.ends))
  }

  lemma MidStreamMoves(a: Point, b: Point, starts: nat, m: AgentMessage)
    requires MidStream(a, b, starts) && a.state.phase.Awaiting?
    ensures var now := b.state;
            MidStream(a, Point(now.(phase := Streaming(m),
                                    restarts := now.restarts + if now.phase.Streaming? then 1 else 0),
                               b.messages + [m]), starts + 1)
    ensures starts > 0 ==> MidStream(a, Point(b.state.(phase := Streaming(m)), Replaced(b.messages, m)), starts)
  {
    assert (b.messages + [m])[..|a.messages|] == a.messages;
    if starts > 0 {
      assert Replaced(b.messages, m)[..|a.messages|] == a.messages;
    }
  }

  lemma MidStreamEnds(a: Point, b: Point, starts: nat, final: AssistantMessage)
    requires MidStream(Called(a), b, starts)
    ensures Streamed(a, Ended(b, starts > 0, final), starts, final)
  {
    if starts == 1 {
      assert Replaced(b.messages, Assistant(final)) == a.messages + [Assistant(final)];
    }
  }

  // ---------------------------------------------------------------- one turn

  /** Put the pending messages into the conversation, before the next assistant response. */
  method InjectPending(ctx: AgentContext, pending: seq<AgentMessage>, sink: Sink, ghost q: Source)
    requires sink.Valid() && sink.Now().phase == Injecting(q, pending)
    modifies ctx`messages, sink`messages, sink`streamingMessage, sink`pendingToolCalls, sink`errorMessage, sink`log
    ensures sink.Valid() && ctx.messages == old(ctx.messages) + pending
    ensures sink.Now() == old(sink.Now()).(phase := Injecting(q, []), ends := old(sink.Now()).ends + pending)
  {
    hide Run, Fold;
    ghost var g := sink.Now();
    var i := 0;
    assert pending[0..] == pending && pending[..0] == [];
    while i < |pending|
      invariant 0 <= i <= |pending| && sink.Valid()
      invariant ctx.messages == old(ctx.messages) + pending[..i]
      invariant sink.Now() == g.(phase := Injecting(q, pending[i..]), ends := g.ends + pending[..i])
    {
      var message := pending[i];
      assert pending[i..][1..] == pending[i + 1..] && pending[..i + 1] == pending[..i] + [message];
      sink.Process(q, MessageStart(message));
      sink.Process(q, MessageEnd(message));
      ctx.messages := ctx.messages + [message];
      i := i + 1;
    }
    assert pending[..|pending|] == pending && pending[|pending|..] == [];
  }

  /** Run the tool calls of a response, if it has any, and file the replies in the context. */
  method SettleTools(ctx: AgentContext, config: LoopConfig, final: AssistantMessage, script: TurnScript, token: Token,
                     sink: Sink)
    returns (replies: seq<ToolResultMessage>, more: bool)
    requires sink.Valid() && sink.Now().phase == Settling(final, 0, map[], []) && !StopsRun(final.stopReason)
    modifies ctx`messages, token
    modifies sink`messages, sink`streamingMessage, sink`pendingToolCalls, sink`errorMessage, sink`log
    ensures sink.Valid() && (old(token.cancelled) ==> token.cancelled)
    ensures ctx.messages == old(ctx.messages) + Replies(replies)
    ensures var g := old(sink.Now()); var now := sink.Now();
            && now.phase.Settling? && now.phase.final == final && now.phase.replies == replies
            && BatchComplete(now.phase)
            && now == g.(phase := now.phase, ends := g.ends + Replies(replies))
            && more == (now.phase.started > 0 && !BatchTerminates(now.phase.outcomes))
  {
    hide Run, Fold, Next, TraceOf, Honest, Reported, Terminating, AfterBatch, BatchComplete, BatchTerminates, Replies;
    hide RunsSequentially, InOrder, InRounds, Sink.Valid;
    var toolCalls := ToolCallsIn(final.content);
    replies, more := [], false;
    if toolCalls == [] {
      NoBatch(sink.Now());
    } else {
      var terminate: bool;
      ghost var settled: seq<Settlement>;
      ghost var trace: seq<Step>;
      ghost var g := sink.Now();
      if final.stopReason == Length {
        replies, terminate, settled, trace := FailTruncated(final, toolCalls, sink);
      } else {
        replies, terminate, settled, trace :=
            ExecuteToolCalls(ctx.tools, config, final, toolCalls, script.calls, token, sink);
      }
      BatchFinished(g, toolCalls, replies, settled);
      more := !terminate;
      ctx.messages := ctx.messages + Replies(replies);
    }
  }

  lemma NoBatch(g: State)
    requires g.phase.Settling? && g.phase.started == 0 && g.phase.outcomes == map[] && g.phase.replies == []
    requires Calls(g.phase.final) == []
    ensures BatchComplete(g.phase) && Replies([]) == [] && forall s: seq<AgentMessage> :: s + Replies([]) == s
  {
    assert forall s: seq<AgentMessage> :: s + [] == s;
  }

  lemma BatchFinished(g: State, calls: seq<ToolCall>, replies: seq<ToolResultMessage>, settled: seq<Settlement>)
    requires g.phase.Settling? && !StopsRun(g.phase.final.stopReason) && settled != []
    requires Reported(calls, settled, replies) && calls == Calls(g.phase.final)
    ensures var h := AfterBatch(g, replies, settled);
            && h.phase.Settling? && h.phase.final == g.phase.final && h.phase.replies == replies
            && BatchComplete(h.phase)
            && h == g.(phase := h.phase, ends := g.ends + Replies(replies))
            && (h.phase.started > 0 && !BatchTerminates(h.phase.outcomes)) == !Terminating(settled)
  {
    var h := AfterBatch(g, replies, settled);
    assert 0 in h.phase.outcomes;
    if Terminating(settled) {
      assert BatchTerminates(h.phase.outcomes);
    } else {
      var k :| 0 <= k < |settled| && settled[k].outcome.result.terminate != Some(true);
      assert k in h.phase.outcomes;
    }
  }

  /** What a turn adds to the run: the messages it completes, and the response among them. */
  datatype Turn = Turn(made: seq<AgentMessage>, final: AssistantMessage, starts: nat)

  /**
   What one turn does to the protocol state and to the loop's context: each repeated stream
   start leaves one stale partial behind in the context.
   */
  ghost predicate TurnDone(a: Point, b: Point, t: Turn) {
    var g := a.state;
    && b.state == g.(phase := b.state.phase, ends := g.ends + t.made, responses := g.responses + [t.final],
                     restarts := g.restarts + Excess(t.starts), faithful := b.state.faithful)
    && b.state.faithful == (g.faithful && a.messages == g.base + g.ends)
    && |b.messages| == |a.messages| + |t.made| + Excess(t.starts)
    && (Excess(t.starts) == 0 ==> b.messages == a.messages + t.made)
  }

  /** One pass of the inner loop, up to and including the turn's end. */
  method RunTurn(ctx: AgentContext, config: LoopConfig, script: TurnScript, reasoning: Option<ThinkingLevel>,
                 firstTurn: bool, pending: seq<AgentMessage>, token: Token, sink: Sink)
    returns (final: AssistantMessage, more: bool, made: seq<AgentMessage>, ghost starts: nat)
    requires sink.Valid() && sink.Now().reasoning == reasoning
    requires if firstTurn then sink.Now().phase.Injecting? else sink.Now().phase.Ready?
    requires sink.Now().phase.todo == pending
    modifies ctx`messages, token
    modifies sink`messages, sink`streamingMessage, sink`pendingToolCalls, sink`errorMessage, sink`log
    ensures sink.Valid() && (old(token.cancelled) ==> token.cancelled)
    ensures TurnDone(Point(old(sink.Now()), old(ctx.messages)), Point(sink.Now(), ctx.messages),
                     Turn(made, final, starts))
    ensures sink.Now().phase == if StopsRun(final.stopReason) then Closing else Between(more)
    ensures starts <= StartsIn(script.stream) && (!token.cancelled ==> starts == StartsIn(script.stream))
    ensures Answered(script, final, token.cancelled)
    ensures sink.log != [] && sink.log[|sink.log| - 1].Emit?
  {
    hide Run, Fold, Next, StartsIn, BatchComplete, BatchTerminates, Replies, TurnDone, StopsRun, Answered, Sink.Valid;
    ghost var at := Point(sink.Now(), ctx.messages);
    final, starts := Respond(ctx, script, reasoning, firstTurn, pending, token, sink);
    ghost var at1, cancelled := Point(sink.Now(), ctx.messages), token.cancelled;
    var replies: seq<ToolResultMessage>;
    if StopsRun(final.stopReason) {
      replies, more := [], false;
      StoppedBatch(sink.Now(), ctx.messages);
    } else {
      replies, more := SettleTools(ctx, config, final, script, token, sink);
    }
    StillAnswered(script, final, cancelled, token.cancelled);
    made := pending + [Assistant(final)] + Replies(replies);
    ghost var at2 := Point(sink.Now(), ctx.messages);
    EmitTurnEnd(sink, final, replies, more);
    TurnAdds(at, at1, at2, Point(sink.Now(), ctx.messages), Turn(pending + [Assistant(final)], final, starts), replies);
  }

  /** The first half of a turn: what is pending goes in, and the model answers. */
  method Respond(ctx: AgentContext, script: TurnScript, reasoning: Option<ThinkingLevel>, firstTurn: bool,
                 pending: seq<AgentMessage>, token: Token, sink: Sink)
    returns (final: AssistantMessage, ghost starts: nat)
    requires sink.Valid() && sink.Now().reasoning == reasoning
    requires if firstTurn then sink.Now().phase.Injecting? else sink.Now().phase.Ready?
    requires sink.Now().phase.todo == pending
    modifies ctx`messages, token
    modifies sink`messages, sink`streamingMessage, sink`pendingToolCalls, sink`errorMessage, sink`log
    ensures sink.Valid() && (old(token.cancelled) ==> token.cancelled)
    ensures TurnDone(Point(old(sink.Now()), old(ctx.messages)), Point(sink.Now(), ctx.messages),
                     Turn(pending + [Assistant(final)], final, starts))
    ensures sink.Now().phase == Settling(final, 0, map[], [])
    ensures starts <= StartsIn(script.stream) && (!token.cancelled ==> starts == StartsIn(script.stream))
    ensures Answered(script, final, token.cancelled)
  {
    hide Run, Fold, Next, StartsIn, Streamed, TurnDone, Answered, StreamSteps, LastSteps, Consumed, Terminal;
    hide Sink.Valid;
    ghost var at := Point(sink.Now(), ctx.messages);
    if !firstTurn {
      EmitTurnStart(sink);
    }
    InjectPending(ctx, pending, sink, at.state.phase.src);
    ghost var at1 := Point(sink.Now(), ctx.messages);
    ghost var consumed: nat;
    final, starts, consumed := StreamAssistantResponse(ctx, script, reasoning, token, sink);
    ResponseAdds(at, at1, Point(sink.Now(), ctx.messages), pending, final, starts);
  }

  lemma StillAnswered(script: TurnScript, final: AssistantMessage, before: bool, cancelled: bool)
    requires Answered(script, final, before) && (before ==> cancelled)
    ensures Answered(script, final, cancelled)
  {
  }

  method EmitTurnStart(sink: Sink)
    requires sink.Valid() && sink.Now().phase.Ready?
    modifies sink`messages, sink`streamingMessage, sink`pendingToolCalls, sink`errorMessage, sink`log
    ensures sink.Valid()
    ensures var g := old(sink.Now()); sink.Now() == g.(phase := Injecting(g.phase.src, g.phase.todo))
  {
    hide Run, Fold;
    sink.Process(Loop, TurnStart);
  }

  method EmitTurnEnd(sink: Sink, final: AssistantMessage, replies: seq<ToolResultMessage>, ghost more: bool)
    requires sink.Valid() && sink.Now().phase.Settling? && BatchComplete(sink.Now().phase)
    requires sink.Now().phase.final == final && sink.Now().phase.replies == replies
    requires more == (sink.Now().phase.started > 0 && !BatchTerminates(sink.Now().phase.outcomes))
    modifies sink`messages, sink`streamingMessage, sink`pendingToolCalls, sink`errorMessage, sink`log
    ensures sink.Valid() && sink.log == old(sink.log) + [Emit(Loop, TurnEnd(Assistant(final), replies))]
    ensures sink.Now() == old(sink.Now()).(phase := if StopsRun(final.stopReason) then Closing else Between(more))
  {
    hide Run, Fold, BatchComplete, BatchTerminates;
    sink.Process(Loop, TurnEnd(Assistant(final), replies));
  }

  lemma StoppedBatch(g: State, messages: seq<AgentMessage>)
    requires g.phase.Settling? && StopsRun(g.phase.final.stopReason)
    requires g.phase.started == 0 && g.phase.outcomes == map[] && g.phase.replies == []
    ensures BatchComplete(g.phase) && g.ends + Replies([]) == g.ends && messages + Replies([]) == messages
  {
  }

  /** What is injected and the response together are one addition to all copies. */
  lemma ResponseAdds(a: Point, b: Point, c: Point, pending: seq<AgentMessage>, final: AssistantMessage, starts: nat)
    requires b.state == a.state.(phase := b.state.phase, ends := a.state.ends + pending)
    requires b.messages == a.messages + pending && Streamed(b, c, starts, final)
    ensures TurnDone(a, c, Turn(pending + [Assistant(final)], final, starts))
    ensures c.state.phase == Settling(final, 0, map[], [])
  {
    var g, was := a.state, a.messages;
    assert (g.ends + pending) + [Assistant(final)] == g.ends + (pending + [Assistant(final)]);
    assert (was + pending) + [Assistant(final)] == was + (pending + [Assistant(final)]);
    assert was + pending == g.base + (g.ends + pending) <==> was == g.base + g.ends by {
      SameTail(was, g.base + g.ends, pending);
      assert g.base + (g.ends + pending) == (g.base + g.ends) + pending;
    }
  }

  /** The replies go on top. */
  lemma TurnAdds(a: Point, b: Point, c: Point, d: Point, t: Turn, replies: seq<ToolResultMessage>)
    requires TurnDone(a, b, t)
    requires c.state == b.state.(phase := c.state.phase, ends := b.state.ends + Replies(replies))
    requires c.messages == b.messages + Replies(replies) && d == Point(c.state.(phase := d.state.phase), c.messages)
    ensures TurnDone(a, d, t.(made := t.made + Replies(replies)))
  {
    hide Replies;
    assert (a.state.ends + t.made) + Replies(replies) == a.state.ends + (t.made + Replies(replies));
    assert (a.messages + t.made) + Replies(replies) == a.messages + (t.made + Replies(replies));
  }

  lemma SameTail(a: seq<AgentMessage>, b: seq<AgentMessage>, t: seq<AgentMessage>)
    ensures a + t == b + t <==> a == b
  {
    if a + t == b + t {
      assert |a| == |b|;
      assert a == (a + t)[..|a|] && b == (b + t)[..|b|];
    }
  }

  // ---------------------------------------------------------------- the two-level loop

  /** The loop's books: the initial transcript, what the run completed, and whether a hook replaced the context. */
  datatype Ledger = Ledger(base: seq<AgentMessage>, newMessages: seq<AgentMessage>, replaced: bool)

  /**
   The three copies agree. Unless a turn update replaced the context, the loop's context is the
   initial transcript followed by the completed messages and one stale partial for every
   repeated stream start.
   */
  ghost predicate Agree(at: Point, l: Ledger) {
    var now := at.state;
    && now.base == l.base && now.ends == l.newMessages
    && (!l.replaced ==> |at.messages| == |l.base| + |l.newMessages| + now.restarts)
    && (!l.replaced && now.restarts == 0 ==> at.messages == l.base + l.newMessages && now.faithful)
  }

  lemma TurnKeepsAgreement(a: Point, b: Point, l: Ledger, t: Turn)
    requires Agree(a, l) && TurnDone(a, b, t)
    ensures Agree(b, l.(newMessages := l.newMessages + t.made))
  {
    assert (l.base + l.newMessages) + t.made == l.base + (l.newMessages + t.made);
  }

  /** The repeated stream starts of these turns, if all of their streams are taken to the end. */
  function Restarts(turns: seq<TurnScript>): nat {
    if turns == [] then 0 else Restarts(turns[..|turns| - 1]) + Excess(StartsIn(turns[|turns| - 1].stream))
  }

  /** No repeated start means that every stream starts at most once. */
  lemma {:induction false} RestartsMean(turns: seq<TurnScript>)
    ensures Restarts(turns) == 0 <==> forall j :: 0 <= j < |turns| ==> StartsIn(turns[j].stream) <= 1
  {
    if turns != [] {
      RestartsMean(turns[..|turns| - 1]);
      assert turns[|turns| - 1] in turns;
      assert turns == turns[..|turns| - 1] + [turns[|turns| - 1]];
    }
  }

  /**
   The turns a run has used up: as many as it has responses, each answered by its own stream.
   The restarts are those of their streams, or fewer once the run is cancelled.
   */
  ghost predicate Played(now: State, turns: seq<TurnScript>, cancelled: bool) {
    var n := |now.responses|;
    && n <= |turns|
    && now.restarts <= Restarts(turns[..n])
    && (!cancelled ==> now.restarts == Restarts(turns[..n]))
    && (forall j :: 0 <= j < n ==> Answered(turns[j], now.responses[j], cancelled))
  }

  /** Streams that start at most once cause no restart; and only those, unless the run is cancelled. */
  lemma PlayedRestarts(now: State, turns: seq<TurnScript>, cancelled: bool)
    requires Played(now, turns, cancelled)
    ensures var once := forall j :: 0 <= j < |now.responses| ==> StartsIn(turns[j].stream) <= 1;
            (once ==> now.restarts == 0) && (!cancelled ==> (once <==> now.restarts == 0))
  {
    RestartsMean(turns[..|now.responses|]);
  }

  lemma PlayedOneMore(a: Point, b: Point, t: Turn, turns: seq<TurnScript>, before: bool, cancelled: bool)
    requires Played(a.state, turns, before) && TurnDone(a, b, t) && (before ==> cancelled)
    requires var n := |a.state.responses|;
             && n < |turns| && Answered(turns[n], t.final, cancelled)
             && t.starts <= StartsIn(turns[n].stream) && (!cancelled ==> t.starts == StartsIn(turns[n].stream))
    ensures Played(b.state, turns, cancelled)
  {
    hide StartsIn, FinalOf;
    var n := |a.state.responses|;
    assert turns[..n + 1][..n] == turns[..n];
    forall j | 0 <= j < n
      ensures Answered(turns[j], b.state.responses[j], cancelled)
    {
      assert b.state.responses[j] == a.state.responses[j];
    }
  }

  /** Neither the response nor a stop hook ends the run here. */
  predicate GoesOn(config: LoopConfig, turn: TurnScript, final: AssistantMessage) {
    !StopsRun(final.stopReason) && !(config.hasStop && turn.stop)
  }

  ghost predicate WentOn(config: LoopConfig, turns: seq<TurnScript>, responses: seq<AssistantMessage>) {
    |responses| <= |turns| && forall j :: 0 <= j < |responses| ==> GoesOn(config, turns[j], responses[j])
  }

  /** When a run is over: at the first turn that ends it, or else when it has run dry. */
  ghost predicate Over(log: seq<Step>, config: LoopConfig, turns: seq<TurnScript>, responses: seq<AssistantMessage>) {
    && 0 < |responses| <= |turns|
    && WentOn(config, turns, responses[..|responses| - 1])
    && (WentOn(config, turns, responses) <==> RanDry(log))
  }

  lemma OverDry(log: seq<Step>, config: LoopConfig, turns: seq<TurnScript>, responses: seq<AssistantMessage>)
    requires responses != [] && WentOn(config, turns, responses) && RanDry(log)
    ensures Over(log, config, turns, responses)
  {
  }

  lemma WentOnOneMore(config: LoopConfig, turns: seq<TurnScript>, responses: seq<AssistantMessage>,
                      final: AssistantMessage)
    requires WentOn(config, turns, responses) && |responses| < |turns|
    ensures (responses + [final])[..|responses|] == responses
    ensures WentOn(config, turns, responses + [final]) <==> GoesOn(config, turns[|responses|], final)
  {
    var more := responses + [final];
    if WentOn(config, turns, more) {
      assert more[|responses|] == final;
    }
  }

  /** Where the inner loop may stand when it looks at its guard. */
  predicate AtGuard(phase: Phase, firstTurn: bool, hasMore: bool, pending: seq<AgentMessage>) {
    if firstTurn then phase == Injecting(Steering, pending)
    else if hasMore || pending != [] then phase.Ready? && phase.todo == pending
    else phase == Idle
  }

  ghost predicate SomeReplacement(config: LoopConfig, turns: seq<TurnScript>) {
    config.hasPrepare && exists j :: 0 <= j < |turns| && Replaces(turns[j])
  }

  predicate Replaces(turn: TurnScript) {
    turn.prepare.Some? && turn.prepare.value.context.Some?
  }

  method PollSteering(hook: QueueHook, sink: Sink) returns (got: seq<AgentMessage>)
    requires sink.Valid() && hook.queue.Valid()
    requires sink.Now().phase == Prompting || (sink.Now().phase.Between? && !hook.skip)
    modifies hook, hook.queue`messages, hook.queue`given, hook.queue`drained, sink`log
    ensures sink.Valid() && hook.queue.Valid() && hook.queue.drained == old(hook.queue.drained) + got
    ensures old(hook.queue.given) <= hook.queue.given && !hook.skip
    ensures old(hook.skip) ==> got == []
    ensures !old(hook.skip) && (got == [] || hook.queue.mode == All) ==> hook.queue.messages == []
    ensures sink.log == old(sink.log) + [PollQueue(Steering, got, hook.queue.messages)]
    ensures var g := old(sink.Now());
            sink.Now() == g.(phase := if g.phase == Prompting then Injecting(Steering, got)
                                      else if got != [] || g.phase.more then Ready(Steering, got) else Idle,
                             opening := if g.phase == Prompting then Some(got) else g.opening,
                             steered := g.steered + got)
  {
    hide Run, Fold;
    got := hook.Poll();
    sink.Note(PollQueue(Steering, got, hook.queue.messages));
  }

  method PollFollowUp(queue: PendingMessageQueue, sink: Sink) returns (got: seq<AgentMessage>)
    requires sink.Valid() && queue.Valid() && sink.Now().phase == Idle
    modifies queue`messages, queue`given, queue`drained, sink`log
    ensures sink.Valid() && queue.Valid() && queue.drained == old(queue.drained) + got
    ensures old(queue.given) <= queue.given
    ensures got == [] || queue.mode == All ==> queue.messages == []
    ensures sink.log == old(sink.log) + [PollQueue(FollowUp, got, queue.messages)]
    ensures var g := old(sink.Now());
            sink.Now() == g.(phase := if got != [] then Ready(FollowUp, got) else Closing, followed := g.followed + got)
  {
    hide Run, Fold;
    got := queue.Take();
    sink.Note(PollQueue(FollowUp, got, queue.messages));
  }

  method EmitAgentEnd(sink: Sink, newMessages: seq<AgentMessage>)
    requires sink.Valid() && (sink.Now().phase == Closing || sink.Now().phase.Between?)
    requires sink.Now().ends == newMessages
    modifies sink`messages, sink`streamingMessage, sink`pendingToolCalls, sink`errorMessage, sink`log
    ensures sink.Valid() && sink.Now() == old(sink.Now()).(phase := Done)
    ensures sink.log == old(sink.log) + [Emit(Loop, AgentEnd(newMessages))]
  {
    hide Run, Fold;
    sink.Process(Loop, AgentEnd(newMessages));
  }

  /** `prepare_next_turn`: it may swap the context and remap the reasoning level. */
  method PrepareNextTurn(ctx: AgentContext, update: TurnUpdate, reasoning: Option<ThinkingLevel>, sink: Sink)
    returns (reasoning': Option<ThinkingLevel>, ghost replaced: bool)
    requires sink.Valid() && sink.Now().phase.Between? && sink.Now().reasoning == reasoning
    modifies ctx, sink`log
    ensures sink.Valid() && sink.Now() == old(sink.Now()).(reasoning := reasoning')
    ensures sink.log == old(sink.log) + [Update(update.thinkingLevel)]
    ensures replaced == update.context.Some?
    ensures ctx.messages == if replaced then update.context.value.messages else old(ctx.messages)
    ensures ctx.tools == if replaced then update.context.value.tools else old(ctx.tools)
  {
    hide Run, Fold;
    replaced := update.context.Some?;
    if update.context.Some? {
      ctx.messages := update.context.value.messages;
      ctx.tools := update.context.value.tools;
    }
    match update.thinkingLevel {
      case None => reasoning' := reasoning;
      case Some(Off) => reasoning' := None;
      case Some(level) => reasoning' := Some(level);
    }
    sink.Note(Update(update.thinkingLevel));
  }

  /** Let the prepare hook speak, if there is one. */
  method AskPrepareHook(ctx: AgentContext, config: LoopConfig, script: TurnScript, reasoning: Option<ThinkingLevel>,
                        sink: Sink, ghost l: Ledger)
    returns (reasoning': Option<ThinkingLevel>, ghost replaced: bool)
    requires sink.Valid() && sink.Now().phase.Between? && sink.Now().reasoning == reasoning
    requires Agree(Point(sink.Now(), ctx.messages), l)
    requires sink.log != [] && !sink.log[|sink.log| - 1].PollQueue?
    modifies ctx, sink`log
    ensures sink.Valid() && sink.Now() == old(sink.Now()).(reasoning := reasoning')
    ensures sink.log != [] && !sink.log[|sink.log| - 1].PollQueue?
    ensures replaced <==> l.replaced || (config.hasPrepare && Replaces(script))
    ensures Agree(Point(sink.Now(), ctx.messages), l.(replaced := replaced))
  {
    hide Run, Fold, Next, Agree, Sink.Valid;
    ghost var at := Point(sink.Now(), ctx.messages);
    reasoning', replaced := reasoning, l.replaced;
    if config.hasPrepare && script.prepare.Some? {
      ghost var swapped;
      reasoning', swapped := PrepareNextTurn(ctx, script.prepare.value, reasoning, sink);
      if swapped {
        ReplacedAgreement(at, ctx.messages, l);
        replaced := true;
      }
    }
    PhaseKeepsAgreement(Point(at.state, ctx.messages), Point(sink.Now(), ctx.messages), l.(replaced := replaced));
  }

  lemma PhaseKeepsAgreement(a: Point, b: Point, l: Ledger)
    requires Agree(a, l) && b.messages == a.messages
    requires var g, now := a.state, b.state;
             now == g.(phase := now.phase, reasoning := now.reasoning, steered := now.steered, followed := now.followed)
    ensures Agree(b, l) && b.state.ends == l.newMessages
  {
  }

  lemma ReplacedAgreement(a: Point, messages: seq<AgentMessage>, l: Ledger)
    requires Agree(a, l)
    ensures Agree(Point(a.state, messages), l.(replaced := true))
  {
  }

  lemma AgreeEnds(at: Point, l: Ledger)
    requires Agree(at, l)
    ensures at.state.ends == l.newMessages
  {
  }

  /** The log ends with the steering poll that handed over `pending`; it was not a skipped one. */
  ghost predicate Asked(log: seq<Step>, pending: seq<AgentMessage>) {
    && log != []
    && log[|log| - 1].PollQueue? && log[|log| - 1].queue == Steering && log[|log| - 1].got == pending
    && (pending == [] ==> log[|log| - 1].left == [])
  }

  /**
   What follows a turn's end: stop on an error, let the hooks speak, and otherwise ask for
   steering messages, which are `pending`.
   */
  method FinishTurn(ctx: AgentContext, config: LoopConfig, script: TurnScript, final: AssistantMessage,
                    reasoning: Option<ThinkingLevel>, newMessages: seq<AgentMessage>, sink: Sink, steering: QueueHook,
                    ghost l: Ledger)
    returns (ended: bool, reasoning': Option<ThinkingLevel>, pending: seq<AgentMessage>, ghost replaced: bool)
    requires sink.Valid() && steering.queue.Valid() && sink.Now().reasoning == reasoning && !steering.skip
    requires if StopsRun(final.stopReason) then sink.Now().phase == Closing else sink.Now().phase.Between?
    requires Agree(Point(sink.Now(), ctx.messages), l) && l.newMessages == newMessages
    requires sink.log != [] && sink.log[|sink.log| - 1].Emit?
    modifies ctx, sink`messages, sink`streamingMessage, sink`pendingToolCalls, sink`errorMessage, sink`log
    modifies steering, steering.queue`messages, steering.queue`given, steering.queue`drained
    ensures sink.Valid() && steering.queue.Valid() && !steering.skip
    ensures steering.queue.drained == old(steering.queue.drained) + pending
    ensures var g, now := old(sink.Now()), sink.Now();
            now == g.(phase := now.phase, reasoning := reasoning', steered := g.steered + pending)
    ensures Agree(Point(sink.Now(), ctx.messages), l.(replaced := replaced))
    ensures replaced <==> l.replaced || (!StopsRun(final.stopReason) && config.hasPrepare && Replaces(script))
    ensures ended <==> !GoesOn(config, script, final)
    ensures ended ==> sink.Now().phase == Done && !RanDry(sink.log) && pending == []
    ensures !ended ==> AtGuard(sink.Now().phase, false, old(sink.Now()).phase.more, pending) && Asked(sink.log, pending)
  {
    hide Run, Fold, Next, Agree, StopsRun, RanDry, Sink.Valid;
    ended, reasoning', pending, replaced := false, reasoning, [], l.replaced;
    ghost var at := Point(sink.Now(), ctx.messages);
    AgreeEnds(at, l);
    if StopsRun(final.stopReason) {
      NotDry(sink.log, Emit(Loop, AgentEnd(newMessages)));
      EmitAgentEnd(sink, newMessages);
      ended := true;
    } else {
      reasoning', replaced := AskPrepareHook(ctx, config, script, reasoning, sink, l);
      at := Point(sink.Now(), ctx.messages);
      AgreeEnds(at, l.(replaced := replaced));
      if config.hasStop && script.stop {
        NotDry(sink.log, Emit(Loop, AgentEnd(newMessages)));
        EmitAgentEnd(sink, newMessages);
        ended := true;
      } else {
        pending := PollSteering(steering, sink);
      }
    }
    assert at.state.steered + [] == at.state.steered;
    PhaseKeepsAgreement(at, Point(sink.Now(), ctx.messages), l.(replaced := replaced));
  }

  lemma NotDry(log: seq<Step>, last: Step)
    requires log != [] && !log[|log| - 1].PollQueue?
    ensures !RanDry(log + [last])
  {
  }

  lemma DryRun(log: seq<Step>, last: Step)
    requires Asked(log, [])
    ensures RanDry(log + [PollQueue(FollowUp, [], [])] + [last])
  {
  }

  /** Everything the loop keeps from turn to turn. */
  ghost predicate Sound(at: Point, l: Ledger, config: LoopConfig, turns: seq<TurnScript>, cancelled: bool) {
    && Agree(at, l)
    && Played(at.state, turns, cancelled)
    && (l.replaced ==> SomeReplacement(config, turns))
  }

  lemma SoundStart(a: Point, b: Point, l: Ledger, config: LoopConfig, turns: seq<TurnScript>, cancelled: bool)
    requires Agree(a, l) && a.state.restarts == 0 && a.state.responses == [] && !l.replaced
    requires b == Point(a.state.(phase := b.state.phase, opening := b.state.opening, steered := b.state.steered),
                        a.messages)
    ensures Sound(b, l, config, turns, cancelled) && WentOn(config, turns, [])
  {
    assert Restarts(turns[..0]) == 0;
  }

  lemma SoundTurn(a: Point, b: Point, l: Ledger, t: Turn, config: LoopConfig, turns: seq<TurnScript>,
                  before: bool, cancelled: bool)
    requires Sound(a, l, config, turns, before) && TurnDone(a, b, t) && (before ==> cancelled)
    requires var n := |a.state.responses|;
             && n < |turns| && Answered(turns[n], t.final, cancelled)
             && t.starts <= StartsIn(turns[n].stream) && (!cancelled ==> t.starts == StartsIn(turns[n].stream))
    ensures Sound(b, l.(newMessages := l.newMessages + t.made), config, turns, cancelled)
    ensures b.state == a.state.(phase := b.state.phase, ends := b.state.ends, faithful := b.state.faithful,
                                responses := a.state.responses + [t.final], restarts := b.state.restarts)
  {
    hide SomeReplacement, StartsIn, Answered, Played;
    TurnKeepsAgreement(a, b, l, t);
    PlayedOneMore(a, b, t, turns, before, cancelled);
  }

  lemma SoundFinish(a: Point, b: Point, l: Ledger, replaced: bool, config: LoopConfig, turns: seq<TurnScript>, k: nat,
                    cancelled: bool)
    requires Sound(a, l, config, turns, cancelled) && Agree(b, l.(replaced := replaced))
    requires b.state.restarts == a.state.restarts && b.state.responses == a.state.responses
    requires k < |turns| && (replaced ==> l.replaced || (config.hasPrepare && Replaces(turns[k])))
    ensures Sound(b, l.(replaced := replaced), config, turns, cancelled)
  {
  }

  lemma SoundPhase(a: Point, b: Point, l: Ledger, config: LoopConfig, turns: seq<TurnScript>, cancelled: bool)
    requires Sound(a, l, config, turns, cancelled) && b.messages == a.messages
    requires b.state == a.state.(phase := b.state.phase, followed := b.state.followed)
    ensures Sound(b, l, config, turns, cancelled) && b.state.ends == l.newMessages
  {
  }

  lemma SoundMeans(at: Point, l: Ledger, config: LoopConfig, turns: seq<TurnScript>, cancelled: bool)
    requires Sound(at, l, config, turns, cancelled)
    ensures Agree(at, l) && Played(at.state, turns, cancelled) && at.state.ends == l.newMessages
    ensures l.replaced ==> SomeReplacement(config, turns)
  {
  }

  lemma QueueBooks(before: seq<AgentMessage>, taken: seq<AgentMessage>, got: seq<AgentMessage>)
    ensures (before + taken) + got == before + (taken + got)
    ensures before + [] == before && [] + got == got
  {
  }

  /** The variables of the two loops: how many turns were played, and what drives the next one. */
  datatype Cursor = Cursor(
    played: nat,
    firstTurn: bool,
    hasMore: bool,
    pending: seq<AgentMessage>,
    reasoning: Option<ThinkingLevel>,
    newMessages: seq<AgentMessage>)

  /** The loop is at a guard, and every turn so far went on. */
  ghost predicate Going(at: Point, l: Ledger, c: Cursor, config: LoopConfig, turns: seq<TurnScript>, cancelled: bool) {
    && Sound(at, l, config, turns, cancelled)
    && WentOn(config, turns, at.state.responses) && |at.state.responses| == c.played <= |turns|
    && l.newMessages == c.newMessages && at.state.reasoning == c.reasoning
    && AtGuard(at.state.phase, c.firstTurn, c.hasMore, c.pending)
  }

  lemma GoingMeans(at: Point, l: Ledger, c: Cursor, config: LoopConfig, turns: seq<TurnScript>, cancelled: bool)
    requires Going(at, l, c, config, turns, cancelled)
    ensures Sound(at, l, config, turns, cancelled) && Played(at.state, turns, cancelled) && Agree(at, l)
    ensures l.replaced ==> SomeReplacement(config, turns)
    ensures WentOn(config, turns, at.state.responses) && |at.state.responses| == c.played <= |turns|
    ensures l.newMessages == c.newMessages && at.state.reasoning == c.reasoning
    ensures if c.firstTurn then at.state.phase == Injecting(Steering, c.pending)
            else if c.hasMore || c.pending != [] then at.state.phase.Ready? && at.state.phase.todo == c.pending
            else at.state.phase == Idle
  {
  }

  lemma GoingOn(at: Point, l: Ledger, c: Cursor, config: LoopConfig, turns: seq<TurnScript>, cancelled: bool)
    requires Sound(at, l, config, turns, cancelled)
    requires WentOn(config, turns, at.state.responses) && |at.state.responses| == c.played <= |turns|
    requires l.newMessages == c.newMessages && at.state.reasoning == c.reasoning
    requires AtGuard(at.state.phase, c.firstTurn, c.hasMore, c.pending)
    ensures Going(at, l, c, config, turns, cancelled)
  {
  }

  /** One turn and what follows it. */
  method TakeTurn(ctx: AgentContext, config: LoopConfig, turns: seq<TurnScript>, c: Cursor, token: Token, sink: Sink,
                  steering: QueueHook, ghost l: Ledger)
    returns (ended: bool, c': Cursor, ghost replaced: bool)
    requires sink.Valid() && steering.queue.Valid() && !steering.skip
    requires Going(Point(sink.Now(), ctx.messages), l, c, config, turns, token.cancelled)
    requires c.played < |turns| && (c.firstTurn || c.hasMore || c.pending != [])
    modifies ctx, token, sink`messages, sink`streamingMessage, sink`pendingToolCalls, sink`errorMessage, sink`log
    modifies steering, steering.queue`messages, steering.queue`given, steering.queue`drained
    ensures sink.Valid() && steering.queue.Valid() && !steering.skip
    ensures var at, l' := Point(sink.Now(), ctx.messages), Ledger(l.base, c'.newMessages, replaced);
            if ended
            then Sound(at, l', config, turns, token.cancelled) && at.state.phase.Done?
                 && Over(sink.log, config, turns, at.state.responses)
            else Going(at, l', c', config, turns, token.cancelled) && Asked(sink.log, c'.pending)
    ensures c'.played == c.played + 1 && !c'.firstTurn && c.newMessages <= c'.newMessages
    ensures var g, now := old(sink.Now()), sink.Now();
            && now.prompted == g.prompted && now.opening == g.opening
            && now.followed == g.followed && now.steered == g.steered + c'.pending
    ensures steering.queue.drained == old(steering.queue.drained) + c'.pending
  {
    hide Run, Fold, Next, Agree, TurnDone, Sound, Played, Going, StartsIn, StopsRun, Sink.Valid, WentOn, Answered;
    hide Replaces;
    hide RanDry, AtGuard, Asked, SomeReplacement;
    ghost var at, cancelled := Point(sink.Now(), ctx.messages), token.cancelled;
    GoingMeans(at, l, c, config, turns, cancelled);
    var final, more, made, starts := RunTurn(ctx, config, turns[c.played], c.reasoning, c.firstTurn, c.pending, token,
                                             sink);
    var newMessages := c.newMessages + made;
    ghost var at1, l1 := Point(sink.Now(), ctx.messages), l.(newMessages := newMessages);
    SoundTurn(at, at1, l, Turn(made, final, starts), config, turns, cancelled, token.cancelled);
    SoundMeans(at1, l1, config, turns, token.cancelled);
    WentOnOneMore(config, turns, at.state.responses, final);
    var reasoning, pending;
    ended, reasoning, pending, replaced :=
      FinishTurn(ctx, config, turns[c.played], final, c.reasoning, newMessages, sink, steering, l1);
    ghost var at2, l2 := Point(sink.Now(), ctx.messages), l1.(replaced := replaced);
    SoundFinish(at1, at2, l1, replaced, config, turns, c.played, token.cancelled);
    c' := Cursor(c.played + 1, false, more, pending, reasoning, newMessages);
    if !ended {
      GoingOn(at2, l2, c', config, turns, token.cancelled);
    }
  }

  /** Why a loop stops: its run is over, the script is out of turns, or there is nothing to go on with. */
  datatype Halt = NothingPending | RunEnded | OutOfTurns

  ghost predicate Halted(at: Point, l: Ledger, halt: Halt, log: seq<Step>, config: LoopConfig, turns: seq<TurnScript>,
                         cancelled: bool) {
    var now := at.state;
    && Sound(at, l, config, turns, cancelled)
    && match halt
       case RunEnded => now.phase == Done && Over(log, config, turns, now.responses)
       case OutOfTurns => (now.phase.Injecting? || now.phase.Ready?) && |now.responses| == |turns|
                          && WentOn(config, turns, now.responses)
       case NothingPending => now.phase == Closing
                              && Over(log + [Emit(Loop, AgentEnd(l.newMessages))], config, turns, now.responses)
  }

  /** The inner loop: turns as long as tool calls or pending messages ask for another. */
  method RunTurns(ctx: AgentContext, config: LoopConfig, turns: seq<TurnScript>, start: Cursor, token: Token,
                  sink: Sink, steering: QueueHook, ghost l: Ledger)
    returns (halt: Option<Halt>, c: Cursor, ghost replaced: bool)
    requires sink.Valid() && steering.queue.Valid() && !steering.skip && start.hasMore
    requires Going(Point(sink.Now(), ctx.messages), l, start, config, turns, token.cancelled)
    modifies ctx, token, sink`messages, sink`streamingMessage, sink`pendingToolCalls, sink`errorMessage, sink`log
    modifies steering, steering.queue`messages, steering.queue`given, steering.queue`drained
    ensures sink.Valid() && steering.queue.Valid() && !steering.skip
    ensures var at, l' := Point(sink.Now(), ctx.messages), Ledger(l.base, c.newMessages, replaced);
            if halt.Some? then Halted(at, l', halt.value, sink.log, config, turns, token.cancelled)
            else Going(at, l', c, config, turns, token.cancelled) && Asked(sink.log, []) && c.played > start.played
                 && !c.firstTurn && !c.hasMore && c.pending == []
    ensures halt != Some(NothingPending)
    ensures start.newMessages <= c.newMessages
    ensures var g, now := old(sink.Now()), sink.Now();
            && now.prompted == g.prompted && now.opening == g.opening
            && now.followed == g.followed && g.steered <= now.steered
            && steering.queue.drained == old(steering.queue.drained) + now.steered[|g.steered|..]
  {
    hide Run, Fold, Next, Agree, Sound, Played, Going, StopsRun, Sink.Valid, WentOn, RanDry, AtGuard, Asked;
    ghost var g := sink.Now();
    c, halt, replaced := start, None, l.replaced;
    GoingMeans(Point(g, ctx.messages), l, c, config, turns, token.cancelled);
    QueueBooks(steering.queue.drained, g.steered, []);
    while c.hasMore || c.pending != []
      invariant sink.Valid() && steering.queue.Valid() && !steering.skip && halt == None
      invariant Going(Point(sink.Now(), ctx.messages), Ledger(l.base, c.newMessages, replaced), c, config, turns,
                      token.cancelled)
      invariant if c == start then c.hasMore else c.played > start.played && !c.firstTurn && Asked(sink.log, c.pending)
      invariant start.newMessages <= c.newMessages
      invariant sink.Now().prompted == g.prompted && sink.Now().followed == g.followed
      invariant sink.Now().opening == g.opening
      invariant g.steered <= sink.Now().steered
      invariant steering.queue.drained == old(steering.queue.drained) + sink.Now().steered[|g.steered|..]
      decreases |turns| - c.played
    {
      ghost var at := Point(sink.Now(), ctx.messages);
      GoingMeans(at, Ledger(l.base, c.newMessages, replaced), c, config, turns, token.cancelled);
      if c.played == |turns| {
        halt := Some(OutOfTurns);
        return;
      }
      var ended, next, replaced' := TakeTurn(ctx, config, turns, c, token, sink, steering,
                                             Ledger(l.base, c.newMessages, replaced));
      SteeredMore(old(steering.queue.drained), g.steered, at.state.steered, next.pending);
      c, replaced := next, replaced';
      if ended {
        halt := Some(RunEnded);
        return;
      }
    }
  }

  lemma SteeredMore(before: seq<AgentMessage>, s0: seq<AgentMessage>, s: seq<AgentMessage>, got: seq<AgentMessage>)
    requires s0 <= s
    ensures s0 <= s + got && before + s[|s0|..] + got == before + (s + got)[|s0|..]
  {
  }

  /** One pass of the outer loop: turns, and then whatever is waiting as a follow-up. */
  method RunRound(ctx: AgentContext, config: LoopConfig, turns: seq<TurnScript>, start: Cursor, token: Token,
                  sink: Sink, steering: QueueHook, followUp: PendingMessageQueue, ghost l: Ledger)
    returns (halt: Option<Halt>, c: Cursor, ghost replaced: bool)
    requires sink.Valid() && steering.queue.Valid() && !steering.skip && followUp.Valid() && steering.queue != followUp
    requires Going(Point(sink.Now(), ctx.messages), l, start, config, turns, token.cancelled) && start.hasMore
    modifies ctx, token, sink`messages, sink`streamingMessage, sink`pendingToolCalls, sink`errorMessage, sink`log
    modifies steering, steering.queue`messages, steering.queue`given, steering.queue`drained
    modifies followUp`messages, followUp`given, followUp`drained
    ensures sink.Valid() && steering.queue.Valid() && !steering.skip && followUp.Valid()
    ensures var at, l' := Point(sink.Now(), ctx.messages), Ledger(l.base, c.newMessages, replaced);
            if halt.Some? then Halted(at, l', halt.value, sink.log, config, turns, token.cancelled)
            else Going(at, l', c, config, turns, token.cancelled) && c.hasMore && c.played > start.played
    ensures start.newMessages <= c.newMessages
    ensures var g, now := old(sink.Now()), sink.Now();
            && now.prompted == g.prompted && now.opening == g.opening
            && g.steered <= now.steered && g.followed <= now.followed
            && steering.queue.drained == old(steering.queue.drained) + now.steered[|g.steered|..]
            && followUp.drained == old(followUp.drained) + now.followed[|g.followed|..]
  {
    hide Run, Fold, Next, Agree, Sound, Played, Going, StopsRun, SomeReplacement, Sink.Valid, WentOn, RanDry, Asked;
    hide Over;
    hide AtGuard;
    ghost var f0 := sink.Now().followed;
    halt, c, replaced := RunTurns(ctx, config, turns, start, token, sink, steering, l);
    ghost var at, l' := Point(sink.Now(), ctx.messages), Ledger(l.base, c.newMessages, replaced);
    assert at.state.followed[|f0|..] == [];
    QueueBooks(followUp.drained, [], []);
    if halt.None? {
      GoingMeans(at, l', c, config, turns, token.cancelled);
      DryRun(sink.log, Emit(Loop, AgentEnd(c.newMessages)));
      var queued := PollFollowUp(followUp, sink);
      assert (f0 + queued)[|f0|..] == queued;
      SoundPhase(at, Point(sink.Now(), ctx.messages), l', config, turns, token.cancelled);
      if queued == [] {
        OverDry(sink.log + [Emit(Loop, AgentEnd(c.newMessages))], config, turns, sink.Now().responses);
        halt := Some(NothingPending);
      } else {
        c := c.(hasMore := true, pending := queued);
        NextRound(Point(sink.Now(), ctx.messages), l', c, config, turns, token.cancelled);
      }
    }
  }

  lemma NextRound(at: Point, l: Ledger, c: Cursor, config: LoopConfig, turns: seq<TurnScript>, cancelled: bool)
    requires Sound(at, l, config, turns, cancelled)
    requires WentOn(config, turns, at.state.responses) && |at.state.responses| == c.played <= |turns|
    requires l.newMessages == c.newMessages && at.state.reasoning == c.reasoning
    requires at.state.phase == Ready(FollowUp, c.pending) && !c.firstTurn && c.hasMore
    ensures Going(at, l, c, config, turns, cancelled)
  {
  }

  /**
   The two-level loop. Besides the agreement of the three copies it says which turns were
   played, how the queues were used, and exactly when the run is over.
   */
  method RunLoop(ctx: AgentContext, newMessages0: seq<AgentMessage>, config: LoopConfig, token: Token, sink: Sink,
                 steering: QueueHook, followUp: PendingMessageQueue, turns: seq<TurnScript>)
    returns (newMessages: seq<AgentMessage>, finished: bool, ghost replaced: bool)
    requires sink.Valid() && steering.queue.Valid() && followUp.Valid() && steering.queue != followUp
    requires var g := sink.Now(); g.phase == Prompting && g.reasoning == config.reasoning && g.restarts == 0
                                  && g.steered == g.followed == [] && g.responses == []
    requires Agree(Point(sink.Now(), ctx.messages), Ledger(sink.Now().base, newMessages0, false))
    modifies ctx, token, sink`messages, sink`streamingMessage, sink`pendingToolCalls, sink`errorMessage, sink`log
    modifies steering, steering.queue`messages, steering.queue`given, steering.queue`drained
    modifies followUp`messages, followUp`given, followUp`drained
    ensures sink.Valid() && steering.queue.Valid() && followUp.Valid()
    ensures Agree(Point(sink.Now(), ctx.messages), Ledger(old(sink.Now().base), newMessages, replaced))
    ensures Played(sink.Now(), turns, token.cancelled)
    ensures if finished then sink.Now().phase.Done? && Over(sink.log, config, turns, sink.Now().responses)
            else
              && !sink.Now().phase.Done?
              && |sink.Now().responses| == |turns| && WentOn(config, turns, sink.Now().responses)
    ensures !sink.Now().phase.Violation? && sink.Now().prompted == old(sink.Now().prompted)
    ensures old(steering.skip) ==> sink.Now().opening == Some([])
    ensures steering.queue.drained == old(steering.queue.drained) + sink.Now().steered
    ensures followUp.drained == old(followUp.drained) + sink.Now().followed
    ensures replaced ==> SomeReplacement(config, turns)
    ensures newMessages0 <= newMessages
  {
    hide Run, Fold, Next, Agree, Sound, Played, Going, StopsRun, SomeReplacement, Sink.Valid, WentOn, RanDry, Over;
    ghost var base, s0, f0 := sink.Now().base, steering.queue.drained, followUp.drained;
    ghost var at := Point(sink.Now(), ctx.messages);
    var pending := PollSteering(steering, sink);
    var c := Cursor(0, true, true, pending, config.reasoning, newMessages0);
    var halt: Option<Halt> := None;
    replaced := false;
    LoopStarts(at, Point(sink.Now(), ctx.messages), Ledger(base, newMessages0, false), c, config, turns,
               token.cancelled);
    QueueBooks(f0, [], []);
    QueueBooks(s0, [], pending);
    while halt.None?
      invariant sink.Valid() && steering.queue.Valid() && followUp.Valid() && !steering.skip
      invariant var now, l := Point(sink.Now(), ctx.messages), Ledger(base, c.newMessages, replaced);
        if halt.Some? then Halted(now, l, halt.value, sink.log, config, turns, token.cancelled)
        else Going(now, l, c, config, turns, token.cancelled) && c.hasMore
      invariant newMessages0 <= c.newMessages && sink.Now().prompted == old(sink.Now().prompted)
      invariant sink.Now().opening == Some(pending)
      invariant steering.queue.drained == s0 + sink.Now().steered && followUp.drained == f0 + sink.Now().followed
      decreases halt.None?, |turns| - c.played
    {
      at := Point(sink.Now(), ctx.messages);
      GoingMeans(at, Ledger(base, c.newMessages, replaced), c, config, turns, token.cancelled);
      halt, c, replaced :=
        RunRound(ctx, config, turns, c, token, sink, steering, followUp, Ledger(base, c.newMessages, replaced));
      DrainedSoFar(s0, at.state.steered, sink.Now().steered);
      DrainedSoFar(f0, at.state.followed, sink.Now().followed);
    }
    newMessages, finished := c.newMessages, !halt.value.OutOfTurns?;
    at := Point(sink.Now(), ctx.messages);
    SoundMeans(at, Ledger(base, newMessages, replaced), config, turns, token.cancelled);
    if halt.value.NothingPending? {
      EmitAgentEnd(sink, newMessages);
      SoundPhase(at, Point(sink.Now(), ctx.messages), Ledger(base, newMessages, replaced), config, turns,
                 token.cancelled);
    }
    SoundMeans(Point(sink.Now(), ctx.messages), Ledger(base, newMessages, replaced), config, turns, token.cancelled);
  }

  lemma LoopStarts(a: Point, b: Point, l: Ledger, c: Cursor, config: LoopConfig, turns: seq<TurnScript>,
                   cancelled: bool)
    requires Agree(a, l) && a.state.restarts == 0 && a.state.responses == [] && !l.replaced
    requires b == Point(a.state.(phase := Injecting(Steering, c.pending), opening := b.state.opening,
                                 steered := b.state.steered), a.messages)
    requires c == Cursor(0, true, true, c.pending, a.state.reasoning, l.newMessages)
    ensures Going(b, l, c, config, turns, cancelled)
  {
    hide Agree;
    SoundStart(a, b, l, config, turns, cancelled);
  }

  lemma DrainedSoFar(before: seq<AgentMessage>, s: seq<AgentMessage>, s': seq<AgentMessage>)
    requires s <= s'
    ensures before + s + s'[|s|..] == before + s'
  {
  }

  // ---------------------------------------------------------------- starting a run

  ghost predicate FreshRun(now: State, base: seq<AgentMessage>, config: LoopConfig) {
    now == Initial(base, config.reasoning)
  }

  /** The opening of a run: start events, then the prompts as completed messages. */
  method OpenRun(prompts: seq<AgentMessage>, sink: Sink)
    requires sink.Valid() && sink.Now().phase == Fresh && sink.Now().ends == sink.Now().prompted == []
    modifies sink`messages, sink`streamingMessage, sink`pendingToolCalls, sink`errorMessage, sink`log
    ensures sink.Valid() && sink.Now() == old(sink.Now()).(phase := Prompting, ends := prompts, prompted := prompts)
  {
    hide Run, Fold;
    sink.Process(Loop, AgentStart);
    sink.Process(Loop, TurnStart);
    ghost var g := sink.Now();
    var i := 0;
    while i < |prompts|
      invariant 0 <= i <= |prompts| && sink.Valid()
      invariant sink.Now() == g.(ends := prompts[..i], prompted := prompts[..i])
    {
      sink.Process(Prompt, MessageStart(prompts[i]));
      sink.Process(Prompt, MessageEnd(prompts[i]));
      assert prompts[..i + 1] == prompts[..i] + [prompts[i]];
      i := i + 1;
    }
    assert prompts[..|prompts|] == prompts;
  }

  /** `run_agent_loop`: the prompts open the first turn. */
  method RunAgentLoop(prompts: seq<AgentMessage>, ctx: AgentContext, config: LoopConfig, token: Token, sink: Sink,
                      steering: QueueHook, followUp: PendingMessageQueue, turns: seq<TurnScript>)
    returns (newMessages: seq<AgentMessage>, finished: bool, ghost replaced: bool)
    requires sink.Valid() && steering.queue.Valid() && followUp.Valid() && steering.queue != followUp
    requires FreshRun(sink.Now(), ctx.messages, config)
    modifies ctx, token, sink`messages, sink`streamingMessage, sink`pendingToolCalls, sink`errorMessage, sink`log
    modifies steering, steering.queue`messages, steering.queue`given, steering.queue`drained
    modifies followUp`messages, followUp`given, followUp`drained
    ensures sink.Valid() && steering.queue.Valid() && followUp.Valid()
    ensures Agree(Point(sink.Now(), ctx.messages), Ledger(old(ctx.messages), newMessages, replaced))
    ensures Played(sink.Now(), turns, token.cancelled)
    ensures if finished then sink.Now().phase.Done? && Over(sink.log, config, turns, sink.Now().responses)
            else
              && !sink.Now().phase.Done?
              && |sink.Now().responses| == |turns| && WentOn(config, turns, sink.Now().responses)
    ensures !sink.Now().phase.Violation? && sink.Now().prompted == prompts
    ensures old(steering.skip) ==> sink.Now().opening == Some([])
    ensures steering.queue.drained == old(steering.queue.drained) + sink.Now().steered
    ensures followUp.drained == old(followUp.drained) + sink.Now().followed
    ensures replaced ==> SomeReplacement(config, turns)
    ensures prompts <= newMessages
  {
    hide Run, Fold, Next, Played, SomeReplacement, Over, WentOn;
    ctx.messages := ctx.messages + prompts;
    OpenRun(prompts, sink);
    newMessages, finished, replaced := RunLoop(ctx, prompts, config, token, sink, steering, followUp, turns);
  }

  datatype ContinueError = NoMessages | LastIsAssistant

  function ContinueGuard(messages: seq<AgentMessage>): Option<ContinueError> {
    if messages == [] then Some(NoMessages)
    else if messages[|messages| - 1].Assistant? then Some(LastIsAssistant)
    else None
  }

  /** `run_agent_loop_continue`: no prompts, and only from a transcript a provider would accept. */
  method RunAgentLoopContinue(ctx: AgentContext, config: LoopConfig, token: Token, sink: Sink,
                              steering: QueueHook, followUp: PendingMessageQueue, turns: seq<TurnScript>)
    returns (error: Option<ContinueError>, newMessages: seq<AgentMessage>, finished: bool, ghost replaced: bool)
    requires sink.Valid() && steering.queue.Valid() && followUp.Valid() && steering.queue != followUp
    requires FreshRun(sink.Now(), ctx.messages, config)
    modifies ctx, token, sink`messages, sink`streamingMessage, sink`pendingToolCalls, sink`errorMessage, sink`log
    modifies steering, steering.queue`messages, steering.queue`given, steering.queue`drained
    modifies followUp`messages, followUp`given, followUp`drained
    ensures error == ContinueGuard(old(ctx.messages))
    ensures sink.Valid() && steering.queue.Valid() && followUp.Valid()
    ensures Agree(Point(sink.Now(), ctx.messages), Ledger(old(ctx.messages), newMessages, replaced))
    ensures error.Some? ==> sink.Now() == old(sink.Now()) && sink.Seen() == old(sink.Seen()) && !finished
    ensures Played(sink.Now(), turns, token.cancelled)
    ensures sink.Now().phase.Done? <==> finished
    ensures finished ==> Over(sink.log, config, turns, sink.Now().responses)
    ensures error.None? && !finished ==>
              |sink.Now().responses| == |turns| && WentOn(config, turns, sink.Now().responses)
    ensures !sink.Now().phase.Violation? && sink.Now().prompted == []
    ensures error.None? && old(steering.skip) ==> sink.Now().opening == Some([])
    ensures steering.queue.drained == old(steering.queue.drained) + sink.Now().steered
    ensures followUp.drained == old(followUp.drained) + sink.Now().followed
    ensures replaced ==> SomeReplacement(config, turns)
  {
    hide Run, Fold, Next, SomeReplacement, Over, WentOn;
    error := ContinueGuard(ctx.messages);
    assert ctx.messages + [] == ctx.messages;
    if error.Some? {
      assert Restarts(turns[..0]) == 0;
      return error, [], false, false;
    }
    hide Played;
    OpenRun([], sink);
    newMessages, finished, replaced := RunLoop(ctx, [], config, token, sink, steering, followUp, turns);
  }
}
