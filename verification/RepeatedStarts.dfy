/**
 Streams that start more than once. The provider is not held to a single start, and a repeated one
 is the only thing that breaks the message brackets and the agreement of the copies.
 */
module RepeatedStarts {
  import opened Options
  import opened AgentTypes
  import opened AgentProtocol
  import opened AgentLoop
  import opened RunTheorems
  import opened RunGrammar

  /** Every stream the run has used up starts at most once. */
  ghost predicate StartsOnce(turns: seq<TurnScript>, n: nat) {
    forall j :: 0 <= j < n && j < |turns| ==> StartsIn(turns[j].stream) <= 1
  }

  /**
   From the streams alone: if each starts at most once, then messages are bracketed, the loop's
   context is the transcript, and every provider call was shown it; and when nobody cancels
   the run, the first two fail whenever some stream starts twice.
   */
  lemma BracketsAndAgreement(at: Point, l: Ledger, r: Option<ThinkingLevel>, log: seq<Step>, turns: seq<TurnScript>,
                             cancelled: bool)
    requires Accepted(l.base, r, log) && at.state == After(l.base, r, log)
    requires Agree(at, l) && !l.replaced && Played(at.state, turns, cancelled)
    ensures var once := StartsOnce(turns, |at.state.responses|);
            && (once ==> Brackets(log) != Broken && at.messages == l.base + l.newMessages && at.state.faithful)
            && (!cancelled ==> (once <==> Brackets(log) != Broken) && (once <==> at.messages == l.base + l.newMessages))
  {
    hide Run, Brackets, StartsIn, Restarts, Answered;
    BracketedUnlessRestarted(l.base, r, log);
    PlayedRestarts(at.state, turns, cancelled);
  }

  const HELLO := AssistantMessage([], Stop, None)
  const NUDGE := Other("go on")
  const TWO_STARTS := [StreamStart(HELLO), StreamStart(HELLO), StreamDone(HELLO)]

  /** The run whose first stream is TWO_STARTS, up to its second provider call. */
  function RestartedRun(): seq<Step> {
    [Emit(Loop, AgentStart), Emit(Loop, TurnStart), PollQueue(Steering, [], []), CallProvider([], None)]
    + StreamSteps(TWO_STARTS[..2]) + LastSteps(HELLO, true)
    + [Emit(Loop, TurnEnd(Assistant(HELLO), [])), PollQueue(Steering, [NUDGE], []), Emit(Loop, TurnStart),
       Emit(Steering, MessageStart(NUDGE)), Emit(Steering, MessageEnd(NUDGE)),
       CallProvider([Assistant(HELLO), Assistant(HELLO), NUDGE], None)]
  }

  /** A run a provider can cause: its second call is shown the first answer twice. */
  lemma TwoStarts()
    ensures StartsIn(TWO_STARTS) == 2 && FinalOf(TWO_STARTS, HELLO) == HELLO
    ensures Accepted([], None, RestartedRun()) && After([], None, RestartedRun()).restarts == 1
    ensures Brackets(RestartedRun()) == Broken && !After([], None, RestartedRun()).faithful
    ensures Completed(RestartedRun()) == [Assistant(HELLO), NUDGE]
  {
    hide Run, Brackets, Completed, Next, StreamSteps, LastSteps, Reached;
    StreamShown();
    var m := Assistant(HELLO);
    var log, g := Opening();
    log, g := StartTwice(log, g);
    log, g := EndTurn(log, g);
    log := Steered(log, g);
    assert log == RestartedRun();
    ReachedMeans(log);
  }

  lemma StreamShown()
    ensures StartsIn(TWO_STARTS) == 2 && FinalOf(TWO_STARTS, HELLO) == HELLO
    ensures StreamSteps(TWO_STARTS[..2]) ==
            [Emit(Model, MessageStart(Assistant(HELLO))), Emit(Model, MessageStart(Assistant(HELLO)))]
    ensures LastSteps(HELLO, true) == [Emit(Model, MessageEnd(Assistant(HELLO)))]
  {
    var done := [StreamDone(HELLO)];
    var late := [StreamStart(HELLO), StreamDone(HELLO)];
    assert TWO_STARTS[1..] == late && late[1..] == done;
    assert StartsIn(done) == 0 && StartsIn(late) == 1;
    assert FinalOf(done, HELLO) == HELLO && FinalOf(late, HELLO) == HELLO;
    var first := [StreamStart(HELLO)];
    assert TWO_STARTS[..2][..1] == first && first[..0] == [];
    assert StreamSteps(first) == [Emit(Model, MessageStart(Assistant(HELLO)))];
  }

  const BEGUN := Initial([], None).(opening := Some([]))

  /** The state, the brackets and the completed messages after a log. */
  ghost predicate Reached(log: seq<Step>, g: State, b: Bracket) {
    Run(Initial([], None), log) == g && Brackets(log) == b && Completed(log) == g.ends
  }

  /** One step further along a log. */
  lemma Walk(log: seq<Step>, g: State, b: Bracket, step: Step, h: State)
    requires Reached(log, g, b) && Next(g, step) == h && h.ends == g.ends + EndedIn(step)
    ensures Reached(log + [step], h, BracketStep(b, step))
  {
    hide Next, BracketStep;
    assert (log + [step])[..|log|] == log;
  }

  function EndedIn(step: Step): seq<AgentMessage> {
    if step.Emit? && step.event.MessageEnd? then [step.event.message] else []
  }

  lemma RunOpens() returns (log: seq<Step>)
    ensures log == [Emit(Loop, AgentStart), Emit(Loop, TurnStart)]
    ensures Reached(log, Initial([], None).(phase := Prompting), Closed)
  {
    var g0 := Initial([], None);
    assert Reached([], g0, Closed);
    hide Reached, NextPoll, NextTool, NextTurnEnd, NextAgentEnd;
    var s1 := [Emit(Loop, AgentStart)];
    assert [] + s1 == s1;
    Walk([], g0, Closed, s1[0], g0.(phase := Started));
    Walk(s1, g0.(phase := Started), Closed, Emit(Loop, TurnStart), g0.(phase := Prompting));
    log := s1 + [Emit(Loop, TurnStart)];
  }

  lemma Opening() returns (log: seq<Step>, g: State)
    ensures log == [Emit(Loop, AgentStart), Emit(Loop, TurnStart), PollQueue(Steering, [], []), CallProvider([], None)]
    ensures g == BEGUN.(phase := Awaiting) && Reached(log, g, Closed)
  {
    hide Reached, NextEvent;
    var s2 := RunOpens();
    var s3 := s2 + [PollQueue(Steering, [], [])];
    var g2, g3 := Initial([], None).(phase := Prompting), BEGUN.(phase := Injecting(Steering, []));
    Walk(s2, g2, Closed, PollQueue(Steering, [], []), g3);
    Walk(s3, g3, Closed, CallProvider([], None), BEGUN.(phase := Awaiting));
    log, g := s3 + [CallProvider([], None)], BEGUN.(phase := Awaiting);
  }

  lemma QuietTurnEnds(g: State)
    requires g.phase == Settling(HELLO, 0, map[], [])
    ensures Next(g, Emit(Loop, TurnEnd(Assistant(HELLO), []))) == g.(phase := Between(false))
  {
    assert Calls(HELLO) == [];
  }

  lemma StartTwice(log: seq<Step>, g: State) returns (log': seq<Step>, g': State)
    requires g == BEGUN.(phase := Awaiting) && Reached(log, g, Closed)
    ensures var m := Assistant(HELLO);
            && log' == log + [Emit(Model, MessageStart(m)), Emit(Model, MessageStart(m))]
            && g' == g.(phase := Streaming(m), restarts := 1) && Reached(log', g', Broken)
  {
    hide Reached, NextTool, NextPoll, NextAgentEnd, NextTurnEnd;
    var m := Assistant(HELLO);
    var s1 := log + [Emit(Model, MessageStart(m))];
    g' := g.(phase := Streaming(m), restarts := 1);
    Walk(log, g, Closed, Emit(Model, MessageStart(m)), g.(phase := Streaming(m)));
    Walk(s1, g.(phase := Streaming(m)), Open(m, 0), Emit(Model, MessageStart(m)), g');
    log' := s1 + [Emit(Model, MessageStart(m))];
  }

  lemma EndTurn(log: seq<Step>, g: State) returns (log': seq<Step>, g': State)
    requires g == BEGUN.(phase := Streaming(Assistant(HELLO)), restarts := 1) && Reached(log, g, Broken)
    ensures var m := Assistant(HELLO);
            && log' == log + [Emit(Model, MessageEnd(m)), Emit(Loop, TurnEnd(m, []))]
            && g' == g.(phase := Between(false), ends := [m], responses := [HELLO]) && Reached(log', g', Broken)
  {
    hide Reached, NextTool, NextPoll, NextAgentEnd, NextTurnEnd;
    var m := Assistant(HELLO);
    var s1 := log + [Emit(Model, MessageEnd(m))];
    var g1 := g.(phase := Settling(HELLO, 0, map[], []), ends := [m], responses := [HELLO]);
    g' := g1.(phase := Between(false));
    Walk(log, g, Broken, Emit(Model, MessageEnd(m)), g1);
    QuietTurnEnds(g1);
    Walk(s1, g1, Broken, Emit(Loop, TurnEnd(m, [])), g');
    log' := s1 + [Emit(Loop, TurnEnd(m, []))];
  }

  lemma Steered(log: seq<Step>, g: State) returns (log': seq<Step>)
    requires var m := Assistant(HELLO);
      g == BEGUN.(phase := Between(false), ends := [m], responses := [HELLO], restarts := 1)
    requires Reached(log, g, Broken)
    ensures var m := Assistant(HELLO);
            && log' == log + [PollQueue(Steering, [NUDGE], []), Emit(Loop, TurnStart),
                              Emit(Steering, MessageStart(NUDGE)),
                              Emit(Steering, MessageEnd(NUDGE)), CallProvider([m, m, NUDGE], None)]
            && Reached(log', g.(phase := Awaiting, ends := [m, NUDGE], steered := [NUDGE], faithful := false), Broken)
  {
    hide Reached, NextTool, NextTurnEnd, NextAgentEnd;
    assert [NUDGE][1..] == [];
    var m := Assistant(HELLO);
    var s1 := log + [PollQueue(Steering, [NUDGE], [])];
    var s2 := s1 + [Emit(Loop, TurnStart)];
    var s3 := s2 + [Emit(Steering, MessageStart(NUDGE))];
    var s4 := s3 + [Emit(Steering, MessageEnd(NUDGE))];
    var g1 := g.(phase := Ready(Steering, [NUDGE]), steered := [NUDGE]);
    var g2 := g1.(phase := Injecting(Steering, [NUDGE]));
    var g3 := g1.(phase := InjectOpen(Steering, NUDGE, []));
    var g4 := g1.(phase := Injecting(Steering, []), ends := [m, NUDGE]);
    Walk(log, g, Broken, PollQueue(Steering, [NUDGE], []), g1);
    Walk(s1, g1, Broken, Emit(Loop, TurnStart), g2);
    Walk(s2, g2, Broken, Emit(Steering, MessageStart(NUDGE)), g3);
    Walk(s3, g3, Broken, Emit(Steering, MessageEnd(NUDGE)), g4);
    Walk(s4, g4, Broken, CallProvider([m, m, NUDGE], None), g4.(phase := Awaiting, faithful := false));
    log' := s4 + [CallProvider([m, m, NUDGE], None)];
  }

  lemma ReachedMeans(log: seq<Step>)
    requires Reached(log, BEGUN.(phase := Awaiting, ends := [Assistant(HELLO), NUDGE], responses := [HELLO],
                                             restarts := 1, steered := [NUDGE], faithful := false), Broken)
    ensures Accepted([], None, log) && After([], None, log).restarts == 1 && !After([], None, log).faithful
    ensures Brackets(log) == Broken && Completed(log) == [Assistant(HELLO), NUDGE]
  {
    hide Run, Brackets, Completed;
  }
}
