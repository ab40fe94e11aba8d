/**
 The shape of a run's trace: how turns, provider calls, messages and queue deliveries are
 ordered in every accepted log.
 */
module RunGrammar {
  import opened Options
  import opened AgentTypes
  import opened AgentProtocol
  import opened RunTheorems

  // ---------------------------------------------------------------- turns

  datatype Tally = Tally(starts: nat, calls: nat, responses: nat, ends: nat)

  function Count(t: Tally, step: Step): Tally {
    match step
    case CallProvider(_, _) => t.(calls := t.calls + 1)
    case Emit(_, TurnStart) => t.(starts := t.starts + 1)
    case Emit(_, TurnEnd(_, _)) => t.(ends := t.ends + 1)
    case Emit(Model, MessageEnd(_)) => t.(responses := t.responses + 1)
    case _ => t
  }

  function TallyOf(log: seq<Step>): Tally {
    if log == [] then Tally(0, 0, 0, 0) else Count(TallyOf(log[..|log| - 1]), log[|log| - 1])
  }

  ghost predicate TurnShape(p: Phase, t: Tally) {
    match p
    case Fresh => t == Tally(0, 0, 0, 0)
    case Started => t == Tally(0, 0, 0, 0)
    case Prompting => t == Tally(t.ends + 1, t.ends, t.ends, t.ends)
    case PromptOpen(_) => t == Tally(t.ends + 1, t.ends, t.ends, t.ends)
    case Injecting(_, _) => t == Tally(t.ends + 1, t.ends, t.ends, t.ends)
    case InjectOpen(_, _, _) => t == Tally(t.ends + 1, t.ends, t.ends, t.ends)
    case Awaiting => t == Tally(t.ends + 1, t.ends + 1, t.ends, t.ends)
    case Streaming(_) => t == Tally(t.ends + 1, t.ends + 1, t.ends, t.ends)
    case Settling(_, _, _, _) => t == Tally(t.ends + 1, t.ends + 1, t.ends + 1, t.ends)
    case ReplyOpen(_, _, _, _, _) => t == Tally(t.ends + 1, t.ends + 1, t.ends + 1, t.ends)
    case _ => t == Tally(t.ends, t.ends, t.ends, t.ends) && t.ends > 0
  }

  /** Queue deliveries are never attributed to another part of the engine. */
  ghost predicate QueueSource(p: Phase) {
    match p
    case Injecting(q, _) => q == Steering || q == FollowUp
    case InjectOpen(q, _, _) => q == Steering || q == FollowUp
    case Ready(q, _) => q == Steering || q == FollowUp
    case _ => true
  }

  lemma TurnStepSilent(g: State, step: Step, t: Tally)
    requires !step.Emit? && !Next(g, step).phase.Violation? && TurnShape(g.phase, t) && QueueSource(g.phase)
    ensures TurnShape(Next(g, step).phase, Count(t, step)) && QueueSource(Next(g, step).phase)
  {
    hide NextEvent;
  }

  lemma TurnStepSettling(g: State, step: Step, t: Tally)
    requires step.Emit? && g.phase.Settling?
    requires !Next(g, step).phase.Violation? && TurnShape(g.phase, t) && QueueSource(g.phase)
    ensures TurnShape(Next(g, step).phase, Count(t, step)) && QueueSource(Next(g, step).phase)
  {
    hide NextPoll, NextAgentEnd, BatchComplete, BatchTerminates, ReplyFor, Calls;
  }

  lemma TurnStepElsewhere(g: State, step: Step, t: Tally)
    requires step.Emit? && !g.phase.Settling?
    requires !Next(g, step).phase.Violation? && TurnShape(g.phase, t) && QueueSource(g.phase)
    ensures TurnShape(Next(g, step).phase, Count(t, step)) && QueueSource(Next(g, step).phase)
  {
    hide NextPoll, NextTool, NextTurnEnd;
  }

  lemma TurnStep(g: State, step: Step, t: Tally)
    requires !Next(g, step).phase.Violation? && TurnShape(g.phase, t) && QueueSource(g.phase)
    ensures TurnShape(Next(g, step).phase, Count(t, step)) && QueueSource(Next(g, step).phase)
  {
    hide Next, TurnShape, QueueSource, Count;
    if !step.Emit? {
      TurnStepSilent(g, step, t);
    } else if g.phase.Settling? {
      TurnStepSettling(g, step, t);
    } else {
      TurnStepElsewhere(g, step, t);
    }
  }

  /** At every moment: turn start, provider call, assistant message, turn end, in this order, once per turn. */
  lemma {:induction false} TurnsAlternate(base: seq<AgentMessage>, r: Option<ThinkingLevel>, log: seq<Step>)
    requires Accepted(base, r, log)
    ensures TurnShape(After(base, r, log).phase, TallyOf(log)) && QueueSource(After(base, r, log).phase)
    ensures var t := TallyOf(log); t.ends <= t.responses <= t.calls <= t.starts <= t.ends + 1
  {
    hide Next, TurnShape, QueueSource, Count;
    if log == [] {
      assert TurnShape(Fresh, TallyOf(log)) && QueueSource(Fresh) by { NoTurnsYet(); }
    } else {
      var front := log[..|log| - 1];
      AcceptedPrefix(base, r, log, |log| - 1);
      TurnsAlternate(base, r, front);
      Unfold(base, r, log);
      TurnStep(After(base, r, front), log[|log| - 1], TallyOf(front));
    }
    ShapeInStep(After(base, r, log).phase, TallyOf(log));
  }

  lemma NoTurnsYet()
    ensures TurnShape(Fresh, Tally(0, 0, 0, 0)) && QueueSource(Fresh)
  {
  }

  lemma ShapeInStep(p: Phase, t: Tally)
    requires TurnShape(p, t)
    ensures t.ends <= t.responses <= t.calls <= t.starts <= t.ends + 1
    ensures p.Done? ==> t.starts == t.calls == t.responses == t.ends && t.ends > 0
  {
  }

  /** A finished run: one start first, one end last carrying what was completed, and whole turns between. */
  lemma {:induction false} WholeRun(base: seq<AgentMessage>, r: Option<ThinkingLevel>, log: seq<Step>)
    requires Accepted(base, r, log)
    ensures log == [] <==> After(base, r, log).phase == Fresh
    ensures log != [] ==> log[0] == Emit(Loop, AgentStart)
    ensures forall i :: 0 < i < |log| ==> !(log[i].Emit? && log[i].event.AgentStart?)
    ensures forall i :: 0 <= i < |log| && log[i].Emit? && log[i].event.AgentEnd? ==>
              i == |log| - 1 && After(base, r, log).phase.Done?
    ensures After(base, r, log).phase.Done? ==>
              var t := TallyOf(log);
              log[|log| - 1] == Emit(Loop, AgentEnd(Completed(log)))
              && t.starts == t.calls == t.responses == t.ends && t.ends > 0
  {
    hide Next, TallyOf, TurnShape, QueueSource;
    if log != [] {
      var n := |log| - 1;
      var front := log[..n];
      AcceptedPrefix(base, r, log, n);
      WholeRun(base, r, front);
      Unfold(base, r, log);
      Bookkeeping(base, r, front);
      TurnsAlternate(base, r, log);
      ShapeInStep(After(base, r, log).phase, TallyOf(log));
      if After(base, r, front).phase.Settling? {
        EndsMarkedSettling(After(base, r, front), log[n]);
      } else {
        EndsMarkedElsewhere(After(base, r, front), log[n]);
      }
      assert forall i :: 0 <= i < n ==> front[i] == log[i];
    }
  }

  /** The two ends of a run, and nothing else, are marked by their own events. */
  ghost predicate EndsMarked(g: State, step: Step, h: State) {
    && (step.Emit? && step.event.AgentStart? ==> g.phase == Fresh)
    && (g.phase == Fresh ==> step == Emit(Loop, AgentStart))
    && (step.Emit? && step.event.AgentEnd? <==> h.phase.Done?)
    && (h.phase.Done? ==> step == Emit(Loop, AgentEnd(g.ends)))
    && !g.phase.Done? && h.phase != Fresh
  }

  lemma EndsMarkedSettling(g: State, step: Step)
    requires g.phase.Settling? && !Next(g, step).phase.Violation?
    ensures EndsMarked(g, step, Next(g, step))
  {
    hide NextAgentEnd, BatchComplete, BatchTerminates, ReplyFor, Calls;
  }

  lemma EndsMarkedElsewhere(g: State, step: Step)
    requires !g.phase.Settling? && !Next(g, step).phase.Violation?
    ensures EndsMarked(g, step, Next(g, step))
  {
    hide NextTool, NextTurnEnd;
  }

  // ---------------------------------------------------------------- message brackets

  datatype Bracket = Closed | Open(message: AgentMessage, updates: nat) | Broken

  /** Message events nest properly: start, updates, end, one message at a time. */
  function BracketStep(b: Bracket, step: Step): Bracket {
    match step
    case Emit(_, MessageStart(m)) => if b == Closed then Open(m, 0) else Broken
    case Emit(_, MessageUpdate(m)) => if b.Open? then Open(m, b.updates + 1) else Broken
    case Emit(_, MessageEnd(_)) => if b.Open? then Closed else Broken
    case _ => b
  }

  function Brackets(log: seq<Step>): Bracket {
    if log == [] then Closed else BracketStep(Brackets(log[..|log| - 1]), log[|log| - 1])
  }

  function OpenMessage(p: Phase): Option<AgentMessage> {
    match p
    case PromptOpen(m) => Some(m)
    case InjectOpen(_, m, _) => Some(m)
    case Streaming(m) => Some(m)
    case ReplyOpen(_, _, _, _, r) => Some(ToolReply(r))
    case _ => None
  }

  ghost predicate BracketFits(g: State, b: Bracket) {
    && (g.restarts > 0 <==> b == Broken)
    && (g.restarts == 0 ==>
          match OpenMessage(g.phase)
          case None => b == Closed
          case Some(m) => b.Open? && b.message == m)
  }

  lemma BracketSettling(g: State, step: Step, b: Bracket)
    requires g.phase.Settling? && !Next(g, step).phase.Violation? && BracketFits(g, b)
    ensures BracketFits(Next(g, step), BracketStep(b, step))
  {
    hide NextAgentEnd, BatchComplete, BatchTerminates, ReplyFor, Calls;
  }

  lemma BracketElsewhere(g: State, step: Step, b: Bracket)
    requires !g.phase.Settling? && !Next(g, step).phase.Violation? && BracketFits(g, b)
    ensures BracketFits(Next(g, step), BracketStep(b, step))
  {
    hide NextTool, NextTurnEnd;
  }

  /** Messages are properly bracketed exactly when no response stream started twice. */
  lemma {:induction false} BracketedUnlessRestarted(base: seq<AgentMessage>, r: Option<ThinkingLevel>, log: seq<Step>)
    requires Accepted(base, r, log)
    ensures BracketFits(After(base, r, log), Brackets(log))
    ensures After(base, r, log).restarts == 0 <==> Brackets(log) != Broken
    ensures After(base, r, log).phase.Done? && After(base, r, log).restarts == 0 ==> Brackets(log) == Closed
  {
    if log != [] {
      var front, last := log[..|log| - 1], log[|log| - 1];
      AcceptedPrefix(base, r, log, |log| - 1);
      BracketedUnlessRestarted(base, r, front);
      Unfold(base, r, log);
      hide Next, Run, BracketStep;
      if After(base, r, front).phase.Settling? {
        BracketSettling(After(base, r, front), last, Brackets(front));
      } else {
        BracketElsewhere(After(base, r, front), last, Brackets(front));
      }
    }
  }

  // ---------------------------------------------------------------- queue deliveries

  /** The messages a source completed, in order. */
  function Delivered(log: seq<Step>, src: Source): seq<AgentMessage> {
    if log == [] then []
    else
      var last := log[|log| - 1];
      Delivered(log[..|log| - 1], src)
      + if last.Emit? && last.src == src && last.event.MessageEnd? then [last.event.message] else []
  }

  /** Everything the polls of a queue handed over, in order. */
  function Polled(log: seq<Step>, queue: Source): seq<AgentMessage> {
    if log == [] then []
    else
      var last := log[|log| - 1];
      Polled(log[..|log| - 1], queue) + if last.PollQueue? && last.queue == queue then last.got else []
  }

  /** Handed over by the queue but not yet completed. */
  function InHand(p: Phase, queue: Source): seq<AgentMessage> {
    match p
    case Injecting(q, todo) => if q == queue then todo else []
    case InjectOpen(q, m, todo) => if q == queue then [m] + todo else []
    case Ready(q, todo) => if q == queue then todo else []
    case _ => []
  }

  function Handed(g: State, queue: Source): seq<AgentMessage> {
    if queue == Steering then g.steered else g.followed
  }

  lemma DeliverySettling(g: State, step: Step, queue: Source)
    requires g.phase.Settling? && !Next(g, step).phase.Violation? && (queue == Steering || queue == FollowUp)
    ensures Handed(Next(g, step), queue) == Handed(g, queue) && InHand(Next(g, step).phase, queue) == []
    ensures !step.PollQueue? && !(step.Emit? && step.src == queue && step.event.MessageEnd?)
  {
    hide NextAgentEnd, BatchComplete, BatchTerminates, ReplyFor, Calls;
  }

  lemma DeliverySilent(g: State, step: Step, queue: Source)
    requires !g.phase.Settling? && !step.Emit? && !Next(g, step).phase.Violation?
             && (queue == Steering || queue == FollowUp)
    ensures var polled := if step.PollQueue? && step.queue == queue then step.got else [];
            && Handed(Next(g, step), queue) == Handed(g, queue) + polled
            && InHand(g.phase, queue) + polled == InHand(Next(g, step).phase, queue)
  {
    hide NextEvent;
  }

  lemma EndingHandsNothing(g: State, step: Step, queue: Source)
    requires (g.phase.Closing? || g.phase.Between?) && step.Emit? && !Next(g, step).phase.Violation?
    ensures Handed(Next(g, step), queue) == Handed(g, queue)
            && InHand(Next(g, step).phase, queue) == InHand(g.phase, queue) == []
    ensures !step.event.MessageEnd?
  {
    hide NextTool, NextTurnEnd, NextPoll;
  }

  lemma DeliveryEvent(g: State, step: Step, queue: Source)
    requires !g.phase.Settling? && step.Emit? && !Next(g, step).phase.Violation?
             && (queue == Steering || queue == FollowUp)
    requires QueueSource(g.phase)
    ensures var ended := if step.src == queue && step.event.MessageEnd? then [step.event.message] else [];
            && Handed(Next(g, step), queue) == Handed(g, queue)
            && InHand(g.phase, queue) == ended + InHand(Next(g, step).phase, queue)
  {
    hide NextTool, NextTurnEnd, NextPoll, NextAgentEnd;
    if g.phase.Closing? || g.phase.Between? {
      EndingHandsNothing(g, step, queue);
    }
    if g.phase.Injecting? && g.phase.todo != [] {
      assert g.phase.todo == [g.phase.todo[0]] + g.phase.todo[1..];
    }
  }

  lemma DeliveryElsewhere(g: State, step: Step, queue: Source)
    requires !g.phase.Settling? && !Next(g, step).phase.Violation? && (queue == Steering || queue == FollowUp)
    requires QueueSource(g.phase)
    ensures var polled := if step.PollQueue? && step.queue == queue then step.got else [];
            var ended := if step.Emit? && step.src == queue && step.event.MessageEnd? then [step.event.message] else [];
            && Handed(Next(g, step), queue) == Handed(g, queue) + polled
            && InHand(g.phase, queue) + polled == ended + InHand(Next(g, step).phase, queue)
  {
    hide Next, Handed, InHand, QueueSource;
    if step.Emit? {
      DeliveryEvent(g, step, queue);
      assert Handed(g, queue) + [] == Handed(g, queue) && InHand(g.phase, queue) + [] == InHand(g.phase, queue);
    } else {
      DeliverySilent(g, step, queue);
      assert [] + InHand(Next(g, step).phase, queue) == InHand(Next(g, step).phase, queue);
    }
  }

  /** What a queue handed over was completed in that order, except for what is still in hand. */
  lemma {:induction false} DeliveredInOrder(base: seq<AgentMessage>, r: Option<ThinkingLevel>, log: seq<Step>,
                                            queue: Source)
    requires Accepted(base, r, log) && (queue == Steering || queue == FollowUp)
    ensures Handed(After(base, r, log), queue) == Polled(log, queue)
    ensures Polled(log, queue) == Delivered(log, queue) + InHand(After(base, r, log).phase, queue)
    ensures After(base, r, log).phase.Done? ==> Polled(log, queue) == Delivered(log, queue)
  {
    if log != [] {
      var front, last := log[..|log| - 1], log[|log| - 1];
      AcceptedPrefix(base, r, log, |log| - 1);
      DeliveredInOrder(base, r, front, queue);
      Unfold(base, r, log);
      TurnsAlternate(base, r, front);
      hide Next, Run, TurnShape, TallyOf;
      DeliveryStep(After(base, r, front), last, queue, Delivered(front, queue), Polled(front, queue));
    }
  }

  lemma DeliveryStep(g: State, step: Step, queue: Source, delivered: seq<AgentMessage>, polled: seq<AgentMessage>)
    requires !Next(g, step).phase.Violation? && (queue == Steering || queue == FollowUp) && QueueSource(g.phase)
    requires polled == delivered + InHand(g.phase, queue) && polled == Handed(g, queue)
    ensures var got := if step.PollQueue? && step.queue == queue then step.got else [];
            var ended := if step.Emit? && step.src == queue && step.event.MessageEnd? then [step.event.message] else [];
            var h := Next(g, step);
            && polled + got == (delivered + ended) + InHand(h.phase, queue) && polled + got == Handed(h, queue)
            && (h.phase.Done? ==> InHand(h.phase, queue) == [])
  {
    hide Next, Handed, QueueSource;
    if g.phase.Settling? {
      DeliverySettling(g, step, queue);
      assert polled + [] == polled && delivered + [] == delivered;
    } else {
      var got := if step.PollQueue? && step.queue == queue then step.got else [];
      var ended := if step.Emit? && step.src == queue && step.event.MessageEnd? then [step.event.message] else [];
      DeliveryElsewhere(g, step, queue);
      hide InHand;
      assert (delivered + InHand(g.phase, queue)) + got == delivered + (InHand(g.phase, queue) + got);
      assert delivered + (ended + InHand(Next(g, step).phase, queue)) ==
             (delivered + ended) + InHand(Next(g, step).phase, queue);
    }
    NothingInHand(Next(g, step).phase, queue);
  }

  lemma NothingInHand(p: Phase, queue: Source)
    ensures p.Settling? || p.Done? ==> InHand(p, queue) == []
  {
  }

  /** The message a step completes, if it is that source's. */
  function EndedBy(step: Step, src: Source): seq<AgentMessage> {
    if step.Emit? && step.src == src && step.event.MessageEnd? then [step.event.message] else []
  }

  lemma CompletesSettling(g: State, step: Step)
    requires g.phase.Settling? && !Next(g, step).phase.Violation?
    ensures var h := Next(g, step);
            && h.prompted == g.prompted && h.responses == g.responses
            && EndedBy(step, Prompt) == EndedBy(step, Model) == []
  {
    hide NextAgentEnd, BatchComplete, BatchTerminates, ReplyFor, Calls;
  }

  lemma CompletesElsewhere(g: State, step: Step)
    requires !g.phase.Settling? && !Next(g, step).phase.Violation? && QueueSource(g.phase)
    ensures var h := Next(g, step);
            && h.prompted == g.prompted + EndedBy(step, Prompt)
            && Wrapped(h.responses) == Wrapped(g.responses) + EndedBy(step, Model)
  {
    hide NextTool, NextTurnEnd;
    NothingAdded(g.prompted);
    NothingAdded(Wrapped(g.responses));
  }

  lemma NothingAdded(s: seq<AgentMessage>)
    ensures s + [] == s
  {
  }

  function Wrapped(responses: seq<AssistantMessage>): seq<AgentMessage> {
    seq(|responses|, i requires 0 <= i < |responses| => Assistant(responses[i]))
  }

  /** The prompts and the responses a run has completed are what those two sources ended, in order. */
  lemma {:induction false} PromptsAndResponses(base: seq<AgentMessage>, r: Option<ThinkingLevel>, log: seq<Step>)
    requires Accepted(base, r, log)
    ensures After(base, r, log).prompted == Delivered(log, Prompt)
    ensures Wrapped(After(base, r, log).responses) == Delivered(log, Model)
  {
    if log != [] {
      AcceptedPrefix(base, r, log, |log| - 1);
      Unfold(base, r, log);
      var front := log[..|log| - 1];
      TurnsAlternate(base, r, front);
      hide Next, Run, Wrapped, TurnShape, TallyOf;
      PromptsAndResponses(base, r, front);
      if After(base, r, front).phase.Settling? {
        CompletesSettling(After(base, r, front), log[|log| - 1]);
      } else {
        CompletesElsewhere(After(base, r, front), log[|log| - 1]);
      }
    }
  }

  /** What the first poll of a log handed over. */
  function FirstPolled(log: seq<Step>): Option<seq<AgentMessage>> {
    if log == [] then None
    else
      var before := FirstPolled(log[..|log| - 1]);
      if before.None? && log[|log| - 1].PollQueue? then Some(log[|log| - 1].got) else before
  }

  ghost predicate OpeningFits(g: State) {
    match g.phase
    case Fresh => g.opening.None?
    case Started => g.opening.None?
    case Prompting => g.opening.None?
    case PromptOpen(_) => g.opening.None?
    case _ => g.opening.Some?
  }

  lemma OpeningSettling(g: State, step: Step)
    requires g.phase.Settling? && !Next(g, step).phase.Violation? && OpeningFits(g)
    ensures OpeningFits(Next(g, step)) && Next(g, step).opening == g.opening && g.opening.Some?
  {
    hide NextAgentEnd, BatchComplete, BatchTerminates, ReplyFor, Calls;
  }

  lemma OpeningElsewhere(g: State, step: Step)
    requires !g.phase.Settling? && !Next(g, step).phase.Violation? && OpeningFits(g)
    ensures OpeningFits(Next(g, step))
    ensures Next(g, step).opening == if g.opening.None? && step.PollQueue? then Some(step.got) else g.opening
  {
    hide NextTool, NextTurnEnd;
  }

  lemma {:induction false} OpeningIsFirst(base: seq<AgentMessage>, r: Option<ThinkingLevel>, log: seq<Step>)
    requires Accepted(base, r, log)
    ensures After(base, r, log).opening == FirstPolled(log) && OpeningFits(After(base, r, log))
  {
    if log != [] {
      var front := log[..|log| - 1];
      AcceptedPrefix(base, r, log, |log| - 1);
      OpeningIsFirst(base, r, front);
      Unfold(base, r, log);
      hide Next, Run, OpeningFits;
      if After(base, r, front).phase.Settling? {
        OpeningSettling(After(base, r, front), log[|log| - 1]);
      } else {
        OpeningElsewhere(After(base, r, front), log[|log| - 1]);
      }
    }
  }

  /** Whatever entered a run as a prompt or from a queue is among the messages it completed, as often. */
  lemma {:induction false} DeliveredIsCompleted(log: seq<Step>)
    ensures multiset(Delivered(log, Prompt)) + multiset(Delivered(log, Steering)) + multiset(Delivered(log, FollowUp))
            <= multiset(Completed(log))
  {
    if log != [] {
      DeliveredIsCompleted(log[..|log| - 1]);
    }
  }

  // ---------------------------------------------------------------- when a follow-up may enter

  /** Did a tool call of the current turn end without asking the run to stop? */
  ghost predicate CallsContinue(log: seq<Step>) {
    if log == [] then false
    else match log[|log| - 1]
      case Emit(_, TurnStart) => false
      case Emit(_, ToolExecutionEnd(_, _, result, _)) =>
        result.terminate != Some(true) || CallsContinue(log[..|log| - 1])
      case _ => CallsContinue(log[..|log| - 1])
  }

  ghost predicate SomeContinues(outcomes: map<nat, Outcome>) {
    exists k :: k in outcomes && outcomes[k].result.terminate != Some(true)
  }

  ghost predicate ContinueFits(p: Phase, continues: bool) {
    match p
    case Settling(_, started, outcomes, _) => continues == SomeContinues(outcomes)
        && forall k <- outcomes :: k < started
    case ReplyOpen(_, started, outcomes, _, _) => continues == SomeContinues(outcomes)
        && forall k <- outcomes :: k < started
    case Between(more) => more == continues
    case Ready(_, _) => true
    case Idle => true
    case Closing => true
    case Done => true
    case _ => !continues
  }

  ghost predicate ContinueStep(step: Step, was: bool) {
    match step
    case Emit(_, TurnStart) => false
    case Emit(_, ToolExecutionEnd(_, _, result, _)) => result.terminate != Some(true) || was
    case _ => was
  }

  lemma ContinueSettling(g: State, step: Step, was: bool)
    requires g.phase.Settling? && !Next(g, step).phase.Violation? && ContinueFits(g.phase, was)
    ensures ContinueFits(Next(g, step).phase, ContinueStep(step, was))
  {
    hide NextAgentEnd, ReplyFor, Calls, SomeContinues;
    var p := g.phase;
    if step.Emit? && step.event.ToolExecutionEnd? && step.src.ToolSlot? {
      OneMoreOutcome(p.outcomes, step.src.index, Outcome(step.event.result, step.event.isError));
    } else if step.Emit? && step.event.TurnEnd? {
      BatchVerdict(p);
    }
  }

  lemma OneMoreOutcome(outcomes: map<nat, Outcome>, k: nat, o: Outcome)
    ensures k !in outcomes ==>
              SomeContinues(outcomes[k := o]) == (o.result.terminate != Some(true) || SomeContinues(outcomes))
  {
    if k !in outcomes {
      var more := outcomes[k := o];
      if SomeContinues(outcomes) {
        var j :| j in outcomes && outcomes[j].result.terminate != Some(true);
        assert j in more && more[j] == outcomes[j];
      }
      if o.result.terminate != Some(true) {
        assert k in more;
      }
    }
  }

  lemma BatchVerdict(p: Phase)
    requires p.Settling?
    ensures BatchComplete(p) ==> (p.started > 0 && !BatchTerminates(p.outcomes)) == SomeContinues(p.outcomes)
  {
    if BatchComplete(p) && p.started > 0 {
      assert 0 in p.outcomes;
    }
  }

  lemma ContinueElsewhere(g: State, step: Step, was: bool)
    requires !g.phase.Settling? && !Next(g, step).phase.Violation? && ContinueFits(g.phase, was)
    ensures ContinueFits(Next(g, step).phase, ContinueStep(step, was))
  {
    hide NextTool, NextTurnEnd;
  }

  lemma {:induction false} ContinueMeans(base: seq<AgentMessage>, r: Option<ThinkingLevel>, log: seq<Step>)
    requires Accepted(base, r, log)
    ensures ContinueFits(After(base, r, log).phase, CallsContinue(log))
  {
    if log != [] {
      var front, last := log[..|log| - 1], log[|log| - 1];
      AcceptedPrefix(base, r, log, |log| - 1);
      ContinueMeans(base, r, front);
      Unfold(base, r, log);
      assert CallsContinue(log) == ContinueStep(last, CallsContinue(front));
      hide Next, Run, CallsContinue, ContinueStep, ContinueFits;
      if After(base, r, front).phase.Settling? {
        ContinueSettling(After(base, r, front), last, CallsContinue(front));
      } else {
        ContinueElsewhere(After(base, r, front), last, CallsContinue(front));
      }
    }
  }

  /** How the two idle-time phases are reached. */
  lemma IdleStep(g: State, step: Step)
    requires !Next(g, step).phase.Violation?
    ensures Next(g, step).phase == Idle ==> g.phase == Between(false) && step == PollQueue(Steering, [], [])
    ensures InHand(Next(g, step).phase, FollowUp) != [] && QueueSource(g.phase) ==>
              || (g.phase == Idle && step.PollQueue? && step.queue == FollowUp
                  && InHand(Next(g, step).phase, FollowUp) == step.got)
              || (forall m <- InHand(Next(g, step).phase, FollowUp) :: m in InHand(g.phase, FollowUp))
  {
    hide NextTool, NextTurnEnd;
    if g.phase.Settling? {
      SettlingStays(g, step);
    }
  }

  lemma SettlingStays(g: State, step: Step)
    requires g.phase.Settling? && !Next(g, step).phase.Violation?
    ensures Next(g, step).phase.Settling? || Next(g, step).phase.ReplyOpen? || Next(g, step).phase.Between?
            || Next(g, step).phase.Closing?
  {
    hide NextAgentEnd, ReplyFor, Calls, BatchComplete, BatchTerminates;
  }

  /**
   A follow-up message is only ever taken when the run would otherwise stop: the turn
   before left no tool call wanting to continue, and the steering queue had just been found empty.
   */
  lemma {:induction false} FollowUpsWait(base: seq<AgentMessage>, r: Option<ThinkingLevel>, log: seq<Step>,
                                         m: AgentMessage)
    returns (j: nat)
    requires Accepted(base, r, log) && m in InHand(After(base, r, log).phase, FollowUp)
    ensures 1 <= j < |log| && log[j].PollQueue? && log[j].queue == FollowUp && m in log[j].got
    ensures log[j - 1] == PollQueue(Steering, [], []) && After(base, r, log[..j - 1]).phase == Between(false)
    ensures !CallsContinue(log[..j - 1])
    decreases |log|
  {
    hide Next, CallsContinue, TurnShape, TallyOf, QueueSource;
    if log == [] {
      assert false;
    } else {
      var n := |log| - 1;
      var front, last := log[..n], log[n];
      AcceptedPrefix(base, r, log, n);
      Unfold(base, r, log);
      TurnsAlternate(base, r, front);
      IdleStep(After(base, r, front), last);
      if After(base, r, front).phase == Idle && last.PollQueue? && last.queue == FollowUp && m in last.got {
        IdleFollows(base, r, front);
        j := n;
        assert front[..n - 1] == log[..n - 1];
      } else {
        j := FollowUpsWait(base, r, front, m);
        assert front[..j - 1] == log[..j - 1];
      }
    }
  }

  lemma IdleFollows(base: seq<AgentMessage>, r: Option<ThinkingLevel>, log: seq<Step>)
    requires Accepted(base, r, log) && After(base, r, log).phase == Idle
    ensures log != [] && log[|log| - 1] == PollQueue(Steering, [], [])
    ensures After(base, r, log[..|log| - 1]).phase == Between(false) && !CallsContinue(log[..|log| - 1])
  {
    if log != [] {
      var n := |log| - 1;
      AcceptedPrefix(base, r, log, n);
      Unfold(base, r, log);
      IdleStep(After(base, r, log[..n]), log[n]);
      ContinueMeans(base, r, log[..n]);
      hide Next, Run;
    }
  }

  lemma FollowUpEntry(g: State, m: AgentMessage)
    requires !Next(g, Emit(FollowUp, MessageStart(m))).phase.Violation?
    ensures m in InHand(g.phase, FollowUp)
  {
    hide NextTool, NextTurnEnd, NextPoll;
  }

  /** The same, for the moment a follow-up message appears in the trace. */
  lemma FollowUpEnters(base: seq<AgentMessage>, r: Option<ThinkingLevel>, log: seq<Step>, i: nat, m: AgentMessage)
    returns (j: nat)
    requires Accepted(base, r, log) && i < |log| && log[i] == Emit(FollowUp, MessageStart(m))
    ensures 1 <= j < i && log[j].PollQueue? && log[j].queue == FollowUp && m in log[j].got
    ensures log[j - 1] == PollQueue(Steering, [], []) && !CallsContinue(log[..j - 1])
  {
    hide Next, Run, CallsContinue, InHand;
    AcceptedPrefix(base, r, log, i + 1);
    assert log[..i + 1][..i] == log[..i];
    Unfold(base, r, log[..i + 1]);
    FollowUpEntry(After(base, r, log[..i]), m);
    AcceptedPrefix(base, r, log, i);
    j := FollowUpsWait(base, r, log[..i], m);
    assert log[..i][..j - 1] == log[..j - 1];
  }

  // ---------------------------------------------------------------- how runs end

  /** The last step before the end event. */
  function LastWord(log: seq<Step>): Step
    requires |log| >= 2
  {
    log[|log| - 2]
  }

  ghost predicate EndsAfterError(log: seq<Step>) {
    |log| >= 2 && LastWord(log).Emit? && FailedTurn(LastWord(log).event)
  }

  predicate FailedTurn(event: AgentEvent) {
    event.TurnEnd? && event.message.Assistant? && StopsRun(event.message.assistant.stopReason)
  }

  /** A hook can only end a run right after a turn, or after the update it made to that turn. */
  ghost predicate EndsAtHook(log: seq<Step>) {
    && |log| >= 2
    && (LastWord(log).Update? || (LastWord(log).Emit? && LastWord(log).event.TurnEnd?
                                  && !FailedTurn(LastWord(log).event)))
  }

  /** The response a turn is about is the last one, and a turn that failed is not followed by hooks or polls. */
  ghost predicate LastFits(g: State) {
    match g.phase
    case Settling(final, _, _, _) => g.responses != [] && g.responses[|g.responses| - 1] == final
    case ReplyOpen(final, _, _, _, _) => g.responses != [] && g.responses[|g.responses| - 1] == final
    case Between(_) => g.responses != [] && !StopsRun(g.responses[|g.responses| - 1].stopReason)
    case _ => true
  }

  lemma LastFitsSettling(g: State, step: Step)
    requires g.phase.Settling? && !Next(g, step).phase.Violation? && LastFits(g)
    ensures LastFits(Next(g, step)) && Next(g, step).responses == g.responses
    ensures Next(g, step).phase == Closing ==>
              step.Emit? && FailedTurn(step.event) && StopsRun(g.responses[|g.responses| - 1].stopReason)
    ensures Next(g, step).phase.Between? ==> step.Emit? && step.event.TurnEnd? && !FailedTurn(step.event)
    ensures !Next(g, step).phase.Done?
  {
    hide NextAgentEnd, ReplyFor, Calls, BatchComplete, BatchTerminates;
  }

  lemma LastFitsElsewhere(g: State, step: Step)
    requires !g.phase.Settling? && !Next(g, step).phase.Violation? && LastFits(g)
    ensures LastFits(Next(g, step))
    ensures Next(g, step).phase == Closing ==> g.phase == Idle && step == PollQueue(FollowUp, [], [])
    ensures Next(g, step).phase.Between? ==> step.Update?
    ensures Next(g, step).phase.Done? ==>
              (g.phase == Closing || g.phase.Between?) && Next(g, step).responses == g.responses
  {
    hide NextTool, NextTurnEnd;
  }

  lemma {:induction false} LastResponse(base: seq<AgentMessage>, r: Option<ThinkingLevel>, log: seq<Step>)
    requires Accepted(base, r, log)
    ensures LastFits(After(base, r, log))
  {
    if log != [] {
      var front := log[..|log| - 1];
      AcceptedPrefix(base, r, log, |log| - 1);
      LastResponse(base, r, front);
      Unfold(base, r, log);
      hide Next, Run, LastFits;
      if After(base, r, front).phase.Settling? {
        LastFitsSettling(After(base, r, front), log[|log| - 1]);
      } else {
        LastFitsElsewhere(After(base, r, front), log[|log| - 1]);
      }
    }
  }

  /** What the last step of a log was, where the run stands at its end. */
  ghost predicate LastMove(g: State, step: Step, h: State) {
    && (h.phase == Closing ==>
          || (step.Emit? && FailedTurn(step.event) && h.responses != []
              && StopsRun(h.responses[|h.responses| - 1].stopReason))
          || (g.phase == Idle && step == PollQueue(FollowUp, [], [])))
    && (h.phase.Between? ==>
          && (step.Update? || (step.Emit? && step.event.TurnEnd? && !FailedTurn(step.event)))
          && h.responses != [] && !StopsRun(h.responses[|h.responses| - 1].stopReason))
    && (h.phase.Done? ==> (g.phase == Closing || g.phase.Between?) && h.responses == g.responses)
  }

  lemma StepBack(base: seq<AgentMessage>, r: Option<ThinkingLevel>, log: seq<Step>)
    requires Accepted(base, r, log) && After(base, r, log).phase != Fresh
    ensures log != [] && Accepted(base, r, log[..|log| - 1])
    ensures LastMove(After(base, r, log[..|log| - 1]), log[|log| - 1], After(base, r, log))
  {
    if log != [] {
      AcceptedPrefix(base, r, log, |log| - 1);
      LastResponse(base, r, log);
      LastResponse(base, r, log[..|log| - 1]);
      Unfold(base, r, log);
      hide Next, Run;
      if After(base, r, log[..|log| - 1]).phase.Settling? {
        LastFitsSettling(After(base, r, log[..|log| - 1]), log[|log| - 1]);
      } else {
        LastFitsElsewhere(After(base, r, log[..|log| - 1]), log[|log| - 1]);
      }
    }
  }

  /**
   A run ends in one of three ways: after a turn that failed or was aborted; at a stop
   hook, after a turn that did not; or dry, when no call of the last turn wanted to continue and
   first the steering queue and then the follow-up queue were found empty.
   */
  lemma HowRunsEnd(base: seq<AgentMessage>, r: Option<ThinkingLevel>, log: seq<Step>)
    requires Accepted(base, r, log) && After(base, r, log).phase.Done?
    ensures var responses := After(base, r, log).responses;
            || (EndsAfterError(log) && responses != [] && StopsRun(responses[|responses| - 1].stopReason))
            || (EndsAtHook(log) && responses != [] && !StopsRun(responses[|responses| - 1].stopReason))
            || (RanDry(log) && !CallsContinue(log[..|log| - 3]))
  {
    hide Next, Run, CallsContinue;
    StepBack(base, r, log);
    var front := log[..|log| - 1];
    StepBack(base, r, front);
    if After(base, r, front).phase == Closing && !EndsAfterError(log) {
      var rest := front[..|front| - 1];
      IdleFollows(base, r, rest);
      assert rest[..|rest| - 1] == log[..|log| - 3];
    }
  }
}
