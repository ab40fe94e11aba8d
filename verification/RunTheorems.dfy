/**
 What listeners may rely on: theorems about every log the run protocol accepts, whatever the provider,
 the tools, the hooks, the queues and the cancelling caller did. None of them mentions the
 loops; the loops are proved to produce accepted logs.
 */
module RunTheorems {
  import opened Options
  import opened AgentTypes
  import opened AgentProtocol
  import opened AgentState

  ghost predicate Accepted(base: seq<AgentMessage>, reasoning: Option<ThinkingLevel>, log: seq<Step>) {
    !Run(Initial(base, reasoning), log).phase.Violation?
  }

  ghost function After(base: seq<AgentMessage>, reasoning: Option<ThinkingLevel>, log: seq<Step>): State {
    Run(Initial(base, reasoning), log)
  }

  /** What one accepted step does to the bookkeeping fields of the protocol state. */
  lemma StepEffect(g: State, step: Step)
    requires !Next(g, step).phase.Violation?
    ensures !g.phase.Violation?
    ensures var h := Next(g, step);
            && h.base == g.base
            && h.ends == g.ends + (if step.Emit? && step.event.MessageEnd? then [step.event.message] else [])
            && h.reasoning == (if step.Update? then Remap(g.reasoning, step.thinkingLevel) else g.reasoning)
            && h.faithful == (g.faithful && (step.CallProvider? ==> step.sent == g.base + g.ends))
            && (step.CallProvider? ==> step.reasoning == g.reasoning)
  {
    hide BatchComplete, BatchTerminates, ReplyFor, Calls;
    assert g.ends + [] == g.ends;
  }

  lemma Unfold(base: seq<AgentMessage>, r: Option<ThinkingLevel>, log: seq<Step>)
    requires log != []
    ensures After(base, r, log) == Next(After(base, r, log[..|log| - 1]), log[|log| - 1])
  {
    hide Next;
  }

  /** A log that is accepted was accepted at every earlier moment. */
  lemma {:induction false} AcceptedPrefix(base: seq<AgentMessage>, r: Option<ThinkingLevel>, log: seq<Step>, n: nat)
    requires Accepted(base, r, log) && n <= |log|
    ensures Accepted(base, r, log[..n])
    decreases |log|
  {
    if n == |log| {
      assert log[..n] == log;
    } else {
      var front := log[..|log| - 1];
      Unfold(base, r, log);
      StepEffect(After(base, r, front), log[|log| - 1]);
      hide Next, Run;
      AcceptedPrefix(base, r, front, n);
      assert front[..n] == log[..n];
    }
  }

  // ---------------------------------------------------------------- the transcript

  /** The payloads of the message ends of a log, in order. */
  function Completed(log: seq<Step>): seq<AgentMessage> {
    if log == [] then []
    else
      var last := log[|log| - 1];
      Completed(log[..|log| - 1]) + if last.Emit? && last.event.MessageEnd? then [last.event.message] else []
  }

  /** The agent's rebuilt transcript is its snapshot followed by the messages the run completed. */
  lemma {:induction false} TranscriptAgreement(base: seq<AgentMessage>, r: Option<ThinkingLevel>, log: seq<Step>,
                                               v: View)
    requires Accepted(base, r, log)
    ensures After(base, r, log).ends == Completed(log)
    ensures Fold(v, log).messages == v.messages + Completed(log)
  {
    if log != [] {
      var front, last := log[..|log| - 1], log[|log| - 1];
      Unfold(base, r, log);
      StepEffect(After(base, r, front), last);
      hide Next, Run;
      TranscriptAgreement(base, r, front, v);
      if last.Emit? && last.event.MessageEnd? {
        var m := [last.event.message];
        assert v.messages + (Completed(front) + m) == (v.messages + Completed(front)) + m;
      }
    }
  }

  ghost function ReasoningAfter(r: Option<ThinkingLevel>, log: seq<Step>): Option<ThinkingLevel> {
    if log == [] then r
    else
      var last := log[|log| - 1];
      var before := ReasoningAfter(r, log[..|log| - 1]);
      if last.Update? then Remap(before, last.thinkingLevel) else before
  }

  /** Every provider call is made at the reasoning level the turn updates left. */
  lemma ReasoningAtCall(base: seq<AgentMessage>, r: Option<ThinkingLevel>, log: seq<Step>, i: nat)
    requires Accepted(base, r, log) && i < |log| && log[i].CallProvider?
    ensures log[i].reasoning == ReasoningAfter(r, log[..i])
  {
    AcceptedPrefix(base, r, log, i + 1);
    assert log[..i + 1][..i] == log[..i];
    Unfold(base, r, log[..i + 1]);
    StepEffect(After(base, r, log[..i]), log[i]);
    hide Next, Run;
    Bookkeeping(base, r, log[..i]);
  }

  lemma {:induction false} Bookkeeping(base: seq<AgentMessage>, r: Option<ThinkingLevel>, log: seq<Step>)
    requires Accepted(base, r, log)
    ensures var g := After(base, r, log);
            g.base == base && g.ends == Completed(log) && g.reasoning == ReasoningAfter(r, log)
  {
    if log != [] {
      var front := log[..|log| - 1];
      Unfold(base, r, log);
      StepEffect(After(base, r, front), log[|log| - 1]);
      hide Next, Run;
      Bookkeeping(base, r, front);
    }
  }

  /** Each provider call so far was shown the initial transcript followed by every completed message. */
  ghost predicate ShownEverything(base: seq<AgentMessage>, log: seq<Step>) {
    forall i :: 0 <= i < |log| && log[i].CallProvider? ==> log[i].sent == base + Completed(log[..i])
  }

  lemma {:induction false} FaithfulMeans(base: seq<AgentMessage>, r: Option<ThinkingLevel>, log: seq<Step>)
    requires Accepted(base, r, log)
    ensures After(base, r, log).faithful <==> ShownEverything(base, log)
  {
    if log != [] {
      var n := |log| - 1;
      var front := log[..n];
      Unfold(base, r, log);
      StepEffect(After(base, r, front), log[n]);
      hide Next, Run, Completed, ShownEverything;
      FaithfulMeans(base, r, front);
      Bookkeeping(base, r, front);
      ShownOneMore(base, log);
    } else {
      hide Completed;
    }
  }

  lemma ShownOneMore(base: seq<AgentMessage>, log: seq<Step>)
    requires log != []
    ensures var n := |log| - 1;
            ShownEverything(base, log) <==>
            ShownEverything(base, log[..n]) && (log[n].CallProvider? ==> log[n].sent == base + Completed(log[..n]))
  {
    hide Completed;
    var n := |log| - 1;
    var front := log[..n];
    forall i | 0 <= i < n
      ensures front[..i] == log[..i] && front[i] == log[i]
    {
    }
    if ShownEverything(base, log) {
      forall i | 0 <= i < |front| && front[i].CallProvider?
        ensures front[i].sent == base + Completed(front[..i])
      {
        assert log[i].CallProvider?;
      }
    }
  }

  // ---------------------------------------------------------------- pending tool calls

  /** The ids of calls that have started and not ended. */
  ghost function OpenIds(p: Phase): set<string> {
    match p
    case Settling(final, started, outcomes, _) => OpenOf(final, started, outcomes)
    case ReplyOpen(final, started, outcomes, _, _) => OpenOf(final, started, outcomes)
    case _ => {}
  }

  ghost function OpenOf(final: AssistantMessage, started: nat, outcomes: map<nat, Outcome>): set<string> {
    set k | 0 <= k < started && k < |Calls(final)| && k !in outcomes :: Calls(final)[k].id
  }

  /** The reducer never believes a call is running that is not, even when ids repeat. */
  lemma {:induction false} PendingAreOpen(base: seq<AgentMessage>, r: Option<ThinkingLevel>, log: seq<Step>, v: View)
    requires Accepted(base, r, log) && v.pending == {}
    ensures Fold(v, log).pending <= OpenIds(After(base, r, log).phase)
    ensures EndedHadStarted(After(base, r, log).phase)
  {
    if log != [] {
      var front, last := log[..|log| - 1], log[|log| - 1];
      AcceptedPrefix(base, r, log, |log| - 1);
      PendingAreOpen(base, r, front, v);
      Unfold(base, r, log);
      PendingStep(After(base, r, front), last, Fold(v, front));
    }
  }

  ghost predicate EndedHadStarted(p: Phase) {
    p.Settling? || p.ReplyOpen? ==> forall k <- p.outcomes :: k < p.started
  }

  lemma PendingStep(g: State, step: Step, v: View)
    requires !Next(g, step).phase.Violation? && v.pending <= OpenIds(g.phase) && EndedHadStarted(g.phase)
    ensures EndedHadStarted(Next(g, step).phase)
    ensures (if step.Emit? then Reduce(v, step.event) else v).pending <= OpenIds(Next(g, step).phase)
  {
    hide Next, OpenIds, Reduce, EndedHadStarted;
    if step.Emit? && g.phase.Settling? {
      PendingSettling(g, step, v);
    } else {
      PendingElsewhere(g, step, v);
    }
  }

  lemma PendingElsewhere(g: State, step: Step, v: View)
    requires !Next(g, step).phase.Violation? && v.pending <= OpenIds(g.phase) && EndedHadStarted(g.phase)
    requires !(step.Emit? && g.phase.Settling?)
    ensures EndedHadStarted(Next(g, step).phase)
    ensures (if step.Emit? then Reduce(v, step.event) else v).pending <= OpenIds(Next(g, step).phase)
  {
    hide NextTool, NextTurnEnd, OpenOf;
  }

  lemma PendingSettling(g: State, step: Step, v: View)
    requires !Next(g, step).phase.Violation? && v.pending <= OpenIds(g.phase) && EndedHadStarted(g.phase)
    requires step.Emit? && g.phase.Settling?
    ensures EndedHadStarted(Next(g, step).phase)
    ensures Reduce(v, step.event).pending <= OpenIds(Next(g, step).phase)
  {
    hide NextPoll, NextAgentEnd;
    var p := g.phase;
    if step.event.ToolExecutionEnd? {
      EndCloses(p.final, p.started, p.outcomes, step.src.index, Outcome(step.event.result, step.event.isError));
    } else if step.event.ToolExecutionStart? {
      var k := p.started;
      assert Calls(p.final)[k].id == step.event.toolCallId && k !in p.outcomes;
    } else if step.src == Loop {
      assert OpenIds(p) == {};
    }
  }

  lemma EndCloses(final: AssistantMessage, started: nat, outcomes: map<nat, Outcome>, k: nat, o: Outcome)
    requires k < |Calls(final)|
    ensures OpenOf(final, started, outcomes) - {Calls(final)[k].id} <= OpenOf(final, started, outcomes[k := o])
  {
  }

  lemma NoPendingAtTurnEnd(base: seq<AgentMessage>, r: Option<ThinkingLevel>, log: seq<Step>, v: View, i: nat)
    requires Accepted(base, r, log) && v.pending == {}
    requires i < |log| && log[i].Emit? && log[i].event.TurnEnd?
    ensures Fold(v, log[..i + 1]).pending == {}
  {
    AcceptedPrefix(base, r, log, i + 1);
    PendingAreOpen(base, r, log[..i + 1], v);
    assert log[..i + 1][..i] == log[..i];
    Unfold(base, r, log[..i + 1]);
    TurnEndSettles(After(base, r, log[..i]), log[i]);
    hide Next, Run, Fold;
  }

  lemma TurnEndSettles(g: State, step: Step)
    requires !Next(g, step).phase.Violation? && step.Emit? && step.event.TurnEnd?
    ensures OpenIds(Next(g, step).phase) == {}
  {
    hide NextPoll, BatchComplete, BatchTerminates, ReplyFor, Calls;
  }
}
