/**
 The stateful wrapper: it owns the transcript and the queues, builds a fresh loop
 configuration per run, and lets one run at a time fold its events into the state.
 Calls here do not overlap; overlapping callers are the subject of RunGuard.
 */
module Agent {
  import opened Options
  import opened AgentTypes
  import opened AgentProtocol
  import opened AgentState
  import opened AgentLoop
  import RunTheorems
  import RunGrammar

  datatype AgentError = BusyPrompt | BusyContinue | NothingToContinue | ContinueFromAssistant

  datatype Outcome = Ran(finished: bool, produced: seq<AgentMessage>) | Rejected(error: AgentError)

  /**
   The prompts a run starts from, whether a caller gave them (Prompt) or a queue did, and
   whether the run leaves the steering queue alone until its first turn is over.
   */
  datatype Job = Job(prompts: seq<AgentMessage>, origin: Source, skips: bool)

  class AgentInner {
    const sink: Sink
    const steering: PendingMessageQueue
    const followUp: PendingMessageQueue
    var tools: seq<Tool>
    var thinkingLevel: ThinkingLevel
    var toolExecution: ExecutionMode
    var hasBefore: bool
    var hasAfter: bool
    var activeRun: Token?
    var isStreaming: bool
    /** The queued messages that have entered the transcript, per queue. */
    ghost var steered: seq<AgentMessage>
    ghost var followed: seq<AgentMessage>
    /** The token of the last run, which outlives the run. */
    ghost var lastRun: Token?

    ghost predicate Valid()
      reads this, steering, followUp
    {
      && steering != followUp
      && steering.Valid() && followUp.Valid()
    }

    /** No run is in flight and nothing of the last one is left behind. */
    ghost predicate AtRest()
      reads this, sink
    {
      activeRun == null && !isStreaming && sink.streamingMessage == None && sink.pendingToolCalls == {}
    }

    /** Everything that left the queues has been credited; nothing is credited that a run did not complete. */
    ghost predicate Conserved()
      reads this, steering, followUp
    {
      && steered == steering.drained && followed == followUp.drained
    }

    /** The same, but for the prompts of a job that were drained and have yet to be credited. */
    ghost predicate Owing(job: Job)
      reads this, steering, followUp
    {
      && steering.drained == steered + (if job.origin == Steering then job.prompts else [])
      && followUp.drained == followed + (if job.origin == FollowUp then job.prompts else [])
    }

    /** The credited messages are in the transcript, as often as they were credited. */
    ghost predicate Entered()
      reads this, sink
    {
      multiset(steered) + multiset(followed) <= multiset(sink.messages)
    }

    /** Every message ever given to the queues is still queued, or it is in the transcript. */
    lemma NothingLost()
      requires Valid() && Conserved() && Entered()
      ensures steering.given == steered + steering.messages
      ensures followUp.given == followed + followUp.messages
      ensures multiset(steering.given) + multiset(followUp.given)
              <= multiset(sink.messages) + multiset(steering.messages) + multiset(followUp.messages)
    {
      assert multiset(steering.given) == multiset(steered) + multiset(steering.messages);
      assert multiset(followUp.given) == multiset(followed) + multiset(followUp.messages);
    }

    constructor (messages: seq<AgentMessage>, tools: seq<Tool>, steeringMode: QueueMode, followUpMode: QueueMode)
      ensures Valid() && AtRest() && Conserved() && Entered() && sink.messages == messages
    {
      sink := new Sink(messages);
      steering := new PendingMessageQueue(steeringMode);
      followUp := new PendingMessageQueue(followUpMode);
      this.tools := tools;
      thinkingLevel, toolExecution := Off, Parallel;
      hasBefore, hasAfter := false, false;
      activeRun, isStreaming := null, false;
      steered, followed, lastRun := [], [], null;
    }

    method Steer(message: AgentMessage)
      requires Valid()
      modifies steering
      ensures Valid() && steering.given == old(steering.given) + [message]
      ensures (old(Conserved()) ==> Conserved()) && (old(Entered()) ==> Entered())
    {
      steering.Enqueue(message);
    }

    method QueueFollowUp(message: AgentMessage)
      requires Valid()
      modifies followUp
      ensures Valid() && followUp.given == old(followUp.given) + [message]
      ensures (old(Conserved()) ==> Conserved()) && (old(Entered()) ==> Entered())
    {
      followUp.Enqueue(message);
    }

    function CreateLoopConfig(): (config: LoopConfig)
      reads this
      ensures !config.hasPrepare && !config.hasStop
      ensures config.reasoning == if thinkingLevel == Off then None else Some(thinkingLevel)
    {
      LoopConfig(Some(toolExecution), if thinkingLevel == Off then None else Some(thinkingLevel), hasBefore, hasAfter,
                 false, false)
    }

    /** `run_with_lifecycle`, before the executor. */
    method BeginRun() returns (token: Token)
      requires Valid() && activeRun == null
      modifies this`activeRun, this`isStreaming, this`lastRun, sink
      ensures Valid() && sink.Valid() && fresh(token) && activeRun == lastRun == token && isStreaming
      ensures sink.messages == old(sink.messages) && sink.pendingToolCalls == old(sink.pendingToolCalls)
      ensures sink.streamingMessage == None && sink.errorMessage == None
      ensures sink.Now() == Initial(sink.messages, CreateLoopConfig().reasoning) && sink.log == []
      ensures sink.start == sink.Seen() && sink.init == sink.Now()
    {
      token := new Token();
      activeRun, lastRun := token, token;
      isStreaming := true;
      sink.streamingMessage := None;
      sink.errorMessage := None;
      sink.Begin(CreateLoopConfig().reasoning);
    }

    /** `finish_run`: on every way out of a run. */
    method FinishRun()
      modifies this`activeRun, this`isStreaming, sink`streamingMessage, sink`pendingToolCalls
      ensures AtRest()
    {
      isStreaming := false;
      sink.streamingMessage := None;
      sink.pendingToolCalls := {};
      activeRun := null;
    }

    /** The record of the last run, as the protocol saw it. */
    ghost predicate Recorded(messages: seq<AgentMessage>, newMessages: seq<AgentMessage>)
      reads sink
    {
      && sink.init.base == messages && sink.init == Initial(messages, sink.init.reasoning)
      && !sink.Now().phase.Violation? && sink.Now().ends == newMessages
    }

    /**
     What a run leaves behind. The agent's transcript is its snapshot followed by what the run
     produced, prompts first; it played its turns and ended as it should; and the messages it
     completed from a queue, in its course or as prompts drained for it, are credited to that queue.
     */
    twostate predicate RunKept(job: Job, newMessages: seq<AgentMessage>, finished: bool, cancelled: bool,
                               turns: seq<TurnScript>)
      reads this, sink, steering, followUp
    {
      && sink.messages == old(sink.messages) + newMessages
      && Recorded(old(sink.messages), newMessages)
      && RunGrammar.Delivered(sink.log, Prompt) == job.prompts && job.prompts <= newMessages
      && (job.skips ==> RunGrammar.FirstPolled(sink.log) == Some([]))
      && Played(sink.Now(), turns, cancelled)
      && (sink.Now().restarts == 0 ==> sink.Now().faithful)
      && (if finished then sink.Now().phase.Done? && EndedRightly(sink.log, sink.Now().responses)
          else !sink.Now().phase.Done? && |sink.Now().responses| == |turns|)
      && steered == old(steered) + Credit(sink.log, job.origin, Steering)
      && followed == old(followed) + Credit(sink.log, job.origin, FollowUp)
      && (old(Entered()) ==> Entered())
    }

    /** What a run took from the queues itself: delivered, or in hand where it was cut short. */
    twostate predicate Took()
      reads this, sink, steering, followUp
    {
      var p := sink.Now().phase;
      && steering.drained ==
         old(steering.drained) + RunGrammar.Delivered(sink.log, Steering) + RunGrammar.InHand(p, Steering)
      && followUp.drained ==
         old(followUp.drained) + RunGrammar.Delivered(sink.log, FollowUp) + RunGrammar.InHand(p, FollowUp)
    }

    /** The last event of a finished run carries exactly the messages the run produced. */
    lemma LastEventCarries(snapshot: seq<AgentMessage>, newMessages: seq<AgentMessage>)
      requires Recorded(snapshot, newMessages) && sink.Now().phase.Done?
      ensures sink.log != [] && sink.log[|sink.log| - 1] == Emit(Loop, AgentEnd(newMessages))
      ensures sink.log[0] == Emit(Loop, AgentStart)
    {
      hide Next, RunGrammar.TallyOf, RunTheorems.Completed;
      RunGrammar.WholeRun(snapshot, sink.init.reasoning, sink.log);
      RunTheorems.Bookkeeping(snapshot, sink.init.reasoning, sink.log);
    }

    /** Book the deliveries of the run that has just ended: nothing is credited that its log does not show. */
    ghost method CloseBooks(snapshot: seq<AgentMessage>, newMessages: seq<AgentMessage>, origin: Source,
                            sd: seq<AgentMessage>, fd: seq<AgentMessage>)
      requires sink.Valid() && Recorded(snapshot, newMessages) && sink.start.messages == snapshot
      requires steering.drained == sd + sink.Now().steered && followUp.drained == fd + sink.Now().followed
      modifies this`steered, this`followed
      ensures sink.messages == snapshot + newMessages
      ensures sink.Now().prompted == RunGrammar.Delivered(sink.log, Prompt)
      ensures sink.Now().opening == RunGrammar.FirstPolled(sink.log)
      ensures steered == old(steered) + Credit(sink.log, origin, Steering)
      ensures followed == old(followed) + Credit(sink.log, origin, FollowUp)
      ensures multiset(Credit(sink.log, origin, Steering)) + multiset(Credit(sink.log, origin, FollowUp))
              <= multiset(newMessages)
      ensures var p := sink.Now().phase;
        && steering.drained == sd + RunGrammar.Delivered(sink.log, Steering) + RunGrammar.InHand(p, Steering)
        && followUp.drained == fd + RunGrammar.Delivered(sink.log, FollowUp) + RunGrammar.InHand(p, FollowUp)
    {
      hide Next, RunGrammar.Delivered, RunGrammar.InHand, RunGrammar.Polled, RunGrammar.Wrapped, RunTheorems.Completed;
      RunTheorems.TranscriptAgreement(snapshot, sink.init.reasoning, sink.log, sink.start);
      RunGrammar.DeliveredInOrder(snapshot, sink.init.reasoning, sink.log, Steering);
      RunGrammar.DeliveredInOrder(snapshot, sink.init.reasoning, sink.log, FollowUp);
      RunGrammar.PromptsAndResponses(snapshot, sink.init.reasoning, sink.log);
      RunGrammar.OpeningIsFirst(snapshot, sink.init.reasoning, sink.log);
      CreditIsCompleted(sink.log, origin);
      steered := steered + Credit(sink.log, origin, Steering);
      followed := followed + Credit(sink.log, origin, FollowUp);
    }

    /** The executor: a snapshot of the context and a fresh configuration, then either entry point of the loop. */
    method Execute(prompts: Option<seq<AgentMessage>>, skipInitialPoll: bool, turns: seq<TurnScript>, token: Token)
      returns (newMessages: seq<AgentMessage>, finished: bool)
      requires Valid() && sink.Valid() && sink.Now() == Initial(sink.messages, CreateLoopConfig().reasoning)
      requires prompts.None? ==> ContinueGuard(sink.messages).None?
      modifies token, sink`messages, sink`streamingMessage, sink`pendingToolCalls, sink`errorMessage, sink`log
      modifies steering`messages, steering`given, steering`drained, followUp`messages, followUp`given, followUp`drained
      ensures Valid() && sink.Valid()
      ensures var now := sink.Now();
        && now.base == old(sink.messages) && now.ends == newMessages && !now.phase.Violation?
        && now.prompted == prompts.GetOr([]) && prompts.GetOr([]) <= newMessages
        && (skipInitialPoll ==> now.opening == Some([]))
        && Played(now, turns, token.cancelled) && (now.restarts == 0 ==> now.faithful)
        && (if finished then now.phase.Done? && Over(sink.log, old(CreateLoopConfig()), turns, now.responses)
            else !now.phase.Done? && |now.responses| == |turns|)
        && steering.drained == old(steering.drained) + now.steered
        && followUp.drained == old(followUp.drained) + now.followed
    {
      hide Run, Fold, Next, Played, Agree, Over, WentOn;
      ghost var snapshot := sink.messages;
      var config := CreateLoopConfig();
      var ctx := new AgentContext(sink.messages, Some(tools));
      var hook := new QueueHook(steering, skipInitialPoll);
      ghost var replaced: bool;
      match prompts {
        case Some(messages) =>
          newMessages, finished, replaced := RunAgentLoop(messages, ctx, config, token, sink, hook, followUp, turns);
        case None =>
          var error;
          error, newMessages, finished, replaced :=
            RunAgentLoopContinue(ctx, config, token, sink, hook, followUp, turns);
      }
      AgreementForAgent(Point(sink.Now(), ctx.messages), Ledger(snapshot, newMessages, replaced), config, turns);
    }

    /** `run_with_lifecycle`: whatever the executor does, the run is closed and the agent is at rest. */
    method RunWithLifecycle(prompts: Option<seq<AgentMessage>>, skipInitialPoll: bool, turns: seq<TurnScript>,
                            ghost origin: Source)
      returns (newMessages: seq<AgentMessage>, finished: bool, ghost cancelled: bool)
      requires Valid() && activeRun == null
      requires prompts.None? ==> ContinueGuard(sink.messages).None?
      modifies this, sink, steering, followUp
      ensures Valid() && AtRest() && tools == old(tools)
      ensures RunKept(Job(prompts.GetOr([]), origin, skipInitialPoll), newMessages, finished, cancelled, turns)
      ensures Took() && lastRun != null && fresh(lastRun) && cancelled == lastRun.cancelled
    {
      hide Run, Fold, Next, Played, Over, EndedRightly, Credit, ContinueGuard;
      hide RunGrammar.Delivered, RunGrammar.InHand;
      ghost var snapshot, sd, fd := sink.messages, steering.drained, followUp.drained;
      ghost var config := CreateLoopConfig();
      var token := BeginRun();
      newMessages, finished := Execute(prompts, skipInitialPoll, turns, token);
      cancelled := token.cancelled;
      CloseBooks(snapshot, newMessages, origin, sd, fd);
      if finished {
        EndsRightly(snapshot, sink.init.reasoning, sink.log, config, turns);
      }
      FinishRun();
    }

    /** `origin` says where the messages come from: the caller (Prompt), or the queue they were drained from. */
    method RunPromptMessages(messages: seq<AgentMessage>, skipInitialPoll: bool, turns: seq<TurnScript>,
                             ghost origin: Source)
      returns (outcome: Outcome, ghost cancelled: bool)
      requires Valid()
      modifies this, sink, steering, followUp
      ensures Valid() && tools == old(tools)
      ensures old(activeRun) != null ==> outcome == Rejected(BusyPrompt)
      ensures old(activeRun) == null ==>
                && outcome.Ran? && AtRest()
                && RunKept(Job(messages, origin, skipInitialPoll), outcome.produced, outcome.finished, cancelled, turns)
                && Took() && lastRun != null && fresh(lastRun) && cancelled == lastRun.cancelled
      ensures old(Owing(Job(messages, origin, skipInitialPoll))) && outcome.Ran? && outcome.finished ==> Conserved()
      ensures outcome.Rejected? ==> activeRun == old(activeRun) && isStreaming == old(isStreaming)
                                    && sink.Seen() == old(sink.Seen()) && steering.drained == old(steering.drained)
                                    && followUp.drained == old(followUp.drained)
    {
      hide Run, Fold, Next, Played, EndedRightly, RunGrammar.Delivered, RunGrammar.InHand;
      cancelled := false;
      if activeRun != null {
        return Rejected(BusyPrompt), cancelled;
      }
      var newMessages, finished;
      newMessages, finished, cancelled := RunWithLifecycle(Some(messages), skipInitialPoll, turns, origin);
      RunGrammar.NothingInHand(sink.Now().phase, Steering);
      RunGrammar.NothingInHand(sink.Now().phase, FollowUp);
      CreditSettles(sink.log, Job(messages, origin, skipInitialPoll), old(steered), old(followed));
      outcome := Ran(finished, newMessages);
    }

    /** Continue from a transcript whose last message is not the assistant's. */
    method RunContinuation(turns: seq<TurnScript>) returns (outcome: Outcome, ghost cancelled: bool)
      requires Valid() && activeRun == null
      requires ContinueGuard(sink.messages).None?
      modifies this, sink, steering, followUp
      ensures Valid() && AtRest() && tools == old(tools)
      ensures outcome.Ran? && Took() && lastRun != null && fresh(lastRun) && cancelled == lastRun.cancelled
      ensures RunKept(Job([], Prompt, false), outcome.produced, outcome.finished, cancelled, turns)
      ensures old(Conserved()) && outcome.finished ==> Conserved()
    {
      hide Run, Fold, Next, Played, EndedRightly, RunGrammar.Delivered, RunGrammar.InHand;
      var newMessages, finished;
      newMessages, finished, cancelled := RunWithLifecycle(None, false, turns, Prompt);
      RunGrammar.NothingInHand(sink.Now().phase, Steering);
      RunGrammar.NothingInHand(sink.Now().phase, FollowUp);
      CreditSettles(sink.log, Job([], Prompt, false), old(steered), old(followed));
      outcome := Ran(finished, newMessages);
    }

    /**
     `continue`: from an assistant tail the queues are asked first, steering before follow-ups,
     and what they hand over becomes the prompts of the run.
     */
    method ContinueRun(turns: seq<TurnScript>) returns (outcome: Outcome, ghost job: Job, ghost cancelled: bool)
      requires Valid()
      modifies this, sink, steering, followUp
      ensures Valid() && tools == old(tools)
      ensures outcome.Ran? <==> old(ContinueVerdict()).None?
      ensures outcome.Rejected? ==>
                && activeRun == old(activeRun) && sink.Seen() == old(sink.Seen())
                && steering.messages == old(steering.messages) && followUp.messages == old(followUp.messages)
                && steered == old(steered) && followed == old(followed)
                && Some(outcome.error) == old(ContinueVerdict())
      ensures outcome.Ran? ==>
                && job == old(ContinueJob()) && AtRest()
                && RunKept(job, outcome.produced, outcome.finished, cancelled, turns)
                && lastRun != null && fresh(lastRun) && cancelled == lastRun.cancelled
      ensures old(Conserved()) && (outcome.Ran? ==> outcome.finished) ==> Conserved()
    {
      hide Run, Fold, Next, Played, EndedRightly, Credit, Recorded, Took, Entered, RunGrammar.Delivered;
      hide RunGrammar.InHand, RunGrammar.FirstPolled, Front;
      job, cancelled := ContinueJob(), false;
      if activeRun != null {
        return Rejected(BusyContinue), job, cancelled;
      }
      if sink.messages == [] {
        return Rejected(NothingToContinue), job, cancelled;
      }
      if sink.messages[|sink.messages| - 1].Assistant? {
        var queuedSteering := steering.Drain();
        if queuedSteering != [] {
          outcome, cancelled := RunPromptMessages(queuedSteering, true, turns, Steering);
        } else {
          var queuedFollowUps := followUp.Drain();
          if queuedFollowUps == [] {
            return Rejected(ContinueFromAssistant), job, cancelled;
          }
          outcome, cancelled := RunPromptMessages(queuedFollowUps, false, turns, FollowUp);
        }
      } else {
        outcome, cancelled := RunContinuation(turns);
      }
    }

    /** What `continue` would start from: the front of the steering queue, else of the follow-ups, else nothing. */
    ghost function ContinueJob(): Job
      reads this, sink, steering, followUp
    {
      if sink.messages == [] || !sink.messages[|sink.messages| - 1].Assistant? then Job([], Prompt, false)
      else if steering.messages != [] then Job(Front(steering.mode, steering.messages), Steering, true)
      else Job(Front(followUp.mode, followUp.messages), FollowUp, false)
    }

    /** Why `continue` would refuse, if it would. */
    ghost function ContinueVerdict(): Option<AgentError>
      reads this, sink, steering, followUp
    {
      if activeRun != null then Some(BusyContinue)
      else if sink.messages == [] then Some(NothingToContinue)
      else if sink.messages[|sink.messages| - 1].Assistant? && steering.messages == [] && followUp.messages == []
      then Some(ContinueFromAssistant)
      else None
    }
  }

  /** What a run has completed of a queue's messages: the ones it polled, after those it was given as prompts. */
  function Credit(log: seq<Step>, origin: Source, queue: Source): seq<AgentMessage> {
    (if origin == queue then RunGrammar.Delivered(log, Prompt) else []) + RunGrammar.Delivered(log, queue)
  }

  lemma CreditSettles(log: seq<Step>, job: Job, steered: seq<AgentMessage>, followed: seq<AgentMessage>)
    requires RunGrammar.Delivered(log, Prompt) == job.prompts
    ensures steered + (if job.origin == Steering then job.prompts else []) + RunGrammar.Delivered(log, Steering)
            == steered + Credit(log, job.origin, Steering)
    ensures followed + (if job.origin == FollowUp then job.prompts else []) + RunGrammar.Delivered(log, FollowUp)
            == followed + Credit(log, job.origin, FollowUp)
    ensures forall s: seq<AgentMessage> :: s + [] == s
  {
    hide RunGrammar.Delivered;
  }

  lemma CreditIsCompleted(log: seq<Step>, origin: Source)
    ensures multiset(Credit(log, origin, Steering)) + multiset(Credit(log, origin, FollowUp))
            <= multiset(RunTheorems.Completed(log))
  {
    hide RunGrammar.Delivered, RunTheorems.Completed;
    RunGrammar.DeliveredIsCompleted(log);
  }

  /**
   How the agent's runs end, having no stop hook: after the first turn that failed or was
   aborted; otherwise when no tool call of the last turn wanted to continue and the steering
   queue and then the follow-up queue were found empty.
   */
  ghost predicate EndedRightly(log: seq<Step>, responses: seq<AssistantMessage>) {
    && responses != []
    && (forall j :: 0 <= j < |responses| - 1 ==> !StopsRun(responses[j].stopReason))
    && if StopsRun(responses[|responses| - 1].stopReason) then RunGrammar.EndsAfterError(log)
       else RanDry(log) && !RunGrammar.CallsContinue(log[..|log| - 3])
  }

  lemma EndsRightly(base: seq<AgentMessage>, r: Option<ThinkingLevel>, log: seq<Step>, config: LoopConfig,
                    turns: seq<TurnScript>)
    requires RunTheorems.Accepted(base, r, log) && RunTheorems.After(base, r, log).phase.Done?
    requires !config.hasStop && Over(log, config, turns, RunTheorems.After(base, r, log).responses)
    ensures EndedRightly(log, RunTheorems.After(base, r, log).responses)
  {
    hide Run, Next, RunGrammar.CallsContinue;
    RunGrammar.HowRunsEnd(base, r, log);
    var responses := RunTheorems.After(base, r, log).responses;
    var n := |responses| - 1;
    forall j | 0 <= j < n
      ensures GoesOn(config, turns[j], responses[j])
    {
      assert responses[..n][j] == responses[j];
    }
    assert GoesOn(config, turns[n], responses[n]) <==> WentOn(config, turns, responses);
  }

  /** The agent never replaces a context mid-run, so a restart-free run is faithful. */
  lemma AgreementForAgent(at: Point, l: Ledger, config: LoopConfig, turns: seq<TurnScript>)
    requires Agree(at, l) && !config.hasPrepare
    requires l.replaced ==> SomeReplacement(config, turns)
    ensures at.state.base == l.base && at.state.ends == l.newMessages
    ensures at.messages == l.base + l.newMessages <==> at.state.restarts == 0
    ensures at.state.restarts == 0 ==> at.state.faithful
  {
  }
}
