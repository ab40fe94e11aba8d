/**
 The agent's own copy of the conversation, rebuilt from the events of a run, together with
 the message queues and the cancellation token a run shares with the rest of the program.
 */
module AgentState {
  import opened Options
  import opened AgentTypes
  import opened AgentProtocol

  /** The part of the agent's state that events change. */
  datatype View = View(
    messages: seq<AgentMessage>,
    streaming: Option<AgentMessage>,
    pending: set<string>,
    error: Option<string>)

  function Reduce(v: View, event: AgentEvent): View {
    match event
    case MessageStart(m) => v.(streaming := Some(m))
    case MessageUpdate(m) => v.(streaming := Some(m))
    case MessageEnd(m) => v.(streaming := None, messages := v.messages + [m])
    case ToolExecutionStart(id, _, _) => v.(pending := v.pending + {id})
    case ToolExecutionEnd(id, _, _, _) => v.(pending := v.pending - {id})
    case TurnEnd(Assistant(a), _) =>
      if a.errorMessage.Some? then v.(error := a.errorMessage) else v
    case AgentEnd(_) => v.(streaming := None)
    case _ => v
  }

  function Fold(v: View, log: seq<Step>): View
    decreases |log|
  {
    if log == [] then v
    else
      var w := Fold(v, log[..|log| - 1]);
      if log[|log| - 1].Emit? then Reduce(w, log[|log| - 1].event) else w
  }

  lemma LogAppend(v: View, g: State, log: seq<Step>, step: Step)
    ensures Run(g, log + [step]) == Next(Run(g, log), step)
    ensures Fold(v, log + [step]) ==
            (if step.Emit? then Reduce(Fold(v, log), step.event) else Fold(v, log))
  {
    assert (log + [step])[..|log|] == log;
  }

  /**
   The event sink of a run: the reducer, and a ghost record of everything that happened.
   `base` and `start` describe the moment the record begins.
   */
  class Sink {
    var messages: seq<AgentMessage>
    var streamingMessage: Option<AgentMessage>
    var pendingToolCalls: set<string>
    var errorMessage: Option<string>

    ghost var log: seq<Step>
    ghost var start: View
    ghost var init: State

    ghost function Seen(): View
      reads this
    {
      View(messages, streamingMessage, pendingToolCalls, errorMessage)
    }

    ghost function Now(): State
      reads this
    {
      Run(init, log)
    }

    ghost predicate Valid()
      reads this
    {
      Seen() == Fold(start, log)
    }

    constructor (messages: seq<AgentMessage>)
      ensures Valid() && Seen() == View(messages, None, {}, None)
      ensures log == [] && init == Initial(messages, None)
    {
      this.messages := messages;
      streamingMessage := None;
      pendingToolCalls := {};
      errorMessage := None;
      log := [];
      start := View(messages, None, {}, None);
      init := Initial(messages, None);
    }

    /** Begin the record of a new run from the transcript as it stands. */
    ghost method Begin(reasoning: Option<ThinkingLevel>)
      modifies this`log, this`start, this`init
      ensures Valid() && log == [] && start == Seen() && Seen() == old(Seen())
      ensures init == Initial(messages, reasoning) && Now() == init
    {
      log, start, init := [], Seen(), Initial(messages, reasoning);
    }

    ghost method Note(step: Step)
      requires Valid() && !step.Emit?
      modifies this`log
      ensures Valid() && Seen() == old(Seen())
      ensures log == old(log) + [step] && Now() == Next(old(Now()), step)
    {
      LogAppend(start, init, log, step);
      log := log + [step];
    }

    /** `process_events`, up to the listeners: fold one event into the state. */
    method Process(ghost src: Source, event: AgentEvent)
      requires Valid()
      modifies this`messages, this`streamingMessage, this`pendingToolCalls, this`errorMessage, this`log
      ensures Valid() && Seen() == Reduce(old(Seen()), event)
      ensures log == old(log) + [Emit(src, event)]
      ensures Now() == Next(old(Now()), Emit(src, event))
    {
      hide Run, Fold, Next;
      match event {
        case MessageStart(m) => streamingMessage := Some(m);
        case MessageUpdate(m) => streamingMessage := Some(m);
        case MessageEnd(m) =>
          streamingMessage := None;
          messages := messages + [m];
        case ToolExecutionStart(id, _, _) => pendingToolCalls := pendingToolCalls + {id};
        case ToolExecutionEnd(id, _, _, _) => pendingToolCalls := pendingToolCalls - {id};
        case TurnEnd(Assistant(a), _) =>
          if a.errorMessage.Some? {
            errorMessage := a.errorMessage;
          }
        case AgentEnd(_) => streamingMessage := None;
        case _ =>
      }
      ghost var step := Emit(src, event);
      LogAppend(start, init, log, step);
      log := log + [step];
    }
  }

  /** A run's cancellation token. Anyone may cancel it at any moment; nobody can undo that. */
  class Token {
    var cancelled: bool

    constructor ()
      ensures !cancelled
    {
      cancelled := false;
    }

    method IsCancelled() returns (c: bool)
      modifies this
      ensures c == cancelled && (old(cancelled) ==> cancelled)
    {
      var now: bool := *;
      cancelled := cancelled || now;
      c := cancelled;
    }
  }

  datatype QueueMode = All | OneAtATime

  /**
   A queue of messages waiting to enter the conversation. `given` is everything ever
   enqueued and `drained` everything ever taken out.
   */
  class PendingMessageQueue {
    var messages: seq<AgentMessage>
    var mode: QueueMode
    ghost var given: seq<AgentMessage>
    ghost var drained: seq<AgentMessage>

    ghost predicate Valid()
      reads this
    {
      given == drained + messages
    }

    constructor (mode: QueueMode)
      ensures Valid() && messages == [] && this.mode == mode && given == drained == []
    {
      messages := [];
      this.mode := mode;
      given, drained := [], [];
    }

    method Enqueue(message: AgentMessage)
      requires Valid()
      modifies this`messages, this`given
      ensures Valid() && messages == old(messages) + [message] && given == old(given) + [message]
    {
      messages := messages + [message];
      given := given + [message];
    }

    /** Others enqueue whatever they like before the queue is next looked at. */
    method Arrivals()
      requires Valid()
      modifies this`messages, this`given
      ensures Valid() && old(given) <= given && drained == old(drained)
    {
      var more: seq<AgentMessage> := *;
      messages := messages + more;
      given := given + more;
    }

    method Drain() returns (got: seq<AgentMessage>)
      requires Valid()
      modifies this`messages, this`drained
      ensures Valid() && drained == old(drained) + got && got + messages == old(messages)
      ensures got == Front(mode, old(messages))
      ensures got == [] <==> old(messages) == []
    {
      match mode {
        case All =>
          got, messages := messages, [];
        case OneAtATime =>
          if messages == [] {
            got := [];
          } else {
            got, messages := [messages[0]], messages[1..];
          }
      }
      drained := drained + got;
    }

    /** Drain the queue as it stands when it is looked at. */
    method Take() returns (got: seq<AgentMessage>)
      requires Valid()
      modifies this`messages, this`given, this`drained
      ensures Valid() && drained == old(drained) + got && old(given) <= given
      ensures got == [] || mode == All ==> messages == []
      ensures mode == OneAtATime ==> |got| <= 1
    {
      Arrivals();
      got := Drain();
    }
  }

  /** What a drain takes: everything, or only the oldest message. */
  function Front(mode: QueueMode, messages: seq<AgentMessage>): (front: seq<AgentMessage>)
    ensures front <= messages && (front == [] <==> messages == [])
  {
    if mode == All || messages == [] then messages else [messages[0]]
  }

  /** The hook a run polls its steering queue through; the first poll may be skipped, once. */
  class QueueHook {
    const queue: PendingMessageQueue
    var skip: bool

    constructor (queue: PendingMessageQueue, skip: bool)
      ensures this.queue == queue && this.skip == skip
    {
      this.queue := queue;
      this.skip := skip;
    }

    method Poll() returns (got: seq<AgentMessage>)
      requires queue.Valid()
      modifies this, queue`messages, queue`given, queue`drained
      ensures queue.Valid() && queue.drained == old(queue.drained) + got && old(queue.given) <= queue.given
      ensures !skip && (old(skip) ==> got == [] && queue.messages == old(queue.messages))
      ensures !old(skip) && (got == [] || queue.mode == All) ==> queue.messages == []
      ensures queue.mode == OneAtATime ==> |got| <= 1
    {
      if skip {
        skip := false;
        return [];
      }
      got := queue.Take();
    }
  }
}
