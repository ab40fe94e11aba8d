/**
 The single-active-run guard, lock by lock. Any number of callers prompt, continue, abort,
 re-enter from a listener or drop their future; every interleaving of their critical sections
 is a sequence of actions. One action is what happens under one acquisition of one lock.
 */
module RunGuard {
  import opened Options
  import opened AgentTypes
  import opened AgentState

  type Caller = nat

  datatype Ending = Finished | BusyPrompt | BusyContinue | Busy | NothingToContinue | ContinueFromAssistant | Panicked

  /** Where a call to `prompt` or `continue` stands. */
  datatype Pc =
    | Asking          // prompt: look whether a run is active
    | AskingContinue  // continue: look whether a run is active
    | ReadingTail     // continue: look at the last message
    | Draining        // continue: ask the queues
    | Claiming        // take the active-run slot
    | Fetching        // read the token back out of the slot
    | Marking         // flip the streaming state on
    | Executing       // the run itself, between two events
    | Signalling      // an event was folded in; read the token for the listeners
    | Resetting       // leaving: flip the streaming state off
    | Releasing       // leaving: empty the slot
    | Ended(how: Ending)

  datatype Shared = Shared(
    callers: map<Caller, Pc>,
    activeRun: Option<Caller>,
    isStreaming: bool,
    view: View,
    cancelled: set<Caller>,
    started: set<Caller>)

  datatype Tail = NoTail | AssistantTail | OtherTail

  datatype Action =
    | Prompt(c: Caller)
    | Continue(c: Caller)
    | Advance(c: Caller)                    // the next lock of a call that is not in its run
    | SeeTail(c: Caller, tail: Tail)
    | Drained(c: Caller, any: bool)
    | EmitEvent(c: Caller, event: AgentEvent)
    | Leave(c: Caller)                      // the executor returned, or its future was dropped
    | Abort

  function Start(messages: seq<AgentMessage>): Shared {
    Shared(map[], None, false, View(messages, None, {}, None), {}, {})
  }

  function At(s: Shared, c: Caller, pc: Pc): Shared {
    s.(callers := s.callers[c := pc])
  }

  /** One action; an action that does not apply changes nothing. */
  function Do(s: Shared, a: Action): (t: Shared)
    ensures s.callers.Keys <= t.callers.Keys
  {
    match a
    case Prompt(c) => if c in s.callers then s else At(s, c, Asking)
    case Continue(c) => if c in s.callers then s else At(s, c, AskingContinue)
    case Advance(c) => if c in s.callers then Progress(s, c, s.callers[c]) else s
    case SeeTail(c, tail) =>
      if c in s.callers && s.callers[c] == ReadingTail then
        At(s, c,
           match tail case NoTail => Ended(NothingToContinue) case AssistantTail => Draining case OtherTail => Claiming)
      else s
    case Drained(c, any) =>
      if c in s.callers && s.callers[c] == Draining
      then At(s, c, if any then Asking else Ended(ContinueFromAssistant)) else s
    case EmitEvent(c, event) =>
      if c in s.callers && s.callers[c] == Executing then At(s, c, Signalling).(view := Reduce(s.view, event)) else s
    case Leave(c) =>
      if c in s.callers && s.callers[c] in {Executing, Signalling} then At(s, c, Resetting) else s
    case Abort => if s.activeRun.Some? then s.(cancelled := s.cancelled + {s.activeRun.value}) else s
  }

  function Progress(s: Shared, c: Caller, pc: Pc): Shared {
    match pc
    case Asking => At(s, c, if s.activeRun.Some? then Ended(BusyPrompt) else Claiming)
    case AskingContinue => At(s, c, if s.activeRun.Some? then Ended(BusyContinue) else ReadingTail)
    case Claiming =>
      if s.activeRun.Some? then At(s, c, Ended(Busy))
      else At(s, c, Fetching).(activeRun := Some(c), started := s.started + {c})
    case Fetching => At(s, c, if s.activeRun.Some? then Marking else Ended(Panicked))
    case Marking => At(s, c, Executing).(isStreaming := true, view := s.view.(streaming := None, error := None))
    case Signalling => At(s, c, Executing)
    case Resetting => At(s, c, Releasing).(isStreaming := false, view := s.view.(streaming := None, pending := {}))
    case Releasing => At(s, c, Ended(Ending.Finished)).(activeRun := None)
    case _ => s
  }

  function RunAll(s: Shared, actions: seq<Action>): (t: Shared)
    ensures s.callers.Keys <= t.callers.Keys
    decreases |actions|
  {
    if actions == [] then s else Do(RunAll(s, actions[..|actions| - 1]), actions[|actions| - 1])
  }

  /** The stretch of a call during which the slot is its own. */
  predicate Owns(pc: Pc) {
    pc in {Fetching, Marking, Executing, Signalling, Resetting, Releasing}
  }

  /** The stretch of a run during which events are folded into the state. */
  predicate Runs(pc: Pc) {
    pc in {Executing, Signalling, Resetting}
  }

  ghost predicate Guarded(s: Shared) {
    // the slot names exactly the caller that owns it
    && (forall c <- s.callers :: Owns(s.callers[c]) <==> s.activeRun == Some(c))
    && (s.activeRun.Some? ==> s.activeRun.value in s.callers)
    // streaming state exists only inside a run
    && (s.isStreaming <==> s.activeRun.Some? && Runs(s.callers[s.activeRun.value]))
    && (!s.isStreaming ==> s.view.streaming == None && s.view.pending == {})
    // only claimed runs started, nobody panicked on an empty slot, and a call that ended without having
    // run was rejected
    && (forall c <- s.callers :: c in s.started <==> Owns(s.callers[c]) || s.callers[c] == Ended(Ending.Finished))
    && (forall c <- s.callers :: s.callers[c] != Ended(Panicked))
    && s.started <= s.callers.Keys
    && s.cancelled <= s.started
  }

  lemma ProgressGuarded(s: Shared, c: Caller)
    requires Guarded(s) && c in s.callers
    ensures Guarded(Progress(s, c, s.callers[c]))
  {
    hide Reduce;
  }

  lemma StepGuarded(s: Shared, a: Action)
    requires Guarded(s)
    ensures Guarded(Do(s, a))
  {
    hide Reduce, Progress;
    if a.Advance? {
      if a.c in s.callers {
        ProgressGuarded(s, a.c);
      }
    }
  }

  lemma {:induction false} AlwaysGuarded(messages: seq<AgentMessage>, actions: seq<Action>)
    ensures Guarded(RunAll(Start(messages), actions))
  {
    if actions != [] {
      AlwaysGuarded(messages, actions[..|actions| - 1]);
      StepGuarded(RunAll(Start(messages), actions[..|actions| - 1]), actions[|actions| - 1]);
    }
  }

  // ---------------------------------------------------------------- what callers get out of it

  /** No active run, no half-streamed message, no tool call in flight. */
  ghost predicate Idle(s: Shared) {
    s.activeRun == None && !s.isStreaming && s.view.streaming == None && s.view.pending == {}
  }

  /** At most one call is inside a run; the flag tells the truth; no run, no residue. */
  lemma OneAtATime(messages: seq<AgentMessage>, actions: seq<Action>, c: Caller, d: Caller)
    ensures var s := RunAll(Start(messages), actions);
      && (c in s.callers && d in s.callers && Owns(s.callers[c]) && Owns(s.callers[d]) ==> c == d)
      && (s.isStreaming ==> s.activeRun.Some?)
      && (s.activeRun == None ==> Idle(s))
      && (c in s.callers && s.callers[c] == Signalling ==> s.activeRun == Some(c))
  {
    AlwaysGuarded(messages, actions);
  }

  /** A call that is turned away never started a run. */
  lemma RejectedStartsNothing(messages: seq<AgentMessage>, actions: seq<Action>, c: Caller)
    ensures var s := RunAll(Start(messages), actions);
      c in s.callers && s.callers[c].Ended? && s.callers[c].how != Ending.Finished ==> c !in s.started
  {
    AlwaysGuarded(messages, actions);
  }

  /** The step that turns a call away touches nothing but that call. */
  lemma RejectionTouchesNothing(s: Shared, a: Action, c: Caller)
    requires c in s.callers && !s.callers[c].Ended?
    requires Do(s, a).callers[c].Ended? && Do(s, a).callers[c].how != Ending.Finished
    ensures Do(s, a) == s.(callers := s.callers[c := Do(s, a).callers[c]])
  {
    hide Reduce;
  }

  predicate ByOthers(c: Caller, actions: seq<Action>) {
    forall k | 0 <= k < |actions| :: actions[k].Abort? || actions[k].c != c
  }

  lemma OtherCannot(s: Shared, c: Caller, a: Action)
    requires Guarded(s) && c in s.callers && (a.Abort? || a.c != c)
    ensures Do(s, a).callers[c] == s.callers[c]
    ensures Owns(s.callers[c]) ==> Do(s, a).activeRun == s.activeRun
  {
    hide Reduce;
  }

  /** Nobody moves another call along, and while a call owns the slot nobody else takes or frees it. */
  lemma {:induction false} OthersCannot(s: Shared, c: Caller, actions: seq<Action>)
    requires Guarded(s) && c in s.callers && ByOthers(c, actions)
    ensures var t := RunAll(s, actions);
      && Guarded(t) && c in t.callers && t.callers[c] == s.callers[c]
      && (Owns(s.callers[c]) ==> t.activeRun == s.activeRun == Some(c))
      && (Owns(s.callers[c]) && !Runs(s.callers[c]) ==> !t.isStreaming)
  {
    hide Do;
    if actions != [] {
      var before := actions[..|actions| - 1];
      assert ByOthers(c, before);
      OthersCannot(s, c, before);
      OtherCannot(RunAll(s, before), c, actions[|actions| - 1]);
      StepGuarded(RunAll(s, before), actions[|actions| - 1]);
    }
  }

  lemma ExitSteps(s: Shared, c: Caller)
    requires Guarded(s) && c in s.callers
    ensures s.callers[c] in {Executing, Signalling} ==>
              Guarded(Do(s, Leave(c))) && Do(s, Leave(c)).callers[c] == Resetting
    ensures s.callers[c] == Resetting ==>
              Guarded(Do(s, Advance(c))) && Do(s, Advance(c)).callers[c] == Releasing
    ensures s.callers[c] == Releasing ==>
              Idle(Do(s, Advance(c))) && Do(s, Advance(c)).callers[c] == Ended(Ending.Finished)
  {
    hide Reduce;
    StepGuarded(s, Leave(c));
    StepGuarded(s, Advance(c));
  }

  /**
   However a run ends (its executor returned, or its future was dropped between two events), and whatever the
   others do meanwhile, the two steps of leaving bring the agent back to rest and free the slot.
   */
  lemma EveryExitIsClean(s: Shared, c: Caller, during: seq<Action>, after: seq<Action>)
    requires Guarded(s) && c in s.callers && s.callers[c] in {Executing, Signalling}
    requires ByOthers(c, during) && ByOthers(c, after)
    ensures var left := RunAll(Do(s, Leave(c)), during);
      var reset := RunAll(Do(left, Advance(c)), after);
      Idle(Do(reset, Advance(c))) && Do(reset, Advance(c)).callers[c] == Ended(Ending.Finished)
  {
    hide *;
    ExitSteps(s, c);
    OthersCannot(Do(s, Leave(c)), c, during);
    var left := RunAll(Do(s, Leave(c)), during);
    ExitSteps(left, c);
    OthersCannot(Do(left, Advance(c)), c, after);
    ExitSteps(RunAll(Do(left, Advance(c)), after), c);
  }

  /** An abort reaches the run that owns the slot, and only that one. */
  lemma AbortReachesTheRun(messages: seq<AgentMessage>, actions: seq<Action>, c: Caller)
    ensures var s := RunAll(Start(messages), actions);
      var t := RunAll(Start(messages), actions + [Abort]);
      && (c in s.callers && Owns(s.callers[c]) ==> t.cancelled == s.cancelled + {c})
      && (c in t.cancelled ==> c in t.started)
  {
    AlwaysGuarded(messages, actions);
    assert (actions + [Abort])[..|actions|] == actions;
    StepGuarded(RunAll(Start(messages), actions), Abort);
  }
}
