/**
 The concurrent form of the tool pipeline: prepare in source order, let the calls finish
 in any order, report them in source order again. The last lemmas compare it with the
 sequential form.
 */
module ParallelTools {
  import opened Options
  import opened AgentTypes
  import opened AgentProtocol
  import opened AgentState
  import opened ToolPipeline

  /** A finalized call filed under its position in the assistant message. */
  datatype Slot = Slot(index: nat, finalized: Finalized)

  ghost predicate Distinct(slots: seq<Slot>) {
    forall i, j :: 0 <= i < j < |slots| ==> slots[i].index != slots[j].index
  }

  // ---------------------------------------------------------------- sorting by index

  predicate SortedByIndex(slots: seq<Slot>) {
    forall i, j :: 0 <= i < j < |slots| ==> slots[i].index <= slots[j].index
  }

  /** Where a slot with this index belongs: after every index not above it. */
  function Position(index: nat, slots: seq<Slot>): (p: nat)
    requires SortedByIndex(slots)
    ensures p <= |slots|
    ensures forall i :: 0 <= i < p ==> slots[i].index <= index
    ensures forall i :: p <= i < |slots| ==> index < slots[i].index
  {
    if slots == [] || slots[|slots| - 1].index <= index then |slots|
    else Position(index, slots[..|slots| - 1])
  }

  function Insert(s: Slot, slots: seq<Slot>): (r: seq<Slot>)
    requires SortedByIndex(slots)
    ensures SortedByIndex(r) && |r| == |slots| + 1
    ensures forall i :: 0 <= i < |r| ==> r[i] == s || r[i] in slots
  {
    var p := Position(s.index, slots);
    slots[..p] + [s] + slots[p..]
  }

  lemma InsertDistinct(s: Slot, slots: seq<Slot>)
    requires SortedByIndex(slots) && Distinct(slots) && forall x <- slots :: x.index != s.index
    ensures Distinct(Insert(s, slots))
  {
    var p := Position(s.index, slots);
    var r := Insert(s, slots);
    forall i, j | 0 <= i < j < |r|
      ensures r[i].index != r[j].index
    {
      var a := if i < p then i else i - 1;
      var b := if j < p then j else j - 1;
      if i != p { assert r[i] == slots[a]; }
      if j != p { assert r[j] == slots[b]; }
    }
  }

  /** `sort_by_key` on the index: stable insertion. */
  function SortByIndex(slots: seq<Slot>): (r: seq<Slot>)
    ensures SortedByIndex(r) && |r| == |slots|
  {
    if slots == [] then [] else Insert(slots[|slots| - 1], SortByIndex(slots[..|slots| - 1]))
  }

  lemma SortKeeps(slots: seq<Slot>)
    ensures forall i :: 0 <= i < |slots| ==> SortByIndex(slots)[i] in slots
    ensures Distinct(slots) ==> Distinct(SortByIndex(slots))
  {
    if slots != [] {
      hide Insert;
      var front, s := slots[..|slots| - 1], slots[|slots| - 1];
      var rest := SortByIndex(front);
      SortKeeps(front);
      assert forall x <- rest :: x in front;
      if Distinct(slots) {
        forall x <- rest
          ensures x.index != s.index
        {
          assert x in front;
        }
        InsertDistinct(s, rest);
      }
    }
  }

  /** n sorted slots with different indices below n sit at their own positions. */
  lemma SortedInPlace(slots: seq<Slot>, i: nat)
    requires SortedByIndex(slots) && Distinct(slots) && i < |slots|
    requires forall j :: 0 <= j < |slots| ==> slots[j].index < |slots|
    ensures slots[i].index == i
  {
    AtLeast(slots, i);
    AtMost(slots, i);
  }

  lemma AtLeast(slots: seq<Slot>, i: nat)
    requires SortedByIndex(slots) && Distinct(slots) && i < |slots|
    ensures i <= slots[i].index
  {
    if i > 0 { AtLeast(slots, i - 1); }
  }

  lemma AtMost(slots: seq<Slot>, i: nat)
    requires SortedByIndex(slots) && Distinct(slots) && i < |slots|
    requires forall j :: 0 <= j < |slots| ==> slots[j].index < |slots|
    ensures slots[i].index <= i
    decreases |slots| - i
  {
    if i + 1 < |slots| { AtMost(slots, i + 1); }
  }

  // ---------------------------------------------------------------- a batch in progress

  function DoneOutcomes(settled: seq<Settlement>, done: set<nat>): map<nat, Outcome> {
    map k | k in done && k < |settled| :: settled[k].outcome
  }

  /** Protocol state while the calls in `done` have ended and `messages` were reported. */
  ghost function Underway(g: State, settled: seq<Settlement>, done: set<nat>, messages: seq<ToolResultMessage>): State
    requires g.phase.Settling?
  {
    g.(phase := Settling(g.phase.final, |settled|, DoneOutcomes(settled, done), messages),
       ends := g.ends + Replies(messages))
  }

  function PartOf(k: nat, call: ToolCall, s: Settlement, done: bool, replied: bool): seq<Step> {
    if replied then CallTrace(k, call, s)
    else if done then ExecutionTrace(k, call, s)
    else [StartOf(k, call)]
  }

  ghost predicate Partial(trace: seq<Step>, calls: seq<ToolCall>, settled: seq<Settlement>, done: set<nat>,
                          replied: nat) {
    && |settled| <= |calls|
    && OnlyTools(trace)
    && forall k: nat :: Project(trace, k) ==
                        if k < |settled| then PartOf(k, calls[k], settled[k], k in done, k < replied) else []
  }

  /** Slots agree with what their calls settled with. */
  ghost predicate Filed(slots: seq<Slot>, calls: seq<ToolCall>, settled: seq<Settlement>) {
    && |settled| <= |calls|
    && forall j :: 0 <= j < |slots| ==>
         slots[j].index < |settled|
         && slots[j].finalized == Finalized(calls[slots[j].index], settled[slots[j].index].outcome)
  }

  lemma PartialStart(trace: seq<Step>, calls: seq<ToolCall>, settled: seq<Settlement>, done: set<nat>, s: Settlement)
    requires Partial(trace, calls, settled, done, 0) && |settled| < |calls| && |settled| !in done
    ensures Partial(trace + [StartOf(|settled|, calls[|settled|])], calls, settled + [s], done, 0)
  {
    var n := |settled|;
    ProjectExtend(trace, [StartOf(n, calls[n])], n);
    hide Project, CallTrace, ExecutionTrace, StartOf;
    var begun := trace + [StartOf(n, calls[n])];
    forall k: nat
      ensures Project(begun, k) == if k < n + 1 then PartOf(k, calls[k], (settled + [s])[k], k in done, k < 0) else []
    {
    }
  }

  lemma PartialDone(trace: seq<Step>, calls: seq<ToolCall>, settled: seq<Settlement>, done: set<nat>, k: nat)
    requires Partial(trace, calls, settled, done, 0) && k < |settled| && k !in done
    ensures var more := UpdatesOf(k, calls[k], settled[k].updates) + [EndOf(k, calls[k], settled[k].outcome)];
            Partial(trace + more, calls, settled, done + {k}, 0)
  {
    hide Project, OnlyTools, CallTrace, UpdatesOf;
    var more := UpdatesOf(k, calls[k], settled[k].updates) + [EndOf(k, calls[k], settled[k].outcome)];
    RestIsOwn(k, calls[k], settled[k]);
    ProjectExtend(trace, more, k);
    OnlyToolsExtend(trace, more, k);
    assert ExecutionTrace(k, calls[k], settled[k]) == [StartOf(k, calls[k])] + more;
    hide ExecutionTrace, StartOf, EndOf;
    forall j: nat
      ensures Project(trace + more, j) ==
              if j < |settled| then PartOf(j, calls[j], settled[j], j in done + {k}, false) else []
    {
    }
  }

  lemma RestIsOwn(k: nat, call: ToolCall, s: Settlement)
    ensures var more := UpdatesOf(k, call, s.updates) + [EndOf(k, call, s.outcome)];
      forall i :: 0 <= i < |more| ==> more[i].Emit? && more[i].src == ToolSlot(k)
  {
  }

  lemma PartialReply(trace: seq<Step>, calls: seq<ToolCall>, settled: seq<Settlement>, done: set<nat>, k: nat)
    requires Partial(trace, calls, settled, done, k) && k < |settled| && k in done
    ensures Partial(trace + ReplyOf(k, calls[k], settled[k].outcome), calls, settled, done, k + 1)
  {
    ProjectExtend(trace, ReplyOf(k, calls[k], settled[k].outcome), k);
  }

  // ---------------------------------------------------------------- the three rounds

  /** What the rounds may emit: calls start (and end when refused), run to their end, and are reported. */
  predicate StartsCalls(step: Step) {
    step.Emit? && (step.event.ToolExecutionStart? || step.event.ToolExecutionEnd?)
  }

  predicate RunsCalls(step: Step) {
    step.Emit? && (step.event.ToolExecutionUpdate? || step.event.ToolExecutionEnd?)
  }

  predicate ReportsCalls(step: Step) {
    step.Emit? && (step.event.MessageStart? || step.event.MessageEnd?)
  }

  /** No call runs before every call has started, and none is reported before every call has ended. */
  ghost predicate InRounds(trace: seq<Step>, a: nat, b: nat) {
    && a <= b <= |trace|
    && (forall i :: 0 <= i < a ==> StartsCalls(trace[i]))
    && (forall i :: a <= i < b ==> RunsCalls(trace[i]))
    && (forall i :: b <= i < |trace| ==> ReportsCalls(trace[i]))
  }

  datatype Waiting = Waiting(index: nat, call: ToolCall)

  /** Every started call is either finished and filed, or waiting to run to its end. */
  ghost predicate Pool(config: LoopConfig, calls: seq<ToolCall>, scripts: nat -> CallScript, settled: seq<Settlement>,
                       done: set<nat>, finished: seq<Slot>, waiting: seq<Waiting>) {
    && |settled| <= |calls|
    && |finished| + |waiting| == |settled|
    && (forall k <- done :: k < |settled|)
    && Filed(finished, calls, settled) && Distinct(finished)
    && (forall j :: 0 <= j < |finished| ==> finished[j].index in done)
    && (forall j :: 0 <= j < |waiting| ==> Waits(waiting[j], config, calls, scripts, settled, done))
    && (forall i, j :: 0 <= i < j < |waiting| ==> waiting[i].index != waiting[j].index)
  }

  ghost predicate Waits(w: Waiting, config: LoopConfig, calls: seq<ToolCall>, scripts: nat -> CallScript,
                        settled: seq<Settlement>, done: set<nat>)
    requires |settled| <= |calls|
  {
    && w.index < |settled| && w.index !in done
    && w.call == calls[w.index]
    && settled[w.index] == Carried(config, scripts(w.index))
  }

  lemma PoolImmediate(config: LoopConfig, calls: seq<ToolCall>, scripts: nat -> CallScript, settled: seq<Settlement>,
                      done: set<nat>, finished: seq<Slot>, waiting: seq<Waiting>, s: Settlement)
    requires Pool(config, calls, scripts, settled, done, finished, waiting) && |settled| < |calls|
    ensures var n := |settled|;
            Pool(config, calls, scripts, settled + [s], done + {n},
                 finished + [Slot(n, Finalized(calls[n], s.outcome))], waiting)
  {
  }

  lemma PoolDeferred(config: LoopConfig, calls: seq<ToolCall>, scripts: nat -> CallScript, settled: seq<Settlement>,
                     done: set<nat>, finished: seq<Slot>, waiting: seq<Waiting>)
    requires Pool(config, calls, scripts, settled, done, finished, waiting) && |settled| < |calls|
    ensures var n := |settled|;
            Pool(config, calls, scripts, settled + [Carried(config, scripts(n))], done, finished,
                 waiting + [Waiting(n, calls[n])])
  {
    hide Carried;
  }

  lemma PoolCompleted(config: LoopConfig, calls: seq<ToolCall>, scripts: nat -> CallScript, settled: seq<Settlement>,
                      done: set<nat>, finished: seq<Slot>, waiting: seq<Waiting>, j: nat)
    requires Pool(config, calls, scripts, settled, done, finished, waiting) && j < |waiting|
    ensures var k := waiting[j].index;
            Pool(config, calls, scripts, settled, done + {k},
                 finished + [Slot(k, Finalized(calls[k], settled[k].outcome))], waiting[..j] + waiting[j + 1..])
  {
    hide Carried;
    var k := waiting[j].index;
    var left := waiting[..j] + waiting[j + 1..];
    forall i | 0 <= i < |left|
      ensures Waits(left[i], config, calls, scripts, settled, done + {k})
    {
      assert left[i] == waiting[if i < j then i else i + 1];
    }
    forall a, b | 0 <= a < b < |left|
      ensures left[a].index != left[b].index
    {
      assert left[a] == waiting[if a < j then a else a + 1];
      assert left[b] == waiting[if b < j then b else b + 1];
    }
  }

  /** Starting a call, and ending it at once when it was refused. */
  lemma UnderwayStart(g: State, settled: seq<Settlement>, done: set<nat>, s: Settlement)
    requires g.phase.Settling? && forall k <- done :: k < |settled|
    ensures var h := Underway(g, settled, done, []); var n := |settled|;
            && n !in h.phase.outcomes
            && Underway(g, settled + [s], done, []) == h.(phase := Settling(g.phase.final, n + 1, h.phase.outcomes, []))
            && Underway(g, settled + [s], done + {n}, []) ==
               h.(phase := Settling(g.phase.final, n + 1, h.phase.outcomes[n := s.outcome], []))
  {
    var n := |settled|;
    assert DoneOutcomes(settled + [s], done) == DoneOutcomes(settled, done);
    assert DoneOutcomes(settled + [s], done + {n}) == DoneOutcomes(settled, done)[n := s.outcome];
  }

  lemma UnderwayEnd(g: State, settled: seq<Settlement>, done: set<nat>, k: nat)
    requires g.phase.Settling? && k < |settled| && k !in done
    ensures var h := Underway(g, settled, done, []);
            && k !in h.phase.outcomes
            && Underway(g, settled, done + {k}, []) ==
               h.(phase := Settling(g.phase.final, |settled|, h.phase.outcomes[k := settled[k].outcome], []))
  {
    assert DoneOutcomes(settled, done + {k}) == DoneOutcomes(settled, done)[k := settled[k].outcome];
  }

  lemma HonestGrows(tools: Option<seq<Tool>>, config: LoopConfig, calls: seq<ToolCall>, scripts: nat -> CallScript,
                    before: bool, cancelled: bool, settled: seq<Settlement>, s: Settlement)
    requires Honest(tools, config, calls, scripts, before, settled) && (before ==> cancelled)
    requires |settled| < |calls| && MaySettle(tools, config, calls[|settled|], scripts(|settled|), s)
    requires !cancelled ==> s == Settled(tools, config, calls[|settled|], scripts(|settled|))
    ensures Honest(tools, config, calls, scripts, cancelled, settled + [s])
  {
    hide Settled;
  }

  lemma HonestLater(tools: Option<seq<Tool>>, config: LoopConfig, calls: seq<ToolCall>, scripts: nat -> CallScript,
                    before: bool, cancelled: bool, settled: seq<Settlement>)
    requires Honest(tools, config, calls, scripts, before, settled) && (before ==> cancelled)
    ensures Honest(tools, config, calls, scripts, cancelled, settled)
  {
    hide Settled;
  }

  /** Start one call and prepare it; a refused call ends at once. */
  method BeginCall(k: nat, tools: Option<seq<Tool>>, config: LoopConfig, call: ToolCall, script: CallScript,
                   token: Token, sink: Sink)
    returns (preparation: Preparation, ghost s: Settlement)
    requires sink.Valid() && sink.Now().phase.Settling?
    requires var p := sink.Now().phase;
             p.started == k && k !in p.outcomes && k < |Calls(p.final)| && call == Calls(p.final)[k]
    modifies token, sink`messages, sink`streamingMessage, sink`pendingToolCalls, sink`errorMessage, sink`log
    ensures sink.Valid() && (old(token.cancelled) ==> token.cancelled)
    ensures MaySettle(tools, config, call, script, s)
    ensures !token.cancelled ==> s == Settled(tools, config, call, script)
    ensures preparation.Prepared? ==> s == Carried(config, script) && preparation.toolCall == call
    ensures preparation.Refused? ==> s == Settlement([], preparation.outcome)
    ensures sink.log == old(sink.log) + [StartOf(k, call)] + if preparation.Refused? then [EndOf(k, call, s.outcome)]
            else []
    ensures var g := old(sink.Now()); var p := g.phase;
            sink.Now() == g.(phase := Settling(p.final, k + 1,
                                               if preparation.Refused? then p.outcomes[k := s.outcome] else p.outcomes,
                                               p.replies))
  {
    hide Run, Fold, Next, Settled, Finalize, StartOf, EndOf;
    EmitStart(k, call, sink);
    preparation := PrepareToolCall(tools, config, call, script, token);
    match preparation {
      case Refused(outcome) =>
        EmitEnd(k, call, outcome, sink);
        s := Settlement([], outcome);
      case Prepared(_) =>
        s := Carried(config, script);
    }
  }

  method PrepareRound(tools: Option<seq<Tool>>, config: LoopConfig, ghost final: AssistantMessage,
                      calls: seq<ToolCall>, scripts: nat -> CallScript, token: Token, sink: Sink)
    returns (immediates: seq<Slot>, deferred: seq<Waiting>, ghost settled: seq<Settlement>, ghost done: set<nat>,
             ghost trace: seq<Step>)
    requires sink.Valid() && sink.Now().phase == Settling(final, 0, map[], [])
    requires calls == Calls(final) && calls != []
    modifies token, sink`messages, sink`streamingMessage, sink`pendingToolCalls, sink`errorMessage, sink`log
    ensures sink.Valid() && (old(token.cancelled) ==> token.cancelled)
    ensures sink.log == old(sink.log) + trace && Partial(trace, calls, settled, done, 0)
    ensures sink.Now() == Underway(old(sink.Now()), settled, done, [])
    ensures Pool(config, calls, scripts, settled, done, immediates, deferred)
    ensures Honest(tools, config, calls, scripts, token.cancelled, settled)
    ensures settled != [] && (!token.cancelled ==> |settled| == |calls|)
    ensures forall t <- trace :: StartsCalls(t)
  {
    hide Run, Fold, Next, Calls, Partial, Pool, Honest, Settled, MaySettle, Replies, DoneOutcomes, StartOf, EndOf;
    hide Carried;
    immediates, deferred, settled, done, trace := [], [], [], {}, [];
    ghost var g := old(sink.Now());
    EmptyRound(tools, config, calls, scripts, token.cancelled, g);
    var i := 0;
    while i < |calls|
      invariant 0 <= i == |settled| <= |calls|
      invariant forall k <- done :: k < i
      invariant sink.Valid() && (old(token.cancelled) ==> token.cancelled)
      invariant sink.log == old(sink.log) + trace && Partial(trace, calls, settled, done, 0)
      invariant sink.Now() == Underway(g, settled, done, [])
      invariant Pool(config, calls, scripts, settled, done, immediates, deferred)
      invariant Honest(tools, config, calls, scripts, token.cancelled, settled)
      invariant forall t <- trace :: StartsCalls(t)
    {
      ghost var before := token.cancelled;
      EventsOf(i, calls[i], ABORTED);
      UnderwayStart(g, settled, done, ABORTED);
      var preparation, s := BeginCall(i, tools, config, calls[i], scripts(i), token, sink);
      HonestGrows(tools, config, calls, scripts, before, token.cancelled, settled, s);
      UnderwayStart(g, settled, done, s);
      PartialStart(trace, calls, settled, done, s);
      EventsOf(i, calls[i], s);
      match preparation {
        case Refused(outcome) =>
          PoolImmediate(config, calls, scripts, settled, done, immediates, deferred, s);
          PartialRefused(trace + [StartOf(i, calls[i])], calls, settled + [s], done, i);
          immediates := immediates + [Slot(i, Finalized(calls[i], outcome))];
          done, trace := done + {i}, trace + [StartOf(i, calls[i])] + [EndOf(i, calls[i], outcome)];
        case Prepared(call) =>
          PoolDeferred(config, calls, scripts, settled, done, immediates, deferred);
          deferred := deferred + [Waiting(i, call)];
          trace := trace + [StartOf(i, calls[i])];
      }
      settled := settled + [s];
      i := i + 1;
      before := token.cancelled;
      var c := token.IsCancelled();
      HonestLater(tools, config, calls, scripts, before, token.cancelled, settled);
      if c {
        break;
      }
    }
  }

  lemma EventsOf(k: nat, call: ToolCall, s: Settlement)
    ensures StartsCalls(StartOf(k, call)) && StartsCalls(EndOf(k, call, s.outcome))
    ensures forall t <- UpdatesOf(k, call, s.updates) + [EndOf(k, call, s.outcome)] :: RunsCalls(t)
    ensures forall t <- ReplyOf(k, call, s.outcome) :: ReportsCalls(t)
  {
  }

  lemma EmptyRound(tools: Option<seq<Tool>>, config: LoopConfig, calls: seq<ToolCall>, scripts: nat -> CallScript,
                   cancelled: bool, g: State)
    requires g.phase.Settling? && g.phase.started == 0 && g.phase.outcomes == map[] && g.phase.replies == []
    ensures Partial([], calls, [], {}, 0) && Pool(config, calls, scripts, [], {}, [], [])
    ensures Honest(tools, config, calls, scripts, cancelled, []) && Underway(g, [], {}, []) == g
  {
    assert DoneOutcomes([], {}) == map[] && Replies([]) == [];
  }

  lemma PartialRefused(trace: seq<Step>, calls: seq<ToolCall>, settled: seq<Settlement>, done: set<nat>, k: nat)
    requires Partial(trace, calls, settled, done, 0) && k < |settled| && k !in done && settled[k].updates == []
    ensures Partial(trace + [EndOf(k, calls[k], settled[k].outcome)], calls, settled, done + {k}, 0)
  {
    PartialDone(trace, calls, settled, done, k);
    assert UpdatesOf(k, calls[k], []) + [EndOf(k, calls[k], settled[k].outcome)] ==
        [EndOf(k, calls[k], settled[k].outcome)];
  }

  /** The waiting calls finish in an order nobody controls. */
  method CompleteRound(config: LoopConfig, ghost final: AssistantMessage, calls: seq<ToolCall>,
                       scripts: nat -> CallScript, immediates: seq<Slot>, deferred: seq<Waiting>, sink: Sink,
                       ghost g: State, ghost settled: seq<Settlement>, ghost done0: set<nat>, ghost trace0: seq<Step>)
    returns (ordered: seq<Slot>, ghost done: set<nat>, ghost trace: seq<Step>)
    requires g.phase.Settling? && g.phase.final == final && calls == Calls(final)
    requires sink.Valid() && sink.Now() == Underway(g, settled, done0, []) && Partial(trace0, calls, settled, done0, 0)
    requires Pool(config, calls, scripts, settled, done0, immediates, deferred)
    modifies sink`messages, sink`streamingMessage, sink`pendingToolCalls, sink`errorMessage, sink`log
    ensures sink.Valid() && sink.log == old(sink.log) + trace && Partial(trace0 + trace, calls, settled, done, 0)
    ensures sink.Now() == Underway(g, settled, done, [])
    ensures Pool(config, calls, scripts, settled, done, ordered, [])
    ensures SortedByIndex(ordered) && forall t <- trace :: RunsCalls(t)
  {
    hide Run, Fold, Next, Calls, Partial, Pool, Waits, Replies, DoneOutcomes, UpdatesOf, EndOf, Carried;
    hide SortByIndex, SortedByIndex;
    var futures := deferred;
    var completed: seq<Slot> := [];
    done, trace := done0, [];
    assert immediates + completed == immediates && trace0 + trace == trace0 && sink.log + trace == sink.log;
    while futures != []
      invariant sink.Valid() && sink.log == old(sink.log) + trace && Partial(trace0 + trace, calls, settled, done, 0)
      invariant sink.Now() == Underway(g, settled, done, [])
      invariant Pool(config, calls, scripts, settled, done, immediates + completed, futures)
      invariant forall t <- trace :: RunsCalls(t)
      decreases |futures|
    {
      var j :| 0 <= j < |futures|;
      var k, call := futures[j].index, futures[j].call;
      PoolWaits(config, calls, scripts, settled, done, immediates + completed, futures, j);
      UnderwayEnd(g, settled, done, k);
      PartialDone(trace0 + trace, calls, settled, done, k);
      PoolCompleted(config, calls, scripts, settled, done, immediates + completed, futures, j);
      EmitUpdates(k, call, scripts(k).updates, sink);
      var finalized := Finalized(call, Finalize(config, scripts(k), Executed(scripts(k).execution)));
      EmitEnd(k, call, finalized.outcome, sink);
      ghost var more := UpdatesOf(k, call, scripts(k).updates) + [EndOf(k, call, finalized.outcome)];
      EventsOf(k, call, Settlement(scripts(k).updates, finalized.outcome));
      assert trace0 + (trace + more) == (trace0 + trace) + more;
      assert immediates + (completed + [Slot(k, finalized)]) == (immediates + completed) + [Slot(k, finalized)];
      futures := futures[..j] + futures[j + 1..];
      completed := completed + [Slot(k, finalized)];
      done, trace := done + {k}, trace + more;
    }
    ordered := SortByIndex(immediates + completed);
    PoolSorted(config, calls, scripts, settled, done, immediates + completed);
  }

  lemma PoolWaits(config: LoopConfig, calls: seq<ToolCall>, scripts: nat -> CallScript, settled: seq<Settlement>,
                  done: set<nat>, finished: seq<Slot>, waiting: seq<Waiting>, j: nat)
    requires Pool(config, calls, scripts, settled, done, finished, waiting) && j < |waiting|
    ensures var k := waiting[j].index;
            && k < |settled| <= |calls| && k !in done && waiting[j].call == calls[k]
            && settled[k].updates == scripts(k).updates
            && settled[k].outcome == Finalize(config, scripts(k), Executed(scripts(k).execution))
  {
    assert Waits(waiting[j], config, calls, scripts, settled, done);
  }

  lemma PoolSorted(config: LoopConfig, calls: seq<ToolCall>, scripts: nat -> CallScript, settled: seq<Settlement>,
                   done: set<nat>, finished: seq<Slot>)
    requires Pool(config, calls, scripts, settled, done, finished, [])
    ensures Pool(config, calls, scripts, settled, done, SortByIndex(finished), [])
  {
    SortKeeps(finished);
    var r := SortByIndex(finished);
    forall j | 0 <= j < |r|
      ensures r[j].index < |settled| && r[j].index in done
      ensures r[j].finalized == Finalized(calls[r[j].index], settled[r[j].index].outcome)
    {
      assert r[j] in finished;
    }
  }

  /** Everything finished and sorted: slot i holds call i, and every call has ended. */
  lemma PoolInPlace(config: LoopConfig, calls: seq<ToolCall>, scripts: nat -> CallScript, settled: seq<Settlement>,
                    done: set<nat>, ordered: seq<Slot>)
    requires Pool(config, calls, scripts, settled, done, ordered, []) && SortedByIndex(ordered)
    ensures |ordered| == |settled| && |settled| <= |calls|
    ensures forall i :: 0 <= i < |settled| ==>
              ordered[i].finalized == Finalized(calls[i], settled[i].outcome) && i in done
    ensures DoneOutcomes(settled, done) == Outcomes(settled)
  {
    forall i | 0 <= i < |settled|
      ensures ordered[i].finalized == Finalized(calls[i], settled[i].outcome) && i in done
    {
      SortedInPlace(ordered, i);
    }
  }

  method ReplyRound(config: LoopConfig, ghost final: AssistantMessage, ghost calls: seq<ToolCall>,
                    ghost scripts: nat -> CallScript, ordered: seq<Slot>, sink: Sink,
                    ghost g: State, ghost settled: seq<Settlement>, ghost done: set<nat>, ghost trace0: seq<Step>)
    returns (messages: seq<ToolResultMessage>, terminate: bool, ghost trace: seq<Step>)
    requires g.phase.Settling? && g.phase.final == final && calls == Calls(final)
    requires sink.Valid() && sink.Now() == Underway(g, settled, done, []) && Partial(trace0, calls, settled, done, 0)
    requires Pool(config, calls, scripts, settled, done, ordered, []) && SortedByIndex(ordered)
    modifies sink`messages, sink`streamingMessage, sink`pendingToolCalls, sink`errorMessage, sink`log
    ensures sink.Valid() && sink.log == old(sink.log) + trace
            && Partial(trace0 + trace, calls, settled, done, |settled|)
    ensures sink.Now() == Underway(g, settled, done, messages) && DoneOutcomes(settled, done) == Outcomes(settled)
    ensures Reported(calls, settled, messages) && terminate == Terminating(settled)
    ensures forall t <- trace :: ReportsCalls(t)
  {
    hide Run, Fold, Next, Calls, Partial, Pool, SortedByIndex, ReplyFor, ReplyOf, Terminating, ShouldTerminate;
    PoolInPlace(config, calls, scripts, settled, done, ordered);
    messages, trace := [], [];
    assert trace0 + trace == trace0 && sink.log + trace == sink.log;
    for i := 0 to |ordered|
      invariant |messages| == i && forall k :: 0 <= k < i ==> messages[k] == ReplyFor(calls[k], settled[k].outcome)
      invariant sink.Valid() && sink.log == old(sink.log) + trace && Partial(trace0 + trace, calls, settled, done, i)
      invariant sink.Now() == Underway(g, settled, done, messages)
      invariant forall t <- trace :: ReportsCalls(t)
    {
      var finalized := ordered[i].finalized;
      PartialReply(trace0 + trace, calls, settled, done, i);
      RepliesGrow(g, settled, done, messages, ReplyFor(calls[i], settled[i].outcome));
      var message := EmitReply(i, finalized.toolCall, finalized.outcome, sink);
      ghost var more := ReplyOf(i, finalized.toolCall, finalized.outcome);
      EventsOf(i, calls[i], settled[i]);
      assert trace0 + (trace + more) == (trace0 + trace) + more;
      messages, trace := messages + [message], trace + more;
    }
    var finalizedCalls := seq(|ordered|, i requires 0 <= i < |ordered| => ordered[i].finalized);
    terminate := ShouldTerminate(finalizedCalls);
    TerminateMatches(calls, settled, finalizedCalls);
  }

  lemma RepliesGrow(g: State, settled: seq<Settlement>, done: set<nat>, messages: seq<ToolResultMessage>,
                    m: ToolResultMessage)
    requires g.phase.Settling?
    ensures var h := Underway(g, settled, done, messages);
            Underway(g, settled, done, messages + [m]) ==
            h.(phase := Settling(g.phase.final, |settled|, h.phase.outcomes, messages + [m]),
               ends := h.ends + [ToolReply(m)])
  {
    assert Replies(messages + [m]) == Replies(messages) + [ToolReply(m)];
    assert g.ends + (Replies(messages) + [ToolReply(m)]) == (g.ends + Replies(messages)) + [ToolReply(m)];
  }

  method ExecuteParallel(tools: Option<seq<Tool>>, config: LoopConfig, ghost final: AssistantMessage,
                         calls: seq<ToolCall>, scripts: nat -> CallScript, token: Token, sink: Sink)
    returns (messages: seq<ToolResultMessage>, terminate: bool, ghost settled: seq<Settlement>, ghost trace: seq<Step>)
    requires sink.Valid() && sink.Now().phase == Settling(final, 0, map[], [])
    requires calls == Calls(final) && calls != []
    modifies token, sink`messages, sink`streamingMessage, sink`pendingToolCalls, sink`errorMessage, sink`log
    ensures sink.Valid() && (old(token.cancelled) ==> token.cancelled)
    ensures sink.log == old(sink.log) + trace
    ensures sink.Now() == AfterBatch(old(sink.Now()), messages, settled)
    ensures Reported(calls, settled, messages) && settled != [] && TraceOf(trace, calls, settled)
    ensures terminate == Terminating(settled)
    ensures Honest(tools, config, calls, scripts, token.cancelled, settled)
    ensures !token.cancelled ==> |settled| == |calls|
    ensures exists a, b :: InRounds(trace, a, b)
  {
    hide Run, Fold, Next, Calls, Partial, Pool, Honest, Terminating, Reported, Replies, DoneOutcomes, Outcomes;
    hide TraceOf, SortedByIndex;
    ghost var g := sink.Now();
    var immediates, deferred, settled', done, trace1 := PrepareRound(tools, config, final, calls, scripts, token, sink);
    settled := settled';
    var ordered, done2, trace2 := CompleteRound(config, final, calls, scripts, immediates, deferred, sink, g, settled,
                                                done, trace1);
    var messages', terminate', trace3 :=
        ReplyRound(config, final, calls, scripts, ordered, sink, g, settled, done2, trace1 + trace2);
    messages, terminate, trace := messages', terminate', trace1 + trace2 + trace3;
    WholeTrace(trace, calls, settled, done2);
    RoundsFollow(trace1, trace2, trace3);
  }

  lemma RoundsFollow(first: seq<Step>, second: seq<Step>, third: seq<Step>)
    requires forall t <- first :: StartsCalls(t)
    requires forall t <- second :: RunsCalls(t)
    requires forall t <- third :: ReportsCalls(t)
    ensures InRounds(first + second + third, |first|, |first| + |second|)
  {
  }

  lemma WholeTrace(trace: seq<Step>, calls: seq<ToolCall>, settled: seq<Settlement>, done: set<nat>)
    requires Partial(trace, calls, settled, done, |settled|)
    ensures TraceOf(trace, calls, settled)
  {
  }
}
