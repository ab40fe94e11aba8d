# Verified model of the pirust agent engine and its satellites

This project models, in Dafny, the part of pirust that is hard to get right by reading: the agent engine as a protocol
of steps, and the algorithms around it that are fast or stateful forms of something simple.

**The agent engine.** `AgentProtocol` says, as a deterministic automaton over a log of steps, what a run may do: the
events it emits (each tagged with what caused it), the provider calls it makes, the queues it polls. `AgentLoop`,
`ToolPipeline`, `ParallelTools` and `ToolBatch` are the two-level loop, the three-stage tool pipeline and its sequential
and concurrent forms, written imperatively over a context object, an event sink and a cancellation token that anyone
may cancel at any moment; they are proved to produce accepted logs only. `RunTheorems` and `RunGrammar` prove, of every
accepted log, what listeners rely on: the transcripts agree, turns and messages nest, tool calls are not left pending,
queue deliveries are complete and in order, and runs end only for the reasons they may. `RepeatedStarts` is about
streams that start more than once. `AgentState` and `Agent` are the reducer, the queues and the stateful agent over
them; `RunGuard` is the single-active-run guard, one action per lock acquisition, under every interleaving.

**The satellites**, one module each: `AuthLock` (the credential file and its lock directory, across processes),
`ConfigTemplate` (`$VAR` templates), `TreeGuides`, `PickerFilter` and `Fuzzy` (the pickers and their matcher),
`JsNumbers` (ECMAScript number formatting), `LiteralPrinter` (the catalog generator), `Migrations`, `Keybindings` and
`MigrationTheorems` (start-up migrations), `Args` (the command line), `Thinking` and `DebugLog` (bounded buffers),
`Base64`. `Chars`, `Decimals`, `OrderedMaps` and `Options` are shared vocabulary.

What the outside world decides is an input: stream items and turn scripts, schema checks, hook answers, tool results,
completion orders, arriving messages, directory listings, write failures, elapsed time. JSON text is parsed and printed
by a parameter that is assumed to be inverse where that matters.

Run `dafny verify dfyconfig.toml` to check everything.

Places where the code and its own words differ; the model follows the code, and the exact condition is proved:

- A response stream that starts twice leaves a stale partial in the context and breaks message bracketing. In a run that
  nobody cancels, messages are bracketed, and context and transcript agree, if and only if every stream used up starts
  at most once; in a cancelled one, if they all do (`RepeatedStarts.BracketsAndAgreement`, with a concrete run in
  `RepeatedStarts.TwoStarts`). The stale partial never reaches `new_messages` or the agent's own transcript.
- Narrowing the model picker is said not to change the result, because a longer query cannot match what a shorter one
  did not. Lowercasing depends on what follows: a final capital sigma lowers to another letter than the same sigma
  inside a word, so a row can be dropped and is not found again (`PickerFilter.SigmaRowIsLost`). Narrowing equals a
  rescan if and only if no row was lost on the way, and always for a safe text (`PickerFilter.TypeAll`); for one word the
  condition is exact (`PickerFilter.WordSafeIsNeeded`), and every text without a capital sigma meets it
  (`PickerFilter.NoSigmaIsSafe`).
- `auth.json` is seeded before the lock is taken, and a lock judged stale is removed in a second step, so exclusion and
  no-lost-update need a present file and no lock past `LOCK_STALE`; two concrete runs show it
  (`AuthLock.AbsentFileLosesUpdate`, `AuthLock.StaleLockBreaksExclusion`).
- The debug ring is documented never to grow past its capacity of 512 and reaches 513 (`DebugLog.OneTooMany`), exactly
  when a write fails with 511 or more entries in the ring (`DebugLog.Log.PushMessage`, `DebugLog.Log.OverBound`).
- `settings.json` is said to lose only `apiKeys`, but the removal moves the last key into the hole, so the order of the
  other keys survives only sometimes (`MigrationTheorems.SettingsKeepTheirOrder`).

## Model

| member | source | states |
|---|---|---|
| AgentLoop.RunAgentLoop | crates/pirust-agent-core/src/agent_loop.rs:105-148 | For every provider script, tool outcome, queue content and cancellation moment, a run from prompts is accepted step by step by the run protocol; the context is base plus completed messages, plus one stale partial per repeated stream start; each turn used up is answered by its own stream or by the abort message; uncancelled, the restarts are exactly the repeated starts of those streams; the run is over at the first turn that fails, is aborted or meets a stop hook, and otherwise exactly when it has run dry; and it takes from each queue what the protocol recorded. |
| AgentLoop.RunAgentLoopContinue | crates/pirust-agent-core/src/agent_loop.rs:151-186 | The same for a run continued from the transcript; it refuses exactly an empty transcript or an assistant tail, and then emits nothing. |
| AgentLoop.RunLoop | crates/pirust-agent-core/src/agent_loop.rs:218-414 | The two-level loop: the agreement of the copies, the turns played, the queues, and when it stops: every turn but the last went on, and a finished run's last turn went on too exactly if the log ends with an empty steering poll, an empty follow-up poll and the end event; an unfinished one has used up the script with every turn going on. |
| AgentLoop.RunRound | crates/pirust-agent-core/src/agent_loop.rs:235-414 | One pass of the outer loop: turns until nothing is pending, then one follow-up poll, which decides whether there is another pass. |
| AgentLoop.RunTurns | crates/pirust-agent-core/src/agent_loop.rs:238-396 | The inner loop stops only when a turn ended the run, the script is used up, or calls and the steering queue, just found empty, ask for nothing more. |
| AgentLoop.PlayedRestarts | crates/pirust-agent-core/src/agent_loop.rs:489-520 | Streams that start at most once cause no restart, and when nobody cancels only those cause none. |
| AgentLoop.PollSteering | crates/pirust-agent-core/src/agent_loop.rs:235-395 | The log records what the poll handed over and what the queue still held; an unskipped poll comes back empty only from an empty queue. |
| AgentLoop.PollFollowUp | crates/pirust-agent-core/src/agent_loop.rs:398-404 | The same for the follow-up queue. |
| AgentLoop.PrepareNextTurn | crates/pirust-agent-core/src/agent_loop.rs:350-373 | An update swaps context and tools when it carries a context, and remaps the level: absent keeps it, off clears it. |
| AgentLoop.RunTurn | crates/pirust-agent-core/src/agent_loop.rs:243-348 | One turn completes the injected messages, one assistant message and the tool replies, in that order, in the context, in the trace and in `new_messages` alike; it leaves the run closing exactly on an error or abort stop. |
| AgentLoop.FinishTurn | crates/pirust-agent-core/src/agent_loop.rs:284-396 | After a turn the run ends if and only if the turn failed, was aborted, or a stop hook says so, and then has emitted its end event with all new messages; otherwise the steering queue was asked, and what it handed over is what the next turn injects; the context is replaced exactly when the prepare hook says so. |
| AgentLoop.StreamAssistantResponse | crates/pirust-agent-core/src/agent_loop.rs:425-535 | Every stream, cancelled at any item or not, settles to one final message, the one the stream says or the abort message; its trace is the call with the context as it was, a start per stream start, an update per delta after a start, and the end, with a start of its own if there was none; each start after the first leaves one stale partial in the context. |
| AgentLoop.FinishStream | crates/pirust-agent-core/src/agent_loop.rs:556-579 | The final message replaces a partial that was added and is appended, with its own start, otherwise. |
| AgentLoop.InjectPending | crates/pirust-agent-core/src/agent_loop.rs:250-270 | Every pending message gets a start and an end and enters the context, in order. |
| AgentLoop.SettleTools | crates/pirust-agent-core/src/agent_loop.rs:303-339 | The replies are one per started call, in source order; the turn wants another exactly when a batch ran and not every outcome asked to terminate. |
| AgentLoop.MidStreamMoves | crates/pirust-agent-core/src/agent_loop.rs:489-520 | How a start or a delta moves context and trace together: a start appends a partial, a delta replaces the last one. |
| AgentLoop.TurnKeepsAgreement | crates/pirust-agent-core/src/agent_loop.rs:218-414 | A turn keeps the agreement of context, trace and `new_messages`. |
| AgentLoop.BatchFinished | crates/pirust-agent-core/src/agent_loop.rs:638-656 | A reported batch is complete for the protocol, and its verdict is the protocol's. |
| RunTheorems.TranscriptAgreement | crates/pirust-agent-core/src/agent.rs:773-806 | In every accepted log the reducer's messages are its snapshot plus the payloads of the message ends, which are the protocol's completed messages. |
| RunTheorems.FaithfulMeans | crates/pirust-agent-core/src/agent_loop.rs:272-282 | The protocol's faithful flag holds exactly when every provider call of the log was shown the initial transcript plus all messages completed before it. |
| RunTheorems.ReasoningAtCall | crates/pirust-agent-core/src/agent_loop.rs:350-373 | Every provider call is made at the reasoning level that the turn updates before it left. |
| RunTheorems.PendingAreOpen | crates/pirust-agent-core/src/agent.rs:787-792 | The reducer's pending set only ever names calls that have started and not ended, even when tool-call ids repeat. |
| RunTheorems.NoPendingAtTurnEnd | crates/pirust-agent-core/src/agent.rs:787-792 | After every turn end the reducer's pending set is empty. |
| RunTheorems.AcceptedPrefix | crates/pirust-agent-core/src/agent_loop.rs:218-414 | Every earlier moment of an accepted run was accepted, so what is proved of logs holds throughout a run. |
| RunGrammar.TurnsAlternate | crates/pirust-agent-core/src/agent_loop.rs:239-348 | At every moment turn starts, provider calls, assistant messages and turn ends are in step: each turn has exactly one of each, in this order. |
| RunGrammar.WholeRun | crates/pirust-agent-core/src/agent_loop.rs:105-148 | A finished run has one agent start, first, one agent end, last, carrying exactly the completed messages, and at least one whole turn between them. |
| RunGrammar.BracketedUnlessRestarted | crates/pirust-agent-core/src/agent_loop.rs:486-579 | Message start, updates and end are properly bracketed if and only if the log has no stream start inside an open response. |
| RunGrammar.DeliveredInOrder | crates/pirust-agent-core/src/agent_loop.rs:236-270 | What a queue handed over was completed in that order, up to what is still in hand; at the end of a run nothing is. |
| RunGrammar.ContinueMeans | crates/pirust-agent-core/src/agent_loop.rs:313-331 | The protocol's wish for another turn is exactly that some tool call of the turn ended without asking to stop. |
| RunGrammar.FollowUpsWait | crates/pirust-agent-core/src/agent_loop.rs:395-404 | A follow-up in hand was polled right after an empty steering poll that followed a turn whose calls did not want to continue. |
| RunGrammar.FollowUpEnters | crates/pirust-agent-core/src/agent_loop.rs:395-404 | The same for the moment a follow-up appears in the trace. |
| RunGrammar.HowRunsEnd | crates/pirust-agent-core/src/agent_loop.rs:284-413 | A finished run ended after a turn that failed or was aborted, or at a stop hook after a turn that did not, or dry: no call of the last turn wanted to continue, and first the steering queue and then the follow-up queue were found empty. |
| RunGrammar.PromptsAndResponses | crates/pirust-agent-core/src/agent_loop.rs:105-148 | The prompts and the responses of the protocol state are the messages those sources completed, in order. |
| RunGrammar.DeliveredIsCompleted | crates/pirust-agent-core/src/agent_loop.rs:105-148 | What entered a run as a prompt or from a queue is among the messages it completed, as often as it entered. |
| RunGrammar.OpeningIsFirst | crates/pirust-agent-core/src/agent_loop.rs:230-236 | What the protocol state keeps as the opening is what the first poll of the log handed over. |
| RepeatedStarts.BracketsAndAgreement | crates/pirust-agent-core/src/agent_loop.rs:486-579 | From the streams alone: if each one used up starts at most once, messages are bracketed, context and transcript agree and every call was shown everything; uncancelled, brackets and agreement hold only then. |
| RepeatedStarts.TwoStarts | crates/pirust-agent-core/src/agent_loop.rs:489-535 | A concrete run with a stream of two starts: it is accepted, its brackets break, and its second call is shown the first answer twice. |
| ToolPipeline.PrepareToolCall | crates/pirust-agent-core/src/agent_loop.rs:794-865 | Unknown tool, invalid arguments, a block and a cancellation each refuse the call with their own error result; otherwise the call is prepared unchanged, and without cancellation the settlement is the one the call and its hooks determine. |
| ToolPipeline.SettleCall | crates/pirust-agent-core/src/agent_loop.rs:658-702 | One call settles as start, updates, end, reply, with the reply built from the settled outcome. |
| ToolPipeline.ExecuteSequential | crates/pirust-agent-core/src/agent_loop.rs:658-702 | The batch settles a prefix of the calls in order, all of them unless cancelled, with matching replies; its trace is one call's whole trace after the other; it terminates exactly when every outcome says so. |
| ToolPipeline.EmitReply | crates/pirust-agent-core/src/agent_loop.rs:1010-1084 | The tool result message carries id, name, content, details, error flag and only non-empty added tool names. |
| ToolPipeline.TerminateMatches | crates/pirust-agent-core/src/agent_loop.rs:786-791 | The batch stops the run iff it is non-empty and every finalized result has `terminate` true. |
| ParallelTools.BeginCall | crates/pirust-agent-core/src/agent_loop.rs:704-745 | Starting a call in the concurrent form: start at once, end at once only when it was refused. |
| ParallelTools.PrepareRound | crates/pirust-agent-core/src/agent_loop.rs:704-745 | The first round starts a prefix of the calls in source order (all unless cancelled) and defers exactly those prepared. |
| ParallelTools.CompleteRound | crates/pirust-agent-core/src/agent_loop.rs:746-770 | Whatever the completion order, each deferred call gets its updates and its end exactly once, and the outcomes end up sorted by source index. |
| ParallelTools.ReplyRound | crates/pirust-agent-core/src/agent_loop.rs:771-783 | The replies are emitted in source order, one per started call, with matching ids. |
| ParallelTools.ExecuteParallel | crates/pirust-agent-core/src/agent_loop.rs:704-783 | For every completion order the concurrent batch satisfies the batch contract, in rounds: all starts, then all executions, then all replies. |
| ParallelTools.SortedInPlace | crates/pirust-agent-core/src/agent_loop.rs:764-770 | Distinct indices below the length, sorted, sit at their own positions, so sorting puts each outcome at its call. |
| ParallelTools.InsertDistinct | crates/pirust-agent-core/src/agent_loop.rs:764-770 | Sorting by index neither drops nor repeats an outcome. |
| ToolBatch.ParallelRefinesSequential | crates/pirust-agent-core/src/agent_loop.rs:658-783 | Without cancellation both forms give the same settlements, replies and verdict; their traces are permutations of each other and equal call by call. |
| ToolBatch.SameProjectionsSameBag | crates/pirust-agent-core/src/agent_loop.rs:658-783 | Traces with the same per-call subsequences are permutations of each other. |
| ToolBatch.ExecuteToolCalls | crates/pirust-agent-core/src/agent_loop.rs:638-656 | A batch runs call after call exactly when the configuration or any called tool says so, and otherwise in rounds; both meet the batch contract. |
| ToolBatch.AnySequential | crates/pirust-agent-core/src/agent_loop.rs:638-656 | One called tool that exists and is sequential makes the batch sequential; unknown tools do not. |
| ToolBatch.FailTruncated | crates/pirust-agent-core/src/agent_loop.rs:962-989 | After a length stop every call is answered with the truncation error, none is executed, and the batch does not terminate the run. |
| AgentTypes.FindTool | crates/pirust-agent-core/src/agent_loop.rs:991-997 | The first tool of that name; none exactly when no tool has it. |
| AgentState.Sink.Process | crates/pirust-agent-core/src/agent.rs:775-817 | Folding one event into the state is the reducer's step. |
| AgentState.PendingMessageQueue.Drain | crates/pirust-agent-core/src/agent.rs:151-163 | Both modes take from the front: everything, or exactly the oldest message of a queue that has one; nothing is lost or reordered. |
| AgentState.PendingMessageQueue.Enqueue | crates/pirust-agent-core/src/agent.rs:141-144 | A message goes to the end. |
| AgentState.PendingMessageQueue.Take | crates/pirust-agent-core/src/agent.rs:631-636 | What a poll drains is the queue as it stands then: it comes back empty, or in mode all, only leaving the queue empty. |
| AgentState.QueueHook.Poll | crates/pirust-agent-core/src/agent.rs:618-640 | The one-shot skip suppresses exactly the first poll and leaves the queue alone; every other poll drains: nothing handed over means an empty queue, mode all empties it, one-at-a-time hands over at most one. |
| Agent.AgentInner.Execute | crates/pirust-agent-core/src/agent.rs:525-563 | The executor's run is accepted by the protocol from the agent's snapshot, starts with its prompts, plays its turns and is over as the loop's contract says, and returns the messages the protocol saw completed; a skipped first poll handed over nothing. |
| Agent.AgentInner.RunWithLifecycle | crates/pirust-agent-core/src/agent.rs:663-710 | Whatever the run did, afterwards the agent is at rest, its transcript is the snapshot plus the run's messages, prompts first, the run ended for one of the reasons it may, and the queues are credited with what its log shows completed of theirs. |
| Agent.AgentInner.RunPromptMessages | crates/pirust-agent-core/src/agent.rs:511-540 | A busy agent refuses and nothing changes; otherwise the transcript grows by exactly what the run produced, the prompts first, the queues are accounted for, and the agent is at rest afterwards. |
| Agent.AgentInner.RunContinuation | crates/pirust-agent-core/src/agent.rs:542-563 | The same for a continuation. |
| Agent.AgentInner.ContinueRun | crates/pirust-agent-core/src/agent.rs:488-508 | Continue refuses exactly when busy, empty, or at an assistant tail with both queues empty, changing nothing. Otherwise its prompts are the front of the steering queue, or of the follow-ups when steering is empty, or none from another tail; they are completed first, their queue is credited with them because the log shows them, and after steering prompts the first poll is skipped; a finished run conserves both queues. |
| Agent.AgentInner.BeginRun | crates/pirust-agent-core/src/agent.rs:663-690 | A run starts with its own fresh token, streaming on, the partial and the error cleared. |
| Agent.AgentInner.FinishRun | crates/pirust-agent-core/src/agent.rs:762-770 | Leaving a run always brings the agent to rest. |
| Agent.AgentInner.NothingLost | crates/pirust-agent-core/src/agent.rs:125-168 | Every message ever given to a queue was credited, in order, or is still queued; and what was credited is in the transcript, as often as it was credited. |
| Agent.AgentInner.CloseBooks | crates/pirust-agent-core/src/agent.rs:125-168 | A queue is credited with nothing but what the run's log completed from it, whether polled or drained to be its prompts, and all that is among the run's messages. |
| Agent.EndsRightly | crates/pirust-agent-core/src/agent.rs:646-660 | The agent installs no stop hook, so its runs end after the first turn that failed or was aborted, and otherwise only when no call wanted to continue and both queues were found empty. |
| Agent.AgentInner.Steer | crates/pirust-agent-core/src/agent.rs:421-423 | A steering message is given to its queue and credited to nobody yet. |
| Agent.AgentInner.QueueFollowUp | crates/pirust-agent-core/src/agent.rs:426-428 | The same for a follow-up. |
| Agent.AgentInner.LastEventCarries | crates/pirust-agent-core/src/agent_loop.rs:407-413 | A finished run's first event is the agent start and its last carries exactly the messages the run produced. |
| Agent.AgreementForAgent | crates/pirust-agent-core/src/agent.rs:646-660 | The agent's configuration never replaces a context, so context and transcript are equal if and only if no stream start was repeated, and then the provider was shown everything. |
| RunGuard.AlwaysGuarded | crates/pirust-agent-core/src/agent.rs:663-770 | Under every interleaving of lock acquisitions the slot names exactly the caller inside a run, streaming state exists only there, and nobody finds the slot empty while holding it. |
| RunGuard.OneAtATime | crates/pirust-agent-core/src/agent.rs:663-710 | At most one call is inside a run; the streaming flag implies an active run; without one there is no half-streamed message and no pending call; listeners find their own run's token. |
| RunGuard.RejectedStartsNothing | crates/pirust-agent-core/src/agent.rs:488-518 | A call that was turned away never started a run. |
| RunGuard.RejectionTouchesNothing | crates/pirust-agent-core/src/agent.rs:488-518 | The step that turns a call away changes nothing but that call. |
| RunGuard.OthersCannot | crates/pirust-agent-core/src/agent.rs:663-710 | Nobody else moves a call along, or takes or frees the slot while a call owns it. |
| RunGuard.EveryExitIsClean | crates/pirust-agent-core/src/agent.rs:477-483 | Whether the executor returned or its future was dropped, and whatever others do meanwhile, leaving frees the slot and clears the run's state. |
| RunGuard.AbortReachesTheRun | crates/pirust-agent-core/src/agent.rs:437-441 | Abort cancels the token of the call that owns the slot, and of no other. |
| AuthLock.AlwaysSound | crates/pirust-coding-agent/src/auth.rs:507-562 | Starting with the file present and with no lock older than LOCK_STALE, every interleaving keeps exclusion, the retry discipline, the file's contents and the answers sound. |
| AuthLock.MutualExclusion | crates/pirust-coding-agent/src/auth.rs:507-562 | At most one process is in the critical section. |
| AuthLock.NoLostUpdates | crates/pirust-coding-agent/src/auth.rs:975-1033 | Whenever nobody is rewriting, the file is the initial one with the committed operations applied in lock order; a file that does not parse is never touched. |
| AuthLock.AnswersAreLinear | crates/pirust-coding-agent/src/auth.rs:975-1033 | Every answered call committed exactly once and got the answer of running the operations one at a time in lock order; a Locked call made 10 attempts and committed nothing. |
| AuthLock.HistoryGrows | crates/pirust-coding-agent/src/auth.rs:536-562 | What was committed stays committed, in place. |
| AuthLock.UntouchedEntriesStay | crates/pirust-coding-agent/src/auth.rs:995-1030 | Entries no operation addressed keep their values and their relative order. |
| AuthLock.AbsentFileLosesUpdate | crates/pirust-coding-agent/src/auth.rs:497-502 | The hypothesis that the file is present is needed: a concrete run in which seeding it outside the lock wipes out a commit. |
| AuthLock.StaleLockBreaksExclusion | crates/pirust-coding-agent/src/auth.rs:511-519 | The hypothesis about stale locks is needed: a concrete run in which removing a lock judged stale takes away somebody else's fresh one. |
| OrderedMaps.PutThenLookup | crates/pirust-coding-agent/src/auth.rs:1001-1003 | Inserting changes one key only; an existing key keeps its place and a new one goes to the end. |
| OrderedMaps.WithoutThenLookup | crates/pirust-coding-agent/src/auth.rs:1021-1024 | Filtering a provider out removes exactly its entry. |
| ConfigTemplate.ParseConfigValueTemplate | crates/pirust-coding-agent/src/auth.rs:712-768 | The index-driven scan computes the item-by-item reading of the template, and terminates by a growing index. |
| ConfigTemplate.ParseInvertsPrint | crates/pirust-coding-agent/src/auth.rs:674-768 | Parsing the printed form of any canonical part list gives the list back. |
| ConfigTemplate.ParseIsCanonical | crates/pirust-coding-agent/src/auth.rs:674-768 | Every parse is canonical: no empty and no adjacent literals, only valid names; printing it and parsing again changes nothing. |
| ConfigTemplate.BracedReference | crates/pirust-coding-agent/src/auth.rs:733-751 | `${NAME}` is one reference whatever follows it. |
| ConfigTemplate.BareReference | crates/pirust-coding-agent/src/auth.rs:753-761 | `$NAME` is the same reference when no name character follows. |
| ConfigTemplate.ResolveConfigValue | crates/pirust-coding-agent/src/auth.rs:801-819 | A value resolves iff it is no command and every reference in it has a non-empty value, and then to the concatenation. |
| ConfigTemplate.ResolveEscaped | crates/pirust-coding-agent/src/auth.rs:801-819 | Escaping any string and resolving it gives the string back in every environment. |
| TreeGuides.DrawBranches | crates/pirust-coding-agent/src/interactive_pickers.rs:1135-1214 | For every forest in pre-order with distinct ids the flags and the stack pass draw exactly what the recursive printer draws. |
| TreeGuides.WalkForest | crates/pirust-coding-agent/src/interactive_pickers.rs:1169-1214 | The stack walk over a listing equals the recursive drawing of the forest. |
| TreeGuides.WalkGroup | crates/pirust-coding-agent/src/interactive_pickers.rs:1169-1214 | A group of siblings with all below it is drawn as by recursion, and its ancestors' guides are left as they were. |
| TreeGuides.FirstIsLast | crates/pirust-coding-agent/src/interactive_pickers.rs:1135-1146 | In a pre-order listing an entry is its parent's last child exactly when no sibling follows it in the tree. |
| TreeGuides.ComputeLastChildFlags | crates/pirust-coding-agent/src/interactive_pickers.rs:1135-1146 | An entry is flagged iff no later entry names the same parent. |
| TreeGuides.BuildTreePrefixes | crates/pirust-coding-agent/src/interactive_pickers.rs:1169-1214 | The loop with its truncated or padded stack computes the walk row by row. |
| TreeGuides.BuildPrefix | crates/pirust-coding-agent/src/interactive_pickers.rs:1181-1208 | A row's prefix draws one filler per ancestor, or beyond eight segments the elision mark and the innermost seven, then the connector. |
| TreeGuides.PrefixWidth | crates/pirust-coding-agent/src/interactive_pickers.rs:1107-1121 | However deep the tree, a prefix is at most 2 + 8 * 3 characters. |
| PickerFilter.TypeAll | crates/pirust-coding-agent/src/interactive_pickers.rs:600-649 | After any pushes and pops the shown rows are those that matched every text since the last deletion, ordered by score and index; they equal one full rescan for the final text if and only if no row that matches it was lost on the way, and always when the text is safe. |
| PickerFilter.ModelPicker.PushFilterChar | crates/pirust-coding-agent/src/interactive_pickers.rs:626-634 | Typing a character narrows the rows kept so far by the longer text; control characters are ignored. |
| PickerFilter.ModelPicker.PopFilterChar | crates/pirust-coding-agent/src/interactive_pickers.rs:639-649 | Deleting rescans everything and starts a new trail of texts, so the rows are those the shorter text calls for. |
| PickerFilter.ModelPicker.Rescan | crates/pirust-coding-agent/src/interactive_pickers.rs:600-613 | The result is the matching part of the current rows, ranked; blank and separator-only filters included. |
| PickerFilter.NarrowingLosesNothing | crates/pirust-coding-agent/src/interactive_pickers.rs:617-634 | Narrowing and rescanning show the same list if and only if every row matching the final text matched all texts before it; a safe text guarantees that for every list of rows. |
| PickerFilter.WordSafeMeans | crates/pirust-coding-agent/src/interactive_pickers.rs:617-625 | A word is safe, a condition on its lowered beginnings alone, if and only if no text that matches it fails to match one of its beginnings. |
| PickerFilter.WordSafeIsNeeded | crates/pirust-coding-agent/src/interactive_pickers.rs:617-634 | For a word typed into the empty filter the condition is exact: unless it is safe, some row is lost. |
| PickerFilter.SafeTextKeeps | crates/pirust-coding-agent/src/interactive_pickers.rs:617-634 | A row that matches a safe text has matched every beginning of it. |
| PickerFilter.NoSigmaIsSafe | crates/pirust-coding-agent/src/interactive_pickers.rs:617-634 | Every text without a capital sigma is safe, under any lowercasing that treats other characters one by one. |
| PickerFilter.SigmaRowIsLost | crates/pirust-coding-agent/src/interactive_pickers.rs:617-634 | A concrete list and three keystrokes after which the picker shows no row although a rescan finds one: the final form of sigma drops it. |
| PickerFilter.TokensGrow | crates/pirust-coding-agent/src/interactive_pickers.rs:379-384 | Each token of a beginning of a text begins the token in the same place. |
| Fuzzy.MatchQuery | crates/pirust-tui/src/fuzzy.rs:31-86 | The scan matches exactly when the query's characters appear in the text in order, and its score is the sum over their first places of run, gap, word-start and position points, with the bonus for equality. |
| Fuzzy.GreedyIsLeftmost | crates/pirust-tui/src/fuzzy.rs:50-74 | Whatever finds query characters in order, the scan has found as many and none of them later. |
| Fuzzy.GreedyDecides | crates/pirust-tui/src/fuzzy.rs:50-80 | The scan uses up the query if and only if some places hold its characters in order. |
| Fuzzy.SwapAlphaNumeric | crates/pirust-tui/src/fuzzy.rs:98-141 | The transposition exists if and only if the token is letters then digits or digits then letters, and exchanges the two parts. |
| Fuzzy.FuzzyMatchToken | crates/pirust-tui/src/fuzzy.rs:144-166 | The lowered token is looked for first, and its transposition, five points worse, only when that fails. |
| Fuzzy.CoversMeans | crates/pirust-tui/src/fuzzy.rs:144-166 | Whatever the longer token is found in the shorter one is found in, if and only if both forms of the longer have a form of the shorter in them. |
| Fuzzy.PrefixCovers | crates/pirust-tui/src/fuzzy.rs:144-166 | A token that only grows at its end keeps every match, transpositions included. |
| Fuzzy.LongerTokenMatchesLess | crates/pirust-tui/src/fuzzy.rs:144-166 | With a lowercasing that settles, a longer token matches only texts the shorter one matches if and only if its lowered form is covered. |
| Fuzzy.LoweredTextGrows | crates/pirust-tui/src/fuzzy.rs:144-147 | One more character extends the lowered text if and only if it is not a cased letter that closes a final sigma. |
| Fuzzy.FoldingSettles | crates/pirust-tui/src/fuzzy.rs:144-147 | Lowercasing leaves alone what it has lowered, and the transpositions of that. |
| PickerFilter.TokensPush | crates/pirust-coding-agent/src/interactive_pickers.rs:379-384 | One more character leaves the tokens alone, adds a one-character token, or extends the last token. |
| PickerFilter.TokensOfTrim | crates/pirust-coding-agent/src/interactive_pickers.rs:379-384 | Trimming the text does not change its tokens. |
| PickerFilter.ScoreCandidates | crates/pirust-coding-agent/src/interactive_pickers.rs:396-430 | Survivors are exactly the rows matching every token, ordered by summed score and index; without tokens the rows pass unchanged. |
| PickerFilter.RankingIsUnique | crates/pirust-coding-agent/src/interactive_pickers.rs:423-430 | There is only one list with the right rows in the right order. |
| PickerFilter.ModelPicker.MoveSelection | crates/pirust-coding-agent/src/interactive_pickers.rs:654-670 | The selection moves by the amount asked, clamped to the rows there are. |
| PickerFilter.ModelPicker.SetMaxVisible | crates/pirust-coding-agent/src/interactive_pickers.rs:565-569 | A resize keeps the selection on screen, with at least one visible row. |
| PickerFilter.ModelPicker.HandleKey | crates/pirust-coding-agent/src/interactive_pickers.rs:676-703 | Only Enter selects, and what it selects is the highlighted original row; only Escape dismisses; only editing keys change the text. |
| PickerFilter.ModelPicker.Render | crates/pirust-coding-agent/src/interactive_pickers.rs:793-812 | The cache is invisible: every rendering is what drawing from scratch gives. |
| PickerFilter.SelectionIsVisible | crates/pirust-coding-agent/src/interactive_pickers.rs:726-734 | The selected row is on screen, exactly once. |
| PickerFilter.ClampScroll | crates/pirust-coding-agent/src/interactive_pickers.rs:442-453 | The selection ends up inside the viewport, which does not move when it already was. |
| JsNumbers.RoundTrip | crates/pirust-ai/src/jsnum.rs:22-83 | What is written for any double reads back, by a JSON number reader, as the same sign, digits and exponent; exponential form appears iff n is outside (-6, 21]; a double needs at most 25 characters. |
| JsNumbers.JsNumber | crates/pirust-ai/src/jsnum.rs:22-83 | The four branches write the digits, zeros, point and exponent that ECMA-262 lays out. |
| JsNumbers.LayoutDenotes | crates/pirust-ai/src/jsnum.rs:51-82 | Each of the four layouts denotes the number it was made from. |
| JsNumbers.ScanText | crates/pirust-ai/src/jsnum.rs:51-82 | What the number grammar of section 6 of RFC 8259 puts together is taken apart again, unambiguously. |
| JsNumbers.WrittenForm | crates/pirust-ai/src/jsnum.rs:51-82 | Exponential form exactly outside (-6, 21], and the length bound. |
| LiteralPrinter.PrintedReadsBack | xtask/src/main.rs:853-908 | Reading the printed Rust source gives the value back with its key order, whichever layout each level got; printing fails exactly on a control character. |
| LiteralPrinter.ValueBack | xtask/src/main.rs:853-877 | The same at any indentation and with any text after it. |
| LiteralPrinter.LaidBack | xtask/src/main.rs:884-908 | One-line and wrapped entries read back the same. |
| LiteralPrinter.EmitStr | xtask/src/main.rs:803-821 | Quotes and backslashes are escaped, control characters refused. |
| LiteralPrinter.StrBack | xtask/src/main.rs:803-821 | A printed string reads back as the string. |
| LiteralPrinter.RustU64 | xtask/src/main.rs:837-850 | A literal is written iff the value is a non-negative integer, with its digits in threes. |
| LiteralPrinter.GroupingKeepsDigits | xtask/src/main.rs:843-849 | Removing the separators gives the digits back. |
| MigrationTheorems.SecondRunDoesNothing | crates/pirust-coding-agent/src/migrations.rs:784-798 | A second run changes no file, logs nothing, reports no provider and repeats the first run's warnings, however the directory was listed either time. |
| MigrationTheorems.ListingOrderDoesNotMatter | crates/pirust-coding-agent/src/migrations.rs:362-424 | The session migration gives the same tree for every order of the directory listing. |
| MigrationTheorems.NoSessionIsLost | crates/pirust-coding-agent/src/migrations.rs:362-424 | Every session file stays or lands unchanged in a session directory, and no file already there is overwritten. |
| MigrationTheorems.CredentialsKept | crates/pirust-coding-agent/src/migrations.rs:250-340 | Every oauth provider keeps its credential; an API key survives iff it is a string and oauth.json has no such provider. |
| MigrationTheorems.AuthSettles | crates/pirust-coding-agent/src/migrations.rs:250-340 | After the credential migration nothing is left to collect. |
| MigrationTheorems.SettingsKeepTheirOrder | crates/pirust-coding-agent/src/migrations.rs:311-320 | Rewriting settings.json keeps the order of the other keys iff `apiKeys` was absent, last or last but one. |
| MigrationTheorems.SettingsKept | crates/pirust-coding-agent/src/migrations.rs:311-320 | Rewriting settings.json loses `apiKeys` and no other setting. |
| MigrationTheorems.NoBinaryIsLost | crates/pirust-coding-agent/src/migrations.rs:506-545 | bin/ overwrites nothing and gains only what tools/ had, no binary disappears from both, and the line is logged iff bin/ gained one. |
| MigrationTheorems.CommandsSettle | crates/pirust-coding-agent/src/migrations.rs:641-668 | commands/ becomes prompts/ unchanged, everything else stays, and a second attempt moves nothing. |
| MigrationTheorems.BinariesSettle | crates/pirust-coding-agent/src/migrations.rs:506-545 | After the binaries migration no managed binary can be moved or dropped any more. |
| MigrationTheorems.KeybindingsSettle | crates/pirust-coding-agent/src/migrations.rs:569-587 | Migrating keybindings twice is migrating once. |
| Keybindings.MigrationMeans | crates/pirust-coding-agent/src/migrations.rs:1086-1109 | Each current name keeps its own value, else takes its legacy value; no other key is lost or changed; no legacy name is left. |
| Keybindings.MigrateKeybindingsConfig | crates/pirust-coding-agent/src/migrations.rs:1086-1109 | The loop computes the rename and reports a migration iff some key was a legacy name. |
| Keybindings.OrderKeybindingsConfig | crates/pirust-coding-agent/src/migrations.rs:1115-1133 | Known names in table order, then the rest sorted. |
| Keybindings.OrderMeans | crates/pirust-coding-agent/src/migrations.rs:1115-1133 | Current names come first, in table order; the others follow in ascending order. |
| Keybindings.NewNamesAreCurrent | crates/pirust-coding-agent/src/migrations.rs:931-993 | A legacy name always becomes a different, current name, and no two become the same. |
| Keybindings.Binding | crates/pirust-coding-agent/src/migrations.rs:931-1077 | The 73 current names are pairwise distinct and dotted, and no legacy name is dotted. |
| Migrations.Migrator.MigrateAuthToAuthJson | crates/pirust-coding-agent/src/migrations.rs:250-340 | The run over oauth.json and settings.json computes the migrated tree and hands back the stored providers in order. |
| Migrations.Migrator.MigrateSessionsFromAgentRoot | crates/pirust-coding-agent/src/migrations.rs:362-424 | The loop moves the listed session files one by one. |
| Migrations.Migrator.MigrateToolsToBin | crates/pirust-coding-agent/src/migrations.rs:506-545 | The managed binaries are moved or dropped, and one line is logged iff one was moved. |
| Migrations.Migrator.MigrateKeybindingsConfigFile | crates/pirust-coding-agent/src/migrations.rs:569-587 | The file is rewritten iff it is an object with a legacy name. |
| Migrations.Migrator.MigrateCommandsToPrompts | crates/pirust-coding-agent/src/migrations.rs:641-668 | commands/ becomes prompts/ iff the one exists and the other does not. |
| Migrations.Migrator.RunMigrations | crates/pirust-coding-agent/src/migrations.rs:784-798 | The five migrations in their fixed order, with their console lines, providers and warnings. |
| Migrations.EncodeSessionDirName | crates/pirust-coding-agent/src/migrations.rs:449-466 | One leading separator is dropped, separators and colons become dashes, all else stays in place, and two dashes wrap either side, so the name is one path segment. |
| Args.ParseArgs | crates/pirust-coding-agent/src/args.rs:400-641 | The jumping loop computes the position-by-position reading of argv and assigns every position exactly one role, in order. |
| Args.EveryTokenCounts | crates/pirust-coding-agent/src/args.rs:400-641 | Messages, file arguments and diagnostics are as many as the tokens of those roles, plus one diagnostic per thinking level that does not exist. |
| Args.EveryTokenIsUsed | crates/pirust-coding-agent/src/args.rs:400-641 | What becomes of every token: messages, file names and complaints stand in their lists at their turn; a value fills the field of the flag before it, but for a run mode that does not exist; a bad thinking level is complained about; an unknown flag's entry has its value unless its key is given again later; a token an unknown flag takes is that value. |
| Args.LastOccurrence | crates/pirust-coding-agent/src/args.rs:596-622 | An unknown flag's key is in the result, with this occurrence's value if it is the last. |
| Args.ParseToken | crates/pirust-coding-agent/src/args.rs:404-636 | One turn of the loop reads the token at its position and, if it takes one, the token after it. |
| Args.UnknownFlagsMean | crates/pirust-coding-agent/src/args.rs:103-112 | Unknown flags have distinct keys with their last values, each at the place of its first occurrence. |
| Args.RepeatedFlags | crates/pirust-coding-agent/src/args.rs:400-641 | A repeated one-value flag keeps its last value, a repeated list flag keeps all of them in order. |
| Args.ParseUnknownFlag | crates/pirust-coding-agent/src/args.rs:596-622 | An unknown long flag splits at its first `=`, else takes the next token unless that starts with `-` or `@`. |
| Thinking.StreamTwice | crates/pirust-coding-agent/src/interactive_thinking.rs:121-178 | However a stream is split into deltas, text, newline count and trim mark come out the same, and the text is the longest character-aligned suffix that fits the cap. |
| Thinking.TrimmingComposes | crates/pirust-coding-agent/src/interactive_thinking.rs:157-178 | Trimming what was already trimmed drops what trimming everything would. |
| Thinking.ThinkingComponent.PushDelta | crates/pirust-coding-agent/src/interactive_thinking.rs:121-130 | A delta keeps the text, the newline count and the trim mark those of the whole stream. |
| Thinking.ThinkingComponent.SetText | crates/pirust-coding-agent/src/interactive_thinking.rs:136-147 | A different text replaces everything; the same text changes nothing. |
| Thinking.ThinkingComponent.TrimToCap | crates/pirust-coding-agent/src/interactive_thinking.rs:157-178 | The cut is at the first character boundary at or after the excess, and the newline count follows. |
| Thinking.RetainedIsUnique | crates/pirust-coding-agent/src/interactive_thinking.rs:157-178 | The longest aligned suffix that fits is unique. |
| DebugLog.Log.PushMessage | crates/pirust-coding-agent/src/interactive_debug.rs:680-740 | The ring is always the newest entries of everything pushed; a failed write closes the sink and pushes its warning before the entry; the ring is beyond 512 afterwards if and only if it was before, or the sink was open, the write failed and there were 511 or more entries. |
| DebugLog.Log.WithoutFailure | crates/pirust-coding-agent/src/interactive_debug.rs:680-712 | Without a sink failure the ring is the last 512 entries, consecutively numbered. |
| DebugLog.Log.OverBound | crates/pirust-coding-agent/src/interactive_debug.rs:695-740 | The length never exceeds 513, and reaches it exactly when the sink failed with 511 or more entries pushed before. |
| DebugLog.OneTooMany | crates/pirust-coding-agent/src/interactive_debug.rs:695-740 | The ceiling is exceeded: 511 written entries and one whose write fails make 513. |
| DebugLog.Log.OneSwap | crates/pirust-coding-agent/src/interactive_debug.rs:719-740 | Neighbours are out of order exactly at the warning and the entry pushed after it. |
| DebugLog.Log.Recent | crates/pirust-coding-agent/src/interactive_debug.rs:749-756 | The newest `max` entries, oldest first. |
| DebugLog.FailedPush | crates/pirust-coding-agent/src/interactive_debug.rs:700-740 | A failing push frees one slot for two entries. |
| Base64.DecodeInvertsEncode | crates/pirust-coding-agent/src/interactive_commands.rs:443-471 | Decoding the encoder's output gives every byte sequence back. |
| Base64.Shape | crates/pirust-coding-agent/src/interactive_commands.rs:437-442 | The output has 4 * ceil(n / 3) characters, all of the alphabet but for the padding: none, one or two characters at the very end. |
| Base64.Base64Encode | crates/pirust-coding-agent/src/interactive_commands.rs:443-471 | The chunk loop and the remainder compute the encoding of section 4 of RFC 4648. |

## Left out

- Runs that never end: a run gets a finite list of turn scripts, and one that outlives them is reported as unfinished; everything is proved of unfinished runs too.
- Model identity, token usage, timestamps, API keys and the conversion to provider messages: no branch of the engine depends on them.
- Absent queue hooks, which behave as empty queues.
- `handle_run_failure`: both executors the program uses return success.
- `wait_for_idle` and its watch channel, whose only receiver is dropped at construction.
- Replacing the transcript with `set_messages` while a run is in flight.
- AgentLoop.RunAgentLoop: when a turn update replaces the whole context, the equality of context and transcript is claimed only up to that moment, because the replacement is arbitrary; the agent never installs such a hook.
- Agent.AgentInner.ContinueRun: calls do not overlap there, so messages drained by a continue that then loses a race for the run slot, or whose future is dropped, are outside its conservation claim, as are runs that outlive their script; RunGuard covers the overlap but not the queues.
- ParallelTools.CompleteRound: each call's updates are emitted together with its end, as the source does when a future completes; the tools' own concurrent work is an input.
- AuthLock.AlwaysSound: permissions, parent directories and failing system calls other than an existing lock directory are not modelled; a process that dies simply takes no more steps.
- Token refresh inside `modify`, credential decoding, and the in-memory backend: they are part of the operation's change function or have no protocol of their own.
- Running `!command` config values; the source does not run them either.
- TreeGuides.DrawBranches: rows hidden by a filter keep the prefix computed for the full list; the drawing of a filtered list is not claimed to be a tree.
- The session and branch pickers repeat the model picker's filter code and are not modelled separately.
- PickerFilter.TypeAll: scores are exact reals, so ties and orders that depend on floating-point rounding are not modelled; lowercasing is a parameter of the picker, and the Unicode tables behind it are parameters of the model of lowercasing in `Fuzzy`.
- The other `fuzzy_match` of the repository, in crates/pirust-coding-agent/src/models.rs, and `fuzzy_filter`, which the picker does not use.
- The text of picker rows, colours and truncation to a width.
- Shortest digits of a double: they are the input of `JsNumbers`, as the standard library produces them.
- LiteralPrinter.RustValue: numbers outside the 64-bit integers are not modelled, because their text is a floating-point literal of the standard library; the other emitters of the catalog generator are not modelled either.
- Migrations.Migrator.RunMigrations: the agent and project directories are separate trees, so a project directory that contains the agent directory is not modelled; neither are links, permissions, case-insensitive or Windows file systems, and the keypress wait.
- Directory entries of the agent root are told apart by an enumeration of the names the migrations know.
- Args.ParseArgs: the exact-match tests of the chain are collected in one table of flags, whose tests exclude one another; the fields of the result are one map.
- Thinking.ThinkingComponent.PushDelta: wrapped-line caching, the expanded flag and the rendering are not modelled.
- DebugLog.Log.PushMessage: elapsed times and the formatting of entries are not modelled; the sink is opened at most once.
- Sorting is modelled as an insertion sort wherever the source calls a library sort.
- Help text, system prompt, themes, markdown, catalog reading and process spawning: wiring or tables.
