# Verification of the session runtime

A Dafny model of the runtime of a coding assistant: sessions made of runs, an append-only transcript,
a turn state machine, tool calls behind a permission policy with memory, and crash recovery.
`dafny verify dfyconfig.toml` checks the whole project.

## How it is built

A run is described twice.

* `RunModel` says what a run does as a function of everything around it: the log of its session, the
  provider's chunks, the user's permission messages, the tools' replies, the remembered rules. A run is
  a list of *segments*: single events, and whole tool-call lifecycles. `Events.EmitAll` says what
  emitting those events does to numbers, log and broadcasts.
* The classes `EventEmitter`, `ToolExecutor`, `PermissionInbox`, `ReplayRegistry`, `TranscriptStore`,
  `PermissionRuleStore`, `SessionIndex`, `RunIdSource` and `SessionOrchestrator` do the same step by
  step on shared mutable objects, branch by branch as the source does. Each method is proved against
  the model. The top of that stack is `SessionOrchestrator.Run`, which resolves the session and the run
  id and runs: if it returns, the state is that of the modelled run; if anything raises on the way (disk,
  subscriber, tool, provider, malformed input), the log and the broadcasts are a *cut* of the modelled
  run, its first `k` events. Either way it leads from the *world* before it (logs, memories, rule file)
  to a world after it that the laws over many runs speak about.

So "a run stopped after any of its events" is a prefix of a trace, and the laws are proved on the
model for all prefixes:

* `TraceLaws`, `TraceShape`: the state machine and the terminal guard accept every run; its shape.
* `CrashCut`, `RetryLaws`: the classifier of interrupted calls against every point at which a run can
  stop, and what the next resumed run then repeats.
* `ResultLaws`: exit codes against traces, and the run as a fold over the provider's chunks.
* `RuleLaws`, `AnswerLaws`: remembered answers within a run, and which message answers which call.
* `Broadcast`: what subscribers and log get of every cut of a run, record by record.
* `Stopping`: the places where a run can stop: what is emitted, learned and recorded there belongs together.
* `World`: any number of runs on any sessions, each cut anywhere, with process restarts in between.
* `Witnesses`, `ReadWitnesses`: concrete runs, histories and files on which a promise fails that one might expect to hold.
* `Policy`, `Workspace`, `StreamAdapter`, `SessionIndex`, `RunIds`, `Jsonl`, `Utf8`, `ReadTool`: the parts.

## Where the code does not do what one might expect

* Call ids restart at `TC1` in every run, but the classifier reads the log of all runs
  (src/ccr/runtime/orchestrator.py:265, 217, 239). An older call with the same id can hide an
  interruption, and it can have a call repeated that never started. `CrashCut.LogCutExactIff` says when
  the classifier is right and `RetryLaws.CutCallRetriedIff` what is repeated after a cut behind a call's request
  (`RetryLaws.CutBeforeCallsKeepsPlan`: before the first, what was asked for before);
  `Witnesses.OlderCallHidesInterruption` and `Witnesses.OlderStartRepeatsUnstarted` are two runs each.
* Run ids and session ids restart in every process (src/ccr/util/ids.py:37-54), so two processes that each
  start a new session write two ends of run `R1` to the log of `S1`: `Witnesses.RestartRepeatsRunId`.
  `World.SealedIff` gives the exact condition, `World.TerminalOnce` that resumed runs meet it.
* The documented precedence table has a rank 4, which allows in bypass mode whatever no boundary and no rule
  settled. The code has no such row and denies at rank 9 (src/ccr/policy/engine.py:126-136).
  `Policy.DocumentedTableAgreesIff` says on which requests the two agree, for every mode, and
  `Policy.BypassDeniesBash` is one on which they do not. The model follows the code.
* In the workspace `/` every path but `/` itself is outside (src/ccr/policy/engine.py:57-59):
  `Workspace.InCwdIsPrefix`, `Workspace.RootWorkspaceRejectsItsFiles`.
* A JSON text in which U+0085, U+2028 or U+2029 stands for itself is split when it is read back
  (src/ccr/util/jsonl.py:17, 29): `Jsonl.ReadsBackIff`, `Jsonl.JsonTextFramedIff`.
* After a crash behind trailing deltas, the next run uses their sequence numbers again
  (src/ccr/runtime/orchestrator.py:262-264): `World.NumbersGoOnIff`, and `Witnesses.DeltaNumberIsUsedAgain`.
* Sessions that share the rule file need not start with disjoint rule sets: one may hold a session
  allow for a hash that another denied for good (`Witnesses.SharedFileOverlaps`). `World.StartsDisjointIff`
  says exactly when a run starts with disjoint sets. The finality of answers does not depend on it.
* The Read tool makes every line break a line feed and drops one that is not a line feed at the end of a file:
  `ReadTool.UntruncatedIsExactIff`, `ReadWitnesses.CarriageReturnIsDropped`. Where the byte limit cuts it can add a
  line feed or a replacement character (src/ccr/tools/builtins/read_tool.py:29-33), so that what comes back is no
  first part of the file: `ReadTool.ReturnedIsPrefixIff`, `ReadWitnesses.CutAddsLineFeed`,
  `ReadWitnesses.CutAddsReplacement`. A file announced as truncated can come back whole:
  `ReadTool.ReturnedIsWholeIff`, `ReadWitnesses.TruncatedIsWhole`.

## Model

| member | source | states |
|---|---|---|
| `Orchestrator.SessionOrchestrator.Run` | src/ccr/runtime/orchestrator.py:260-387 | resolves the session or raises when there is none to continue, and runs; directory, mode, prompt and tools of the run are those of the configuration, and it can ask exactly if its input is a stream or printing is off; the run is a move from the world before it to the world after it, and log and broadcasts have got its first `k` events, all of them if it returns; without preset ids, the run id on a resumed or empty session is in no older record; a returned run has brought log, broadcasts, rule sets, rule file and queues to the end of the modelled run, and if its timestamp is not before its directory's rows, its session is what `--continue` picks next |
| `Orchestrator.SessionOrchestrator.UnsettledIsAsked` | src/ccr/runtime/orchestrator.py:79-80 | in ask mode, a call of a run that neither the boundary nor a rule settles is asked about if and only if the input is a stream or printing is off; otherwise it is denied at rank 6 |
| `Orchestrator.SessionOrchestrator.constructor` | src/ccr/runtime/orchestrator.py:52-77 | joins the parts to one emitter, inbox and executor, with exactly the seven tools registered |
| `Orchestrator.SessionOrchestrator.RunResolved` | src/ccr/runtime/orchestrator.py:262-387 | a returning run leaves log, broadcasts, rule sets, rule file, queues and index exactly as the modelled run does; a raising one was not raised by the state machine or the terminal guard and leaves a cut of it, with rules and rule file as they are at that place of the run; the log stays well formed and keeps its old records; the logs of all other sessions, and what is in their set objects, are unchanged |
| `Orchestrator.SessionOrchestrator.RunInWorld` | src/ccr/runtime/orchestrator.py:262-387 | however the run ends, logs, memories and rule file before and after it are two worlds, and the run is the move between them |
| `Orchestrator.SessionOrchestrator.ResolveSessionAndRun` | src/ccr/runtime/orchestrator.py:129-151 | continues the latest session of the directory or raises when there is none; resumes the given id; otherwise takes the new one; without preset ids, the run id is in no record of a resumed session, and in none of another exactly if the counter's id is in none |
| `Orchestrator.SessionOrchestrator.Bind` | src/ccr/runtime/orchestrator.py:262-280 | numbering goes on where the log ends, the session's two set objects are shared with the registry, the two persistent sets are what the rule file says |
| `Orchestrator.SessionOrchestrator.Open` | src/ccr/runtime/orchestrator.py:282-308 | announces a start or a resumption, then the user's message; raises when stream input has none |
| `Orchestrator.SessionOrchestrator.ExtractPrompt` | src/ccr/runtime/orchestrator.py:153-159 | the configured prompt, or the first user message |
| `Orchestrator.FirstUserText` | src/ccr/runtime/orchestrator.py:156-159 | the content of the first user message, none if and only if there is none |
| `Orchestrator.SessionOrchestrator.Recover` | src/ccr/runtime/orchestrator.py:216-258 | repeats what the log asks for, at most once, only on a resumed run, as an ordinary call under the next id |
| `Orchestrator.SessionOrchestrator.MakeCall` | src/ccr/runtime/orchestrator.py:86-88 | a call takes the next id and adds its whole lifecycle, or a cut of it |
| `Orchestrator.SessionOrchestrator.FailureResult` | src/ccr/runtime/orchestrator.py:181-214 | a call that succeeded changes nothing; any other ends the run with its exit code and an index row |
| `Orchestrator.SessionOrchestrator.StreamItems` | src/ccr/runtime/orchestrator.py:322-361 | the loop over the adapted stream is the fold over it, up to the call that ends the run |
| `Orchestrator.SessionOrchestrator.Close` | src/ccr/runtime/orchestrator.py:363-387 | a run without message and tool call fails, any other completes with its last message |
| `Emitter.EventEmitter.Emit` | src/ccr/runtime/orchestrator.py:90-127 | an event that guard and machine admit becomes one record with the next number, `E` and that number as id, and the last logged id as parent, which is broadcast and, unless it is a delta, logged as it is; one they refuse leaves log and broadcasts alone; if something else raises, log and broadcasts have it or not, together |
| `Emitter.EventEmitter.Begin` | src/ccr/runtime/orchestrator.py:262-264 | the next number and the parent are those of the end of the log |
| `Broadcast.CutIsDelivered` | src/ccr/runtime/orchestrator.py:105-126 | stop a run after any `k` events: the i-th new broadcast carries the i-th event unchanged, the number i further than the log, the id of that number, the run id, and as parent the last broadcast before it that is no delta or else the end of the log; the new records of the log are exactly the broadcast ones that are no deltas, and none when persistence is off |
| `Executor.ToolExecutor.Execute` | src/ccr/tools/executor.py:103-306 | emits exactly the lifecycle that rules, answers and tool determine, reports its status, learns the answer and appends its row; when something raises, some first events of that lifecycle: before the last event in front of the decision nothing is learned or recorded, and from the decision on both are |
| `Executor.ToolExecutor.ApplySessionReplay` | src/ccr/tools/executor.py:58-101 | the boundary stands; deny sets before allow sets, session before file |
| `Executor.ToolExecutor.Answer` | src/ccr/tools/executor.py:140-219 | the six answers and the missing one: decision, set that learns the hash, row that is appended |
| `Executor.ToolExecutor.Perform` | src/ccr/tools/executor.py:237-306 | a denied call never starts; an unregistered tool reports an error; a raising tool leaves the call started |
| `Executor.PermissionInbox.Load` | src/ccr/runtime/orchestrator.py:161-170 | queues the answers per call id, skipping other messages and empty ids |
| `Executor.PermissionInbox.Consume` | src/ccr/runtime/orchestrator.py:172-179 | takes the oldest answer to an id and drops a queue that becomes empty |
| `ReplayRegistry.ReplayRegistry.Bind` | src/ccr/runtime/orchestrator.py:268-274 | fresh empty sets for an empty log or an unknown session, otherwise the session's own set objects; no two sessions ever share one |
| `Transcript.TranscriptStore.AppendEvent` | src/ccr/storage/transcript_store.py:42-68 | appends the record to its session's log unless it is a delta or the store is off; no other log changes |
| `Transcript.TranscriptStore.LoadRecords` | src/ccr/storage/transcript_store.py:24-28 | the whole log of a session, empty when it has none |
| `Transcript.TranscriptStore.GetNextSeq` | src/ccr/storage/transcript_store.py:30-34 | one more than the number of the last record, 1 on an empty log |
| `Transcript.TranscriptStore.GetLastPersistedEventId` | src/ccr/storage/transcript_store.py:36-40 | the id of the last record |
| `Transcript.RecordIdsUnique` | src/ccr/runtime/orchestrator.py:105-108 | in a well-formed log an id names one record |
| `Transcript.ParentIsPredecessor` | src/ccr/runtime/orchestrator.py:115-125 | in a well-formed log a record's parent is the record before it and no other |
| `Transcript.CutTracks` | src/ccr/runtime/orchestrator.py:90-127 | wherever a run stops, its log is well formed and extends the old one; nothing is written when persistence is off |
| `TurnFsm.TurnStateMachine.Transition` | src/ccr/runtime/turn_fsm.py:24-53 | the branches in source order are the transition table read event by event; a refused event leaves the state alone |
| `TurnFsm.TerminalIsLast` | src/ccr/runtime/orchestrator.py:100-103 | an admitted trace has a terminal event at most in last place, and the state says whether it has |
| `TurnFsm.AdmittedIff` | src/ccr/runtime/turn_fsm.py:24-53 | machine and guard admit a trace if and only if it begins with a start or an end and every event may follow the one before it; the state then says which event was last |
| `TraceLaws.RunIsAccepted` | src/ccr/runtime/turn_fsm.py:24-53 | for every input, machine and guard accept every prefix of a run's trace; a run returns if and only if its last event is its one terminal event, and the machine ends in the state the result reports |
| `TraceLaws.DriveLifecycle` | src/ccr/tools/executor.py:112-306 | a whole lifecycle is accepted wherever a message is and leaves the machine ready, or running if the tool raised |
| `TraceLaws.RunIdsDistinct` | src/ccr/runtime/orchestrator.py:86-88 | two calls of one run never share an id |
| `TraceLaws.CallIdsCount` | src/ccr/runtime/orchestrator.py:86-88 | the i-th call of a run, counted from 1, has the id `TC` and the digits of i |
| `TraceShape.RunIsShaped` | src/ccr/runtime/orchestrator.py:282-387 | every trace is a start event, a user message, deltas, messages and whole calls, and one terminal event exactly if the run returns; the user message is the prompt |
| `TraceShape.CallReads` | src/ccr/tools/executor.py:112-306 | the events of each call of a run and their payloads: request, question, decision, start, result and finish, with status `denied` without a start, `error` without a registered tool, and otherwise the one the tool reports; a raising tool leaves it at the start |
| `CrashCut.ClassifyLifecycle` | src/ccr/runtime/recovery.py:16-53 | on the first `j` events of a call the classifier says exactly how far the call is |
| `CrashCut.CrashCutExact` | src/ccr/runtime/recovery.py:16-53 | stop any run after any event: of each of its calls the classifier says not found, unclassifiable, interrupted, completed or denied exactly as far as that call had come |
| `CrashCut.SettledStays` | src/ccr/runtime/recovery.py:44-48 | a run that goes on never leaves denied or completed |
| `CrashCut.LogCutExactIff` | src/ccr/runtime/orchestrator.py:216-241 | on the log of all runs the classifier is right about a call of the newest run if and only if the older records under its id leave it undisturbed, which unused ids always do |
| `Recovery.ClassifyToolCallRecovery` | src/ccr/runtime/recovery.py:16-53 | filtering, the four flags and the branches compute the classification of the log |
| `Recovery.ScanMeaning` | src/ccr/runtime/recovery.py:17-42 | each of the five flags is set exactly when some record with the id sets it: any record, a start, a finish, a denying decision, a denied result |
| `Recovery.ClassifyExactly` | src/ccr/runtime/recovery.py:16-53 | which of the five states a call has, for any log, in terms of which records the log has under its id |
| `Recovery.ActionExactly` | src/ccr/runtime/recovery_policy.py:14-30 | the action for every state and tool name: only an interrupted call of the four reading tools is repeated |
| `Recovery.FindRetry` | src/ccr/runtime/orchestrator.py:217-245 | the search from the end of the log finds what the log asks to repeat |
| `Recovery.RetryExactly` | src/ccr/runtime/recovery_policy.py:14-30 | a log asks for a retry if and only if its last request names a safe read and an input, and its id has a started and no finished record anywhere |
| `RetryLaws.CutCallRetriedIff` | src/ccr/runtime/orchestrator.py:216-258 | cut a run anywhere behind a call's request and before the next: the next resumed run repeats that call, unchanged, if and only if its tool is a safe read, it or an older call under its id has started, and neither has finished; otherwise it makes no call of its own |
| `RetryLaws.CutBeforeCallsKeepsPlan` | src/ccr/runtime/orchestrator.py:216-258 | cut a run before its first call: the log asks for what it asked before, and the next resumed run repeats that |
| `RetryLaws.InterruptedCallRetriedIff` | src/ccr/runtime/orchestrator.py:216-258 | so a call cut between start and finish asks to be repeated if and only if its tool is a safe read and no older record finished its id |
| `Witnesses.OlderCallHidesInterruption` | src/ccr/runtime/orchestrator.py:265 | the logs of two runs: the finished `TC1` of the first makes the `TC1` that the second was running when it stopped read as completed, and nothing is repeated |
| `Witnesses.OlderStartRepeatsUnstarted` | src/ccr/runtime/orchestrator.py:216-241 | the logs of two runs: an interrupted Bash `TC1`, then a Read `TC1` cut before its decision; the log asks to repeat the Read, which never started |
| `RetryLaws.RecoverySafe` | src/ccr/runtime/orchestrator.py:310-317 | before the provider, a run makes no call or one: a resumed run repeating the last request, a started and never finished safe read |
| `RetryLaws.ReturnedRunIsQuiet` | src/ccr/runtime/orchestrator.py:216-258 | after a returned resumed run, with any exit code, no resumed run repeats anything |
| `ResultLaws.ResultMatchesTrace` | src/ccr/runtime/orchestrator.py:181-214 | exit codes 0, 3, 4, 5 and 6, each if and only if the trace is of its kind, with the error code of the terminal event; all calls but the last succeeded; the final message is the last one, on completion only |
| `ResultLaws.RaisesIff` | src/ccr/runtime/orchestrator.py:153-361 | a run raises, rather than returning a result, if and only if it has no user message, or the tool of its last call raised, or all its calls succeeded and the provider raises or sends a chunk that cannot be read |
| `ResultLaws.RunEchoesStream` | src/ccr/runtime/orchestrator.py:310-387 | a recovery that ends the run is all of it; otherwise what follows the recovery is the adapted stream segment by segment, deltas included, to its end or to just behind the first call that did not succeed, and one terminal event |
| `ResultLaws.RunFollowsChunks` | src/ccr/runtime/orchestrator.py:310-361 | messages and tool requests of a returned run are those of its recovery and then a first part of the provider's: all of them on exit codes 0 and 3, otherwise up to a call; none if the recovery ended the run |
| `RunModel.QueueFrontIsFirstAnswer` | src/ccr/runtime/orchestrator.py:161-179 | the queue of an id starts with the first message addressed to it |
| `RunModel.FirstAnswerIsFirst` | src/ccr/runtime/orchestrator.py:161-179 | the first answer to an id is that of the first message addressed to it, and there is none if and only if no message is |
| `RunModel.QueuesAreAnswers` | src/ccr/runtime/orchestrator.py:161-170 | the queue of an id holds all answers addressed to it, in the order of the messages; there is none for the empty id |
| `RunModel.DequeueIsNext` | src/ccr/runtime/orchestrator.py:172-179 | taking an answer takes the oldest, leaves the others in order, and spares the other queues |
| `RunModel.RegisteredIffActedOn` | src/ccr/tools/registry.py:13-26 | the registered tools are exactly those whose interrupted calls are repeated or reviewed: seven names |
| `AnswerLaws.CallGetsItsFirstAnswer` | src/ccr/tools/executor.py:140-219 | a call that asks is decided by the first message addressed to its id, whatever other calls consumed, and counts as unanswered without one |
| `AnswerLaws.NthCallHearsItsNumber` | src/ccr/runtime/orchestrator.py:86-88 | the i-th call of a run, if it asks, is decided by the first message addressed to `TC` and the digits of i |
| `AnswerLaws.FirstCallHearsTC1` | src/ccr/runtime/orchestrator.py:265 | the first call of a run, its only one or not, is decided by the first message to `TC1` if it asks |
| `AnswerLaws.ChoiceIsItsWord` | src/ccr/tools/executor.py:141-210 | the six words are read through surrounding space, and nothing else is an answer |
| `RuleLaws.KnownStaysFinal` | src/ccr/tools/executor.py:58-101 | once a set knows a hash, every later call with it inside the workspace is decided by the sets that knew it then, deny first, without asking, whatever sets the run started from |
| `RuleLaws.DisjointStaysFinal` | src/ccr/tools/executor.py:58-101 | from disjoint sets, allowed exactly if an allow set knew it and denied exactly if a deny set did |
| `RuleLaws.AnswerIsFinal` | src/ccr/tools/executor.py:140-219 | an answer for the session or for good decides all later calls of the run with the same hash, unasked, whatever sets the run started from |
| `RuleLaws.RuledIffAnswered` | src/ccr/tools/executor.py:58-101 | a call of a run inside the workspace is settled by a rule if and only if its hash was known at the start, or an earlier call with the same digest of tool and input got an answer that is to be remembered |
| `RuleLaws.SetsAreAnswers` | src/ccr/tools/executor.py:140-219 | after any calls, a hash is in one of the four sets if and only if it was there at the start or the user gave the answer of that set to a question about a request with that digest |
| `RuleLaws.RowsAreAnswers` | src/ccr/tools/executor.py:163-209 | the rows that a run appends are the answers for good, with the words `allow` and `deny` |
| `RuleLaws.OutsideNeverRuns` | src/ccr/policy/engine.py:79-89 | a call that names a path outside the workspace is denied unasked and never starts, whatever was answered before |
| `RuleLaws.RunKeepsDisjoint` | src/ccr/tools/executor.py:127-219 | from disjoint sets, the four sets stay disjoint after every call and never lose a hash |
| `RuleLaws.PersistentDenyHolds` | src/ccr/tools/executor.py:61-80 | what the file denies at the start of a run is denied throughout it, whatever the session allowed |
| `RuleLaws.CacheAgreesWithFile` | src/ccr/tools/executor.py:163-209 | after every call the two persistent sets are what reading the rule file again would give |
| `RuleLaws.FileStaysTidy` | src/ccr/storage/permission_rule_store.py:33-43 | no run ever appends a second row for a hash |
| `RuleStore.PermissionRuleStore.LoadHashSets` | src/ccr/storage/permission_rule_store.py:16-31 | the hashes of the allow rows and of the deny rows; none when the store is off |
| `RuleStore.PermissionRuleStore.AppendRule` | src/ccr/storage/permission_rule_store.py:33-43 | appends one row, does nothing when off, refuses other decision words |
| `World.LogsGrow` | src/ccr/storage/transcript_store.py:30-68 | over any number of cut runs on any sessions, every log stays well formed and every older log is a prefix of every newer one |
| `World.NumbersGoOnIff` | src/ccr/runtime/orchestrator.py:262-264 | the next run goes on with the number after the last one broadcast if and only if the run before was cut at its start or after a logged event; returned runs always leave it so |
| `Witnesses.DeltaNumberIsUsedAgain` | src/ccr/runtime/orchestrator.py:262-264 | a run cut right behind its delta, whose next run starts with the delta's number |
| `World.SealedIff` | src/ccr/runtime/orchestrator.py:142-151 | a run id has at most one terminal event in its session's log and no record after it, if and only if no run wrote under an id that had ended there |
| `World.TerminalOnce` | src/ccr/runtime/orchestrator.py:142-151 | so it is in every session built from an empty log by resumed runs, over all cuts and restarts, with the ids that the allocation gives them |
| `Witnesses.RestartRepeatsRunId` | src/ccr/util/ids.py:37-54 | two processes that each start a new session `S1` leave two terminal events of `R1` in its log |
| `World.FinishedIsNotRepeated` | src/ccr/runtime/orchestrator.py:216-258 | once a session's last requested call has its finish on record, no later resumption repeats it, over all runs and cuts, unless a newer call was requested |
| `World.FileIsConsistent` | src/ccr/storage/permission_rule_store.py:16-43 | over all runs of all sessions the rule file only grows, has one row per hash, and never both allows and denies one |
| `World.DenySticks` | src/ccr/tools/executor.py:71-80 | once the file denies a hash, every later run of every session that reads it denies every call with that hash, unasked |
| `World.SessionRemembers` | src/ccr/runtime/orchestrator.py:268-274 | within a process, and once its log is not empty, a session keeps all it remembers, whatever runs in between, and each of its runs starts with it |
| `World.StartsWith` | src/ccr/runtime/orchestrator.py:268-280 | a run on an empty log starts with empty session sets; the persistent sets are the hashes of the rows of each word, if the file is read |
| `World.RestartForgets` | src/ccr/runtime/orchestrator.py:28 | after a restart every session starts with empty session sets; logs and rule file stay |
| `World.DecisionIsRecorded` | src/ccr/tools/executor.py:163-227 | wherever any run stopped: if a call's decision was emitted, the row that its answer calls for is in the rule file, then and over all later runs, and what the answer teaches the session is in its memory |
| `World.RowsWereAsked` | src/ccr/tools/executor.py:127-209 | every row a run adds is that of one of its calls whose question to the user was emitted before the run stopped |
| `Stopping.DecisionIsAt` | src/ccr/tools/executor.py:112-227 | the position of a call's question and of its decision among the events of its run |
| `World.SessionsApart` | src/ccr/runtime/orchestrator.py:28 | over any runs on other sessions, a session's log and memory stay as they are; that one run spares the set objects of other sessions is a clause of `RunResolved` |
| `World.StartsDisjointIff` | src/ccr/runtime/orchestrator.py:268-280 | over all runs of all sessions, a run that reads the rule file starts with four disjoint sets if and only if no row of the file is about a hash its session remembers; one that does not read it always does |
| `World.AloneIsDisjoint` | src/ccr/runtime/orchestrator.py:268-280 | a session that has the rule file to itself starts every run with disjoint sets, over all cuts and restarts |
| `Witnesses.SharedFileOverlaps` | src/ccr/tools/executor.py:140-219 | session `S1` allows a call for itself, `S2` denies it for good: the next run of `S1` starts with the hash in two sets |
| `World.StopIsVisit` | src/ccr/runtime/orchestrator.py:260-387 | a cut of a run, with the rules and the rows of that place of the run, makes up a world to which a move of the history leads |
| `Policy.JudgeIsFirstRow` | src/ccr/policy/engine.py:68-136 | decision and replay give the applicable row of lowest rank of the table, with its verdict, reason and source, and ask only when someone can answer |
| `Policy.RankIff` | src/ccr/policy/engine.py:68-136 | which of the eight ranks a request gets, each if and only if: from the path it names, the four sets, the mode, the tool and whether someone can answer |
| `Policy.RankSays` | src/ccr/policy/engine.py:81-136 | verdict, reason and source of each rank; for the rule ranks, which set had the hash |
| `Policy.BoundaryIff` | src/ccr/policy/engine.py:45-89 | hard boundary, denied at rank 1, if and only if `path` is a text outside the workspace, or `path` is no text and `base_path` is a text outside it |
| `Policy.HashIffDigest` | src/ccr/policy/engine.py:41-43 | two requests share a hash if and only if their digests agree; a hash is not empty |
| `Policy.RiskIsOfTool` | src/ccr/policy/engine.py:61-66 | safe read exactly for the four reading tools, dangerous exactly for Bash |
| `Policy.AskIsSettled` | src/ccr/tools/executor.py:140-219 | an answer changes only the verdict of an ask; without one it is denied as unavailable, at rank 6 in ask mode and 9 otherwise |
| `Policy.DocumentedTableAgreesIff` | src/ccr/policy/engine.py:68-136 | the first applicable row of the documented table has the code's verdict, except for unsettled requests in bypass mode that are no safe reads, which it allows and the code denies at rank 9; and the code's rank except for unsettled requests in bypass mode |
| `Policy.DocumentedTableIsSilentIff` | src/ccr/policy/engine.py:126-136 | the documented table has no row for a request if and only if nothing settled it and the mode is none of the three; the code denies it |
| `Policy.BypassDeniesBash` | src/ccr/policy/engine.py:91-136 | Bash in bypass mode without rules: allowed by the documented table, denied by the code |
| `Policy.LearnKeepsDisjoint` | src/ccr/tools/executor.py:152-209 | a hash is learned only while no set knows it, and only the hash of the request |
| `Policy.KnownIsFinal` | src/ccr/tools/executor.py:58-101 | a known hash inside the workspace is decided by its sets, deny first, and an answer changes nothing |
| `Workspace.InCwdIsPrefix` | src/ccr/policy/engine.py:52-59 | for every canonical root and any raw path the string test is the component-prefix test if and only if the root is not `/` or the path is `/` |
| `Workspace.NormalizeIsTarget` | src/ccr/policy/engine.py:52-55 | joining and normalising a raw path walks its components, with `.` and `..` |
| `Workspace.TargetBegins` | src/ccr/policy/engine.py:52-55 | where the shortest paths lead: nowhere, `.`, `..`, a name, `/` |
| `Workspace.TargetStep` | src/ccr/policy/engine.py:52-55 | each further step of a path goes on from where the path led: a name enters, `..` leaves, `.` and nothing stay |
| `Workspace.ParentIsOutside` | src/ccr/policy/engine.py:57-59 | `..` is outside every workspace but `/` |
| `Workspace.PrefixTest` | src/ccr/policy/engine.py:57-59 | string prefix up to a separator is component prefix |
| `Workspace.RenderInjective` | src/ccr/policy/engine.py:57-59 | a canonical path has one list of components |
| `Workspace.RootWorkspaceRejectsItsFiles` | src/ccr/policy/engine.py:57-59 | the workspace `/` rejects its own files |
| `Workspace.DescendingPathStaysInside` | src/ccr/policy/engine.py:52-59 | a relative path without `..` never leaves a workspace other than `/` |
| `StreamAdapter.Adapt` | src/ccr/model/stream_adapter.py:16-30 | the generator yields the adapted chunks up to the first unsupported one, and raises if and only if there is one |
| `StreamAdapter.AdaptAdds` | src/ccr/model/stream_adapter.py:16-30 | each chunk adds itself, and a message its text as a delta in front of it exactly if no delta has come since the last message |
| `StreamAdapter.AdaptKeepsItems` | src/ccr/model/stream_adapter.py:16-30 | messages and tool requests pass through in order and unchanged |
| `StreamAdapter.AdaptAnnounces` | src/ccr/model/stream_adapter.py:22-26 | every message has a delta since the message before it |
| `StreamAdapter.AdaptIdempotent` | src/ccr/model/stream_adapter.py:16-30 | the output fed back as chunks comes out unchanged |
| `StreamAdapter.DeltasAreMessages` | src/ccr/model/stream_adapter.py:16-30 | if each message repeats the deltas before it, all delta text is all message text and an unfinished tail |
| `RunIds.RunIdSource.ResolveRunId` | src/ccr/runtime/orchestrator.py:142-151 | one more than the largest run number of a resumed session, otherwise a preset or counter id; without presets it is in no record of the session exactly if the session is resumed or no record has the counter's id |
| `RunIds.RunIdSource.NewRunId` | src/ccr/util/ids.py:47-54 | presets first, then the counter, which moves on |
| `RunIds.FreshNumber` | src/ccr/runtime/orchestrator.py:142-150 | a number beyond all run numbers of the records gives an id that none of them has |
| `Decimal.ParsePrint` | src/ccr/runtime/orchestrator.py:147-150 | printing and parsing a number gives it back |
| `Decimal.ParseConcat` | src/ccr/runtime/orchestrator.py:147-150 | the digits in front count as many times ten as there are digits behind them |
| `Decimal.ParseDigit` | src/ccr/runtime/orchestrator.py:147-150 | the ten digits, in their order |
| `SessionIndex.SessionIndex.GetLatestForCwd` | src/ccr/storage/session_index.py:15-26 | the session of the last row among those with the greatest timestamp of the directory; none if and only if it has no row |
| `SessionIndex.SessionIndex.Update` | src/ccr/storage/session_index.py:12-13 | appends one row |
| `SessionIndex.LatestUnique` | src/ccr/storage/session_index.py:15-26 | there is one such row |
| `SessionIndex.UpdateIsContinued` | src/ccr/runtime/orchestrator.py:379 | a row no earlier than those of its directory is the one that is continued next |
| `SessionIndex.PadOrder` | src/ccr/util/time.py:30-38 | at a fixed width text order is number order |
| `SessionIndex.PadParses` | src/ccr/util/time.py:30-38 | a number padded to a width that it fits reads back as itself |
| `SessionIndex.StampOrder` | src/ccr/util/time.py:30-38 | comparing rendered timestamps as text compares the times |
| `Jsonl.JsonlFile.ReadJsonl` | src/ccr/util/jsonl.py:13-24 | the decoded lines in order, blank lines skipped, or the number of the first line that does not decode |
| `Jsonl.ParseSingle` | src/ccr/util/jsonl.py:17-23 | a blank line holds nothing, any other what it decodes to, or it is an error in line 1 |
| `Jsonl.ParseConcat` | src/ccr/util/jsonl.py:17-23 | lines behind others: their items follow, and the first error is counted from the first of all lines |
| `Jsonl.JsonlFile.AppendJsonl` | src/ccr/util/jsonl.py:27-34 | appends the item's text and one line feed |
| `Jsonl.RoundTrip` | src/ccr/util/jsonl.py:13-34 | reading after any appends gives what the file held and then the items, in order, for items whose text decodes back, is not blank and has no line separator |
| `Jsonl.ReadsBackIff` | src/ccr/util/jsonl.py:13-34 | after appending JSON items a file reads as what it held and the items, in order, if and only if no item's text has U+0085, U+2028 or U+2029 in it; otherwise reading fails |
| `Jsonl.JsonTextFramedIff` | src/ccr/util/jsonl.py:17-29 | an appended JSON text is read as one line if and only if U+0085, U+2028 and U+2029 do not occur in it |
| `Jsonl.SeparatorSplits` | src/ccr/util/jsonl.py:17 | a text with U+2028 in it arrives in two pieces |
| `Text.OneLineIff` | src/ccr/util/jsonl.py:17 | a text and its line feed are one line if and only if no character of the text ends a line |
| `Text.SplitConcat` | src/ccr/util/jsonl.py:17 | a text that ends in a line feed and what follows it are split apart |
| `Text.SplitsIff` | src/ccr/util/jsonl.py:17 | the ten characters that split a text in two, and no other |
| `Text.CrLfSplitsOnce` | src/ccr/tools/builtins/read_tool.py:30 | a carriage return and the line feed behind it are one break |
| `Text.LfCrSplitsTwice` | src/ccr/tools/builtins/read_tool.py:30 | a line feed and the carriage return behind it are two |
| `Text.StrippedIff` | src/ccr/tools/executor.py:141 | the characters that stripping takes away, and no other |
| `Utf8.EncodesAs` | src/ccr/tools/builtins/read_tool.py:21 | the bytes of one character of each length |
| `Utf8.DecodeEncode` | src/ccr/tools/builtins/read_tool.py:21 | any text, encoded as UTF-8 and decoded, is that text |
| `Utf8.DecodesIffEncoded` | src/ccr/tools/builtins/read_tool.py:21 | the decoder reads a character exactly where the encoding of one stands, and a replacement elsewhere |
| `Utf8.ReplacedBytes` | src/ccr/tools/builtins/read_tool.py:21 | one replacement stands for the longest run of bytes that begins some encoding, or for one byte |
| `Utf8.DecodeCut` | src/ccr/tools/builtins/read_tool.py:29 | any bytes, cut anywhere, decode to whole characters of the uncut text and one replacement if the cut splits one |
| `ReadTool.UntruncatedIsExactIff` | src/ccr/tools/builtins/read_tool.py:20-33 | any file within the limits comes back with its line breaks as line feeds, without the last one if it is not a line feed; it comes back exactly if and only if its only line breaks are line feeds |
| `ReadTool.ReadsWhatWasWritten` | src/ccr/tools/builtins/read_tool.py:20-33 | a text with no other line breaks, written as UTF-8, is read back exactly |
| `ReadTool.ReturnedIsUpToLimits` | src/ccr/tools/builtins/read_tool.py:20-43 | the three announced counts, and that no more is cut off than they say: of the decoded first 262144 bytes the first `linesReturned` lines come back whole, and a last line feed exactly if the file ends in one |
| `ReadTool.ReturnedIsPrefix` | src/ccr/tools/builtins/read_tool.py:20-43 | of any bytes, a first part of the decoded text with its line breaks as line feeds comes back, with one replacement more only if the byte limit may split a character and one line feed more only if the byte limit cut; at most 5000 lines, 262145 characters and no more lines than announced |
| `ReadTool.ReturnedIsPrefixIff` | src/ccr/tools/builtins/read_tool.py:20-43 | for any bytes: what comes back is a first part of the text, its line breaks as line feeds, if and only if the byte limit does not cut, or lines are dropped before it, or what is added at the cut is what the text goes on with |
| `ReadTool.ReturnedIsWholeIff` | src/ccr/tools/builtins/read_tool.py:20-43 | for any bytes: a file comes back as it is if and only if its lines are within the limit and end in line feeds, and, where the byte limit cuts, what is added there is the whole rest of the text |
| `ReadWitnesses.CutAddsLineFeed` | src/ccr/tools/builtins/read_tool.py:29-33 | a line of 262145 letters comes back with a line feed inside |
| `ReadWitnesses.CutAddsReplacement` | src/ccr/tools/builtins/read_tool.py:29 | a two-byte character across the limit comes back as a replacement |
| `ReadWitnesses.TruncatedIsWhole` | src/ccr/tools/builtins/read_tool.py:25-33 | a line of 262144 letters is announced as truncated and comes back whole |
| `ReadWitnesses.CarriageReturnIsDropped` | src/ccr/tools/builtins/read_tool.py:30-33 | the file `a`, carriage return comes back as `a` |
| `ReadTool.TruncatedLoses` | src/ccr/tools/builtins/read_tool.py:25-33 | a file announced as truncated comes back whole only if it is at most three bytes too long, or one if no character can be split |

## Left out

- Executor.ToolExecutor.Execute: the callbacks `emit` and `resolve_permission` are modelled as objects shared with the orchestrator, because Dafny has no bound methods; a caller with other callbacks is not modelled.
- Transcript.TranscriptStore.AppendEvent: an append writes its whole line or raises before it wrote anything; a torn line or a failing `fsync` after a complete write is not modelled, nor are file locks and directories.
- RuleStore.PermissionRuleStore.AppendRule: as for the transcript, a row is written whole or not at all.
- Transcript.TranscriptStore.LoadRecords: the schema version of a record is not modelled; the store writes `1.0` only, which its own test on loading accepts, and a record of another major version would make every run on its session raise.
- Orchestrator.SessionOrchestrator.ResolveSessionAndRun: reads do not fail; in the code a failing read of index or log, or a log with a malformed line, such as one split at U+2028, raises here too.
- Orchestrator.SessionOrchestrator.Run: reads of index, log and rule file do not fail, so "raises when there is none to continue" leaves out runs that raise on a failing or malformed read before they begin; an object runs once, the new session id is a parameter, and one writer at a time works on a session; sequence numbers are allocated outside the lock, so several writers are not claimed to keep them unique, although the documentation asks for allocation inside it.
- RunIds.RunIdSource.ResolveRunId: `isdigit` and `int` are modelled for ASCII digits.
- Workspace.NormalizeIsTarget: symbolic links are not resolved; roots and targets are lexical.
- Jsonl.RoundTrip: JSON itself is a codec with its contract as hypothesis.
- SHA-256 and canonical JSON of a request: an arbitrary function from tool name and input to text; what needs equal hashes says so.
- Tools other than Read, the provider and the clock: arbitrary replies, chunk lists and parameters.
- Event fields that no reader of the log looks at: timestamp, turn index, message id, model, permission meta, and payload text such as error messages.
- `classify_tool_call_recovery_from_transcript`, the retry manager (one attempt), the event envelope and the frozen clock: thin wrappers.
- Command line, output modes, lock files and the JSON schema files: argument plumbing and library calls.
- Interrupts, fallback models, repair of torn logs, forking and rule lifetimes: described in the documentation, not implemented.
