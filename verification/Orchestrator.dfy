/**
 The session orchestrator: it drives one run over the shared transcript, rule file, session index
 and replay registry. Its methods are proved against RunModel: after every step the state is that of
 a `Progress`, and a run that raises leaves a cut of the modelled run.
 */
module Orchestrator {
  import opened Wrappers
  import opened Events
  import opened TurnFsm
  import opened Policy
  import opened RuleStore
  import opened StreamAdapter
  import opened RunModel
  import opened Stopping
  import opened Transcript
  import opened Emitter
  import opened Executor
  import opened ReplayRegistry
  import opened TraceLaws
  import Broadcast
  import Recovery
  import RunIds
  import World
  import RetryLaws
  import RuleLaws
  import SI = SessionIndex

  datatype InputMode = TextInput | StreamJson

  datatype Config = Config(
    prompt: string,
    printMode: bool,
    inputMode: InputMode,
    permissionMode: string,
    cwd: string,  // a real path
    doContinue: bool,
    resumeSessionId: Option<string>)

  datatype Resolved = Resolved(sessionId: string, runId: string, resumed: bool)

  function SettingOf(c: Config, digest: (string, ToolInput) -> string): Setting {
    Setting(c.cwd, digest, c.permissionMode, c.inputMode == StreamJson || !c.printMode)
  }

  function Decider(st: Setting): (string, ToolInput) -> PermissionDecision {
    (toolName: string, input: ToolInput) => Decide(st, toolName, input)
  }

  /** The first user message, for stream input. */
  function FirstUserText(messages: seq<ControlMessage>): (text: Option<string>)
    ensures text.None? <==> forall m :: m in messages ==> !m.UserText?
    ensures text.Some? ==>
              exists i :: 0 <= i < |messages| && messages[i] == UserText(text.value)
                          && forall j :: 0 <= j < i ==> !messages[j].UserText?
  {
    if messages == [] then None
    else if messages[0].UserText? then Some(messages[0].content)
    else
      var rest := FirstUserText(messages[1..]);
      assert messages == [messages[0]] + messages[1..];
      rest
  }

  function Prompt(c: Config, messages: seq<ControlMessage>): Option<string> {
    if c.inputMode == TextInput then Some(c.prompt) else FirstUserText(messages)
  }

  /** The rows that the rule file gained from these segments. */
  function Recorded(enabled: bool, segs: seq<Segment>): seq<RuleRow> {
    if enabled then RowsOf(segs) else []
  }

  class SessionOrchestrator {
    const config: Config
    const digest: (string, ToolInput) -> string
    const provider: Option<seq<Chunk>>
    const store: TranscriptStore
    const index: SI.SessionIndex
    const ruleStore: PermissionRuleStore
    const registry: ReplayRegistry
    const runIds: RunIds.RunIdSource
    const emitter: EventEmitter
    const inbox: PermissionInbox
    const executor: ToolExecutor
    var toolCallCounter: nat

    /** The parts hang together as the constructor joined them. */
    ghost predicate Wired()
      reads executor
    {
      && emitter.store == store
      && executor.emitter == emitter && executor.inbox == inbox && executor.ruleStore == ruleStore
      && executor.decide == Decider(SettingOf(config, digest))
      && executor.Apart()
    }

    constructor (config: Config, digest: (string, ToolInput) -> string, provider: Option<seq<Chunk>>,
                 tools: Call -> ToolReply, store: TranscriptStore, index: SI.SessionIndex,
                 ruleStore: PermissionRuleStore, registry: ReplayRegistry, runIds: RunIds.RunIdSource)
      ensures Wired() && emitter.GateNow() == START_GATE
      ensures this.config == config && this.digest == digest && this.provider == provider
      ensures this.store == store && this.index == index && this.ruleStore == ruleStore
      ensures this.registry == registry && this.runIds == runIds
      ensures executor.registry == {"Read", "LS", "Glob", "Grep", "Write", "Edit", "Bash"} && executor.tools == tools
      ensures fresh(emitter) && fresh(emitter.who) && fresh(emitter.fsm) && fresh(emitter.bus)
      ensures fresh(inbox) && fresh(executor) && fresh(executor.Cells())
    {
      this.config, this.digest, this.provider := config, digest, provider;
      this.store, this.index, this.ruleStore, this.registry, this.runIds := store, index, ruleStore, registry, runIds;
      toolCallCounter := 0;
      var bus := new EventBus();
      var emitter := new EventEmitter(store, bus);
      var inbox := new PermissionInbox();
      this.emitter, this.inbox := emitter, inbox;
      executor := new ToolExecutor(emitter, inbox, Decider(SettingOf(config, digest)), REGISTERED_TOOLS, tools, ruleStore);
    }

    /** What a run with this run id is given, for the model. */
    function ScriptOf(runId: string, resumed: bool, messages: seq<ControlMessage>, rules: Rules): Script {
      Script(
        Writer(runId, store.persistenceEnabled), resumed, Prompt(config, messages), messages, provider,
        SettingOf(config, digest), executor.registry, executor.tools, rules)
    }

    /** The rules that a run on this session starts with. */
    ghost function RulesFor(sessionId: string): Rules
      reads registry, registry.CellsOf(sessionId), store, ruleStore
    {
      var memory := registry.Recall(sessionId, store.Log(sessionId) == []);
      Rules(memory.allow, memory.deny,
            if ruleStore.enabled then Hashes(ruleStore.rows, "allow") else {},
            if ruleStore.enabled then Hashes(ruleStore.rows, "deny") else {})
    }

    /** The script is one that this object can run. */
    ghost predicate Plays(s: Script)
      reads emitter.who
    {
      && s.writer == emitter.Emitting() && s.provider == provider
      && s.setting == SettingOf(config, digest) && s.registry == executor.registry && s.tools == executor.tools
    }

    /** The state is that of the modelled run after `p`, begun at `start` with the rule file `rows`. */
    ghost predicate At(s: Script, start: Cursor, rows: seq<RuleRow>, p: Progress)
      reads `toolCallCounter, emitter, emitter.who, emitter.fsm, emitter.store, emitter.bus
      reads executor, executor.Cells(), inbox, ruleStore
    {
      Followed(s, start, rows, p) && toolCallCounter == p.calls
    }

    /** The same but for the call counter, which moves first. */
    ghost predicate Followed(s: Script, start: Cursor, rows: seq<RuleRow>, p: Progress)
      reads emitter, emitter.who, emitter.fsm, emitter.store, emitter.bus, executor, executor.Cells(), inbox, ruleStore
    {
      && emitter.Here() == EmitAll(s.writer, start, Flatten(p.segs))
      && Some(emitter.GateNow()) == GateAfter(p.segs)
      && executor.RulesNow() == RulesAfter(s.rules, p.segs)
      && ruleStore.rows == rows + Recorded(ruleStore.enabled, p.segs)
      && inbox.queues == p.inbox
    }

    /** The state is one that the modelled run `all` leaves behind when it stops on the way. */
    ghost predicate Halted(s: Script, start: Cursor, rows: seq<RuleRow>, all: seq<Segment>)
      reads emitter, emitter.who, emitter.store, emitter.bus, executor, executor.Cells(), ruleStore
    {
      Stops(s, start, rows, all, ruleStore.enabled, emitter.Here(), executor.RulesNow(), ruleStore.rows)
    }

    /** A run is over: at the end of what the model says, with a row in the index, or halted on the way. */
    ghost predicate Over(s: Script, start: Cursor, rows: seq<RuleRow>, run: Progress,
                         r: Outcome<RunResult>, indexed: seq<SI.Row>, ts: string)
      reads `toolCallCounter, emitter, emitter.who, emitter.fsm, emitter.store, emitter.bus
      reads executor, executor.Cells(), inbox, ruleStore, index
    {
      && (r.Returned? ==> At(s, start, rows, run) && run.status == Ended(r.value) && Indexed(indexed, true, ts))
      && (r.Threw? ==> r.cause == External && Halted(s, start, rows, run.segs))
    }

    /** Emits one event that is not part of a call. */
    method Say(ghost s: Script, ghost start: Cursor, ghost rows: seq<RuleRow>, ghost p: Progress,
               ghost all: seq<Segment>, e: Event)
      returns (r: Signal)
      requires Wired() && Plays(s) && At(s, start, rows, p)
      requires p.segs + [Single(e)] <= all
      requires Admit(emitter.GateNow(), e.kind).Some?
      modifies emitter, emitter.store, emitter.bus, emitter.fsm
      ensures r.Ok? ==> At(s, start, rows, p.(segs := p.segs + [Single(e)]))
      ensures r.Raised? ==> r.cause == External && Halted(s, start, rows, all)
      ensures emitter.store.Others(emitter.who.sessionId) == old(emitter.store.Others(emitter.who.sessionId))
    {
      PushSingleState(s, start, p.segs, e);
      ghost var before := emitter.Here();
      r := emitter.Emit(e);
      if r.Raised? {
        StopsInSay(s, start, rows, p.segs, e, all, ruleStore.enabled, before, emitter.Here());
      }
    }

    /** The executor plans the lifecycle that the model plans. */
    lemma PlanMatches(s: Script, p: Progress, toolName: string, input: ToolInput)
      requires Wired() && Plays(s)
      requires executor.RulesNow() == RulesAfter(s.rules, p.segs) && inbox.queues == p.inbox
      ensures executor.Plan(Call(ToolCallId(p.calls + 1), toolName, input)) == CallSegment(s, p, toolName, input)
    {
    }

    /** Makes one tool call under the next call id. */
    method MakeCall(ghost s: Script, ghost start: Cursor, ghost rows: seq<RuleRow>, ghost p: Progress,
                    ghost all: seq<Segment>, ghost seg: Segment, toolName: string, input: ToolInput)
      returns (r: Outcome<ExecutionOutcome>)
      requires emitter.store == store && executor.Apart() && s.writer == emitter.Emitting()
      requires executor.emitter == emitter && executor.inbox == inbox && executor.ruleStore == ruleStore
      requires At(s, start, rows, p) && Accepted(p) && p.status == Running
      requires executor.Plan(Call(ToolCallId(p.calls + 1), toolName, input)) == seg && p.segs + [seg] <= all
      modifies emitter, emitter.store, emitter.bus, emitter.fsm
      modifies `toolCallCounter, inbox, executor.Cells(), ruleStore
      ensures r.Returned? ==>
                && At(s, start, rows, AfterCall(p, seg))
                && seg.Outcome() == Status(r.value.status) && r.value.decision == seg.Decision()
      ensures r.Threw? ==> r.cause == External && Halted(s, start, rows, all)
      ensures emitter.store.Others(emitter.who.sessionId) == old(emitter.store.Others(emitter.who.sessionId))
    {
      toolCallCounter := toolCallCounter + 1;
      r := Invoke(s, start, rows, p, all, seg, Call(ToolCallId(toolCallCounter), toolName, input));
    }

    /** Hands a call to the executor. */
    method Invoke(ghost s: Script, ghost start: Cursor, ghost rows: seq<RuleRow>, ghost p: Progress, ghost all: seq<Segment>,
                  ghost seg: Segment, call: Call)
      returns (r: Outcome<ExecutionOutcome>)
      requires emitter.store == store && executor.Apart() && s.writer == emitter.Emitting()
      requires executor.emitter == emitter && executor.inbox == inbox && executor.ruleStore == ruleStore
      requires Followed(s, start, rows, p) && Accepted(p) && p.status == Running
      requires executor.Plan(call) == seg && seg.call == call && p.segs + [seg] <= all
      modifies emitter, emitter.store, emitter.bus, emitter.fsm
      modifies inbox, executor.Cells(), ruleStore
      ensures r.Returned? ==>
                && Followed(s, start, rows, AfterCall(p, seg))
                && seg.Outcome() == Status(r.value.status) && r.value.decision == seg.Decision()
      ensures r.Threw? ==> r.cause == External && Halted(s, start, rows, all)
      ensures emitter.store.Others(emitter.who.sessionId) == old(emitter.store.Others(emitter.who.sessionId))
    {
      ghost var here, rules, before := emitter.Here(), executor.RulesNow(), ruleStore.rows;
      r := executor.Execute(call);
      if r.Threw? {
        HaltedInCall(s, start, rows, p.segs, seg, all, here, rules, before);
      } else {
        PushCallState(s, start, p.segs, seg);
        RowsJoin(ruleStore.enabled, rows, p.segs, seg);
      }
    }

    /** A stopped call stops its run. */
    lemma HaltedInCall(s: Script, start: Cursor, rows: seq<RuleRow>, done: seq<Segment>, seg: Segment, all: seq<Segment>,
                       here: Cursor, rules: Rules, before: seq<RuleRow>)
      requires executor.emitter == emitter && executor.ruleStore == ruleStore && s.writer == emitter.Emitting()
      requires seg.Lifecycle? && done + [seg] <= all && here == EmitAll(s.writer, start, Flatten(done))
      requires rules == RulesAfter(s.rules, done) && before == rows + Recorded(ruleStore.enabled, done)
      requires executor.Stopped(here, SegmentEvents(seg), seg, rules, before)
      ensures Halted(s, start, rows, all)
    {
      var j: nat :| executor.StoppedAfter(j, here, SegmentEvents(seg), seg, rules, before);
      var k := |Flatten(done)| + j;
      CutInRun(s.writer, start, here, emitter.Here(), done, seg, all, j, k);
      StopsInCall(s, start, rows, done, seg, all, ruleStore.enabled, rules, before, executor.NewRows(seg),
                  emitter.Here(), executor.RulesNow(), ruleStore.rows, j, k);
    }

    /** What a finished call means for the run: nothing if it succeeded, otherwise a failed run. */
    method FailureResult(ghost s: Script, ghost start: Cursor, ghost rows: seq<RuleRow>, ghost p: Progress,
                         ghost all: seq<Segment>, ghost seg: Segment, outcome: ExecutionOutcome, ts: string)
      returns (r: Outcome<Option<RunResult>>)
      requires Wired() && Plays(s) && At(s, start, rows, p) && Accepted(p) && p.status == Running
      requires seg.Lifecycle? && seg.Outcome() == Status(outcome.status) && outcome.decision == seg.Decision()
      requires Conclude(p, seg).segs <= all
      modifies emitter, emitter.store, emitter.bus, emitter.fsm, index
      ensures r.Returned? ==> At(s, start, rows, Conclude(p, seg))
      ensures r.Returned? ==> Conclude(p, seg).status == if r.value.Some? then Ended(r.value.value) else Running
      ensures r.Returned? ==> Indexed(old(index.rows), r.value.Some?, ts)
      ensures r.Threw? ==> r.cause == External && Halted(s, start, rows, all)
      ensures emitter.store.Others(emitter.who.sessionId) == old(emitter.store.Others(emitter.who.sessionId))
    {
      if outcome.status == "denied" {
        var exitCode := if outcome.decision.reason == AskUnavailable then PERMISSION_UNAVAILABLE else PERMISSION_DENIED;
        r := EndFailed(s, start, rows, p, all, "PERMISSION_DENIED", exitCode, ts);
      } else if outcome.status != "success" {
        r := EndFailed(s, start, rows, p, all, "TOOL_RUNTIME_FAILURE", TOOL_RUNTIME_FAILURE, ts);
      } else {
        r := Returned(None);
      }
    }

    /** The index has the row of this run if the run ended, and is untouched otherwise. */
    ghost predicate Indexed(before: seq<SI.Row>, ended: bool, ts: string)
      reads index, emitter.who
    {
      index.rows == if ended then before + [SI.Row(emitter.who.sessionId, config.cwd, ts)] else before
    }

    /** Ends the run with a failure. */
    method EndFailed(ghost s: Script, ghost start: Cursor, ghost rows: seq<RuleRow>, ghost p: Progress,
                     ghost all: seq<Segment>, errorCode: string, exitCode: nat, ts: string)
      returns (r: Outcome<Option<RunResult>>)
      requires Wired() && Plays(s) && At(s, start, rows, p) && Accepted(p) && p.status == Running
      requires Fail(p, errorCode, exitCode).segs <= all
      modifies emitter, emitter.store, emitter.bus, emitter.fsm, index
      ensures r.Returned? ==>
                && At(s, start, rows, Fail(p, errorCode, exitCode))
                && r.value == Some(RunResult(false, exitCode, None))
                && Indexed(old(index.rows), true, ts)
      ensures r.Threw? ==> r.cause == External && Halted(s, start, rows, all)
      ensures emitter.store.Others(emitter.who.sessionId) == old(emitter.store.Others(emitter.who.sessionId))
    {
      AdmitTerminal(emitter.GateNow(), SessionFailed);
      var sig := Say(s, start, rows, p, all, Event(SessionFailed, "", Failed(errorCode)));
      if sig.Raised? {
        return Threw(sig.cause);
      }
      sig := index.Update(emitter.who.sessionId, config.cwd, ts);
      if sig.Raised? {
        AtHalts(s, start, rows, Fail(p, errorCode, exitCode), all);
        return Threw(sig.cause);
      }
      r := Returned(Some(RunResult(false, exitCode, None)));
    }

    /** Being at some progress of a run is one way to have halted in it. */
    lemma AtHalts(s: Script, start: Cursor, rows: seq<RuleRow>, p: Progress, all: seq<Segment>)
      requires At(s, start, rows, p) && p.segs <= all
      ensures Halted(s, start, rows, all)
    {
      StopsBehind(s, start, rows, p.segs, all, ruleStore.enabled, emitter.Here());
    }

    /** One tool call and what it means for the run. */
    method RunTool(ghost s: Script, ghost start: Cursor, ghost rows: seq<RuleRow>, ghost p: Progress,
                   ghost all: seq<Segment>, toolName: string, input: ToolInput, ts: string)
      returns (r: Outcome<Option<RunResult>>)
      requires Wired() && Plays(s) && At(s, start, rows, p) && Accepted(p) && p.status == Running
      requires CallTool(s, p, toolName, input).segs <= all
      modifies emitter, emitter.store, emitter.bus, emitter.fsm, index
      modifies `toolCallCounter, inbox, executor.Cells(), ruleStore
      ensures r.Returned? ==>
                && At(s, start, rows, CallTool(s, p, toolName, input))
                && CallTool(s, p, toolName, input).status == (if r.value.Some? then Ended(r.value.value) else Running)
                && Indexed(old(index.rows), r.value.Some?, ts)
      ensures r.Threw? ==> r.cause == External && Halted(s, start, rows, all)
      ensures emitter.store.Others(emitter.who.sessionId) == old(emitter.store.Others(emitter.who.sessionId))
    {
      PlanMatches(s, p, toolName, input);
      ghost var seg := CallSegment(s, p, toolName, input);
      AcceptedCall(p, seg, all);
      r := RunPlanned(s, start, rows, p, all, seg, AfterCall(p, seg), CallTool(s, p, toolName, input), toolName, input, ts);
    }

    method RunPlanned(ghost s: Script, ghost start: Cursor, ghost rows: seq<RuleRow>, ghost p: Progress,
                      ghost all: seq<Segment>, ghost seg: Segment, ghost made: Progress, ghost done: Progress,
                      toolName: string, input: ToolInput, ts: string)
      returns (r: Outcome<Option<RunResult>>)
      requires Wired() && Plays(s) && At(s, start, rows, p) && Accepted(p) && p.status == Running
      requires executor.Plan(Call(ToolCallId(p.calls + 1), toolName, input)) == seg
      requires made == AfterCall(p, seg) && done == Conclude(made, seg) && made.segs <= all && done.segs <= all
      requires seg.Outcome().Status? ==> Accepted(made)
      modifies emitter, emitter.store, emitter.bus, emitter.fsm, index
      modifies `toolCallCounter, inbox, executor.Cells(), ruleStore
      ensures r.Returned? ==>
                && At(s, start, rows, done) && done.status == (if r.value.Some? then Ended(r.value.value) else Running)
                && Indexed(old(index.rows), r.value.Some?, ts)
      ensures r.Threw? ==> r.cause == External && Halted(s, start, rows, all)
      ensures emitter.store.Others(emitter.who.sessionId) == old(emitter.store.Others(emitter.who.sessionId))
    {
      var outcome := MakeCall(s, start, rows, p, all, seg, toolName, input);
      if outcome.Threw? {
        return Threw(outcome.cause);
      }
      r := FailureResult(s, start, rows, made, all, seg, outcome.value, ts);
    }

    /** The prompt of the run, if there is one. */
    method ExtractPrompt(messages: seq<ControlMessage>) returns (prompt: Option<string>)
      ensures prompt == Prompt(config, messages)
      ensures config.inputMode == TextInput ==> prompt == Some(config.prompt)
      ensures config.inputMode == StreamJson ==> prompt == FirstUserText(messages)
    {
      if config.inputMode == TextInput {
        return Some(config.prompt);
      }
      var i := 0;
      while i < |messages|
        invariant 0 <= i <= |messages|
        invariant FirstUserText(messages) == FirstUserText(messages[i..])
      {
        if messages[i].UserText? {
          return Some(messages[i].content);
        }
        i := i + 1;
      }
      prompt := None;
    }

    /** Announces the run and the user's message; raises if there is none. */
    method Open(ghost s: Script, ghost start: Cursor, ghost rows: seq<RuleRow>, ghost o: Progress, ghost all: seq<Segment>,
                resumed: bool, messages: seq<ControlMessage>)
      returns (r: Signal)
      requires Wired() && Plays(s) && At(s, start, rows, Initial(s))
      requires s.resumed == resumed && s.prompt == Prompt(config, messages)
      requires o == Opening(s) && o.segs <= all
      modifies emitter, emitter.store, emitter.bus, emitter.fsm
      ensures r.Ok? ==> s.prompt.Some? && At(s, start, rows, o)
      ensures r.Raised? ==> r.cause == External && Halted(s, start, rows, all)
      ensures emitter.store.Others(emitter.who.sessionId) == old(emitter.store.Others(emitter.who.sessionId))
    {
      AdmitOpening();
      StartIs(s);
      OpeningIs(s);
      r := Say(s, start, rows, Initial(s), all, Event(if resumed then SessionResumed else SessionStart, "", Unread));
      if r.Raised? {
        return;
      }
      var prompt := ExtractPrompt(messages);
      if prompt.None? {
        AtHalts(s, start, rows, Start(s), all);
        return Raised(External);
      }
      r := Say(s, start, rows, Start(s), all, Event(UserMessage, "", Text(prompt.value)));
    }

    /** On a resumed run, repeats what the log asks for, at most once. */
    method Recover(ghost s: Script, ghost start: Cursor, ghost rows: seq<RuleRow>, ghost o: Progress,
                   ghost plan: Option<Recovery.Retry>, ghost p: Progress, ghost all: seq<Segment>,
                   resumed: bool, ts: string)
      returns (r: Outcome<Option<RunResult>>, hadTool: bool)
      requires Wired() && Plays(s) && At(s, start, rows, o) && Accepted(o) && o.status == Running && !o.hadTool
      requires plan == (if resumed then Recovery.RecoveryPlan(EventsOf(store.Log(emitter.who.sessionId))) else None)
      requires p == Repeated(s, o, plan)
      requires p.segs <= all
      modifies emitter, emitter.store, emitter.bus, emitter.fsm, index
      modifies `toolCallCounter, inbox, executor.Cells(), ruleStore
      ensures r.Returned? ==>
                && At(s, start, rows, p) && hadTool == p.hadTool
                && p.status == (if r.value.Some? then Ended(r.value.value) else Running)
                && Indexed(old(index.rows), r.value.Some?, ts)
      ensures r.Threw? ==> r.cause == External && Halted(s, start, rows, all)
      ensures emitter.store.Others(emitter.who.sessionId) == old(emitter.store.Others(emitter.who.sessionId))
    {
      hadTool := false;
      if !resumed {
        return Returned(None), false;
      }
      var records := store.LoadRecords(emitter.who.sessionId);
      var retry := Recovery.FindRetry(records);
      if retry.None? {
        return Returned(None), false;
      }
      CallToolHasTool(s, o, retry.value.toolName, retry.value.input);
      r := RunTool(s, start, rows, o, all, retry.value.toolName, retry.value.input, ts);
      hadTool := true;
    }

    /** Handles one item of the adapted stream. */
    method TakeItem(ghost s: Script, ghost start: Cursor, ghost rows: seq<RuleRow>, ghost p: Progress,
                    ghost all: seq<Segment>, item: Adapted, ts: string)
      returns (r: Outcome<Option<RunResult>>)
      requires Wired() && Plays(s) && At(s, start, rows, p) && Accepted(p) && p.status == Running
      requires Take(s, p, item).segs <= all
      modifies emitter, emitter.store, emitter.bus, emitter.fsm, index
      modifies `toolCallCounter, inbox, executor.Cells(), ruleStore
      ensures r.Returned? ==>
                && At(s, start, rows, Take(s, p, item))
                && Take(s, p, item).status == (if r.value.Some? then Ended(r.value.value) else Running)
                && Indexed(old(index.rows), r.value.Some?, ts)
      ensures r.Threw? ==> r.cause == External && Halted(s, start, rows, all)
      ensures emitter.store.Others(emitter.who.sessionId) == old(emitter.store.Others(emitter.who.sessionId))
    {
      TakeIs(s, p, item);
      match item {
        case AdaptedDelta(t) =>
          r := Speak(s, start, rows, p, all, AssistantDelta, t);
        case AdaptedMessage(t) =>
          r := Speak(s, start, rows, p, all, AssistantMessage, t);
        case AdaptedTool(n, input) =>
          r := RunTool(s, start, rows, p, all, n, input, ts);
        case AdaptedBadTool =>
          AtHalts(s, start, rows, p, all);
          r := Threw(External);
      }
    }

    /** Emits a delta or a message of the assistant. */
    method Speak(ghost s: Script, ghost start: Cursor, ghost rows: seq<RuleRow>, ghost p: Progress,
                 ghost all: seq<Segment>, kind: EventType, text: string)
      returns (r: Outcome<Option<RunResult>>)
      requires Wired() && Plays(s) && At(s, start, rows, p) && Accepted(p) && p.status == Running
      requires kind.AssistantDelta? || kind.AssistantMessage?
      requires p.segs + [Single(Event(kind, "", Text(text)))] <= all
      modifies emitter, emitter.store, emitter.bus, emitter.fsm
      ensures r.Returned? ==>
                r.value == None && At(s, start, rows, p.(segs := p.segs + [Single(Event(kind, "", Text(text)))]))
      ensures r.Threw? ==> r.cause == External && Halted(s, start, rows, all)
      ensures emitter.store.Others(emitter.who.sessionId) == old(emitter.store.Others(emitter.who.sessionId))
    {
      var sig := Say(s, start, rows, p, all, Event(kind, "", Text(text)));
      r := if sig.Raised? then Threw(sig.cause) else Returned(None);
    }

    /** Adapts the provider's chunks and consumes what comes of them. */
    method Stream(ghost s: Script, ghost start: Cursor, ghost rows: seq<RuleRow>, ghost p: Progress,
                  ghost q: Progress, ghost all: seq<Segment>, chunks: seq<Chunk>, recoveryHadTool: bool, ts: string)
      returns (r: Outcome<Option<RunResult>>, final: Option<string>, hadTool: bool)
      requires Wired() && Plays(s) && At(s, start, rows, p) && Accepted(p) && p.status == Running
      requires p.final == None && p.hadTool == recoveryHadTool
      requires q == StreamFrom(s, p, chunks) && q.segs <= all
      modifies emitter, emitter.store, emitter.bus, emitter.fsm, index
      modifies `toolCallCounter, inbox, executor.Cells(), ruleStore
      ensures r.Returned? ==>
                && At(s, start, rows, q) && final == q.final && hadTool == q.hadTool
                && q.status == (if r.value.Some? then Ended(r.value.value) else Running)
                && Indexed(old(index.rows), r.value.Some?, ts)
      ensures r.Threw? ==> r.cause == External && Halted(s, start, rows, all)
      ensures emitter.store.Others(emitter.who.sessionId) == old(emitter.store.Others(emitter.who.sessionId))
    {
      var items, ok := Adapt(chunks);
      StreamFromIs(s, p, chunks);
      r, final, hadTool := StreamItems(s, start, rows, p, all, items, recoveryHadTool, ts);
      if r.Returned? && r.value.None? && !ok {
        AtHalts(s, start, rows, TakeAll(s, p, items), all);
        r := Threw(External);
      }
    }

    /** The loop over the adapted stream. */
    method StreamItems(ghost s: Script, ghost start: Cursor, ghost rows: seq<RuleRow>, ghost p: Progress,
                       ghost all: seq<Segment>, items: seq<Adapted>, recoveryHadTool: bool, ts: string)
      returns (r: Outcome<Option<RunResult>>, final: Option<string>, hadTool: bool)
      requires Wired() && Plays(s) && At(s, start, rows, p) && Accepted(p) && p.status == Running
      requires p.final == None && p.hadTool == recoveryHadTool
      requires TakeAll(s, p, items).segs <= all
      modifies emitter, emitter.store, emitter.bus, emitter.fsm, index
      modifies `toolCallCounter, inbox, executor.Cells(), ruleStore
      ensures var q := TakeAll(s, p, items);
              r.Returned? ==>
                && At(s, start, rows, q) && final == q.final && hadTool == q.hadTool
                && q.status == (if r.value.Some? then Ended(r.value.value) else Running)
                && Indexed(old(index.rows), r.value.Some?, ts)
      ensures r.Threw? ==> r.cause == External && Halted(s, start, rows, all)
      ensures emitter.store.Others(emitter.who.sessionId) == old(emitter.store.Others(emitter.who.sessionId))
    {
      final, hadTool := None, recoveryHadTool;
      r := Returned(None);
      ghost var q := p;
      var i := 0;
      while i < |items| && r.Returned? && r.value.None?
        invariant 0 <= i <= |items|
        invariant Loop(s, p, items, i, q)
        invariant r.Returned? ==> At(s, start, rows, q) && final == q.final && hadTool == q.hadTool
        invariant r.Returned? ==> q.status == (if r.value.Some? then Ended(r.value.value) else Running)
        invariant r.Returned? ==> Indexed(old(index.rows), r.value.Some?, ts)
        invariant r.Threw? ==> r.cause == External && Halted(s, start, rows, all)
        invariant emitter.store.Others(emitter.who.sessionId) == old(emitter.store.Others(emitter.who.sessionId))
      {
        LoopStep(s, p, items, i, q);
        r, final, hadTool := StreamItem(s, start, rows, q, all, items[i], final, hadTool, ts);
        q := Take(s, q, items[i]);
        i := i + 1;
      }
      LoopEnd(s, p, items, i, q);
    }

    /** One turn of the loop, with the two variables it keeps. */
    method StreamItem(ghost s: Script, ghost start: Cursor, ghost rows: seq<RuleRow>, ghost p: Progress,
                      ghost all: seq<Segment>, item: Adapted, final: Option<string>, hadTool: bool, ts: string)
      returns (r: Outcome<Option<RunResult>>, newFinal: Option<string>, newHadTool: bool)
      requires Wired() && Plays(s) && At(s, start, rows, p) && Accepted(p) && p.status == Running
      requires final == p.final && hadTool == p.hadTool
      requires Take(s, p, item).segs <= all
      modifies emitter, emitter.store, emitter.bus, emitter.fsm, index
      modifies `toolCallCounter, inbox, executor.Cells(), ruleStore
      ensures r.Returned? ==>
                && At(s, start, rows, Take(s, p, item))
                && Take(s, p, item).status == (if r.value.Some? then Ended(r.value.value) else Running)
                && newFinal == Take(s, p, item).final && newHadTool == Take(s, p, item).hadTool
                && Indexed(old(index.rows), r.value.Some?, ts)
      ensures r.Threw? ==> r.cause == External && Halted(s, start, rows, all)
      ensures emitter.store.Others(emitter.who.sessionId) == old(emitter.store.Others(emitter.who.sessionId))
    {
      TakeKeeps(s, p, item);
      newFinal, newHadTool := final, hadTool;
      if item.AdaptedMessage? {
        newFinal := Some(item.text);
      } else if item.AdaptedTool? || item.AdaptedBadTool? {
        newHadTool := true;
      }
      r := TakeItem(s, start, rows, p, all, item, ts);
    }

    /** Ends a run whose stream is exhausted. */
    method Close(ghost s: Script, ghost start: Cursor, ghost rows: seq<RuleRow>, ghost p: Progress,
                 ghost run: Progress, final: Option<string>, hadTool: bool, ts: string)
      returns (r: Outcome<RunResult>)
      requires Wired() && Plays(s) && At(s, start, rows, p) && Accepted(p) && p.status == Running
      requires final == p.final && hadTool == p.hadTool && run == Closing(p)
      modifies emitter, emitter.store, emitter.bus, emitter.fsm, index
      ensures Over(s, start, rows, run, r, old(index.rows), ts)
      ensures emitter.store.Others(emitter.who.sessionId) == old(emitter.store.Others(emitter.who.sessionId))
    {
      ClosingIs(p);
      if final.None? && !hadTool {
        var failed := EndFailed(s, start, rows, p, run.segs, "MODEL_NO_MESSAGE", MODEL_FAILURE, ts);
        if failed.Threw? {
          return Threw(failed.cause);
        }
        return Returned(RunResult(false, MODEL_FAILURE, None));
      }
      var sig := Complete(s, start, rows, p, run.segs, ts);
      if sig.Raised? {
        return Threw(sig.cause);
      }
      r := Returned(RunResult(true, SUCCESS, final));
    }

    /** Ends the run with success. */
    method Complete(ghost s: Script, ghost start: Cursor, ghost rows: seq<RuleRow>, ghost p: Progress,
                    ghost all: seq<Segment>, ts: string)
      returns (r: Signal)
      requires Wired() && Plays(s) && At(s, start, rows, p) && Accepted(p) && p.status == Running
      requires Completed(p).segs <= all
      modifies emitter, emitter.store, emitter.bus, emitter.fsm, index
      ensures r.Ok? ==> At(s, start, rows, Completed(p)) && Indexed(old(index.rows), true, ts)
      ensures r.Raised? ==> r.cause == External && Halted(s, start, rows, all)
      ensures emitter.store.Others(emitter.who.sessionId) == old(emitter.store.Others(emitter.who.sessionId))
    {
      AdmitTerminal(emitter.GateNow(), SessionCompleted);
      r := Say(s, start, rows, p, all, Event(SessionCompleted, "", Unread));
      if r.Raised? {
        return;
      }
      r := index.Update(emitter.who.sessionId, config.cwd, ts);
      if r.Raised? {
        AtHalts(s, start, rows, Completed(p), all);
      }
    }

    /** The provider's part of a run: it turns `p` into `q` and, if the run goes on, into `run`. */
    method Converse(ghost s: Script, ghost start: Cursor, ghost rows: seq<RuleRow>, ghost p: Progress, ghost q: Progress,
                    ghost run: Progress, recoveryHadTool: bool, ts: string)
      returns (r: Outcome<RunResult>)
      requires Wired() && Plays(s) && At(s, start, rows, p) && p.status == Running
      requires p.hadTool == recoveryHadTool && Leads(s, p, q, run)
      modifies emitter, emitter.store, emitter.bus, emitter.fsm, index
      modifies `toolCallCounter, inbox, executor.Cells(), ruleStore
      ensures Over(s, start, rows, run, r, old(index.rows), ts)
      ensures emitter.store.Others(emitter.who.sessionId) == old(emitter.store.Others(emitter.who.sessionId))
    {
      if provider.None? {
        AtHalts(s, start, rows, p, run.segs);
        return Threw(External);
      }
      r := StreamAndClose(s, start, rows, p, q, run, provider.value, recoveryHadTool, ts);
    }

    /** The stream, and the end of the run unless a call ended it. */
    method StreamAndClose(ghost s: Script, ghost start: Cursor, ghost rows: seq<RuleRow>, ghost p: Progress, ghost q: Progress,
                          ghost run: Progress, chunks: seq<Chunk>, recoveryHadTool: bool, ts: string)
      returns (r: Outcome<RunResult>)
      requires Wired() && Plays(s) && At(s, start, rows, p) && Accepted(p) && p.status == Running
      requires p.final == None && p.hadTool == recoveryHadTool
      requires q == StreamFrom(s, p, chunks) && q.segs <= run.segs && Accepted(q)
      requires run == if q.status == Running then Closing(q) else q
      modifies emitter, emitter.store, emitter.bus, emitter.fsm, index
      modifies `toolCallCounter, inbox, executor.Cells(), ruleStore
      ensures Over(s, start, rows, run, r, old(index.rows), ts)
      ensures emitter.store.Others(emitter.who.sessionId) == old(emitter.store.Others(emitter.who.sessionId))
    {
      var streamed, final, hadTool := Stream(s, start, rows, p, q, run.segs, chunks, recoveryHadTool, ts);
      if streamed.Threw? {
        return Threw(streamed.cause);
      }
      if streamed.value.Some? {
        return Returned(streamed.value.value);
      }
      r := Close(s, start, rows, q, run, final, hadTool, ts);
    }

    /** A run whose session is bound: its opening, its recovery, the stream and its end. */
    method Proceed(ghost s: Script, ghost start: Cursor, ghost rows: seq<RuleRow>, ghost o: Progress,
                   ghost plan: Option<Recovery.Retry>, ghost p: Progress, ghost q: Progress, ghost run: Progress,
                   resumed: bool, messages: seq<ControlMessage>, ts: string)
      returns (r: Outcome<RunResult>)
      requires Wired() && Plays(s) && At(s, start, rows, Initial(s))
      requires s.resumed == resumed && s.prompt == Prompt(config, messages)
      requires Staged(s, start, o, plan, p, q, run)
      modifies emitter, emitter.store, emitter.bus, emitter.fsm, index
      modifies `toolCallCounter, inbox, executor.Cells(), ruleStore
      ensures Over(s, start, rows, run, r, old(index.rows), ts)
      ensures emitter.store.Others(emitter.who.sessionId) == old(emitter.store.Others(emitter.who.sessionId))
    {
      assert o == Opening(s) && o.segs <= run.segs;
      var begun := Open(s, start, rows, o, run.segs, resumed, messages);
      if begun.Raised? {
        return Threw(begun.cause);
      }
      r := Continue(s, start, rows, o, plan, p, q, run, resumed, ts);
    }

    /** The recovery of a run, and then the stream unless the recovery ended it. */
    method Continue(ghost s: Script, ghost start: Cursor, ghost rows: seq<RuleRow>,
                    ghost o: Progress, ghost plan: Option<Recovery.Retry>, ghost p: Progress, ghost q: Progress,
                    ghost run: Progress, resumed: bool, ts: string)
      returns (r: Outcome<RunResult>)
      requires Wired() && Plays(s) && At(s, start, rows, o) && Accepted(o) && o.status == Running && !o.hadTool
      requires plan == (if resumed then Recovery.RecoveryPlan(EventsOf(store.Log(emitter.who.sessionId))) else None)
      requires p == Repeated(s, o, plan)
      requires p.segs <= run.segs && (p.status.Ended? ==> run == p)
      requires p.status == Running ==> Leads(s, p, q, run)
      modifies emitter, emitter.store, emitter.bus, emitter.fsm, index
      modifies `toolCallCounter, inbox, executor.Cells(), ruleStore
      ensures Over(s, start, rows, run, r, old(index.rows), ts)
      ensures emitter.store.Others(emitter.who.sessionId) == old(emitter.store.Others(emitter.who.sessionId))
    {
      var recovered, hadTool := Recover(s, start, rows, o, plan, p, run.segs, resumed, ts);
      if recovered.Threw? {
        return Threw(recovered.cause);
      }
      if recovered.value.Some? {
        return Returned(recovered.value.value);
      }
      r := Converse(s, start, rows, p, q, run, hadTool, ts);
    }

    /** Takes up a session: its numbering, its answers, its remembered rules and those of the rule file. */
    method Bind(sessionId: string, runId: string, messages: seq<ControlMessage>,
                ghost s: Script, ghost start: Cursor, ghost rows: seq<RuleRow>, ghost others: map<HashCell, set<string>>)
      requires Wired() && emitter.GateNow() == START_GATE && registry.Apart() && WellFormed(store.Log(sessionId))
      requires s.messages == messages && s.rules == RulesFor(sessionId)
      requires s.writer == Writer(runId, store.persistenceEnabled)
      requires start == StartCursor(store.Log(sessionId), emitter.bus.delivered) && rows == ruleStore.rows
      requires Hold(others) && others.Keys !! registry.CellsOf(sessionId)
      modifies emitter, emitter.who, `toolCallCounter, inbox, registry, executor
      ensures Wired() && emitter.who.sessionId == sessionId && emitter.who.runId == runId
      ensures At(s, start, rows, Initial(s))
      ensures Joined(sessionId) && others.Keys !! executor.Cells()
      ensures Hold(others)
      ensures fresh(executor.Cells() - old(registry.CellsOf(sessionId)))
      ensures registry.cells == old(registry.cells)[sessionId := ReplayCells(executor.sessionAllow, executor.sessionDeny)]
    {
      BindParts(sessionId, runId, messages, others, registry.CellsOf(sessionId));
      InitialAt(s, start);
    }

    method BindParts(sessionId: string, runId: string, messages: seq<ControlMessage>,
                     ghost others: map<HashCell, set<string>>, ghost known: set<HashCell>)
      requires Wired() && registry.Apart() && WellFormed(store.Log(sessionId))
      requires known == registry.CellsOf(sessionId) && Hold(others) && others.Keys !! known
      modifies emitter, emitter.who, `toolCallCounter, inbox, registry, executor
      ensures Wired() && emitter.who.sessionId == sessionId && emitter.who.runId == runId && toolCallCounter == 0
      ensures emitter.Here() == StartCursor(store.Log(sessionId), emitter.bus.delivered)
      ensures emitter.GateNow() == old(emitter.GateNow())
      ensures inbox.queues == LoadQueues(messages) && executor.RulesNow() == old(RulesFor(sessionId))
      ensures Joined(sessionId) && others.Keys !! executor.Cells()
      ensures Hold(others)
      ensures forall c :: c in executor.Cells() && c !in known ==> fresh(c)
      ensures registry.cells == old(registry.cells)[sessionId := ReplayCells(executor.sessionAllow, executor.sessionDeny)]
    {
      FirstSeqMeansEmpty(store.Log(sessionId));
      BindNumbersOnly(sessionId, runId, messages, others);
      BindRules(sessionId, emitter.number == 0, others, known);
    }

    /** Taking up the numbering leaves the remembered rules, and all set objects, alone. */
    method BindNumbersOnly(sessionId: string, runId: string, messages: seq<ControlMessage>,
                           ghost others: map<HashCell, set<string>>)
      requires Wired() && registry.Apart() && Hold(others)
      modifies emitter, emitter.who, `toolCallCounter, inbox
      ensures Wired() && registry.Apart() && Hold(others) && RulesFor(sessionId) == old(RulesFor(sessionId))
      ensures registry.CellsOf(sessionId) == old(registry.CellsOf(sessionId))
      ensures emitter.who.sessionId == sessionId && emitter.who.runId == runId && toolCallCounter == 0
      ensures emitter.Here() == StartCursor(store.Log(sessionId), emitter.bus.delivered)
      ensures emitter.GateNow() == old(emitter.GateNow())
      ensures inbox.queues == LoadQueues(messages)
    {
      BindNumbers(sessionId, runId, messages);
    }

    lemma InitialAt(s: Script, start: Cursor)
      requires emitter.Here() == start && emitter.GateNow() == START_GATE && executor.RulesNow() == s.rules
      requires inbox.queues == LoadQueues(s.messages) && toolCallCounter == 0
      ensures At(s, start, ruleStore.rows, Initial(s))
    {
      InitialIs(s, start, ruleStore.enabled, ruleStore.rows);
    }

    /** Takes up the numbering of a session and the user's answers. */
    method BindNumbers(sessionId: string, runId: string, messages: seq<ControlMessage>)
      modifies emitter, emitter.who, `toolCallCounter, inbox
      ensures emitter.who.sessionId == sessionId && emitter.who.runId == runId && toolCallCounter == 0
      ensures emitter.Here() == StartCursor(emitter.store.Log(sessionId), emitter.bus.delivered)
      ensures emitter.GateNow() == old(emitter.GateNow())
      ensures inbox.queues == LoadQueues(messages)
    {
      emitter.Begin(sessionId, runId);
      toolCallCounter := 0;
      inbox.Load(messages);
    }

    /** The executor works on the set objects that the registry holds for the session. */
    ghost predicate Joined(sessionId: string)
      reads registry, executor
    {
      && registry.Apart() && executor.Apart()
      && sessionId in registry.cells
      && registry.cells[sessionId] == ReplayCells(executor.sessionAllow, executor.sessionDeny)
    }

    /** Binds the executor to the set objects of the session and to sets of its own for the rule file. */
    method BindRules(sessionId: string, emptyLog: bool, ghost others: map<HashCell, set<string>>,
                     ghost known: set<HashCell>)
      requires executor.ruleStore == ruleStore && registry.Apart() && emptyLog == (store.Log(sessionId) == [])
      requires known == registry.CellsOf(sessionId) && Hold(others) && others.Keys !! known
      modifies registry, executor
      ensures executor.ruleStore == ruleStore && executor.RulesNow() == old(RulesFor(sessionId))
      ensures Joined(sessionId) && others.Keys !! executor.Cells()
      ensures Hold(others)
      ensures forall c :: c in executor.Cells() && c !in known ==> fresh(c)
      ensures registry.cells == old(registry.cells)[sessionId := ReplayCells(executor.sessionAllow, executor.sessionDeny)]
    {
      var replay := registry.Bind(sessionId, emptyLog);
      executor.BindSessionReplayState(replay.allow, replay.deny);
      LoadRules();
    }

    /** Reads the rule file into two new sets. */
    method LoadRules()
      requires executor.ruleStore == ruleStore
      modifies executor`persistentAllow, executor`persistentDeny, executor`ruleStore
      ensures executor.ruleStore == ruleStore
      ensures fresh(executor.persistentAllow) && fresh(executor.persistentDeny)
      ensures executor.persistentAllow != executor.persistentDeny
      ensures executor.persistentAllow.hashes == if ruleStore.enabled then Hashes(ruleStore.rows, "allow") else {}
      ensures executor.persistentDeny.hashes == if ruleStore.enabled then Hashes(ruleStore.rows, "deny") else {}
    {
      var allow, deny := ruleStore.LoadHashSets();
      var allowCell := new HashCell(allow);
      var denyCell := new HashCell(deny);
      executor.BindPersistentReplayState(allowCell, denyCell, ruleStore);
    }

    /** A bound run leaves all set objects alone but those of its executor. */
    method ProceedSparing(ghost s: Script, ghost start: Cursor, ghost rows: seq<RuleRow>, ghost o: Progress,
                          ghost plan: Option<Recovery.Retry>, ghost p: Progress, ghost q: Progress, ghost run: Progress,
                          ghost others: map<HashCell, set<string>>,
                          resumed: bool, messages: seq<ControlMessage>, ts: string)
      returns (r: Outcome<RunResult>)
      requires Wired() && Plays(s) && At(s, start, rows, Initial(s))
      requires s.resumed == resumed && s.prompt == Prompt(config, messages)
      requires Staged(s, start, o, plan, p, q, run)
      requires Hold(others) && others.Keys !! executor.Cells()
      modifies emitter, emitter.store, emitter.bus, emitter.fsm, index
      modifies `toolCallCounter, inbox, executor.Cells(), ruleStore
      ensures Over(s, start, rows, run, r, old(index.rows), ts)
      ensures emitter.store.Others(emitter.who.sessionId) == old(emitter.store.Others(emitter.who.sessionId))
      ensures Hold(others)
    {
      r := Proceed(s, start, rows, o, plan, p, q, run, resumed, messages, ts);
    }

    /** Nor does it change who is running, or which set objects belong to whom. */
    method ProceedJoined(ghost s: Script, ghost start: Cursor, ghost rows: seq<RuleRow>, ghost o: Progress,
                         ghost plan: Option<Recovery.Retry>, ghost p: Progress, ghost q: Progress, ghost run: Progress,
                         ghost others: map<HashCell, set<string>>,
                         resumed: bool, messages: seq<ControlMessage>, ts: string)
      returns (r: Outcome<RunResult>)
      requires Wired() && Plays(s) && At(s, start, rows, Initial(s))
      requires s.resumed == resumed && s.prompt == Prompt(config, messages)
      requires Joined(emitter.who.sessionId) && Hold(others) && others.Keys !! executor.Cells()
      requires Staged(s, start, o, plan, p, q, run)
      modifies emitter, emitter.store, emitter.bus, emitter.fsm, index
      modifies `toolCallCounter, inbox, executor.Cells(), ruleStore
      ensures Over(s, start, rows, run, r, old(index.rows), ts)
      ensures emitter.store.Others(emitter.who.sessionId) == old(emitter.store.Others(emitter.who.sessionId))
      ensures emitter.who.sessionId == old(emitter.who.sessionId) && emitter.who.runId == old(emitter.who.runId)
      ensures registry.cells == old(registry.cells)
      ensures Joined(emitter.who.sessionId)
      ensures Hold(others)
    {
      r := ProceedSparing(s, start, rows, o, plan, p, q, run, others, resumed, messages, ts);
    }

    /** A run on a session, whose stages are known. */
    method RunOn(ghost s: Script, ghost start: Cursor, ghost rows: seq<RuleRow>, ghost o: Progress,
                 ghost plan: Option<Recovery.Retry>, ghost p: Progress, ghost q: Progress, ghost run: Progress,
                 ghost others: map<HashCell, set<string>>,
                 sessionId: string, runId: string, resumed: bool, messages: seq<ControlMessage>, ts: string)
      returns (r: Outcome<RunResult>)
      requires Wired() && emitter.GateNow() == START_GATE && registry.Apart() && WellFormed(store.Log(sessionId))
      requires s == ScriptOf(runId, resumed, messages, RulesFor(sessionId))
      requires start == StartCursor(store.Log(sessionId), emitter.bus.delivered) && rows == ruleStore.rows
      requires Staged(s, start, o, plan, p, q, run)
      requires Hold(others) && others.Keys !! registry.CellsOf(sessionId)
      modifies emitter, emitter.who, store, emitter.bus, emitter.fsm, index
      modifies `toolCallCounter, inbox, executor, registry, registry.CellsOf(sessionId), ruleStore
      ensures emitter.who.sessionId == sessionId && emitter.who.runId == runId
      ensures Over(s, start, rows, run, r, old(index.rows), ts)
      ensures store.Others(sessionId) == old(store.Others(sessionId))
      ensures Joined(sessionId)
      ensures registry.cells == old(registry.cells)[sessionId := ReplayCells(executor.sessionAllow, executor.sessionDeny)]
      ensures Hold(others)
    {
      Bind(sessionId, runId, messages, s, start, rows, others);
      r := ProceedJoined(s, start, rows, o, plan, p, q, run, others, resumed, messages, ts);
    }

    /** What the executor's session sets hold. */
    ghost function MemoryNow(): Memory
      reads executor, executor.Cells()
    {
      Memory(executor.RulesNow().sessionAllow, executor.RulesNow().sessionDeny)
    }

    /** The records and numbers that a run on this session starts from. */
    function StartOf(sessionId: string): Cursor
      reads store, emitter.bus
    {
      StartCursor(store.Log(sessionId), emitter.bus.delivered)
    }

    /**
     A run on a session whose ids are resolved. If it returns, it has done what the model says, to the
     last event; if it raises, it was not the state machine or the terminal guard that raised, and it
     leaves a cut of the modelled run. Either way the log of its session is well formed and begins
     with the old log, and the logs and the remembered answers of all other sessions are untouched.
     */
    method RunResolved(sessionId: string, runId: string, resumed: bool, messages: seq<ControlMessage>, ts: string)
      returns (r: Outcome<RunResult>)
      requires Wired() && emitter.GateNow() == START_GATE && registry.Apart() && WellFormed(store.Log(sessionId))
      modifies emitter, emitter.who, store, emitter.bus, emitter.fsm, index
      modifies `toolCallCounter, inbox, executor, registry, registry.CellsOf(sessionId), ruleStore
      ensures emitter.who.sessionId == sessionId && emitter.who.runId == runId
      ensures var s := ScriptOf(runId, resumed, messages, old(RulesFor(sessionId)));
              var run := RunModel.Run(s, EventsOf(old(store.Log(sessionId))));
              && (r.Returned? ==>
                    && At(s, old(StartOf(sessionId)), old(ruleStore.rows), run) && run.status == Ended(r.value)
                    && Indexed(old(index.rows), true, ts))
              && (r.Threw? ==> r.cause == External && Halted(s, old(StartOf(sessionId)), old(ruleStore.rows), run.segs))
      ensures WellFormed(store.Log(sessionId)) && old(store.Log(sessionId)) <= store.Log(sessionId)
      ensures store.Others(sessionId) == old(store.Others(sessionId))
      ensures Joined(sessionId)
      ensures registry.cells == old(registry.cells)[sessionId := ReplayCells(executor.sessionAllow, executor.sessionDeny)]
      ensures registry.OtherMemories(sessionId) == old(registry.OtherMemories(sessionId))
    {
      ghost var s := ScriptOf(runId, resumed, messages, RulesFor(sessionId));
      ghost var start := StartOf(sessionId);
      ghost var o, plan, p, q := Stages(s, start, EventsOf(start.log));
      ghost var run := RunModel.Run(s, EventsOf(start.log));
      ghost var before, others, rows := registry.cells, registry.Others(sessionId), ruleStore.rows;
      registry.OthersNow(sessionId);
      r := RunOn(s, start, rows, o, plan, p, q, run, others, sessionId, runId, resumed, messages, ts);
      registry.OthersThen(sessionId, before, others);
      if r.Threw? {
        StopsIsCut(s, start, rows, run.segs, ruleStore.enabled, emitter.Here(), executor.RulesNow(), ruleStore.rows);
      }
      LogAfterRun(s.writer, start, emitter.Here(), run.segs);
    }

    /** The logs, the memories and the rule file, as a world. */
    ghost function WorldNow(): World.World
      reads store, registry, registry.AllCells(), ruleStore
    {
      World.World(store.Files(), registry.Memories(), ruleStore.rows)
    }

    lemma WorldRules(sessionId: string)
      ensures World.LogOf(WorldNow(), sessionId) == store.Log(sessionId)
      ensures World.RulesIn(WorldNow(), sessionId, ruleStore.enabled) == RulesFor(sessionId)
    {
    }

    /** A run that halted somewhere, seen as a move between worlds. */
    lemma HaltedLeads(w: World.World, s: Script, all: seq<Segment>, sessionId: string, bus: seq<Record>)
      returns (v: World.Move)
      requires Halted(s, StartCursor(World.LogOf(w, sessionId), bus), w.rows, all)
      requires all == RunModel.Run(s, EventsOf(World.LogOf(w, sessionId))).segs
      requires s.rules == World.RulesIn(w, sessionId, ruleStore.enabled)
      requires WorldNow() == World.World(
                 World.Logged(w, sessionId, emitter.Here().log), w.memory[sessionId := MemoryNow()], ruleStore.rows)
      ensures v.Visit? && v.sessionId == sessionId && v.script == s && v.enabled == ruleStore.enabled
      ensures World.Leads(w, v, WorldNow())
    {
      var k: nat, m: nat, n: nat :|
        StopsAt(s, StartCursor(World.LogOf(w, sessionId), bus), w.rows, all,
                ruleStore.enabled, emitter.Here(), executor.RulesNow(), ruleStore.rows, k, m, n);
      v := World.StopIsVisit(w, WorldNow(), sessionId, s, ruleStore.enabled, bus, emitter.Here(), k, m, n);
    }

    lemma WorldFormed()
      ensures World.Formed(WorldNow()) <==> forall sessionId :: WellFormed(store.Log(sessionId))
    {
      forall sessionId
        ensures World.LogOf(WorldNow(), sessionId) == store.Log(sessionId)
      {
        WorldRules(sessionId);
      }
    }

    lemma WorldThen(w: World.World, logs: map<string, seq<Record>>, sessionId: string)
      requires w.logs == NonEmpty(logs) && store.Others(sessionId) == logs - {sessionId}
      requires World.LogOf(w, sessionId) <= store.Log(sessionId)
      requires registry.OtherMemories(sessionId) == w.memory - {sessionId} && Joined(sessionId)
      ensures WorldNow() == World.World(
                World.Logged(w, sessionId, store.Log(sessionId)), w.memory[sessionId := MemoryNow()], ruleStore.rows)
    {
      FilesAfter(logs, store.logs, sessionId);
      registry.MemoriesSplit(sessionId);
      assert (w.memory - {sessionId})[sessionId := MemoryNow()] == w.memory[sessionId := MemoryNow()];
    }

    /** However a run ends, it has halted somewhere in what the model says. */
    method RunHalting(ghost s: Script, ghost start: Cursor, ghost rows: seq<RuleRow>, ghost run: Progress,
                      sessionId: string, runId: string, resumed: bool, messages: seq<ControlMessage>, ts: string)
      returns (r: Outcome<RunResult>)
      requires Wired() && emitter.GateNow() == START_GATE && registry.Apart() && WellFormed(store.Log(sessionId))
      requires s == ScriptOf(runId, resumed, messages, RulesFor(sessionId)) && start == StartOf(sessionId)
      requires rows == ruleStore.rows && run == RunModel.Run(s, EventsOf(store.Log(sessionId)))
      modifies emitter, emitter.who, store, emitter.bus, emitter.fsm, index
      modifies `toolCallCounter, inbox, executor, registry, registry.CellsOf(sessionId), ruleStore
      ensures emitter.who.sessionId == sessionId && emitter.who.runId == runId
      ensures r.Returned? ==> At(s, start, rows, run) && run.status == Ended(r.value) && Indexed(old(index.rows), true, ts)
      ensures r.Threw? ==> r.cause == External
      ensures Halted(s, start, rows, run.segs) && WellFormed(store.Log(sessionId))
      ensures old(store.Log(sessionId)) <= store.Log(sessionId)
      ensures store.Others(sessionId) == old(store.Others(sessionId))
      ensures Joined(sessionId) && registry.OtherMemories(sessionId) == old(registry.OtherMemories(sessionId))
    {
      r := RunResolved(sessionId, runId, resumed, messages, ts);
      if r.Returned? {
        AtHalts(s, start, rows, run, run.segs);
      }
    }

    /** The same run, and the move that it makes from the world before it to the world after it. */
    method RunInWorld(sessionId: string, runId: string, resumed: bool, messages: seq<ControlMessage>, ts: string)
      returns (r: Outcome<RunResult>, ghost v: World.Move)
      requires Wired() && emitter.GateNow() == START_GATE && registry.Apart() && WellFormed(store.Log(sessionId))
      modifies emitter, emitter.who, store, emitter.bus, emitter.fsm, index
      modifies `toolCallCounter, inbox, executor, registry, registry.CellsOf(sessionId), ruleStore
      ensures emitter.who.sessionId == sessionId && emitter.who.runId == runId
      ensures var s := ScriptOf(runId, resumed, messages, old(RulesFor(sessionId)));
              var run := RunModel.Run(s, EventsOf(old(store.Log(sessionId))));
              && (r.Returned? ==>
                    && At(s, old(StartOf(sessionId)), old(ruleStore.rows), run) && run.status == Ended(r.value)
                    && Indexed(old(index.rows), true, ts))
              && (r.Threw? ==> r.cause == External)
              && Halted(s, old(StartOf(sessionId)), old(ruleStore.rows), run.segs)
      ensures WellFormed(store.Log(sessionId)) && old(store.Log(sessionId)) <= store.Log(sessionId)
      ensures store.Others(sessionId) == old(store.Others(sessionId))
      ensures Joined(sessionId) && registry.OtherMemories(sessionId) == old(registry.OtherMemories(sessionId))
      ensures v.Visit? && v.sessionId == sessionId && v.enabled == ruleStore.enabled
      ensures v.script == ScriptOf(runId, resumed, messages, old(RulesFor(sessionId)))
      ensures World.Leads(old(WorldNow()), v, WorldNow())
    {
      ghost var w, logs, bus := WorldNow(), store.logs, emitter.bus.delivered;
      ghost var s := ScriptOf(runId, resumed, messages, RulesFor(sessionId));
      ghost var run := RunModel.Run(s, EventsOf(World.LogOf(w, sessionId)));
      WorldRules(sessionId);
      registry.MemoriesSplit(sessionId);
      r := RunHalting(s, StartOf(sessionId), ruleStore.rows, run, sessionId, runId, resumed, messages, ts);
      WorldThen(w, logs, sessionId);
      v := HaltedLeads(w, s, run.segs, sessionId, bus);
    }

    /**
     Which session to run on, under which run id, and whether it is resumed. `newSessionId` is the
     forced id or a new one. Without preset run ids, no record of a resumed session has the run id; of
     another session, none has it exactly if none has the id of the process counter.
     */
    method ResolveSessionAndRun(newSessionId: string) returns (r: Outcome<Resolved>)
      modifies runIds
      ensures r.Threw? <==> config.doContinue && forall j :: 0 <= j < |index.rows| ==> index.rows[j].cwd != config.cwd
      ensures r.Threw? ==> r.cause == External
      ensures r.Returned? ==> Resolves(newSessionId, r.value)
      ensures r.Returned? && old(runIds.overrides) == [] ==>
                var log := store.Log(r.value.sessionId);
                && (!RunIds.UsesRunId(log, r.value.runId) <==>
                    r.value.resumed || !RunIds.UsesRunId(log, RunIds.RunId(old(runIds.counter))))
                && (r.value.resumed || log == [] ==> World.Allocated(log, r.value.resumed, r.value.runId))
    {
      var sessionId := newSessionId;
      var resumed := false;
      if config.doContinue {
        var latest := index.GetLatestForCwd(config.cwd);
        if latest.None? {
          return Threw(External);
        }
        sessionId, resumed := latest.value, true;
      } else if config.resumeSessionId.Some? && config.resumeSessionId.value != "" {
        sessionId, resumed := config.resumeSessionId.value, true;
      }
      var records := store.LoadRecords(sessionId);
      var runId := runIds.ResolveRunId(records, resumed);
      r := Returned(Resolved(sessionId, runId, resumed));
    }

    /** The session that the configuration names: the latest of the directory, a given one, or a new one. */
    ghost predicate Resolves(newSessionId: string, resolved: Resolved)
      reads index
    {
      if config.doContinue then
        resolved.resumed
        && exists k: nat :: SI.IsLatest(index.rows, config.cwd, k) && resolved.sessionId == index.rows[k].sessionId
      else if config.resumeSessionId.Some? && config.resumeSessionId.value != "" then
        resolved.resumed && resolved.sessionId == config.resumeSessionId.value
      else !resolved.resumed && resolved.sessionId == newSessionId
    }

    /** What is not before any row of its directory is what `--continue` picks next. */
    lemma ContinuedNext(before: seq<SI.Row>, row: SI.Row)
      requires row.cwd == config.cwd && index.rows == before + [row]
      requires forall j :: 0 <= j < |before| && before[j].cwd == config.cwd ==> SI.LexLe(before[j].ts, row.ts)
      ensures forall k: nat :: SI.IsLatest(index.rows, config.cwd, k) ==> index.rows[k].sessionId == row.sessionId
      ensures SI.IsLatest(index.rows, config.cwd, |before|)
    {
      SI.UpdateIsContinued(before, row, |before|);
      forall k: nat | SI.IsLatest(index.rows, config.cwd, k)
        ensures index.rows[k].sessionId == row.sessionId
      {
        SI.UpdateIsContinued(before, row, k);
      }
    }

    /** The move `v` is that of a run on the resolved session in the world `w`. */
    ghost predicate Plans(w: World.World, v: World.Move, resolved: Resolved, messages: seq<ControlMessage>) {
      && v.Visit? && v.sessionId == resolved.sessionId && v.enabled == ruleStore.enabled
      && v.script == ScriptOf(resolved.runId, resolved.resumed, messages,
                              World.RulesIn(w, resolved.sessionId, ruleStore.enabled))
    }

    /** The run `v`, begun in the world `w`, has come to its end with this result, and to the state of its end. */
    ghost predicate Ends(w: World.World, v: World.Move, bus: seq<Record>, result: RunResult)
      requires v.Visit?
      reads `toolCallCounter, emitter, emitter.who, emitter.fsm, emitter.store, emitter.bus
      reads executor, executor.Cells(), inbox, ruleStore
    {
      && At(v.script, StartCursor(World.LogOf(w, v.sessionId), bus), w.rows, World.RunOf(w, v))
      && World.RunOf(w, v).status == Ended(result)
    }

    /** The script of the move is what the configuration, the resolved ids and the parts of this object say. */
    ghost predicate Configured(v: World.Move, resolved: Resolved, messages: seq<ControlMessage>)
      requires v.Visit?
    {
      var s := v.script;
      && s.writer == Writer(resolved.runId, store.persistenceEnabled) && s.resumed == resolved.resumed
      && s.setting.cwd == config.cwd && s.setting.mode == config.permissionMode && s.setting.digest == digest
      && (s.setting.interactive <==> config.inputMode == StreamJson || !config.printMode)
      && (config.inputMode == TextInput ==> s.prompt == Some(config.prompt))
      && (config.inputMode == StreamJson ==> s.prompt == FirstUserText(messages))
      && s.messages == messages && s.provider == provider
      && s.registry == executor.registry && s.tools == executor.tools
    }

    /**
     In ask mode, a call of the run that neither the boundary nor a rule settles is asked about exactly
     if the input is a stream or printing is off; otherwise it is denied for want of someone to ask.
     */
    lemma UnsettledIsAsked(w: World.World, v: World.Move, resolved: Resolved, messages: seq<ControlMessage>, i: nat)
      requires Plans(w, v, resolved, messages) && config.permissionMode == "ask"
      requires i < |World.RunOf(w, v).segs| && World.RunOf(w, v).segs[i].Lifecycle?
      requires var segs := World.RunOf(w, v).segs;
               && !OutsideRoot(v.script.setting, segs[i].call.input)
               && RuleLaws.HashOf(v.script, segs[i]) !in Known(RulesAfter(v.script.rules, segs[..i]))
      ensures var call, reachable := World.RunOf(w, v).segs[i], config.inputMode == StreamJson || !config.printMode;
              && (Event(ToolPermissionRequired, call.call.id, Unread) in SegmentEvents(call) <==> reachable)
              && (!reachable ==>
                    && call.Decision().verdict == Deny && call.Decision().rank == 6
                    && call.Decision().reason == AskUnavailable)
    {
      RuleLaws.LawfulRun(v.script, EventsOf(World.LogOf(w, v.sessionId)));
      RuleLaws.LawfulAt(v.script, World.RunOf(w, v).segs, i);
      RuleLaws.UnsettledAsk(v.script, RulesAfter(v.script.rules, World.RunOf(w, v).segs[..i]), World.RunOf(w, v).segs[i]);
    }

    /** The run `v` was cut behind its first `k` events: what the subscribers and the log of its session got. */
    ghost predicate Published(w: World.World, v: World.Move, bus: seq<Record>, k: nat)
      requires v.Visit?
      reads store, emitter.bus
    {
      var trace := Flatten(World.RunOf(w, v).segs);
      k <= |trace|
      && Broadcast.Delivered(v.script.writer, trace[..k], World.LogOf(w, v.sessionId), bus,
                             store.Log(v.sessionId), emitter.bus.delivered)
    }

    lemma HaltedIsPublished(w: World.World, v: World.Move, bus: seq<Record>)
      requires v.Visit? && emitter.store == store && emitter.who.sessionId == v.sessionId
      requires Halted(v.script, StartCursor(World.LogOf(w, v.sessionId), bus), w.rows, World.RunOf(w, v).segs)
      ensures exists k: nat :: Published(w, v, bus, k)
    {
      var all := World.RunOf(w, v).segs;
      var k: nat, m: nat, n: nat :|
        StopsAt(v.script, StartCursor(World.LogOf(w, v.sessionId), bus), w.rows, all,
                ruleStore.enabled, emitter.Here(), executor.RulesNow(), ruleStore.rows, k, m, n);
      Broadcast.CutIsDelivered(v.script.writer, World.LogOf(w, v.sessionId), bus, emitter.Here(), Flatten(all), k);
      assert Published(w, v, bus, k);
    }

    lemma EndIsPublished(w: World.World, v: World.Move, bus: seq<Record>, result: RunResult)
      requires v.Visit? && emitter.store == store && emitter.who.sessionId == v.sessionId && Ends(w, v, bus, result)
      ensures Published(w, v, bus, |Flatten(World.RunOf(w, v).segs)|)
    {
      var trace := Flatten(World.RunOf(w, v).segs);
      assert trace[..|trace|] == trace;
      Broadcast.CutIsDelivered(v.script.writer, World.LogOf(w, v.sessionId), bus, emitter.Here(), trace, |trace|);
    }

    /** A row no earlier than those of its directory. */
    ghost predicate NoEarlier(rows: seq<SI.Row>, ts: string) {
      forall j :: 0 <= j < |rows| && rows[j].cwd == config.cwd ==> SI.LexLe(rows[j].ts, ts)
    }

    /** The session is the one that `--continue` picks next. */
    ghost predicate IsNext(sessionId: string)
      reads index
    {
      && (exists k: nat :: SI.IsLatest(index.rows, config.cwd, k))
      && forall k: nat :: SI.IsLatest(index.rows, config.cwd, k) ==> index.rows[k].sessionId == sessionId
    }

    /** What a run on a resolved session does to the world `w`, the index `rows` and the broadcasts `bus`. */
    method RunNamed(ghost w: World.World, ghost rows: seq<SI.Row>, ghost bus: seq<Record>,
                    resolved: Resolved, messages: seq<ControlMessage>, ts: string)
      returns (r: Outcome<RunResult>, ghost v: World.Move)
      requires Wired() && emitter.GateNow() == START_GATE && registry.Apart()
      requires WellFormed(store.Log(resolved.sessionId))
      requires w == WorldNow() && rows == index.rows && bus == emitter.bus.delivered
      modifies emitter, emitter.who, store, emitter.bus, emitter.fsm, index
      modifies `toolCallCounter, inbox, executor, registry, registry.CellsOf(resolved.sessionId), ruleStore
      ensures Plans(w, v, resolved, messages) && World.Leads(w, v, WorldNow())
      ensures r.Threw? ==> r.cause == External
      ensures r.Returned? ==> Ends(w, v, bus, r.value)
      ensures Configured(v, resolved, messages)
      ensures exists k: nat :: Published(w, v, bus, k)
      ensures r.Returned? ==> Published(w, v, bus, |Flatten(World.RunOf(w, v).segs)|)
      ensures r.Returned? ==> index.rows == rows + [SI.Row(resolved.sessionId, config.cwd, ts)]
      ensures r.Returned? && NoEarlier(rows, ts) ==> IsNext(resolved.sessionId)
      ensures registry.Apart()
    {
      WorldRules(resolved.sessionId);
      r, v := RunInWorld(resolved.sessionId, resolved.runId, resolved.resumed, messages, ts);
      HaltedIsPublished(w, v, bus);
      if r.Returned? {
        EndIsPublished(w, v, bus, r.value);
      }
      if r.Returned? && NoEarlier(rows, ts) {
        ContinuedNext(rows, SI.Row(resolved.sessionId, config.cwd, ts));
      }
    }

    /** Resolving, seen from the world `w`. */
    method ResolveInWorld(ghost w: World.World, newSessionId: string) returns (r: Outcome<Resolved>)
      requires w == WorldNow()
      modifies runIds
      ensures w == WorldNow()
      ensures r.Threw? <==> config.doContinue && forall j :: 0 <= j < |index.rows| ==> index.rows[j].cwd != config.cwd
      ensures r.Threw? ==> r.cause == External
      ensures r.Returned? ==> Resolves(newSessionId, r.value)
      ensures r.Returned? && old(runIds.overrides) == [] ==>
                var log := World.LogOf(w, r.value.sessionId);
                r.value.resumed || log == [] ==>
                  World.Allocated(log, r.value.resumed, r.value.runId) && !RunIds.UsesRunId(log, r.value.runId)
    {
      r := ResolveSessionAndRun(newSessionId);
      if r.Returned? {
        WorldRules(r.value.sessionId);
        AllocatedWhere(World.LogOf(w, r.value.sessionId), r.value);
      }
    }

    /**
     `run`: resolves the session and the run id, and runs. The run is a move between worlds; on a
     resumed session, or one without records, and without preset ids its run id is the allocated one,
     which no older record has. A run that returns is at the end of the modelled run, and if it is no
     earlier than the other runs of its directory, its session is the one that is continued next.
     */
    method Run(newSessionId: string, messages: seq<ControlMessage>, ts: string)
      returns (r: Outcome<RunResult>, resolved: Option<Resolved>, ghost v: World.Move)
      requires Wired() && emitter.GateNow() == START_GATE && registry.Apart()
      requires forall sessionId :: WellFormed(store.Log(sessionId))
      modifies emitter, emitter.who, store, emitter.bus, emitter.fsm, index, runIds
      modifies `toolCallCounter, inbox, executor, registry, registry.AllCells(), ruleStore
      ensures resolved.None? <==>
                config.doContinue && forall j :: 0 <= j < |old(index.rows)| ==> old(index.rows)[j].cwd != config.cwd
      ensures resolved.None? ==> r == Threw(External) && WorldNow() == old(WorldNow()) && index.rows == old(index.rows)
      ensures r.Threw? ==> r.cause == External
      ensures resolved.Some? ==>
                && old(Resolves(newSessionId, resolved.value))
                && Plans(old(WorldNow()), v, resolved.value, messages) && Configured(v, resolved.value, messages)
                && World.Leads(old(WorldNow()), v, WorldNow())
                && exists k: nat :: Published(old(WorldNow()), v, old(emitter.bus.delivered), k)
      ensures resolved.Some? && old(runIds.overrides) == [] ==>
                var log := World.LogOf(old(WorldNow()), resolved.value.sessionId);
                resolved.value.resumed || log == [] ==>
                  && World.Allocated(log, resolved.value.resumed, resolved.value.runId)
                  && !RunIds.UsesRunId(log, resolved.value.runId)
      ensures r.Returned? ==>
                && resolved.Some? && Ends(old(WorldNow()), v, old(emitter.bus.delivered), r.value)
                && var trace := Flatten(World.RunOf(old(WorldNow()), v).segs);
                   Published(old(WorldNow()), v, old(emitter.bus.delivered), |trace|)
      ensures r.Returned? ==>
                index.rows == old(index.rows) + [SI.Row(resolved.value.sessionId, config.cwd, ts)]
                && (NoEarlier(old(index.rows), ts) ==> IsNext(resolved.value.sessionId))
      ensures registry.Apart() && forall sessionId :: WellFormed(store.Log(sessionId))
    {
      ghost var w, rows, bus := WorldNow(), index.rows, emitter.bus.delivered;
      v := World.Restart;
      WorldFormed();
      var resolution := ResolveInWorld(w, newSessionId);
      if resolution.Threw? {
        return Threw(resolution.cause), None, v;
      }
      resolved := Some(resolution.value);
      r, v := RunNamed(w, rows, bus, resolution.value, messages, ts);
      World.StepFormed(w, v, WorldNow());
      WorldFormed();
    }
  }

  lemma AllocatedWhere(log: seq<Record>, resolved: Resolved)
    ensures World.Allocated(log, resolved.resumed, resolved.runId) ==> !RunIds.UsesRunId(log, resolved.runId)
  {
    if World.Allocated(log, resolved.resumed, resolved.runId) {
      World.AllocatedIsFresh(log, resolved.resumed, resolved.runId);
    }
  }

  /** A run, whole or cut, leaves a well-formed log that begins with the old one. */
  lemma LogAfterRun(w: Writer, start: Cursor, here: Cursor, segs: seq<Segment>)
    requires Tracks(w, start)
    requires here == EmitAll(w, start, Flatten(segs)) || IsCut(w, start, here, Flatten(segs))
    ensures WellFormed(here.log) && start.log <= here.log
  {
    if here == EmitAll(w, start, Flatten(segs)) {
      EmitAllTracks(w, start, Flatten(segs));
    } else {
      CutTracks(w, start, here, Flatten(segs));
    }
  }

  /** At the start nothing is emitted, learned or recorded. */
  lemma InitialIs(s: Script, start: Cursor, enabled: bool, rows: seq<RuleRow>)
    ensures EmitAll(s.writer, start, Flatten(Initial(s).segs)) == start
    ensures GateAfter(Initial(s).segs) == Some(START_GATE)
    ensures RulesAfter(s.rules, Initial(s).segs) == s.rules
    ensures rows + Recorded(enabled, Initial(s).segs) == rows
    ensures Initial(s).inbox == LoadQueues(s.messages) && Initial(s).calls == 0
  {
    assert Lists([]) == [];
  }

  lemma CallExtends(s: Script, p: Progress, toolName: string, input: ToolInput)
    ensures p.segs <= CallTool(s, p, toolName, input).segs
  {
    var seg := CallSegment(s, p, toolName, input);
    RetryLaws.ConcludeExtends(AfterCall(p, seg), seg);
  }

  lemma RecoveryExtends(s: Script, p: Progress, plan: Option<Recovery.Retry>, r: Progress)
    requires r ==
             if p.status != Running || !s.resumed || plan.None? then p
             else CallTool(s, p, plan.value.toolName, plan.value.input)
    ensures p.segs <= r.segs
  {
    if plan.Some? {
      CallExtends(s, p, plan.value.toolName, plan.value.input);
    }
  }

  lemma OpeningFirst(s: Script, log: seq<Event>)
    ensures Opening(s).segs <= Recovered(s, log).segs
    ensures Recovered(s, log).status.Ended? ==> RunModel.Run(s, log) == Recovered(s, log)
  {
    RecoveryExtends(s, Opening(s), Recovery.RecoveryPlan(LogAtRecovery(s, log)), Recovered(s, log));
  }

  lemma RecoveredFinal(s: Script, log: seq<Event>)
    ensures Recovered(s, log).final == None
  {
    var p := Opening(s);
    match Recovery.RecoveryPlan(LogAtRecovery(s, log)) {
      case None =>
      case Some(retry) => CallToolHasTool(s, p, retry.toolName, retry.input);
    }
  }

  lemma RunFromRecovered(s: Script, log: seq<Event>)
    requires Recovered(s, log).status == Running && s.provider.Some?
    ensures var q := StreamFrom(s, Recovered(s, log), s.provider.value);
            && Streamed(s, log) == q
            && q.segs <= RunModel.Run(s, log).segs
            && RunModel.Run(s, log) == if q.status == Running then Closing(q) else q
  {
  }

  /** A run that has come to `p` comes to `q` when its stream is exhausted, and ends as `run`. */
  predicate Leads(s: Script, p: Progress, q: Progress, run: Progress) {
    && Accepted(p) && p.final == None && p.segs <= run.segs
    && (s.provider.Some? ==>
          && q == StreamFrom(s, p, s.provider.value) && q.segs <= run.segs && Accepted(q)
          && run == if q.status == Running then Closing(q) else q)
  }

  /** A run at `o` that repeats what it was asked to. */
  function Repeated(s: Script, o: Progress, retry: Option<Recovery.Retry>): Progress {
    if retry.None? then o else CallTool(s, o, retry.value.toolName, retry.value.input)
  }

  /** `o`, `p`, `q` and `run` are a run after its opening, its recovery, its stream and its end. */
  predicate Staged(
    s: Script, start: Cursor, o: Progress, plan: Option<Recovery.Retry>, p: Progress, q: Progress, run: Progress) {
    && o == Opening(s) && Accepted(o) && !o.hadTool
    && plan == (if s.resumed then Recovery.RecoveryPlan(EventsOf(EmitAll(s.writer, start, Flatten(o.segs)).log)) else None)
    && (s.prompt.Some? ==> o.status == Running && p == Repeated(s, o, plan))
    && o.segs <= p.segs <= run.segs
    && (p.status.Ended? ==> run == p)
    && (p.status == Running ==> Leads(s, p, q, run))
  }

  /** The stages of a run. */
  lemma Stages(s: Script, start: Cursor, log: seq<Event>)
    returns (o: Progress, plan: Option<Recovery.Retry>, p: Progress, q: Progress)
    requires Tracks(s.writer, start) && log == EventsOf(start.log)
    ensures Staged(s, start, o, plan, p, q, RunModel.Run(s, log))
  {
    o := Opening(s);
    plan := if s.resumed then Recovery.RecoveryPlan(EventsOf(EmitAll(s.writer, start, Flatten(o.segs)).log)) else None;
    p := Recovered(s, log);
    q := p;
    AcceptedOpening(s);
    LogSeenByRecovery(s, start);
    OpeningFirst(s, log);
    RetryLaws.RunExtends(s, log);
    AcceptedRecovered(s, log);
    RecoveredFinal(s, log);
    if p.status == Running && s.provider.Some? {
      q := StreamFrom(s, p, s.provider.value);
      RunFromRecovered(s, log);
      AcceptedStreamed(s, log);
    }
  }

  function Completed(p: Progress): Progress {
    RunModel.Say(p, SessionCompleted, Unread).(status := Ended(RunResult(true, SUCCESS, p.final)))
  }

  lemma ClosingIs(p: Progress)
    ensures Closing(p) == if p.final.None? && !p.hadTool then Fail(p, "MODEL_NO_MESSAGE", MODEL_FAILURE) else Completed(p)
  {
  }

  /** One more item, still within the whole stream. */
  lemma TakeAllStep(s: Script, p: Progress, items: seq<Adapted>, i: nat)
    requires i < |items|
    requires TakeAll(s, p, items[..i]).status == Running
    ensures TakeAll(s, p, items[..i + 1]) == Take(s, TakeAll(s, p, items[..i]), items[i])
    ensures TakeAll(s, p, items[..i + 1]).segs <= TakeAll(s, p, items).segs
  {
    assert items[..i + 1][..i] == items[..i];
    TakeAllMonotonic(s, p, items, i + 1);
  }

  lemma {:induction false} TakeAllMonotonic(s: Script, p: Progress, items: seq<Adapted>, i: nat)
    requires i <= |items|
    ensures TakeAll(s, p, items[..i]).segs <= TakeAll(s, p, items).segs
  {
    if i < |items| {
      var front := items[..|items| - 1];
      TakeAllMonotonic(s, p, front, i);
      assert front[..i] == items[..i];
      RetryLaws.TakeExtends(s, TakeAll(s, p, front), items[|items| - 1]);
    } else {
      assert items[..i] == items;
    }
  }

  /** Items after the end of a run are not taken. */
  lemma {:induction false} TakeAllStops(s: Script, p: Progress, items: seq<Adapted>, i: nat)
    requires i <= |items|
    requires TakeAll(s, p, items[..i]).status != Running
    ensures TakeAll(s, p, items) == TakeAll(s, p, items[..i])
  {
    if i < |items| {
      var front := items[..|items| - 1];
      assert front[..i] == items[..i];
      TakeAllStops(s, p, front, i);
    } else {
      assert items[..i] == items;
    }
  }

  /** The loop has come to `q` after `i` items. */
  predicate Loop(s: Script, p: Progress, items: seq<Adapted>, i: nat, q: Progress) {
    i <= |items| && q == TakeAll(s, p, items[..i]) && Accepted(q)
  }

  lemma LoopStep(s: Script, p: Progress, items: seq<Adapted>, i: nat, q: Progress)
    requires i < |items| && Loop(s, p, items, i, q) && q.status == Running
    ensures Loop(s, p, items, i + 1, Take(s, q, items[i]))
    ensures Take(s, q, items[i]).segs <= TakeAll(s, p, items).segs
  {
    TakeAllStep(s, p, items, i);
    AcceptedTake(s, q, items[i]);
  }

  lemma LoopEnd(s: Script, p: Progress, items: seq<Adapted>, i: nat, q: Progress)
    requires Loop(s, p, items, i, q)
    ensures q.status != Running || i == |items| ==> q == TakeAll(s, p, items)
  {
    if q.status != Running {
      TakeAllStops(s, p, items, i);
    } else if i == |items| {
      assert items[..i] == items;
    }
  }

  lemma StreamFromIs(s: Script, p: Progress, chunks: seq<Chunk>)
    ensures var q := TakeAll(s, p, AdaptAll(Supported(chunks)));
            && StreamFrom(s, p, chunks).segs == q.segs
            && (q.status != Running || Supported(chunks) == chunks ==> StreamFrom(s, p, chunks) == q)
  {
  }

  lemma TakeIs(s: Script, p: Progress, item: Adapted)
    ensures item.AdaptedDelta? ==>
              Take(s, p, item) == p.(segs := p.segs + [Single(Event(AssistantDelta, "", Text(item.text)))])
    ensures item.AdaptedMessage? ==>
              Take(s, p, item) ==
              p.(segs := p.segs + [Single(Event(AssistantMessage, "", Text(item.text)))], final := Some(item.text))
    ensures item.AdaptedTool? ==> Take(s, p, item) == CallTool(s, p, item.toolName, item.input)
    ensures item.AdaptedBadTool? ==> Take(s, p, item).segs == p.segs
  {
  }

  lemma TakeKeeps(s: Script, p: Progress, item: Adapted)
    ensures var q := Take(s, p, item);
            && q.final == (if item.AdaptedMessage? then Some(item.text) else p.final)
            && q.hadTool == (p.hadTool || item.AdaptedTool? || item.AdaptedBadTool?)
  {
  }

  lemma AdmitOpening()
    ensures Admit(START_GATE, SessionResumed) == Some(Gate(Started, false))
    ensures Admit(START_GATE, SessionStart) == Some(Gate(Started, false))
    ensures Admit(Gate(Started, false), UserMessage) == Some(Gate(User, false))
  {
  }

  function StartEvent(s: Script): Event {
    Event(if s.resumed then SessionResumed else SessionStart, "", Unread)
  }

  lemma StartIs(s: Script)
    ensures Start(s) == Initial(s).(segs := Initial(s).segs + [Single(StartEvent(s))])
    ensures GateAfter(Start(s).segs) == Some(Gate(Started, false))
    ensures GateAfter(Initial(s).segs) == Some(START_GATE)
  {
    AcceptedStart(s);
  }

  lemma OpeningIs(s: Script)
    ensures Start(s).segs <= Opening(s).segs
    ensures s.prompt.Some? ==>
              Opening(s) == Start(s).(segs := Start(s).segs + [Single(Event(UserMessage, "", Text(s.prompt.value)))])
  {
  }

  /** What the store holds when a run looks for something to repeat. */
  lemma LogSeenByRecovery(s: Script, start: Cursor)
    requires Tracks(s.writer, start)
    ensures EventsOf(EmitAll(s.writer, start, Flatten(Opening(s).segs)).log) == LogAtRecovery(s, EventsOf(start.log))
  {
    var es := Flatten(Opening(s).segs);
    if s.writer.persist {
      EmitAllAppends(s.writer, start, es);
    } else {
      EmitAllTracks(s.writer, start, es);
      assert EventsOf(start.log) + [] == EventsOf(start.log);
    }
  }

  lemma CallToolHasTool(s: Script, p: Progress, toolName: string, input: ToolInput)
    ensures CallTool(s, p, toolName, input).hadTool
    ensures CallTool(s, p, toolName, input).final == p.final
  {
  }

  lemma AcceptedAfter(p: Progress, seg: Segment)
    requires Accepted(p) && p.status == Running && seg.Lifecycle? && seg.Outcome().Status?
    ensures Accepted(AfterCall(p, seg))
  {
    PushGate(p.segs, seg);
    DriveLifecycle(GateAfter(p.segs).value, seg);
  }

  lemma AcceptedCall(p: Progress, seg: Segment, all: seq<Segment>)
    requires Accepted(p) && p.status == Running && seg.Lifecycle? && Conclude(AfterCall(p, seg), seg).segs <= all
    ensures AfterCall(p, seg).segs <= all
    ensures seg.Outcome().Status? ==> Accepted(AfterCall(p, seg))
  {
    RetryLaws.ConcludeExtends(AfterCall(p, seg), seg);
    if seg.Outcome().Status? {
      AcceptedAfter(p, seg);
    }
  }

  lemma RowsJoin(enabled: bool, rows: seq<RuleRow>, segs: seq<Segment>, seg: Segment)
    requires seg.Lifecycle?
    ensures rows + Recorded(enabled, segs) + (if enabled then LearnedRows(seg.judged, seg.choice) else [])
            == rows + Recorded(enabled, segs + [seg])
  {
    assert (segs + [seg])[..|segs|] == segs;
  }

  /** A state that the run `all` leaves behind when it stops on the way. */
  ghost predicate Stops(s: Script, start: Cursor, before: seq<RuleRow>, all: seq<Segment>,
                        enabled: bool, here: Cursor, rules: Rules, rows: seq<RuleRow>) {
    exists k: nat, m: nat, n: nat :: StopsAt(s, start, before, all, enabled, here, rules, rows, k, m, n)
  }

  predicate StopsAt(s: Script, start: Cursor, before: seq<RuleRow>, all: seq<Segment>,
                    enabled: bool, here: Cursor, rules: Rules, rows: seq<RuleRow>, k: nat, m: nat, n: nat) {
    && Tied(all, k, m, n)
    && CutAt(s.writer, start, here, Flatten(all), k)
    && rules == RulesAfter(s.rules, all[..m])
    && rows == before + Recorded(enabled, all[..n])
  }

  lemma StopsIsCut(s: Script, start: Cursor, before: seq<RuleRow>, all: seq<Segment>,
                   enabled: bool, here: Cursor, rules: Rules, rows: seq<RuleRow>)
    requires Stops(s, start, before, all, enabled, here, rules, rows)
    ensures IsCut(s.writer, start, here, Flatten(all))
  {
    var k: nat, m: nat, n: nat :| StopsAt(s, start, before, all, enabled, here, rules, rows, k, m, n);
  }

  /** Stopped behind whole segments. */
  lemma {:induction false} StopsBehind(s: Script, start: Cursor, before: seq<RuleRow>, done: seq<Segment>,
                                       all: seq<Segment>, enabled: bool, here: Cursor)
    requires done <= all
    requires here.log == EmitAll(s.writer, start, Flatten(done)).log
    requires here.bus == EmitAll(s.writer, start, Flatten(done)).bus
    ensures Stops(s, start, before, all, enabled, here, RulesAfter(s.rules, done), before + Recorded(enabled, done))
  {
    assert all[..|done|] == done;
    FlattenTail(all, |done|);
    assert Flatten(all)[..|Flatten(done)|] == Flatten(done);
    TiedBehind(all, |done|);
    StopsThere(s, start, before, all, enabled, here, RulesAfter(s.rules, done),
               before + Recorded(enabled, done), |Flatten(done)|, |done|, |done|);
  }

  /** Stopped behind whole segments and a single event more. */
  lemma {:induction false} StopsPastSingle(s: Script, start: Cursor, before: seq<RuleRow>, done: seq<Segment>, e: Event,
                                           all: seq<Segment>, enabled: bool, here: Cursor, k: nat)
    requires done + [Single(e)] <= all && k == |Flatten(done)| + 1 <= |Flatten(all)|
    requires CutAt(s.writer, start, here, Flatten(all), k)
    ensures Stops(s, start, before, all, enabled, here, RulesAfter(s.rules, done), before + Recorded(enabled, done))
  {
    assert all[..|done|] == done && all[|done|] == Single(e);
    TiedBehindSingle(all, |done|);
    StopsThere(s, start, before, all, enabled, here, RulesAfter(s.rules, done),
               before + Recorded(enabled, done), k, |done|, |done|);
  }

  lemma {:induction false} StopsInSay(
    s: Script, start: Cursor, before: seq<RuleRow>, done: seq<Segment>, e: Event, all: seq<Segment>,
    enabled: bool, c: Cursor, d: Cursor)
    requires c == EmitAll(s.writer, start, Flatten(done)) && done + [Single(e)] <= all
    requires (d.bus == c.bus && d.log == c.log)
             || (d.bus == EmitOne(s.writer, c, e).bus && d.log == EmitOne(s.writer, c, e).log)
    ensures Stops(s, start, before, all, enabled, d, RulesAfter(s.rules, done), before + Recorded(enabled, done))
  {
    if d.bus == c.bus && d.log == c.log {
      StopsBehind(s, start, before, done, all, enabled, d);
    } else {
      OneIsOut(s.writer, c, d, e);
      CutInRun(s.writer, start, c, d, done, Single(e), all, 1, |Flatten(done)| + 1);
      StopsPastSingle(s, start, before, done, e, all, enabled, d, |Flatten(done)| + 1);
    }
  }

  lemma {:induction false} OneIsOut(w: Writer, c: Cursor, d: Cursor, e: Event)
    requires d.bus == EmitOne(w, c, e).bus && d.log == EmitOne(w, c, e).log
    ensures CutAt(w, c, d, SegmentEvents(Single(e)), 1)
  {
    assert [e][..1] == [e] && [e][..0] == [];
  }

  /** Stopped inside a call. */
  lemma {:induction false} StopsInCall(
    s: Script, start: Cursor, before: seq<RuleRow>, done: seq<Segment>, seg: Segment, all: seq<Segment>, enabled: bool,
    rules: Rules, rows: seq<RuleRow>, more: seq<RuleRow>, here: Cursor, rulesNow: Rules, rowsNow: seq<RuleRow>,
    j: nat, k: nat)
    requires seg.Lifecycle? && done + [seg] <= all && j <= |SegmentEvents(seg)|
    requires k == |Flatten(done)| + j <= |Flatten(all)| && CutAt(s.writer, start, here, Flatten(all), k)
    requires rules == RulesAfter(s.rules, done) && rows == before + Recorded(enabled, done)
    requires more == if enabled then LearnedRows(seg.judged, seg.choice) else []
    requires Partly(seg, j, rules, rulesNow, rows, rowsNow, more)
    ensures Stops(s, start, before, all, enabled, here, rulesNow, rowsNow)
  {
    var m, n := PartlyReached(s, before, done, seg, all, enabled, rules, rows, more, rulesNow, rowsNow, j);
    StopsThere(s, start, before, all, enabled, here, rulesNow, rowsNow, k, m, n);
  }

  lemma {:induction false} StopsThere(s: Script, start: Cursor, before: seq<RuleRow>, all: seq<Segment>, enabled: bool,
                                      here: Cursor, rules: Rules, rows: seq<RuleRow>, k: nat, m: nat, n: nat)
    requires Tied(all, k, m, n)
    requires CutAt(s.writer, start, here, Flatten(all), k)
    requires rules == RulesAfter(s.rules, all[..m])
    requires rows == before + Recorded(enabled, all[..n])
    ensures Stops(s, start, before, all, enabled, here, rules, rows)
  {
    assert StopsAt(s, start, before, all, enabled, here, rules, rows, k, m, n);
  }

  lemma PartOf(done: seq<Segment>, seg: Segment, all: seq<Segment>, m: nat)
    requires done + [seg] <= all && |done| <= m <= |done| + 1
    ensures all[..m] == if m == |done| then done else done + [seg]
  {
  }

  /** How far the rules and the rows have come inside a call. */
  lemma {:induction false} PartlyReached(
    s: Script, before: seq<RuleRow>, done: seq<Segment>, seg: Segment, all: seq<Segment>, enabled: bool,
    rules: Rules, rows: seq<RuleRow>, more: seq<RuleRow>, rulesNow: Rules, rowsNow: seq<RuleRow>, j: nat)
    returns (m: nat, n: nat)
    requires seg.Lifecycle? && done + [seg] <= all && j <= |SegmentEvents(seg)|
    requires rules == RulesAfter(s.rules, done) && rows == before + Recorded(enabled, done)
    requires more == if enabled then LearnedRows(seg.judged, seg.choice) else []
    requires Partly(seg, j, rules, rulesNow, rows, rowsNow, more)
    ensures Tied(all, |Flatten(done)| + j, m, n)
    ensures rulesNow == RulesAfter(s.rules, all[..m]) && rowsNow == before + Recorded(enabled, all[..n])
  {
    RulesJoin(s.rules, done, seg);
    RowsJoin(enabled, before, done, seg);
    if j < Decisive(seg) && rulesNow == rules && rowsNow == rows {
      m, n := |done|, |done|;
    } else if j < Decisive(seg) && rowsNow == rows {
      m, n := |done| + 1, |done|;
    } else {
      m, n := |done| + 1, |done| + 1;
    }
    PartOf(done, seg, all, |done|);
    PartOf(done, seg, all, |done| + 1);
    TiedInCall(done, seg, all, j, m, n);
  }

  lemma {:induction false} TiedInCall(done: seq<Segment>, seg: Segment, all: seq<Segment>, j: nat, m: nat, n: nat)
    requires seg.Lifecycle? && done + [seg] <= all && j <= |SegmentEvents(seg)|
    requires |done| <= n <= m <= |done| + 1
    requires m > |done| ==> j >= Decisive(seg) - 1
    requires j >= Decisive(seg) ==> n > |done|
    ensures Tied(all, |Flatten(done)| + j, m, n)
  {
    var p := |done|;
    assert all[..p] == done && all[p] == seg && all[..p + 1] == done + [seg];
    FlattenPush(done, seg);
    TiedAt(all, p, |Flatten(done)| + j, m, n);
  }

  lemma RulesJoin(r: Rules, segs: seq<Segment>, seg: Segment)
    requires seg.Lifecycle?
    ensures RulesAfter(r, segs + [seg]) == Learn(RulesAfter(r, segs), seg.judged, seg.choice)
  {
    assert (segs + [seg])[..|segs|] == segs;
  }

  // ----- how a segment moves the state ----------------------------------------------------------

  lemma PushSingleState(s: Script, start: Cursor, segs: seq<Segment>, e: Event)
    requires GateAfter(segs).Some?
    ensures EmitAll(s.writer, start, Flatten(segs + [Single(e)])) ==
            EmitOne(s.writer, EmitAll(s.writer, start, Flatten(segs)), e)
    ensures GateAfter(segs + [Single(e)]) == Admit(GateAfter(segs).value, e.kind)
    ensures RulesAfter(s.rules, segs + [Single(e)]) == RulesAfter(s.rules, segs)
    ensures RowsOf(segs + [Single(e)]) == RowsOf(segs)
  {
    PushGate(segs, Single(e));
    FlattenPush(segs, Single(e));
    assert (Flatten(segs) + [e])[..|Flatten(segs)|] == Flatten(segs);
    assert (segs + [Single(e)])[..|segs|] == segs;
    assert RowsOf(segs) + [] == RowsOf(segs);
  }

  lemma {:induction false} PushCallState(s: Script, start: Cursor, segs: seq<Segment>, seg: Segment)
    requires seg.Lifecycle? && GateAfter(segs).Some?
    requires Ready(GateAfter(segs).value.state) && !GateAfter(segs).value.terminal
    ensures EmitAll(s.writer, start, Flatten(segs + [seg])) ==
            EmitAll(s.writer, EmitAll(s.writer, start, Flatten(segs)), SegmentEvents(seg))
    ensures seg.Outcome().Status? ==> GateAfter(segs + [seg]) == Some(Gate(ToolResulted, false))
    ensures RulesAfter(s.rules, segs + [seg]) == Learn(RulesAfter(s.rules, segs), seg.judged, seg.choice)
    ensures RowsOf(segs + [seg]) == RowsOf(segs) + LearnedRows(seg.judged, seg.choice)
  {
    PushGate(segs, seg);
    DriveLifecycle(GateAfter(segs).value, seg);
    FlattenPush(segs, seg);
    EmitAllConcat(s.writer, start, Flatten(segs), SegmentEvents(seg));
    assert (segs + [seg])[..|segs|] == segs;
  }

  lemma {:induction false} CutInRun(
    w: Writer, start: Cursor, c: Cursor, d: Cursor, done: seq<Segment>, seg: Segment, all: seq<Segment>, j: nat, k: nat)
    requires done + [seg] <= all && j <= |SegmentEvents(seg)| && k == |Flatten(done)| + j
    requires c == EmitAll(w, start, Flatten(done)) && CutAt(w, c, d, SegmentEvents(seg), j)
    ensures k <= |Flatten(all)| && CutAt(w, start, d, Flatten(all), k)
  {
    assert all[..|done|] == done && all[|done|] == seg;
    RunHasPart(all, |done|);
    CutInContext(w, start, c, d, Flatten(done), SegmentEvents(seg), Flatten(all), j, k);
  }
}
