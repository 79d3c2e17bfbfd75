/** What holds of the trace of every run: the state machine accepts it, and call ids are distinct. */
module TraceLaws {
  import opened Wrappers
  import opened Events
  import opened StreamAdapter
  import opened TurnFsm
  import opened RunModel
  import opened Sequences
  import Decimal

  const START_GATE := Gate(Init, false)

  // ----- the state machine accepts every run ------------------------------------------------------

  lemma DriveOne(g: Gate, e: Event)
    ensures Drive(g, [e]) == Admit(g, e.kind)
  {
    assert [e][..0] == [];
  }

  lemma DriveTwo(g: Gate, e: Event, f: Event)
    ensures Drive(g, [e, f]) == if Admit(g, e.kind).None? then None else Admit(Admit(g, e.kind).value, f.kind)
  {
    assert [e, f][..1] == [e];
    DriveOne(g, e);
  }

  /** A whole lifecycle is accepted wherever a message is, and leaves the machine ready. */
  lemma DriveLifecycle(g: Gate, seg: Segment)
    requires seg.Lifecycle? && Ready(g.state) && !g.terminal
    ensures Drive(g, SegmentEvents(seg)) ==
            Some(Gate(if seg.Outcome().Status? then ToolResulted else ToolRunning, false))
  {
    var id := seg.call.id;
    var request := Event(ToolCallRequested, id, Request(seg.call.toolName, Some(seg.call.input)));
    var decided := Event(ToolPermissionDecided, id, Decided(seg.Decision()));
    DriveAsked(g, request, seg, decided);
    DriveConcat(g, [request] + Asked(seg) + [decided], Executed(seg));
    DriveExecuted(seg);
  }

  lemma AdmitRequest(g: Gate, request: Event, decided: Event)
    requires Ready(g.state) && !g.terminal
    requires request.kind == ToolCallRequested && decided.kind == ToolPermissionDecided
    ensures Admit(g, request.kind) == Some(Gate(ToolRequested, false))
    ensures Admit(Gate(ToolRequested, false), ToolPermissionRequired) == Some(Gate(ToolRequired, false))
    ensures Admit(Gate(ToolRequested, false), decided.kind) == Some(Gate(ToolDecided, false))
    ensures Admit(Gate(ToolRequired, false), decided.kind) == Some(Gate(ToolDecided, false))
  {
  }

  lemma DriveAsked(g: Gate, request: Event, seg: Segment, decided: Event)
    requires seg.Lifecycle? && Ready(g.state) && !g.terminal
    requires request.kind == ToolCallRequested && decided.kind == ToolPermissionDecided
    ensures Drive(g, [request] + Asked(seg) + [decided]) == Some(Gate(ToolDecided, false))
  {
    AdmitRequest(g, request, decided);
    DriveOne(g, request);
    if seg.judged.verdict == Ask {
      var asked := Event(ToolPermissionRequired, seg.call.id, Unread);
      assert [request] + Asked(seg) + [decided] == [request] + [asked, decided];
      DriveConcat(g, [request], [asked, decided]);
      DriveTwo(Gate(ToolRequested, false), asked, decided);
    } else {
      assert [request] + Asked(seg) + [decided] == [request] + [decided];
      DriveConcat(g, [request], [decided]);
      DriveOne(Gate(ToolRequested, false), decided);
    }
  }

  lemma DriveExecuted(seg: Segment)
    requires seg.Lifecycle?
    ensures Drive(Gate(ToolDecided, false), Executed(seg)) ==
            Some(Gate(if seg.Outcome().Status? then ToolResulted else ToolRunning, false))
  {
    var g := Gate(ToolDecided, false);
    var started := Event(ToolExecutionStarted, seg.call.id, Unread);
    if seg.Outcome().Raises? {
      assert Executed(seg) == [started];
      DriveOne(g, started);
    } else {
      var s := seg.Outcome().status;
      DriveReported(seg, g, started, Event(ToolResult, seg.call.id, Result(s)),
                    Event(ToolExecutionFinished, seg.call.id, Finished(s)));
    }
  }

  lemma AdmitExecution(started: Event, result: Event, finished: Event)
    requires started.kind == ToolExecutionStarted && result.kind == ToolResult && finished.kind == ToolExecutionFinished
    ensures Admit(Gate(ToolDecided, false), started.kind) == Some(Gate(ToolRunning, false))
    ensures Admit(Gate(ToolRunning, false), result.kind) == Some(Gate(ToolResulted, false))
    ensures Admit(Gate(ToolDecided, false), result.kind) == Some(Gate(ToolResulted, false))
    ensures Admit(Gate(ToolResulted, false), finished.kind) == Some(Gate(ToolResulted, false))
  {
  }

  lemma DriveReported(seg: Segment, g: Gate, started: Event, result: Event, finished: Event)
    requires seg.Lifecycle? && g == Gate(ToolDecided, false)
    requires Executed(seg) == (if seg.Allowed() then [started] else []) + [result, finished]
    requires started.kind == ToolExecutionStarted && result.kind == ToolResult && finished.kind == ToolExecutionFinished
    ensures Drive(g, Executed(seg)) == Some(Gate(ToolResulted, false))
  {
    AdmitExecution(started, result, finished);
    if seg.Allowed() {
      DriveConcat(g, [started], [result, finished]);
      DriveOne(g, started);
      DriveTwo(Gate(ToolRunning, false), result, finished);
    } else {
      assert [] + [result, finished] == [result, finished];
      DriveTwo(g, result, finished);
    }
  }

  /** The machine after some segments. */
  function GateAfter(segs: seq<Segment>): Option<Gate> {
    if segs == [] then Some(START_GATE)
    else
      match GateAfter(segs[..|segs| - 1])
      case None => None
      case Some(g) => Drive(g, SegmentEvents(segs[|segs| - 1]))
  }

  lemma {:induction false} GateAfterIsDrive(segs: seq<Segment>)
    ensures GateAfter(segs) == Drive(START_GATE, Flatten(segs))
  {
    if segs != [] {
      var front, seg := segs[..|segs| - 1], segs[|segs| - 1];
      SplitLast(segs);
      GateAfterIsDrive(front);
      FlattenPush(front, seg);
      DriveConcat(START_GATE, Flatten(front), SegmentEvents(seg));
    }
  }

  /** How far the machine is when the run has come this far. */
  predicate Fits(gate: Option<Gate>, status: RunStatus) {
    gate.Some? &&
    match status
    case Running => Ready(gate.value.state) && !gate.value.terminal
    case Raising => !gate.value.terminal
    case Ended(r) => gate.value == Gate(if r.completed then Done else FailedState, true)
  }

  predicate Accepted(p: Progress) {
    Fits(GateAfter(p.segs), p.status)
  }

  lemma PushGate(segs: seq<Segment>, seg: Segment)
    requires GateAfter(segs).Some?
    ensures GateAfter(segs + [seg]) == Drive(GateAfter(segs).value, SegmentEvents(seg))
    ensures seg.Single? ==> GateAfter(segs + [seg]) == Admit(GateAfter(segs).value, seg.event.kind)
  {
    assert (segs + [seg])[..|segs|] == segs;
    if seg.Single? {
      DriveOne(GateAfter(segs).value, seg.event);
    }
  }

  lemma {:induction false} AcceptedSay(p: Progress, kind: EventType, payload: Payload)
    requires Accepted(p) && p.status == Running
    requires kind.AssistantDelta? || kind.AssistantMessage?
    ensures Accepted(Say(p, kind, payload))
  {
    PushGate(p.segs, Single(Event(kind, "", payload)));
  }

  lemma FailShape(p: Progress, errorCode: string, exitCode: nat)
    ensures Fail(p, errorCode, exitCode).segs == p.segs + [Single(Event(SessionFailed, "", Failed(errorCode)))]
    ensures Fail(p, errorCode, exitCode).status == Ended(RunResult(false, exitCode, None))
  {
  }

  lemma AdmitTerminal(g: Gate, kind: EventType)
    requires !g.terminal && IsTerminal(kind)
    ensures Admit(g, kind) == Some(Gate(if kind.SessionCompleted? then Done else FailedState, true))
  {
  }

  lemma {:induction false} AcceptedFail(p: Progress, errorCode: string, exitCode: nat)
    requires Accepted(p) && p.status == Running
    ensures Accepted(Fail(p, errorCode, exitCode))
  {
    PushGate(p.segs, Single(Event(SessionFailed, "", Failed(errorCode))));
    FailShape(p, errorCode, exitCode);
    AdmitTerminal(GateAfter(p.segs).value, SessionFailed);
  }

  lemma {:induction false} AcceptedConclude(p: Progress, seg: Segment)
    requires seg.Lifecycle? && p.status == Running
    requires GateAfter(p.segs) == Some(Gate(if seg.Outcome().Status? then ToolResulted else ToolRunning, false))
    ensures Accepted(Conclude(p, seg))
  {
    if seg.Outcome().Status? {
      AcceptedFail(p, "PERMISSION_DENIED",
                   if seg.Decision().reason == AskUnavailable then PERMISSION_UNAVAILABLE else PERMISSION_DENIED);
      AcceptedFail(p, "TOOL_RUNTIME_FAILURE", TOOL_RUNTIME_FAILURE);
    }
  }

  lemma AcceptedCallTool(s: Script, p: Progress, toolName: string, input: ToolInput)
    requires Accepted(p) && p.status == Running
    ensures Accepted(CallTool(s, p, toolName, input))
  {
    var seg := CallSegment(s, p, toolName, input);
    PushGate(p.segs, seg);
    DriveLifecycle(GateAfter(p.segs).value, seg);
    AcceptedConclude(AfterCall(p, seg), seg);
  }

  lemma AcceptedStart(s: Script)
    ensures GateAfter(Start(s).segs) == Some(Gate(Started, false))
  {
    PushGate([], Single(Event(if s.resumed then SessionResumed else SessionStart, "", Unread)));
  }

  lemma AcceptedOpening(s: Script)
    ensures Accepted(Opening(s))
  {
    AcceptedStart(s);
    if s.prompt.Some? {
      PushGate(Start(s).segs, Single(Event(UserMessage, "", Text(s.prompt.value))));
    }
  }

  lemma {:induction false} AcceptedTake(s: Script, p: Progress, item: Adapted)
    requires Accepted(p) && p.status == Running
    ensures Accepted(Take(s, p, item))
  {
    match item
    case AdaptedDelta(t) => AcceptedSay(p, AssistantDelta, Text(t));
    case AdaptedMessage(t) => AcceptedSay(p, AssistantMessage, Text(t));
    case AdaptedTool(n, i) => AcceptedCallTool(s, p, n, i);
    case AdaptedBadTool =>
  }

  lemma {:induction false} AcceptedTakeAll(s: Script, p: Progress, items: seq<Adapted>)
    requires Accepted(p)
    requires p.status == Running
    ensures Accepted(TakeAll(s, p, items))
  {
    if items != [] {
      AcceptedTakeAll(s, p, items[..|items| - 1]);
      var q := TakeAll(s, p, items[..|items| - 1]);
      if q.status == Running {
        AcceptedTake(s, q, items[|items| - 1]);
      }
    }
  }

  lemma AcceptedRecovered(s: Script, log: seq<Event>)
    ensures Accepted(Recovered(s, log))
  {
    AcceptedOpening(s);
    var p := Opening(s);
    if p.status == Running && s.resumed {
      var plan := RecoveryPlanAt(s, log);
      if plan.Some? {
        AcceptedCallTool(s, p, plan.value.toolName, plan.value.input);
      }
    }
  }

  function RecoveryPlanAt(s: Script, log: seq<Event>): Option<Recovery.Retry> {
    Recovery.RecoveryPlan(LogAtRecovery(s, log))
  }

  lemma {:induction false} AcceptedStreamed(s: Script, log: seq<Event>)
    ensures Accepted(Streamed(s, log))
  {
    AcceptedRecovered(s, log);
    var p := Recovered(s, log);
    if p.status == Running && s.provider.Some? {
      AcceptedTakeAll(s, p, AdaptAll(Supported(s.provider.value)));
    }
  }

  lemma {:induction false} AcceptedClosing(p: Progress)
    requires Accepted(p) && p.status == Running
    ensures Accepted(Closing(p)) && Closing(p).status.Ended?
  {
    if p.final.None? && !p.hadTool {
      AcceptedFail(p, "MODEL_NO_MESSAGE", MODEL_FAILURE);
    } else {
      PushGate(p.segs, Single(Event(SessionCompleted, "", Unread)));
      AdmitTerminal(GateAfter(p.segs).value, SessionCompleted);
    }
  }

  lemma AcceptedRun(s: Script, log: seq<Event>)
    ensures Accepted(Run(s, log)) && Run(s, log).status != Running
  {
    AcceptedStreamed(s, log);
    if Streamed(s, log).status == Running {
      AcceptedClosing(Streamed(s, log));
    }
  }

  /**
   Whatever the provider, the user and the tools do, the state machine and the terminal guard
   accept every prefix of a run's trace. A run that returns has exactly one terminal event, its
   last one, and the machine ends in the state that the result reports; a run that raises has none.
   */
  lemma RunIsAccepted(s: Script, log: seq<Event>, k: nat)
    requires k <= |Trace(s, log)|
    ensures Drive(START_GATE, Trace(s, log)[..k]).Some?
    ensures forall i :: 0 <= i < |Trace(s, log)| - 1 ==> !IsTerminal(Trace(s, log)[i].kind)
    ensures var status, t := Run(s, log).status, Trace(s, log);
            && status != Running
            && (status.Ended? <==> t != [] && IsTerminal(t[|t| - 1].kind))
            && (status.Ended? ==>
                  Drive(START_GATE, t) == Some(Gate(if status.result.completed then Done else FailedState, true)))
  {
    AcceptedRun(s, log);
    GateAfterIsDrive(Run(s, log).segs);
    AcceptedTrace(Run(s, log), k);
  }

  lemma AcceptedTrace(p: Progress, k: nat)
    requires Accepted(p) && k <= |Flatten(p.segs)| && p.status != Running
    ensures var t := Flatten(p.segs);
            && Drive(START_GATE, t[..k]).Some?
            && (forall i :: 0 <= i < |t| - 1 ==> !IsTerminal(t[i].kind))
            && (p.status.Ended? <==> t != [] && IsTerminal(t[|t| - 1].kind))
  {
    GateAfterIsDrive(p.segs);
    DrivePrefix(START_GATE, Flatten(p.segs), k);
    TerminalIsLast(Flatten(p.segs));
  }

  // ----- call ids are distinct --------------------------------------------------------------------

  /** The lifecycles among the segments. */
  function Calls(segs: seq<Segment>): seq<Segment> {
    if segs == [] then []
    else if segs[|segs| - 1].Lifecycle? then Calls(segs[..|segs| - 1]) + [segs[|segs| - 1]]
    else Calls(segs[..|segs| - 1])
  }

  predicate ToolKind(kind: EventType) {
    || kind.ToolCallRequested? || kind.ToolPermissionRequired? || kind.ToolPermissionDecided?
    || kind.ToolExecutionStarted? || kind.ToolResult? || kind.ToolExecutionFinished?
  }

  /** The n-th call is TCn, and no other event carries a call id or speaks of a tool. */
  predicate Numbered(segs: seq<Segment>) {
    segs == [] ||
    var front, seg := segs[..|segs| - 1], segs[|segs| - 1];
    && Numbered(front)
    && match seg
       case Single(e) => e.toolCallId == "" && !ToolKind(e.kind)
       case Lifecycle(call, _, _, _) => call.id == ToolCallId(|Calls(front)| + 1)
  }

  lemma NumberedPush(segs: seq<Segment>, seg: Segment)
    requires Numbered(segs)
    requires seg.Single? ==> seg.event.toolCallId == "" && !ToolKind(seg.event.kind)
    requires seg.Lifecycle? ==> seg.call.id == ToolCallId(|Calls(segs)| + 1)
    ensures Numbered(segs + [seg])
    ensures Calls(segs + [seg]) == if seg.Lifecycle? then Calls(segs) + [seg] else Calls(segs)
  {
    assert (segs + [seg])[..|segs|] == segs;
  }

  predicate Counted(p: Progress) {
    Numbered(p.segs) && p.calls == |Calls(p.segs)|
  }

  lemma CountedSay(p: Progress, kind: EventType, payload: Payload)
    requires Counted(p) && !ToolKind(kind)
    ensures Counted(Say(p, kind, payload))
    ensures Calls(Say(p, kind, payload).segs) == Calls(p.segs)
  {
    NumberedPush(p.segs, Single(Event(kind, "", payload)));
  }

  lemma CountedConclude(p: Progress, seg: Segment)
    requires Counted(p) && seg.Lifecycle?
    ensures Counted(Conclude(p, seg)) && Calls(Conclude(p, seg).segs) == Calls(p.segs)
  {
    CountedSay(p, SessionFailed, Failed("PERMISSION_DENIED"));
    CountedSay(p, SessionFailed, Failed("TOOL_RUNTIME_FAILURE"));
  }

  lemma CountedCallTool(s: Script, p: Progress, toolName: string, input: ToolInput)
    requires Counted(p)
    ensures Counted(CallTool(s, p, toolName, input))
    ensures Calls(CallTool(s, p, toolName, input).segs) == Calls(p.segs) + [CallSegment(s, p, toolName, input)]
  {
    var seg := CallSegment(s, p, toolName, input);
    NumberedPush(p.segs, seg);
    CountedConclude(AfterCall(p, seg), seg);
  }

  lemma {:induction false} CountedTake(s: Script, p: Progress, item: Adapted)
    requires Counted(p)
    ensures Counted(Take(s, p, item))
  {
    match item
    case AdaptedDelta(t) => CountedSay(p, AssistantDelta, Text(t));
    case AdaptedMessage(t) => CountedSay(p, AssistantMessage, Text(t));
    case AdaptedTool(n, i) => CountedCallTool(s, p, n, i);
    case AdaptedBadTool =>
  }

  lemma {:induction false} CountedTakeAll(s: Script, p: Progress, items: seq<Adapted>)
    requires Counted(p)
    ensures Counted(TakeAll(s, p, items))
  {
    if items != [] {
      CountedTakeAll(s, p, items[..|items| - 1]);
      CountedTake(s, TakeAll(s, p, items[..|items| - 1]), items[|items| - 1]);
    }
  }

  lemma CountedStart(s: Script)
    ensures Counted(Start(s)) && Calls(Start(s).segs) == []
  {
    CountedSay(Progress([], LoadQueues(s.messages), 0, None, false, Running),
               if s.resumed then SessionResumed else SessionStart, Unread);
  }

  lemma CountedOpening(s: Script)
    ensures Counted(Opening(s)) && Calls(Opening(s).segs) == []
  {
    CountedStart(s);
    if s.prompt.Some? {
      CountedSay(Start(s), UserMessage, Text(s.prompt.value));
    }
  }

  lemma CountedRecovered(s: Script, log: seq<Event>)
    ensures Counted(Recovered(s, log))
    ensures |Calls(Recovered(s, log).segs)| <= 1
  {
    CountedOpening(s);
    var p := Opening(s);
    if p.status == Running && s.resumed && RecoveryPlanAt(s, log).Some? {
      var plan := RecoveryPlanAt(s, log).value;
      CountedCallTool(s, p, plan.toolName, plan.input);
    }
  }

  lemma CountedStreamed(s: Script, log: seq<Event>)
    ensures Counted(Streamed(s, log))
  {
    CountedRecovered(s, log);
    if s.provider.Some? {
      CountedTakeAll(s, Recovered(s, log), AdaptAll(Supported(s.provider.value)));
    }
  }

  lemma CountedRun(s: Script, log: seq<Event>)
    ensures Counted(Run(s, log))
  {
    CountedStreamed(s, log);
    CountedSay(Streamed(s, log), SessionFailed, Failed("MODEL_NO_MESSAGE"));
    CountedSay(Streamed(s, log), SessionCompleted, Unread);
  }

  /** In a numbered run, the call of one segment is mentioned by no other segment. */
  lemma {:induction false} IdsApart(segs: seq<Segment>, i: nat, j: nat)
    requires Numbered(segs) && i < j < |segs|
    requires segs[i].Lifecycle? && segs[j].Lifecycle?
    ensures segs[i].call.id != segs[j].call.id
  {
    if j < |segs| - 1 {
      IdsApart(segs[..|segs| - 1], i, j);
    } else {
      IdIsSmall(segs[..j], i);
      var n: nat :| 1 <= n <= |Calls(segs[..j])| && segs[i].call.id == ToolCallId(n);
      if segs[i].call.id == segs[j].call.id {
        ToolCallIdInjective(n, |Calls(segs[..j])| + 1);
      }
    }
  }

  lemma {:induction false} IdIsSmall(segs: seq<Segment>, i: nat)
    requires Numbered(segs) && i < |segs| && segs[i].Lifecycle?
    ensures exists n: nat :: 1 <= n <= |Calls(segs)| && segs[i].call.id == ToolCallId(n)
  {
    var front := segs[..|segs| - 1];
    if i < |segs| - 1 {
      IdIsSmall(front, i);
      var n: nat :| 1 <= n <= |Calls(front)| && front[i].call.id == ToolCallId(n);
      assert segs[i].call.id == ToolCallId(n);
    } else {
      assert segs[i].call.id == ToolCallId(|Calls(front)| + 1);
    }
  }

  /** Within a run, two calls never share an id. */
  lemma RunIdsDistinct(s: Script, log: seq<Event>, i: nat, j: nat)
    requires i < j < |Run(s, log).segs|
    requires Run(s, log).segs[i].Lifecycle? && Run(s, log).segs[j].Lifecycle?
    ensures Run(s, log).segs[i].call.id != Run(s, log).segs[j].call.id
  {
    CountedRun(s, log);
    IdsApart(Run(s, log).segs, i, j);
  }

  /** The calls of a run are numbered from 1: the id of each is TC and the digits of its number. */
  lemma CallIdsCount(s: Script, log: seq<Event>, i: nat)
    requires i < |Calls(Run(s, log).segs)|
    ensures Calls(Run(s, log).segs)[i].Lifecycle?
    ensures var id := Calls(Run(s, log).segs)[i].call.id;
            && id == "TC" + Decimal.Print(i + 1)
            && id[..2] == "TC" && Decimal.AllDigits(id[2..]) && Decimal.Parse(id[2..]) == i + 1
  {
    CountedRun(s, log);
    CallIsNumbered(Run(s, log).segs, i);
    Decimal.ParsePrint(i + 1);
    assert ("TC" + Decimal.Print(i + 1))[2..] == Decimal.Print(i + 1);
  }

  lemma {:induction false} CallIsNumbered(segs: seq<Segment>, i: nat)
    requires Numbered(segs) && i < |Calls(segs)|
    ensures Calls(segs)[i].Lifecycle? && Calls(segs)[i].call.id == ToolCallId(i + 1)
  {
    var front := segs[..|segs| - 1];
    if i < |Calls(front)| {
      CallIsNumbered(front, i);
    }
  }
}
