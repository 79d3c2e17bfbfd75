/**
 One run as a function of what surrounds it: the provider's chunks, the permission messages, the
 tools' replies, the remembered rules and the log. A run is a list of segments: single events, and
 whole tool-call lifecycles.
 */
module RunModel {
  import opened Wrappers
  import opened Events
  import opened Policy
  import opened RuleStore
  import opened StreamAdapter
  import opened Recovery
  import opened Sequences
  import Decimal

  // ----- tool calls -----------------------------------------------------------------------------

  datatype Call = Call(id: string, toolName: string, input: ToolInput)

  /** The status in a tool's result, or an exception. */
  datatype ToolReply = Status(status: string) | Raises

  const REGISTERED_TOOLS: set<string> := {"Read", "LS", "Glob", "Grep", "Write", "Edit", "Bash"}

  /** Every tool whose interrupted calls are repeated or reviewed is registered, and no other. */
  lemma RegisteredIffActedOn(toolName: string)
    ensures toolName in REGISTERED_TOOLS <==>
            DecideRecoveryAction(Interrupted, toolName) in {EligibleForRetry, ManualReviewRequired}
    ensures toolName in REGISTERED_TOOLS <==>
            toolName in {"Read", "LS", "Glob", "Grep", "Write", "Edit", "Bash"}
  {
  }

  function ToolCallId(n: nat): string {
    "TC" + Decimal.Print(n)
  }

  lemma ToolCallIdInjective(m: nat, n: nat)
    requires ToolCallId(m) == ToolCallId(n)
    ensures m == n
  {
    assert ToolCallId(m)[2..] == Decimal.Print(m);
    assert ToolCallId(n)[2..] == Decimal.Print(n);
    Decimal.PrintInjective(m, n);
  }

  datatype Segment =
    | Single(event: Event)
    | Lifecycle(call: Call, judged: PermissionDecision, choice: Choice, reply: ToolReply)
  {
    function Decision(): PermissionDecision
      requires Lifecycle?
    {
      Settle(judged, choice)
    }

    predicate Allowed()
      requires Lifecycle?
    {
      Decision().verdict == Allow
    }

    /** The `status` of the executor's outcome. */
    function Outcome(): ToolReply
      requires Lifecycle?
    {
      if Allowed() then reply else Status("denied")
    }

    predicate Succeeds()
      requires Lifecycle?
    {
      Outcome() == Status("success")
    }
  }

  function Asked(seg: Segment): seq<Event>
    requires seg.Lifecycle?
  {
    if seg.judged.verdict == Ask then [Event(ToolPermissionRequired, seg.call.id, Unread)] else []
  }

  function Executed(seg: Segment): seq<Event>
    requires seg.Lifecycle?
  {
    var id := seg.call.id;
    (if seg.Allowed() then [Event(ToolExecutionStarted, id, Unread)] else []) +
    match seg.Outcome()
    case Status(s) => [Event(ToolResult, id, Result(s)), Event(ToolExecutionFinished, id, Finished(s))]
    case Raises => []
  }

  function SegmentEvents(seg: Segment): seq<Event> {
    match seg
    case Single(e) => [e]
    case Lifecycle(call, judged, choice, reply) =>
      [Event(ToolCallRequested, call.id, Request(call.toolName, Some(call.input)))]
      + Asked(seg)
      + [Event(ToolPermissionDecided, call.id, Decided(seg.Decision()))]
      + Executed(seg)
  }

  function Lists(segs: seq<Segment>): (lists: seq<seq<Event>>)
    ensures |lists| == |segs| && forall i :: 0 <= i < |segs| ==> lists[i] == SegmentEvents(segs[i])
  {
    seq(|segs|, i requires 0 <= i < |segs| => SegmentEvents(segs[i]))
  }

  function Flatten(segs: seq<Segment>): seq<Event> {
    Join(Lists(segs))
  }

  lemma FlattenPush(segs: seq<Segment>, seg: Segment)
    ensures Flatten(segs + [seg]) == Flatten(segs) + SegmentEvents(seg)
  {
    JoinPush(Lists(segs), SegmentEvents(seg));
    assert Lists(segs + [seg]) == Lists(segs) + [SegmentEvents(seg)];
  }

  lemma FlattenConcat(a: seq<Segment>, b: seq<Segment>)
    ensures Flatten(a + b) == Flatten(a) + Flatten(b)
  {
    JoinConcat(Lists(a), Lists(b));
    ListsConcat(a, b);
  }

  lemma {:induction false} ListsConcat(a: seq<Segment>, b: seq<Segment>)
    ensures Lists(a + b) == Lists(a) + Lists(b)
  {
    forall i | 0 <= i < |a + b|
      ensures Lists(a + b)[i] == (Lists(a) + Lists(b))[i]
    {
      assert (a + b)[i] == if i < |a| then a[i] else b[i - |a|];
    }
  }

  lemma FlattenTail(segs: seq<Segment>, i: nat)
    requires i <= |segs|
    ensures Flatten(segs[..i]) <= Flatten(segs)
  {
    FlattenConcat(segs[..i], segs[i..]);
    assert segs[..i] + segs[i..] == segs;
  }

  // ----- the rules along a run ------------------------------------------------------------------

  function RulesAfter(r: Rules, segs: seq<Segment>): Rules {
    if segs == [] then r
    else
      var before := RulesAfter(r, segs[..|segs| - 1]);
      match segs[|segs| - 1]
      case Single(_) => before
      case Lifecycle(_, judged, choice, _) => Learn(before, judged, choice)
  }

  /** The rows that an answered ask appends to the rule file. */
  function LearnedRows(d: PermissionDecision, choice: Choice): seq<RuleRow> {
    if d.verdict != Ask then []
    else if choice.AllowPersistent? then [RuleRow(d.requestHash, "allow")]
    else if choice.DenyPersistent? then [RuleRow(d.requestHash, "deny")]
    else []
  }

  function RowsOf(segs: seq<Segment>): seq<RuleRow> {
    if segs == [] then []
    else
      RowsOf(segs[..|segs| - 1]) +
      match segs[|segs| - 1]
      case Single(_) => []
      case Lifecycle(_, judged, choice, _) => LearnedRows(judged, choice)
  }

  // ----- the queues of permission messages ------------------------------------------------------

  datatype ControlMessage =
    | UserText(content: string)
    | PermissionAnswer(toolCallId: string, decision: string)
    | OtherMessage

  type Queues = map<string, seq<string>>

  function Enqueue(q: Queues, m: ControlMessage): Queues {
    if !m.PermissionAnswer? || m.toolCallId == "" then q
    else q[m.toolCallId := (if m.toolCallId in q then q[m.toolCallId] else []) + [m.decision]]
  }

  function LoadQueues(messages: seq<ControlMessage>): Queues {
    if messages == [] then map[]
    else Enqueue(LoadQueues(messages[..|messages| - 1]), messages[|messages| - 1])
  }

  function Front(q: Queues, id: string): Option<string> {
    if id in q && q[id] != [] then Some(q[id][0]) else None
  }

  function Dequeue(q: Queues, id: string): Queues {
    if id !in q || q[id] == [] then q
    else if |q[id]| == 1 then q - {id}
    else q[id := q[id][1..]]
  }

  /** The decision text of the first answer addressed to `id`. */
  function FirstAnswer(messages: seq<ControlMessage>, id: string): Option<string> {
    if messages == [] then None
    else if messages[0].PermissionAnswer? && messages[0].toolCallId == id then Some(messages[0].decision)
    else FirstAnswer(messages[1..], id)
  }

  /** The i-th message is the first one addressed to `id`. */
  predicate IsFirstTo(messages: seq<ControlMessage>, id: string, i: nat) {
    && i < |messages| && messages[i].PermissionAnswer? && messages[i].toolCallId == id
    && forall j :: 0 <= j < i && messages[j].PermissionAnswer? ==> messages[j].toolCallId != id
  }

  /** There is a first answer exactly if some message is addressed to `id`, and it is that of the first one. */
  lemma {:induction false} FirstAnswerIsFirst(messages: seq<ControlMessage>, id: string)
    ensures FirstAnswer(messages, id).None? <==> forall i: nat :: !IsFirstTo(messages, id, i)
    ensures forall i: nat :: IsFirstTo(messages, id, i) ==> FirstAnswer(messages, id) == Some(messages[i].decision)
  {
    if messages != [] && !IsFirstTo(messages, id, 0) {
      var rest := messages[1..];
      FirstAnswerIsFirst(rest, id);
      forall i: nat
        ensures IsFirstTo(messages, id, i) <==> i > 0 && IsFirstTo(rest, id, i - 1)
      {
        FirstInRest(messages, id, i);
      }
      if FirstAnswer(rest, id).Some? {
        var i: nat :| IsFirstTo(rest, id, i);
        assert IsFirstTo(messages, id, i + 1);
      }
    }
  }

  lemma FirstInRest(messages: seq<ControlMessage>, id: string, i: nat)
    requires messages != [] && !IsFirstTo(messages, id, 0)
    ensures IsFirstTo(messages, id, i) <==> i > 0 && IsFirstTo(messages[1..], id, i - 1)
  {
    var rest := messages[1..];
    assert forall j :: 0 < j < |messages| ==> messages[j] == rest[j - 1];
    assert forall j :: 0 <= j < |rest| ==> rest[j] == messages[j + 1];
  }

  lemma {:induction false} FirstAnswerPush(messages: seq<ControlMessage>, m: ControlMessage, id: string)
    ensures FirstAnswer(messages + [m], id) ==
            if FirstAnswer(messages, id).Some? then FirstAnswer(messages, id)
            else if m.PermissionAnswer? && m.toolCallId == id then Some(m.decision) else None
  {
    if messages == [] {
      assert ([] + [m])[1..] == [];
      assert messages + [m] == [m];
    } else {
      FirstAnswerPush(messages[1..], m, id);
      assert (messages + [m])[1..] == messages[1..] + [m];
    }
  }

  /** The queue built for an id starts with the first message addressed to it. */
  lemma {:induction false} QueueFrontIsFirstAnswer(messages: seq<ControlMessage>, id: string)
    requires id != ""
    ensures Front(LoadQueues(messages), id) == FirstAnswer(messages, id)
  {
    if messages != [] {
      var front, m := messages[..|messages| - 1], messages[|messages| - 1];
      QueueFrontIsFirstAnswer(front, id);
      FirstAnswerPush(front, m, id);
      assert front + [m] == messages;
    }
  }

  /** All decision texts addressed to `id`, in order. */
  function AnswersTo(messages: seq<ControlMessage>, id: string): seq<string> {
    if messages == [] then []
    else
      var front, m := messages[..|messages| - 1], messages[|messages| - 1];
      AnswersTo(front, id) + if m.PermissionAnswer? && m.toolCallId == id then [m.decision] else []
  }

  /** The answers that wait for `id`. */
  function Queued(q: Queues, id: string): seq<string> {
    if id in q then q[id] else []
  }

  /**
   The queues hold the answers, each under its call id and in the order of the messages; taking one
   takes the oldest, and the queues of other ids stay.
   */
  lemma {:induction false} QueuesAreAnswers(messages: seq<ControlMessage>, id: string)
    ensures Queued(LoadQueues(messages), id) == if id == "" then [] else AnswersTo(messages, id)
    ensures id in LoadQueues(messages) <==> id != "" && AnswersTo(messages, id) != []
  {
    if messages != [] {
      QueuesAreAnswers(messages[..|messages| - 1], id);
    }
  }

  /** Asking the queues once more and once more gives the answers to `id`, oldest first, and then none. */
  lemma DequeueIsNext(q: Queues, id: string, other: string)
    ensures Front(q, id) == if Queued(q, id) == [] then None else Some(Queued(q, id)[0])
    ensures Queued(Dequeue(q, id), id) == if Queued(q, id) == [] then [] else Queued(q, id)[1..]
    ensures other != id ==> Queued(Dequeue(q, id), other) == Queued(q, other)
    ensures id in Dequeue(q, id) ==> Dequeue(q, id)[id] != [] || q[id] == []
  {
  }

  // ----- one run ----------------------------------------------------------------------------------

  /** All that a run is given, besides the log of its session. */
  datatype Script = Script(
    writer: Writer,
    resumed: bool,
    prompt: Option<string>,  // None: no user message was sent
    messages: seq<ControlMessage>,
    provider: Option<seq<Chunk>>,  // None: the provider raises
    setting: Setting,
    registry: set<string>,  // the names of the registered tools
    tools: Call -> ToolReply,
    rules: Rules)

  datatype RunResult = RunResult(completed: bool, exitCode: nat, finalMessage: Option<string>)

  const SUCCESS: nat := 0
  const MODEL_FAILURE: nat := 3
  const TOOL_RUNTIME_FAILURE: nat := 4
  const PERMISSION_DENIED: nat := 5
  const PERMISSION_UNAVAILABLE: nat := 6

  datatype RunStatus = Running | Ended(result: RunResult) | Raising

  datatype Progress = Progress(
    segs: seq<Segment>,
    inbox: Queues,
    calls: nat,
    final: Option<string>,
    hadTool: bool,
    status: RunStatus)

  function Say(p: Progress, kind: EventType, payload: Payload): Progress {
    p.(segs := p.segs + [Single(Event(kind, "", payload))])
  }

  function Fail(p: Progress, errorCode: string, exitCode: nat): Progress {
    Say(p, SessionFailed, Failed(errorCode)).(status := Ended(RunResult(false, exitCode, None)))
  }

  function CallSegment(s: Script, p: Progress, toolName: string, input: ToolInput): Segment {
    var call := Call(ToolCallId(p.calls + 1), toolName, input);
    var judged := Judge(s.setting, RulesAfter(s.rules, p.segs), toolName, input);
    Lifecycle(
      call,
      judged,
      if judged.verdict == Ask then ReadChoice(Front(p.inbox, call.id)) else NoChoice,
      if toolName in s.registry then s.tools(call) else Status("error"))
  }

  function CallInbox(p: Progress, seg: Segment): Queues
    requires seg.Lifecycle?
  {
    if seg.judged.verdict == Ask then Dequeue(p.inbox, seg.call.id) else p.inbox
  }

  /** The progress after a call that did not raise, before the run looks at its outcome. */
  function AfterCall(p: Progress, seg: Segment): Progress
    requires seg.Lifecycle?
  {
    p.(segs := p.segs + [seg], inbox := CallInbox(p, seg), calls := p.calls + 1, hadTool := true)
  }

  /** What a finished call means for the run. */
  function Conclude(p: Progress, seg: Segment): Progress
    requires seg.Lifecycle?
  {
    match seg.Outcome()
    case Raises => p.(status := Raising)
    case Status(st) =>
      if st == "denied" then
        Fail(p, "PERMISSION_DENIED",
             if seg.Decision().reason == AskUnavailable then PERMISSION_UNAVAILABLE else PERMISSION_DENIED)
      else if st != "success" then Fail(p, "TOOL_RUNTIME_FAILURE", TOOL_RUNTIME_FAILURE)
      else p
  }

  function CallTool(s: Script, p: Progress, toolName: string, input: ToolInput): Progress {
    var seg := CallSegment(s, p, toolName, input);
    Conclude(AfterCall(p, seg), seg)
  }

  /** The state of a run that has not emitted anything. */
  function Initial(s: Script): Progress {
    Progress([], LoadQueues(s.messages), 0, None, false, Running)
  }

  function Start(s: Script): Progress {
    Say(
      Initial(s),
      if s.resumed then SessionResumed else SessionStart,
      Unread)
  }

  function Opening(s: Script): Progress {
    if s.prompt.None? then Start(s).(status := Raising) else Say(Start(s), UserMessage, Text(s.prompt.value))
  }

  /** The events of the log once the opening of the run has been written to it. */
  function LogAtRecovery(s: Script, log: seq<Event>): seq<Event> {
    log + if s.writer.persist then Kept(Flatten(Opening(s).segs)) else []
  }

  function Recovered(s: Script, log: seq<Event>): Progress {
    var p := Opening(s);
    if p.status != Running || !s.resumed then p
    else
      match RecoveryPlan(LogAtRecovery(s, log))
      case None => p
      case Some(retry) => CallTool(s, p, retry.toolName, retry.input)
  }

  function Take(s: Script, p: Progress, item: Adapted): Progress {
    match item
    case AdaptedDelta(t) => Say(p, AssistantDelta, Text(t))
    case AdaptedMessage(t) => Say(p, AssistantMessage, Text(t)).(final := Some(t))
    case AdaptedTool(n, i) => CallTool(s, p, n, i)
    case AdaptedBadTool => p.(hadTool := true, status := Raising)
  }

  /** The loop over the adapted stream; it stops when the run ends or raises. */
  function TakeAll(s: Script, p: Progress, items: seq<Adapted>): Progress {
    if items == [] then p
    else
      var q := TakeAll(s, p, items[..|items| - 1]);
      if q.status != Running then q else Take(s, q, items[|items| - 1])
  }

  function Closing(p: Progress): Progress {
    if p.final.None? && !p.hadTool then Fail(p, "MODEL_NO_MESSAGE", MODEL_FAILURE)
    else Say(p, SessionCompleted, Unread).(status := Ended(RunResult(true, SUCCESS, p.final)))
  }

  function StreamFrom(s: Script, p: Progress, chunks: seq<Chunk>): Progress {
    var q := TakeAll(s, p, AdaptAll(Supported(chunks)));
    if q.status == Running && Supported(chunks) != chunks then q.(status := Raising) else q
  }

  function Streamed(s: Script, log: seq<Event>): Progress {
    var p := Recovered(s, log);
    if p.status != Running then p
    else if s.provider.None? then p.(status := Raising)
    else StreamFrom(s, p, s.provider.value)
  }

  /** The whole run, on a session whose log holds the events `log`. */
  function Run(s: Script, log: seq<Event>): Progress {
    var p := Streamed(s, log);
    if p.status == Running then Closing(p) else p
  }

  /** A run consists of its recovery, what it makes of the stream, and its closing. */
  lemma RunEnds(s: Script, log: seq<Event>)
    ensures var r := Recovered(s, log);
            && (r.status != Running || s.provider.None? ==> Run(s, log).segs == r.segs)
            && (r.status == Running && s.provider.Some? ==>
                  var q := TakeAll(s, r, AdaptAll(Supported(s.provider.value)));
                  Run(s, log).segs == q.segs || Run(s, log) == Closing(q))
  {
  }

  function Trace(s: Script, log: seq<Event>): seq<Event> {
    Flatten(Run(s, log).segs)
  }
}
