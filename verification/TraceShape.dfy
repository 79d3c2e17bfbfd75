/** The shape of every trace: start, user message, then deltas, messages and calls, then at most one end. */
module TraceShape {
  import opened Wrappers
  import opened Events
  import opened RunModel
  import opened TraceLaws
  import RetryLaws
  import RuleLaws
  import StreamAdapter

  /** A delta, a message, or a whole tool call. */
  predicate IsBody(seg: Segment) {
    seg.Lifecycle? || seg.event.kind.AssistantDelta? || seg.event.kind.AssistantMessage?
  }

  predicate IsStart(seg: Segment, resumed: bool) {
    seg.Single? && seg.event.kind == if resumed then SessionResumed else SessionStart
  }

  /** The user's message has come, and no end. */
  predicate Going(segs: seq<Segment>, resumed: bool) {
    && |segs| >= 2
    && IsStart(segs[0], resumed)
    && segs[1].Single? && segs[1].event.kind == UserMessage
    && forall i :: 2 <= i < |segs| ==> IsBody(segs[i])
  }

  /** The run has ended: a going run and one terminal event. */
  predicate Over(segs: seq<Segment>, resumed: bool, kind: EventType) {
    && |segs| >= 3
    && Going(segs[..|segs| - 1], resumed)
    && segs[|segs| - 1].Single? && segs[|segs| - 1].event.kind == kind
  }

  predicate Shaped(p: Progress, resumed: bool) {
    match p.status
    case Running => Going(p.segs, resumed)
    case Raising => Going(p.segs, resumed) || (|p.segs| == 1 && IsStart(p.segs[0], resumed))
    case Ended(r) => Over(p.segs, resumed, if r.completed then SessionCompleted else SessionFailed)
  }

  lemma GoingPush(segs: seq<Segment>, seg: Segment, resumed: bool)
    requires Going(segs, resumed)
    ensures IsBody(seg) ==> Going(segs + [seg], resumed)
    ensures seg.Single? ==> Over(segs + [seg], resumed, seg.event.kind)
  {
    assert (segs + [seg])[..|segs|] == segs;
  }

  lemma ShapedFail(p: Progress, errorCode: string, exitCode: nat, resumed: bool)
    requires Going(p.segs, resumed)
    ensures Shaped(Fail(p, errorCode, exitCode), resumed)
  {
    GoingPush(p.segs, Single(Event(SessionFailed, "", Failed(errorCode))), resumed);
    FailShape(p, errorCode, exitCode);
  }

  lemma ShapedConclude(p: Progress, seg: Segment, resumed: bool)
    requires seg.Lifecycle? && Going(p.segs, resumed) && p.status == Running
    ensures Shaped(Conclude(p, seg), resumed)
  {
    ShapedFail(p, "PERMISSION_DENIED",
               if seg.Decision().reason == Events.AskUnavailable then PERMISSION_UNAVAILABLE else PERMISSION_DENIED, resumed);
    ShapedFail(p, "TOOL_RUNTIME_FAILURE", TOOL_RUNTIME_FAILURE, resumed);
  }

  lemma ShapedCallTool(s: Script, p: Progress, toolName: string, input: ToolInput)
    requires Going(p.segs, s.resumed) && p.status == Running
    ensures Shaped(CallTool(s, p, toolName, input), s.resumed)
  {
    var seg := CallSegment(s, p, toolName, input);
    GoingPush(p.segs, seg, s.resumed);
    ShapedConclude(AfterCall(p, seg), seg, s.resumed);
  }

  lemma ShapedSay(p: Progress, kind: EventType, text: string, final: Option<string>, resumed: bool)
    requires Going(p.segs, resumed) && p.status == Running && (kind.AssistantDelta? || kind.AssistantMessage?)
    ensures Shaped(Say(p, kind, Text(text)), resumed)
    ensures Shaped(Say(p, kind, Text(text)).(final := final), resumed)
  {
    GoingPush(p.segs, Single(Event(kind, "", Text(text))), resumed);
  }

  lemma ShapedTake(s: Script, p: Progress, item: StreamAdapter.Adapted)
    requires Going(p.segs, s.resumed) && p.status == Running
    ensures Shaped(Take(s, p, item), s.resumed)
  {
    match item
    case AdaptedDelta(t) => ShapedSay(p, AssistantDelta, t, None, s.resumed);
    case AdaptedMessage(t) => ShapedSay(p, AssistantMessage, t, Some(t), s.resumed);
    case AdaptedTool(n, i) => ShapedCallTool(s, p, n, i);
    case AdaptedBadTool =>
  }

  lemma {:induction false} ShapedTakeAll(s: Script, p: Progress, items: seq<StreamAdapter.Adapted>)
    requires Going(p.segs, s.resumed) && p.status == Running
    ensures Shaped(TakeAll(s, p, items), s.resumed)
  {
    if items != [] {
      ShapedTakeAll(s, p, items[..|items| - 1]);
      if TakeAll(s, p, items[..|items| - 1]).status == Running {
        ShapedTake(s, TakeAll(s, p, items[..|items| - 1]), items[|items| - 1]);
      }
    }
  }

  lemma ShapedRecovered(s: Script, log: seq<Event>)
    ensures Shaped(Recovered(s, log), s.resumed)
  {
    var p := Opening(s);
    if p.status == Running && s.resumed && RecoveryPlanAt(s, log).Some? {
      ShapedCallTool(s, p, RecoveryPlanAt(s, log).value.toolName, RecoveryPlanAt(s, log).value.input);
    }
  }

  lemma ShapedStreamed(s: Script, log: seq<Event>)
    ensures Shaped(Streamed(s, log), s.resumed)
  {
    ShapedRecovered(s, log);
    var p := Recovered(s, log);
    if p.status == Running && s.provider.Some? {
      ShapedTakeAll(s, p, StreamAdapter.AdaptAll(StreamAdapter.Supported(s.provider.value)));
    }
  }

  lemma ShapedClosing(p: Progress, resumed: bool)
    requires Going(p.segs, resumed) && p.status == Running
    ensures Shaped(Closing(p), resumed)
  {
    ShapedFail(p, "MODEL_NO_MESSAGE", MODEL_FAILURE, resumed);
    GoingPush(p.segs, Single(Event(SessionCompleted, "", Unread)), resumed);
  }

  /**
   Every run, whatever it is given: one start event of the right kind, one user message, deltas,
   messages and whole calls in any order, and one terminal event exactly if the run returns. Only a
   run without a user message stops short of one; the message is the prompt.
   */
  lemma RunIsShaped(s: Script, log: seq<Event>)
    ensures Shaped(Run(s, log), s.resumed) && Run(s, log).status != Running
    ensures |Run(s, log).segs| == 1 ==> s.prompt.None?
    ensures |Run(s, log).segs| >= 1
    ensures Run(s, log).segs[0] == Single(Event(if s.resumed then SessionResumed else SessionStart, "", Unread))
    ensures |Run(s, log).segs| >= 2 ==>
              s.prompt.Some? && Run(s, log).segs[1] == Single(Event(UserMessage, "", Text(s.prompt.value)))
  {
    BeginsWithPrompt(s, log);
    ShapedStreamed(s, log);
    AcceptedRun(s, log);
    if Streamed(s, log).status == Running {
      ShapedClosing(Streamed(s, log), s.resumed);
    }
    if s.prompt.Some? {
      GoesPastPrompt(s, log);
    }
  }

  lemma GoesPastPrompt(s: Script, log: seq<Event>)
    requires s.prompt.Some?
    ensures |Run(s, log).segs| >= 2
  {
    RetryLaws.RunExtends(s, log);
    var p := Opening(s);
    if s.resumed && RecoveryPlanAt(s, log).Some? {
      var seg := CallSegment(s, p, RecoveryPlanAt(s, log).value.toolName, RecoveryPlanAt(s, log).value.input);
      RetryLaws.ConcludeExtends(AfterCall(p, seg), seg);
    }
  }

  lemma BeginsWithPrompt(s: Script, log: seq<Event>)
    ensures |Run(s, log).segs| >= 1
    ensures Run(s, log).segs[0] == Single(Event(if s.resumed then SessionResumed else SessionStart, "", Unread))
    ensures |Run(s, log).segs| >= 2 ==>
              s.prompt.Some? && Run(s, log).segs[1] == Single(Event(UserMessage, "", Text(s.prompt.value)))
  {
    RetryLaws.RunExtends(s, log);
    if s.prompt.None? {
      assert Run(s, log).segs == Opening(s).segs;
    } else {
      var p := Opening(s);
      if s.resumed && RecoveryPlanAt(s, log).Some? {
        var seg := CallSegment(s, p, RecoveryPlanAt(s, log).value.toolName, RecoveryPlanAt(s, log).value.input);
        RetryLaws.ConcludeExtends(AfterCall(p, seg), seg);
      }
      assert p.segs <= Run(s, log).segs;
    }
  }

  /**
   The events of every call of every run: its request, the question to the user if it was judged so, the
   decision, the start if that allows it, and result and finish unless its tool raised. The status is
   "denied" without a start, "error" if no such tool is registered, and otherwise what the tool said.
   */
  lemma CallReads(s: Script, log: seq<Event>, i: nat)
    requires i < |Run(s, log).segs| && Run(s, log).segs[i].Lifecycle?
    ensures var call := Run(s, log).segs[i];
            var id, allowed := call.call.id, call.Decision().verdict == Verdict.Allow;
            var reply :=
              if !allowed then Status("denied")
              else if call.call.toolName in s.registry then s.tools(call.call) else Status("error");
            SegmentEvents(call) ==
              [Event(ToolCallRequested, id, Request(call.call.toolName, Some(call.call.input)))]
              + (if call.judged.verdict == Verdict.Ask then [Event(ToolPermissionRequired, id, Unread)] else [])
              + [Event(ToolPermissionDecided, id, Decided(call.Decision()))]
              + ((if allowed then [Event(ToolExecutionStarted, id, Unread)] else [])
                 + if reply.Raises? then []
                   else [Event(ToolResult, id, Result(reply.status)),
                         Event(ToolExecutionFinished, id, Finished(reply.status))])
  {
    RuleLaws.LawfulRun(s, log);
    RuleLaws.LawfulAt(s, Run(s, log).segs, i);
  }
}
