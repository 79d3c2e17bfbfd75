/** What a resumed run repeats, against the runs before it. */
module RetryLaws {
  import opened Wrappers
  import opened Events
  import opened Policy
  import opened RunModel
  import opened Recovery
  import opened TraceLaws
  import opened CrashCut
  import opened Sequences
  import StreamAdapter

  // ----- the last request of a log ----------------------------------------------------------------

  lemma {:induction false} LastRequestConcat(a: seq<Event>, b: seq<Event>)
    ensures LastRequest(a + b) == if LastRequest(b).Some? then LastRequest(b) else LastRequest(a)
  {
    if b == [] {
      assert a + b == a;
    } else {
      assert (a + b)[..|a + b| - 1] == a + b[..|b| - 1];
      LastRequestConcat(a, b[..|b| - 1]);
    }
  }

  lemma {:induction false} LastRequestKept(es: seq<Event>)
    ensures LastRequest(Kept(es)) == LastRequest(es)
  {
    if es != [] {
      var front, e := es[..|es| - 1], es[|es| - 1];
      LastRequestKept(front);
      assert (Kept(front) + [e])[..|Kept(front)|] == Kept(front);
    }
  }

  predicate NoRequest(es: seq<Event>) {
    forall e :: e in es ==> !e.kind.ToolCallRequested?
  }

  lemma {:induction false} LastRequestNone(es: seq<Event>)
    requires NoRequest(es)
    ensures LastRequest(es).None?
  {
    if es != [] {
      assert es[|es| - 1] in es;
      LastRequestNone(es[..|es| - 1]);
    }
  }

  function RequestOf(seg: Segment): Event
    requires seg.Lifecycle?
  {
    Event(ToolCallRequested, seg.call.id, Request(seg.call.toolName, Some(seg.call.input)))
  }

  lemma LastRequestOfCut(seg: Segment, j: nat)
    requires seg.Lifecycle? && 0 < j <= |SegmentEvents(seg)|
    ensures LastRequest(SegmentEvents(seg)[..j]) == Some(RequestOf(seg))
  {
    var cut := SegmentEvents(seg)[..j];
    assert cut == [RequestOf(seg)] + cut[1..];
    RestHasNoRequest(seg);
    assert NoRequest(cut[1..]);
    LastRequestNone(cut[1..]);
    LastRequestConcat([RequestOf(seg)], cut[1..]);
    assert LastRequest([RequestOf(seg)]) == Some(RequestOf(seg));
  }

  lemma RestHasNoRequest(seg: Segment)
    requires seg.Lifecycle?
    ensures NoRequest(SegmentEvents(seg)[1..])
  {
    assert SegmentEvents(seg)[1..] ==
           Asked(seg) + [Event(ToolPermissionDecided, seg.call.id, Decided(seg.Decision()))] + Executed(seg);
  }

  // ----- after a crash ----------------------------------------------------------------------------

  /** The cut ends inside the i-th segment. */
  lemma CutEndsIn(segs: seq<Segment>, i: nat, k: nat)
    requires i < |segs| && Offset(segs, i) <= k <= Offset(segs, i + 1)
    ensures Offset(segs, i + 1) == Offset(segs, i) + |SegmentEvents(segs[i])|
    ensures Offset(segs, i + 1) <= |Flatten(segs)|
    ensures Flatten(segs)[..k] == Flatten(segs[..i]) + SegmentEvents(segs[i])[..k - Offset(segs, i)]
  {
    var front, seg, rest := segs[..i], segs[i], segs[i + 1..];
    FlattenPush(front, seg);
    assert front + [seg] == segs[..i + 1];
    FlattenTail(segs, i + 1);
  }

  /** Behind the i-th segment, a call, there is no other call before the segment `f`. */
  predicate NoCallBetween(segs: seq<Segment>, i: nat, f: nat) {
    i < f <= |segs| && segs[i].Lifecycle? && forall x :: i < x < f ==> segs[x].Single?
  }

  lemma {:induction false} SinglesNoRequest(mid: seq<Segment>)
    requires forall x :: 0 <= x < |mid| ==> mid[x].Single? && !mid[x].event.kind.ToolCallRequested?
    ensures NoRequest(Flatten(mid))
  {
    if mid != [] {
      SplitLast(mid);
      SinglesNoRequest(mid[..|mid| - 1]);
      FlattenPush(mid[..|mid| - 1], mid[|mid| - 1]);
    }
  }

  lemma {:induction false} CutBetweenCalls(segs: seq<Segment>, i: nat, f: nat, k: nat)
    requires Numbered(segs) && NoCallBetween(segs, i, f) && Offset(segs, i) < k <= Offset(segs, f)
    ensures k <= |Flatten(segs)|
    ensures LastRequest(Flatten(segs)[..k]) == Some(RequestOf(segs[i]))
  {
    FlattenTail(segs, f);
    if k <= Offset(segs, i + 1) {
      CutInsideCall(segs, i, k);
    } else {
      CutBehindCall(segs, i, f, k);
    }
  }

  lemma RequestInCut(whole: seq<Event>, head: seq<Event>, seg: Segment, j: nat)
    requires seg.Lifecycle? && 0 < j <= |SegmentEvents(seg)| && whole == head + SegmentEvents(seg)[..j]
    ensures LastRequest(whole) == Some(RequestOf(seg))
  {
    LastRequestOfCut(seg, j);
    LastRequestConcat(head, SegmentEvents(seg)[..j]);
  }

  lemma CutInsideCall(segs: seq<Segment>, i: nat, k: nat)
    requires i < |segs| && segs[i].Lifecycle? && Offset(segs, i) < k <= Offset(segs, i + 1)
    ensures k <= |Flatten(segs)|
    ensures LastRequest(Flatten(segs)[..k]) == Some(RequestOf(segs[i]))
  {
    CutEndsIn(segs, i, k);
    RequestInCut(Flatten(segs)[..k], Flatten(segs[..i]), segs[i], k - Offset(segs, i));
  }

  lemma {:induction false} CutBehindCall(segs: seq<Segment>, i: nat, f: nat, k: nat)
    requires Numbered(segs) && NoCallBetween(segs, i, f) && Offset(segs, i + 1) < k <= Offset(segs, f)
    requires Flatten(segs[..f]) <= Flatten(segs)
    ensures LastRequest(Flatten(segs)[..k]) == Some(RequestOf(segs[i]))
  {
    RequestedLast(segs, i);
    QuietUntil(segs, i, f);
    LastRequestBehind(Flatten(segs), Flatten(segs[..i + 1]), Flatten(segs[i + 1..f]), k);
  }

  lemma RequestedLast(segs: seq<Segment>, i: nat)
    requires i < |segs| && segs[i].Lifecycle?
    ensures LastRequest(Flatten(segs[..i + 1])) == Some(RequestOf(segs[i]))
  {
    LastRequestStep(segs[..i], segs[i]);
    assert segs[..i] + [segs[i]] == segs[..i + 1];
  }

  lemma {:induction false} QuietUntil(segs: seq<Segment>, i: nat, f: nat)
    requires Numbered(segs) && NoCallBetween(segs, i, f)
    ensures Flatten(segs[..f]) == Flatten(segs[..i + 1]) + Flatten(segs[i + 1..f])
    ensures NoRequest(Flatten(segs[i + 1..f]))
  {
    FlattenConcat(segs[..i + 1], segs[i + 1..f]);
    SliceSplit(segs, i + 1, f);
    forall x | i < x < f
      ensures !segs[x].event.kind.ToolCallRequested?
    {
      SinglesBare(segs, x);
    }
    SinglesNoRequest(segs[i + 1..f]);
  }

  lemma LastRequestBehind(whole: seq<Event>, head: seq<Event>, mid: seq<Event>, k: nat)
    requires head + mid <= whole && |head| <= k <= |head + mid| && NoRequest(mid)
    ensures LastRequest(whole[..k]) == LastRequest(head)
  {
    var rest := mid[..k - |head|];
    assert whole[..k] == head + rest;
    LastRequestNone(rest);
    LastRequestConcat(head, rest);
  }

  /** Would the log, as it stands after this many of the call's events, have it repeated? */
  predicate Repeats(seg: Segment, before: Flags, own: Flags)
    requires seg.Lifecycle?
  {
    seg.call.toolName in SAFE_READ_TOOLS && (own.started || before.started) && !own.finished && !before.finished
  }

  /**
   Stop a persisting run anywhere behind the request of a call and before the next one. The next
   resumed run repeats that call, name and input unchanged, exactly when the tool is a safe read,
   the call or an older one under the same id has started, and neither has finished; otherwise it
   makes no call of its own accord.
   */
  lemma {:induction false} CutCallRetriedIff(s: Script, log: seq<Event>, i: nat, f: nat, k: nat, next: Script)
    requires s.writer.persist && next.resumed && next.prompt.Some?
    requires NoCallBetween(Run(s, log).segs, i, f)
    requires Offset(Run(s, log).segs, i) < k <= Offset(Run(s, log).segs, f) && k <= |Trace(s, log)|
    ensures var seg, after := Run(s, log).segs[i], LogAfterCut(s, log, k);
            var again := Repeats(seg, Scan(log, seg.call.id), FlagsAt(seg, Progressed(Run(s, log).segs, i, k)));
            && RecoveryPlan(after) == (if again then Some(Retry(seg.call.toolName, seg.call.input)) else None)
            && Recovered(next, after) ==
               if again then CallTool(next, Opening(next), seg.call.toolName, seg.call.input) else Opening(next)
  {
    var seg := Run(s, log).segs[i];
    LastRequestAfterCut(s, log, i, f, k);
    ScanAfterCut(s, log, i, k);
    FlagsSeen(log, seg.call.id);
    PlanOf(LogAfterCut(s, log, k), seg, Scan(log, seg.call.id), FlagsAt(seg, Progressed(Run(s, log).segs, i, k)));
    PlanAtRecovery(next, LogAfterCut(s, log, k));
  }

  /** A call that was cut between its start and its finish is repeated unless its id finished in an older run. */
  lemma InterruptedCallRetriedIff(s: Script, log: seq<Event>, i: nat, k: nat)
    requires s.writer.persist
    requires i < |Run(s, log).segs| && Run(s, log).segs[i].Lifecycle?
    requires Offset(Run(s, log).segs, i) < k <= Offset(Run(s, log).segs, i + 1)
    requires k <= |Trace(s, log)|
    requires Phase(Run(s, log).segs[i], Progressed(Run(s, log).segs, i, k)) == Interrupted
    ensures var call := Run(s, log).segs[i].call;
            RecoveryPlan(LogAfterCut(s, log, k)) ==
            if call.toolName in SAFE_READ_TOOLS && !Scan(log, call.id).finished
            then Some(Retry(call.toolName, call.input)) else None
  {
    var seg := Run(s, log).segs[i];
    LastRequestAfterCut(s, log, i, i + 1, k);
    ScanAfterCut(s, log, i, k);
    FlagsSeen(log, seg.call.id);
    PlanOf(LogAfterCut(s, log, k), seg, Scan(log, seg.call.id), FlagsAt(seg, Progressed(Run(s, log).segs, i, k)));
  }

  lemma {:induction false} LastRequestAfterCut(s: Script, log: seq<Event>, i: nat, f: nat, k: nat)
    requires s.writer.persist && NoCallBetween(Run(s, log).segs, i, f)
    requires Offset(Run(s, log).segs, i) < k <= Offset(Run(s, log).segs, f) && k <= |Trace(s, log)|
    ensures LastRequest(LogAfterCut(s, log, k)) == Some(RequestOf(Run(s, log).segs[i]))
  {
    var cut := Trace(s, log)[..k];
    CountedRun(s, log);
    CutBetweenCalls(Run(s, log).segs, i, f, k);
    LastRequestKept(cut);
    LastRequestConcat(log, Kept(cut));
  }

  lemma ScanAfterCut(s: Script, log: seq<Event>, i: nat, k: nat)
    requires s.writer.persist
    requires i < |Run(s, log).segs| && Run(s, log).segs[i].Lifecycle? && k <= |Trace(s, log)|
    ensures var segs := Run(s, log).segs;
            var id := segs[i].call.id;
            && id != ""
            && Scan(LogAfterCut(s, log, k), id) == Or(Scan(log, id), FlagsAt(segs[i], Progressed(segs, i, k)))
  {
    CountedRun(s, log);
    var segs := Run(s, log).segs;
    IdIsSmall(segs, i);
    ScanOfLog(s, log, k, segs[i].call.id);
    ScanOfRunCut(segs, i, k);
  }

  lemma PlanOf(es: seq<Event>, seg: Segment, before: Flags, own: Flags)
    requires seg.Lifecycle? && seg.call.id != ""
    requires LastRequest(es) == Some(RequestOf(seg)) && Scan(es, seg.call.id) == Or(before, own)
    requires own.started ==> own.seen
    requires before.started ==> before.seen
    ensures RecoveryPlan(es) ==
            if Repeats(seg, before, own) then Some(Retry(seg.call.toolName, seg.call.input)) else None
  {
    assert "" !in SAFE_READ_TOOLS;
  }

  // ----- the opening of a run changes nothing -----------------------------------------------------

  predicate Toolless(es: seq<Event>) {
    forall e :: e in es ==> e.toolCallId == "" && !ToolKind(e.kind)
  }

  /** Events that speak of no tool leave the plan alone. */
  lemma PlanIgnoresToolless(log: seq<Event>, es: seq<Event>)
    requires Toolless(es)
    ensures RecoveryPlan(log + es) == RecoveryPlan(log)
  {
    LastRequestNone(es);
    LastRequestConcat(log, es);
    if LastRequest(log).Some? {
      var id := LastRequest(log).value.toolCallId;
      if id != "" {
        ScanUnmentioned(es, id);
        ScanConcat(log, es, id);
      }
    }
  }

  lemma {:induction false} KeptToolless(es: seq<Event>)
    requires Toolless(es)
    ensures Toolless(Kept(es))
  {
    if es != [] {
      assert es[|es| - 1] in es;
      KeptToolless(es[..|es| - 1]);
    }
  }

  lemma {:induction false} FlattenToolless(segs: seq<Segment>)
    requires Numbered(segs) && Calls(segs) == []
    ensures Toolless(Flatten(segs))
  {
    if segs != [] {
      var front, seg := segs[..|segs| - 1], segs[|segs| - 1];
      assert seg.Single?;
      FlattenToolless(front);
      FlattenPush(front, seg);
      ToollessPush(Flatten(front), seg.event);
      assert front + [seg] == segs;
    }
  }

  lemma ToollessPush(es: seq<Event>, e: Event)
    requires Toolless(es) && e.toolCallId == "" && !ToolKind(e.kind)
    ensures Toolless(es + [e])
  {
  }

  lemma PlanAtRecovery(s: Script, log: seq<Event>)
    ensures RecoveryPlan(LogAtRecovery(s, log)) == RecoveryPlan(log)
  {
    CountedOpening(s);
    FlattenToolless(Opening(s).segs);
    KeptToolless(Flatten(Opening(s).segs));
    if s.writer.persist {
      PlanIgnoresToolless(log, Kept(Flatten(Opening(s).segs)));
    } else {
      assert log + [] == log;
    }
  }

  lemma {:induction false} SinglesToolless(mid: seq<Segment>)
    requires forall x :: 0 <= x < |mid| ==> mid[x].Single? && mid[x].event.toolCallId == "" && !ToolKind(mid[x].event.kind)
    ensures Toolless(Flatten(mid))
  {
    if mid != [] {
      SplitLast(mid);
      SinglesToolless(mid[..|mid| - 1]);
      FlattenPush(mid[..|mid| - 1], mid[|mid| - 1]);
      ToollessPush(Flatten(mid[..|mid| - 1]), mid[|mid| - 1].event);
    }
  }

  lemma {:induction false} CutIsToolless(segs: seq<Segment>, f: nat, k: nat)
    requires Numbered(segs) && f <= |segs| && k <= Offset(segs, f) && forall x :: 0 <= x < f ==> segs[x].Single?
    ensures k <= |Flatten(segs)| && Toolless(Flatten(segs)[..k])
  {
    forall x | 0 <= x < f
      ensures segs[..f][x].event.toolCallId == "" && !ToolKind(segs[..f][x].event.kind)
    {
      SinglesBare(segs, x);
    }
    SinglesToolless(segs[..f]);
    FlattenTail(segs, f);
    assert Flatten(segs)[..k] == Flatten(segs[..f])[..k];
  }

  /**
   Stop a persisting run anywhere before its first call: the log asks for what it asked before, and
   that is what the next resumed run repeats.
   */
  lemma {:induction false} CutBeforeCallsKeepsPlan(s: Script, log: seq<Event>, f: nat, k: nat, next: Script)
    requires s.writer.persist
    requires f <= |Run(s, log).segs| && forall x :: 0 <= x < f ==> Run(s, log).segs[x].Single?
    requires k <= Offset(Run(s, log).segs, f) && k <= |Trace(s, log)|
    ensures RecoveryPlan(LogAfterCut(s, log, k)) == RecoveryPlan(log)
    ensures Recovered(next, LogAfterCut(s, log, k)) == Recovered(next, log)
  {
    CountedRun(s, log);
    CutIsToolless(Run(s, log).segs, f, k);
    KeptToolless(Trace(s, log)[..k]);
    PlanIgnoresToolless(log, Kept(Trace(s, log)[..k]));
    PlanAtRecovery(next, LogAfterCut(s, log, k));
    PlanAtRecovery(next, log);
  }

  /**
   Before it consults the provider, a run makes no tool call, or one: a resumed run, repeating the
   last request in the log with its tool name and input, a safe read that has a started record
   and no finished record anywhere in the log.
   */
  lemma RecoverySafe(s: Script, log: seq<Event>)
    ensures var calls := Calls(Recovered(s, log).segs);
            calls == [] ||
            (&& |calls| == 1 && s.resumed && calls[0].Lifecycle?
             && exists e :: IsLastRequest(log, e)
                            && e.payload == Request(calls[0].call.toolName, Some(calls[0].call.input))
                            && calls[0].call.toolName in SAFE_READ_TOOLS
                            && Logged(log, e.toolCallId, ToolExecutionStarted)
                            && !Logged(log, e.toolCallId, ToolExecutionFinished))
  {
    CountedOpening(s);
    PlanAtRecovery(s, log);
    var p := Opening(s);
    if p.status == Running && s.resumed && RecoveryPlan(log).Some? {
      var retry := RecoveryPlan(log).value;
      CountedCallTool(s, p, retry.toolName, retry.input);
      assert Calls(Recovered(s, log).segs) == [CallSegment(s, p, retry.toolName, retry.input)];
      RetryExactly(log, retry);
    }
  }

  // ----- quiescence -------------------------------------------------------------------------------

  /** All calls of the segments ran to their finish. */
  predicate AllFinished(segs: seq<Segment>) {
    forall i :: 0 <= i < |segs| && segs[i].Lifecycle? ==> segs[i].Outcome().Status?
  }

  lemma FinishedPush(segs: seq<Segment>, seg: Segment)
    requires AllFinished(segs) && (seg.Lifecycle? ==> seg.Outcome().Status?)
    ensures AllFinished(segs + [seg])
  {
  }

  predicate Tidy(p: Progress) {
    p.status != Raising ==> AllFinished(p.segs)
  }

  lemma TidySay(p: Progress, kind: EventType, payload: Payload)
    requires AllFinished(p.segs)
    ensures AllFinished(Say(p, kind, payload).segs)
  {
    FinishedPush(p.segs, Single(Event(kind, "", payload)));
  }

  lemma TidyCallTool(s: Script, p: Progress, toolName: string, input: ToolInput)
    requires AllFinished(p.segs)
    ensures Tidy(CallTool(s, p, toolName, input))
  {
    var seg := CallSegment(s, p, toolName, input);
    if seg.Outcome().Status? {
      FinishedPush(p.segs, seg);
      var q := AfterCall(p, seg);
      TidySay(q, SessionFailed, Failed("PERMISSION_DENIED"));
      TidySay(q, SessionFailed, Failed("TOOL_RUNTIME_FAILURE"));
    }
  }

  lemma {:induction false} TidyTakeAll(s: Script, p: Progress, items: seq<StreamAdapter.Adapted>)
    requires Tidy(p) && p.status == Running
    ensures Tidy(TakeAll(s, p, items))
  {
    if items != [] {
      var q := TakeAll(s, p, items[..|items| - 1]);
      TidyTakeAll(s, p, items[..|items| - 1]);
      if q.status == Running {
        match items[|items| - 1]
        case AdaptedDelta(t) => TidySay(q, AssistantDelta, Text(t));
        case AdaptedMessage(t) => TidySay(q, AssistantMessage, Text(t));
        case AdaptedTool(n, i) => TidyCallTool(s, q, n, i);
        case AdaptedBadTool =>
      }
    }
  }

  lemma TidyRecovered(s: Script, log: seq<Event>)
    ensures Tidy(Recovered(s, log))
  {
    var kind := if s.resumed then SessionResumed else SessionStart;
    TidySay(Progress([], LoadQueues(s.messages), 0, None, false, Running), kind, Unread);
    if s.prompt.Some? {
      TidySay(Start(s), UserMessage, Text(s.prompt.value));
    }
    var p := Opening(s);
    if p.status == Running && s.resumed && RecoveryPlanAt(s, log).Some? {
      TidyCallTool(s, p, RecoveryPlanAt(s, log).value.toolName, RecoveryPlanAt(s, log).value.input);
    }
  }

  lemma TidyRun(s: Script, log: seq<Event>)
    ensures Tidy(Run(s, log))
  {
    TidyRecovered(s, log);
    var p := Recovered(s, log);
    if p.status == Running && s.provider.Some? {
      TidyTakeAll(s, p, StreamAdapter.AdaptAll(StreamAdapter.Supported(s.provider.value)));
    }
    var q := Streamed(s, log);
    if q.status == Running {
      TidySay(q, SessionFailed, Failed("MODEL_NO_MESSAGE"));
      TidySay(q, SessionCompleted, Unread);
    }
  }

  // ----- a run only adds segments -----------------------------------------------------------------

  lemma ConcludeExtends(p: Progress, seg: Segment)
    requires seg.Lifecycle?
    ensures p.segs <= Conclude(p, seg).segs
  {
  }

  lemma TakeExtends(s: Script, p: Progress, item: StreamAdapter.Adapted)
    ensures p.segs <= Take(s, p, item).segs
  {
    match item
    case AdaptedTool(n, i) =>
      var seg := CallSegment(s, p, n, i);
      ConcludeExtends(AfterCall(p, seg), seg);
    case _ =>
  }

  lemma {:induction false} TakeAllExtends(s: Script, p: Progress, items: seq<StreamAdapter.Adapted>)
    ensures p.segs <= TakeAll(s, p, items).segs
  {
    if items != [] {
      TakeAllExtends(s, p, items[..|items| - 1]);
      TakeExtends(s, TakeAll(s, p, items[..|items| - 1]), items[|items| - 1]);
    }
  }

  lemma RunExtends(s: Script, log: seq<Event>)
    ensures Recovered(s, log).segs <= Run(s, log).segs
  {
    var p := Recovered(s, log);
    if s.provider.Some? {
      TakeAllExtends(s, p, StreamAdapter.AdaptAll(StreamAdapter.Supported(s.provider.value)));
    }
  }

  lemma {:induction false} CallsPrefix(a: seq<Segment>, b: seq<Segment>)
    requires a <= b
    ensures Calls(a) <= Calls(b)
  {
    if a != b {
      CallsPrefix(a, b[..|b| - 1]);
    }
  }

  // ----- a run that returned leaves nothing to repeat ---------------------------------------------

  /** The index of the last call. */
  function LastCall(segs: seq<Segment>): (i: nat)
    requires Calls(segs) != []
    ensures i < |segs| && segs[i].Lifecycle?
    ensures forall j :: i < j < |segs| ==> segs[j].Single?
  {
    if segs[|segs| - 1].Lifecycle? then |segs| - 1 else LastCall(segs[..|segs| - 1])
  }

  lemma LastRequestOfPush(front: seq<Event>, seg: Segment, whole: seq<Event>)
    requires whole == front + SegmentEvents(seg)
    requires seg.Single? ==> !seg.event.kind.ToolCallRequested?
    ensures LastRequest(whole) == if seg.Lifecycle? then Some(RequestOf(seg)) else LastRequest(front)
  {
    var es := SegmentEvents(seg);
    LastRequestConcat(front, es);
    if seg.Lifecycle? {
      assert es[..|es|] == es;
      LastRequestOfCut(seg, |es|);
    } else {
      LastRequestNone(es);
    }
  }

  lemma LastRequestStep(front: seq<Segment>, seg: Segment)
    requires seg.Single? ==> !seg.event.kind.ToolCallRequested?
    ensures LastRequest(Flatten(front + [seg])) ==
            if seg.Lifecycle? then Some(RequestOf(seg)) else LastRequest(Flatten(front))
  {
    FlattenPush(front, seg);
    LastRequestOfPush(Flatten(front), seg, Flatten(front + [seg]));
  }

  lemma {:induction false} LastRequestIsLastCall(segs: seq<Segment>)
    requires Numbered(segs) && Calls(segs) != []
    ensures var last := Calls(segs)[|Calls(segs)| - 1];
            last.Lifecycle? && LastRequest(Flatten(segs)) == Some(RequestOf(last))
  {
    var front, seg := segs[..|segs| - 1], segs[|segs| - 1];
    SplitLast(segs);
    LastRequestStep(front, seg);
    CallsStep(segs);
    if seg.Single? {
      LastRequestIsLastCall(front);
    }
  }

  lemma {:induction false} CallsStep(segs: seq<Segment>)
    requires segs != []
    ensures segs[|segs| - 1].Single? ==> Calls(segs) == Calls(segs[..|segs| - 1])
    ensures segs[|segs| - 1].Lifecycle? ==> Calls(segs) != [] && Calls(segs)[|Calls(segs)| - 1] == segs[|segs| - 1]
  {
  }

  lemma {:induction false} LastCallIsLast(segs: seq<Segment>)
    requires Calls(segs) != []
    ensures segs[LastCall(segs)] == Calls(segs)[|Calls(segs)| - 1]
  {
    if segs[|segs| - 1].Single? {
      assert Calls(segs) == Calls(segs[..|segs| - 1]);
      LastCallIsLast(segs[..|segs| - 1]);
    }
  }

  lemma PlanAfterFinish(es: seq<Event>, seg: Segment, before: Flags)
    requires seg.Lifecycle? && seg.Outcome().Status?
    requires LastRequest(es) == Some(RequestOf(seg))
    requires Scan(es, seg.call.id) == Or(before, FlagsAt(seg, Length(seg)))
    ensures RecoveryPlan(es) == None
  {
    assert FlagsAt(seg, Length(seg)).finished;
  }

  lemma CallingRunIsQuiet(s: Script, log: seq<Event>)
    requires s.writer.persist && Run(s, log).status != Raising && Calls(Run(s, log).segs) != []
    ensures RecoveryPlan(LogAfterCut(s, log, |Trace(s, log)|)) == None
  {
    var segs, trace := Run(s, log).segs, Trace(s, log);
    var i := LastCall(segs);
    assert trace[..|trace|] == trace;
    CountedRun(s, log);
    TidyRun(s, log);
    LastRequestIsLastCall(segs);
    LastCallIsLast(segs);
    LastRequestKept(trace);
    LastRequestConcat(log, Kept(trace));
    ScanAfterCut(s, log, i, |trace|);
    ProgressedToEnd(segs, i);
    PlanAfterFinish(LogAfterCut(s, log, |trace|), segs[i], Scan(log, segs[i].call.id));
  }

  lemma ProgressedToEnd(segs: seq<Segment>, i: nat)
    requires i < |segs| && segs[i].Lifecycle?
    ensures Progressed(segs, i, |Flatten(segs)|) == Length(segs[i])
  {
    FlattenPush(segs[..i], segs[i]);
    assert segs[..i] + [segs[i]] == segs[..i + 1];
    SegmentLength(segs[i]);
    FlattenTail(segs, i + 1);
  }

  /**
   Quiescence. After a persisting resumed run has returned, with whatever exit code, the log asks
   for no retry, and the next resumed run makes no tool call of its own accord.
   */
  lemma {:induction false} ReturnedRunIsQuiet(s: Script, log: seq<Event>, next: Script)
    requires s.writer.persist && s.resumed && Run(s, log).status.Ended?
    ensures var after := LogAfterCut(s, log, |Trace(s, log)|);
            && RecoveryPlan(after) == None
            && Recovered(next, after) == Opening(next)
  {
    var after := LogAfterCut(s, log, |Trace(s, log)|);
    if Calls(Run(s, log).segs) != [] {
      CallingRunIsQuiet(s, log);
    } else {
      SilentRunIsQuiet(s, log);
    }
    PlanAtRecovery(next, after);
  }

  lemma {:induction false} SilentRunIsQuiet(s: Script, log: seq<Event>)
    requires s.writer.persist && s.resumed && Run(s, log).status.Ended? && Calls(Run(s, log).segs) == []
    ensures RecoveryPlan(LogAfterCut(s, log, |Trace(s, log)|)) == None
  {
    var trace := Trace(s, log);
    assert trace[..|trace|] == trace;
    CountedRun(s, log);
    FlattenToolless(Run(s, log).segs);
    KeptToolless(trace);
    PlanIgnoresToolless(log, Kept(trace));
    if RecoveryPlan(log).Some? {
      var p, retry := Opening(s), RecoveryPlan(log).value;
      PlanAtRecovery(s, log);
      CountedOpening(s);
      CountedCallTool(s, p, retry.toolName, retry.input);
      RunExtends(s, log);
      CallsPrefix(Recovered(s, log).segs, Run(s, log).segs);
      assert false;
    }
  }

  /** Once the last request of a log has its finish on record, only a newer request can be repeated. */
  lemma FinishedStaysQuiet(es: seq<Event>, more: seq<Event>)
    requires LastRequest(es).Some? && Scan(es, LastRequest(es).value.toolCallId).finished && NoRequest(more)
    ensures RecoveryPlan(es + more) == None
  {
    LastRequestNone(more);
    LastRequestConcat(es, more);
    ScanConcat(es, more, LastRequest(es).value.toolCallId);
  }
}
