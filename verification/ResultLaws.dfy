/** What a run's result says about its trace, and what its trace says about the provider's chunks. */
module ResultLaws {
  import opened Wrappers
  import opened Events
  import opened StreamAdapter
  import opened RunModel
  import opened TraceLaws

  // ----- the exit code ----------------------------------------------------------------------------

  /** The text of the last assistant message. */
  function LastMessage(segs: seq<Segment>): Option<string> {
    if segs == [] then None
    else
      match segs[|segs| - 1]
      case Single(Event(AssistantMessage, _, Text(t))) => Some(t)
      case _ => LastMessage(segs[..|segs| - 1])
  }

  predicate AllSucceed(calls: seq<Segment>) {
    calls == [] ||
    var last := calls[|calls| - 1];
    AllSucceed(calls[..|calls| - 1]) && last.Lifecycle? && last.Succeeds()
  }

  /** What is known of a run while it goes on. */
  predicate Smooth(p: Progress) {
    && AllSucceed(Calls(p.segs))
    && (p.hadTool <==> Calls(p.segs) != [])
    && p.final == LastMessage(p.segs)
  }

  /** The terminal event that announces a result. */
  function LastEvent(r: RunResult): Event {
    if r.completed then Event(SessionCompleted, "", Unread)
    else
      Event(SessionFailed, "",
            Failed(if r.exitCode == 3 then "MODEL_NO_MESSAGE"
                   else if r.exitCode == 4 then "TOOL_RUNTIME_FAILURE" else "PERMISSION_DENIED"))
  }

  /** What each exit code means, in terms of the trace alone. */
  predicate Explains(segs: seq<Segment>, r: RunResult) {
    var calls := Calls(segs);
    && segs != []
    && segs[|segs| - 1] == Single(LastEvent(r))
    && (r.completed <==> r.exitCode == 0)
    && (calls != [] ==> AllSucceed(calls[..|calls| - 1]) && calls[|calls| - 1].Lifecycle?)
    && (r.exitCode == 0 <==> AllSucceed(calls) && (calls != [] || LastMessage(segs).Some?))
    && (r.exitCode == 3 <==> calls == [] && LastMessage(segs).None?)
    && (r.exitCode == 6 <==>
        calls != [] && var c := calls[|calls| - 1]; !c.Allowed() && c.Decision().reason == AskUnavailable)
    && (r.exitCode == 5 <==>
        calls != [] && var c := calls[|calls| - 1];
        if c.Allowed() then c.reply == Status("denied") else c.Decision().reason != AskUnavailable)
    && (r.exitCode == 4 <==>
        calls != [] && var c := calls[|calls| - 1]; c.Allowed() && c.reply !in {Status("success"), Status("denied")})
    && r.finalMessage == (if r.completed then LastMessage(segs) else None)
  }

  predicate Explained(p: Progress) {
    match p.status
    case Running => Smooth(p)
    case Raising => true
    case Ended(r) => Explains(p.segs, r)
  }

  lemma PushOne(segs: seq<Segment>, seg: Segment)
    ensures Calls(segs + [seg]) == if seg.Lifecycle? then Calls(segs) + [seg] else Calls(segs)
    ensures LastMessage(segs + [seg]) ==
            if seg.Single? && seg.event.kind == AssistantMessage && seg.event.payload.Text?
            then Some(seg.event.payload.text) else LastMessage(segs)
  {
    assert (segs + [seg])[..|segs|] == segs;
  }

  /** An allowing decision never carries the reason of an unavailable answer. */
  lemma AllowedHasReason(s: Script, p: Progress, toolName: string, input: ToolInput)
    ensures var seg := CallSegment(s, p, toolName, input);
            seg.Allowed() ==> seg.Decision().reason != AskUnavailable
  {
  }

  lemma SmoothSay(p: Progress, kind: EventType, text: string)
    requires Smooth(p) && (kind.AssistantDelta? || kind.AssistantMessage?)
    ensures Smooth(Say(p, kind, Text(text)).(final := if kind.AssistantMessage? then Some(text) else p.final))
  {
    PushOne(p.segs, Single(Event(kind, "", Text(text))));
  }

  function FailureCode(seg: Segment): nat
    requires seg.Lifecycle?
  {
    if seg.Allowed() then (if seg.reply == Status("denied") then PERMISSION_DENIED else TOOL_RUNTIME_FAILURE)
    else if seg.Decision().reason == AskUnavailable then PERMISSION_UNAVAILABLE
    else PERMISSION_DENIED
  }

  /** The call failed, without raising. */
  predicate Fails(seg: Segment) {
    seg.Lifecycle? && seg.Outcome().Status? && !seg.Succeeds()
  }

  lemma FailExplained(p: Progress, errorCode: string, prior: seq<Segment>, seg: Segment)
    requires Calls(p.segs) == prior + [seg] && AllSucceed(prior) && Fails(seg)
    requires errorCode == if seg.Outcome() == Status("denied") then "PERMISSION_DENIED" else "TOOL_RUNTIME_FAILURE"
    ensures Explains(Fail(p, errorCode, FailureCode(seg)).segs, RunResult(false, FailureCode(seg), None))
  {
    var calls := Calls(p.segs);
    PushOne(p.segs, Single(Event(SessionFailed, "", Failed(errorCode))));
    assert calls[..|calls| - 1] == prior && calls[|calls| - 1] == seg;
  }

  lemma ConcludeFails(p: Progress, seg: Segment)
    requires seg.Lifecycle? && seg.Outcome().Status? && !seg.Succeeds()
    requires seg.Allowed() ==> seg.Decision().reason != AskUnavailable
    ensures Conclude(p, seg) ==
            Fail(p, if seg.Outcome() == Status("denied") then "PERMISSION_DENIED" else "TOOL_RUNTIME_FAILURE", FailureCode(seg))
  {
  }

  lemma {:induction false} ExplainedConclude(p: Progress, prior: seq<Segment>, seg: Segment)
    requires Calls(p.segs) == prior + [seg] && AllSucceed(prior) && Fails(seg)
    requires seg.Allowed() ==> seg.Decision().reason != AskUnavailable
    ensures Conclude(p, seg).status.Ended? && Explains(Conclude(p, seg).segs, Conclude(p, seg).status.result)
  {
    ConcludeFails(p, seg);
    FailExplained(
      p, if seg.Outcome() == Status("denied") then "PERMISSION_DENIED" else "TOOL_RUNTIME_FAILURE", prior, seg);
  }

  lemma ConcludeGoesOn(p: Progress, seg: Segment)
    requires seg.Lifecycle? && seg.Succeeds()
    ensures Conclude(p, seg) == p
  {
  }

  lemma {:induction false} ExplainedAfter(p: Progress, q: Progress, seg: Segment)
    requires Smooth(p) && q.status == Running && seg.Lifecycle?
    requires q.segs == p.segs + [seg] && q.hadTool && q.final == p.final
    requires seg.Allowed() ==> seg.Decision().reason != AskUnavailable
    ensures Explained(Conclude(q, seg))
  {
    PushOne(p.segs, seg);
    if seg.Succeeds() {
      ConcludeGoesOn(q, seg);
      assert (Calls(p.segs) + [seg])[..|Calls(p.segs)|] == Calls(p.segs);
    } else if seg.Outcome().Status? {
      ExplainedConclude(q, Calls(p.segs), seg);
    }
  }

  lemma {:induction false} ExplainedCallTool(s: Script, p: Progress, toolName: string, input: ToolInput)
    requires Smooth(p) && p.status == Running
    ensures Explained(CallTool(s, p, toolName, input))
  {
    var seg := CallSegment(s, p, toolName, input);
    AllowedHasReason(s, p, toolName, input);
    ExplainedAfter(p, AfterCall(p, seg), seg);
  }

  lemma {:induction false} ExplainedTake(s: Script, p: Progress, item: Adapted)
    requires Smooth(p) && p.status == Running
    ensures Explained(Take(s, p, item))
  {
    match item
    case AdaptedDelta(t) => SmoothSay(p, AssistantDelta, t);
    case AdaptedMessage(t) => SmoothSay(p, AssistantMessage, t);
    case AdaptedTool(n, i) => ExplainedCallTool(s, p, n, i);
    case AdaptedBadTool =>
  }

  lemma {:induction false} ExplainedTakeAll(s: Script, p: Progress, items: seq<Adapted>)
    requires Smooth(p) && p.status == Running
    ensures Explained(TakeAll(s, p, items))
  {
    if items != [] {
      ExplainedTakeAll(s, p, items[..|items| - 1]);
      var q := TakeAll(s, p, items[..|items| - 1]);
      if q.status == Running {
        ExplainedTake(s, q, items[|items| - 1]);
      }
    }
  }

  lemma SmoothOpening(s: Script)
    ensures Smooth(Opening(s))
  {
    var e := Single(Event(if s.resumed then SessionResumed else SessionStart, "", Unread));
    PushOne([], e);
    assert [] + [e] == [e];
    if s.prompt.Some? {
      PushOne(Start(s).segs, Single(Event(UserMessage, "", Text(s.prompt.value))));
    }
  }

  lemma ExplainedRecovered(s: Script, log: seq<Event>)
    ensures Explained(Recovered(s, log))
  {
    SmoothOpening(s);
    var p := Opening(s);
    if p.status == Running && s.resumed && RecoveryPlanAt(s, log).Some? {
      ExplainedCallTool(s, p, RecoveryPlanAt(s, log).value.toolName, RecoveryPlanAt(s, log).value.input);
    }
  }

  lemma ExplainedStreamed(s: Script, log: seq<Event>)
    ensures Explained(Streamed(s, log))
  {
    ExplainedRecovered(s, log);
    var p := Recovered(s, log);
    if p.status == Running && s.provider.Some? {
      ExplainedTakeAll(s, p, AdaptAll(Supported(s.provider.value)));
    }
  }

  lemma ExplainedClosing(p: Progress)
    requires Smooth(p)
    ensures Closing(p).status.Ended? && Explains(Closing(p).segs, Closing(p).status.result)
  {
    var calls := Calls(p.segs);
    PushOne(p.segs, Single(Event(SessionFailed, "", Failed("MODEL_NO_MESSAGE"))));
    PushOne(p.segs, Single(Event(SessionCompleted, "", Unread)));
    if calls != [] {
      assert calls[|calls| - 1].Succeeds();
    }
  }

  /** The result of every run that returns is the one its trace explains. */
  lemma ResultMatchesTrace(s: Script, log: seq<Event>)
    requires Run(s, log).status.Ended?
    ensures Explains(Run(s, log).segs, Run(s, log).status.result)
  {
    ExplainedStreamed(s, log);
    if Streamed(s, log).status == Running {
      ExplainedClosing(Streamed(s, log));
    }
  }

  // ----- when a run raises ------------------------------------------------------------------------

  /** The last call failed, without raising. */
  predicate LastFails(segs: seq<Segment>) {
    var calls := Calls(segs);
    calls != [] && Fails(calls[|calls| - 1])
  }

  /** The tool of the last call raised. */
  predicate LastRaises(segs: seq<Segment>) {
    var calls := Calls(segs);
    calls != [] && calls[|calls| - 1].Lifecycle? && calls[|calls| - 1].Outcome().Raises?
  }

  /** Why a run is where it is: `broken` says that it has come past what it cannot read. */
  predicate Halts(p: Progress, broken: bool) {
    match p.status
    case Running => AllSucceed(Calls(p.segs)) && !broken
    case Raising => LastRaises(p.segs) || (AllSucceed(Calls(p.segs)) && broken)
    case Ended(_) => LastFails(p.segs)
  }

  lemma SucceedsPush(calls: seq<Segment>, seg: Segment)
    ensures AllSucceed(calls + [seg]) <==> AllSucceed(calls) && seg.Lifecycle? && seg.Succeeds()
  {
    assert (calls + [seg])[..|calls|] == calls;
  }

  lemma {:induction false} HaltsConclude(p: Progress, prior: seq<Segment>, seg: Segment)
    requires p.status == Running && seg.Lifecycle? && Calls(p.segs) == prior + [seg] && AllSucceed(prior)
    ensures Halts(Conclude(p, seg), false)
  {
    SucceedsPush(prior, seg);
    if seg.Succeeds() {
      ConcludeGoesOn(p, seg);
    } else if seg.Outcome().Status? {
      PushOne(p.segs, Single(Event(SessionFailed, "", Failed("PERMISSION_DENIED"))));
      PushOne(p.segs, Single(Event(SessionFailed, "", Failed("TOOL_RUNTIME_FAILURE"))));
    }
  }

  lemma {:induction false} HaltsCallTool(s: Script, p: Progress, toolName: string, input: ToolInput)
    requires p.status == Running && AllSucceed(Calls(p.segs))
    ensures Halts(CallTool(s, p, toolName, input), false)
  {
    var seg := CallSegment(s, p, toolName, input);
    PushOne(p.segs, seg);
    HaltsConclude(AfterCall(p, seg), Calls(p.segs), seg);
  }

  lemma {:induction false} HaltsTake(s: Script, p: Progress, item: Adapted)
    requires p.status == Running && AllSucceed(Calls(p.segs))
    ensures Halts(Take(s, p, item), item.AdaptedBadTool?)
  {
    match item
    case AdaptedDelta(t) => PushOne(p.segs, Single(Event(AssistantDelta, "", Text(t))));
    case AdaptedMessage(t) => PushOne(p.segs, Single(Event(AssistantMessage, "", Text(t))));
    case AdaptedTool(n, i) => HaltsCallTool(s, p, n, i);
    case AdaptedBadTool =>
  }

  lemma {:induction false} HaltsTakeAll(s: Script, p: Progress, items: seq<Adapted>)
    requires p.status == Running && AllSucceed(Calls(p.segs))
    ensures Halts(TakeAll(s, p, items), AdaptedBadTool in items)
  {
    if items != [] {
      var front, item := items[..|items| - 1], items[|items| - 1];
      HaltsTakeAll(s, p, front);
      assert items == front + [item];
      if TakeAll(s, p, front).status == Running {
        HaltsTake(s, TakeAll(s, p, front), item);
      }
    }
  }

  lemma {:induction false} HaltsRecovered(s: Script, log: seq<Event>)
    requires s.prompt.Some?
    ensures Halts(Recovered(s, log), false)
  {
    SmoothOpening(s);
    if s.resumed && RecoveryPlanAt(s, log).Some? {
      HaltsCallTool(s, Opening(s), RecoveryPlanAt(s, log).value.toolName, RecoveryPlanAt(s, log).value.input);
    }
  }

  lemma {:induction false} BadIsKept(chunks: seq<Chunk>)
    ensures AdaptedBadTool in AdaptAll(chunks) <==> BadTool in chunks
  {
    if chunks != [] {
      var front, chunk := chunks[..|chunks| - 1], chunks[|chunks| - 1];
      BadIsKept(front);
      AdaptPush(front, chunk);
      assert chunks == front + [chunk];
    }
  }

  /** A chunk of no known kind, or a tool chunk that names no tool. */
  predicate Unreadable(chunk: Chunk) {
    chunk.Unsupported? || chunk.BadTool?
  }

  lemma UnreadableIff(chunks: seq<Chunk>)
    ensures (exists chunk :: chunk in chunks && Unreadable(chunk)) <==>
            Supported(chunks) != chunks || AdaptedBadTool in AdaptAll(Supported(chunks))
  {
    BadIsKept(Supported(chunks));
    if Supported(chunks) == chunks {
      assert (exists chunk :: chunk in chunks && Unreadable(chunk)) ==> BadTool in chunks;
      assert BadTool in chunks ==> Unreadable(BadTool);
    } else {
      assert Unreadable(chunks[|Supported(chunks)|]);
    }
  }

  lemma {:induction false} ClosingCalls(q: Progress)
    ensures Calls(Closing(q).segs) == Calls(q.segs) && Closing(q).status.Ended?
  {
    PushOne(q.segs, Single(Event(SessionFailed, "", Failed("MODEL_NO_MESSAGE"))));
    PushOne(q.segs, Single(Event(SessionCompleted, "", Unread)));
  }

  /** What a run with a provider comes to after its recovery. */
  lemma RunAfterRecovery(s: Script, log: seq<Event>, chunks: seq<Chunk>)
    requires s.provider == Some(chunks) && Recovered(s, log).status == Running
    ensures var q := TakeAll(s, Recovered(s, log), AdaptAll(Supported(chunks)));
            Run(s, log) ==
            if q.status != Running then q
            else if Supported(chunks) != chunks then q.(status := Raising) else Closing(q)
  {
  }

  /**
   A run raises, rather than returning a result, exactly if it has no user message, or the tool of its
   last call raised, or all its calls succeeded and the provider raises or sends what it cannot read.
   */
  lemma {:induction false} RaisesIff(s: Script, log: seq<Event>)
    ensures var segs := Run(s, log).segs;
            Run(s, log).status == Raising <==>
              || s.prompt.None?
              || LastRaises(segs)
              || (AllSucceed(Calls(segs))
                  && (s.provider.None? || exists chunk :: chunk in s.provider.value && Unreadable(chunk)))
  {
    if s.prompt.Some? {
      HaltsRecovered(s, log);
      var r := Recovered(s, log);
      if r.status == Running && s.provider.Some? {
        var chunks := s.provider.value;
        var q := TakeAll(s, r, AdaptAll(Supported(chunks)));
        HaltsTakeAll(s, r, AdaptAll(Supported(chunks)));
        UnreadableIff(chunks);
        RunAfterRecovery(s, log, chunks);
        ClosingCalls(q);
        HaltsApart(q.segs);
      } else {
        HaltsApart(r.segs);
      }
    }
  }

  lemma HaltsApart(segs: seq<Segment>)
    ensures LastFails(segs) ==> !LastRaises(segs) && !AllSucceed(Calls(segs))
    ensures AllSucceed(Calls(segs)) ==> !LastRaises(segs)
  {
  }

  // ----- the run is a fold over the chunks ----------------------------------------------------------

  /** The messages and tool requests of a run. */
  function ItemsOf(segs: seq<Segment>): seq<Item> {
    if segs == [] then [] else ItemsOf(segs[..|segs| - 1]) + ItemOf(segs[|segs| - 1])
  }

  function ItemOf(seg: Segment): seq<Item> {
    match seg
    case Single(Event(AssistantMessage, _, Text(t))) => [MessageItem(t)]
    case Single(_) => []
    case Lifecycle(call, _, _, _) => [ToolItem(call.toolName, call.input)]
  }

  lemma ItemsOfPush(segs: seq<Segment>, seg: Segment)
    ensures ItemsOf(segs + [seg]) == ItemsOf(segs) + ItemOf(seg)
  {
    assert (segs + [seg])[..|segs|] == segs;
  }

  lemma ItemsOfSay(p: Progress, kind: EventType, payload: Payload)
    ensures ItemsOf(Say(p, kind, payload).segs) == ItemsOf(p.segs) + ItemOf(Single(Event(kind, "", payload)))
  {
    ItemsOfPush(p.segs, Single(Event(kind, "", payload)));
  }

  lemma {:induction false} ItemsOfConclude(p: Progress, seg: Segment)
    requires seg.Lifecycle?
    ensures ItemsOf(Conclude(p, seg).segs) == ItemsOf(p.segs)
  {
    ItemsOfSay(p, SessionFailed, Failed("PERMISSION_DENIED"));
    ItemsOfSay(p, SessionFailed, Failed("TOOL_RUNTIME_FAILURE"));
  }

  lemma ItemsOfCallTool(s: Script, p: Progress, toolName: string, input: ToolInput)
    ensures ItemsOf(CallTool(s, p, toolName, input).segs) == ItemsOf(p.segs) + [ToolItem(toolName, input)]
  {
    var seg := CallSegment(s, p, toolName, input);
    ItemsOfPush(p.segs, seg);
    ItemsOfConclude(AfterCall(p, seg), seg);
  }

  lemma {:induction false} ItemsOfTake(s: Script, p: Progress, item: Adapted)
    requires !item.AdaptedBadTool?
    ensures ItemsOf(Take(s, p, item).segs) == ItemsOf(p.segs) + AdaptedItem(item)
    ensures p.status == Running && Take(s, p, item).status.Ended? ==> item.AdaptedTool?
  {
    match item
    case AdaptedDelta(t) => ItemsOfSay(p, AssistantDelta, Text(t));
    case AdaptedMessage(t) => ItemsOfSay(p, AssistantMessage, Text(t));
    case AdaptedTool(n, i) => ItemsOfCallTool(s, p, n, i);
  }

  /** The stretch of the stream that a run took: all of it, or up to the call that ended the run. */
  predicate Took(q: Progress, before: seq<Item>, items: seq<Adapted>, n: nat)
    requires n <= |items|
  {
    && ItemsOf(q.segs) == before + AdaptedItems(items[..n])
    && (q.status == Running ==> n == |items|)
    && (q.status.Ended? ==> n > 0 && items[n - 1].AdaptedTool?)
  }

  lemma {:induction false} TookStretch(s: Script, p: Progress, items: seq<Adapted>) returns (n: nat)
    requires p.status == Running
    ensures n <= |items| && Took(TakeAll(s, p, items), ItemsOf(p.segs), items, n)
  {
    if items == [] {
      n := 0;
      assert ItemsOf(p.segs) + [] == ItemsOf(p.segs);
    } else {
      var front, item := items[..|items| - 1], items[|items| - 1];
      n := TookStretch(s, p, front);
      n := TookNext(s, TakeAll(s, p, front), ItemsOf(p.segs), front, item, n);
      assert front + [item] == items;
    }
  }

  lemma TookNext(
    s: Script, q: Progress, before: seq<Item>, front: seq<Adapted>, item: Adapted, n: nat) returns (m: nat)
    requires n <= |front| && Took(q, before, front, n)
    ensures m <= |front| + 1
    ensures Took(if q.status != Running then q else Take(s, q, item), before, front + [item], m)
  {
    var items := front + [item];
    assert items[..n] == front[..n];
    m := n;
    if q.status == Running && !item.AdaptedBadTool? {
      assert front[..n] == front;
      TookOneMore(s, q, before, front, item);
      m := |items|;
      assert items[..m] == items;
    }
  }

  lemma {:induction false} TookOneMore(s: Script, q: Progress, before: seq<Item>, front: seq<Adapted>, item: Adapted)
    requires q.status == Running && !item.AdaptedBadTool?
    requires ItemsOf(q.segs) == before + AdaptedItems(front)
    ensures ItemsOf(Take(s, q, item).segs) == before + AdaptedItems(front + [item])
    ensures Take(s, q, item).status.Ended? ==> item.AdaptedTool?
  {
    ItemsOfTake(s, q, item);
    ItemsPush(front, item);
    assert before + AdaptedItems(front) + AdaptedItem(item) == before + (AdaptedItems(front) + AdaptedItem(item));
  }

  lemma {:induction false} AdaptedItemsPrefix(items: seq<Adapted>, n: nat)
    requires n <= |items|
    ensures AdaptedItems(items[..n]) <= AdaptedItems(items)
  {
    if n < |items| {
      AdaptedItemsPrefix(items[..|items| - 1], n);
      assert items[..|items| - 1][..n] == items[..n];
    } else {
      assert items[..n] == items;
    }
  }

  lemma {:induction false} ChunkItemsPrefix(a: seq<Chunk>, b: seq<Chunk>)
    requires a <= b
    ensures ChunkItems(a) <= ChunkItems(b)
  {
    if a != b {
      ChunkItemsPrefix(a, b[..|b| - 1]);
    }
  }

  /**
   The messages and tool requests of a returned run are those of its recovery, if any, followed by
   the provider's messages and tool chunks in order: all of them if the run reached its end, and
   otherwise up to the first call that did not succeed. If the recovery ended the run, none.
   */
  lemma RunFollowsChunks(s: Script, log: seq<Event>)
    requires Run(s, log).status.Ended?
    ensures exists taken :: Follows(Provided(s), Recovered(s, log), Run(s, log), taken)
  {
    var chunks, r := Provided(s), Recovered(s, log);
    if r.status != Running {
      assert ItemsOf(r.segs) + [] == ItemsOf(r.segs);
      assert Follows(chunks, r, Run(s, log), []);
    } else {
      FollowsStream(s, log, chunks);
    }
  }

  /** The provider's chunks; none if it raises. */
  function Provided(s: Script): seq<Chunk> {
    if s.provider.Some? then s.provider.value else []
  }

  /** The items `taken` are what the run `q` took from the chunks after `r`, and stop where they must. */
  predicate Follows(chunks: seq<Chunk>, r: Progress, q: Progress, taken: seq<Item>)
    requires q.status.Ended?
  {
    var code := q.status.result.exitCode;
    && taken <= ChunkItems(chunks)
    && ItemsOf(q.segs) == ItemsOf(r.segs) + taken
    && (r.status.Ended? ==> taken == [])
    && (r.status == Running && code in {SUCCESS, MODEL_FAILURE} ==> taken == ChunkItems(chunks))
    && (r.status == Running && code !in {SUCCESS, MODEL_FAILURE} ==> taken != [] && taken[|taken| - 1].ToolItem?)
  }

  lemma TakenIsPrefix(chunks: seq<Chunk>, n: nat)
    requires n <= |AdaptAll(Supported(chunks))|
    ensures AdaptedItems(AdaptAll(Supported(chunks))[..n]) <= ChunkItems(chunks)
    ensures n == |AdaptAll(Supported(chunks))| && Supported(chunks) == chunks ==>
              AdaptedItems(AdaptAll(Supported(chunks))[..n]) == ChunkItems(chunks)
  {
    var items := AdaptAll(Supported(chunks));
    AdaptedItemsPrefix(items, n);
    AdaptKeepsItems(Supported(chunks));
    ChunkItemsPrefix(Supported(chunks), chunks);
    if n == |items| {
      assert items[..n] == items;
    }
  }

  /** What a returned run makes of its stream. */
  lemma RunOfStream(s: Script, log: seq<Event>, chunks: seq<Chunk>)
    requires Run(s, log).status.Ended? && s.provider == Some(chunks) && Recovered(s, log).status == Running
    ensures var q := TakeAll(s, Recovered(s, log), AdaptAll(Supported(chunks)));
            && Run(s, log) == (if q.status == Running then Closing(q) else q)
            && (q.status == Running ==> Supported(chunks) == chunks)
  {
  }

  lemma FollowsStream(s: Script, log: seq<Event>, chunks: seq<Chunk>)
    requires Run(s, log).status.Ended? && s.provider == Some(chunks) && Recovered(s, log).status == Running
    ensures exists taken :: Follows(chunks, Recovered(s, log), Run(s, log), taken)
  {
    RunOfStream(s, log, chunks);
    FollowsTaken(s, Recovered(s, log), chunks, Run(s, log));
  }

  lemma FollowsTaken(s: Script, r: Progress, chunks: seq<Chunk>, run: Progress)
    requires r.status == Running && run.status.Ended?
    requires var q := TakeAll(s, r, AdaptAll(Supported(chunks)));
             && run == (if q.status == Running then Closing(q) else q)
             && (q.status == Running ==> Supported(chunks) == chunks)
    ensures exists taken :: Follows(chunks, r, run, taken)
  {
    var items := AdaptAll(Supported(chunks));
    var q := TakeAll(s, r, items);
    var n := TookStretch(s, r, items);
    TakenIsPrefix(chunks, n);
    ClosingItems(q);
    StoppedByCall(s, r, items, n, q);
    EndsInFailure(s, r, items);
    assert Follows(chunks, r, run, AdaptedItems(items[..n]));
  }

  lemma ClosingItems(q: Progress)
    ensures ItemsOf(Closing(q).segs) == ItemsOf(q.segs)
    ensures Closing(q).status.Ended? && Closing(q).status.result.exitCode in {SUCCESS, MODEL_FAILURE}
  {
    ItemsOfSay(q, SessionFailed, Failed("MODEL_NO_MESSAGE"));
    ItemsOfSay(q, SessionCompleted, Unread);
  }

  /** A run that ends inside the stream ends in a failed call. */
  lemma {:induction false} EndsInFailure(s: Script, p: Progress, items: seq<Adapted>)
    requires p.status == Running
    ensures var q := TakeAll(s, p, items);
            q.status.Ended? ==>
              q.status.result.exitCode in {PERMISSION_DENIED, PERMISSION_UNAVAILABLE, TOOL_RUNTIME_FAILURE}
  {
    if items != [] {
      EndsInFailure(s, p, items[..|items| - 1]);
    }
  }

  lemma {:induction false} EndsWithCall(front: seq<Adapted>, item: Adapted, taken: seq<Item>)
    requires item.AdaptedTool? && taken == AdaptedItems(front + [item])
    ensures taken != [] && taken[|taken| - 1].ToolItem?
  {
    ItemsPush(front, item);
  }

  lemma {:induction false} StoppedByCall(s: Script, r: Progress, items: seq<Adapted>, n: nat, q: Progress)
    requires n <= |items| && Took(q, ItemsOf(r.segs), items, n)
    ensures q.status.Ended? ==> AdaptedItems(items[..n]) != []
                                && AdaptedItems(items[..n])[|AdaptedItems(items[..n])| - 1].ToolItem?
  {
    if q.status.Ended? {
      assert items[..n - 1] + [items[n - 1]] == items[..n];
      EndsWithCall(items[..n - 1], items[n - 1], AdaptedItems(items[..n]));
    }
  }

  // ----- the segments of the stream, deltas included ----------------------------------------------

  /** The segment is what the run makes of the item. */
  predicate Echoes(seg: Segment, item: Adapted) {
    match item
    case AdaptedDelta(t) => seg == Single(Event(AssistantDelta, "", Text(t)))
    case AdaptedMessage(t) => seg == Single(Event(AssistantMessage, "", Text(t)))
    case AdaptedTool(n, i) => seg.Lifecycle? && seg.call.toolName == n && seg.call.input == i
    case AdaptedBadTool => false
  }

  predicate EchoesAll(segs: seq<Segment>, items: seq<Adapted>) {
    |segs| == |items| && forall i :: 0 <= i < |segs| ==> Echoes(segs[i], items[i])
  }

  /** All calls among the segments succeed. */
  predicate Succeeding(segs: seq<Segment>) {
    forall i :: 0 <= i < |segs| && segs[i].Lifecycle? ==> segs[i].Succeeds()
  }

  /** The body goes through the items, or up to a call that fails. */
  predicate GoesThrough(body: seq<Segment>, items: seq<Adapted>) {
    EchoesAll(body, items) && Succeeding(body)
  }

  predicate StopsAt(body: seq<Segment>, items: seq<Adapted>) {
    && body != [] && |body| <= |items|
    && EchoesAll(body, items[..|body|])
    && Fails(body[|body| - 1]) && Succeeding(body[..|body| - 1])
  }

  predicate IsEnd(seg: Segment, kind: EventType) {
    seg.Single? && seg.event.kind == kind
  }

  /** How far a run has gone through the items, from the segments `before`. */
  ghost predicate Gone(before: seq<Segment>, q: Progress, items: seq<Adapted>) {
    match q.status
    case Running => exists body :: q.segs == before + body && GoesThrough(body, items)
    case Raising => true
    case Ended(_) =>
      exists body, end :: q.segs == before + body + [end] && StopsAt(body, items) && IsEnd(end, SessionFailed)
  }

  lemma ThroughPush(body: seq<Segment>, items: seq<Adapted>, seg: Segment, item: Adapted)
    requires GoesThrough(body, items) && Echoes(seg, item)
    ensures (seg.Lifecycle? ==> seg.Succeeds()) ==> GoesThrough(body + [seg], items + [item])
    ensures Fails(seg) ==> StopsAt(body + [seg], items + [item])
  {
    assert (items + [item])[..|body + [seg]|] == items + [item];
    assert (body + [seg])[..|body|] == body;
  }

  lemma StopsLonger(body: seq<Segment>, items: seq<Adapted>, item: Adapted)
    requires StopsAt(body, items)
    ensures StopsAt(body, items + [item])
  {
    assert (items + [item])[..|body|] == items[..|body|];
  }

  lemma GonePush(before: seq<Segment>, q: Progress, items: seq<Adapted>, item: Adapted, seg: Segment, next: Progress)
    requires Gone(before, q, items) && q.status == Running && Echoes(seg, item)
    requires next.status == Running ==> next.segs == q.segs + [seg] && (seg.Lifecycle? ==> seg.Succeeds())
    requires next.status.Ended? ==>
               exists end :: next.segs == q.segs + [seg] + [end] && Fails(seg) && IsEnd(end, SessionFailed)
    ensures Gone(before, next, items + [item])
  {
    var body :| q.segs == before + body && GoesThrough(body, items);
    ThroughPush(body, items, seg, item);
    assert before + body + [seg] == before + (body + [seg]);
    if next.status.Ended? {
      var end :| next.segs == q.segs + [seg] + [end] && Fails(seg) && IsEnd(end, SessionFailed);
      assert next.segs == before + (body + [seg]) + [end];
    }
  }

  lemma CallEnds(s: Script, p: Progress, toolName: string, input: ToolInput)
    requires p.status == Running
    ensures var seg, next := CallSegment(s, p, toolName, input), CallTool(s, p, toolName, input);
            && (next.status == Running ==> next.segs == p.segs + [seg] && seg.Succeeds())
            && (next.status.Ended? ==>
                  exists end :: next.segs == p.segs + [seg] + [end] && Fails(seg) && IsEnd(end, SessionFailed))
  {
    var seg, next := CallSegment(s, p, toolName, input), CallTool(s, p, toolName, input);
    AllowedHasReason(s, p, toolName, input);
    if seg.Succeeds() {
      ConcludeGoesOn(AfterCall(p, seg), seg);
    } else if seg.Outcome().Status? {
      ConcludeFails(AfterCall(p, seg), seg);
      var end := next.segs[|next.segs| - 1];
      assert next.segs == p.segs + [seg] + [end] && IsEnd(end, SessionFailed);
    }
  }

  lemma GoneTake(s: Script, before: seq<Segment>, q: Progress, items: seq<Adapted>, item: Adapted)
    requires Gone(before, q, items) && q.status == Running
    ensures Gone(before, Take(s, q, item), items + [item])
  {
    match item
    case AdaptedDelta(t) => GonePush(before, q, items, item, Single(Event(AssistantDelta, "", Text(t))), Take(s, q, item));
    case AdaptedMessage(t) => GonePush(before, q, items, item, Single(Event(AssistantMessage, "", Text(t))), Take(s, q, item));
    case AdaptedTool(n, i) =>
      CallEnds(s, q, n, i);
      GonePush(before, q, items, item, CallSegment(s, q, n, i), CallTool(s, q, n, i));
    case AdaptedBadTool =>
  }

  lemma {:induction false} GoneAll(s: Script, p: Progress, items: seq<Adapted>)
    requires p.status == Running
    ensures Gone(p.segs, TakeAll(s, p, items), items)
  {
    if items == [] {
      assert p.segs == p.segs + [] && GoesThrough([], []);
    } else {
      var front, item := items[..|items| - 1], items[|items| - 1];
      GoneAll(s, p, front);
      GoneNext(s, p.segs, TakeAll(s, p, front), front, item);
      assert front + [item] == items;
    }
  }

  lemma GoneNext(s: Script, before: seq<Segment>, q: Progress, front: seq<Adapted>, item: Adapted)
    requires Gone(before, q, front)
    ensures Gone(before, if q.status != Running then q else Take(s, q, item), front + [item])
  {
    if q.status == Running {
      GoneTake(s, before, q, front, item);
    } else if q.status.Ended? {
      var body, end :| q.segs == before + body + [end] && StopsAt(body, front) && IsEnd(end, SessionFailed);
      StopsLonger(body, front, item);
    }
  }

  /** The run after its recovery: the stream, echoed to its end or to a call that fails, and one end. */
  ghost predicate EchoesStream(before: seq<Segment>, run: seq<Segment>, chunks: seq<Chunk>) {
    exists body, end ::
      && run == before + body + [end] && end.Single? && IsTerminal(end.event.kind)
      && (|| (GoesThrough(body, AdaptAll(chunks)) && Supported(chunks) == chunks)
          || (StopsAt(body, AdaptAll(Supported(chunks))) && IsEnd(end, SessionFailed)))
  }

  /**
   A returned run whose recovery, if any, did not end it: behind the recovery its segments are the
   adapted stream, item by item and deltas included, to the end of the stream or just past the first
   call that does not succeed, and then one terminal event. A recovery that ends the run is all of it,
   whatever the provider would have done.
   */
  lemma RunEchoesStream(s: Script, log: seq<Event>)
    requires Run(s, log).status.Ended?
    ensures Recovered(s, log).status.Ended? ==> Run(s, log) == Recovered(s, log)
    ensures !Recovered(s, log).status.Ended? ==>
              s.provider.Some? && EchoesStream(Recovered(s, log).segs, Run(s, log).segs, s.provider.value)
  {
    var r := Recovered(s, log);
    if !r.status.Ended? {
      assert r.status == Running && s.provider.Some?;
      var items := AdaptAll(Supported(s.provider.value));
      GoneAll(s, r, items);
      EchoesTo(s, log, r, TakeAll(s, r, items), s.provider.value);
    }
  }

  lemma {:induction false} EchoesTo(s: Script, log: seq<Event>, r: Progress, q: Progress, chunks: seq<Chunk>)
    requires Run(s, log).status.Ended? && r == Recovered(s, log) && r.status == Running && s.provider == Some(chunks)
    requires q == TakeAll(s, r, AdaptAll(Supported(chunks))) && Gone(r.segs, q, AdaptAll(Supported(chunks)))
    ensures EchoesStream(r.segs, Run(s, log).segs, chunks)
  {
    RunOfStream(s, log, chunks);
    if q.status == Running {
      ClosingEchoes(r.segs, q, chunks);
    }
  }

  lemma ClosingEnd(q: Progress) returns (end: Segment)
    ensures Closing(q).segs == q.segs + [end] && end.Single? && IsTerminal(end.event.kind)
  {
    end := Closing(q).segs[|q.segs|];
  }

  lemma EchoesToEnd(before: seq<Segment>, body: seq<Segment>, q: Progress, chunks: seq<Chunk>)
    requires Supported(chunks) == chunks && q.segs == before + body && GoesThrough(body, AdaptAll(chunks))
    ensures EchoesStream(before, Closing(q).segs, chunks)
  {
    var end := ClosingEnd(q);
    assert Closing(q).segs == before + body + [end];
  }

  lemma {:induction false} ClosingEchoes(before: seq<Segment>, q: Progress, chunks: seq<Chunk>)
    requires q.status == Running && Supported(chunks) == chunks && Gone(before, q, AdaptAll(chunks))
    ensures EchoesStream(before, Closing(q).segs, chunks)
  {
    var body :| q.segs == before + body && GoesThrough(body, AdaptAll(chunks));
    EchoesToEnd(before, body, q, chunks);
  }
}
