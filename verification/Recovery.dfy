/** What a log says about a tool call, and what a resumed run does about it. */
module Recovery {
  import opened Wrappers
  import opened Events
  import Policy

  datatype RecoveryState =
    | Completed
    | DeniedCall
    | Interrupted
    | NotFound
    | Unclassifiable  // the ValueError of the source

  /** The flags that classification collects; `seen` says that some record matched. */
  datatype Flags = Flags(seen: bool, started: bool, finished: bool, permissionDeny: bool, resultDenied: bool)

  const NO_FLAGS := Flags(false, false, false, false, false)

  function Sees(e: Event, id: string): Flags {
    if e.toolCallId != id then NO_FLAGS
    else
      Flags(
        true,
        e.kind.ToolExecutionStarted?,
        e.kind.ToolExecutionFinished?,
        e.kind.ToolPermissionDecided? && e.payload.Decided? && e.payload.decision.verdict == Deny,
        e.kind.ToolResult? && e.payload.Result? && e.payload.resultStatus == "denied")
  }

  function Or(a: Flags, b: Flags): Flags {
    Flags(a.seen || b.seen, a.started || b.started, a.finished || b.finished,
          a.permissionDeny || b.permissionDeny, a.resultDenied || b.resultDenied)
  }

  function Scan(es: seq<Event>, id: string): Flags {
    if es == [] then NO_FLAGS else Or(Scan(es[..|es| - 1], id), Sees(es[|es| - 1], id))
  }

  function Judgement(f: Flags): RecoveryState {
    if !f.seen then NotFound
    else if f.permissionDeny && !f.started && (f.finished || f.resultDenied) then DeniedCall
    else if f.finished then Completed
    else if f.started then Interrupted
    else Unclassifiable
  }

  function Classify(es: seq<Event>, id: string): RecoveryState {
    Judgement(Scan(es, id))
  }

  /** The events that carry the id, in order. */
  function Matching(es: seq<Event>, id: string): seq<Event> {
    if es == [] then []
    else Matching(es[..|es| - 1], id) + if es[|es| - 1].toolCallId == id then [es[|es| - 1]] else []
  }

  lemma MatchingPush(es: seq<Event>, e: Event, id: string)
    ensures Matching(es + [e], id) == Matching(es, id) + if e.toolCallId == id then [e] else []
  {
    assert (es + [e])[..|es|] == es;
  }

  /** Filtering first does not change what the flags say. */
  lemma {:induction false} ScanMatching(es: seq<Event>, id: string)
    ensures Scan(Matching(es, id), id) == Scan(es, id)
    ensures Matching(es, id) == [] <==> !Scan(es, id).seen
    ensures forall e :: e in Matching(es, id) ==> e.toolCallId == id
  {
    if es != [] {
      var front, e := es[..|es| - 1], es[|es| - 1];
      ScanMatching(front, id);
      ScanPush(Matching(front, id), e, id);
      assert Matching(front, id) + [] == Matching(front, id);
    }
  }

  method FilterRecords(records: seq<Record>, id: string) returns (matched: seq<Event>)
    ensures matched == Matching(EventsOf(records), id)
  {
    matched := [];
    var i := 0;
    while i < |records|
      invariant 0 <= i <= |records|
      invariant matched == Matching(EventsOf(records[..i]), id)
    {
      assert EventsOf(records[..i + 1]) == EventsOf(records[..i]) + [records[i].event];
      MatchingPush(EventsOf(records[..i]), records[i].event, id);
      if records[i].event.toolCallId == id {
        matched := matched + [records[i].event];
      }
      i := i + 1;
    }
    assert records[..i] == records;
  }

  /** The four flags of events that all carry the id. */
  method CollectFlags(matched: seq<Event>, ghost id: string)
    returns (hasStarted: bool, hasFinished: bool, hasPermissionDeny: bool, hasResultDenied: bool)
    requires forall e :: e in matched ==> e.toolCallId == id
    ensures Scan(matched, id) == Flags(matched != [], hasStarted, hasFinished, hasPermissionDeny, hasResultDenied)
  {
    hasStarted, hasFinished, hasPermissionDeny, hasResultDenied := false, false, false, false;
    var j := 0;
    while j < |matched|
      invariant 0 <= j <= |matched|
      invariant Scan(matched[..j], id) == Flags(j > 0, hasStarted, hasFinished, hasPermissionDeny, hasResultDenied)
    {
      var e := matched[j];
      ScanNext(matched, j, id);
      if e.kind.ToolExecutionStarted? {
        hasStarted := true;
      } else if e.kind.ToolExecutionFinished? {
        hasFinished := true;
      } else if e.kind.ToolPermissionDecided? {
        if e.payload.Decided? && e.payload.decision.verdict == Deny {
          hasPermissionDeny := true;
        }
      } else if e.kind.ToolResult? {
        if e.payload.Result? && e.payload.resultStatus == "denied" {
          hasResultDenied := true;
        }
      }
      j := j + 1;
    }
    assert matched[..j] == matched;
  }

  /** The classifier: first the matching records, then the four flags, then the branches. */
  method ClassifyToolCallRecovery(records: seq<Record>, id: string) returns (state: RecoveryState)
    ensures state == Classify(EventsOf(records), id)
  {
    var matched := FilterRecords(records, id);
    ScanMatching(EventsOf(records), id);
    if matched == [] {
      return NotFound;
    }
    var hasStarted, hasFinished, hasPermissionDeny, hasResultDenied := CollectFlags(matched, id);
    if hasPermissionDeny && !hasStarted && (hasFinished || hasResultDenied) {
      return DeniedCall;
    }
    if hasFinished {
      return Completed;
    }
    if hasStarted {
      return Interrupted;
    }
    return Unclassifiable;
  }

  // ----- laws of scanning -------------------------------------------------------------------------

  lemma ScanPush(es: seq<Event>, e: Event, id: string)
    ensures Scan(es + [e], id) == Or(Scan(es, id), Sees(e, id))
  {
    assert (es + [e])[..|es|] == es;
  }

  lemma ScanNext(es: seq<Event>, j: nat, id: string)
    requires j < |es|
    ensures Scan(es[..j + 1], id) == Or(Scan(es[..j], id), Sees(es[j], id))
  {
    assert es[..j + 1] == es[..j] + [es[j]];
    ScanPush(es[..j], es[j], id);
  }

  lemma {:induction false} ScanConcat(a: seq<Event>, b: seq<Event>, id: string)
    ensures Scan(a + b, id) == Or(Scan(a, id), Scan(b, id))
  {
    if b == [] {
      assert a + b == a;
    } else {
      assert (a + b)[..|a + b| - 1] == a + b[..|b| - 1];
      ScanConcat(a, b[..|b| - 1], id);
    }
  }

  /** No event of `es` carries the id. */
  predicate Unmentioned(es: seq<Event>, id: string) {
    forall e :: e in es ==> e.toolCallId != id
  }

  lemma {:induction false} ScanUnmentioned(es: seq<Event>, id: string)
    requires Unmentioned(es, id)
    ensures Scan(es, id) == NO_FLAGS
  {
    if es != [] {
      ScanUnmentioned(es[..|es| - 1], id);
      assert es[|es| - 1] in es;
    }
  }

  predicate DeltasCarryNoId(es: seq<Event>) {
    forall e :: e in es && e.kind.AssistantDelta? ==> e.toolCallId == ""
  }

  /** Deltas do not reach the log, and a tool call does not miss them. */
  lemma {:induction false} ScanKept(es: seq<Event>, id: string)
    requires DeltasCarryNoId(es) && id != ""
    ensures Scan(Kept(es), id) == Scan(es, id)
  {
    if es != [] {
      var front, e := es[..|es| - 1], es[|es| - 1];
      assert e in es;
      ScanKept(front, id);
      ScanPush(Kept(front), e, id);
    }
  }

  /** A flag is set exactly when some event with the id sets it. */
  lemma {:induction false} ScanMeaning(es: seq<Event>, id: string)
    ensures Scan(es, id).seen <==> exists e :: e in es && e.toolCallId == id
    ensures Scan(es, id).started <==> exists e :: e in es && e.toolCallId == id && e.kind.ToolExecutionStarted?
    ensures Scan(es, id).finished <==> exists e :: e in es && e.toolCallId == id && e.kind.ToolExecutionFinished?
    ensures Scan(es, id).permissionDeny <==> exists e :: e in es && e.toolCallId == id && SaysDeny(e)
    ensures Scan(es, id).resultDenied <==> exists e :: e in es && e.toolCallId == id && SaysDenied(e)
  {
    if es != [] {
      var front, e := es[..|es| - 1], es[|es| - 1];
      assert es == front + [e];
      ScanMeaning(front, id);
    }
  }

  /** A decision that denies. */
  predicate SaysDeny(e: Event) {
    e.kind.ToolPermissionDecided? && e.payload.Decided? && e.payload.decision.verdict == Deny
  }

  /** A result of a denied call. */
  predicate SaysDenied(e: Event) {
    e.kind.ToolResult? && e.payload.Result? && e.payload.resultStatus == "denied"
  }

  /** Some event of the list carries the id and is of this kind. */
  ghost predicate Logged(es: seq<Event>, id: string, kind: EventType) {
    exists e :: e in es && e.toolCallId == id && e.kind == kind
  }

  /**
   What the classifier says of any log, in terms of the records under the id: of those of other ids it
   takes no notice, nor of their order.
   */
  lemma ClassifyExactly(es: seq<Event>, id: string)
    ensures var mentioned := exists e :: e in es && e.toolCallId == id;
            var started, finished := Logged(es, id, ToolExecutionStarted), Logged(es, id, ToolExecutionFinished);
            var denied := (exists e :: e in es && e.toolCallId == id && SaysDeny(e))
                          && !started && (finished || exists e :: e in es && e.toolCallId == id && SaysDenied(e));
            && (Classify(es, id) == NotFound <==> !mentioned)
            && (Classify(es, id) == DeniedCall <==> denied)
            && (Classify(es, id) == Completed <==> finished && !denied)
            && (Classify(es, id) == Interrupted <==> started && !finished)
            && (Classify(es, id) == Unclassifiable <==> mentioned && !denied && !started && !finished)
  {
    ScanMeaning(es, id);
    assert Logged(es, id, ToolExecutionStarted) <==> Scan(es, id).started;
    assert Logged(es, id, ToolExecutionFinished) <==> Scan(es, id).finished;
  }

  // ----- the retry of a resumed run ---------------------------------------------------------------

  datatype Action = Noop | ErrorAction | EligibleForRetry | ManualReviewRequired

  const RETRY_ELIGIBLE_TOOLS: set<string> := {"Read", "LS", "Glob", "Grep"}
  const MANUAL_REVIEW_TOOLS: set<string> := {"Write", "Edit", "Bash"}

  function DecideRecoveryAction(state: RecoveryState, toolName: string): Action {
    if state.Completed? || state.DeniedCall? then Noop
    else if state.NotFound? then ErrorAction
    else if !state.Interrupted? then ErrorAction
    else if toolName in RETRY_ELIGIBLE_TOOLS then EligibleForRetry
    else if toolName in MANUAL_REVIEW_TOOLS then ManualReviewRequired
    else ErrorAction
  }

  /** The table of actions: what is asked for depends on state and tool, and only safe reads are repeated. */
  lemma ActionExactly(state: RecoveryState, toolName: string)
    ensures var action := DecideRecoveryAction(state, toolName);
            var repeatable := toolName == "Read" || toolName == "LS" || toolName == "Glob" || toolName == "Grep";
            var reviewed := toolName == "Write" || toolName == "Edit" || toolName == "Bash";
            && (action == Noop <==> state == Completed || state == DeniedCall)
            && (action == EligibleForRetry <==> state == Interrupted && repeatable)
            && (action == ManualReviewRequired <==> state == Interrupted && reviewed)
            && (action == ErrorAction <==>
                state == NotFound || state == Unclassifiable || (state == Interrupted && !repeatable && !reviewed))
  {
  }

  datatype Retry = Retry(toolName: string, input: ToolInput)

  function LastRequest(es: seq<Event>): Option<Event> {
    if es == [] then None
    else if es[|es| - 1].kind.ToolCallRequested? then Some(es[|es| - 1])
    else LastRequest(es[..|es| - 1])
  }

  /** What the log tells a resumed run to repeat. */
  function RecoveryPlan(es: seq<Event>): Option<Retry> {
    match LastRequest(es)
    case None => None
    case Some(e) =>
      if e.toolCallId == "" || !e.payload.Request? then None
      else if e.payload.toolName == "" || e.payload.input.None? then None
      else if Classify(es, e.toolCallId).Unclassifiable? then None
      else if DecideRecoveryAction(Classify(es, e.toolCallId), e.payload.toolName) != EligibleForRetry then None
      else Some(Retry(e.payload.toolName, e.payload.input.value))
  }

  method FindRetry(records: seq<Record>) returns (retry: Option<Retry>)
    ensures retry == RecoveryPlan(EventsOf(records))
  {
    var es := EventsOf(records);
    var i := |records|;
    var last: Option<Event> := None;
    assert es[..i] == es;
    while i > 0 && last.None?
      invariant 0 <= i <= |records|
      invariant last.None? ==> LastRequest(es) == LastRequest(es[..i])
      invariant last.Some? ==> LastRequest(es) == last
      decreases i, last.None?
    {
      i := i - 1;
      assert es[..i + 1][..i] == es[..i];
      if records[i].event.kind.ToolCallRequested? {
        last := Some(records[i].event);
      }
    }
    if last.None? || last.value.toolCallId == "" || !last.value.payload.Request? {
      return None;
    }
    var request := last.value.payload;
    if request.toolName == "" || request.input.None? {
      return None;
    }
    var state := ClassifyToolCallRecovery(records, last.value.toolCallId);
    if state.Unclassifiable? {
      return None;
    }
    if DecideRecoveryAction(state, request.toolName) != EligibleForRetry {
      return None;
    }
    retry := Some(Retry(request.toolName, request.input.value));
  }

  /** `e` is the last request of `es`. */
  ghost predicate IsLastRequest(es: seq<Event>, e: Event) {
    exists k :: 0 <= k < |es| && es[k] == e && e.kind.ToolCallRequested?
                && forall j :: k < j < |es| ==> !es[j].kind.ToolCallRequested?
  }

  lemma {:induction false} LastRequestFound(es: seq<Event>)
    ensures LastRequest(es).Some? ==> IsLastRequest(es, LastRequest(es).value)
    ensures LastRequest(es).None? ==> forall e :: e in es ==> !e.kind.ToolCallRequested?
  {
    if es != [] {
      var front, last := es[..|es| - 1], es[|es| - 1];
      assert es == front + [last];
      if !last.kind.ToolCallRequested? {
        LastRequestFound(front);
        if LastRequest(front).Some? {
          var e := LastRequest(front).value;
          var k :| 0 <= k < |front| && front[k] == e && forall j :: k < j < |front| ==> !front[j].kind.ToolCallRequested?;
          assert es[k] == e;
        }
      } else {
        assert es[|es| - 1] == last;
      }
    }
  }

  lemma LastRequestUnique(es: seq<Event>, e: Event, f: Event)
    requires IsLastRequest(es, e) && IsLastRequest(es, f)
    ensures e == f
  {
  }

  /**
   A log asks for a retry exactly when its last request names a safe read tool and an input, and
   its id has a started record and, anywhere in the log, no finished record.
   */
  lemma RetryExactly(es: seq<Event>, retry: Retry)
    ensures RecoveryPlan(es) == Some(retry) <==>
            exists e :: IsLastRequest(es, e)
                        && e.toolCallId != ""
                        && e.payload == Request(retry.toolName, Some(retry.input))
                        && retry.toolName in Policy.SAFE_READ_TOOLS
                        && Logged(es, e.toolCallId, ToolExecutionStarted)
                        && !Logged(es, e.toolCallId, ToolExecutionFinished)
  {
    LastRequestFound(es);
    if LastRequest(es).Some? {
      var e := LastRequest(es).value;
      ScanMeaning(es, e.toolCallId);
      assert Logged(es, e.toolCallId, ToolExecutionStarted) <==> Scan(es, e.toolCallId).started;
      assert Logged(es, e.toolCallId, ToolExecutionFinished) <==> Scan(es, e.toolCallId).finished;
      forall f | IsLastRequest(es, f)
        ensures f == e
      {
        LastRequestUnique(es, e, f);
      }
      assert Classify(es, e.toolCallId).Interrupted? <==>
             Scan(es, e.toolCallId).started && !Scan(es, e.toolCallId).finished;
      assert "" !in Policy.SAFE_READ_TOOLS;
    } else {
      forall f | IsLastRequest(es, f)
        ensures false
      {
      }
    }
  }
}
