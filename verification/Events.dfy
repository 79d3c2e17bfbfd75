/**
 Events, transcript records, and what emitting events does to a session:
 each event takes the next sequence number, is broadcast, and is appended to the
 log unless it is a delta.
 */
module Events {
  import opened Wrappers
  import Decimal

  datatype Json =
    | Null
    | Bool(b: bool)
    | Num(n: int)
    | Str(s: string)
    | Arr(items: seq<Json>)
    | Obj(fields: map<string, Json>)

  type ToolInput = map<string, Json>

  datatype Verdict = Allow | Deny | Ask

  datatype Reason =
    | HardBoundary
    | SessionRuleDeny
    | PersistentRuleDeny
    | SessionRuleAllow
    | PersistentRuleAllow
    | AutoSafe
    | ModeAsk
    | AutoRequiresUser
    | AskUnavailable

  datatype Source = BoundarySource | SessionRule | PersistentRule | AutoLabel | ModeSource

  datatype Risk = SafeRead | DangerousExec | UnknownRisk

  datatype PermissionDecision = PermissionDecision(
    mode: string,
    verdict: Verdict,
    reason: Reason,
    rank: nat,
    source: Source,
    risk: Risk,
    requestHash: string)

  datatype EventType =
    | SessionStart
    | SessionResumed
    | UserMessage
    | AssistantDelta
    | AssistantMessage
    | ToolCallRequested
    | ToolPermissionRequired
    | ToolPermissionDecided
    | ToolExecutionStarted
    | ToolResult
    | ToolExecutionFinished
    | SessionCompleted
    | SessionFailed
    | Foreign(name: string)  // any other text in a record's "type"

  /** The part of an event's payload that some reader of the log looks at. */
  datatype Payload =
    | Unread
    | Text(text: string)
    | Request(toolName: string, input: Option<ToolInput>)
    | Decided(decision: PermissionDecision)
    | Result(resultStatus: string)
    | Finished(status: string)
    | Failed(errorCode: string)

  /** `toolCallId` is "" on an event that carries none. */
  datatype Event = Event(kind: EventType, toolCallId: string, payload: Payload)

  datatype Record = Record(
    recordId: string,
    runId: string,
    number: nat,  // the record's "seq"
    parentId: Option<string>,
    event: Event)

  predicate IsTerminal(kind: EventType) {
    kind.SessionCompleted? || kind.SessionFailed?
  }

  predicate IsPersisted(kind: EventType) {
    !kind.AssistantDelta?
  }

  function EventId(n: nat): string {
    "E" + Decimal.Print(n)
  }

  lemma EventIdInjective(m: nat, n: nat)
    requires EventId(m) == EventId(n)
    ensures m == n
  {
    assert EventId(m)[1..] == Decimal.Print(m);
    assert EventId(n)[1..] == Decimal.Print(n);
    Decimal.PrintInjective(m, n);
  }

  // ----- what emitting does ---------------------------------------------------------------

  /** The numbering state of a run, the log of its session, and everything broadcast so far. */
  datatype Cursor = Cursor(number: nat, last: Option<string>, log: seq<Record>, bus: seq<Record>)

  /** Which run is emitting, and whether its transcript store writes. */
  datatype Writer = Writer(runId: string, persist: bool)

  function EmitOne(w: Writer, c: Cursor, e: Event): Cursor {
    var n := c.number + 1;
    var r := Record(EventId(n), w.runId, n, c.last, e);
    Cursor(
      n,
      if IsPersisted(e.kind) then Some(r.recordId) else c.last,
      if w.persist && IsPersisted(e.kind) then c.log + [r] else c.log,
      c.bus + [r])
  }

  function EmitAll(w: Writer, c: Cursor, es: seq<Event>): Cursor {
    if es == [] then c else EmitOne(w, EmitAll(w, c, es[..|es| - 1]), es[|es| - 1])
  }

  lemma {:induction false} EmitAllConcat(w: Writer, c: Cursor, a: seq<Event>, b: seq<Event>)
    ensures EmitAll(w, c, a + b) == EmitAll(w, EmitAll(w, c, a), b)
  {
    if b == [] {
      assert a + b == a;
    } else {
      assert (a + b)[..|a + b| - 1] == a + b[..|b| - 1];
      EmitAllConcat(w, c, a, b[..|b| - 1]);
    }
  }

  /** The log and the broadcasts of `d` are those of `c` after the first `k` events of `es`. */
  predicate CutAt(w: Writer, c: Cursor, d: Cursor, es: seq<Event>, k: nat)
    requires k <= |es|
  {
    var e := EmitAll(w, c, es[..k]);
    d.log == e.log && d.bus == e.bus
  }

  /** `d` is what a run emitting `es` from `c` leaves behind when it stops after some event. */
  ghost predicate IsCut(w: Writer, c: Cursor, d: Cursor, es: seq<Event>) {
    exists k: nat :: k <= |es| && CutAt(w, c, d, es, k)
  }

  /** The same, with at least `low` and at most `high` of the events. */
  ghost predicate CutWithin(w: Writer, c: Cursor, d: Cursor, es: seq<Event>, low: nat, high: nat)
    requires high <= |es|
  {
    exists k: nat :: low <= k <= high && CutAt(w, c, d, es, k)
  }

  /** A cut of a piece of a run is a cut of the run. */
  lemma {:induction false} CutInContext(
    w: Writer, start: Cursor, c: Cursor, d: Cursor, pre: seq<Event>, mid: seq<Event>, all: seq<Event>, k: nat, n: nat)
    requires k <= |mid| && n == |pre| + k && pre + mid <= all
    requires c == EmitAll(w, start, pre) && CutAt(w, c, d, mid, k)
    ensures CutAt(w, start, d, all, n)
  {
    EmitAllConcat(w, start, pre, mid[..k]);
    assert all[..n] == pre + mid[..k];
  }

  function EventsOf(records: seq<Record>): (es: seq<Event>)
    ensures |es| == |records|
    ensures forall i :: 0 <= i < |es| ==> es[i] == records[i].event
  {
    seq(|records|, i requires 0 <= i < |records| => records[i].event)
  }

  /** The events of `es` that reach the log. */
  function Kept(es: seq<Event>): seq<Event> {
    if es == [] then []
    else
      var rest := Kept(es[..|es| - 1]);
      if IsPersisted(es[|es| - 1].kind) then rest + [es[|es| - 1]] else rest
  }
}
