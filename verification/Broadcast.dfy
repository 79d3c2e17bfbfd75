/** What the subscribers and the log get of a run, record by record. */
module Broadcast {
  import opened Wrappers
  import opened Events
  import opened Transcript
  import opened Sequences
  import Decimal

  /** The record of the n-th event of a session. */
  predicate Carries(r: Record, runId: string, n: nat, e: Event) {
    r.event == e && r.number == n && r.recordId == "E" + Decimal.Print(n) && r.runId == runId
  }

  /** From `low` on and before `high` there are only deltas. */
  predicate OnlyDeltas(records: seq<Record>, low: nat, high: nat)
    requires high <= |records|
  {
    forall i :: low <= i < high ==> records[i].event.kind.AssistantDelta?
  }

  /** The parent of the i-th record is the last one before it that is no delta, or what came before them all. */
  ghost predicate HasParent(records: seq<Record>, i: nat, parent: Option<string>, before: Option<string>)
    requires i <= |records|
  {
    || (OnlyDeltas(records, 0, i) && parent == before)
    || exists j: nat :: j < i && !records[j].event.kind.AssistantDelta? && OnlyDeltas(records, j + 1, i)
                        && parent == Some(records[j].recordId)
  }

  /** The records are those of these events, in order, after the number `n` and the id `before`. */
  ghost predicate Sent(records: seq<Record>, runId: string, n: nat, before: Option<string>, es: seq<Event>) {
    && |records| == |es|
    && (forall i :: 0 <= i < |es| ==> Carries(records[i], runId, n + i + 1, es[i]))
    && (forall i :: 0 <= i < |es| ==> HasParent(records, i, records[i].parentId, before))
  }

  /** The records that are no deltas, in order. */
  function Durable(records: seq<Record>): (kept: seq<Record>)
    ensures forall r :: r in kept <==> r in records && !r.event.kind.AssistantDelta?
  {
    if records == [] then []
    else
      var front, r := records[..|records| - 1], records[|records| - 1];
      assert records == front + [r];
      Durable(front) + if r.event.kind.AssistantDelta? then [] else [r]
  }

  /**
   A run that emitted these events on a session with this log: where its numbers and its parents
   begin, what was broadcast, and what was logged.
   */
  ghost predicate Delivered(w: Writer, es: seq<Event>, log: seq<Record>, bus: seq<Record>,
                            newLog: seq<Record>, newBus: seq<Record>)
  {
    var n := if log == [] then 0 else log[|log| - 1].number;
    var before := if log == [] then None else Some(log[|log| - 1].recordId);
    && bus <= newBus
    && Sent(newBus[|bus|..], w.runId, n, before, es)
    && newLog == log + if w.persist then Durable(newBus[|bus|..]) else []
  }

  lemma OnlyDeltasPush(records: seq<Record>, r: Record, low: nat, high: nat)
    requires high <= |records| && OnlyDeltas(records, low, high)
    ensures OnlyDeltas(records + [r], low, high)
    ensures high == |records| && r.event.kind.AssistantDelta? ==> OnlyDeltas(records + [r], low, high + 1)
  {
    assert forall i :: 0 <= i < |records| ==> (records + [r])[i] == records[i];
  }

  /** A parent stays the parent when more is sent. */
  lemma ParentStays(records: seq<Record>, r: Record, i: nat, parent: Option<string>, before: Option<string>)
    requires i <= |records| && HasParent(records, i, parent, before)
    ensures HasParent(records + [r], i, parent, before)
  {
    if OnlyDeltas(records, 0, i) && parent == before {
      OnlyDeltasPush(records, r, 0, i);
    } else {
      var j: nat :| j < i && !records[j].event.kind.AssistantDelta? && OnlyDeltas(records, j + 1, i)
                    && parent == Some(records[j].recordId);
      OnlyDeltasPush(records, r, j + 1, i);
      assert (records + [r])[j] == records[j];
    }
  }

  /** The parent of what comes next. */
  lemma ParentNext(records: seq<Record>, r: Record, parent: Option<string>, before: Option<string>)
    requires HasParent(records, |records|, parent, before)
    ensures HasParent(records + [r], |records| + 1,
                      if r.event.kind.AssistantDelta? then parent else Some(r.recordId), before)
  {
    var n := |records|;
    assert (records + [r])[n] == r;
    if !r.event.kind.AssistantDelta? {
      assert OnlyDeltas(records + [r], n + 1, n + 1);
    } else if OnlyDeltas(records, 0, n) && parent == before {
      OnlyDeltasPush(records, r, 0, n);
    } else {
      var j: nat :| j < n && !records[j].event.kind.AssistantDelta? && OnlyDeltas(records, j + 1, n)
                    && parent == Some(records[j].recordId);
      OnlyDeltasPush(records, r, j + 1, n);
      assert (records + [r])[j] == records[j];
    }
  }

  lemma SentPush(records: seq<Record>, runId: string, n: nat, before: Option<string>, es: seq<Event>, r: Record, e: Event)
    requires Sent(records, runId, n, before, es)
    requires Carries(r, runId, n + |es| + 1, e) && HasParent(records, |records|, r.parentId, before)
    ensures Sent(records + [r], runId, n, before, es + [e])
  {
    forall i | 0 <= i < |es| + 1
      ensures Carries((records + [r])[i], runId, n + i + 1, (es + [e])[i])
      ensures HasParent(records + [r], i, (records + [r])[i].parentId, before)
    {
      if i < |es| {
        ParentStays(records, r, i, records[i].parentId, before);
      } else {
        ParentStays(records, r, |records|, r.parentId, before);
      }
    }
  }

  lemma DurablePush(records: seq<Record>, r: Record)
    ensures Durable(records + [r]) == Durable(records) + if r.event.kind.AssistantDelta? then [] else [r]
  {
    assert (records + [r])[..|records|] == records;
  }

  /** Emitting these events turned `c` into `d` and sent these records. */
  ghost predicate Adds(w: Writer, c: Cursor, d: Cursor, es: seq<Event>, records: seq<Record>) {
    && Sent(records, w.runId, c.number, c.last, es)
    && HasParent(records, |records|, d.last, c.last)
    && d.number == c.number + |es| && d.bus == c.bus + records
    && d.log == c.log + if w.persist then Durable(records) else []
  }

  /** Emitting one event appends its record to the broadcasts, and to the log if it is no delta. */
  lemma EmitOneIs(w: Writer, d: Cursor, e: Event) returns (r: Record)
    ensures Carries(r, w.runId, d.number + 1, e) && r.parentId == d.last
    ensures var next, delta := EmitOne(w, d, e), e.kind.AssistantDelta?;
            && next.number == d.number + 1 && next.last == (if delta then d.last else Some(r.recordId))
            && next.bus == d.bus + [r] && next.log == d.log + if w.persist && !delta then [r] else []
  {
    r := Record(EventId(d.number + 1), w.runId, d.number + 1, d.last, e);
    assert d.log + [] == d.log;
  }

  lemma {:induction false} LogPush(persist: bool, before: seq<Record>, log: seq<Record>, records: seq<Record>, r: Record)
    requires log == before + if persist then Durable(records) else []
    ensures log + (if persist && !r.event.kind.AssistantDelta? then [r] else []) ==
            before + if persist then Durable(records + [r]) else []
  {
    DurablePush(records, r);
    if persist {
      Regroup(before, Durable(records), if r.event.kind.AssistantDelta? then [] else [r]);
    }
  }

  lemma {:induction false} AddsOne(w: Writer, c: Cursor, d: Cursor, es: seq<Event>, records: seq<Record>, e: Event)
    returns (r: Record)
    requires Adds(w, c, d, es, records)
    ensures Adds(w, c, EmitOne(w, d, e), es + [e], records + [r])
  {
    r := EmitOneIs(w, d, e);
    SentPush(records, w.runId, c.number, c.last, es, r, e);
    ParentNext(records, r, d.last, c.last);
    LogPush(w.persist, c.log, d.log, records, r);
    Regroup(c.bus, records, [r]);
  }

  /** What emitting these events adds to the broadcasts and to the log. */
  lemma {:induction false} EmitAllAdds(w: Writer, c: Cursor, es: seq<Event>) returns (records: seq<Record>)
    ensures Adds(w, c, EmitAll(w, c, es), es, records)
  {
    if es == [] {
      records := [];
    } else {
      var front, e := es[..|es| - 1], es[|es| - 1];
      var d := EmitAll(w, c, front);
      var sent := EmitAllAdds(w, c, front);
      var r := AddsOne(w, c, d, front, sent, e);
      records := sent + [r];
      assert front + [e] == es;
    }
  }

  /** Stop a run after any of its events: what its subscribers and its log have got. */
  lemma {:induction false} CutIsDelivered(
    w: Writer, log: seq<Record>, bus: seq<Record>, here: Cursor, es: seq<Event>, k: nat)
    requires k <= |es| && CutAt(w, StartCursor(log, bus), here, es, k)
    ensures Delivered(w, es[..k], log, bus, here.log, here.bus)
  {
    var records := EmitAllAdds(w, StartCursor(log, bus), es[..k]);
    assert here.bus[|bus|..] == records;
  }
}
