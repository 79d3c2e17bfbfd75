/** Where a run can stop: what is emitted, what is learned and what is recorded belong to one place. */
module Stopping {
  import opened Events
  import opened Policy
  import opened RuleStore
  import opened RunModel

  /** The number of a lifecycle's events up to and including the decision. */
  function Decisive(seg: Segment): (d: nat)
    requires seg.Lifecycle?
    ensures 2 <= d <= 3
  {
    if seg.judged.verdict == Ask then 3 else 2
  }

  lemma DecisiveInside(seg: Segment)
    requires seg.Lifecycle?
    ensures Decisive(seg) <= |SegmentEvents(seg)|
  {
  }

  /**
   What a call leaves when it stops after `j` of its events. The answer is learned, and its row is
   appended, after the last event before the decision and before the decision.
   */
  predicate Partly(
    seg: Segment, j: nat, rules: Rules, rulesNow: Rules, rows: seq<RuleRow>, rowsNow: seq<RuleRow>, more: seq<RuleRow>)
    requires seg.Lifecycle?
  {
    var learned := Learn(rules, seg.judged, seg.choice);
    || (j < Decisive(seg) && rulesNow == rules && rowsNow == rows)
    || (j == Decisive(seg) - 1 && rulesNow == learned && rowsNow == rows)
    || (j >= Decisive(seg) - 1 && rulesNow == learned && rowsNow == rows + more)
  }

  /** The number of a run's events up to and including the decision of its i-th segment. */
  function DecidedAt(segs: seq<Segment>, i: nat): nat
    requires i < |segs| && segs[i].Lifecycle?
  {
    |Flatten(segs[..i])| + Decisive(segs[i])
  }

  /**
   The first `k` events of a run, what its first `m` segments taught, and the rows of its first `n`:
   no call is learned before the last event in front of its decision, no call is recorded before it
   is learned, and each call whose decision is out is recorded.
   */
  predicate Tied(segs: seq<Segment>, k: nat, m: nat, n: nat) {
    && k <= |Flatten(segs)| && n <= m <= |segs|
    && (forall i :: 0 <= i < m && segs[i].Lifecycle? ==> DecidedAt(segs, i) <= k + 1)
    && (forall i :: 0 <= i < |segs| && segs[i].Lifecycle? && DecidedAt(segs, i) <= k ==> i < n)
  }

  lemma {:induction false} OffsetStep(segs: seq<Segment>, i: nat, j: nat)
    requires i < j <= |segs|
    ensures |Flatten(segs[..i])| + |SegmentEvents(segs[i])| <= |Flatten(segs[..j])|
  {
    FlattenPush(segs[..i], segs[i]);
    assert segs[..i] + [segs[i]] == segs[..i + 1];
    FlattenTail(segs[..j], i + 1);
    assert segs[..j][..i + 1] == segs[..i + 1];
  }

  /** A call in front of a segment has its decision in front of it, and one behind it has not. */
  lemma DecidedInOrder(segs: seq<Segment>, i: nat, p: nat)
    requires i < |segs| && segs[i].Lifecycle? && p <= |segs|
    ensures i < p ==> DecidedAt(segs, i) <= |Flatten(segs[..p])|
    ensures i >= p ==> |Flatten(segs[..p])| + 2 <= DecidedAt(segs, i)
    ensures i > p ==> |Flatten(segs[..p + 1])| + 2 <= DecidedAt(segs, i)
  {
    DecisiveInside(segs[i]);
    if i < p {
      OffsetStep(segs, i, p);
    } else if i > p {
      OffsetStep(segs, p, i);
      if i > p + 1 {
        OffsetStep(segs, p + 1, i);
      }
    }
  }

  /** Stopping at a segment: behind those before it, and no further than its end. */
  lemma {:induction false} TiedAt(segs: seq<Segment>, p: nat, k: nat, m: nat, n: nat)
    requires p <= |segs| && |Flatten(segs[..p])| <= k && p <= n <= m <= |segs|
    requires if p < |segs| then m <= p + 1 && k <= |Flatten(segs[..p + 1])| else k <= |Flatten(segs)|
    requires p < |segs| && segs[p].Lifecycle? && m > p ==> DecidedAt(segs, p) <= k + 1
    requires p < |segs| && segs[p].Lifecycle? && DecidedAt(segs, p) <= k ==> n > p
    ensures Tied(segs, k, m, n)
  {
    if p < |segs| {
      FlattenTail(segs, p + 1);
    }
    forall i | 0 <= i < |segs| && segs[i].Lifecycle?
      ensures i < m ==> DecidedAt(segs, i) <= k + 1
      ensures DecidedAt(segs, i) <= k ==> i < n
    {
      DecidedInOrder(segs, i, p);
    }
  }

  /** A run that stops behind whole segments. */
  lemma {:induction false} TiedBehind(segs: seq<Segment>, p: nat)
    requires p <= |segs|
    ensures Tied(segs, |Flatten(segs[..p])|, p, p)
  {
    FlattenTail(segs, p);
    if p < |segs| {
      OffsetStep(segs, p, p + 1);
    }
    TiedAt(segs, p, |Flatten(segs[..p])|, p, p);
  }

  /** A run that stops behind whole segments and one single event more. */
  lemma {:induction false} TiedBehindSingle(segs: seq<Segment>, p: nat)
    requires p < |segs| && segs[p].Single?
    ensures Tied(segs, |Flatten(segs[..p])| + 1, p, p)
  {
    OffsetStep(segs, p, p + 1);
    TiedAt(segs, p, |Flatten(segs[..p])| + 1, p, p);
  }

  /** The decision of a call is the last event that `DecidedAt` counts. */
  lemma {:induction false} DecisionIsAt(segs: seq<Segment>, i: nat)
    requires i < |segs| && segs[i].Lifecycle?
    ensures DecidedAt(segs, i) <= |Flatten(segs)|
    ensures Flatten(segs)[DecidedAt(segs, i) - 1] ==
            Event(ToolPermissionDecided, segs[i].call.id, Decided(segs[i].Decision()))
    ensures segs[i].judged.verdict == Ask ==>
              Flatten(segs)[DecidedAt(segs, i) - 2] == Event(ToolPermissionRequired, segs[i].call.id, Unread)
  {
    RunHasPart(segs, i);
    DecisiveEvents(segs[i]);
    InPart(Flatten(segs), Flatten(segs[..i]), SegmentEvents(segs[i]), Decisive(segs[i]) - 1, DecidedAt(segs, i) - 1);
    InPart(Flatten(segs), Flatten(segs[..i]), SegmentEvents(segs[i]), Decisive(segs[i]) - 2, DecidedAt(segs, i) - 2);
  }

  lemma {:induction false} RunHasPart(segs: seq<Segment>, i: nat)
    requires i < |segs|
    ensures Flatten(segs[..i]) + SegmentEvents(segs[i]) <= Flatten(segs)
  {
    FlattenPush(segs[..i], segs[i]);
    assert segs[..i] + [segs[i]] == segs[..i + 1];
    FlattenTail(segs, i + 1);
  }

  lemma DecisiveEvents(seg: Segment)
    requires seg.Lifecycle?
    ensures Decisive(seg) <= |SegmentEvents(seg)|
    ensures SegmentEvents(seg)[Decisive(seg) - 1] == Event(ToolPermissionDecided, seg.call.id, Decided(seg.Decision()))
    ensures seg.judged.verdict == Ask ==>
              SegmentEvents(seg)[Decisive(seg) - 2] == Event(ToolPermissionRequired, seg.call.id, Unread)
  {
  }

  lemma InPart(whole: seq<Event>, front: seq<Event>, part: seq<Event>, j: nat, k: nat)
    requires front + part <= whole && j < |part| && k == |front| + j
    ensures k < |whole| && whole[k] == part[j]
  {
    assert (front + part)[k] == part[j];
  }

  /** The rows of some segments are those of their calls. */
  lemma {:induction false} RowsOfCalls(segs: seq<Segment>, row: RuleRow)
    ensures row in RowsOf(segs) <==>
            exists i :: 0 <= i < |segs| && segs[i].Lifecycle? && row in LearnedRows(segs[i].judged, segs[i].choice)
  {
    if segs != [] {
      var front, seg := segs[..|segs| - 1], segs[|segs| - 1];
      RowsOfCalls(front, row);
      assert forall i :: 0 <= i < |front| ==> front[i] == segs[i];
    }
  }

  lemma RowsInclude(segs: seq<Segment>, i: nat, n: nat)
    requires i < n <= |segs| && segs[i].Lifecycle?
    ensures forall row :: row in LearnedRows(segs[i].judged, segs[i].choice) ==> row in RowsOf(segs[..n])
  {
    forall row | row in LearnedRows(segs[i].judged, segs[i].choice)
      ensures row in RowsOf(segs[..n])
    {
      assert segs[..n][i] == segs[i];
      RowsOfCalls(segs[..n], row);
    }
  }
}
