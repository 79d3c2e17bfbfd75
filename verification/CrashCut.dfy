/**
 The classifier against the runs that wrote the log: for every point at which a run can stop, what
 the classifier says of each call, and what the next resumed run does about it.
 */
module CrashCut {
  import opened Events
  import opened RunModel
  import opened Recovery
  import opened TraceLaws
  import opened Sequences

  // ----- one lifecycle, cut after j of its events -----------------------------------------------

  /** Where a call stands when `j` of its events are out, read off the protocol and not the flags. */
  function Phase(seg: Segment, j: int): RecoveryState
    requires seg.Lifecycle?
  {
    var asked := if seg.judged.verdict == Ask then 1 else 0;
    if j <= 0 then NotFound
    else if j <= asked + 2 then Unclassifiable           // requested, perhaps asked, decided
    else if !seg.Allowed() then DeniedCall               // from the denied result on
    else if seg.Outcome().Raises? then Interrupted
    else if j <= asked + 4 then Interrupted              // started, result
    else Completed                                       // finished
  }

  function FlagsAt(seg: Segment, j: int): Flags
    requires seg.Lifecycle?
  {
    var asked := if seg.judged.verdict == Ask then 1 else 0;
    var executed := asked + if seg.Allowed() then 3 else 2;
    Flags(
      j >= 1,
      seg.Allowed() && j >= asked + 3,
      seg.Outcome().Status? && j >= executed + 2,
      !seg.Allowed() && j >= asked + 2,
      seg.Outcome() == Status("denied") && j >= executed + 1)
  }

  function Length(seg: Segment): nat
    requires seg.Lifecycle?
  {
    (if seg.judged.verdict == Ask then 1 else 0) + (if seg.Allowed() then 3 else 2)
    + if seg.Outcome().Status? then 2 else 0
  }

  lemma SegmentLength(seg: Segment)
    requires seg.Lifecycle?
    ensures |SegmentEvents(seg)| == Length(seg)
  {
  }

  lemma FlagsStep(seg: Segment, j: nat)
    requires seg.Lifecycle? && j < |SegmentEvents(seg)|
    ensures Or(FlagsAt(seg, j), Sees(SegmentEvents(seg)[j], seg.call.id)) == FlagsAt(seg, j + 1)
  {
    SegmentLength(seg);
    var asked := if seg.judged.verdict == Ask then 1 else 0;
    var e := SegmentEvents(seg)[j];
    if j == 0 {
      assert e.kind == ToolCallRequested;
    } else if j == asked {
      assert e.kind == ToolPermissionRequired;
    } else if j == asked + 1 {
      assert e == Event(ToolPermissionDecided, seg.call.id, Decided(seg.Decision()));
    } else {
      assert e == Executed(seg)[j - asked - 2];
    }
  }

  lemma {:induction false} FlagsOfCut(seg: Segment, j: nat)
    requires seg.Lifecycle? && j <= |SegmentEvents(seg)|
    ensures Scan(SegmentEvents(seg)[..j], seg.call.id) == FlagsAt(seg, j)
  {
    if j > 0 {
      FlagsOfCut(seg, j - 1);
      FlagsStep(seg, j - 1);
      ScanNext(SegmentEvents(seg), j - 1, seg.call.id);
    }
  }

  /** On the events of one call, the classifier reads off the phase. */
  lemma ClassifyLifecycle(seg: Segment, j: nat)
    requires seg.Lifecycle? && j <= |SegmentEvents(seg)|
    ensures Classify(SegmentEvents(seg)[..j], seg.call.id) == Phase(seg, j)
  {
    FlagsOfCut(seg, j);
    SegmentLength(seg);
  }

  // ----- one call inside its run ------------------------------------------------------------------

  /** The position in the trace where a segment begins. */
  function Offset(segs: seq<Segment>, i: nat): nat
    requires i <= |segs|
  {
    |Flatten(segs[..i])|
  }

  function Clamp(x: int, low: int, high: int): int {
    if x < low then low else if x > high then high else x
  }

  lemma {:induction false} SinglesBare(segs: seq<Segment>, i: nat)
    requires Numbered(segs) && i < |segs| && segs[i].Single?
    ensures segs[i].event.toolCallId == "" && !ToolKind(segs[i].event.kind)
  {
    if i < |segs| - 1 {
      SinglesBare(segs[..|segs| - 1], i);
    }
  }

  lemma SegmentMentions(seg: Segment, id: string)
    requires seg.Single? ==> seg.event.toolCallId != id
    requires seg.Lifecycle? ==> seg.call.id != id
    ensures Unmentioned(SegmentEvents(seg), id)
  {
  }

  /** A call is mentioned by no segment but its own. */
  lemma {:induction false} OtherSilent(segs: seq<Segment>, i: nat, j: nat)
    requires Numbered(segs) && i < |segs| && segs[i].Lifecycle? && j < |segs| && j != i
    ensures Unmentioned(SegmentEvents(segs[j]), segs[i].call.id)
  {
    var seg, id := segs[j], segs[i].call.id;
    IdIsSmall(segs, i);
    if seg.Single? {
      SinglesBare(segs, j);
    } else if i < j {
      IdsApart(segs, i, j);
    } else {
      IdsApart(segs, j, i);
    }
    SegmentMentions(seg, id);
  }

  lemma {:induction false} JoinUnmentioned(parts: seq<seq<Event>>, id: string)
    requires forall i :: 0 <= i < |parts| ==> Unmentioned(parts[i], id)
    ensures Unmentioned(Join(parts), id)
  {
    if parts != [] {
      JoinUnmentioned(parts[..|parts| - 1], id);
    }
  }

  lemma ScanBetween(a: seq<Event>, m: seq<Event>, b: seq<Event>, k: nat, id: string)
    requires Unmentioned(a, id) && Unmentioned(b, id) && k <= |a + m + b|
    ensures Scan((a + m + b)[..k], id) == Scan(m[..Clamp(k - |a|, 0, |m|)], id)
  {
    var j := Clamp(k - |a|, 0, |m|);
    var a', b' := a[..Clamp(k, 0, |a|)], b[..Clamp(k - |a| - |m|, 0, |b|)];
    assert (a + m + b)[..k] == a' + m[..j] + b';
    ScanConcat(a' + m[..j], b', id);
    ScanConcat(a', m[..j], id);
    ScanUnmentioned(a', id);
    ScanUnmentioned(b', id);
  }

  /** Cutting a join, seen from a part whose id no other part mentions. */
  lemma ScanOfJoinCut(parts: seq<seq<Event>>, i: nat, k: nat, id: string)
    requires i < |parts| && k <= |Join(parts)|
    requires forall j :: 0 <= j < |parts| && j != i ==> Unmentioned(parts[j], id)
    ensures Scan(Join(parts)[..k], id) == Scan(parts[i][..Clamp(k - |Join(parts[..i])|, 0, |parts[i]|)], id)
  {
    JoinAround(parts, i);
    JoinUnmentioned(parts[..i], id);
    JoinUnmentioned(parts[i + 1..], id);
    ScanBetween(Join(parts[..i]), parts[i], Join(parts[i + 1..]), k, id);
  }

  lemma {:induction false} ScanOfRunCut(segs: seq<Segment>, i: nat, k: nat)
    requires Numbered(segs) && i < |segs| && segs[i].Lifecycle? && k <= |Flatten(segs)|
    ensures Scan(Flatten(segs)[..k], segs[i].call.id) ==
            FlagsAt(segs[i], Clamp(k - Offset(segs, i), 0, Length(segs[i])))
  {
    ListsSilent(segs, i);
    OffsetIsJoined(segs, i);
    CutOfLists(Lists(segs), i, k, segs[i], Offset(segs, i));
  }

  lemma CutOfLists(lists: seq<seq<Event>>, i: nat, k: nat, seg: Segment, offset: nat)
    requires i < |lists| && k <= |Join(lists)| && seg.Lifecycle? && lists[i] == SegmentEvents(seg)
    requires offset == |Join(lists[..i])|
    requires forall j :: 0 <= j < |lists| && j != i ==> Unmentioned(lists[j], seg.call.id)
    ensures Scan(Join(lists)[..k], seg.call.id) == FlagsAt(seg, Clamp(k - offset, 0, Length(seg)))
  {
    ScanOfJoinCut(lists, i, k, seg.call.id);
    FlagsOfClampedCut(seg, k - offset);
  }

  lemma OffsetIsJoined(segs: seq<Segment>, i: nat)
    requires i < |segs|
    ensures |Join(Lists(segs)[..i])| == Offset(segs, i)
  {
    assert Lists(segs)[..i] == Lists(segs[..i]);
  }

  lemma {:induction false} ListsSilent(segs: seq<Segment>, i: nat)
    requires Numbered(segs) && i < |segs| && segs[i].Lifecycle?
    ensures forall j :: 0 <= j < |segs| && j != i ==> Unmentioned(Lists(segs)[j], segs[i].call.id)
  {
    forall j | 0 <= j < |segs| && j != i
      ensures Unmentioned(Lists(segs)[j], segs[i].call.id)
    {
      OtherSilent(segs, i, j);
    }
  }

  lemma FlagsOfClampedCut(seg: Segment, j: int)
    requires seg.Lifecycle?
    ensures |SegmentEvents(seg)| == Length(seg)
    ensures Scan(SegmentEvents(seg)[..Clamp(j, 0, |SegmentEvents(seg)|)], seg.call.id) ==
            FlagsAt(seg, Clamp(j, 0, Length(seg)))
  {
    SegmentLength(seg);
    FlagsOfCut(seg, Clamp(j, 0, Length(seg)));
  }

  /** How many of a call's events are among the first `k` of its run. */
  function Progressed(segs: seq<Segment>, i: nat, k: nat): nat
    requires i < |segs| && segs[i].Lifecycle?
  {
    Clamp(k - Offset(segs, i), 0, Length(segs[i]))
  }

  lemma JudgementOfFlags(seg: Segment, j: nat)
    requires seg.Lifecycle? && j <= Length(seg)
    ensures Judgement(FlagsAt(seg, j)) == Phase(seg, j)
  {
  }

  /**
   Crash-cut exactness. Stop any run after any of its events: of each of its calls the classifier
   says exactly how far that call had come.
   */
  lemma {:induction false} CrashCutExact(s: Script, log: seq<Event>, i: nat, k: nat)
    requires i < |Run(s, log).segs| && Run(s, log).segs[i].Lifecycle? && k <= |Trace(s, log)|
    ensures var segs := Run(s, log).segs;
            Classify(Trace(s, log)[..k], segs[i].call.id) == Phase(segs[i], Progressed(segs, i, k))
  {
    CountedRun(s, log);
    var segs := Run(s, log).segs;
    ScanOfRunCut(segs, i, k);
    JudgementOfFlags(segs[i], Progressed(segs, i, k));
  }

  /** A run that goes on never takes back "denied" or "completed". */
  lemma SettledStays(s: Script, log: seq<Event>, i: nat, k: nat, l: nat)
    requires i < |Run(s, log).segs| && Run(s, log).segs[i].Lifecycle?
    requires k <= l <= |Trace(s, log)|
    ensures var id := Run(s, log).segs[i].call.id;
            var now := Classify(Trace(s, log)[..k], id);
            now in {DeniedCall, Completed} ==> Classify(Trace(s, log)[..l], id) == now
  {
    CrashCutExact(s, log, i, k);
    CrashCutExact(s, log, i, l);
  }

  // ----- the same on the log of a session ---------------------------------------------------------

  lemma SegmentDeltasBare(seg: Segment)
    requires seg.Single? ==> seg.event.toolCallId == ""
    ensures DeltasCarryNoId(SegmentEvents(seg))
  {
  }

  lemma {:induction false} SegmentsDeltasBare(segs: seq<Segment>)
    requires Numbered(segs)
    ensures DeltasCarryNoId(Flatten(segs))
  {
    if segs != [] {
      var front, seg := segs[..|segs| - 1], segs[|segs| - 1];
      SegmentsDeltasBare(front);
      SegmentDeltasBare(seg);
      FlattenPush(front, seg);
      assert front + [seg] == segs;
    }
  }

  /** The log after a run stopped: what was there, and the persisted part of the run's cut. */
  function LogAfterCut(s: Script, log: seq<Event>, k: nat): seq<Event>
    requires k <= |Trace(s, log)|
  {
    log + if s.writer.persist then Kept(Trace(s, log)[..k]) else []
  }

  /** Records that older runs left under the same id that do not change the verdict on the newest call. */
  predicate Undisturbed(before: Flags, seg: Segment, j: nat)
    requires seg.Lifecycle?
  {
    match Phase(seg, j)
    case NotFound => !before.seen
    case Unclassifiable =>
      && !before.started && !before.finished
      && !(before.resultDenied && (before.permissionDeny || FlagsAt(seg, j).permissionDeny))
    case Interrupted => !before.finished
    case DeniedCall => !before.started
    case Completed => true
  }

  lemma DisturbanceExact(before: Flags, seg: Segment, j: nat)
    requires seg.Lifecycle? && j <= Length(seg)
    requires before.started || before.finished || before.permissionDeny || before.resultDenied ==> before.seen
    ensures Judgement(Or(before, FlagsAt(seg, j))) == Phase(seg, j) <==> Undisturbed(before, seg, j)
  {
  }

  lemma {:induction false} FlagsSeen(es: seq<Event>, id: string)
    ensures var f := Scan(es, id); f.started || f.finished || f.permissionDeny || f.resultDenied ==> f.seen
  {
    if es != [] {
      FlagsSeen(es[..|es| - 1], id);
    }
  }

  lemma ScanOfLog(s: Script, log: seq<Event>, k: nat, id: string)
    requires s.writer.persist && k <= |Trace(s, log)| && id != ""
    ensures Scan(LogAfterCut(s, log, k), id) == Or(Scan(log, id), Scan(Trace(s, log)[..k], id))
  {
    CountedRun(s, log);
    SegmentsDeltasBare(Run(s, log).segs);
    assert DeltasCarryNoId(Trace(s, log)[..k]);
    ScanKept(Trace(s, log)[..k], id);
    ScanConcat(log, Kept(Trace(s, log)[..k]), id);
  }

  /**
   Call ids restart with every run, but the classifier reads the whole log. It is right about a
   call of the newest run exactly when the records of older runs under the same id leave it
   undisturbed; ids that no older run used always do.
   */
  lemma {:induction false} LogCutExactIff(s: Script, log: seq<Event>, i: nat, k: nat)
    requires s.writer.persist
    requires i < |Run(s, log).segs| && Run(s, log).segs[i].Lifecycle? && k <= |Trace(s, log)|
    ensures var segs := Run(s, log).segs;
            var id, j := segs[i].call.id, Progressed(segs, i, k);
            && (Classify(LogAfterCut(s, log, k), id) == Phase(segs[i], j) <==> Undisturbed(Scan(log, id), segs[i], j))
            && (Unmentioned(log, id) ==> Classify(LogAfterCut(s, log, k), id) == Phase(segs[i], j))
  {
    CountedRun(s, log);
    var segs := Run(s, log).segs;
    var id := segs[i].call.id;
    IdIsSmall(segs, i);
    ScanOfLog(s, log, k, id);
    ScanOfRunCut(segs, i, k);
    FlagsSeen(log, id);
    DisturbanceExact(Scan(log, id), segs[i], Progressed(segs, i, k));
    if Unmentioned(log, id) {
      ScanUnmentioned(log, id);
    }
  }
}
