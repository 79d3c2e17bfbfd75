/** Concrete runs and histories on which a promise fails that one might expect to hold. */
module Witnesses {
  import opened Wrappers
  import opened Events
  import opened Policy
  import opened RuleStore
  import opened RunModel
  import opened Transcript
  import opened TraceLaws
  import opened World
  import AnswerLaws
  import CrashCut
  import Recovery
  import RetryLaws
  import RuleLaws
  import RunIds
  import Stopping
  import StreamAdapter

  // ----- a run with one call ----------------------------------------------------------------------

  type Digest = (string, ToolInput) -> string

  function AskSetting(digest: Digest): Setting {
    Setting("/w", digest, "ask", true)
  }

  /** A new run whose provider requests one call, which the user answers. */
  function OneCall(
    digest: Digest, runId: string, choice: Choice, toolName: string, reply: ToolReply, rules: Rules): Script
  {
    Script(
      Writer(runId, true), false, Some("go"), [PermissionAnswer(ToolCallId(1), AnswerLaws.Word(choice))],
      Some([StreamAdapter.Tool(toolName, map[])]), AskSetting(digest), REGISTERED_TOOLS, (call: Call) => reply, rules)
  }

  function HashIn(digest: Digest, toolName: string): string {
    RequestHash(AskSetting(digest), toolName, map[])
  }

  /** The lifecycle of its call. */
  function TheCall(digest: Digest, choice: Choice, toolName: string, reply: ToolReply): Segment {
    Lifecycle(
      Call(ToolCallId(1), toolName, map[]),
      PermissionDecision("ask", Ask, ModeAsk, 5, ModeSource, RiskLabel(toolName), HashIn(digest, toolName)),
      choice, reply)
  }

  ghost predicate IsOneCall(s: Script, digest: Digest, choice: Choice, toolName: string, reply: ToolReply) {
    && s.writer.persist && !s.resumed && s.prompt == Some("go")
    && s.messages == [PermissionAnswer(ToolCallId(1), AnswerLaws.Word(choice))]
    && s.provider == Some([StreamAdapter.Tool(toolName, map[])])
    && s.setting == AskSetting(digest) && toolName in s.registry
    && s.tools(Call(ToolCallId(1), toolName, map[])) == reply
    && choice != NoChoice && HashIn(digest, toolName) !in Known(s.rules)
  }

  lemma OneCallIs(digest: Digest, runId: string, choice: Choice, toolName: string, reply: ToolReply, rules: Rules)
    requires choice != NoChoice && toolName in REGISTERED_TOOLS && HashIn(digest, toolName) !in Known(rules)
    ensures IsOneCall(OneCall(digest, runId, choice, toolName, reply, rules), digest, choice, toolName, reply)
  {
  }

  lemma OpeningRules(s: Script)
    requires s.prompt.Some?
    ensures Opening(s).status == Running && Opening(s).calls == 0 && Opening(s).inbox == LoadQueues(s.messages)
    ensures |Opening(s).segs| == 2 && Opening(s).segs[0].Single? && Opening(s).segs[1].Single?
    ensures RulesAfter(s.rules, Opening(s).segs) == s.rules && RowsOf(Opening(s).segs) == []
  {
    var segs := Opening(s).segs;
    SinglePush(s.rules, [], segs[0]);
    SinglePush(s.rules, [segs[0]], segs[1]);
    assert [] + [segs[0]] == [segs[0]] && [segs[0]] + [segs[1]] == segs;
  }

  lemma SinglePush(rules: Rules, segs: seq<Segment>, seg: Segment)
    ensures seg.Single? ==>
              RulesAfter(rules, segs + [seg]) == RulesAfter(rules, segs) && RowsOf(segs + [seg]) == RowsOf(segs)
    ensures seg.Lifecycle? ==>
              && RulesAfter(rules, segs + [seg]) == Learn(RulesAfter(rules, segs), seg.judged, seg.choice)
              && RowsOf(segs + [seg]) == RowsOf(segs) + LearnedRows(seg.judged, seg.choice)
  {
    assert (segs + [seg])[..|segs|] == segs;
    assert RowsOf(segs) + [] == RowsOf(segs);
  }

  lemma JudgedAsks(s: Script, digest: Digest, toolName: string)
    requires s.setting == AskSetting(digest) && HashIn(digest, toolName) !in Known(s.rules)
    ensures Judge(s.setting, s.rules, toolName, map[]) ==
            PermissionDecision("ask", Ask, ModeAsk, 5, ModeSource, RiskLabel(toolName), HashIn(digest, toolName))
  {
    var none: ToolInput := map[];
    assert ExtractPath(none) == None;
  }

  lemma OneAnswer(id: string, word: string)
    requires id != ""
    ensures Front(LoadQueues([PermissionAnswer(id, word)]), id) == Some(word)
  {
    QueueFrontIsFirstAnswer([PermissionAnswer(id, word)], id);
  }

  lemma {:induction false} AnswerArrives(choice: Choice, id: string, word: string)
    requires choice != NoChoice && id == ToolCallId(1) && word == AnswerLaws.Word(choice)
    ensures ReadChoice(Front(LoadQueues([PermissionAnswer(id, word)]), id)) == choice
  {
    assert id[0] == 'T';
    OneAnswer(id, word);
    AnswerLaws.ReadItsWord(choice);
  }

  lemma CallIs(s: Script, digest: Digest, choice: Choice, toolName: string, reply: ToolReply)
    requires IsOneCall(s, digest, choice, toolName, reply)
    ensures CallSegment(s, Opening(s), toolName, map[]) == TheCall(digest, choice, toolName, reply)
  {
    OpeningRules(s);
    JudgedAsks(s, digest, toolName);
    AnswerArrives(choice, ToolCallId(1), AnswerLaws.Word(choice));
  }

  lemma TakeOne(s: Script, p: Progress, item: StreamAdapter.Adapted)
    requires p.status == Running
    ensures TakeAll(s, p, [item]) == Take(s, p, item)
  {
    assert [item][..0] == [];
  }

  /** A run whose stream is one item. */
  lemma RunOfOne(s: Script, log: seq<Event>, p: Progress, q: Progress, chunks: seq<StreamAdapter.Chunk>)
    requires p == Recovered(s, log) && p.status == Running && s.provider == Some(chunks)
    requires StreamAdapter.Supported(chunks) == chunks && q == TakeAll(s, p, StreamAdapter.AdaptAll(chunks))
    ensures Run(s, log) == if q.status == Running then Closing(q) else q
  {
  }

  /** What the run is. */
  lemma OneCallRun(s: Script, log: seq<Event>, toolName: string, next: Progress)
    requires !s.resumed && s.prompt.Some? && s.provider == Some([StreamAdapter.Tool(toolName, map[])])
    requires next == CallTool(s, Opening(s), toolName, map[])
    ensures Run(s, log) == if next.status == Running then Closing(next) else next
  {
    OpeningRules(s);
    StreamOfOne(StreamAdapter.Tool(toolName, map[]));
    TakeOne(s, Opening(s), StreamAdapter.AdaptedTool(toolName, map[]));
    RunOfOne(s, log, Opening(s), next, [StreamAdapter.Tool(toolName, map[])]);
  }

  lemma StreamOfOne(chunk: StreamAdapter.Chunk)
    requires !chunk.Unsupported?
    ensures StreamAdapter.Supported([chunk]) == [chunk]
    ensures StreamAdapter.AdaptAll([chunk]) == StreamAdapter.Yield(false, chunk)
  {
    assert [chunk][..0] == [];
    assert [] + StreamAdapter.Yield(false, chunk) == StreamAdapter.Yield(false, chunk);
  }

  /** The run consists of its opening, its call and, unless the tool raised, one terminal event. */
  predicate HasShape(s: Script, run: Progress, call: Segment) {
    && call.Lifecycle?
    && (call.Outcome().Raises? ==> run.status == Raising && run.segs == Opening(s).segs + [call])
    && (call.Outcome().Status? ==>
          && run.status.Ended? && |run.segs| == 4 && run.segs[3].Single?
          && IsTerminal(run.segs[3].event.kind) && run.segs == Opening(s).segs + [call] + [run.segs[3]])
  }

  lemma EndOf(s: Script, p: Progress, call: Segment, run: Progress)
    requires |Opening(s).segs| == 2 && call.Lifecycle?
    requires p.status == Running && p.segs == Opening(s).segs + [call] && p.hadTool
    requires var next := Conclude(p, call); run == if next.status == Running then Closing(next) else next
    ensures HasShape(s, run, call)
  {
  }

  lemma OneCallShape(
    s: Script, log: seq<Event>, digest: Digest, choice: Choice, toolName: string, reply: ToolReply, call: Segment)
    requires IsOneCall(s, digest, choice, toolName, reply) && call == TheCall(digest, choice, toolName, reply)
    ensures HasShape(s, Run(s, log), call)
  {
    OpeningRules(s);
    CallIs(s, digest, choice, toolName, reply);
    OneCallRun(s, log, toolName, CallTool(s, Opening(s), toolName, map[]));
    EndOf(s, AfterCall(Opening(s), call), call, Run(s, log));
  }

  /** What the run learns, and what it writes to the rule file. */
  lemma OneCallLearns(s: Script, run: Progress, call: Segment)
    requires s.prompt.Some? && HasShape(s, run, call)
    ensures RulesAfter(s.rules, run.segs) == Learn(s.rules, call.judged, call.choice)
    ensures RowsOf(run.segs) == LearnedRows(call.judged, call.choice)
  {
    OpeningRules(s);
    SinglePush(s.rules, Opening(s).segs, call);
    if call.Outcome().Status? {
      SinglePush(s.rules, Opening(s).segs + [call], run.segs[3]);
    }
    assert [] + LearnedRows(call.judged, call.choice) == LearnedRows(call.judged, call.choice);
  }

  // ----- two sessions that share the rule file ----------------------------------------------------

  const NOTHING := World(map[], map[], [])

  /** The move that makes a whole run. */
  function Whole(w: World, sid: string, s: Script): Move {
    var segs := Run(s, EventsOf(LogOf(w, sid))).segs;
    Visit(sid, s, true, |Flatten(segs)|, |segs|, |segs|)
  }

  lemma WholeStep(w: World, sid: string, s: Script, segs: seq<Segment>)
    requires s.rules == RulesIn(w, sid, true) && segs == Run(s, EventsOf(LogOf(w, sid))).segs
    ensures Possible(w, Whole(w, sid, s))
    ensures var learned := RulesAfter(s.rules, segs);
            Step(w, Whole(w, sid, s)) ==
            World(
              Logged(w, sid, LogWith(s.writer, LogOf(w, sid), Flatten(segs))),
              w.memory[sid := Memory(learned.sessionAllow, learned.sessionDeny)],
              w.rows + RowsOf(segs))
  {
    assert segs[..|segs|] == segs;
    assert Flatten(segs)[..|Flatten(segs)|] == Flatten(segs);
    Stopping.TiedBehind(segs, |segs|);
  }

  /** A whole visit with one call: what it leaves in the log, in memory and in the file. */
  function Visited(w: World, sid: string, s: Script, call: Segment): World
    requires call.Lifecycle?
  {
    var learned := Learn(s.rules, call.judged, call.choice);
    World(
      Logged(w, sid, LogWith(s.writer, LogOf(w, sid), Trace(s, EventsOf(LogOf(w, sid))))),
      w.memory[sid := Memory(learned.sessionAllow, learned.sessionDeny)],
      w.rows + LearnedRows(call.judged, call.choice))
  }

  lemma WholeVisit(w: World, sid: string, s: Script, call: Segment)
    requires s.rules == RulesIn(w, sid, true) && s.prompt.Some?
    requires HasShape(s, Run(s, EventsOf(LogOf(w, sid))), call)
    ensures Leads(w, Whole(w, sid, s), Visited(w, sid, s, call))
  {
    var run := Run(s, EventsOf(LogOf(w, sid)));
    OneCallLearns(s, run, call);
    WholeStep(w, sid, s, run.segs);
  }

  /** The last record of a log is that of the last event, if that is logged. */
  lemma LastRecord(writer: Writer, log: seq<Record>, es: seq<Event>)
    requires writer.persist && es != [] && IsPersisted(es[|es| - 1].kind)
    ensures var after := LogWith(writer, log, es);
            |after| > |log| && after[|after| - 1].runId == writer.runId && after[|after| - 1].event == es[|es| - 1]
  {
    EmitAllAppends(writer, StartCursor(log, []), es[..|es| - 1]);
  }

  /** The last record is a terminal event under this run id, and it is new. */
  predicate ClosedBy(before: seq<Record>, after: seq<Record>, runId: string) {
    |after| > |before| && after[|after| - 1].runId == runId && IsTerminal(after[|after| - 1].event.kind)
  }

  lemma TraceCloses(s: Script, log: seq<Record>)
    requires s.writer.persist && Run(s, EventsOf(log)).status.Ended?
    ensures ClosedBy(log, LogWith(s.writer, log, Trace(s, EventsOf(log))), s.writer.runId)
  {
    RunIsAccepted(s, EventsOf(log), |Trace(s, EventsOf(log))|);
    LastRecord(s.writer, log, Trace(s, EventsOf(log)));
  }

  lemma VisitedLog(w: World, sid: string, s: Script, call: Segment, log: seq<Record>)
    requires call.Lifecycle? && log == LogWith(s.writer, LogOf(w, sid), Trace(s, EventsOf(LogOf(w, sid)))) && log != []
    ensures LogOf(Visited(w, sid, s, call), sid) == log
    ensures forall other :: other != sid ==> LogOf(Visited(w, sid, s, call), other) == LogOf(w, other)
  {
  }

  /** What a whole visit with one call does: the move, its log, and what is learned and recorded. */
  ghost predicate Visits(
    w: World, v: Move, next: World, sid: string, runId: string, d: PermissionDecision, choice: Choice)
  {
    && Leads(w, v, next) && v.Visit? && v.sessionId == sid && v.script.writer.runId == runId && !v.script.resumed
    && ClosedBy(LogOf(w, sid), LogOf(next, sid), runId)
    && (forall other :: other != sid ==> LogOf(next, other) == LogOf(w, other))
    && next.memory ==
       w.memory[sid := Memory(
                  MemoryIn(w, sid).allow + (if choice == AllowSession then {d.requestHash} else {}),
                  MemoryIn(w, sid).deny + (if choice == DenySession then {d.requestHash} else {}))]
    && next.rows == w.rows + LearnedRows(d, choice)
  }

  lemma LearnedMemory(w: World, sid: string, d: PermissionDecision, choice: Choice)
    requires d.verdict == Ask
    ensures var learned := Learn(RulesIn(w, sid, true), d, choice);
            && learned.sessionAllow == MemoryIn(w, sid).allow + (if choice == AllowSession then {d.requestHash} else {})
            && learned.sessionDeny == MemoryIn(w, sid).deny + (if choice == DenySession then {d.requestHash} else {})
  {
  }

  lemma {:induction false} VisitOf(
    w: World, sid: string, s: Script, digest: Digest, choice: Choice, call: Segment) returns (next: World)
    requires IsOneCall(s, digest, choice, "Bash", Status("success")) && s.rules == RulesIn(w, sid, true)
    requires call == TheCall(digest, choice, "Bash", Status("success"))
    ensures Visits(w, Whole(w, sid, s), next, sid, s.writer.runId, call.judged, choice)
  {
    next := Visited(w, sid, s, call);
    OneCallShape(s, EventsOf(LogOf(w, sid)), digest, choice, "Bash", Status("success"), call);
    WholeVisit(w, sid, s, call);
    TraceCloses(s, LogOf(w, sid));
    VisitedLog(w, sid, s, call, LogWith(s.writer, LogOf(w, sid), Trace(s, EventsOf(LogOf(w, sid)))));
    LearnedMemory(w, sid, call.judged, choice);
  }

  /** In any world where the hash is unknown, a new run can call Bash and get this answer. */
  lemma {:induction false} BashVisit(w: World, sid: string, digest: Digest, runId: string, choice: Choice)
    returns (v: Move, next: World, d: PermissionDecision)
    requires choice != NoChoice && HashIn(digest, "Bash") !in Known(RulesIn(w, sid, true))
    ensures d.requestHash == HashIn(digest, "Bash") && d.verdict == Ask
    ensures Visits(w, v, next, sid, runId, d, choice)
  {
    var s := OneCall(digest, runId, choice, "Bash", Status("success"), RulesIn(w, sid, true));
    var call := TheCall(digest, choice, "Bash", Status("success"));
    OneCallIs(digest, runId, choice, "Bash", Status("success"), RulesIn(w, sid, true));
    next := VisitOf(w, sid, s, digest, choice, call);
    v, d := Whole(w, sid, s), call.judged;
  }

  /** What a new run with a Bash call adds to a history. */
  ghost predicate Adds(h: History, next: History, sid: string, runId: string, hash: string, choice: Choice) {
    var w, u := h.world, next.world;
    && next.Then? && next.before == h && next.move.Visit? && next.move.sessionId == sid && !next.move.script.resumed
    && ClosedBy(LogOf(w, sid), LogOf(u, sid), runId)
    && (forall other :: other != sid ==> LogOf(u, other) == LogOf(w, other))
    && u.memory.Keys == w.memory.Keys + {sid}
    && (forall other :: other != sid && other in w.memory ==> u.memory[other] == w.memory[other])
    && (choice == AllowSession ==> hash in u.memory[sid].allow)
    && (choice == AllowOnce && MemoryIn(w, sid) == Memory({}, {}) ==> u.memory[sid] == Memory({}, {}))
    && u.rows == w.rows + if choice == DenyPersistent then [RuleRow(hash, "deny")] else []
  }

  lemma {:induction false} BashStep(h: History, sid: string, digest: Digest, runId: string, choice: Choice)
    returns (next: History)
    requires Legal(h) && HashIn(digest, "Bash") !in Known(RulesIn(h.world, sid, true))
    requires choice == AllowSession || choice == AllowOnce || choice == DenyPersistent
    ensures Legal(next) && Root(next) == Root(h) && Adds(h, next, sid, runId, HashIn(digest, "Bash"), choice)
  {
    var v, w, d := BashVisit(h.world, sid, digest, runId, choice);
    next := Then(h, v, w);
    AddsThat(h, next, sid, runId, d, choice);
  }

  lemma {:induction false} AddsThat(
    h: History, next: History, sid: string, runId: string, d: PermissionDecision, choice: Choice)
    requires next.Then? && next.before == h && d.verdict == Ask
    requires choice == AllowSession || choice == AllowOnce || choice == DenyPersistent
    requires Visits(h.world, next.move, next.world, sid, runId, d, choice)
    ensures Adds(h, next, sid, runId, d.requestHash, choice)
  {
  }

  lemma NothingKnown(w: World, sid: string)
    requires w.rows == [] && (sid in w.memory ==> w.memory[sid] == Memory({}, {}))
    ensures RulesIn(w, sid, true) == Rules({}, {}, {}, {})
  {
  }

  lemma Nothing() returns (h: History)
    ensures h == Begin(NOTHING) && Legal(h) && Root(h) == NOTHING
  {
    h := Begin(NOTHING);
  }

  lemma NothingIsTidy(w: World)
    requires w == NOTHING
    ensures MemoryDisjoint(w, "S1") && RuleLaws.Tidy(w.rows)
  {
  }

  /**
   Session S1 allows a call for itself; session S2 denies the same call for good. The next run of S1
   starts with its hash in two of the four sets.
   */
  lemma {:induction false} SharedFileOverlaps(digest: Digest) returns (h: History)
    ensures Legal(h) && Root(h) == NOTHING
    ensures h.Then? && h.move.Visit? && h.move.sessionId == "S2" && h.before.Then? && h.before.before.Begin?
    ensures !Disjoint(RulesIn(h.world, "S1", true)) && Disjoint(RulesIn(h.world, "S1", false))
  {
    var nothing := Nothing();
    NothingKnown(NOTHING, "S1");
    var first := BashStep(nothing, "S1", digest, RunIds.RunId(1), AllowSession);
    NothingKnown(first.world, "S2");
    h := BashStep(first, "S2", digest, RunIds.RunId(1), DenyPersistent);
    Overlap(first, h, HashIn(digest, "Bash"));
    NothingIsTidy(Root(h));
    StartsDisjointIff(h, "S1");
  }

  lemma Overlap(first: History, h: History, hash: string)
    requires Adds(Begin(NOTHING), first, "S1", RunIds.RunId(1), hash, AllowSession)
    requires Adds(first, h, "S2", RunIds.RunId(1), hash, DenyPersistent)
    ensures !FileSpares(h.world, "S1")
  {
    assert h.world.rows[0] in h.world.rows && h.world.rows[0].requestHash == hash;
  }

  // ----- run ids of two processes -----------------------------------------------------------------

  lemma RestartStep(h: History) returns (next: History)
    requires Legal(h)
    ensures Legal(next) && Root(next) == Root(h) && next == Then(h, Restart, h.world.(memory := map[]))
  {
    next := Then(h, Restart, h.world.(memory := map[]));
  }

  /**
   Two processes, each with its counter at 1, each start a new run on session S1: its log has two
   terminal events with the run id R1.
   */
  lemma RestartRepeatsRunId(digest: Digest) returns (h: History, i: nat, j: nat)
    ensures Legal(h) && Root(h) == NOTHING
    ensures h.Then? && h.move.Visit? && h.before.Then? && h.before.move.Restart? && h.before.before.Then?
    ensures h.before.before.move.Visit? && h.before.before.before.Begin?
    ensures !h.move.script.resumed && !h.before.before.move.script.resumed
    ensures var log := LogOf(h.world, "S1");
            && i < j < |log| && log[i].runId == log[j].runId == RunIds.RunId(1)
            && IsTerminal(log[i].event.kind) && IsTerminal(log[j].event.kind)
    ensures !Sealed(LogOf(h.world, "S1"))
  {
    var nothing := Nothing();
    NothingKnown(NOTHING, "S1");
    var once := BashStep(nothing, "S1", digest, RunIds.RunId(1), AllowOnce);
    var again := RestartStep(once);
    NothingKnown(again.world, "S1");
    h := BashStep(again, "S1", digest, RunIds.RunId(1), AllowOnce);
    LogsGrow(again, h, "S1");
    i, j := TwoEnds(LogOf(once.world, "S1"), LogOf(h.world, "S1"), RunIds.RunId(1));
  }

  lemma TwoEnds(log: seq<Record>, longer: seq<Record>, runId: string) returns (i: nat, j: nat)
    requires log <= longer && ClosedBy([], log, runId) && ClosedBy(log, longer, runId)
    ensures i < j < |longer| && longer[i].runId == longer[j].runId == runId
    ensures IsTerminal(longer[i].event.kind) && IsTerminal(longer[j].event.kind)
    ensures !Sealed(longer)
  {
    i, j := |log| - 1, |longer| - 1;
    assert longer[i] == log[i];
  }

  // ----- call ids of two runs ---------------------------------------------------------------------

  /** Where the call of such a run lies in its trace. */
  lemma CallPlace(segs: seq<Segment>, call: Segment)
    requires |segs| >= 3 && segs[0].Single? && segs[1].Single? && segs[2] == call && call.Lifecycle?
    ensures CrashCut.Offset(segs, 2) == 2 && CrashCut.Offset(segs, 3) == 2 + CrashCut.Length(call)
    ensures 2 + CrashCut.Length(call) <= |Flatten(segs)|
  {
    FlattenPush([], segs[0]);
    FlattenPush([segs[0]], segs[1]);
    FlattenPush(segs[..2], call);
    assert [] + [segs[0]] == [segs[0]] && [segs[0]] + [segs[1]] == segs[..2] && segs[..2] + [call] == segs[..3];
    CrashCut.SegmentLength(call);
    FlattenTail(segs, 3);
  }

  /** A run with one call, cut after `j` events of that call: what the log then says of it. */
  ghost predicate CutInCall(s: Script, log: seq<Event>, call: Segment, j: nat)
    requires call.Lifecycle?
  {
    && 2 + j <= |Trace(s, log)|
    && Recovery.Classify(Trace(s, log)[..2 + j], call.call.id) == CrashCut.Phase(call, j)
    && Recovery.Scan(CrashCut.LogAfterCut(s, log, 2 + j), call.call.id) ==
       Recovery.Or(Recovery.Scan(log, call.call.id), CrashCut.FlagsAt(call, j))
    && Recovery.RecoveryPlan(CrashCut.LogAfterCut(s, log, 2 + j)) ==
       if RetryLaws.Repeats(call, Recovery.Scan(log, call.call.id), CrashCut.FlagsAt(call, j))
       then Some(Recovery.Retry(call.call.toolName, call.call.input)) else None
  }

  lemma OneCallCut(
    s: Script, log: seq<Event>, digest: Digest, choice: Choice, toolName: string, reply: ToolReply, call: Segment, j: nat)
    requires IsOneCall(s, digest, choice, toolName, reply) && call == TheCall(digest, choice, toolName, reply)
    requires 0 < j <= CrashCut.Length(call)
    ensures CutInCall(s, log, call, j)
  {
    OneCallShape(s, log, digest, choice, toolName, reply, call);
    OpeningRules(s);
    CallPlace(Run(s, log).segs, call);
    CutOfPlaced(s, log, call, j, NextRun(s));
  }

  function NextRun(s: Script): Script {
    s.(resumed := true)
  }

  lemma CutOfPlaced(s: Script, log: seq<Event>, call: Segment, j: nat, next: Script)
    requires s.writer.persist && next.resumed && next.prompt.Some?
    requires |Run(s, log).segs| >= 3 && Run(s, log).segs[2] == call && call.Lifecycle?
    requires CrashCut.Offset(Run(s, log).segs, 2) == 2
    requires CrashCut.Offset(Run(s, log).segs, 3) == 2 + CrashCut.Length(call) <= |Trace(s, log)|
    requires 0 < j <= CrashCut.Length(call)
    ensures CutInCall(s, log, call, j)
  {
    CrashCut.CrashCutExact(s, log, 2, 2 + j);
    RetryLaws.ScanAfterCut(s, log, 2, 2 + j);
    RetryLaws.CutCallRetriedIff(s, log, 2, 3, 2 + j, next);
  }

  /**
   The call of an older run finished; the Read of the newest run is cut while it runs. Both are
   TC1, so the log calls the second completed, and no resumed run repeats it.
   */
  lemma OlderCallHidesInterruption(digest: Digest) returns (older: Script, newer: Script, log: seq<Event>)
    ensures older.writer.persist && Run(older, []).status.Ended?
    ensures log == CrashCut.LogAfterCut(older, [], |Trace(older, [])|)
    ensures newer.writer.persist && |Trace(newer, log)| >= 6
    ensures Recovery.Classify(Trace(newer, log)[..6], ToolCallId(1)) == Recovery.Interrupted
    ensures Recovery.Classify(CrashCut.LogAfterCut(newer, log, 6), ToolCallId(1)) == Recovery.Completed
    ensures Recovery.RecoveryPlan(CrashCut.LogAfterCut(newer, log, 6)) == None
  {
    var rules, reply := Rules({}, {}, {}, {}), Status("success");
    older := OneCall(digest, RunIds.RunId(1), AllowOnce, "Read", reply, rules);
    newer := OneCall(digest, RunIds.RunId(1), AllowOnce, "Read", reply, rules);
    log := CrashCut.LogAfterCut(older, [], |Trace(older, [])|);
    var call := TheCall(digest, AllowOnce, "Read", reply);
    OneCallIs(digest, RunIds.RunId(1), AllowOnce, "Read", reply, rules);
    FinishedCall(older, digest, reply, call);
    OneCallCut(newer, log, digest, AllowOnce, "Read", reply, call, 4);
  }

  lemma FinishedCall(s: Script, digest: Digest, reply: ToolReply, call: Segment)
    requires IsOneCall(s, digest, AllowOnce, "Read", reply) && reply.Status?
    requires call == TheCall(digest, AllowOnce, "Read", reply)
    ensures Run(s, []).status.Ended?
    ensures Recovery.Scan(CrashCut.LogAfterCut(s, [], |Trace(s, [])|), call.call.id).finished
  {
    OneCallShape(s, [], digest, AllowOnce, "Read", reply, call);
    OpeningRules(s);
    RetryLaws.ScanAfterCut(s, [], 2, |Trace(s, [])|);
    RetryLaws.ProgressedToEnd(Run(s, []).segs, 2);
  }

  /**
   The Bash call of an older run is cut while it runs, the Read of the newest run before it was
   even decided. Both are TC1, so the next resumed run repeats a Read that never started.
   */
  lemma {:induction false} OlderStartRepeatsUnstarted(digest: Digest)
    returns (older: Script, newer: Script, log: seq<Event>)
    ensures older.writer.persist && |Trace(older, [])| >= 6 && log == CrashCut.LogAfterCut(older, [], 6)
    ensures newer.writer.persist && |Trace(newer, log)| >= 3
    ensures Recovery.Classify(Trace(newer, log)[..3], ToolCallId(1)) == Recovery.Unclassifiable
    ensures Recovery.RecoveryPlan(CrashCut.LogAfterCut(newer, log, 3)) == Some(Recovery.Retry("Read", map[]))
  {
    var rules, reply := Rules({}, {}, {}, {}), Status("success");
    older := OneCall(digest, RunIds.RunId(1), AllowOnce, "Bash", reply, rules);
    newer := OneCall(digest, RunIds.RunId(1), AllowOnce, "Read", reply, rules);
    OneCallIs(digest, RunIds.RunId(1), AllowOnce, "Bash", reply, rules);
    OneCallIs(digest, RunIds.RunId(1), AllowOnce, "Read", reply, rules);
    OneCallCut(older, [], digest, AllowOnce, "Bash", reply, TheCall(digest, AllowOnce, "Bash", reply), 4);
    log := CrashCut.LogAfterCut(older, [], 6);
    OneCallCut(newer, log, digest, AllowOnce, "Read", reply, TheCall(digest, AllowOnce, "Read", reply), 1);
  }

  // ----- a number that is used again --------------------------------------------------------------

  /** A new run whose provider sends one delta and nothing else. */
  function OneDelta(digest: Digest): Script {
    Script(
      Writer(RunIds.RunId(1), true), false, Some("go"), [], Some([StreamAdapter.Delta("x")]), AskSetting(digest),
      REGISTERED_TOOLS, (call: Call) => Raises, Rules({}, {}, {}, {}))
  }

  lemma {:induction false} OneDeltaRun(s: Script, next: Progress)
    requires !s.resumed && s.prompt.Some? && s.provider == Some([StreamAdapter.Delta("x")])
    requires next == Take(s, Opening(s), StreamAdapter.AdaptedDelta("x"))
    ensures Run(s, []) == Closing(next)
  {
    OpeningRules(s);
    StreamOfOne(StreamAdapter.Delta("x"));
    TakeOne(s, Opening(s), StreamAdapter.AdaptedDelta("x"));
    RunOfOne(s, [], Opening(s), next, [StreamAdapter.Delta("x")]);
  }

  /** Two logged events, and then a delta. */
  predicate EndsInDelta(es: seq<Event>) {
    |es| == 3 && IsPersisted(es[0].kind) && IsPersisted(es[1].kind) && es[2].kind == AssistantDelta
  }

  lemma {:induction false} OneDeltaTaken(s: Script) returns (a: Event, b: Event, e: Event)
    requires !s.resumed && s.prompt.Some?
    ensures Take(s, Opening(s), StreamAdapter.AdaptedDelta("x")).segs == [Single(a), Single(b), Single(e)]
    ensures EndsInDelta([a, b, e])
  {
    a, b := Event(SessionStart, "", Unread), Event(UserMessage, "", Text(s.prompt.value));
    e := Event(AssistantDelta, "", Text("x"));
    assert Opening(s).segs == [Single(a), Single(b)];
  }

  lemma ClosingKeeps(p: Progress)
    ensures p.segs <= Closing(p).segs
  {
  }

  lemma {:induction false} FlattenThree(segs: seq<Segment>, a: Event, b: Event, e: Event)
    requires [Single(a), Single(b), Single(e)] <= segs
    ensures [a, b, e] <= Flatten(segs)
  {
    FlattenPush([], Single(a));
    FlattenPush([Single(a)], Single(b));
    FlattenPush([Single(a), Single(b)], Single(e));
    assert [] + [Single(a)] == [Single(a)] && [Single(a)] + [Single(b)] == [Single(a), Single(b)];
    assert [Single(a), Single(b)] + [Single(e)] == segs[..3];
    FlattenTail(segs, 3);
  }

  lemma {:induction false} OneDeltaTrace(s: Script)
    requires !s.resumed && s.prompt.Some? && s.provider == Some([StreamAdapter.Delta("x")])
    ensures |Trace(s, [])| >= 3 && EndsInDelta(Trace(s, [])[..3])
  {
    var next := Take(s, Opening(s), StreamAdapter.AdaptedDelta("x"));
    var a, b, e := OneDeltaTaken(s);
    OneDeltaRun(s, next);
    ClosingKeeps(next);
    FlattenThree(Run(s, []).segs, a, b, e);
    assert Trace(s, [])[..3] == [a, b, e];
  }

  /** Cut right behind its delta, a run leaves a log whose next run starts with the delta's number. */
  lemma {:induction false} DeltaNumberIsUsedAgain(digest: Digest) returns (s: Script, after: seq<Record>)
    ensures s.writer.persist && |Trace(s, [])| >= 3
    ensures after == LogWith(s.writer, [], Trace(s, [])[..3])
    ensures var sent := EmitAll(s.writer, StartCursor([], []), Trace(s, [])[..3]).bus;
            && |sent| == 3 && sent[2].event.kind == AssistantDelta
            && NextSeq(after) == sent[2].number == 3
  {
    s := OneDelta(digest);
    OneDeltaTrace(s);
    after := LogWith(s.writer, [], Trace(s, [])[..3]);
    ThreeEvents(s.writer, Trace(s, [])[..3]);
  }

  lemma ThreeEvents(w: Writer, es: seq<Event>)
    requires w.persist && EndsInDelta(es)
    ensures var c := EmitAll(w, StartCursor([], []), es);
            |c.bus| == 3 && c.bus[2].event == es[2] && c.bus[2].number == 3 && NextSeq(c.log) == 3
  {
    var start := StartCursor([], []);
    var two := es[..2];
    var one := two[..1];
    assert one[..0] == [] && one[0] == es[0] && two[1] == es[1];
    assert EmitAll(w, start, one) == EmitOne(w, start, es[0]);
    assert EmitAll(w, start, two) == EmitOne(w, EmitOne(w, start, es[0]), es[1]);
    assert EmitAll(w, start, es) == EmitOne(w, EmitOne(w, EmitOne(w, start, es[0]), es[1]), es[2]);
  }
}
