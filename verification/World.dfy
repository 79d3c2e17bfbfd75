/**
 Any number of runs, on any sessions, each stopped after any of its events, with process restarts
 in between: what stays true of the logs, of the remembered answers and of the rule file.
 */
module World {
  import opened Wrappers
  import opened Events
  import opened Policy
  import opened RuleStore
  import opened RunModel
  import opened Stopping
  import opened Transcript
  import opened TraceLaws
  import opened RuleLaws
  import Recovery
  import RetryLaws
  import RunIds

  datatype World = World(logs: map<string, seq<Record>>, memory: map<string, Memory>, rows: seq<RuleRow>)

  /**
   A restart of the process, or a run on a session. The run stops after `k` events, when its sets
   hold what the first `m` segments taught and its rule file the rows of the first `n`.
   */
  datatype Move =
    | Restart
    | Visit(sessionId: string, script: Script, enabled: bool, k: nat, m: nat, n: nat)

  function LogOf(w: World, sessionId: string): seq<Record> {
    if sessionId in w.logs then w.logs[sessionId] else []
  }

  /** What a run on the session finds remembered: nothing if its log is empty. */
  function MemoryIn(w: World, sessionId: string): Memory {
    if LogOf(w, sessionId) == [] || sessionId !in w.memory then Memory({}, {}) else w.memory[sessionId]
  }

  function RulesIn(w: World, sessionId: string, enabled: bool): Rules {
    var memory := MemoryIn(w, sessionId);
    Rules(memory.allow, memory.deny,
          if enabled then Hashes(w.rows, "allow") else {},
          if enabled then Hashes(w.rows, "deny") else {})
  }

  /** The run of a visit. */
  function RunOf(w: World, v: Move): Progress
    requires v.Visit?
  {
    Run(v.script, EventsOf(LogOf(w, v.sessionId)))
  }

  predicate Possible(w: World, v: Move) {
    v.Visit? ==>
      && v.script.rules == RulesIn(w, v.sessionId, v.enabled)
      && Tied(RunOf(w, v).segs, v.k, v.m, v.n)
  }

  /** The log after a run that emits `es`. */
  function LogWith(writer: Writer, log: seq<Record>, es: seq<Event>): seq<Record> {
    EmitAll(writer, StartCursor(log, []), es).log
  }

  /** A session without records has no file. */
  function Logged(w: World, sessionId: string, log: seq<Record>): map<string, seq<Record>> {
    if log == [] then w.logs else w.logs[sessionId := log]
  }

  function Step(w: World, v: Move): World
    requires Possible(w, v)
  {
    match v
    case Restart => w.(memory := map[])
    case Visit(sid, s, enabled, k, m, n) =>
      var segs := RunOf(w, v).segs;
      var learned := RulesAfter(s.rules, segs[..m]);
      World(
        Logged(w, sid, LogWith(s.writer, LogOf(w, sid), Flatten(segs)[..k])),
        w.memory[sid := Memory(learned.sessionAllow, learned.sessionDeny)],
        w.rows + if enabled then RowsOf(segs[..n]) else [])
  }

  predicate Leads(w: World, v: Move, next: World) {
    Possible(w, v) && next == Step(w, v)
  }

  /** A first world, and the moves and worlds after it. */
  datatype History = Begin(world: World) | Then(before: History, move: Move, world: World)

  predicate Legal(h: History) {
    h.Then? ==> Legal(h.before) && Leads(h.before.world, h.move, h.world)
  }

  function Root(h: History): World {
    if h.Begin? then h.world else Root(h.before)
  }

  /** `h` is `a`, or goes on from it. */
  ghost predicate Extends(a: History, h: History) {
    a == h || (h.Then? && Extends(a, h.before))
  }

  // ----- the logs ---------------------------------------------------------------------------------

  lemma {:induction false} StepLog(w: World, v: Move, next: World, sid: string)
    requires Leads(w, v, next) && WellFormed(LogOf(w, sid))
    ensures WellFormed(LogOf(next, sid)) && LogOf(w, sid) <= LogOf(next, sid)
    ensures v.Visit? && v.sessionId == sid ==>
              v.k <= |Flatten(RunOf(w, v).segs)|
              && LogOf(next, sid) == LogWith(v.script.writer, LogOf(w, sid), Flatten(RunOf(w, v).segs)[..v.k])
    ensures v.Restart? || v.sessionId != sid ==> LogOf(next, sid) == LogOf(w, sid)
  {
    if v.Visit? && v.sessionId == sid {
      EmitAllTracks(v.script.writer, StartCursor(LogOf(w, sid), []), Flatten(RunOf(w, v).segs)[..v.k]);
    }
  }

  /** Every log of the world is well formed. */
  ghost predicate Formed(w: World) {
    forall sid :: WellFormed(LogOf(w, sid))
  }

  lemma {:induction false} StepFormed(w: World, v: Move, next: World)
    requires Leads(w, v, next) && Formed(w)
    ensures Formed(next)
  {
    forall sid
      ensures WellFormed(LogOf(next, sid))
    {
      StepLog(w, v, next, sid);
    }
  }

  /**
   However many runs a session sees, wherever each stops, and whatever happens on other sessions, its
   log stays well formed and every older log is a prefix of every newer one.
   */
  lemma {:induction false} LogsGrow(a: History, h: History, sid: string)
    requires Legal(h) && Extends(a, h) && WellFormed(LogOf(Root(h), sid))
    ensures WellFormed(LogOf(h.world, sid)) && LogOf(a.world, sid) <= LogOf(h.world, sid)
  {
    if h.Then? {
      LogsGrow(if a == h then h.before else a, h.before, sid);
      StepLog(h.before.world, h.move, h.world, sid);
    }
  }

  // ----- sequence numbers -------------------------------------------------------------------------

  lemma {:induction false} NumberAfter(writer: Writer, c: Cursor, es: seq<Event>)
    ensures EmitAll(writer, c, es).number == c.number + |es|
    ensures |EmitAll(writer, c, es).bus| == |c.bus| + |es|
  {
    if es != [] {
      NumberAfter(writer, c, es[..|es| - 1]);
    }
  }

  lemma {:induction false} NextAfter(writer: Writer, log: seq<Record>, es: seq<Event>)
    requires writer.persist && WellFormed(log)
    ensures NextSeq(log) <= NextSeq(LogWith(writer, log, es)) <= NextSeq(log) + |es|
    ensures NextSeq(LogWith(writer, log, es)) == NextSeq(log) + |es| <==> es == [] || IsPersisted(es[|es| - 1].kind)
  {
    var c := StartCursor(log, []);
    if es != [] {
      var front := es[..|es| - 1];
      NextAfter(writer, log, front);
      NumberAfter(writer, c, front);
    }
  }

  /**
   A session's next run starts at the number after the last one broadcast exactly when the run before
   it was cut at its start or after an event that is logged; after a trailing delta it uses the
   numbers of the trailing deltas again. A run that returned leaves nothing to use again.
   */
  lemma NumbersGoOnIff(s: Script, log: seq<Record>, k: nat)
    requires s.writer.persist && WellFormed(log) && k <= |Trace(s, EventsOf(log))|
    ensures var t := Trace(s, EventsOf(log));
            var after := LogWith(s.writer, log, t[..k]);
            && (NextSeq(after) == NextSeq(log) + k <==> k == 0 || IsPersisted(t[k - 1].kind))
            && NextSeq(after) <= NextSeq(log) + k
            && (k == |t| && Run(s, EventsOf(log)).status.Ended? ==> NextSeq(after) == NextSeq(log) + k)
  {
    var t := Trace(s, EventsOf(log));
    NextAfter(s.writer, log, t[..k]);
    RunIsAccepted(s, EventsOf(log), k);
  }

  // ----- terminal events --------------------------------------------------------------------------

  /** After a terminal event no record has its run id. */
  predicate Sealed(log: seq<Record>) {
    forall i, j :: 0 <= i < j < |log| && IsTerminal(log[i].event.kind) ==> log[i].runId != log[j].runId
  }

  predicate TerminalOnlyLast(es: seq<Event>) {
    forall i :: 0 <= i < |es| - 1 ==> !IsTerminal(es[i].kind)
  }

  lemma {:induction false} KeptTerminalOnlyLast(es: seq<Event>)
    requires TerminalOnlyLast(es)
    ensures TerminalOnlyLast(Kept(es))
    ensures es != [] && !IsTerminal(es[|es| - 1].kind) ==> forall i :: 0 <= i < |Kept(es)| ==> !IsTerminal(Kept(es)[i].kind)
  {
    if es != [] {
      KeptTerminalOnlyLast(es[..|es| - 1]);
    }
  }

  /** Some run has ended under this id. */
  predicate Closed(log: seq<Record>, runId: string) {
    exists i :: 0 <= i < |log| && IsTerminal(log[i].event.kind) && log[i].runId == runId
  }

  /** A run keeps the log sealed exactly if it writes nothing or no run has ended under its id. */
  lemma SealedStepIff(writer: Writer, log: seq<Record>, es: seq<Event>)
    requires Sealed(log) && TerminalOnlyLast(es)
    ensures Sealed(LogWith(writer, log, es)) <==> LogWith(writer, log, es) == log || !Closed(log, writer.runId)
  {
    var c := StartCursor(log, []);
    if writer.persist {
      var all := EmitAll(writer, c, es).log;
      EmitAllAppends(writer, c, es);
      KeptTerminalOnlyLast(es);
      if !Closed(log, writer.runId) {
        SealedAppend(log, all, Kept(es), writer.runId);
      } else if all != log {
        BrokenSeal(log, all, writer.runId);
      }
    } else {
      UnwrittenLog(writer, c, es);
    }
  }

  lemma BrokenSeal(log: seq<Record>, all: seq<Record>, runId: string)
    requires Closed(log, runId) && log <= all && log != all && all[|log|].runId == runId
    ensures !Sealed(all)
  {
    var i :| 0 <= i < |log| && IsTerminal(log[i].event.kind) && log[i].runId == runId;
    assert all[i] == log[i];
  }

  lemma {:induction false} UnwrittenLog(writer: Writer, c: Cursor, es: seq<Event>)
    requires !writer.persist
    ensures EmitAll(writer, c, es).log == c.log
  {
    if es != [] {
      UnwrittenLog(writer, c, es[..|es| - 1]);
    }
  }

  lemma AppendedEvent(log: seq<Record>, all: seq<Record>, kept: seq<Event>, i: nat)
    requires EventsOf(all) == EventsOf(log) + kept && |log| <= i < |all|
    ensures |all| == |log| + |kept| && all[i].event == kept[i - |log|]
  {
    assert EventsOf(all)[i] == kept[i - |log|];
  }

  lemma SealedAppend(log: seq<Record>, all: seq<Record>, kept: seq<Event>, runId: string)
    requires Sealed(log) && !Closed(log, runId) && TerminalOnlyLast(kept)
    requires log <= all && EventsOf(all) == EventsOf(log) + kept
    requires forall i :: |log| <= i < |all| ==> all[i].runId == runId
    ensures Sealed(all)
  {
    forall i, j | 0 <= i < j < |all| && IsTerminal(all[i].event.kind)
      ensures all[i].runId != all[j].runId
    {
      if i < |log| {
        assert all[i] == log[i];
        assert j < |log| ==> all[j] == log[j];
      } else {
        AppendedEvent(log, all, kept, i);
      }
    }
  }

  /** Every visit to the session writes nothing, or has an id under which no run has ended there. */
  predicate IdsOpen(h: History, sid: string) {
    h.Then? ==>
      && IdsOpen(h.before, sid)
      && (h.move.Visit? && h.move.sessionId == sid && LogOf(h.world, sid) != LogOf(h.before.world, sid) ==>
            !Closed(LogOf(h.before.world, sid), h.move.script.writer.runId))
  }

  lemma {:induction false} SealedVisitIff(w: World, v: Move, next: World, sid: string)
    requires Leads(w, v, next) && WellFormed(LogOf(w, sid)) && Sealed(LogOf(w, sid))
    ensures Sealed(LogOf(next, sid)) <==>
            (v.Visit? && v.sessionId == sid && LogOf(next, sid) != LogOf(w, sid) ==>
               !Closed(LogOf(w, sid), v.script.writer.runId))
  {
    StepLog(w, v, next, sid);
    if v.Visit? && v.sessionId == sid {
      RunIsAccepted(v.script, EventsOf(LogOf(w, sid)), v.k);
      SealedStepIff(v.script.writer, LogOf(w, sid), Flatten(RunOf(w, v).segs)[..v.k]);
    }
  }

  lemma SealedPrefix(log: seq<Record>, longer: seq<Record>)
    requires log <= longer && Sealed(longer)
    ensures Sealed(log)
  {
    forall i, j | 0 <= i < j < |log| && IsTerminal(log[i].event.kind)
      ensures log[i].runId != log[j].runId
    {
      assert log[i] == longer[i] && log[j] == longer[j];
    }
  }

  /**
   Whatever ids the runs of a session have: each id has at most one terminal event and no record
   after it exactly if no run wrote under an id that had already ended.
   */
  lemma {:induction false} SealedIff(h: History, sid: string)
    requires Legal(h) && LogOf(Root(h), sid) == []
    ensures Sealed(LogOf(h.world, sid)) <==> IdsOpen(h, sid)
  {
    if h.Then? {
      SealedIff(h.before, sid);
      LogsGrow(h.before, h.before, sid);
      StepLog(h.before.world, h.move, h.world, sid);
      if Sealed(LogOf(h.world, sid)) {
        SealedPrefix(LogOf(h.before.world, sid), LogOf(h.world, sid));
      }
      if Sealed(LogOf(h.before.world, sid)) {
        SealedVisitIff(h.before.world, h.move, h.world, sid);
      }
    }
  }

  /** The run id that is allocated without preset ids: one more than the largest number, or a counter id. */
  ghost predicate Allocated(log: seq<Record>, resumed: bool, runId: string) {
    && (resumed || log == [])
    && (resumed ==>
          match RunIds.MaxRunNumber(log)
          case Some(m) => runId == RunIds.RunId(m + 1)
          case None => exists n: nat :: runId == RunIds.RunId(n))
  }

  lemma AllocatedIsFresh(log: seq<Record>, resumed: bool, runId: string)
    requires Allocated(log, resumed, runId)
    ensures !RunIds.UsesRunId(log, runId) && !Closed(log, runId)
  {
    if resumed {
      match RunIds.MaxRunNumber(log)
      case Some(m) => RunIds.FreshNumber(log, m + 1);
      case None =>
        var n: nat :| runId == RunIds.RunId(n);
        RunIds.FreshNumber(log, n);
    }
    ClosedIsUsed(log, runId);
  }

  lemma ClosedIsUsed(log: seq<Record>, runId: string)
    ensures Closed(log, runId) ==> RunIds.UsesRunId(log, runId)
  {
  }

  /** Every run of the session is resumed or finds an empty log, and got its id from the allocation. */
  ghost predicate AllocatedIds(h: History, sid: string) {
    h.Then? ==>
      && AllocatedIds(h.before, sid)
      && (h.move.Visit? && h.move.sessionId == sid ==>
            Allocated(LogOf(h.before.world, sid), h.move.script.resumed, h.move.script.writer.runId))
  }

  lemma {:induction false} AllocatedIsOpen(h: History, sid: string)
    requires AllocatedIds(h, sid)
    ensures IdsOpen(h, sid)
  {
    if h.Then? {
      AllocatedIsOpen(h.before, sid);
      if h.move.Visit? && h.move.sessionId == sid {
        AllocatedIsFresh(LogOf(h.before.world, sid), h.move.script.resumed, h.move.script.writer.runId);
      }
    }
  }

  /**
   In a session built from an empty log by resumed runs, with the ids that the allocation gives them,
   every run id has at most one terminal event, and no record after it.
   */
  lemma TerminalOnce(h: History, sid: string)
    requires Legal(h) && AllocatedIds(h, sid) && LogOf(Root(h), sid) == []
    ensures Sealed(LogOf(h.world, sid))
  {
    AllocatedIsOpen(h, sid);
    SealedIff(h, sid);
  }

  // ----- repeated calls ---------------------------------------------------------------------------

  lemma EventsSplit(log: seq<Record>, longer: seq<Record>)
    requires log <= longer
    ensures EventsOf(longer) == EventsOf(log) + EventsOf(longer)[|log|..]
  {
  }

  /**
   Once the last requested call of a session has its finish on record, no later resumption repeats it,
   however many runs come and wherever they stop, unless a newer call was requested since.
   */
  lemma {:induction false} FinishedIsNotRepeated(a: History, h: History, sid: string)
    requires Legal(h) && Extends(a, h) && WellFormed(LogOf(Root(h), sid))
    requires var es := EventsOf(LogOf(a.world, sid));
             Recovery.LastRequest(es).Some? && Recovery.Scan(es, Recovery.LastRequest(es).value.toolCallId).finished
    ensures |LogOf(a.world, sid)| <= |LogOf(h.world, sid)|
    ensures RetryLaws.NoRequest(EventsOf(LogOf(h.world, sid))[|LogOf(a.world, sid)|..]) ==>
              Recovery.RecoveryPlan(EventsOf(LogOf(h.world, sid))) == None
  {
    LogsGrow(a, h, sid);
    var es, more := EventsOf(LogOf(a.world, sid)), EventsOf(LogOf(h.world, sid))[|LogOf(a.world, sid)|..];
    EventsSplit(LogOf(a.world, sid), LogOf(h.world, sid));
    if RetryLaws.NoRequest(more) {
      RetryLaws.FinishedStaysQuiet(es, more);
    }
  }

  // ----- the rule file ----------------------------------------------------------------------------

  lemma {:induction false} StepFile(w: World, v: Move, next: World)
    requires Leads(w, v, next) && Tidy(w.rows)
    ensures Tidy(next.rows) && w.rows <= next.rows
  {
    if v.Visit? && v.enabled {
      LawfulRun(v.script, EventsOf(LogOf(w, v.sessionId)));
      PrefixStaysTidy(v.script, w.rows, RunOf(w, v).segs, v.n);
    }
  }

  /**
   Over all runs on all sessions the rule file only grows, and it never has two rows for one hash: no
   hash is ever both allowed and denied for good.
   */
  lemma {:induction false} FileIsConsistent(a: History, h: History)
    requires Legal(h) && Extends(a, h) && Tidy(Root(h).rows)
    ensures Tidy(h.world.rows) && a.world.rows <= h.world.rows
    ensures Hashes(h.world.rows, "allow") !! Hashes(h.world.rows, "deny")
  {
    if h.Then? {
      FileIsConsistent(if a == h then h.before else a, h.before);
      StepFile(h.before.world, h.move, h.world);
    }
    TidyIsConsistent(h.world.rows);
  }

  lemma {:induction false} FileGrows(a: History, h: History)
    requires Legal(h) && Extends(a, h)
    ensures a.world.rows <= h.world.rows
  {
    if h.Then? {
      FileGrows(if a == h then h.before else a, h.before);
    }
  }

  /**
   Deny stickiness. Once the file denies a hash, every later run of every session that reads the file
   denies every call with that hash, without asking, even if the session has allowed it.
   */
  lemma DenySticks(a: History, h: History, v: Move, call: nat)
    requires Legal(h) && Extends(a, h) && Possible(h.world, v) && v.Visit? && v.enabled
    requires call < |RunOf(h.world, v).segs| && RunOf(h.world, v).segs[call].Lifecycle?
    requires HashOf(v.script, RunOf(h.world, v).segs[call]) in Hashes(a.world.rows, "deny")
    ensures var seg := RunOf(h.world, v).segs[call];
            !seg.Allowed() && seg.Decision().verdict == Deny && Asked(seg) == []
  {
    FileGrows(a, h);
    assert RuleRow(HashOf(v.script, RunOf(h.world, v).segs[call]), "deny") in h.world.rows;
    PersistentDenyHolds(v.script, EventsOf(LogOf(h.world, v.sessionId)), call);
  }

  // ----- crashes around an answer ------------------------------------------------------------------

  /** What a call whose decision was emitted leaves in memory and in the file. */
  predicate AnswerKept(call: Segment, enabled: bool, memory: Memory, rows: seq<RuleRow>)
    requires call.Lifecycle?
  {
    && (enabled ==> forall row :: row in LearnedRows(call.judged, call.choice) ==> row in rows)
    && (call.judged.verdict == Ask && call.choice == AllowSession ==> call.judged.requestHash in memory.allow)
    && (call.judged.verdict == Ask && call.choice == DenySession ==> call.judged.requestHash in memory.deny)
  }

  lemma {:induction false} VisitRecords(w: World, v: Move, i: nat)
    requires Possible(w, v) && v.Visit?
    requires i < |RunOf(w, v).segs| && RunOf(w, v).segs[i].Lifecycle? && DecidedAt(RunOf(w, v).segs, i) <= v.k
    ensures AnswerKept(RunOf(w, v).segs[i], v.enabled, Step(w, v).memory[v.sessionId], Step(w, v).rows)
  {
    LawfulRun(v.script, EventsOf(LogOf(w, v.sessionId)));
    LearnedBy(v.script, RunOf(w, v).segs, i, v.m);
    RowsInclude(RunOf(w, v).segs, i, v.n);
  }

  lemma {:induction false} LegalBefore(a: History, h: History)
    requires Legal(h) && Extends(a, h)
    ensures Legal(a)
  {
    if a != h {
      LegalBefore(a, h.before);
    }
  }

  /**
   Write order. Wherever a run stopped: if the decision of a call was emitted, the row that its answer
   calls for is in the file, then and for good; and what its answer teaches the session is in memory.
   */
  lemma {:induction false} DecisionIsRecorded(a: History, h: History, i: nat)
    requires Legal(h) && Extends(a, h) && a.Then? && a.move.Visit?
    requires i < |RunOf(a.before.world, a.move).segs| && RunOf(a.before.world, a.move).segs[i].Lifecycle?
    requires DecidedAt(RunOf(a.before.world, a.move).segs, i) <= a.move.k
    ensures a.move.sessionId in a.world.memory
    ensures AnswerKept(
              RunOf(a.before.world, a.move).segs[i], a.move.enabled, a.world.memory[a.move.sessionId], h.world.rows)
  {
    LegalBefore(a, h);
    FileGrows(a, h);
    VisitRecords(a.before.world, a.move, i);
  }

  /** What the i-th call teaches is known after it. */
  lemma LearnedBy(s: Script, segs: seq<Segment>, i: nat, m: nat)
    requires Lawful(s, segs) && i < m <= |segs| && segs[i].Lifecycle?
    ensures var call, rules := segs[i], RulesAfter(s.rules, segs[..m]);
            call.judged.verdict == Ask ==>
              && (call.choice == AllowSession ==> call.judged.requestHash in rules.sessionAllow)
              && (call.choice == DenySession ==> call.judged.requestHash in rules.sessionDeny)
  {
    RulesPush(s.rules, segs[..i], segs[i]);
    assert segs[..i] + [segs[i]] == segs[..i + 1];
    LawfulPrefix(s, segs, m);
    RulesGrow(s, segs[..m], i + 1);
    assert segs[..m][..i + 1] == segs[..i + 1];
  }

  /** A row that a run added is that of a call whose question to the user was emitted. */
  lemma RowsWereAsked(w: World, v: Move, next: World, row: RuleRow) returns (i: nat)
    requires Leads(w, v, next) && v.Visit? && row in next.rows && row !in w.rows
    ensures var segs := RunOf(w, v).segs;
            && i < |segs| && segs[i].Lifecycle? && row in LearnedRows(segs[i].judged, segs[i].choice)
            && DecidedAt(segs, i) - 1 <= v.k
            && Flatten(segs)[DecidedAt(segs, i) - 2] == Event(ToolPermissionRequired, segs[i].call.id, Unread)
  {
    var segs := RunOf(w, v).segs;
    RowsOfCalls(segs[..v.n], row);
    i :| 0 <= i < |segs[..v.n]| && segs[..v.n][i].Lifecycle?
         && row in LearnedRows(segs[..v.n][i].judged, segs[..v.n][i].choice);
    assert segs[..v.n][i] == segs[i];
    DecisionIsAt(segs, i);
  }

  // ----- the session's memory ---------------------------------------------------------------------

  /** The session's next run starts with at least this, and its log is not empty. */
  predicate Covers(w: World, sid: string, memory: Memory) {
    && LogOf(w, sid) != []
    && memory.allow <= MemoryIn(w, sid).allow && memory.deny <= MemoryIn(w, sid).deny
  }

  /** A run takes nothing from what its session remembers. */
  lemma VisitRemembers(w: World, v: Move, sid: string)
    requires Possible(w, v) && v.Visit? && v.sessionId == sid
    ensures var memory, now := MemoryIn(w, sid), Step(w, v).memory[sid];
            memory.allow <= now.allow && memory.deny <= now.deny
  {
    LawfulRun(v.script, EventsOf(LogOf(w, sid)));
    PrefixGrows(v.script, RunOf(w, v).segs, v.m);
  }

  lemma {:induction false} StepCovers(w: World, v: Move, next: World, sid: string, memory: Memory)
    requires Leads(w, v, next) && v.Visit? && WellFormed(LogOf(w, sid)) && Covers(w, sid, memory)
    ensures Covers(next, sid, memory)
  {
    StepLog(w, v, next, sid);
    if v.sessionId == sid {
      VisitRemembers(w, v, sid);
    }
  }

  /** From `a` to `h` the process is not restarted. */
  ghost predicate OneProcess(a: History, h: History) {
    a == h || (h.Then? && h.move.Visit? && OneProcess(a, h.before))
  }

  /**
   Within one process, and once the session's log is not empty, what a session remembers stays
   remembered, whatever runs on it and on other sessions: each of its later runs starts with it.
   */
  lemma {:induction false} SessionRemembers(a: History, h: History, sid: string, memory: Memory)
    requires Legal(h) && OneProcess(a, h) && WellFormed(LogOf(Root(h), sid)) && Covers(a.world, sid, memory)
    ensures Covers(h.world, sid, memory)
  {
    if a != h {
      SessionRemembers(a, h.before, sid, memory);
      LogsGrow(h.before, h.before, sid);
      StepCovers(h.before.world, h.move, h.world, sid, memory);
    }
  }

  /** From `a` to `h` there are only runs on other sessions. */
  ghost predicate Elsewhere(a: History, h: History, sid: string) {
    a == h || (h.Then? && h.move.Visit? && h.move.sessionId != sid && Elsewhere(a, h.before, sid))
  }

  /** Runs on other sessions change neither the log nor the memory of a session. */
  lemma {:induction false} SessionsApart(a: History, h: History, sid: string)
    requires Legal(h) && Elsewhere(a, h, sid)
    ensures LogOf(h.world, sid) == LogOf(a.world, sid) && MemoryIn(h.world, sid) == MemoryIn(a.world, sid)
  {
    if a != h {
      SessionsApart(a, h.before, sid);
      VisitElsewhere(h.before.world, h.move, h.world, sid);
    }
  }

  lemma {:induction false} VisitElsewhere(w: World, v: Move, next: World, sid: string)
    requires Leads(w, v, next) && v.Visit? && v.sessionId != sid
    ensures LogOf(next, sid) == LogOf(w, sid) && MemoryIn(next, sid) == MemoryIn(w, sid)
  {
  }

  /**
   What a run starts with. Its session sets are empty if its log is, or right after a restart; its
   persistent sets are the rows of the file, word by word, if it reads the file, and empty otherwise.
   */
  lemma StartsWith(w: World, sid: string, enabled: bool, hash: string)
    ensures var r := RulesIn(w, sid, enabled);
            && (LogOf(w, sid) == [] ==> r.sessionAllow == {} && r.sessionDeny == {})
            && (hash in r.persistentAllow <==> enabled && hash != "" && RuleRow(hash, "allow") in w.rows)
            && (hash in r.persistentDeny <==> enabled && hash != "" && RuleRow(hash, "deny") in w.rows)
  {
  }

  lemma RestartForgets(w: World, next: World, sid: string, enabled: bool)
    requires Leads(w, Restart, next)
    ensures RulesIn(next, sid, enabled).sessionAllow == {} && RulesIn(next, sid, enabled).sessionDeny == {}
    ensures RulesIn(next, sid, enabled).persistentAllow == RulesIn(w, sid, enabled).persistentAllow
    ensures RulesIn(next, sid, enabled).persistentDeny == RulesIn(w, sid, enabled).persistentDeny
    ensures LogOf(next, sid) == LogOf(w, sid)
  {
  }

  // ----- where a run's sets are disjoint ----------------------------------------------------------

  lemma FewerDisjoint(r: Rules, more: Rules)
    requires Grows(r, more) && Disjoint(more)
    ensures Disjoint(r)
  {
  }

  /** What the first `m` segments taught the session and the first `n` the file, as the next run finds it. */
  function Left(s: Script, segs: seq<Segment>, rows: seq<RuleRow>, enabled: bool, m: nat, n: nat): Rules
    requires m <= |segs| && n <= |segs|
  {
    var learned := RulesAfter(s.rules, segs[..m]);
    var file := rows + if enabled then RowsOf(segs[..n]) else [];
    Rules(learned.sessionAllow, learned.sessionDeny,
          if enabled then Hashes(file, "allow") else {}, if enabled then Hashes(file, "deny") else {})
  }

  /** It is part of what the run had learned at one point. */
  lemma LeftIsLearned(s: Script, segs: seq<Segment>, rows: seq<RuleRow>, enabled: bool, m: nat, n: nat)
    requires Lawful(s, segs) && n <= m <= |segs|
    requires enabled ==> Agrees(s.rules, rows)
    ensures Grows(Left(s, segs, rows, enabled, m, n), RulesAfter(s.rules, segs[..m]))
  {
    LawfulPrefix(s, segs, m);
    RulesGrow(s, segs[..m], n);
    assert segs[..m][..n] == segs[..n];
    if enabled {
      LawfulPrefix(s, segs, n);
      AgreesAlong(s, rows, segs[..n]);
    }
  }

  lemma RulesLeft(w: World, v: Move, next: World)
    requires Leads(w, v, next) && v.Visit?
    ensures var left := Left(v.script, RunOf(w, v).segs, w.rows, v.enabled, v.m, v.n);
            Grows(RulesIn(next, v.sessionId, v.enabled), left)
  {
  }

  /** Only this session is visited, by runs that all read the rule file, or all do not. */
  predicate Alone(h: History, sid: string, enabled: bool) {
    h.Then? ==>
      Alone(h.before, sid, enabled) && (h.move.Visit? ==> h.move.sessionId == sid && h.move.enabled == enabled)
  }

  /**
   A session that has the rule file to itself starts every run with four disjoint sets, wherever its
   runs stopped and whenever the process was restarted.
   */
  lemma {:induction false} AloneIsDisjoint(h: History, sid: string, enabled: bool)
    requires Legal(h) && Alone(h, sid, enabled) && Disjoint(RulesIn(Root(h), sid, enabled))
    ensures Disjoint(RulesIn(h.world, sid, enabled))
  {
    if h.Then? {
      AloneIsDisjoint(h.before, sid, enabled);
      DisjointStep(h.before.world, h.move, h.world, sid, enabled);
    }
  }

  lemma {:induction false} DisjointStep(w: World, v: Move, next: World, sid: string, enabled: bool)
    requires Leads(w, v, next) && Disjoint(RulesIn(w, sid, enabled))
    requires v.Visit? ==> v.sessionId == sid && v.enabled == enabled
    ensures Disjoint(RulesIn(next, sid, enabled))
  {
    if v.Visit? {
      var s, segs := v.script, RunOf(w, v).segs;
      RulesLeft(w, v, next);
      LawfulRun(s, EventsOf(LogOf(w, sid)));
      LeftIsLearned(s, segs, w.rows, enabled, v.m, v.n);
      RunKeepsDisjoint(s, EventsOf(LogOf(w, sid)), 0, v.m);
      FewerDisjoint(Left(s, segs, w.rows, enabled, v.m, v.n), RulesAfter(s.rules, segs[..v.m]));
      FewerDisjoint(RulesIn(next, sid, enabled), Left(s, segs, w.rows, enabled, v.m, v.n));
    }
  }

  /** The session's two sets, as a process holds them, are disjoint. */
  predicate MemoryDisjoint(w: World, sid: string) {
    sid in w.memory ==> w.memory[sid].allow !! w.memory[sid].deny
  }

  lemma SessionSetsStep(s: Script, front: seq<Segment>, seg: Segment)
    requires seg.Lifecycle? ==> LawfulCall(s, RulesAfter(s.rules, front), seg)
    requires RulesAfter(s.rules, front).sessionAllow !! RulesAfter(s.rules, front).sessionDeny
    ensures RulesAfter(s.rules, front + [seg]).sessionAllow !! RulesAfter(s.rules, front + [seg]).sessionDeny
  {
    RulesStep(s, front, seg);
    if seg.Lifecycle? && seg.judged.verdict == Ask {
      AskedIsUnknown(s, RulesAfter(s.rules, front), seg);
      JudgedHash(s, RulesAfter(s.rules, front), seg);
    }
  }

  lemma {:induction false} SessionSetsApart(s: Script, segs: seq<Segment>)
    requires Lawful(s, segs) && s.rules.sessionAllow !! s.rules.sessionDeny
    ensures RulesAfter(s.rules, segs).sessionAllow !! RulesAfter(s.rules, segs).sessionDeny
  {
    if segs != [] {
      var front := segs[..|segs| - 1];
      SessionSetsApart(s, front);
      SessionSetsStep(s, front, segs[|segs| - 1]);
      assert front + [segs[|segs| - 1]] == segs;
    }
  }

  lemma {:induction false} MemoryStep(w: World, v: Move, next: World, sid: string)
    requires Leads(w, v, next) && MemoryDisjoint(w, sid)
    ensures MemoryDisjoint(next, sid)
  {
    if v.Visit? && v.sessionId == sid {
      var segs := RunOf(w, v).segs;
      LawfulRun(v.script, EventsOf(LogOf(w, sid)));
      LawfulPrefix(v.script, segs, v.m);
      SessionSetsApart(v.script, segs[..v.m]);
    }
  }

  lemma {:induction false} MemoryStaysDisjoint(h: History, sid: string)
    requires Legal(h) && MemoryDisjoint(Root(h), sid)
    ensures MemoryDisjoint(h.world, sid)
  {
    if h.Then? {
      MemoryStaysDisjoint(h.before, sid);
      MemoryStep(h.before.world, h.move, h.world, sid);
    }
  }

  /** No row of the file is about a hash that the session remembers. */
  predicate FileSpares(w: World, sid: string) {
    forall row :: row in w.rows ==> row.requestHash !in MemoryIn(w, sid).allow + MemoryIn(w, sid).deny
  }

  /**
   When a run starts with disjoint sets. One that does not read the rule file always does; one that
   does, over all runs of all sessions, exactly if no row of the file is about a hash that the session
   itself remembers.
   */
  lemma {:induction false} StartsDisjointIff(h: History, sid: string)
    requires Legal(h) && MemoryDisjoint(Root(h), sid) && Tidy(Root(h).rows)
    ensures Disjoint(RulesIn(h.world, sid, false))
    ensures Disjoint(RulesIn(h.world, sid, true)) <==> FileSpares(h.world, sid)
  {
    MemoryStaysDisjoint(h, sid);
    FileIsConsistent(h, h);
    DisjointIffSpared(h.world, sid);
  }

  lemma DisjointIffSpared(w: World, sid: string)
    requires MemoryDisjoint(w, sid) && Tidy(w.rows) && Hashes(w.rows, "allow") !! Hashes(w.rows, "deny")
    ensures Disjoint(RulesIn(w, sid, false))
    ensures Disjoint(RulesIn(w, sid, true)) <==> FileSpares(w, sid)
  {
    var file := Hashes(w.rows, "allow") + Hashes(w.rows, "deny");
    RowsAreHashes(w.rows);
    assert FileSpares(w, sid) <==> file !! MemoryIn(w, sid).allow + MemoryIn(w, sid).deny;
  }

  /** In a tidy file every row is about a hash of one of the two sets. */
  lemma RowsAreHashes(rows: seq<RuleRow>)
    requires Tidy(rows)
    ensures forall h ::
              h in Hashes(rows, "allow") + Hashes(rows, "deny") <==> exists row :: row in rows && row.requestHash == h
  {
    forall row | row in rows
      ensures row.requestHash in Hashes(rows, "allow") + Hashes(rows, "deny")
    {
      assert row == RuleRow(row.requestHash, row.decision);
    }
  }

  // ----- the moves are what the orchestrator does -------------------------------------------------

  lemma {:induction false} BusIsWriteOnly(writer: Writer, c: Cursor, d: Cursor, es: seq<Event>)
    requires c == d.(bus := c.bus)
    ensures EmitAll(writer, c, es) == EmitAll(writer, d, es).(bus := EmitAll(writer, c, es).bus)
  {
    if es != [] {
      BusIsWriteOnly(writer, c, d, es[..|es| - 1]);
    }
  }

  lemma {:induction false} CutLog(
    writer: Writer, log: seq<Record>, bus: seq<Record>, here: Cursor, es: seq<Event>, k: nat)
    requires k <= |es| && CutAt(writer, StartCursor(log, bus), here, es, k)
    ensures here.log == LogWith(writer, log, es[..k])
  {
    BusIsWriteOnly(writer, StartCursor(log, bus), StartCursor(log, []), es[..k]);
  }

  /**
   A cut of a run, the session rules after some of its segments and the rows of some of them, tied to
   one place of the run, make up the world to which a visit leads.
   */
  lemma StopIsVisit(w: World, next: World, sid: string, s: Script, enabled: bool, bus: seq<Record>, here: Cursor,
                    k: nat, m: nat, n: nat)
    returns (v: Move)
    requires s.rules == RulesIn(w, sid, enabled)
    requires var segs := Run(s, EventsOf(LogOf(w, sid))).segs;
             && Tied(segs, k, m, n)
             && CutAt(s.writer, StartCursor(LogOf(w, sid), bus), here, Flatten(segs), k)
    requires var segs := Run(s, EventsOf(LogOf(w, sid))).segs;
             var learned := RulesAfter(s.rules, segs[..m]);
             next == World(
               Logged(w, sid, here.log),
               w.memory[sid := Memory(learned.sessionAllow, learned.sessionDeny)],
               w.rows + if enabled then RowsOf(segs[..n]) else [])
    ensures v.Visit? && v.sessionId == sid && v.script == s && v.enabled == enabled && Leads(w, v, next)
  {
    CutLog(s.writer, LogOf(w, sid), bus, here, Flatten(Run(s, EventsOf(LogOf(w, sid))).segs), k);
    v := Visit(sid, s, enabled, k, m, n);
  }
}
