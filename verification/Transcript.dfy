/** The append-only transcript of each session. */
module Transcript {
  import opened Wrappers
  import opened Events

  // ----- well-formed logs -------------------------------------------------------------------

  /** Sequence numbers rise, ids are the numbers' ids, and the parent of a record is the one before it. */
  predicate WellFormed(log: seq<Record>) {
    && (forall i :: 0 <= i < |log| ==> 1 <= log[i].number && log[i].recordId == EventId(log[i].number))
    && (forall i, j :: 0 <= i < j < |log| ==> log[i].number < log[j].number)
    && (forall i :: 0 < i < |log| ==> log[i].parentId == Some(log[i - 1].recordId))
    && (log != [] ==> log[0].parentId == None)
  }

  function LastId(log: seq<Record>): Option<string> {
    if log == [] then None else Some(log[|log| - 1].recordId)
  }

  function NextSeq(log: seq<Record>): nat {
    if log == [] then 1 else log[|log| - 1].number + 1
  }

  lemma FirstSeqMeansEmpty(log: seq<Record>)
    requires WellFormed(log)
    ensures NextSeq(log) == 1 <==> log == []
  {
    if log != [] {
      assert 1 <= log[|log| - 1].number;
    }
  }

  /** In a well-formed log an id names one record. */
  lemma RecordIdsUnique(log: seq<Record>, i: nat, j: nat)
    requires WellFormed(log) && i < |log| && j < |log|
    requires log[i].recordId == log[j].recordId
    ensures i == j
  {
    EventIdInjective(log[i].number, log[j].number);
  }

  /** In a well-formed log the parent id of a record names exactly its predecessor. */
  lemma ParentIsPredecessor(log: seq<Record>, i: nat, j: nat)
    requires WellFormed(log) && i < |log| && j < |log|
    ensures log[i].parentId == Some(log[j].recordId) <==> i == j + 1
  {
    if i > 0 && log[i - 1].recordId == log[j].recordId {
      RecordIdsUnique(log, i - 1, j);
    }
  }

  // ----- a run extends a well-formed log ------------------------------------------------------

  /** The cursor that a run starts from. */
  function StartCursor(log: seq<Record>, bus: seq<Record>): Cursor {
    Cursor(NextSeq(log) - 1, LastId(log), log, bus)
  }

  /** What a run keeps about its cursor after every event. */
  predicate Tracks(w: Writer, c: Cursor) {
    && WellFormed(c.log)
    && (w.persist ==> NextSeq(c.log) <= c.number + 1 && c.last == LastId(c.log))
  }

  lemma AppendWellFormed(log: seq<Record>, r: Record)
    requires WellFormed(log)
    requires r.recordId == EventId(r.number) && NextSeq(log) <= r.number && r.parentId == LastId(log)
    ensures WellFormed(log + [r])
  {
    if log != [] {
      assert forall i :: 0 <= i < |log| ==> log[i].number <= log[|log| - 1].number;
    }
  }

  lemma EmitOneTracks(w: Writer, c: Cursor, e: Event)
    requires Tracks(w, c)
    ensures Tracks(w, EmitOne(w, c, e))
    ensures c.log <= EmitOne(w, c, e).log
  {
    if w.persist && IsPersisted(e.kind) {
      AppendWellFormed(c.log, Record(EventId(c.number + 1), w.runId, c.number + 1, c.last, e));
    }
  }

  lemma {:induction false} EmitAllTracks(w: Writer, c: Cursor, es: seq<Event>)
    requires Tracks(w, c)
    ensures Tracks(w, EmitAll(w, c, es))
    ensures c.log <= EmitAll(w, c, es).log
    ensures !w.persist ==> EmitAll(w, c, es).log == c.log
  {
    if es != [] {
      EmitAllTracks(w, c, es[..|es| - 1]);
      EmitOneTracks(w, EmitAll(w, c, es[..|es| - 1]), es[|es| - 1]);
    }
  }

  /** However a run ends, its log is well formed and extends the old one. */
  lemma CutTracks(w: Writer, c: Cursor, d: Cursor, es: seq<Event>)
    requires Tracks(w, c) && IsCut(w, c, d, es)
    ensures WellFormed(d.log) && c.log <= d.log
    ensures !w.persist ==> d.log == c.log
  {
    var k: nat :| k <= |es| && CutAt(w, c, d, es, k);
    EmitAllTracks(w, c, es[..k]);
  }

  /** What a run adds to a log: the persisted ones of its events, under its run id. */
  lemma {:induction false} EmitAllAppends(w: Writer, c: Cursor, es: seq<Event>)
    requires w.persist
    ensures EventsOf(EmitAll(w, c, es).log) == EventsOf(c.log) + Kept(es)
    ensures |c.log| <= |EmitAll(w, c, es).log|
    ensures forall i :: |c.log| <= i < |EmitAll(w, c, es).log| ==> EmitAll(w, c, es).log[i].runId == w.runId
    ensures EmitAll(w, c, es).log[..|c.log|] == c.log
  {
    if es != [] {
      EmitAllAppends(w, c, es[..|es| - 1]);
    }
  }

  function NonEmpty(logs: map<string, seq<Record>>): map<string, seq<Record>> {
    map s | s in logs && logs[s] != [] :: logs[s]
  }

  /** If only one session's log changed, and not to nothing, so did the files. */
  lemma FilesAfter(before: map<string, seq<Record>>, after: map<string, seq<Record>>, sid: string)
    requires before - {sid} == after - {sid}
    requires sid in before && before[sid] != [] ==> sid in after && after[sid] != []
    ensures NonEmpty(after) ==
            if sid in after && after[sid] != [] then NonEmpty(before)[sid := after[sid]] else NonEmpty(before)
  {
    forall t | t != sid
      ensures t in after <==> t in before
      ensures t in before ==> after[t] == before[t]
    {
      assert t in after - {sid} <==> t in before - {sid};
      if t in before {
        assert (before - {sid})[t] == (after - {sid})[t];
      }
    }
  }

  // ----- the store ----------------------------------------------------------------------------

  class TranscriptStore {
    const persistenceEnabled: bool
    var logs: map<string, seq<Record>>

    constructor (persistenceEnabled: bool)
      ensures this.persistenceEnabled == persistenceEnabled && logs == map[]
    {
      this.persistenceEnabled := persistenceEnabled;
      logs := map[];
    }

    function Log(sessionId: string): seq<Record>
      reads this
    {
      if sessionId in logs then logs[sessionId] else []
    }

    /** The logs of all other sessions. */
    function Others(sessionId: string): map<string, seq<Record>>
      reads this
    {
      logs - {sessionId}
    }

    /** The sessions that have records, and their logs. */
    function Files(): map<string, seq<Record>>
      reads this
    {
      NonEmpty(logs)
    }

    method LoadRecords(sessionId: string) returns (records: seq<Record>)
      ensures records == Log(sessionId)
    {
      records := if sessionId in logs then logs[sessionId] else [];
    }

    method GetNextSeq(sessionId: string) returns (n: nat)
      ensures n == NextSeq(Log(sessionId))
    {
      var records := LoadRecords(sessionId);
      if records == [] {
        return 1;
      }
      n := records[|records| - 1].number + 1;
    }

    method GetLastPersistedEventId(sessionId: string) returns (id: Option<string>)
      ensures id == LastId(Log(sessionId))
    {
      var records := LoadRecords(sessionId);
      if records == [] {
        return None;
      }
      id := Some(records[|records| - 1].recordId);
    }

    /** Appends the record of an event, or raises before it wrote anything. */
    method AppendEvent(sessionId: string, r: Record) returns (s: Signal)
      modifies this
      ensures s.Raised? ==> s.cause == External && logs == old(logs)
      ensures s.Ok? ==>
                Log(sessionId) ==
                if persistenceEnabled && IsPersisted(r.event.kind) then old(Log(sessionId)) + [r]
                else old(Log(sessionId))
      ensures Others(sessionId) == old(Others(sessionId))
    {
      if !persistenceEnabled || !IsPersisted(r.event.kind) {
        return Ok;
      }
      if * {
        return Raised(External);
      }
      var records := LoadRecords(sessionId);
      logs := logs[sessionId := records + [r]];
      s := Ok;
    }
  }
}
