/** The process-wide map from sessions to their two sets of remembered answers. */
module ReplayRegistry {
  import opened Executor
  import opened Policy

  /** The two set objects of one session. */
  datatype ReplayCells = ReplayCells(allow: HashCell, deny: HashCell)

  class ReplayRegistry {
    var cells: map<string, ReplayCells>

    constructor ()
      ensures cells == map[] && Apart()
    {
      cells := map[];
    }

    /** No set object serves two purposes or two sessions. */
    ghost predicate Apart()
      reads this
    {
      forall s, t :: s in cells && t in cells ==>
        && cells[s].allow != cells[t].deny
        && (s != t ==> cells[s].allow != cells[t].allow && cells[s].deny != cells[t].deny)
    }

    /** The set objects of one session. */
    ghost function CellsOf(sessionId: string): set<HashCell>
      reads this
    {
      if sessionId in cells then {cells[sessionId].allow, cells[sessionId].deny} else {}
    }

    /** All set objects. */
    ghost function AllCells(): set<HashCell>
      reads this
    {
      (set s | s in cells :: cells[s].allow) + (set s | s in cells :: cells[s].deny)
    }

    /** What is remembered of each session. */
    ghost function Memories(): map<string, Memory>
      reads this, AllCells()
    {
      map s | s in cells :: Memory(cells[s].allow.hashes, cells[s].deny.hashes)
    }

    /** What is remembered of all other sessions. */
    ghost function OtherMemories(sessionId: string): map<string, Memory>
      reads this, AllCells()
    {
      map s | s in cells && s != sessionId :: Memory(cells[s].allow.hashes, cells[s].deny.hashes)
    }

    /** What the set objects of all other sessions hold. */
    ghost function Others(sessionId: string): map<HashCell, set<string>>
      reads this, AllCells()
    {
      map c | c in AllCells() && c !in CellsOf(sessionId) :: c.hashes
    }

    lemma MemoriesSplit(sessionId: string)
      ensures OtherMemories(sessionId) == Memories() - {sessionId}
      ensures sessionId in cells ==>
                Memories() ==
                OtherMemories(sessionId)[sessionId := Memory(cells[sessionId].allow.hashes, cells[sessionId].deny.hashes)]
    {
    }

    lemma OthersNow(sessionId: string)
      requires Apart()
      ensures Hold(Others(sessionId)) && Others(sessionId).Keys !! CellsOf(sessionId)
      ensures Covers(Others(sessionId), cells, sessionId)
      ensures OtherMemories(sessionId) == MemoriesOf(cells, Others(sessionId), sessionId)
    {
      forall s | s in cells && s != sessionId
        ensures cells[s].allow in Others(sessionId) && cells[s].deny in Others(sessionId)
      {
        assert cells[s].allow in AllCells() && cells[s].deny in AllCells();
      }
    }

    /** After a run on one session, while the set objects of the others kept what they held. */
    lemma OthersThen(sessionId: string, before: map<string, ReplayCells>, others: map<HashCell, set<string>>)
      requires forall s :: s != sessionId ==> (s in cells <==> s in before) && (s in before ==> cells[s] == before[s])
      requires Covers(others, before, sessionId) && Hold(others)
      ensures OtherMemories(sessionId) == MemoriesOf(before, others, sessionId)
    {
    }

    /** What a run on this session finds: nothing if its log is empty. */
    ghost function Recall(sessionId: string, emptyLog: bool): Memory
      reads this, CellsOf(sessionId)
    {
      if emptyLog || sessionId !in cells then Memory({}, {})
      else Memory(cells[sessionId].allow.hashes, cells[sessionId].deny.hashes)
    }

    /** The set objects of a session; new ones if its log is empty or it has none yet. */
    method Bind(sessionId: string, emptyLog: bool) returns (c: ReplayCells)
      requires Apart()
      modifies this
      ensures Apart() && cells == old(cells)[sessionId := c] && c.allow != c.deny
      ensures fresh(CellsOf(sessionId) - old(CellsOf(sessionId)))
      ensures emptyLog || sessionId !in old(cells) ==> fresh(c.allow) && fresh(c.deny)
      ensures !emptyLog && sessionId in old(cells) ==> c == old(cells[sessionId])
      ensures Memory(c.allow.hashes, c.deny.hashes) == old(Recall(sessionId, emptyLog))
    {
      if emptyLog || sessionId !in cells {
        var allow := new HashCell({});
        var deny := new HashCell({});
        c := ReplayCells(allow, deny);
        cells := cells[sessionId := c];
      } else {
        c := cells[sessionId];
        assert cells == cells[sessionId := c];
      }
    }
  }

  /** The set objects hold what the map says. */
  ghost predicate Hold(contents: map<HashCell, set<string>>)
    reads contents.Keys
  {
    forall c :: c in contents ==> c.hashes == contents[c]
  }

  /** The contents are known of the set objects of every session but one. */
  ghost predicate Covers(contents: map<HashCell, set<string>>, cells: map<string, ReplayCells>, sessionId: string) {
    forall s :: s in cells && s != sessionId ==> cells[s].allow in contents && cells[s].deny in contents
  }

  ghost function MemoriesOf(
    cells: map<string, ReplayCells>, contents: map<HashCell, set<string>>, sessionId: string): map<string, Memory>
    requires Covers(contents, cells, sessionId)
  {
    map s | s in cells && s != sessionId :: Memory(contents[cells[s].allow], contents[cells[s].deny])
  }
}
