/** Run ids: the process counter, and the number a resumed session goes on with. */
module RunIds {
  import opened Wrappers
  import opened Events
  import Decimal

  function RunId(n: nat): string {
    "R" + Decimal.Print(n)
  }

  /** The number in an id of the form R<digits>. */
  function RunNumber(id: string): Option<nat> {
    if |id| >= 2 && id[0] == 'R' && Decimal.AllDigits(id[1..]) then Some(Decimal.Parse(id[1..])) else None
  }

  lemma RunNumberOfRunId(n: nat)
    ensures RunNumber(RunId(n)) == Some(n)
  {
    assert RunId(n)[1..] == Decimal.Print(n);
    Decimal.ParsePrint(n);
  }

  /** The largest run number in the records. */
  function MaxRunNumber(records: seq<Record>): (m: Option<nat>)
    ensures forall i :: 0 <= i < |records| && RunNumber(records[i].runId).Some? ==>
              m.Some? && RunNumber(records[i].runId).value <= m.value
    ensures m.Some? ==> exists i :: 0 <= i < |records| && RunNumber(records[i].runId) == m
  {
    if records == [] then None
    else
      var front := MaxRunNumber(records[..|records| - 1]);
      match RunNumber(records[|records| - 1].runId)
      case None => front
      case Some(n) => if front.Some? && front.value >= n then front else Some(n)
  }

  predicate UsesRunId(records: seq<Record>, id: string) {
    exists i :: 0 <= i < |records| && records[i].runId == id
  }

  /** The loop over the records of a resumed session. */
  method LargestRunNumber(records: seq<Record>) returns (found: Option<nat>)
    ensures found == MaxRunNumber(records)
  {
    var runNums: seq<nat> := [];
    var largest: nat := 0;
    var i := 0;
    while i < |records|
      invariant 0 <= i <= |records|
      invariant MaxRunNumber(records[..i]) == if runNums == [] then None else Some(largest)
    {
      var rid := records[i].runId;
      assert records[..i + 1][..i] == records[..i];
      if |rid| >= 2 && rid[0] == 'R' && Decimal.AllDigits(rid[1..]) {
        var n := Decimal.Parse(rid[1..]);
        largest := if runNums == [] || largest < n then n else largest;
        runNums := runNums + [n];
      }
      i := i + 1;
    }
    assert records[..i] == records;
    found := if runNums == [] then None else Some(largest);
  }

  class RunIdSource {
    var counter: nat
    var overrides: seq<string>  // preset ids, used up first

    constructor ()
      ensures counter == 1 && overrides == []
    {
      counter, overrides := 1, [];
    }

    method NewRunId() returns (id: string)
      modifies this
      ensures old(overrides) != [] ==>
                id == old(overrides)[0] && overrides == old(overrides)[1..] && counter == old(counter)
      ensures old(overrides) == [] ==>
                id == RunId(old(counter)) && counter == old(counter) + 1 && overrides == old(overrides)
    {
      if overrides != [] {
        id := overrides[0];
        overrides := overrides[1..];
      } else {
        id := RunId(counter);
        counter := counter + 1;
      }
    }

    /** The run id for a session with these records. */
    method ResolveRunId(records: seq<Record>, resumed: bool) returns (id: string)
      modifies this
      ensures resumed && MaxRunNumber(records).Some? ==>
                id == RunId(MaxRunNumber(records).value + 1)
                && counter == old(counter) && overrides == old(overrides)
      ensures !resumed || MaxRunNumber(records).None? ==>
                if old(overrides) != [] then
                  id == old(overrides)[0] && overrides == old(overrides)[1..] && counter == old(counter)
                else
                  id == RunId(old(counter)) && counter == old(counter) + 1 && overrides == old(overrides)
      ensures old(overrides) == [] ==>
                (!UsesRunId(records, id) <==> resumed || !UsesRunId(records, RunId(old(counter))))
    {
      if resumed {
        var largest := LargestRunNumber(records);
        if largest.Some? {
          FreshNumber(records, largest.value + 1);
          return RunId(largest.value + 1);
        }
      }
      FreshNumber(records, counter);
      id := NewRunId();
    }
  }

  /** A number beyond all run numbers of the records, or any number when there are none, is fresh. */
  lemma FreshNumber(records: seq<Record>, n: nat)
    ensures MaxRunNumber(records).None? || MaxRunNumber(records).value < n ==> !UsesRunId(records, RunId(n))
  {
    if UsesRunId(records, RunId(n)) {
      var i :| 0 <= i < |records| && records[i].runId == RunId(n);
      RunNumberOfRunId(n);
    }
  }
}
