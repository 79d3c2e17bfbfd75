/** The append-only file of persistent permission rules. */
module RuleStore {
  import opened Wrappers

  datatype RuleRow = RuleRow(requestHash: string, decision: string)

  /** The hashes that the file decides one way; rows without a hash are skipped. */
  function Hashes(rows: seq<RuleRow>, decision: string): (hashes: set<string>)
    ensures forall h :: h in hashes <==> h != "" && RuleRow(h, decision) in rows
  {
    set row | row in rows && row.requestHash != "" && row.decision == decision :: row.requestHash
  }

  lemma HashesOfConcat(rows: seq<RuleRow>, more: seq<RuleRow>, decision: string)
    ensures Hashes(rows + more, decision) == Hashes(rows, decision) + Hashes(more, decision)
  {
    forall h
      ensures h in Hashes(rows + more, decision) <==> h in Hashes(rows, decision) + Hashes(more, decision)
    {
      assert RuleRow(h, decision) in rows + more <==> RuleRow(h, decision) in rows || RuleRow(h, decision) in more;
    }
  }

  class PermissionRuleStore {
    const enabled: bool
    var rows: seq<RuleRow>

    constructor (enabled: bool)
      ensures this.enabled == enabled && rows == []
    {
      this.enabled := enabled;
      rows := [];
    }

    method LoadHashSets() returns (allow: set<string>, deny: set<string>)
      ensures allow == if enabled then Hashes(rows, "allow") else {}
      ensures deny == if enabled then Hashes(rows, "deny") else {}
    {
      allow, deny := {}, {};
      if !enabled {
        return;
      }
      var i := 0;
      while i < |rows|
        invariant 0 <= i <= |rows|
        invariant allow == Hashes(rows[..i], "allow")
        invariant deny == Hashes(rows[..i], "deny")
      {
        var row := rows[i];
        assert rows[..i + 1] == rows[..i] + [row];
        HashesOfConcat(rows[..i], [row], "allow");
        HashesOfConcat(rows[..i], [row], "deny");
        i := i + 1;
        if row.requestHash == "" {
          continue;
        }
        if row.decision == "allow" {
          allow := allow + {row.requestHash};
        } else if row.decision == "deny" {
          deny := deny + {row.requestHash};
        }
      }
      assert rows[..i] == rows;
    }

    /** Appends one rule; raises on another decision word, or when the disk refuses. */
    method AppendRule(requestHash: string, decision: string) returns (s: Signal)
      modifies this
      ensures s.Ok? ==> rows == if enabled then old(rows) + [RuleRow(requestHash, decision)] else old(rows)
      ensures s.Raised? ==> s.cause == External && rows == old(rows)
      ensures enabled && decision != "allow" && decision != "deny" ==> s.Raised?
      ensures !enabled ==> s.Ok?
    {
      if !enabled {
        return Ok;
      }
      if decision != "allow" && decision != "deny" {
        return Raised(External);
      }
      if * {
        return Raised(External);
      }
      rows := rows + [RuleRow(requestHash, decision)];
      s := Ok;
    }
  }
}
