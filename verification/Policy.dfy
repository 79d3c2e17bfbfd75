/**
 The permission engine, the replay of remembered rules, and the answer of the user.
 SHA-256 over the canonical JSON of a request is an arbitrary function `digest`.
 */
module Policy {
  import opened Wrappers
  import opened Events
  import Text
  import Workspace

  const SAFE_READ_TOOLS: set<string> := {"Read", "LS", "Glob", "Grep"}

  /** What the policy looks at besides the request and the rules; `cwd` is a real path. */
  datatype Setting = Setting(
    cwd: string,
    digest: (string, ToolInput) -> string,
    mode: string,
    interactive: bool)

  /** The remembered answers, as hashes of requests. */
  datatype Rules = Rules(
    sessionAllow: set<string>,
    sessionDeny: set<string>,
    persistentAllow: set<string>,
    persistentDeny: set<string>)

  /** What a process remembers for one session. */
  datatype Memory = Memory(allow: set<string>, deny: set<string>)

  // ----- the engine -----------------------------------------------------------------------------

  function RequestHash(st: Setting, toolName: string, input: ToolInput): string {
    "sha256:" + st.digest(toolName, input)
  }

  function ExtractPath(input: ToolInput): Option<string> {
    if "path" in input && input["path"].Str? then Some(input["path"].s)
    else if "base_path" in input && input["base_path"].Str? then Some(input["base_path"].s)
    else None
  }

  function RiskLabel(toolName: string): Risk {
    if toolName in SAFE_READ_TOOLS then SafeRead
    else if toolName == "Bash" then DangerousExec
    else UnknownRisk
  }

  predicate OutsideRoot(st: Setting, input: ToolInput) {
    var path := ExtractPath(input);
    path.Some? && !Workspace.IsInCwd(st.cwd, path.value)
  }

  function Decide(st: Setting, toolName: string, input: ToolInput): PermissionDecision {
    var hash := RequestHash(st, toolName, input);
    var risk := RiskLabel(toolName);
    if OutsideRoot(st, input) then
      PermissionDecision(st.mode, Deny, HardBoundary, 1, BoundarySource, risk, hash)
    else if (st.mode == "auto" || st.mode == "bypass") && toolName in SAFE_READ_TOOLS then
      PermissionDecision(st.mode, Allow, AutoSafe, 7, AutoLabel, SafeRead, hash)
    else if st.mode == "ask" && st.interactive then
      PermissionDecision(st.mode, Ask, ModeAsk, 5, ModeSource, risk, hash)
    else if st.mode == "ask" then
      PermissionDecision(st.mode, Deny, AskUnavailable, 6, ModeSource, risk, hash)
    else if st.mode == "auto" && (risk.DangerousExec? || risk.UnknownRisk?) && st.interactive then
      PermissionDecision(st.mode, Ask, AutoRequiresUser, 8, ModeSource, risk, hash)
    else
      PermissionDecision(st.mode, Deny, AskUnavailable, 9, ModeSource, risk, hash)
  }

  // ----- replay of remembered rules -----------------------------------------------------------

  function Replay(rules: Rules, d: PermissionDecision): PermissionDecision {
    if d.reason == HardBoundary then d
    else if d.requestHash in rules.sessionDeny then
      d.(verdict := Deny, reason := SessionRuleDeny, rank := 2, source := SessionRule)
    else if d.requestHash in rules.persistentDeny then
      d.(verdict := Deny, reason := PersistentRuleDeny, rank := 2, source := PersistentRule)
    else if d.requestHash in rules.sessionAllow then
      d.(verdict := Allow, reason := SessionRuleAllow, rank := 3, source := SessionRule)
    else if d.requestHash in rules.persistentAllow then
      d.(verdict := Allow, reason := PersistentRuleAllow, rank := 3, source := PersistentRule)
    else d
  }

  function Judge(st: Setting, rules: Rules, toolName: string, input: ToolInput): PermissionDecision {
    Replay(rules, Decide(st, toolName, input))
  }

  // ----- the user's answer ----------------------------------------------------------------------

  datatype Choice =
    | AllowOnce
    | AllowSession
    | AllowPersistent
    | DenyOnce
    | DenySession
    | DenyPersistent
    | NoChoice

  function ReadChoice(raw: Option<string>): Choice {
    var word := if raw.Some? then Text.Strip(raw.value) else "";
    if word == "allow_once" then AllowOnce
    else if word == "allow_session" then AllowSession
    else if word == "allow_persistent" then AllowPersistent
    else if word == "deny_once" then DenyOnce
    else if word == "deny_session" then DenySession
    else if word == "deny_persistent" then DenyPersistent
    else NoChoice
  }

  /** The decision after the user answered an ask; any other decision stands. */
  function Settle(d: PermissionDecision, choice: Choice): PermissionDecision {
    if !d.verdict.Ask? then d
    else
      match choice
      case AllowOnce | AllowSession | AllowPersistent => d.(verdict := Allow)
      case DenyOnce | DenySession | DenyPersistent => d.(verdict := Deny)
      case NoChoice =>
        d.(verdict := Deny, reason := AskUnavailable, rank := if d.mode == "ask" then 6 else 9, source := ModeSource)
  }

  /** The rules after the user answered an ask. */
  function Learn(rules: Rules, d: PermissionDecision, choice: Choice): Rules {
    if !d.verdict.Ask? then rules
    else
      match choice
      case AllowSession => rules.(sessionAllow := rules.sessionAllow + {d.requestHash})
      case DenySession => rules.(sessionDeny := rules.sessionDeny + {d.requestHash})
      case AllowPersistent => rules.(persistentAllow := rules.persistentAllow + {d.requestHash})
      case DenyPersistent => rules.(persistentDeny := rules.persistentDeny + {d.requestHash})
      case _ => rules
  }

  // ----- precedence: the judged decision is the first applicable row of a table ---------------

  datatype Row =
    | BoundaryRow
    | DenyRuleRow
    | AllowRuleRow
    | AskOpenRow
    | AskClosedRow
    | SafeRow
    | AutoAskRow
    | DefaultRow

  function Rank(row: Row): nat {
    match row
    case BoundaryRow => 1
    case DenyRuleRow => 2
    case AllowRuleRow => 3
    case AskOpenRow => 5
    case AskClosedRow => 6
    case SafeRow => 7
    case AutoAskRow => 8
    case DefaultRow => 9
  }

  function RowVerdict(row: Row): Verdict {
    match row
    case AllowRuleRow | SafeRow => Allow
    case AskOpenRow | AutoAskRow => Ask
    case _ => Deny
  }

  /** The reason a row gives; for the rule rows it says which set had the hash, the session's before the file's. */
  function RowReason(row: Row, rules: Rules, hash: string): Reason {
    match row
    case BoundaryRow => HardBoundary
    case DenyRuleRow => if hash in rules.sessionDeny then SessionRuleDeny else PersistentRuleDeny
    case AllowRuleRow => if hash in rules.sessionAllow then SessionRuleAllow else PersistentRuleAllow
    case AskOpenRow => ModeAsk
    case SafeRow => AutoSafe
    case AutoAskRow => AutoRequiresUser
    case AskClosedRow | DefaultRow => AskUnavailable
  }

  function SourceOf(reason: Reason): Source {
    match reason
    case HardBoundary => BoundarySource
    case SessionRuleDeny | SessionRuleAllow => SessionRule
    case PersistentRuleDeny | PersistentRuleAllow => PersistentRule
    case AutoSafe => AutoLabel
    case ModeAsk | AutoRequiresUser | AskUnavailable => ModeSource
  }

  predicate Applies(row: Row, st: Setting, rules: Rules, toolName: string, input: ToolInput) {
    var hash := RequestHash(st, toolName, input);
    match row
    case BoundaryRow => OutsideRoot(st, input)
    case DenyRuleRow => hash in rules.sessionDeny + rules.persistentDeny
    case AllowRuleRow => hash in rules.sessionAllow + rules.persistentAllow
    case AskOpenRow => st.mode == "ask" && st.interactive
    case AskClosedRow => st.mode == "ask" && !st.interactive
    case SafeRow => (st.mode == "auto" || st.mode == "bypass") && toolName in SAFE_READ_TOOLS
    case AutoAskRow => st.mode == "auto" && toolName !in SAFE_READ_TOOLS && st.interactive
    case DefaultRow => true
  }

  /**
   The decision after replay is that of the applicable row of lowest rank, whatever the order in
   which engine and replay look at the rows, and it asks only if someone can answer.
   */
  lemma JudgeIsFirstRow(st: Setting, rules: Rules, toolName: string, input: ToolInput)
    ensures var d := Judge(st, rules, toolName, input);
            && (exists row :: Applies(row, st, rules, toolName, input)
                              && Rank(row) == d.rank && RowVerdict(row) == d.verdict
                              && RowReason(row, rules, RequestHash(st, toolName, input)) == d.reason)
            && (forall row :: Applies(row, st, rules, toolName, input) ==> d.rank <= Rank(row))
            && (d.verdict.Ask? ==> st.interactive)
            && d.requestHash == RequestHash(st, toolName, input)
            && d.mode == st.mode && d.risk == RiskLabel(toolName) && d.source == SourceOf(d.reason)
  {
    var d := Judge(st, rules, toolName, input);
    var first :=
      if Applies(BoundaryRow, st, rules, toolName, input) then BoundaryRow
      else if Applies(DenyRuleRow, st, rules, toolName, input) then DenyRuleRow
      else if Applies(AllowRuleRow, st, rules, toolName, input) then AllowRuleRow
      else if Applies(AskOpenRow, st, rules, toolName, input) then AskOpenRow
      else if Applies(AskClosedRow, st, rules, toolName, input) then AskClosedRow
      else if Applies(SafeRow, st, rules, toolName, input) then SafeRow
      else if Applies(AutoAskRow, st, rules, toolName, input) then AutoAskRow
      else DefaultRow;
    assert Applies(first, st, rules, toolName, input) && Rank(first) == d.rank && RowVerdict(first) == d.verdict;
    assert RowReason(first, rules, RequestHash(st, toolName, input)) == d.reason;
  }

  // ----- what a decision says, read off the request -------------------------------------------

  /** The text that a request names as its path: `path`, or `base_path` when `path` is no text. */
  ghost predicate Names(input: ToolInput, path: string) {
    || ("path" in input && input["path"] == Str(path))
    || (!("path" in input && input["path"].Str?) && "base_path" in input && input["base_path"] == Str(path))
  }

  /**
   The boundary denies exactly the requests that name a path outside the workspace, at rank 1, whatever
   the mode, the rules and the tool.
   */
  lemma BoundaryIff(st: Setting, rules: Rules, toolName: string, input: ToolInput)
    ensures var d := Judge(st, rules, toolName, input);
            var outside := exists path :: Names(input, path) && !Workspace.IsInCwd(st.cwd, path);
            && (d.reason == HardBoundary <==> outside)
            && (d.rank == 1 <==> outside)
            && (outside ==> d.verdict == Deny && d.source == BoundarySource)
  {
    OutsideIff(st, input);
    BoundaryDecides(st, rules, toolName, input);
  }

  lemma BoundaryDecides(st: Setting, rules: Rules, toolName: string, input: ToolInput)
    ensures var d := Judge(st, rules, toolName, input);
            && (d.reason == HardBoundary <==> OutsideRoot(st, input))
            && (d.rank == 1 <==> OutsideRoot(st, input))
            && (OutsideRoot(st, input) ==> d.verdict == Deny && d.source == BoundarySource)
  {
  }

  lemma OutsideIff(st: Setting, input: ToolInput)
    ensures OutsideRoot(st, input) <==> exists path :: Names(input, path) && !Workspace.IsInCwd(st.cwd, path)
  {
    if "path" in input && input["path"].Str? {
      OnlyName(st, input, input["path"].s);
    } else if "base_path" in input && input["base_path"].Str? {
      OnlyName(st, input, input["base_path"].s);
    }
  }

  /** A request names at most one path, and that is the one that is tested. */
  lemma OnlyName(st: Setting, input: ToolInput, path: string)
    requires Names(input, path)
    ensures forall other :: Names(input, other) ==> other == path
    ensures OutsideRoot(st, input) <==> !Workspace.IsInCwd(st.cwd, path)
  {
  }

  /** The hash of a request is that of its tool and its input: requests share it exactly if their digests agree. */
  lemma HashIffDigest(st: Setting, rules: Rules, a: string, x: ToolInput, b: string, y: ToolInput)
    ensures Judge(st, rules, a, x).requestHash == "sha256:" + st.digest(a, x)
    ensures Judge(st, rules, a, x).requestHash == Judge(st, rules, b, y).requestHash <==> st.digest(a, x) == st.digest(b, y)
    ensures Judge(st, rules, a, x).requestHash != ""
  {
    HashOfJudged(st, rules, a, x);
    HashOfJudged(st, rules, b, y);
    PrefixedApart(st.digest(a, x), st.digest(b, y));
  }

  lemma HashOfJudged(st: Setting, rules: Rules, toolName: string, input: ToolInput)
    ensures Judge(st, rules, toolName, input).requestHash == "sha256:" + st.digest(toolName, input)
  {
  }

  lemma PrefixedApart(a: string, b: string)
    ensures "sha256:" + a == "sha256:" + b <==> a == b
  {
    assert ("sha256:" + a)[7..] == a && ("sha256:" + b)[7..] == b;
  }

  /** The risk of a request depends on its tool alone. */
  lemma RiskIsOfTool(st: Setting, rules: Rules, toolName: string, input: ToolInput)
    ensures var risk := Judge(st, rules, toolName, input).risk;
            && (risk == SafeRead <==> toolName == "Read" || toolName == "LS" || toolName == "Glob" || toolName == "Grep")
            && (risk == DangerousExec <==> toolName == "Bash")
  {
  }

  /** The rank says what the verdict is, why, and on whose word. */
  lemma RankSays(st: Setting, rules: Rules, toolName: string, input: ToolInput)
    ensures var d, hash := Judge(st, rules, toolName, input), "sha256:" + st.digest(toolName, input);
            match d.rank
            case 1 => d.verdict == Deny && d.reason == HardBoundary && d.source == BoundarySource
            case 2 =>
              d.verdict == Deny
              && if hash in rules.sessionDeny then d.reason == SessionRuleDeny && d.source == SessionRule
                 else d.reason == PersistentRuleDeny && d.source == PersistentRule
            case 3 =>
              d.verdict == Allow
              && if hash in rules.sessionAllow then d.reason == SessionRuleAllow && d.source == SessionRule
                 else d.reason == PersistentRuleAllow && d.source == PersistentRule
            case 5 => d.verdict == Ask && d.reason == ModeAsk && d.source == ModeSource
            case 7 => d.verdict == Allow && d.reason == AutoSafe && d.source == AutoLabel
            case 8 => d.verdict == Ask && d.reason == AutoRequiresUser && d.source == ModeSource
            case n => (n == 6 || n == 9) && d.verdict == Deny && d.reason == AskUnavailable && d.source == ModeSource
  {
  }

  /** Which rank a request has: exactly one of eight, from what it names, the four sets, the mode and the tool. */
  lemma RankIff(st: Setting, rules: Rules, toolName: string, input: ToolInput)
    ensures var rank, hash := Judge(st, rules, toolName, input).rank, "sha256:" + st.digest(toolName, input);
            var outside := exists path :: Names(input, path) && !Workspace.IsInCwd(st.cwd, path);
            var denied := hash in rules.sessionDeny || hash in rules.persistentDeny;
            var allowed := hash in rules.sessionAllow || hash in rules.persistentAllow;
            var open := !outside && !denied && !allowed;
            var safe := toolName == "Read" || toolName == "LS" || toolName == "Glob" || toolName == "Grep";
            && (rank == 1 <==> outside)
            && (rank == 2 <==> !outside && denied)
            && (rank == 3 <==> !outside && !denied && allowed)
            && (rank == 5 <==> open && st.mode == "ask" && st.interactive)
            && (rank == 6 <==> open && st.mode == "ask" && !st.interactive)
            && (rank == 7 <==> open && (st.mode == "auto" || st.mode == "bypass") && safe)
            && (rank == 8 <==> open && st.mode == "auto" && !safe && st.interactive)
            && (rank == 9 <==>
                open && st.mode != "ask" && !(safe && (st.mode == "auto" || st.mode == "bypass"))
                && !(st.mode == "auto" && st.interactive))
  {
    OutsideIff(st, input);
    HashOfJudged(st, rules, toolName, input);
  }

  /** An ask that is answered keeps everything but its verdict; one that is not is denied as if nobody could answer. */
  lemma AskIsSettled(st: Setting, rules: Rules, toolName: string, input: ToolInput, choice: Choice)
    requires Judge(st, rules, toolName, input).verdict == Ask
    ensures var asked, d := Judge(st, rules, toolName, input), Settle(Judge(st, rules, toolName, input), choice);
            && (if st.mode == "ask" then asked.rank == 5 && asked.reason == ModeAsk
                else st.mode == "auto" && asked.rank == 8 && asked.reason == AutoRequiresUser)
            && (d.verdict == Allow <==> choice in {AllowOnce, AllowSession, AllowPersistent})
            && (d.verdict == Deny <==> choice in {DenyOnce, DenySession, DenyPersistent, NoChoice})
            && (choice != NoChoice ==> d.(verdict := Ask) == asked)
            && (choice == NoChoice ==>
                  && d.rank == (if st.mode == "ask" then 6 else 9)
                  && d.reason == AskUnavailable && d.source == ModeSource
                  && d.requestHash == asked.requestHash && d.risk == asked.risk && d.mode == st.mode)
  {
  }

  // ----- the documented precedence table ----------------------------------------------------------

  /** The rows of the documentation, without its last one, a failure of the engine itself. */
  datatype DocumentedRow =
    | DocBoundary
    | DocDenyRule
    | DocAllowRule
    | DocBypass
    | DocAskOpen
    | DocAskClosed
    | DocAutoSafe
    | DocAutoOpen
    | DocAutoClosed

  function DocumentedRank(row: DocumentedRow): nat {
    match row
    case DocBoundary => 1
    case DocDenyRule => 2
    case DocAllowRule => 3
    case DocBypass => 4
    case DocAskOpen => 5
    case DocAskClosed => 6
    case DocAutoSafe => 7
    case DocAutoOpen => 8
    case DocAutoClosed => 9
  }

  function DocumentedVerdict(row: DocumentedRow): Verdict {
    match row
    case DocAllowRule | DocBypass | DocAutoSafe => Allow
    case DocAskOpen | DocAutoOpen => Ask
    case DocBoundary | DocDenyRule | DocAskClosed | DocAutoClosed => Deny
  }

  predicate DocumentedApplies(row: DocumentedRow, st: Setting, rules: Rules, toolName: string, input: ToolInput) {
    var hash, safe := RequestHash(st, toolName, input), RiskLabel(toolName).SafeRead?;
    match row
    case DocBoundary => OutsideRoot(st, input)
    case DocDenyRule => hash in rules.sessionDeny + rules.persistentDeny
    case DocAllowRule => hash in rules.sessionAllow + rules.persistentAllow
    case DocBypass => st.mode == "bypass"
    case DocAskOpen => st.mode == "ask" && st.interactive
    case DocAskClosed => st.mode == "ask" && !st.interactive
    case DocAutoSafe => st.mode == "auto" && safe
    case DocAutoOpen => st.mode == "auto" && !safe && st.interactive
    case DocAutoClosed => st.mode == "auto" && !safe && !st.interactive
  }

  /** The first row of the documentation that applies. */
  ghost predicate IsDocumented(row: DocumentedRow, st: Setting, rules: Rules, toolName: string, input: ToolInput) {
    && DocumentedApplies(row, st, rules, toolName, input)
    && forall other :: DocumentedApplies(other, st, rules, toolName, input) ==> DocumentedRank(row) <= DocumentedRank(other)
  }

  /** The boundary or a rule settles the request. */
  predicate Settled(st: Setting, rules: Rules, toolName: string, input: ToolInput) {
    OutsideRoot(st, input) || RequestHash(st, toolName, input) in Known(rules)
  }

  /**
   The code decides as the first applicable row of the documentation says, except for one family of
   requests: in bypass mode the documentation allows whatever nothing has settled, and the code
   allows only the safe read tools and denies the others at rank 9.
   */
  lemma DocumentedTableAgreesIff(
    st: Setting, rules: Rules, toolName: string, input: ToolInput, row: DocumentedRow)
    requires IsDocumented(row, st, rules, toolName, input)
    ensures var d := Judge(st, rules, toolName, input);
            var left := st.mode == "bypass" && !Settled(st, rules, toolName, input);
            && (d.verdict == DocumentedVerdict(row) <==> !(left && toolName !in SAFE_READ_TOOLS))
            && (d.rank == DocumentedRank(row) <==> !left)
            && (left && toolName !in SAFE_READ_TOOLS ==> d.verdict == Deny && d.rank == 9 && d.reason == AskUnavailable)
  {
    FirstDocumented(st, rules, toolName, input, row);
  }

  /** Which row is first, branch by branch. */
  lemma FirstDocumented(st: Setting, rules: Rules, toolName: string, input: ToolInput, row: DocumentedRow)
    requires IsDocumented(row, st, rules, toolName, input)
    ensures var hash := RequestHash(st, toolName, input);
            && (row == DocBoundary <==> OutsideRoot(st, input))
            && (row == DocDenyRule <==> !OutsideRoot(st, input) && hash in rules.sessionDeny + rules.persistentDeny)
            && (row == DocAllowRule <==>
                !OutsideRoot(st, input) && hash !in rules.sessionDeny + rules.persistentDeny
                && hash in rules.sessionAllow + rules.persistentAllow)
            && (row == DocBypass <==> !Settled(st, rules, toolName, input) && st.mode == "bypass")
  {
    assert DocumentedApplies(DocBoundary, st, rules, toolName, input) <==> OutsideRoot(st, input);
    assert DocumentedApplies(DocDenyRule, st, rules, toolName, input) ==> DocumentedRank(row) <= 2;
    assert DocumentedApplies(DocAllowRule, st, rules, toolName, input) ==> DocumentedRank(row) <= 3;
    assert DocumentedApplies(DocBypass, st, rules, toolName, input) ==> DocumentedRank(row) <= 4;
  }

  /** The documentation is silent exactly on unsettled requests in a mode it does not name; the code denies them. */
  lemma DocumentedTableIsSilentIff(st: Setting, rules: Rules, toolName: string, input: ToolInput)
    ensures var silent := forall row :: !DocumentedApplies(row, st, rules, toolName, input);
            var named := st.mode == "ask" || st.mode == "auto" || st.mode == "bypass";
            && (silent <==> !named && !Settled(st, rules, toolName, input))
            && (silent ==> Judge(st, rules, toolName, input).verdict == Deny && Judge(st, rules, toolName, input).rank == 9)
  {
    assert DocumentedApplies(DocBoundary, st, rules, toolName, input) <==> OutsideRoot(st, input);
    assert Settled(st, rules, toolName, input) <==>
           DocumentedApplies(DocBoundary, st, rules, toolName, input)
           || DocumentedApplies(DocDenyRule, st, rules, toolName, input)
           || DocumentedApplies(DocAllowRule, st, rules, toolName, input);
    assert st.mode == "ask" ==>
        DocumentedApplies(if st.interactive then DocAskOpen else DocAskClosed, st, rules, toolName, input);
    assert st.mode == "auto" ==>
             DocumentedApplies(
               if RiskLabel(toolName).SafeRead? then DocAutoSafe else if st.interactive then DocAutoOpen else DocAutoClosed,
               st, rules, toolName, input);
    assert st.mode == "bypass" ==> DocumentedApplies(DocBypass, st, rules, toolName, input);
  }

  /** Bash in bypass mode, without rules: documented as allowed, denied by the code. */
  lemma BypassDeniesBash(st: Setting)
    requires st.mode == "bypass"
    ensures var rules, input: ToolInput := Rules({}, {}, {}, {}), map[];
            && IsDocumented(DocBypass, st, rules, "Bash", input) && DocumentedVerdict(DocBypass) == Allow
            && Judge(st, rules, "Bash", input).verdict == Deny && Judge(st, rules, "Bash", input).rank == 9
  {
  }

  // ----- what one answer does to the rules ----------------------------------------------------

  predicate Disjoint(r: Rules) {
    r.sessionAllow !! r.sessionDeny !! r.persistentAllow !! r.persistentDeny
  }

  predicate Grows(a: Rules, b: Rules) {
    && a.sessionAllow <= b.sessionAllow
    && a.sessionDeny <= b.sessionDeny
    && a.persistentAllow <= b.persistentAllow
    && a.persistentDeny <= b.persistentDeny
  }

  function Known(r: Rules): set<string> {
    r.sessionAllow + r.sessionDeny + r.persistentAllow + r.persistentDeny
  }

  /** A hash is learned only while no set knows it, so the four sets stay disjoint and only grow. */
  lemma LearnKeepsDisjoint(st: Setting, rules: Rules, toolName: string, input: ToolInput, choice: Choice)
    ensures var d := Judge(st, rules, toolName, input);
            var after := Learn(rules, d, choice);
            && Grows(rules, after)
            && Known(after) <= Known(rules) + {RequestHash(st, toolName, input)}
            && (after != rules ==> RequestHash(st, toolName, input) !in Known(rules))
            && (Disjoint(rules) ==> Disjoint(after))
  {
  }

  /** A known hash is never asked about again inside the workspace: its set answers. */
  lemma KnownIsFinal(st: Setting, rules: Rules, toolName: string, input: ToolInput, choice: Choice)
    requires !OutsideRoot(st, input)
    requires RequestHash(st, toolName, input) in Known(rules)
    ensures var hash := RequestHash(st, toolName, input);
            var d := Judge(st, rules, toolName, input);
            && (d.verdict == Deny <==> hash in rules.sessionDeny + rules.persistentDeny)
            && (d.verdict == Allow <==> hash !in rules.sessionDeny + rules.persistentDeny)
            && Settle(d, choice) == d && Learn(rules, d, choice) == rules
  {
  }
}
