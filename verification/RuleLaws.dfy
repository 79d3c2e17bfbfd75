/** The remembered answers along a run: they are final, and the file of rules agrees with them. */
module RuleLaws {
  import opened Events
  import opened Policy
  import opened RuleStore
  import opened RunModel
  import opened TraceLaws
  import StreamAdapter
  import Workspace

  // ----- every call is judged by what was learned before it ---------------------------------------

  /**
   Each call is judged under the rules that the calls before it left, answered only if asked, and
   replied to by its tool if that is registered.
   */
  predicate Lawful(s: Script, segs: seq<Segment>) {
    segs == [] ||
    var front, seg := segs[..|segs| - 1], segs[|segs| - 1];
    && Lawful(s, front)
    && (seg.Lifecycle? ==> LawfulCall(s, RulesAfter(s.rules, front), seg))
  }

  predicate LawfulCall(s: Script, rules: Rules, seg: Segment)
    requires seg.Lifecycle?
  {
    && seg.judged == Judge(s.setting, rules, seg.call.toolName, seg.call.input)
    && (seg.judged.verdict != Ask ==> seg.choice == NoChoice)
    && seg.reply == (if seg.call.toolName in s.registry then s.tools(seg.call) else Status("error"))
  }

  lemma LawfulPush(s: Script, segs: seq<Segment>, seg: Segment)
    requires Lawful(s, segs)
    requires seg.Lifecycle? ==> LawfulCall(s, RulesAfter(s.rules, segs), seg)
    ensures Lawful(s, segs + [seg])
  {
    assert (segs + [seg])[..|segs|] == segs;
  }

  lemma LawfulSay(s: Script, p: Progress, kind: EventType, payload: Payload)
    requires Lawful(s, p.segs)
    ensures Lawful(s, Say(p, kind, payload).segs)
  {
    LawfulPush(s, p.segs, Single(Event(kind, "", payload)));
  }

  lemma LawfulConclude(s: Script, p: Progress, seg: Segment)
    requires Lawful(s, p.segs) && seg.Lifecycle?
    ensures Lawful(s, Conclude(p, seg).segs)
  {
    LawfulSay(s, p, SessionFailed, Failed("PERMISSION_DENIED"));
    LawfulSay(s, p, SessionFailed, Failed("TOOL_RUNTIME_FAILURE"));
  }

  lemma LawfulCallTool(s: Script, p: Progress, toolName: string, input: ToolInput)
    requires Lawful(s, p.segs)
    ensures Lawful(s, CallTool(s, p, toolName, input).segs)
  {
    var seg := CallSegment(s, p, toolName, input);
    LawfulPush(s, p.segs, seg);
    LawfulConclude(s, AfterCall(p, seg), seg);
  }

  lemma LawfulTake(s: Script, p: Progress, item: StreamAdapter.Adapted)
    requires Lawful(s, p.segs)
    ensures Lawful(s, Take(s, p, item).segs)
  {
    match item
    case AdaptedDelta(t) => LawfulSay(s, p, AssistantDelta, Text(t));
    case AdaptedMessage(t) => LawfulSay(s, p, AssistantMessage, Text(t));
    case AdaptedTool(n, i) => LawfulCallTool(s, p, n, i);
    case AdaptedBadTool =>
  }

  lemma {:induction false} LawfulTakeAll(s: Script, p: Progress, items: seq<StreamAdapter.Adapted>)
    requires Lawful(s, p.segs)
    ensures Lawful(s, TakeAll(s, p, items).segs)
  {
    if items != [] {
      LawfulTakeAll(s, p, items[..|items| - 1]);
      LawfulTake(s, TakeAll(s, p, items[..|items| - 1]), items[|items| - 1]);
    }
  }

  lemma LawfulOpening(s: Script)
    ensures Lawful(s, Opening(s).segs)
  {
    LawfulSay(s, Initial(s), if s.resumed then SessionResumed else SessionStart, Unread);
    if s.prompt.Some? {
      LawfulSay(s, Start(s), UserMessage, Text(s.prompt.value));
    }
  }

  lemma LawfulRecovered(s: Script, log: seq<Event>)
    ensures Lawful(s, Recovered(s, log).segs)
  {
    LawfulOpening(s);
    var p := Opening(s);
    if p.status == Running && s.resumed && RecoveryPlanAt(s, log).Some? {
      LawfulCallTool(s, p, RecoveryPlanAt(s, log).value.toolName, RecoveryPlanAt(s, log).value.input);
    }
  }

  lemma LawfulRun(s: Script, log: seq<Event>)
    ensures Lawful(s, Run(s, log).segs)
  {
    LawfulRecovered(s, log);
    if s.provider.Some? {
      LawfulTakeAll(s, Recovered(s, log), StreamAdapter.AdaptAll(StreamAdapter.Supported(s.provider.value)));
    }
    LawfulSay(s, Streamed(s, log), SessionFailed, Failed("MODEL_NO_MESSAGE"));
    LawfulSay(s, Streamed(s, log), SessionCompleted, Unread);
  }

  lemma {:induction false} LawfulAt(s: Script, segs: seq<Segment>, i: nat)
    requires Lawful(s, segs) && i < |segs|
    ensures Lawful(s, segs[..i])
    ensures segs[i].Lifecycle? ==> LawfulCall(s, RulesAfter(s.rules, segs[..i]), segs[i])
  {
    if i < |segs| - 1 {
      LawfulAt(s, segs[..|segs| - 1], i);
      assert segs[..|segs| - 1][..i] == segs[..i];
    }
  }

  /** In ask mode, a call that neither the boundary nor a rule settles is asked about exactly if someone can answer. */
  lemma UnsettledAsk(s: Script, rules: Rules, call: Segment)
    requires call.Lifecycle? && LawfulCall(s, rules, call) && s.setting.mode == "ask"
    requires !OutsideRoot(s.setting, call.call.input) && HashOf(s, call) !in Known(rules)
    ensures Event(ToolPermissionRequired, call.call.id, Unread) in SegmentEvents(call) <==> s.setting.interactive
    ensures !s.setting.interactive ==>
              && call.Decision().verdict == Deny && call.Decision().rank == 6
              && call.Decision().reason == AskUnavailable
  {
    AskedInEvents(call);
  }

  /** The question to the user is among a call's events exactly if the call was judged so. */
  lemma AskedInEvents(call: Segment)
    requires call.Lifecycle?
    ensures Event(ToolPermissionRequired, call.call.id, Unread) in SegmentEvents(call) <==> call.judged.verdict == Ask
  {
    if call.judged.verdict == Ask {
      assert SegmentEvents(call)[1] == Event(ToolPermissionRequired, call.call.id, Unread);
    }
  }

  // ----- the four sets ----------------------------------------------------------------------------

  function HashOf(s: Script, seg: Segment): string
    requires seg.Lifecycle?
  {
    RequestHash(s.setting, seg.call.toolName, seg.call.input)
  }

  lemma GrowsTransitive(a: Rules, b: Rules, c: Rules)
    requires Grows(a, b) && Grows(b, c)
    ensures Grows(a, c)
  {
  }

  /** One more segment: the sets grow, stay disjoint, and only an unknown hash is learned. */
  lemma RulesPush(rules: Rules, front: seq<Segment>, seg: Segment)
    ensures var before := RulesAfter(rules, front);
            RulesAfter(rules, front + [seg]) == if seg.Lifecycle? then Learn(before, seg.judged, seg.choice) else before
  {
    assert (front + [seg])[..|front|] == front;
  }

  lemma RulesStep(s: Script, front: seq<Segment>, seg: Segment)
    requires seg.Lifecycle? ==> LawfulCall(s, RulesAfter(s.rules, front), seg)
    ensures var before, after := RulesAfter(s.rules, front), RulesAfter(s.rules, front + [seg]);
            && Grows(before, after)
            && (Disjoint(before) ==> Disjoint(after))
            && (after != before ==> seg.Lifecycle? && HashOf(s, seg) !in Known(before))
            && after == if seg.Lifecycle? then Learn(before, seg.judged, seg.choice) else before
  {
    RulesPush(s.rules, front, seg);
    if seg.Lifecycle? {
      LearnKeepsDisjoint(s.setting, RulesAfter(s.rules, front), seg.call.toolName, seg.call.input, seg.choice);
    }
  }

  lemma {:induction false} RulesGrow(s: Script, segs: seq<Segment>, i: nat)
    requires Lawful(s, segs) && i <= |segs|
    ensures Grows(RulesAfter(s.rules, segs[..i]), RulesAfter(s.rules, segs))
    ensures Disjoint(s.rules) ==> Disjoint(RulesAfter(s.rules, segs))
  {
    if segs != [] {
      var front, seg := segs[..|segs| - 1], segs[|segs| - 1];
      RulesStep(s, front, seg);
      assert front + [seg] == segs;
      RulesGrow(s, front, if i < |segs| then i else 0);
      if i < |segs| {
        assert front[..i] == segs[..i];
        GrowsTransitive(RulesAfter(s.rules, segs[..i]), RulesAfter(s.rules, front), RulesAfter(s.rules, segs));
      } else {
        assert segs[..i] == segs;
      }
    }
  }

  lemma PrefixGrows(s: Script, segs: seq<Segment>, i: nat)
    requires Lawful(s, segs) && i <= |segs|
    ensures Grows(s.rules, RulesAfter(s.rules, segs[..i]))
  {
    LawfulPrefix(s, segs, i);
    RulesGrow(s, segs[..i], 0);
    assert segs[..i][..0] == [];
  }

  /** In a run that starts from disjoint sets they stay disjoint, and none ever loses a hash. */
  lemma RunKeepsDisjoint(s: Script, log: seq<Event>, i: nat, j: nat)
    requires Disjoint(s.rules) && i <= j <= |Run(s, log).segs|
    ensures var segs := Run(s, log).segs;
            && Disjoint(RulesAfter(s.rules, segs[..j]))
            && Grows(RulesAfter(s.rules, segs[..i]), RulesAfter(s.rules, segs[..j]))
  {
    var segs := Run(s, log).segs;
    LawfulRun(s, log);
    LawfulPrefix(s, segs, j);
    RulesGrow(s, segs[..j], i);
    assert segs[..j][..i] == segs[..i];
  }

  lemma LawfulPrefix(s: Script, segs: seq<Segment>, i: nat)
    requires Lawful(s, segs) && i <= |segs|
    ensures Lawful(s, segs[..i])
  {
    if i < |segs| {
      LawfulAt(s, segs, i);
    } else {
      assert segs[..i] == segs;
    }
  }

  /** The two rule sets have a hash in the same places. */
  predicate SamePlace(a: Rules, b: Rules, hash: string) {
    && (hash in a.sessionAllow <==> hash in b.sessionAllow)
    && (hash in a.sessionDeny <==> hash in b.sessionDeny)
    && (hash in a.persistentAllow <==> hash in b.persistentAllow)
    && (hash in a.persistentDeny <==> hash in b.persistentDeny)
  }

  lemma FrozenCall(s: Script, before: Rules, seg: Segment, hash: string)
    requires seg.Lifecycle? && LawfulCall(s, before, seg) && hash in Known(before)
    ensures SamePlace(before, Learn(before, seg.judged, seg.choice), hash)
  {
    if seg.judged.verdict == Ask {
      AskedIsUnknown(s, before, seg);
      JudgedHash(s, before, seg);
    }
  }

  lemma FrozenStep(s: Script, front: seq<Segment>, seg: Segment, hash: string)
    requires seg.Lifecycle? ==> LawfulCall(s, RulesAfter(s.rules, front), seg)
    requires hash in Known(RulesAfter(s.rules, front))
    ensures SamePlace(RulesAfter(s.rules, front), RulesAfter(s.rules, front + [seg]), hash)
  {
    RulesPush(s.rules, front, seg);
    if seg.Lifecycle? {
      FrozenCall(s, RulesAfter(s.rules, front), seg, hash);
    }
  }

  /** Where a known hash is, it stays, and nowhere else does it come. */
  lemma {:induction false} KnownIsFrozen(s: Script, segs: seq<Segment>, i: nat, hash: string)
    requires Lawful(s, segs) && i <= |segs| && hash in Known(RulesAfter(s.rules, segs[..i]))
    ensures SamePlace(RulesAfter(s.rules, segs[..i]), RulesAfter(s.rules, segs), hash)
  {
    if i < |segs| {
      var front := segs[..|segs| - 1];
      assert front[..i] == segs[..i];
      KnownIsFrozen(s, front, i, hash);
      assert segs == front + [segs[|segs| - 1]];
      FrozenStep(s, front, segs[|segs| - 1], hash);
    } else {
      assert segs[..i] == segs;
    }
  }

  /**
   Decision finality. Once any of the four sets knows a hash, every later call of the run with that
   hash inside the workspace is decided by the sets that know it, deny before allow, without asking
   again; whether the sets are disjoint does not matter.
   */
  lemma KnownStaysFinal(s: Script, log: seq<Event>, i: nat, j: nat)
    requires i <= j < |Run(s, log).segs| && Run(s, log).segs[j].Lifecycle?
    requires var call := Run(s, log).segs[j];
             && HashOf(s, call) in Known(RulesAfter(s.rules, Run(s, log).segs[..i]))
             && !OutsideRoot(s.setting, call.call.input)
    ensures var call, rules := Run(s, log).segs[j], RulesAfter(s.rules, Run(s, log).segs[..i]);
            && Asked(call) == [] && call.Decision() == call.judged
            && (call.judged.verdict == Deny <==> HashOf(s, call) in rules.sessionDeny + rules.persistentDeny)
            && (call.judged.verdict == Allow <==> HashOf(s, call) !in rules.sessionDeny + rules.persistentDeny)
  {
    var segs := Run(s, log).segs;
    LawfulRun(s, log);
    LawfulAt(s, segs, j);
    assert segs[..j][..i] == segs[..i];
    KnownIsFrozen(s, segs[..j], i, HashOf(s, segs[j]));
    LateVerdict(s, RulesAfter(s.rules, segs[..i]), RulesAfter(s.rules, segs[..j]), segs[j]);
  }

  lemma LateVerdict(s: Script, known: Rules, now: Rules, call: Segment)
    requires call.Lifecycle? && LawfulCall(s, now, call) && SamePlace(known, now, HashOf(s, call))
    requires HashOf(s, call) in Known(known) && !OutsideRoot(s.setting, call.call.input)
    ensures Asked(call) == [] && call.Decision() == call.judged
    ensures call.judged.verdict == Deny <==> HashOf(s, call) in known.sessionDeny + known.persistentDeny
    ensures call.judged.verdict == Allow <==> HashOf(s, call) !in known.sessionDeny + known.persistentDeny
  {
    KnownIsFinal(s.setting, now, call.call.toolName, call.call.input, call.choice);
  }

  /** From disjoint sets, the set that knows the hash decides, be it an allow set or a deny set. */
  lemma DisjointStaysFinal(s: Script, log: seq<Event>, i: nat, j: nat)
    requires Disjoint(s.rules) && i <= j < |Run(s, log).segs| && Run(s, log).segs[j].Lifecycle?
    requires var call := Run(s, log).segs[j];
             && HashOf(s, call) in Known(RulesAfter(s.rules, Run(s, log).segs[..i]))
             && !OutsideRoot(s.setting, call.call.input)
    ensures var call, rules := Run(s, log).segs[j], RulesAfter(s.rules, Run(s, log).segs[..i]);
            && (call.judged.verdict == Deny <==> HashOf(s, call) in rules.sessionDeny + rules.persistentDeny)
            && (call.judged.verdict == Allow <==> HashOf(s, call) in rules.sessionAllow + rules.persistentAllow)
  {
    KnownStaysFinal(s, log, i, j);
    RunKeepsDisjoint(s, log, 0, i);
  }

  predicate Remembered(choice: Choice) {
    choice.AllowSession? || choice.DenySession? || choice.AllowPersistent? || choice.DenyPersistent?
  }

  /** An answer that is to be remembered holds for the rest of the run, whatever the run started from. */
  lemma AnswerIsFinal(s: Script, log: seq<Event>, i: nat, j: nat)
    requires i < j < |Run(s, log).segs|
    requires Run(s, log).segs[i].Lifecycle? && Run(s, log).segs[j].Lifecycle?
    requires var first := Run(s, log).segs[i]; first.judged.verdict == Ask && Remembered(first.choice)
    requires var later := Run(s, log).segs[j];
             HashOf(s, later) == HashOf(s, Run(s, log).segs[i]) && !OutsideRoot(s.setting, later.call.input)
    ensures Asked(Run(s, log).segs[j]) == []
    ensures Run(s, log).segs[j].Decision().verdict == Run(s, log).segs[i].Decision().verdict
  {
    LearnedInRun(s, log, i);
    KnownStaysFinal(s, log, i + 1, j);
  }

  lemma LearnedInRun(s: Script, log: seq<Event>, i: nat)
    requires i < |Run(s, log).segs| && Run(s, log).segs[i].Lifecycle?
    requires var seg := Run(s, log).segs[i]; seg.judged.verdict == Ask && Remembered(seg.choice)
    ensures var seg, after := Run(s, log).segs[i], RulesAfter(s.rules, Run(s, log).segs[..i + 1]);
            && HashOf(s, seg) in Known(after)
            && (seg.Decision().verdict == Deny <==> HashOf(s, seg) in after.sessionDeny + after.persistentDeny)
            && (seg.Decision().verdict == Allow <==> HashOf(s, seg) !in after.sessionDeny + after.persistentDeny)
  {
    LawfulRun(s, log);
    LearnedAt(s, Run(s, log).segs, i);
  }

  lemma LearnedAt(s: Script, segs: seq<Segment>, i: nat)
    requires Lawful(s, segs) && i < |segs| && segs[i].Lifecycle?
    requires segs[i].judged.verdict == Ask && Remembered(segs[i].choice)
    ensures var seg, after := segs[i], RulesAfter(s.rules, segs[..i + 1]);
            && HashOf(s, seg) in Known(after)
            && (seg.Decision().verdict == Deny <==> HashOf(s, seg) in after.sessionDeny + after.persistentDeny)
            && (seg.Decision().verdict == Allow <==> HashOf(s, seg) !in after.sessionDeny + after.persistentDeny)
  {
    LawfulAt(s, segs, i);
    assert segs[..i] + [segs[i]] == segs[..i + 1];
    RulesPush(s.rules, segs[..i], segs[i]);
    LearnedHash(s, RulesAfter(s.rules, segs[..i]), segs[i]);
  }

  lemma LearnedHash(s: Script, before: Rules, seg: Segment)
    requires seg.Lifecycle? && LawfulCall(s, before, seg) && seg.judged.verdict == Ask && Remembered(seg.choice)
    ensures var after, hash := Learn(before, seg.judged, seg.choice), HashOf(s, seg);
            && hash in Known(after)
            && (seg.Decision().verdict == Deny <==> hash in after.sessionDeny + after.persistentDeny)
            && (seg.Decision().verdict == Allow <==> hash !in after.sessionDeny + after.persistentDeny)
  {
    AskedIsUnknown(s, before, seg);
    JudgedHash(s, before, seg);
  }

  /** What the rule file denies at the start of a run is denied throughout it, session rules or not. */
  lemma PersistentDenyHolds(s: Script, log: seq<Event>, i: nat)
    requires i < |Run(s, log).segs| && Run(s, log).segs[i].Lifecycle?
    requires HashOf(s, Run(s, log).segs[i]) in s.rules.persistentDeny
    ensures var call := Run(s, log).segs[i]; !call.Allowed() && call.Decision().verdict == Deny && Asked(call) == []
  {
    var segs := Run(s, log).segs;
    LawfulRun(s, log);
    LawfulAt(s, segs, i);
    RulesGrow(s, segs[..i], 0);
    DenyBinds(s, RulesAfter(s.rules, segs[..i]), segs[i]);
  }

  lemma DenyBinds(s: Script, rules: Rules, call: Segment)
    requires call.Lifecycle? && LawfulCall(s, rules, call) && HashOf(s, call) in rules.persistentDeny
    ensures !call.Allowed() && call.Decision().verdict == Deny && Asked(call) == []
  {
  }

  // ----- the sets are the answers ---------------------------------------------------------------

  /** The user was asked about a request with this digest, and answered this way. */
  predicate Told(s: Script, seg: Segment, digest: string, choice: Choice) {
    && seg.Lifecycle? && seg.judged.verdict == Ask && seg.choice == choice
    && s.setting.digest(seg.call.toolName, seg.call.input) == digest
  }

  ghost predicate WasTold(s: Script, segs: seq<Segment>, digest: string, choice: Choice) {
    exists i :: 0 <= i < |segs| && Told(s, segs[i], digest, choice)
  }

  lemma WasToldPush(s: Script, front: seq<Segment>, seg: Segment, digest: string, choice: Choice)
    ensures WasTold(s, front + [seg], digest, choice) <==> WasTold(s, front, digest, choice) || Told(s, seg, digest, choice)
  {
    var segs := front + [seg];
    assert segs[|front|] == seg;
    if i :| 0 <= i < |front| && Told(s, front[i], digest, choice) {
      assert segs[i] == front[i];
    }
  }

  /** One segment more: each set gains the hash exactly if the user said so now. */
  lemma ToldStep(s: Script, before: Rules, seg: Segment, digest: string)
    requires seg.Lifecycle? ==> LawfulCall(s, before, seg)
    ensures var after, hash := if seg.Lifecycle? then Learn(before, seg.judged, seg.choice) else before, "sha256:" + digest;
            && (hash in after.sessionAllow <==> hash in before.sessionAllow || Told(s, seg, digest, AllowSession))
            && (hash in after.sessionDeny <==> hash in before.sessionDeny || Told(s, seg, digest, DenySession))
            && (hash in after.persistentAllow <==> hash in before.persistentAllow || Told(s, seg, digest, AllowPersistent))
            && (hash in after.persistentDeny <==> hash in before.persistentDeny || Told(s, seg, digest, DenyPersistent))
  {
    if seg.Lifecycle? {
      HashOfJudged(s.setting, before, seg.call.toolName, seg.call.input);
      PrefixedApart(s.setting.digest(seg.call.toolName, seg.call.input), digest);
    }
  }

  /**
   What is remembered is what the user answered: after any calls, a hash is in one of the four sets
   exactly if it was there at the start, or the user gave the answer of that set to a question about a
   request with that digest.
   */
  lemma {:induction false} SetsAreAnswers(s: Script, segs: seq<Segment>, digest: string)
    requires Lawful(s, segs)
    ensures var r, hash := RulesAfter(s.rules, segs), "sha256:" + digest;
            && (hash in r.sessionAllow <==> hash in s.rules.sessionAllow || WasTold(s, segs, digest, AllowSession))
            && (hash in r.sessionDeny <==> hash in s.rules.sessionDeny || WasTold(s, segs, digest, DenySession))
            && (hash in r.persistentAllow <==> hash in s.rules.persistentAllow || WasTold(s, segs, digest, AllowPersistent))
            && (hash in r.persistentDeny <==> hash in s.rules.persistentDeny || WasTold(s, segs, digest, DenyPersistent))
  {
    if segs != [] {
      var front, seg := segs[..|segs| - 1], segs[|segs| - 1];
      SetsAreAnswers(s, front, digest);
      ToldStep(s, RulesAfter(s.rules, front), seg, digest);
      RulesPush(s.rules, front, seg);
      WasToldPush(s, front, seg, digest, AllowSession);
      WasToldPush(s, front, seg, digest, DenySession);
      WasToldPush(s, front, seg, digest, AllowPersistent);
      WasToldPush(s, front, seg, digest, DenyPersistent);
      assert front + [seg] == segs;
    }
  }

  /** The rows that a run appends are the answers for good, each in its word. */
  lemma {:induction false} RowsAreAnswers(s: Script, segs: seq<Segment>, digest: string)
    requires Lawful(s, segs)
    ensures RuleRow("sha256:" + digest, "allow") in RowsOf(segs) <==> WasTold(s, segs, digest, AllowPersistent)
    ensures RuleRow("sha256:" + digest, "deny") in RowsOf(segs) <==> WasTold(s, segs, digest, DenyPersistent)
  {
    if segs != [] {
      var front, seg := segs[..|segs| - 1], segs[|segs| - 1];
      RowsAreAnswers(s, front, digest);
      WasToldPush(s, front, seg, digest, AllowPersistent);
      WasToldPush(s, front, seg, digest, DenyPersistent);
      if seg.Lifecycle? {
        RowIsAnswer(s, RulesAfter(s.rules, front), seg, digest);
      }
      assert front + [seg] == segs;
    }
  }

  lemma RowIsAnswer(s: Script, rules: Rules, seg: Segment, digest: string)
    requires seg.Lifecycle? && LawfulCall(s, rules, seg)
    ensures RuleRow("sha256:" + digest, "allow") in LearnedRows(seg.judged, seg.choice) <==>
            Told(s, seg, digest, AllowPersistent)
    ensures RuleRow("sha256:" + digest, "deny") in LearnedRows(seg.judged, seg.choice) <==>
            Told(s, seg, digest, DenyPersistent)
  {
    HashOfJudged(s.setting, rules, seg.call.toolName, seg.call.input);
    PrefixedApart(s.setting.digest(seg.call.toolName, seg.call.input), digest);
  }

  /** An earlier call of the run with this digest got an answer that is to be remembered. */
  ghost predicate WasAnswered(s: Script, segs: seq<Segment>, j: nat, digest: string)
    requires j <= |segs|
  {
    exists i :: 0 <= i < j && segs[i].Lifecycle? && segs[i].judged.verdict == Ask && Remembered(segs[i].choice)
                && s.setting.digest(segs[i].call.toolName, segs[i].call.input) == digest
  }

  lemma AnsweredIsTold(s: Script, segs: seq<Segment>, j: nat, digest: string)
    requires j <= |segs|
    ensures WasAnswered(s, segs, j, digest) <==>
            exists choice :: Remembered(choice) && WasTold(s, segs[..j], digest, choice)
  {
    if choice :| Remembered(choice) && WasTold(s, segs[..j], digest, choice) {
      var i :| 0 <= i < j && Told(s, segs[..j][i], digest, choice);
      assert segs[..j][i] == segs[i];
    }
    if WasAnswered(s, segs, j, digest) {
      var i :| 0 <= i < j && segs[i].Lifecycle? && segs[i].judged.verdict == Ask && Remembered(segs[i].choice)
               && s.setting.digest(segs[i].call.toolName, segs[i].call.input) == digest;
      assert Told(s, segs[..j][i], digest, segs[i].choice);
    }
  }

  /** A call inside the workspace is settled by a rule exactly if its hash is known. */
  lemma RuledIffKnown(s: Script, rules: Rules, call: Segment, digest: string)
    requires call.Lifecycle? && LawfulCall(s, rules, call) && !OutsideRoot(s.setting, call.call.input)
    requires digest == s.setting.digest(call.call.toolName, call.call.input)
    ensures call.judged.source in {SessionRule, PersistentRule} <==>
            "sha256:" + digest in rules.sessionAllow + rules.sessionDeny + rules.persistentAllow + rules.persistentDeny
    ensures call.judged.source in {SessionRule, PersistentRule} <==> call.judged.rank == 2 || call.judged.rank == 3
  {
    HashOfJudged(s.setting, rules, call.call.toolName, call.call.input);
  }

  /**
   What an answer covers. A call of a run, inside the workspace, is settled by a rule exactly if its
   hash was known when the run began, or an earlier call of the run with the same digest got an answer
   that is to be remembered.
   */
  lemma RuledIffAnswered(s: Script, log: seq<Event>, j: nat)
    requires j < |Run(s, log).segs| && Run(s, log).segs[j].Lifecycle?
    requires forall path :: Names(Run(s, log).segs[j].call.input, path) ==> Workspace.IsInCwd(s.setting.cwd, path)
    ensures var segs := Run(s, log).segs;
            var digest := s.setting.digest(segs[j].call.toolName, segs[j].call.input);
            segs[j].judged.source in {SessionRule, PersistentRule} <==>
              || "sha256:" + digest in
                 s.rules.sessionAllow + s.rules.sessionDeny + s.rules.persistentAllow + s.rules.persistentDeny
              || WasAnswered(s, segs, j, digest)
  {
    LawfulRun(s, log);
    OutsideIff(s.setting, Run(s, log).segs[j].call.input);
    RuledIffAnsweredAt(s, Run(s, log).segs, j);
  }

  lemma RuledIffAnsweredAt(s: Script, segs: seq<Segment>, j: nat)
    requires Lawful(s, segs) && j < |segs| && segs[j].Lifecycle? && !OutsideRoot(s.setting, segs[j].call.input)
    ensures var digest := s.setting.digest(segs[j].call.toolName, segs[j].call.input);
            segs[j].judged.source in {SessionRule, PersistentRule} <==>
              || "sha256:" + digest in
                 s.rules.sessionAllow + s.rules.sessionDeny + s.rules.persistentAllow + s.rules.persistentDeny
              || WasAnswered(s, segs, j, digest)
  {
    var digest := s.setting.digest(segs[j].call.toolName, segs[j].call.input);
    LawfulAt(s, segs, j);
    RuledIffKnown(s, RulesAfter(s.rules, segs[..j]), segs[j], digest);
    SetsAreAnswers(s, segs[..j], digest);
    AnsweredIsTold(s, segs, j, digest);
    RememberedChoices(s, segs[..j], digest);
  }

  lemma RememberedChoices(s: Script, segs: seq<Segment>, digest: string)
    ensures (exists choice :: Remembered(choice) && WasTold(s, segs, digest, choice)) <==>
              || WasTold(s, segs, digest, AllowSession) || WasTold(s, segs, digest, DenySession)
              || WasTold(s, segs, digest, AllowPersistent) || WasTold(s, segs, digest, DenyPersistent)
  {
  }

  /** A call that names a path outside the workspace is denied unasked and never starts, whatever was answered before. */
  lemma OutsideNeverRuns(s: Script, log: seq<Event>, i: nat, path: string)
    requires i < |Run(s, log).segs| && Run(s, log).segs[i].Lifecycle?
    requires Names(Run(s, log).segs[i].call.input, path) && !Workspace.IsInCwd(s.setting.cwd, path)
    ensures var call := Run(s, log).segs[i];
            && call.Decision().verdict == Deny && call.Decision().rank == 1 && call.Decision().reason == HardBoundary
            && forall e :: e in SegmentEvents(call) ==> !e.kind.ToolPermissionRequired? && !e.kind.ToolExecutionStarted?
  {
    LawfulRun(s, log);
    LawfulAt(s, Run(s, log).segs, i);
    OutsideStops(s, RulesAfter(s.rules, Run(s, log).segs[..i]), Run(s, log).segs[i], path);
  }

  lemma OutsideStops(s: Script, rules: Rules, call: Segment, path: string)
    requires call.Lifecycle? && LawfulCall(s, rules, call)
    requires Names(call.call.input, path) && !Workspace.IsInCwd(s.setting.cwd, path)
    ensures call.Decision().verdict == Deny && call.Decision().rank == 1 && call.Decision().reason == HardBoundary
    ensures forall e :: e in SegmentEvents(call) ==> !e.kind.ToolPermissionRequired? && !e.kind.ToolExecutionStarted?
  {
    OnlyName(s.setting, call.call.input, path);
    BoundaryDecides(s.setting, rules, call.call.toolName, call.call.input);
  }

  // ----- the rule file ----------------------------------------------------------------------------

  /** The two persistent sets are what reading the file gives. */
  predicate Agrees(r: Rules, rows: seq<RuleRow>) {
    r.persistentAllow == Hashes(rows, "allow") && r.persistentDeny == Hashes(rows, "deny")
  }

  /** Every row has a hash and a decision, and no hash has two rows. */
  predicate Tidy(rows: seq<RuleRow>) {
    && (forall a :: 0 <= a < |rows| ==>
          rows[a].requestHash != "" && (rows[a].decision == "allow" || rows[a].decision == "deny"))
    && (forall a, b :: 0 <= a < b < |rows| ==> rows[a].requestHash != rows[b].requestHash)
  }

  lemma HashesOfRow(hash: string, decision: string, wanted: string)
    requires hash != ""
    ensures Hashes([RuleRow(hash, decision)], wanted) == if decision == wanted then {hash} else {}
  {
  }

  lemma HashesOfNone(wanted: string)
    ensures Hashes([], wanted) == {}
  {
  }

  /** The rows of one answer say what the answer adds to the sets. */
  lemma LearnAgrees(r: Rules, rows: seq<RuleRow>, d: PermissionDecision, choice: Choice)
    requires Agrees(r, rows) && d.requestHash != ""
    ensures Agrees(Learn(r, d, choice), rows + LearnedRows(d, choice))
  {
    var more := LearnedRows(d, choice);
    HashesOfConcat(rows, more, "allow");
    HashesOfConcat(rows, more, "deny");
    HashesOfRow(d.requestHash, "allow", "allow");
    HashesOfRow(d.requestHash, "allow", "deny");
    HashesOfRow(d.requestHash, "deny", "allow");
    HashesOfRow(d.requestHash, "deny", "deny");
    HashesOfNone("allow");
    HashesOfNone("deny");
  }

  lemma JudgedHash(s: Script, rules: Rules, seg: Segment)
    requires seg.Lifecycle? && LawfulCall(s, rules, seg)
    ensures seg.judged.requestHash == HashOf(s, seg) && HashOf(s, seg) != ""
  {
  }

  lemma {:induction false} AgreesStep(s: Script, rows: seq<RuleRow>, front: seq<Segment>, seg: Segment)
    requires seg.Lifecycle? ==> LawfulCall(s, RulesAfter(s.rules, front), seg)
    requires Agrees(RulesAfter(s.rules, front), rows + RowsOf(front))
    ensures Agrees(RulesAfter(s.rules, front + [seg]), rows + RowsOf(front + [seg]))
  {
    assert (front + [seg])[..|front|] == front;
    if seg.Lifecycle? {
      JudgedHash(s, RulesAfter(s.rules, front), seg);
      LearnAgrees(RulesAfter(s.rules, front), rows + RowsOf(front), seg.judged, seg.choice);
      assert rows + RowsOf(front) + LearnedRows(seg.judged, seg.choice) == rows + RowsOf(front + [seg]);
    } else {
      assert RowsOf(front + [seg]) == RowsOf(front);
    }
  }

  lemma {:induction false} AgreesAlong(s: Script, rows: seq<RuleRow>, segs: seq<Segment>)
    requires Lawful(s, segs) && Agrees(s.rules, rows)
    ensures Agrees(RulesAfter(s.rules, segs), rows + RowsOf(segs))
  {
    if segs == [] {
      assert rows + [] == rows;
    } else {
      var front, seg := segs[..|segs| - 1], segs[|segs| - 1];
      AgreesAlong(s, rows, front);
      AgreesStep(s, rows, front, seg);
      assert front + [seg] == segs;
    }
  }

  /** Cache agrees with log: after every call, the sets are what reading the file again would give. */
  lemma CacheAgreesWithFile(s: Script, log: seq<Event>, rows: seq<RuleRow>, i: nat)
    requires Agrees(s.rules, rows) && i <= |Run(s, log).segs|
    ensures Agrees(RulesAfter(s.rules, Run(s, log).segs[..i]), rows + RowsOf(Run(s, log).segs[..i]))
  {
    LawfulRun(s, log);
    LawfulPrefix(s, Run(s, log).segs, i);
    AgreesAlong(s, rows, Run(s, log).segs[..i]);
  }

  lemma TidyPush(rows: seq<RuleRow>, hash: string, decision: string)
    requires Tidy(rows) && hash != "" && (decision == "allow" || decision == "deny")
    requires hash !in Hashes(rows, "allow") && hash !in Hashes(rows, "deny")
    ensures Tidy(rows + [RuleRow(hash, decision)])
  {
    forall a | 0 <= a < |rows|
      ensures rows[a].requestHash != hash
    {
      assert RuleRow(rows[a].requestHash, rows[a].decision) == rows[a];
      assert rows[a] in rows;
    }
  }

  lemma TidyStep(s: Script, rules: Rules, rows: seq<RuleRow>, seg: Segment)
    requires seg.Lifecycle? && LawfulCall(s, rules, seg) && Agrees(rules, rows) && Tidy(rows)
    ensures Tidy(rows + LearnedRows(seg.judged, seg.choice))
  {
    JudgedHash(s, rules, seg);
    var hash := HashOf(s, seg);
    if seg.judged.verdict == Ask {
      AskedIsUnknown(s, rules, seg);
      TidyPush(rows, hash, "allow");
      TidyPush(rows, hash, "deny");
    }
    assert rows + [] == rows;
  }

  lemma AskedIsUnknown(s: Script, rules: Rules, seg: Segment)
    requires seg.Lifecycle? && LawfulCall(s, rules, seg) && seg.judged.verdict == Ask
    ensures HashOf(s, seg) !in Known(rules)
  {
  }

  /** The file never gets two rows for one hash, hence never contradicts itself. */
  lemma {:induction false} FileStaysTidy(s: Script, rows: seq<RuleRow>, segs: seq<Segment>)
    requires Lawful(s, segs) && Agrees(s.rules, rows) && Tidy(rows)
    ensures Tidy(rows + RowsOf(segs))
  {
    if segs == [] {
      assert rows + [] == rows;
    } else {
      var front, seg := segs[..|segs| - 1], segs[|segs| - 1];
      FileStaysTidy(s, rows, front);
      AgreesAlong(s, rows, front);
      if seg.Lifecycle? {
        TidyStep(s, RulesAfter(s.rules, front), rows + RowsOf(front), seg);
        assert rows + RowsOf(front) + LearnedRows(seg.judged, seg.choice) == rows + RowsOf(segs);
      } else {
        assert RowsOf(segs) == RowsOf(front);
      }
    }
  }

  lemma {:induction false} PrefixStaysTidy(s: Script, rows: seq<RuleRow>, segs: seq<Segment>, n: nat)
    requires Lawful(s, segs) && n <= |segs| && Agrees(s.rules, rows) && Tidy(rows)
    ensures Tidy(rows + RowsOf(segs[..n]))
  {
    LawfulPrefix(s, segs, n);
    FileStaysTidy(s, rows, segs[..n]);
  }

  lemma TidyIsConsistent(rows: seq<RuleRow>)
    requires Tidy(rows)
    ensures Hashes(rows, "allow") !! Hashes(rows, "deny")
  {
  }
}
