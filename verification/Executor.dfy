/** The tool executor: one call, from its request to its finish, and the rules it learns. */
module Executor {
  import opened Wrappers
  import opened Events
  import opened TurnFsm
  import opened Policy
  import opened RuleStore
  import opened RunModel
  import opened Stopping
  import opened Emitter

  /** A Python set of hashes: an object, which several holders may share. */
  class HashCell {
    var hashes: set<string>

    constructor (hashes: set<string>)
      ensures this.hashes == hashes
    {
      this.hashes := hashes;
    }
  }

  /** The queues of the user's permission answers, consumed call by call. */
  class PermissionInbox {
    var queues: Queues

    constructor ()
      ensures queues == map[]
    {
      queues := map[];
    }

    method Load(messages: seq<ControlMessage>)
      modifies this
      ensures queues == LoadQueues(messages)
    {
      queues := map[];
      var i := 0;
      while i < |messages|
        invariant 0 <= i <= |messages|
        invariant queues == LoadQueues(messages[..i])
      {
        var m := messages[i];
        assert messages[..i + 1][..i] == messages[..i];
        i := i + 1;
        if !m.PermissionAnswer? {
          continue;
        }
        if m.toolCallId == "" {
          continue;
        }
        var queue := if m.toolCallId in queues then queues[m.toolCallId] else [];
        queues := queues[m.toolCallId := queue + [m.decision]];
      }
      assert messages[..i] == messages;
    }

    method Consume(id: string) returns (answer: Option<string>)
      modifies this
      ensures answer == Front(old(queues), id)
      ensures queues == Dequeue(old(queues), id)
      ensures id in old(queues) && old(queues)[id] != [] ==>
                answer == Some(old(queues)[id][0]) && Queued(queues, id) == old(queues)[id][1..]
      ensures id !in old(queues) || old(queues)[id] == [] ==> answer == None && queues == old(queues)
      ensures forall other :: other != id ==> Queued(queues, other) == Queued(old(queues), other)
    {
      if id !in queues || queues[id] == [] {
        return None;
      }
      var queue := queues[id];
      answer := Some(queue[0]);
      queue := queue[1..];
      if queue == [] {
        queues := queues - {id};
      } else {
        queues := queues[id := queue];
      }
    }
  }

  datatype ExecutionOutcome = ExecutionOutcome(status: string, decision: PermissionDecision)

  class ToolExecutor {
    const emitter: EventEmitter
    const inbox: PermissionInbox
    const decide: (string, ToolInput) -> PermissionDecision  // the permission engine
    const registry: set<string>
    const tools: Call -> ToolReply
    var sessionAllow: HashCell
    var sessionDeny: HashCell
    var persistentAllow: HashCell
    var persistentDeny: HashCell
    var ruleStore: PermissionRuleStore

    constructor (emitter: EventEmitter, inbox: PermissionInbox, decide: (string, ToolInput) -> PermissionDecision,
                 registry: set<string>, tools: Call -> ToolReply, ruleStore: PermissionRuleStore)
      ensures this.emitter == emitter && this.inbox == inbox && this.decide == decide
      ensures this.registry == registry && this.tools == tools
      ensures this.ruleStore == ruleStore
      ensures RulesNow() == Rules({}, {}, {}, {})
      ensures Apart() && fresh(Cells())
    {
      this.emitter, this.inbox, this.decide, this.registry, this.tools := emitter, inbox, decide, registry, tools;
      this.ruleStore := ruleStore;
      sessionAllow := new HashCell({});
      sessionDeny := new HashCell({});
      persistentAllow := new HashCell({});
      persistentDeny := new HashCell({});
    }

    function Cells(): set<HashCell>
      reads this
    {
      {sessionAllow, sessionDeny, persistentAllow, persistentDeny}
    }

    /** No two of the four sets are one object. */
    predicate Apart()
      reads this
    {
      && sessionAllow != sessionDeny && sessionAllow != persistentAllow && sessionAllow != persistentDeny
      && sessionDeny != persistentAllow && sessionDeny != persistentDeny && persistentAllow != persistentDeny
    }

    function RulesNow(): Rules
      reads this, Cells()
    {
      Rules(sessionAllow.hashes, sessionDeny.hashes, persistentAllow.hashes, persistentDeny.hashes)
    }

    method BindSessionReplayState(allow: HashCell, deny: HashCell)
      modifies this`sessionAllow, this`sessionDeny
      ensures sessionAllow == allow && sessionDeny == deny
    {
      sessionAllow, sessionDeny := allow, deny;
    }

    method BindPersistentReplayState(allow: HashCell, deny: HashCell, ruleStore: PermissionRuleStore)
      modifies this`persistentAllow, this`persistentDeny, this`ruleStore
      ensures persistentAllow == allow && persistentDeny == deny && this.ruleStore == ruleStore
    {
      persistentAllow, persistentDeny, this.ruleStore := allow, deny, ruleStore;
    }

    /** The lifecycle that a call will have, given the rules and answers at hand. */
    function Plan(call: Call): Segment
      reads this, Cells(), inbox
    {
      var judged := Replay(RulesNow(), decide(call.toolName, call.input));
      Lifecycle(
        call,
        judged,
        if judged.verdict == Ask then ReadChoice(Front(inbox.queues, call.id)) else NoChoice,
        if call.toolName in registry then tools(call) else Status("error"))
    }

    method ApplySessionReplay(d: PermissionDecision) returns (r: PermissionDecision)
      ensures r == Replay(RulesNow(), d)
    {
      if d.reason == HardBoundary {
        return d;
      }
      if d.requestHash in sessionDeny.hashes {
        return d.(verdict := Deny, reason := SessionRuleDeny, rank := 2, source := SessionRule);
      }
      if d.requestHash in persistentDeny.hashes {
        return d.(verdict := Deny, reason := PersistentRuleDeny, rank := 2, source := PersistentRule);
      }
      if d.requestHash in sessionAllow.hashes {
        return d.(verdict := Allow, reason := SessionRuleAllow, rank := 3, source := SessionRule);
      }
      if d.requestHash in persistentAllow.hashes {
        return d.(verdict := Allow, reason := PersistentRuleAllow, rank := 3, source := PersistentRule);
      }
      return d;
    }

    /** The ask branch: maps the answer to a decision and remembers it where it says. */
    method Answer(d: PermissionDecision, raw: Option<string>) returns (r: Outcome<PermissionDecision>)
      requires Apart() && d.verdict == Ask
      modifies Cells(), ruleStore
      ensures r.Returned? ==> r.value == Settle(d, ReadChoice(raw))
      ensures r.Returned? ==> RulesNow() == Learn(old(RulesNow()), d, ReadChoice(raw))
      ensures r.Returned? ==>
                ruleStore.rows == old(ruleStore.rows) + if ruleStore.enabled then LearnedRows(d, ReadChoice(raw)) else []
      ensures r.Threw? ==> r.cause == External && ruleStore.rows == old(ruleStore.rows)
      ensures r.Threw? ==> RulesNow() == Learn(old(RulesNow()), d, ReadChoice(raw))
    {
      var choice := ReadChoice(raw);
      var hash := d.requestHash;
      var s := Ok;
      match choice {
        case AllowOnce => r := Returned(d.(verdict := Allow));
        case AllowSession =>
          sessionAllow.hashes := sessionAllow.hashes + {hash};
          r := Returned(d.(verdict := Allow));
        case AllowPersistent =>
          persistentAllow.hashes := persistentAllow.hashes + {hash};
          s := ruleStore.AppendRule(hash, "allow");
          r := if s.Ok? then Returned(d.(verdict := Allow)) else Threw(s.cause);
        case DenyOnce => r := Returned(d.(verdict := Deny));
        case DenySession =>
          sessionDeny.hashes := sessionDeny.hashes + {hash};
          r := Returned(d.(verdict := Deny));
        case DenyPersistent =>
          persistentDeny.hashes := persistentDeny.hashes + {hash};
          s := ruleStore.AppendRule(hash, "deny");
          r := if s.Ok? then Returned(d.(verdict := Deny)) else Threw(s.cause);
        case NoChoice =>
          r := Returned(d.(verdict := Deny, reason := AskUnavailable,
                           rank := if d.mode == "ask" then 6 else 9, source := ModeSource));
      }
    }

    /** Runs an allowed call, or reports a denied one: the part of the lifecycle after the decision. */
    method Perform(ghost start: Cursor, ghost plan: seq<Event>, ghost k: nat, call: Call, decision: PermissionDecision)
      returns (r: Outcome<ExecutionOutcome>)
      requires HasTail(plan, k, call, OutcomeOf(call, decision), decision.verdict == Allow)
      requires emitter.Here() == EmitAll(emitter.Emitting(), start, plan[..k])
      requires emitter.GateNow() == Gate(ToolDecided, false)
      modifies emitter, emitter.store, emitter.bus, emitter.fsm
      ensures r.Returned? ==>
                && OutcomeOf(call, decision) == Status(r.value.status) && r.value.decision == decision
                && emitter.Here() == EmitAll(emitter.Emitting(), start, plan)
                && emitter.GateNow() == Gate(ToolResulted, false)
      ensures r.Threw? ==> r.cause == External && CutWithin(emitter.Emitting(), start, emitter.Here(), plan, k, |plan|)
      ensures emitter.store.Others(emitter.who.sessionId) == old(emitter.store.Others(emitter.who.sessionId))
    {
      assert plan[..|plan|] == plan;
      if decision.verdict != Allow {
        r := Report(start, plan, k, call, "denied", decision);
        return;
      }
      AdmitReport();
      var s := emitter.EmitNext(start, plan, k, Event(ToolExecutionStarted, call.id, Unread));
      if s.Raised? {
        return Threw(s.cause);
      }
      if call.toolName !in registry {
        r := Report(start, plan, k + 1, call, "error", decision);
        return;
      }
      match tools(call) {
        case Raises =>
          assert CutAt(emitter.Emitting(), start, emitter.Here(), plan, k + 1);
          return Threw(External);
        case Status(status) =>
          r := Report(start, plan, k + 1, call, status, decision);
      }
    }

    /** What the executor reports of a decided call. */
    function OutcomeOf(call: Call, decision: PermissionDecision): ToolReply {
      if decision.verdict != Allow then Status("denied")
      else if call.toolName !in registry then Status("error")
      else tools(call)
    }

    /** Emits the result and the finish of a call. */
    method Report(ghost start: Cursor, ghost plan: seq<Event>, ghost k: nat,
                  call: Call, status: string, decision: PermissionDecision)
      returns (r: Outcome<ExecutionOutcome>)
      requires k + 2 <= |plan|
      requires plan[k] == Event(ToolResult, call.id, Result(status))
      requires plan[k + 1] == Event(ToolExecutionFinished, call.id, Finished(status))
      requires emitter.Here() == EmitAll(emitter.Emitting(), start, plan[..k])
      requires emitter.GateNow() == Gate(ToolDecided, false) || emitter.GateNow() == Gate(ToolRunning, false)
      modifies emitter, emitter.store, emitter.bus, emitter.fsm
      ensures r.Returned? ==>
                && r.value == ExecutionOutcome(status, decision)
                && emitter.Here() == EmitAll(emitter.Emitting(), start, plan[..k + 2])
                && emitter.GateNow() == Gate(ToolResulted, false)
      ensures r.Threw? ==> r.cause == External && CutWithin(emitter.Emitting(), start, emitter.Here(), plan, k, |plan|)
      ensures emitter.store.Others(emitter.who.sessionId) == old(emitter.store.Others(emitter.who.sessionId))
    {
      AdmitReport();
      var s := emitter.EmitNext(start, plan, k, Event(ToolResult, call.id, Result(status)));
      if s.Raised? {
        return Threw(s.cause);
      }
      s := emitter.EmitNext(start, plan, k + 1, Event(ToolExecutionFinished, call.id, Finished(status)));
      if s.Raised? {
        return Threw(s.cause);
      }
      r := Returned(ExecutionOutcome(status, decision));
    }

    /** Requests a call, judges it, and says so if permission is required. */
    method Request(ghost start: Cursor, ghost plan: seq<Event>, ghost seg: Segment, call: Call)
      returns (r: Outcome<PermissionDecision>)
      requires HasHead(plan, seg) && seg.call == call
      requires seg.judged == Replay(RulesNow(), decide(call.toolName, call.input))
      requires emitter.Here() == start && Ready(emitter.GateNow().state) && !emitter.GateNow().terminal
      modifies emitter, emitter.store, emitter.bus, emitter.fsm
      ensures r.Returned? ==>
                && r.value == seg.judged
                && emitter.Here() == EmitAll(emitter.Emitting(), start, plan[..Decisive(seg) - 1])
                && emitter.GateNow() == Gate(if seg.judged.verdict == Ask then ToolRequired else ToolRequested, false)
      ensures r.Threw? ==>
                && r.cause == External
                && CutWithin(emitter.Emitting(), start, emitter.Here(), plan, 0, Decisive(seg) - 1)
      ensures emitter.store.Others(emitter.who.sessionId) == old(emitter.store.Others(emitter.who.sessionId))
    {
      AdmitDecision(emitter.GateNow());
      assert plan[..0] == [];
      var s := emitter.EmitNext(
        start, plan, 0, Event(ToolCallRequested, call.id, Payload.Request(call.toolName, Some(call.input))));
      if s.Raised? {
        return Threw(s.cause);
      }
      var decision := ApplySessionReplay(decide(call.toolName, call.input));
      if decision.verdict == Ask {
        s := emitter.EmitNext(start, plan, 1, Event(ToolPermissionRequired, call.id, Unread));
        if s.Raised? {
          return Threw(s.cause);
        }
      }
      r := Returned(decision);
    }

    /** Takes the user's answer to an ask, or lets the decision stand. */
    method Resolve(d: PermissionDecision, id: string) returns (r: Outcome<PermissionDecision>)
      requires Apart()
      modifies inbox, Cells(), ruleStore
      ensures var choice := if d.verdict == Ask then ReadChoice(Front(old(inbox.queues), id)) else NoChoice;
              && RulesNow() == Learn(old(RulesNow()), d, choice)
              && (r.Returned? ==>
                    && r.value == Settle(d, choice)
                    && inbox.queues == (if d.verdict == Ask then Dequeue(old(inbox.queues), id) else old(inbox.queues))
                    && ruleStore.rows == old(ruleStore.rows) + if ruleStore.enabled then LearnedRows(d, choice) else [])
              && (r.Threw? ==> r.cause == External && ruleStore.rows == old(ruleStore.rows))
    {
      if d.verdict == Ask {
        var raw := inbox.Consume(id);
        r := Answer(d, raw);
      } else {
        r := Returned(d);
        assert ruleStore.rows + [] == ruleStore.rows;
      }
    }

    /** Settles a judged call and emits the decision. */
    method Arbitrate(ghost start: Cursor, ghost plan: seq<Event>, ghost seg: Segment,
                     call: Call, judged: PermissionDecision)
      returns (r: Outcome<PermissionDecision>)
      requires Apart() && HasHead(plan, seg) && seg.call == call && seg.judged == judged
      requires seg.choice == if judged.verdict == Ask then ReadChoice(Front(inbox.queues, call.id)) else NoChoice
      requires emitter.Here() == EmitAll(emitter.Emitting(), start, plan[..Decisive(seg) - 1])
      requires emitter.GateNow() == Gate(if judged.verdict == Ask then ToolRequired else ToolRequested, false)
      modifies emitter, emitter.store, emitter.bus, emitter.fsm
      modifies inbox, Cells(), ruleStore
      ensures r.Returned? ==>
                && r.value == seg.Decision()
                && emitter.Here() == EmitAll(emitter.Emitting(), start, plan[..Decisive(seg)])
                && emitter.GateNow() == Gate(ToolDecided, false)
                && inbox.queues ==
                   (if judged.verdict == Ask then Dequeue(old(inbox.queues), call.id) else old(inbox.queues))
                && ruleStore.rows == old(ruleStore.rows) + NewRows(seg)
      ensures r.Threw? ==> r.cause == External && Stopped(start, plan, seg, old(RulesNow()), old(ruleStore.rows))
      ensures RulesNow() == Learn(old(RulesNow()), judged, seg.choice)
      ensures emitter.store.Others(emitter.who.sessionId) == old(emitter.store.Others(emitter.who.sessionId))
    {
      r := Resolve(judged, call.id);
      if r.Threw? {
        assert StoppedAfter(Decisive(seg) - 1, start, plan, seg, old(RulesNow()), old(ruleStore.rows));
        return;
      }
      AdmitDecision(Gate(User, false));
      var s := emitter.EmitNext(start, plan, Decisive(seg) - 1, Event(ToolPermissionDecided, call.id, Decided(r.value)));
      if s.Raised? {
        StoppedWithin(Decisive(seg) - 1, Decisive(seg), start, plan, seg, old(RulesNow()), old(ruleStore.rows));
        return Threw(s.cause);
      }
    }

    /** The rows that a lifecycle appends to the rule file at hand. */
    function NewRows(seg: Segment): seq<RuleRow>
      requires seg.Lifecycle?
      reads this
    {
      if ruleStore.enabled then LearnedRows(seg.judged, seg.choice) else []
    }

    /**
     One call. It emits exactly the lifecycle that the rules and answers at hand determine, learns
     what the answer says, and reports the status of the tool or "denied"; if something raises on
     the way, it leaves a cut of that lifecycle.
     */
    method Execute(call: Call) returns (r: Outcome<ExecutionOutcome>)
      requires Apart()
      requires Ready(emitter.GateNow().state) && !emitter.GateNow().terminal
      modifies emitter, emitter.store, emitter.bus, emitter.fsm
      modifies inbox, Cells(), ruleStore
      ensures var seg := old(Plan(call));
              && (r.Returned? ==>
                    Done(old(emitter.Here()), SegmentEvents(seg), seg, r.value,
                         old(RulesNow()), old(inbox.queues), old(ruleStore.rows)))
              && (r.Threw? ==>
                    && r.cause == External
                    && Stopped(old(emitter.Here()), SegmentEvents(seg), seg, old(RulesNow()), old(ruleStore.rows)))
      ensures emitter.store.Others(emitter.who.sessionId) == old(emitter.store.Others(emitter.who.sessionId))
    {
      ghost var seg := Plan(call);
      PlanHasHeadAndTail(seg);
      r := CarryOut(emitter.Here(), SegmentEvents(seg), seg, call);
    }

    /** A call that is done: its whole plan is emitted, and the answer is learned and recorded. */
    ghost predicate Done(start: Cursor, plan: seq<Event>, seg: Segment, outcome: ExecutionOutcome,
                         rules: Rules, queues: Queues, rows: seq<RuleRow>)
      requires seg.Lifecycle?
      reads this, Cells(), inbox, ruleStore, emitter, emitter.who, emitter.fsm, emitter.store, emitter.bus
    {
      && seg.Outcome() == Status(outcome.status) && outcome.decision == seg.Decision()
      && emitter.Here() == EmitAll(emitter.Emitting(), start, plan)
      && emitter.GateNow() == Gate(ToolResulted, false)
      && RulesNow() == Learn(rules, seg.judged, seg.choice)
      && inbox.queues == (if seg.judged.verdict == Ask then Dequeue(queues, seg.call.id) else queues)
      && ruleStore.rows == rows + NewRows(seg)
    }

    /** A call that something stopped: some of its events are out, and what they say is learned and recorded. */
    ghost predicate Stopped(start: Cursor, plan: seq<Event>, seg: Segment, rules: Rules, rows: seq<RuleRow>)
      requires seg.Lifecycle?
      reads this, Cells(), ruleStore, emitter, emitter.who, emitter.store, emitter.bus
    {
      exists j: nat :: StoppedAfter(j, start, plan, seg, rules, rows)
    }

    ghost predicate StoppedAfter(
      j: nat, start: Cursor, plan: seq<Event>, seg: Segment, rules: Rules, rows: seq<RuleRow>)
      requires seg.Lifecycle?
      reads this, Cells(), ruleStore, emitter, emitter.who, emitter.store, emitter.bus
    {
      && j <= |plan| && CutAt(emitter.Emitting(), start, emitter.Here(), plan, j)
      && Partly(seg, j, rules, RulesNow(), rows, ruleStore.rows, NewRows(seg))
    }

    /** A call that is stopped within these bounds, on one side of its answer. */
    lemma StoppedWithin(low: nat, high: nat, start: Cursor, plan: seq<Event>, seg: Segment,
                        rules: Rules, rows: seq<RuleRow>)
      requires seg.Lifecycle? && high <= |plan|
      requires CutWithin(emitter.Emitting(), start, emitter.Here(), plan, low, high)
      requires (high < Decisive(seg) && RulesNow() == rules && ruleStore.rows == rows)
               || (low >= Decisive(seg) - 1 && RulesNow() == Learn(rules, seg.judged, seg.choice)
                   && ruleStore.rows == rows + NewRows(seg))
      ensures Stopped(start, plan, seg, rules, rows)
    {
      var j: nat :| low <= j <= high && CutAt(emitter.Emitting(), start, emitter.Here(), plan, j);
      assert StoppedAfter(j, start, plan, seg, rules, rows);
    }

    /** The three parts of a call, in turn. */
    method CarryOut(ghost start: Cursor, ghost plan: seq<Event>, ghost seg: Segment, call: Call)
      returns (r: Outcome<ExecutionOutcome>)
      requires Apart() && HasHead(plan, seg) && seg.call == call
      requires HasTail(plan, Decisive(seg), call, seg.Outcome(), seg.Allowed())
      requires seg.judged == Replay(RulesNow(), decide(call.toolName, call.input))
      requires seg.choice == if seg.judged.verdict == Ask then ReadChoice(Front(inbox.queues, call.id)) else NoChoice
      requires seg.reply == if call.toolName in registry then tools(call) else Status("error")
      requires emitter.Here() == start && Ready(emitter.GateNow().state) && !emitter.GateNow().terminal
      modifies emitter, emitter.store, emitter.bus, emitter.fsm
      modifies inbox, Cells(), ruleStore
      ensures r.Returned? ==>
                Done(start, plan, seg, r.value, old(RulesNow()), old(inbox.queues), old(ruleStore.rows))
      ensures r.Threw? ==> r.cause == External && Stopped(start, plan, seg, old(RulesNow()), old(ruleStore.rows))
      ensures emitter.store.Others(emitter.who.sessionId) == old(emitter.store.Others(emitter.who.sessionId))
    {
      var judged := Request(start, plan, seg, call);
      if judged.Threw? {
        StoppedWithin(0, Decisive(seg) - 1, start, plan, seg, old(RulesNow()), old(ruleStore.rows));
        return Threw(judged.cause);
      }
      r := Conclude(start, plan, seg, call, judged.value);
    }

    /** A judged call: the decision, and then the work. */
    method Conclude(ghost start: Cursor, ghost plan: seq<Event>, ghost seg: Segment, call: Call, judged: PermissionDecision)
      returns (r: Outcome<ExecutionOutcome>)
      requires Apart() && HasHead(plan, seg) && seg.call == call && seg.judged == judged
      requires HasTail(plan, Decisive(seg), call, seg.Outcome(), seg.Allowed())
      requires seg.choice == if judged.verdict == Ask then ReadChoice(Front(inbox.queues, call.id)) else NoChoice
      requires seg.reply == if call.toolName in registry then tools(call) else Status("error")
      requires emitter.Here() == EmitAll(emitter.Emitting(), start, plan[..Decisive(seg) - 1])
      requires emitter.GateNow() == Gate(if judged.verdict == Ask then ToolRequired else ToolRequested, false)
      modifies emitter, emitter.store, emitter.bus, emitter.fsm
      modifies inbox, Cells(), ruleStore
      ensures r.Returned? ==>
                Done(start, plan, seg, r.value, old(RulesNow()), old(inbox.queues), old(ruleStore.rows))
      ensures r.Threw? ==> r.cause == External && Stopped(start, plan, seg, old(RulesNow()), old(ruleStore.rows))
      ensures emitter.store.Others(emitter.who.sessionId) == old(emitter.store.Others(emitter.who.sessionId))
    {
      var settled := Arbitrate(start, plan, seg, call, judged);
      if settled.Threw? {
        return Threw(settled.cause);
      }
      assert OutcomeOf(call, settled.value) == seg.Outcome();
      r := Perform(start, plan, Decisive(seg), call, settled.value);
      if r.Threw? {
        StoppedWithin(Decisive(seg), |plan|, start, plan, seg, old(RulesNow()), old(ruleStore.rows));
      }
    }
  }

  lemma AdmitReport()
    ensures Admit(Gate(ToolRunning, false), ToolResult) == Some(Gate(ToolResulted, false))
    ensures Admit(Gate(ToolDecided, false), ToolResult) == Some(Gate(ToolResulted, false))
    ensures Admit(Gate(ToolResulted, false), ToolExecutionFinished) == Some(Gate(ToolResulted, false))
  {
  }

  lemma AdmitDecision(g: Gate)
    requires Ready(g.state) && !g.terminal
    ensures Admit(g, ToolCallRequested) == Some(Gate(ToolRequested, false))
    ensures Admit(Gate(ToolRequested, false), ToolPermissionRequired) == Some(Gate(ToolRequired, false))
    ensures Admit(Gate(ToolRequested, false), ToolPermissionDecided) == Some(Gate(ToolDecided, false))
    ensures Admit(Gate(ToolRequired, false), ToolPermissionDecided) == Some(Gate(ToolDecided, false))
  {
  }

  /** The plan begins as a lifecycle does, up to the decision. */
  predicate HasHead(plan: seq<Event>, seg: Segment) {
    && seg.Lifecycle?
    && Decisive(seg) <= |plan|
    && plan[0] == Event(ToolCallRequested, seg.call.id, Payload.Request(seg.call.toolName, Some(seg.call.input)))
    && (seg.judged.verdict == Ask ==> plan[1] == Event(ToolPermissionRequired, seg.call.id, Unread))
    && plan[Decisive(seg) - 1] == Event(ToolPermissionDecided, seg.call.id, Decided(seg.Decision()))
  }

  /** From its k-th event on, the plan ends as a lifecycle does. */
  predicate HasTail(plan: seq<Event>, k: nat, call: Call, outcome: ToolReply, allowed: bool) {
    var j := if allowed then k + 1 else k;
    && j <= |plan|
    && (allowed ==> plan[k] == Event(ToolExecutionStarted, call.id, Unread))
    && (outcome.Status? ==>
          && |plan| == j + 2
          && plan[j] == Event(ToolResult, call.id, Result(outcome.status))
          && plan[j + 1] == Event(ToolExecutionFinished, call.id, Finished(outcome.status)))
  }

  lemma PlanHasHeadAndTail(seg: Segment)
    requires seg.Lifecycle?
    ensures HasHead(SegmentEvents(seg), seg)
    ensures HasTail(SegmentEvents(seg), Decisive(seg), seg.call, seg.Outcome(), seg.Allowed())
  {
  }
}
