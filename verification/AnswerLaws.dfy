/** The user's permission messages: every call that asks gets the first answer addressed to it. */
module AnswerLaws {
  import opened Wrappers
  import opened Events
  import opened Policy
  import opened RunModel
  import opened TraceLaws
  import RuleLaws
  import StreamAdapter
  import Decimal
  import Text

  // ----- what an answer says ----------------------------------------------------------------------

  /** The word for each answer; NoChoice has none. */
  function Word(choice: Choice): string {
    match choice
    case AllowOnce => "allow_once"
    case AllowSession => "allow_session"
    case AllowPersistent => "allow_persistent"
    case DenyOnce => "deny_once"
    case DenySession => "deny_session"
    case DenyPersistent => "deny_persistent"
    case NoChoice => ""
  }

  /** An answer is read through the space around it; anything that is no word of the table is no answer. */
  lemma ChoiceIsItsWord(left: string, right: string, choice: Choice, raw: string)
    requires Text.AllSpace(left) && Text.AllSpace(right)
    ensures choice != NoChoice ==> ReadChoice(Some(left + Word(choice) + right)) == choice
    ensures ReadChoice(Some(raw)) == NoChoice <==> forall c :: c != NoChoice ==> Text.Strip(raw) != Word(c)
    ensures ReadChoice(None) == NoChoice
  {
    if choice != NoChoice {
      WordIsBare(choice);
      Text.StripPadded(left, Word(choice), right);
      ReadWord(left + Word(choice) + right, choice);
    }
    if ReadChoice(Some(raw)) == NoChoice {
      forall c | c != NoChoice
        ensures Text.Strip(raw) != Word(c)
      {
        if Text.Strip(raw) == Word(c) {
          ReadWord(raw, c);
        }
      }
    } else {
      ReadIsWord(raw);
    }
  }

  lemma ReadItsWord(choice: Choice)
    requires choice != NoChoice
    ensures ReadChoice(Some(Word(choice))) == choice
  {
    WordIsBare(choice);
    Text.StripPadded("", Word(choice), "");
    assert "" + Word(choice) + "" == Word(choice);
    ReadWord(Word(choice), choice);
  }

  lemma ReadWord(raw: string, choice: Choice)
    requires choice != NoChoice && Text.Strip(raw) == Word(choice)
    ensures ReadChoice(Some(raw)) == choice
  {
  }

  lemma {:induction false} ReadIsWord(raw: string)
    requires ReadChoice(Some(raw)) != NoChoice
    ensures Text.Strip(raw) == Word(ReadChoice(Some(raw)))
  {
  }

  lemma WordIsBare(choice: Choice)
    requires choice != NoChoice
    ensures var w := Word(choice); w != "" && !Text.IsSpace(w[0]) && !Text.IsSpace(w[|w| - 1])
  {
  }

  // ----- which answer a call gets -----------------------------------------------------------------

  /** No answer to a call still to come has been consumed. */
  predicate Unconsumed(q: Queues, messages: seq<ControlMessage>, id: string) {
    Front(q, id) == Front(LoadQueues(messages), id)
  }

  ghost predicate Waiting(s: Script, q: Queues, calls: nat) {
    forall n: nat :: n > calls ==> Unconsumed(q, s.messages, ToolCallId(n))
  }

  predicate HeededCall(s: Script, seg: Segment) {
    seg.Lifecycle? && seg.judged.verdict == Ask ==> seg.choice == ReadChoice(FirstAnswer(s.messages, seg.call.id))
  }

  predicate Heeded(s: Script, segs: seq<Segment>) {
    forall i :: 0 <= i < |segs| ==> HeededCall(s, segs[i])
  }

  ghost predicate InOrder(s: Script, p: Progress) {
    Heeded(s, p.segs) && Waiting(s, p.inbox, p.calls)
  }

  lemma DequeueElsewhere(q: Queues, id: string, other: string)
    requires id != other
    ensures Front(Dequeue(q, id), other) == Front(q, other)
  {
  }

  lemma WaitingNext(s: Script, q: Queues, calls: nat)
    requires Waiting(s, q, calls)
    ensures Waiting(s, q, calls + 1) && Waiting(s, Dequeue(q, ToolCallId(calls + 1)), calls + 1)
  {
    forall n: nat | n > calls + 1
      ensures Unconsumed(q, s.messages, ToolCallId(n))
      ensures Unconsumed(Dequeue(q, ToolCallId(calls + 1)), s.messages, ToolCallId(n))
    {
      if ToolCallId(n) == ToolCallId(calls + 1) {
        ToolCallIdInjective(n, calls + 1);
      }
      DequeueElsewhere(q, ToolCallId(calls + 1), ToolCallId(n));
    }
  }

  lemma {:induction false} NextIsHeeded(s: Script, p: Progress, toolName: string, input: ToolInput)
    requires Waiting(s, p.inbox, p.calls)
    ensures HeededCall(s, CallSegment(s, p, toolName, input))
  {
    var id := ToolCallId(p.calls + 1);
    assert Unconsumed(p.inbox, s.messages, id);
    assert id[0] == 'T';
    QueueFrontIsFirstAnswer(s.messages, id);
  }

  lemma InOrderConclude(s: Script, p: Progress, seg: Segment)
    requires InOrder(s, p) && seg.Lifecycle?
    ensures InOrder(s, Conclude(p, seg))
  {
  }

  lemma InOrderAfterCall(s: Script, p: Progress, seg: Segment)
    requires InOrder(s, p) && seg.Lifecycle? && seg.call.id == ToolCallId(p.calls + 1) && HeededCall(s, seg)
    ensures InOrder(s, AfterCall(p, seg))
  {
    WaitingNext(s, p.inbox, p.calls);
  }

  lemma InOrderCallTool(s: Script, p: Progress, toolName: string, input: ToolInput)
    requires InOrder(s, p)
    ensures InOrder(s, CallTool(s, p, toolName, input))
  {
    var seg := CallSegment(s, p, toolName, input);
    NextIsHeeded(s, p, toolName, input);
    InOrderAfterCall(s, p, seg);
    InOrderConclude(s, AfterCall(p, seg), seg);
  }

  lemma {:induction false} InOrderTake(s: Script, p: Progress, item: StreamAdapter.Adapted)
    requires InOrder(s, p)
    ensures InOrder(s, Take(s, p, item))
  {
    match item
    case AdaptedTool(n, i) => InOrderCallTool(s, p, n, i);
    case _ =>
  }

  lemma {:induction false} InOrderTakeAll(s: Script, p: Progress, items: seq<StreamAdapter.Adapted>)
    requires InOrder(s, p)
    ensures InOrder(s, TakeAll(s, p, items))
  {
    if items != [] {
      InOrderTakeAll(s, p, items[..|items| - 1]);
      InOrderTake(s, TakeAll(s, p, items[..|items| - 1]), items[|items| - 1]);
    }
  }

  lemma {:induction false} InOrderRecovered(s: Script, log: seq<Event>)
    ensures InOrder(s, Recovered(s, log))
  {
    var p := Opening(s);
    assert InOrder(s, p);
    if p.status == Running && s.resumed && RecoveryPlanAt(s, log).Some? {
      InOrderCallTool(s, p, RecoveryPlanAt(s, log).value.toolName, RecoveryPlanAt(s, log).value.input);
    }
  }

  lemma HeededClosing(s: Script, p: Progress)
    requires Heeded(s, p.segs)
    ensures Heeded(s, Closing(p).segs)
  {
  }

  lemma RunIsHeeded(s: Script, log: seq<Event>)
    ensures Heeded(s, Run(s, log).segs)
  {
    InOrderRecovered(s, log);
    RunEnds(s, log);
    if s.provider.Some? {
      var items := StreamAdapter.AdaptAll(StreamAdapter.Supported(s.provider.value));
      InOrderTakeAll(s, Recovered(s, log), items);
      HeededClosing(s, TakeAll(s, Recovered(s, log), items));
    }
  }

  lemma AnswerDecides(s: Script, rules: Rules, seg: Segment)
    requires seg.Lifecycle? && RuleLaws.LawfulCall(s, rules, seg) && seg.judged.verdict == Ask
    ensures seg.Allowed() <==> seg.choice == AllowOnce || seg.choice == AllowSession || seg.choice == AllowPersistent
    ensures seg.Decision().reason == AskUnavailable <==> seg.choice == NoChoice
  {
  }

  /**
   Of all permission messages, a call that asks is answered by the first one addressed to its id,
   whatever the other calls of the run consumed; without one it counts as unanswered.
   */
  lemma CallGetsItsFirstAnswer(s: Script, log: seq<Event>, i: nat)
    requires i < |Run(s, log).segs| && Run(s, log).segs[i].Lifecycle? && Run(s, log).segs[i].judged.verdict == Ask
    ensures var seg := Run(s, log).segs[i];
            var answer := ReadChoice(FirstAnswer(s.messages, seg.call.id));
            && seg.choice == answer
            && (seg.Allowed() <==> answer == AllowOnce || answer == AllowSession || answer == AllowPersistent)
            && (seg.Decision().reason == AskUnavailable <==> answer == NoChoice)
  {
    var segs := Run(s, log).segs;
    RunIsHeeded(s, log);
    assert HeededCall(s, segs[i]);
    RuleLaws.LawfulRun(s, log);
    RuleLaws.LawfulAt(s, segs, i);
    AnswerDecides(s, RulesAfter(s.rules, segs[..i]), segs[i]);
  }

  /**
   The i-th call of a run, counted from 1, is decided by the first message addressed to TC and the
   number i, if it is asked about.
   */
  lemma {:induction false} NthCallHearsItsNumber(s: Script, log: seq<Event>, i: nat)
    requires 1 <= i <= |Calls(Run(s, log).segs)|
    requires Calls(Run(s, log).segs)[i - 1].Lifecycle? && Calls(Run(s, log).segs)[i - 1].judged.verdict == Ask
    ensures var call := Calls(Run(s, log).segs)[i - 1];
            var answer := ReadChoice(FirstAnswer(s.messages, "TC" + Decimal.Print(i)));
            && call.choice == answer
            && (call.Allowed() <==> answer == AllowOnce || answer == AllowSession || answer == AllowPersistent)
            && (call.Decision().reason == AskUnavailable <==> answer == NoChoice)
  {
    CallIdsCount(s, log, i - 1);
    var j := CallAmong(Run(s, log).segs, i - 1);
    CallGetsItsFirstAnswer(s, log, j);
  }

  lemma {:induction false} CallAmong(segs: seq<Segment>, i: nat) returns (j: nat)
    requires i < |Calls(segs)|
    ensures j < |segs| && segs[j] == Calls(segs)[i]
  {
    var front := segs[..|segs| - 1];
    if i < |Calls(front)| {
      j := CallAmong(front, i);
    } else {
      j := |segs| - 1;
    }
  }

  /** So the first call that is asked about in a run hears the first message to "TC1". */
  lemma {:induction false} FirstCallHearsTC1(s: Script, log: seq<Event>)
    requires Calls(Run(s, log).segs) != []
    requires Calls(Run(s, log).segs)[0].Lifecycle? && Calls(Run(s, log).segs)[0].judged.verdict == Ask
    ensures var call := Calls(Run(s, log).segs)[0];
            var answer := ReadChoice(FirstAnswer(s.messages, "TC1"));
            && call.call.id == "TC1" && call.choice == answer
            && (call.Allowed() <==> answer == AllowOnce || answer == AllowSession || answer == AllowPersistent)
            && (call.Decision().reason == AskUnavailable <==> answer == NoChoice)
  {
    NthCallHearsItsNumber(s, log, 1);
    CallIdsCount(s, log, 0);
    Decimal.PrintOne();
  }
}
