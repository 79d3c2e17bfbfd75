/** The turn state machine that every emitted event must pass. */
module TurnFsm {
  import opened Wrappers
  import opened Events

  datatype TurnState =
    | Init
    | Started
    | User
    | Streaming
    | ToolRequested
    | ToolRequired
    | ToolDecided
    | ToolRunning
    | ToolResulted
    | Done
    | FailedState

  /** States from which the next delta, message, tool call or terminal event may come. */
  predicate Ready(s: TurnState) {
    s.User? || s.Streaming? || s.ToolResulted?
  }

  /** The transition table, event by event; a terminal event is accepted in every state. */
  function Step(s: TurnState, kind: EventType): Option<TurnState> {
    match kind
    case SessionStart | SessionResumed => if s.Init? then Some(Started) else None
    case UserMessage => if s.Started? then Some(User) else None
    case AssistantDelta | AssistantMessage => if Ready(s) then Some(Streaming) else None
    case ToolCallRequested => if Ready(s) then Some(ToolRequested) else None
    case ToolPermissionRequired => if s.ToolRequested? then Some(ToolRequired) else None
    case ToolPermissionDecided => if s.ToolRequested? || s.ToolRequired? then Some(ToolDecided) else None
    case ToolExecutionStarted => if s.ToolDecided? then Some(ToolRunning) else None
    case ToolResult => if s.ToolDecided? || s.ToolRunning? then Some(ToolResulted) else None
    case ToolExecutionFinished => if s.ToolResulted? then Some(ToolResulted) else None
    case SessionCompleted => Some(Done)
    case SessionFailed => Some(FailedState)
    case Foreign(_) => None
  }

  class TurnStateMachine {
    var state: TurnState

    constructor ()
      ensures state == Init
    {
      state := Init;
    }

    /** Moves to the next state, or raises and stays. */
    method Transition(kind: EventType) returns (s: Signal)
      modifies this
      ensures Step(old(state), kind).Some? ==> s == Ok && state == Step(old(state), kind).value
      ensures Step(old(state), kind).None? ==> s == Raised(IllegalTransition) && state == old(state)
    {
      s := Ok;
      if state == Init && (kind.SessionStart? || kind.SessionResumed?) {
        state := Started;
      } else if state == Started && kind.UserMessage? {
        state := User;
      } else if state in {User, Streaming, ToolResulted} && kind.AssistantDelta? {
        state := Streaming;
      } else if state in {User, Streaming, ToolResulted} && kind.AssistantMessage? {
        state := Streaming;
      } else if state in {User, Streaming, ToolResulted} && kind.ToolCallRequested? {
        state := ToolRequested;
      } else if state == ToolRequested && kind.ToolPermissionRequired? {
        state := ToolRequired;
      } else if state == ToolRequested && kind.ToolPermissionDecided? {
        state := ToolDecided;
      } else if state == ToolRequired && kind.ToolPermissionDecided? {
        state := ToolDecided;
      } else if state == ToolDecided && (kind.ToolExecutionStarted? || kind.ToolResult?) {
        state := if kind.ToolExecutionStarted? then ToolRunning else ToolResulted;
      } else if state == ToolRunning && kind.ToolResult? {
        state := ToolResulted;
      } else if state == ToolResulted && kind.ToolExecutionFinished? {
        state := ToolResulted;
      } else if kind.SessionCompleted? {
        state := Done;
      } else if kind.SessionFailed? {
        state := FailedState;
      } else {
        s := Raised(IllegalTransition);
      }
    }
  }

  // ----- whole traces -----------------------------------------------------------------------

  /** The state after a trace together with the terminal guard of `_emit`; None when either refuses. */
  datatype Gate = Gate(state: TurnState, terminal: bool)

  function Admit(g: Gate, kind: EventType): Option<Gate> {
    if IsTerminal(kind) && g.terminal then None
    else
      match Step(g.state, kind)
      case None => None
      case Some(s) => Some(Gate(s, g.terminal || IsTerminal(kind)))
  }

  function Drive(g: Gate, es: seq<Event>): Option<Gate> {
    if es == [] then Some(g)
    else
      match Drive(g, es[..|es| - 1])
      case None => None
      case Some(h) => Admit(h, es[|es| - 1].kind)
  }

  lemma {:induction false} DriveConcat(g: Gate, a: seq<Event>, b: seq<Event>)
    ensures Drive(g, a + b) == (if Drive(g, a).None? then None else Drive(Drive(g, a).value, b))
  {
    if b == [] {
      assert a + b == a;
    } else {
      assert (a + b)[..|a + b| - 1] == a + b[..|b| - 1];
      DriveConcat(g, a, b[..|b| - 1]);
    }
  }

  /** A trace is admitted only if each of its prefixes is. */
  lemma {:induction false} DrivePrefix(g: Gate, es: seq<Event>, k: nat)
    requires k <= |es|
    requires Drive(g, es).Some?
    ensures Drive(g, es[..k]).Some?
  {
    if k < |es| {
      DrivePrefix(g, es[..|es| - 1], k);
      assert es[..|es| - 1][..k] == es[..k];
    } else {
      assert es[..k] == es;
    }
  }

  /**
   Once a terminal event is out, the gate refuses everything: in an admitted trace only the last
   event can be terminal, and the state says whether it is.
   */
  lemma {:induction false} TerminalIsLast(es: seq<Event>)
    requires Drive(Gate(Init, false), es).Some?
    ensures forall i :: 0 <= i < |es| - 1 ==> !IsTerminal(es[i].kind)
    ensures var h := Drive(Gate(Init, false), es).value;
            && (h.terminal <==> es != [] && IsTerminal(es[|es| - 1].kind))
            && (h.terminal <==> (h.state.Done? || h.state.FailedState?))
  {
    if es != [] {
      TerminalIsLast(es[..|es| - 1]);
    }
  }

  // ----- which traces are admitted ------------------------------------------------------------

  predicate MayBegin(kind: EventType) {
    kind.SessionStart? || kind.SessionResumed? || kind.SessionCompleted? || kind.SessionFailed?
  }

  /** The turn: after which events another one may come. */
  predicate MayFollow(before: EventType, kind: EventType) {
    match kind
    case SessionStart | SessionResumed | Foreign(_) => false
    case UserMessage => before.SessionStart? || before.SessionResumed?
    case AssistantDelta | AssistantMessage | ToolCallRequested =>
      || before.UserMessage? || before.AssistantDelta? || before.AssistantMessage?
      || before.ToolResult? || before.ToolExecutionFinished?
    case ToolPermissionRequired => before.ToolCallRequested?
    case ToolPermissionDecided => before.ToolCallRequested? || before.ToolPermissionRequired?
    case ToolExecutionStarted => before.ToolPermissionDecided?
    case ToolResult => before.ToolPermissionDecided? || before.ToolExecutionStarted?
    case ToolExecutionFinished => before.ToolResult? || before.ToolExecutionFinished?
    case SessionCompleted | SessionFailed => !before.SessionCompleted? && !before.SessionFailed?
  }

  predicate InTurn(es: seq<Event>) {
    es == [] || (MayBegin(es[0].kind) && forall i :: 0 <= i < |es| - 1 ==> MayFollow(es[i].kind, es[i + 1].kind))
  }

  /** The state that an event leaves behind. */
  predicate LeftBy(s: TurnState, kind: EventType) {
    && (s == Started <==> kind.SessionStart? || kind.SessionResumed?)
    && (s == User <==> kind.UserMessage?)
    && (s == Streaming <==> kind.AssistantDelta? || kind.AssistantMessage?)
    && (s == ToolRequested <==> kind.ToolCallRequested?)
    && (s == ToolRequired <==> kind.ToolPermissionRequired?)
    && (s == ToolDecided <==> kind.ToolPermissionDecided?)
    && (s == ToolRunning <==> kind.ToolExecutionStarted?)
    && (s == ToolResulted <==> kind.ToolResult? || kind.ToolExecutionFinished?)
    && (s == Done <==> kind.SessionCompleted?)
    && (s == FailedState <==> kind.SessionFailed?)
  }

  lemma AdmitStep(g: Gate, before: EventType, kind: EventType)
    requires LeftBy(g.state, before) && !before.Foreign? && g.terminal == IsTerminal(before)
    ensures Admit(g, kind).Some? <==> MayFollow(before, kind)
    ensures Admit(g, kind).Some? ==>
              && LeftBy(Admit(g, kind).value.state, kind) && !kind.Foreign?
              && Admit(g, kind).value.terminal == IsTerminal(kind)
  {
  }

  lemma AdmitFirst(kind: EventType)
    ensures var g := Admit(Gate(Init, false), kind);
            && (g.Some? <==> MayBegin(kind))
            && (g.Some? ==> LeftBy(g.value.state, kind) && !kind.Foreign? && g.value.terminal == IsTerminal(kind))
  {
  }

  lemma InTurnPush(es: seq<Event>, e: Event)
    ensures InTurn(es + [e]) <==>
            InTurn(es) && if es == [] then MayBegin(e.kind) else MayFollow(es[|es| - 1].kind, e.kind)
  {
    var all := es + [e];
    assert forall i :: 0 <= i < |es| ==> all[i] == es[i];
    if es != [] && InTurn(all) {
      assert MayFollow(all[|es| - 1].kind, all[|es| - 1 + 1].kind);
    }
  }

  /**
   Machine and guard admit a trace exactly if it begins as it may and every event follows one that it
   may follow; the state then says what the last event was.
   */
  lemma {:induction false} AdmittedIff(es: seq<Event>)
    ensures Drive(Gate(Init, false), es).Some? <==> InTurn(es)
    ensures es != [] && Drive(Gate(Init, false), es).Some? ==>
              var g, last := Drive(Gate(Init, false), es).value, es[|es| - 1].kind;
              LeftBy(g.state, last) && !last.Foreign? && g.terminal == IsTerminal(last)
  {
    if es != [] {
      var front, e := es[..|es| - 1], es[|es| - 1];
      AdmittedIff(front);
      InTurnPush(front, e);
      assert front + [e] == es;
      AdmitFirst(e.kind);
      if front != [] && Drive(Gate(Init, false), front).Some? {
        AdmitStep(Drive(Gate(Init, false), front).value, front[|front| - 1].kind, e.kind);
      }
    }
  }
}
