/**
 `_emit`: the numbering fields of the orchestrator, the terminal guard, the state machine, the
 transcript store and the event bus. The orchestrator and its executor share one emitter, as they
 share the bound method in the source.
 */
module Emitter {
  import opened Wrappers
  import opened Events
  import opened TurnFsm
  import opened Transcript
  import Decimal

  /** The event bus, seen from its subscribers: the events handed to them so far. */
  class EventBus {
    var delivered: seq<Record>

    constructor ()
      ensures delivered == []
    {
      delivered := [];
    }

    /** Hands over an event; a subscriber may raise. */
    method Emit(r: Record) returns (s: Signal)
      modifies this
      ensures delivered == old(delivered) + [r]
      ensures s.Raised? ==> s.cause == External
    {
      delivered := delivered + [r];
      s := Ok;
      if * {
        s := Raised(External);
      }
    }
  }

  /** The session and the run that events are emitted for. */
  class Identity {
    var sessionId: string
    var runId: string

    constructor () {
      sessionId, runId := "", "";
    }
  }

  class EventEmitter {
    const store: TranscriptStore
    const bus: EventBus
    const fsm: TurnStateMachine
    const who: Identity
    var number: nat
    var last: Option<string>
    var terminalEmitted: bool

    constructor (store: TranscriptStore, bus: EventBus)
      ensures this.store == store && this.bus == bus && fresh(fsm) && fresh(who)
      ensures GateNow() == Gate(Init, false)
    {
      this.store, this.bus := store, bus;
      fsm := new TurnStateMachine();
      who := new Identity();
      number, last, terminalEmitted := 0, None, false;
    }

    function Emitting(): Writer
      reads who
    {
      Writer(who.runId, store.persistenceEnabled)
    }

    function Here(): Cursor
      reads this, who, store, bus
    {
      Cursor(number, last, store.Log(who.sessionId), bus.delivered)
    }

    function GateNow(): Gate
      reads this, fsm
    {
      Gate(fsm.state, terminalEmitted)
    }

    /** Takes up a session where its log ends. */
    method Begin(sessionId: string, runId: string)
      modifies this, who
      ensures who.sessionId == sessionId && who.runId == runId
      ensures Here() == StartCursor(store.Log(sessionId), bus.delivered)
      ensures var log := store.Log(sessionId);
              && number == (if log == [] then 0 else log[|log| - 1].number)
              && last == if log == [] then None else Some(log[|log| - 1].recordId)
      ensures GateNow() == old(GateNow())
    {
      who.sessionId, who.runId := sessionId, runId;
      var n := store.GetNextSeq(sessionId);
      number := n - 1;
      last := store.GetLastPersistedEventId(sessionId);
    }

    /**
     Emits one event. The guard and the machine raise before anything is written; the disk or a
     subscriber may raise before or after the event is on the log.
     */
    method Emit(e: Event) returns (s: Signal)
      modifies this, store, bus, fsm
      ensures Admit(old(GateNow()), e.kind).None? ==>
                s.Raised? && s.cause != External && Here().log == old(Here().log) && Here().bus == old(Here().bus)
      ensures Admit(old(GateNow()), e.kind).Some? && s.Ok? ==>
                Here() == EmitOne(Emitting(), old(Here()), e) && GateNow() == Admit(old(GateNow()), e.kind).value
      ensures Admit(old(GateNow()), e.kind).Some? && s.Ok? ==>
                var n, delta := old(number) + 1, e.kind.AssistantDelta?;
                var r := Record("E" + Decimal.Print(n), who.runId, n, old(last), e);
                && number == n && last == (if delta then old(last) else Some(r.recordId))
                && bus.delivered == old(bus.delivered) + [r]
                && Here().log == if store.persistenceEnabled && !delta then old(Here().log) + [r] else old(Here().log)
      ensures Admit(old(GateNow()), e.kind).Some? && s.Raised? ==>
                && s.cause == External
                && (Here().log == old(Here().log) || Here().log == EmitOne(Emitting(), old(Here()), e).log)
                && (Here().bus == old(Here().bus) || Here().bus == EmitOne(Emitting(), old(Here()), e).bus)
                && (Here().bus == old(Here().bus) ==> Here().log == old(Here().log))
                && (Here().bus != old(Here().bus) ==> Here().log == EmitOne(Emitting(), old(Here()), e).log)
      ensures store.Others(who.sessionId) == old(store.Others(who.sessionId))
    {
      if IsTerminal(e.kind) {
        if terminalEmitted {
          return Raised(DuplicateTerminal);
        }
        terminalEmitted := true;
      }
      number := number + 1;
      var r := Record(EventId(number), who.runId, number, last, e);
      :- fsm.Transition(e.kind);
      :- store.AppendEvent(who.sessionId, r);
      if IsPersisted(e.kind) {
        last := Some(r.recordId);
      }
      s := bus.Emit(r);
    }

    /** Emits the k-th event of a plan whose first k events are out. */
    method EmitNext(ghost start: Cursor, ghost plan: seq<Event>, ghost k: nat, e: Event) returns (s: Signal)
      requires k < |plan| && plan[k] == e
      requires Here() == EmitAll(Emitting(), start, plan[..k])
      requires Admit(GateNow(), e.kind).Some?
      modifies this, store, bus, fsm
      ensures s.Ok? ==> Here() == EmitAll(Emitting(), start, plan[..k + 1])
      ensures s.Ok? ==> GateNow() == Admit(old(GateNow()), e.kind).value
      ensures s.Raised? ==> s.cause == External && CutWithin(Emitting(), start, Here(), plan, k, k + 1)
      ensures store.Others(who.sessionId) == old(store.Others(who.sessionId))
    {
      assert plan[..k + 1][..k] == plan[..k];
      ghost var before := Here();
      s := Emit(e);
      if s.Raised? {
        if Here().bus == before.bus {
          assert CutAt(Emitting(), start, Here(), plan, k);
        } else {
          assert CutAt(Emitting(), start, Here(), plan, k + 1);
        }
      }
    }
  }
}
