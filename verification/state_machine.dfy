/** The conversation state machine: a value describing it and the object that updates it in place. */
module StateMachine {
  import opened Domain

  datatype OperationToken = OperationToken(conversationId: string, epoch: nat)

  /** The machine's fields together with everything its sink has received. */
  datatype Machine = Machine(
    conversationId: string,
    state: ConversationState,
    revision: nat,
    sequence: nat,
    epoch: nat,
    clock: Clock,
    log: seq<Event>)
  {
    /** Reading the clock for something other than an event. */
    function Tick(): Machine { this.(clock := clock.Advance()) }

    function Record(kind: EventType, correlation: string, payload: Payload): Machine {
      this.(
        sequence := sequence + 1,
        clock := clock.Advance(),
        log := log + [Event(conversationId, correlation, sequence + 1, clock.Now(), kind, state, payload)])
    }

    predicate CanMove(target: ConversationState) {
      target != state && target in AllowedTransitions(state)
    }

    function Move(target: ConversationState, correlation: string): Machine
      requires CanMove(target)
    {
      this.(state := target, revision := revision + 1)
          .Record(StateTransitioned, correlation, TransitionDetails(Some(state), Some(target)))
    }

    function Invalidate(correlation: string): Machine {
      this.(epoch := epoch + 1).Record(OperationInvalidated, correlation, NoDetails)
    }

    predicate Current(token: OperationToken) {
      token.conversationId == conversationId && token.epoch == epoch
    }

    /** Asking about a result; a stale one leaves a trace in the stream. */
    function Accept(token: OperationToken, correlation: string): Machine {
      if Current(token) then this else Record(StaleResultRejected, correlation, NoDetails)
    }
  }

  /** The machine as an object whose methods update its fields and feed its sink. */
  class ConversationStateMachine {
    const conversationId: string
    const at: nat -> nat
    var state: ConversationState
    var revision: nat
    var sequence: nat
    var operationEpoch: nat
    var taken: nat
    var sink: seq<Event>

    ghost function View(): Machine
      reads this
    {
      Machine(conversationId, state, revision, sequence, operationEpoch, Clock(at, taken), sink)
    }

    constructor (conversationId: string, at: nat -> nat)
      ensures View() == Machine(conversationId, Idle, 0, 0, 0, Clock(at, 0), [])
    {
      this.conversationId := conversationId;
      this.at := at;
      state, revision, sequence, operationEpoch, taken, sink := Idle, 0, 0, 0, 0, [];
    }

    method Now() returns (ns: nat)
      modifies this
      ensures ns == old(View()).clock.Now() && View() == old(View()).Tick()
    {
      ns := at(taken);
      taken := taken + 1;
    }

    method Emit(kind: EventType, correlation: string, payload: Payload)
      modifies this
      ensures View() == old(View()).Record(kind, correlation, payload)
    {
      sequence := sequence + 1;
      var ns := Now();
      sink := sink + [Event(conversationId, correlation, sequence, ns, kind, state, payload)];
    }

    /** Fails without any effect when the graph has no such edge. */
    method Transition(target: ConversationState, correlation: string) returns (moved: bool)
      modifies this
      ensures moved == old(View()).CanMove(target)
      ensures View() == if moved then old(View()).Move(target, correlation) else old(View())
    {
      var source := state;
      if target == source || target !in AllowedTransitions(source) {
        return false;
      }
      state := target;
      revision := revision + 1;
      Emit(StateTransitioned, correlation, TransitionDetails(Some(source), Some(target)));
      moved := true;
    }

    method IssueOperation() returns (token: OperationToken)
      ensures token == OperationToken(conversationId, operationEpoch) && View().Current(token)
    {
      token := OperationToken(conversationId, operationEpoch);
    }

    method InvalidateOperations(correlation: string)
      modifies this
      ensures View() == old(View()).Invalidate(correlation)
    {
      operationEpoch := operationEpoch + 1;
      Emit(OperationInvalidated, correlation, NoDetails);
    }

    method AcceptResult(token: OperationToken, correlation: string) returns (current: bool)
      modifies this
      ensures current == old(View()).Current(token)
      ensures View() == old(View()).Accept(token, correlation)
    {
      current := token.conversationId == conversationId && token.epoch == operationEpoch;
      if !current {
        Emit(StaleResultRejected, correlation, NoDetails);
      }
    }
  }
}
