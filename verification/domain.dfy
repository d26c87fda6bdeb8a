/** Conversation lifecycle, telemetry records and the clock shared by every core. */
module Domain {

  datatype Option<+T> = None | Some(value: T)

  datatype Result<+T, +E> = Ok(value: T) | Err(error: E)

  datatype ConversationState =
    | Idle
    | Listening
    | PossibleEndOfTurn
    | Thinking
    | Speaking
    | PossibleInterruption
    | Interrupted
    | Overlap
    | ToolWait
    | Recovering
    | Handoff
    | Disconnecting
    | Failed

  /** The lifecycle graph; the machine enforces it and the replay checks it. */
  function AllowedTransitions(source: ConversationState): set<ConversationState> {
    match source
    case Idle => {Listening, Disconnecting, Failed}
    case Listening => {PossibleEndOfTurn, Thinking, Overlap, Disconnecting, Failed}
    case PossibleEndOfTurn => {Listening, Thinking, Disconnecting, Failed}
    case Thinking => {Speaking, ToolWait, Listening, Interrupted, Recovering, Disconnecting, Failed}
    case Speaking =>
      {PossibleInterruption, Interrupted, Overlap, Listening, Recovering, Disconnecting, Failed}
    case PossibleInterruption => {Speaking, Interrupted, Overlap, Disconnecting, Failed}
    case Interrupted => {Listening, Thinking, Overlap, Recovering, Disconnecting, Failed}
    case Overlap => {Listening, Speaking, Interrupted, Recovering, Disconnecting, Failed}
    case ToolWait => {Speaking, Thinking, Listening, Recovering, Disconnecting, Failed}
    case Recovering => {Listening, Thinking, Speaking, Handoff, Disconnecting, Failed}
    case Handoff => {Listening, Disconnecting, Failed}
    case Disconnecting => {Idle, Failed}
    case Failed => {Recovering, Handoff, Disconnecting}
  }

  /** The event types the session and the replay tell apart; the rest is `OtherEvent`. */
  datatype EventType =
    | StateTransitioned
    | OperationInvalidated
    | StaleResultRejected
    | TurnConfirmed
    | InterruptionCandidate
    | InterruptionConfirmed
    | AudioCancelSignal
    | AudioChunkReceived
    | AudioChunkScheduled
    | AudioChunkPlayed
    | StaleChunkRejected
    | DuplicateChunkRejected
    | PlaybackOwnerCreated
    | PlaybackOwnerDestroyed
    | AgentGenerationStarted
    | AgentGenerationCompleted
    | AgentAudioStarted
    | AgentAudioCancelled
    | AgentAudioCompleted
    | AudibleStopAck
    | AudioStopUnconfirmed
    | TtsSpeechRetry
    | RecoveryStarted
    | RecoveryCompleted
    | OtherEvent

  /** The part of a payload that any consumer reads. */
  datatype Payload =
    | NoDetails
    | TransitionDetails(fromState: Option<ConversationState>, toState: Option<ConversationState>)
    | ResponseDetails(responseId: string)
    | ChunkDetails(ownerId: string, chunkId: string)

  /**
   * One line of a timeline. `Malformed` stands for a line whose envelope cannot be read;
   * its conversation may still be legible.
   */
  datatype Event =
    | Malformed(claimedConversation: Option<string>)
    | Event(
        conversationId: string,
        correlationId: string,
        sequence: int,
        ns: int,
        eventType: EventType,
        state: ConversationState,
        payload: Payload)

  /** A clock as its successive readings; `taken` counts the readings already taken. */
  datatype Clock = Clock(at: nat -> nat, taken: nat) {
    function Now(): nat { at(taken) }

    function Advance(): Clock { this.(taken := taken + 1) }
  }

  /** The one assumption about time: later readings never go back. */
  ghost predicate NonDecreasing(at: nat -> nat) {
    forall i: nat, j: nat | i <= j :: at(i) <= at(j)
  }
}
