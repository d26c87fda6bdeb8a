/** Strict replay of a recorded timeline: acceptance and the latency samples it derives. */
module Timeline {
  import opened Domain

  /** What one pass over a timeline remembers. */
  datatype Replay = Replay(
    states: map<string, ConversationState>,
    sequences: map<string, int>,
    clocks: map<string, int>,
    turns: map<(string, string), int>,
    candidates: map<(string, string), int>,
    ttfa: seq<real>,
    barge: seq<real>)

  const Start := Replay(map[], map[], map[], map[], map[], [], [])

  function StateOf(r: Replay, c: string): ConversationState {
    if c in r.states then r.states[c] else Idle
  }

  function SequenceOf(r: Replay, c: string): int {
    if c in r.sequences then r.sequences[c] else 0
  }

  function ClockOf(r: Replay, c: string): int {
    if c in r.clocks then r.clocks[c] else 0
  }

  function Millis(ns: int): real { ns as real / 1_000_000.0 }

  /** Sequence numbers have no gap and time does not run backwards, per conversation. */
  predicate EnvelopeFits(r: Replay, e: Event) {
    && e.Event?
    && e.conversationId != "" && e.correlationId != ""
    && e.sequence == SequenceOf(r, e.conversationId) + 1
    && e.ns >= ClockOf(r, e.conversationId)
  }

  /** A transition starts where the conversation is, follows the graph and is recorded at its target. */
  predicate StateFits(r: Replay, e: Event)
    requires e.Event?
  {
    var current := StateOf(r, e.conversationId);
    if e.eventType.StateTransitioned? then
      && e.payload.TransitionDetails?
      && e.payload.fromState == Some(current)
      && e.payload.toState.Some?
      && e.payload.toState.value in AllowedTransitions(current)
      && e.state == e.payload.toState.value
    else
      e.state == current
  }

  /** An audio cancellation needs an open interruption candidate under its own correlation. */
  predicate CancellationFits(r: Replay, e: Event)
    requires e.Event?
  {
    e.eventType.AgentAudioCancelled? ==> (e.conversationId, e.correlationId) in r.candidates
  }

  predicate Fits(r: Replay, e: Event) {
    EnvelopeFits(r, e) && StateFits(r, e) && CancellationFits(r, e)
  }

  function TurnsAfter(r: Replay, e: Event): map<(string, string), int>
    requires e.Event?
  {
    var key := (e.conversationId, e.correlationId);
    if e.eventType.TurnConfirmed? then r.turns[key := e.ns]
    else if e.eventType.AgentAudioStarted? && key in r.turns then r.turns - {key}
    else r.turns
  }

  function CandidatesAfter(r: Replay, e: Event): map<(string, string), int>
    requires e.Event?
  {
    var key := (e.conversationId, e.correlationId);
    if e.eventType.InterruptionCandidate? then r.candidates[key := e.ns]
    else if e.eventType.AgentAudioCancelled? then r.candidates - {key}
    else r.candidates
  }

  /** The first audio after a confirmed turn yields a sample. */
  function NewTtfa(r: Replay, e: Event): seq<real>
    requires e.Event?
  {
    var key := (e.conversationId, e.correlationId);
    if e.eventType.AgentAudioStarted? && key in r.turns then [Millis(e.ns - r.turns[key])] else []
  }

  /** A cancellation yields a sample. */
  function NewBarge(r: Replay, e: Event): seq<real>
    requires e.Event?
  {
    var key := (e.conversationId, e.correlationId);
    if e.eventType.AgentAudioCancelled? && key in r.candidates then [Millis(e.ns - r.candidates[key])] else []
  }

  /** One event of an accepted timeline. */
  function Apply(r: Replay, e: Event): Replay
    requires Fits(r, e)
  {
    var c := e.conversationId;
    Replay(
      if e.eventType.StateTransitioned? then r.states[c := e.state] else r.states,
      r.sequences[c := e.sequence],
      r.clocks[c := e.ns],
      TurnsAfter(r, e),
      CandidatesAfter(r, e),
      r.ttfa + NewTtfa(r, e),
      r.barge + NewBarge(r, e))
  }

  /** The whole timeline, or `None` as soon as one event does not fit. */
  function Run(events: seq<Event>): Option<Replay> {
    if events == [] then Some(Start)
    else
      var last := |events| - 1;
      match Run(events[..last])
      case None => None
      case Some(r) => if Fits(r, events[last]) then Some(Apply(r, events[last])) else None
  }

  lemma RunAppend(events: seq<Event>, e: Event)
    ensures Run(events + [e]) ==
            match Run(events)
            case None => None
            case Some(r) => if Fits(r, e) then Some(Apply(r, e)) else None
  {
    assert (events + [e])[..|events|] == events;
  }

  /** What a replay reports; only conversations that changed state are counted. */
  datatype Summary = Summary(events: nat, conversations: nat, ttfa: seq<real>, barge: seq<real>)

  /** One pass over the timeline; `None` is any of the errors it can raise. */
  method ReplayTimeline(events: seq<Event>) returns (result: Option<Summary>)
    ensures result == match Run(events)
                      case None => None
                      case Some(r) => Some(Summary(|events|, |r.states|, r.ttfa, r.barge))
  {
    hide Run, Apply, AllowedTransitions, Millis;
    assert Run([]) == Some(Start) by { RunStart(); }
    var states: map<string, ConversationState> := map[];
    var sequences: map<string, int>, clocks: map<string, int> := map[], map[];
    var turnStarted: map<(string, string), int>, interruptionStarted: map<(string, string), int> := map[], map[];
    var ttfa: seq<real>, barge: seq<real> := [], [];
    var i := 0;
    while i < |events|
      invariant i <= |events|
      invariant Run(events[..i])
                == Some(Replay(states, sequences, clocks, turnStarted, interruptionStarted, ttfa, barge))
    {
      var event := events[i];
      ghost var r := Replay(states, sequences, clocks, turnStarted, interruptionStarted, ttfa, barge);
      RunNext(events, i, r);
      if !event.Event? || event.conversationId == "" || event.correlationId == "" {
        return None;
      }
      var id := event.conversationId;
      var expected := (if id in sequences then sequences[id] else 0) + 1;
      var clock := if id in clocks then clocks[id] else 0;
      if event.sequence != expected || event.ns < clock {
        return None;
      }
      sequences := sequences[id := event.sequence];
      clocks := clocks[id := event.ns];
      var current := if id in states then states[id] else Idle;
      if event.eventType.StateTransitioned? {
        var readable := event.payload.TransitionDetails? && event.payload.fromState.Some? && event.payload.toState.Some?;
        if !readable
          || event.payload.fromState.value != current
          || event.payload.toState.value !in AllowedTransitions(current)
          || event.state != event.payload.toState.value
        {
          return None;
        }
        states := states[id := event.payload.toState.value];
      } else if event.state != current {
        return None;
      }
      var key := (id, event.correlationId);
      if event.eventType.TurnConfirmed? {
        turnStarted := turnStarted[key := event.ns];
      } else if event.eventType.AgentAudioStarted? && key in turnStarted {
        ttfa := ttfa + [Millis(event.ns - turnStarted[key])];
        turnStarted := turnStarted - {key};
      } else if event.eventType.InterruptionCandidate? {
        interruptionStarted := interruptionStarted[key := event.ns];
      } else if event.eventType.AgentAudioCancelled? {
        if key !in interruptionStarted {
          return None;
        }
        barge := barge + [Millis(event.ns - interruptionStarted[key])];
        interruptionStarted := interruptionStarted - {key};
      }
      Applied(r, event, states, turnStarted, interruptionStarted, ttfa, barge);
      i := i + 1;
    }
    assert events[..|events|] == events;
    result := Some(Summary(|events|, |states|, ttfa, barge));
  }

  lemma Applied(r: Replay, e: Event, states: map<string, ConversationState>, turns: map<(string, string), int>,
                candidates: map<(string, string), int>, ttfa: seq<real>, barge: seq<real>)
    requires Fits(r, e)
    requires states == if e.eventType.StateTransitioned? then r.states[e.conversationId := e.state] else r.states
    requires turns == TurnsAfter(r, e) && ttfa == r.ttfa + NewTtfa(r, e)
    requires candidates == CandidatesAfter(r, e) && barge == r.barge + NewBarge(r, e)
    ensures Apply(r, e) == Replay(states, r.sequences[e.conversationId := e.sequence], r.clocks[e.conversationId := e.ns],
                                  turns, candidates, ttfa, barge)
  {
  }

  lemma RunNext(events: seq<Event>, i: nat, r: Replay)
    requires i < |events| && Run(events[..i]) == Some(r)
    ensures Fits(r, events[i]) ==> Run(events[..i + 1]) == Some(Apply(r, events[i]))
    ensures !Fits(r, events[i]) ==> Run(events).None?
  {
    hide Fits, Apply;
    assert events[..i + 1] == events[..i] + [events[i]];
    RunAppend(events[..i], events[i]);
    if !Fits(r, events[i]) { RunRefused(events, i + 1); }
  }

  lemma RunStart()
    ensures Run([]) == Some(Start)
  {
  }

  /** A timeline that is refused somewhere is refused as a whole. */
  lemma {:induction false} RunRefused(events: seq<Event>, i: nat)
    requires i <= |events| && Run(events[..i]).None?
    ensures Run(events).None?
  {
    if i == |events| {
      assert events[..i] == events;
    } else {
      var front := events[..|events| - 1];
      assert front[..i] == events[..i];
      RunRefused(front, i);
    }
  }
}
