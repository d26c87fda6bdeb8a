/** The machine's own stream seen by the strict replay: producer and consumer agree. */
module Audit {
  import opened Domain
  import opened StateMachine
  import Timeline

  predicate Accepted(m: Machine) { Timeline.Run(m.log).Some? }

  /** The replay of an accepted stream ends where the machine is. */
  ghost predicate Agrees(m: Machine) {
    Accepted(m) ==>
      var r := Timeline.Run(m.log).value;
      && Timeline.StateOf(r, m.conversationId) == m.state
      && Timeline.SequenceOf(r, m.conversationId) == m.sequence
      && Timeline.ClockOf(r, m.conversationId) <= m.clock.Now()
  }

  ghost predicate Consistent(m: Machine) {
    && NonDecreasing(m.clock.at)
    && m.conversationId != ""
    && Agrees(m)
  }

  /** The correlations of the conversation under which an interruption candidate is open. */
  function CandidatesOf(r: Timeline.Replay, conversationId: string): set<string> {
    set key | key in r.candidates && key.0 == conversationId :: key.1
  }

  /** The chunks a stream says were scheduled, in order. */
  function ScheduledIn(log: seq<Event>): seq<string> {
    if log == [] then []
    else
      var e := log[|log| - 1];
      ScheduledIn(log[..|log| - 1])
      + (if e.Event? && e.eventType.AudioChunkScheduled? && e.payload.ChunkDetails? then [e.payload.chunkId] else [])
  }

  /** What anybody reads off a stream: is it accepted, which candidates wait, what was scheduled. */
  datatype Digest = Digest(accepted: bool, candidates: set<string>, scheduled: seq<string>)

  function DigestOf(m: Machine): Digest {
    match Timeline.Run(m.log)
    case None => Digest(false, {}, ScheduledIn(m.log))
    case Some(r) => Digest(true, CandidatesOf(r, m.conversationId), ScheduledIn(m.log))
  }

  /** One more event: the only way to lose acceptance is a cancellation nobody announced. */
  function After(d: Digest, kind: EventType, correlation: string, payload: Payload): Digest {
    var scheduled := if kind.AudioChunkScheduled? && payload.ChunkDetails? then d.scheduled + [payload.chunkId]
                     else d.scheduled;
    if !d.accepted || (kind.AgentAudioCancelled? && correlation !in d.candidates) then Digest(false, {}, scheduled)
    else if kind.InterruptionCandidate? then Digest(true, d.candidates + {correlation}, scheduled)
    else if kind.AgentAudioCancelled? then Digest(true, d.candidates - {correlation}, scheduled)
    else Digest(true, d.candidates, scheduled)
  }

  lemma TickKeeps(m: Machine)
    requires Consistent(m)
    ensures Consistent(m.Tick())
  {
    assert m.clock.at(m.clock.taken) <= m.clock.at(m.clock.taken + 1);
  }

  lemma ScheduledAppend(log: seq<Event>, e: Event)
    ensures ScheduledIn(log + [e])
            == ScheduledIn(log)
               + (if e.Event? && e.eventType.AudioChunkScheduled? && e.payload.ChunkDetails?
                  then [e.payload.chunkId] else [])
  {
    assert (log + [e])[..|log|] == log;
  }

  lemma ReplayAppend(m: Machine, e: Event)
    requires Consistent(m) && Next(m, e)
    ensures Accepted(m) ==>
              var r := Timeline.Run(m.log).value;
              && (Timeline.Fits(r, e) <==> Timeline.CancellationFits(r, e))
              && Timeline.Run(m.log + [e])
                 == (if Timeline.CancellationFits(r, e) then Some(Timeline.Apply(r, e)) else None)
    ensures !Accepted(m) ==> Timeline.Run(m.log + [e]).None?
  {
    Timeline.RunAppend(m.log, e);
  }

  lemma ApplyCandidates(r: Timeline.Replay, e: Event)
    requires Timeline.Fits(r, e)
    ensures var c := CandidatesOf(r, e.conversationId);
      CandidatesOf(Timeline.Apply(r, e), e.conversationId)
      == if e.eventType.InterruptionCandidate? then c + {e.correlationId}
         else if e.eventType.AgentAudioCancelled? then c - {e.correlationId}
         else c
  {
    var c := CandidatesOf(r, e.conversationId);
    var c' := CandidatesOf(Timeline.Apply(r, e), e.conversationId);
    forall x: string
      ensures x in c <==> (e.conversationId, x) in r.candidates
      ensures x in c' <==> (e.conversationId, x) in Timeline.Apply(r, e).candidates
    {
      CandidateKeys(r, e.conversationId, x);
      CandidateKeys(Timeline.Apply(r, e), e.conversationId, x);
    }
  }

  /** Recording keeps the replay in agreement, and `After` says what becomes of the digest. */
  lemma RecordKeeps(m: Machine, kind: EventType, correlation: string, payload: Payload)
    requires Consistent(m) && correlation != "" && !kind.StateTransitioned?
    ensures var m' := m.Record(kind, correlation, payload);
      Consistent(m') && DigestOf(m') == After(DigestOf(m), kind, correlation, payload)
  {
    var e := Event(m.conversationId, correlation, m.sequence + 1, m.clock.Now(), kind, m.state, payload);
    AppendKeeps(m, e);
  }

  lemma MoveKeeps(m: Machine, target: ConversationState, correlation: string)
    requires Consistent(m) && correlation != "" && m.CanMove(target)
    ensures Consistent(m.Move(target, correlation)) && DigestOf(m.Move(target, correlation)) == DigestOf(m)
  {
    var e := Event(m.conversationId, correlation, m.sequence + 1, m.clock.Now(), StateTransitioned, target,
                   TransitionDetails(Some(m.state), Some(target)));
    AppendKeeps(m, e);
  }

  /** The event a machine is about to send, as far as the replay of that machine can tell. */
  predicate Next(m: Machine, e: Event) {
    && e.Event? && e.conversationId == m.conversationId && e.correlationId != ""
    && e.sequence == m.sequence + 1 && e.ns == m.clock.Now()
    && (if e.eventType.StateTransitioned?
        then e.payload == TransitionDetails(Some(m.state), Some(e.state)) && e.state in AllowedTransitions(m.state)
        else e.state == m.state)
  }

  function Sent(m: Machine, e: Event): Machine
    requires e.Event?
  {
    m.(state := e.state, sequence := m.sequence + 1, clock := m.clock.Advance(), log := m.log + [e])
  }

  lemma AppendAgrees(m: Machine, e: Event)
    requires Consistent(m) && Next(m, e)
    ensures Consistent(Sent(m, e))
  {
    hide Timeline.Run;
    ReplayAppend(m, e);
    assert m.clock.at(m.clock.taken) <= m.clock.at(m.clock.taken + 1);
  }

  lemma AppendKeeps(m: Machine, e: Event)
    requires Consistent(m) && Next(m, e)
    ensures Consistent(Sent(m, e))
    ensures DigestOf(Sent(m, e)) == After(DigestOf(m), e.eventType, e.correlationId, e.payload)
  {
    hide Timeline.Run, Timeline.Fits, Timeline.Apply, Consistent, ScheduledIn, CandidatesOf;
    AppendAgrees(m, e);
    ReplayAppend(m, e);
    ScheduledAppend(m.log, e);
    if Accepted(m) {
      var r := Timeline.Run(m.log).value;
      CandidateKeys(r, m.conversationId, e.correlationId);
      if Timeline.Fits(r, e) { ApplyCandidates(r, e); }
    }
  }

  lemma CandidateKeys(r: Timeline.Replay, conversationId: string, correlation: string)
    ensures correlation in CandidatesOf(r, conversationId) <==> (conversationId, correlation) in r.candidates
  {
    var c := CandidatesOf(r, conversationId);
    if correlation in c {
      var key :| key in r.candidates && key.0 == conversationId && key.1 == correlation;
      assert key == (conversationId, correlation);
    }
    if (conversationId, correlation) in r.candidates { assert (conversationId, correlation).1 in c; }
  }
}
