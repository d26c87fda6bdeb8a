/** What strict replay accepts and measures, told by the positions of events alone. */
module TimelineTheorems {
  import opened Domain
  import opened Timeline

  /** Conversation and correlation of an event. */
  type Key = (string, string)

  predicate Has(e: Event, kind: EventType, key: Key) {
    e.Event? && e.eventType == kind && e.conversationId == key.0 && e.correlationId == key.1
  }

  function KeyOf(e: Event): Key
    requires e.Event?
  {
    (e.conversationId, e.correlationId)
  }

  /** The event at `i` is the last that opened something under the key, and nothing has closed it since. */
  predicate Pending(events: seq<Event>, opens: EventType, closes: EventType, key: Key, i: nat): (p: bool)
    ensures p ==> i < |events| && events[i].Event?
  {
    i < |events| && Has(events[i], opens, key) && forall k | i < k < |events| :: !Touches(events[k], opens, closes, key)
  }

  predicate Touches(e: Event, opens: EventType, closes: EventType, key: Key) {
    Has(e, opens, key) || Has(e, closes, key)
  }

  // ----- samples -----

  /** The event closes something that was open. */
  ghost predicate Closes(before: seq<Event>, e: Event, opens: EventType, closes: EventType): (p: bool)
    ensures p ==> e.Event?
  {
    e.Event? && e.eventType == closes && exists i: nat :: Pending(before, opens, closes, KeyOf(e), i)
  }

  /** The milliseconds since the event that opened it. */
  ghost predicate Measures(before: seq<Event>, e: Event, opens: EventType, closes: EventType, sample: real) {
    e.Event?
    && forall i: nat | Pending(before, opens, closes, KeyOf(e), i) ::
         sample == (e.ns - before[i].ns) as real / 1_000_000.0
  }

  /** The events that close something, in order, and one sample for each. */
  ghost predicate SamplesAt(events: seq<Event>, opens: EventType, closes: EventType, samples: seq<real>, js: seq<nat>) {
    && |js| == |samples|
    && (forall k, l | 0 <= k < l < |js| :: js[k] < js[l])
    && (forall k | 0 <= k < |js| ::
          && js[k] < |events| && Closes(events[..js[k]], events[js[k]], opens, closes)
          && Measures(events[..js[k]], events[js[k]], opens, closes, samples[k]))
    && (forall j: nat | j < |events| && Closes(events[..j], events[j], opens, closes) :: j in js)
  }

  ghost predicate Samples(events: seq<Event>, opens: EventType, closes: EventType, samples: seq<real>) {
    exists js: seq<nat> :: SamplesAt(events, opens, closes, samples, js)
  }

  // ----- what a replay remembers -----

  ghost predicate Marks(events: seq<Event>, open: map<Key, int>, opens: EventType, closes: EventType) {
    forall key :: Marked(events, if key in open then Some(open[key]) else None, opens, closes, key)
  }

  /** What is open under a key, if anything is, and since when. */
  ghost predicate Marked(events: seq<Event>, since: Option<int>, opens: EventType, closes: EventType, key: Key) {
    if since.Some? then exists i: nat :: OpenSince(events, since.value, opens, closes, key, i)
    else forall i: nat :: !Pending(events, opens, closes, key, i)
  }

  predicate OpenSince(events: seq<Event>, ns: int, opens: EventType, closes: EventType, key: Key, i: nat) {
    Pending(events, opens, closes, key, i) && ns == events[i].ns
  }

  lemma {:induction false} KeyHas(e: Event, kind: EventType, key: Key)
    requires e.Event?
    ensures Has(e, kind, key) <==> e.eventType == kind && KeyOf(e) == key
  {
  }

  lemma {:induction false} PendingLast(events: seq<Event>, e: Event, opens: EventType, closes: EventType, key: Key)
    requires Has(e, opens, key)
    ensures Pending(events + [e], opens, closes, key, |events|)
  {
  }

  /** An event that neither opens nor closes anything under the key. */
  lemma {:induction false} PendingPasses(events: seq<Event>, e: Event,
                                         opens: EventType, closes: EventType, key: Key, i: nat)
    requires !Touches(e, opens, closes, key)
    ensures Pending(events + [e], opens, closes, key, i) <==> Pending(events, opens, closes, key, i)
  {
    hide Has, Touches;
    var all, n := events + [e], |events|;
    TouchesIs(e, opens, closes, key);
    if Pending(events, opens, closes, key, i) {
      forall k | i < k < |all| ensures !Touches(all[k], opens, closes, key) {
        if k < n { assert !Touches(events[k], opens, closes, key); }
      }
    }
    if Pending(all, opens, closes, key, i) {
      forall k | i < k < n ensures !Touches(events[k], opens, closes, key) {
        assert !Touches(all[k], opens, closes, key);
      }
    }
  }

  lemma {:induction false} PendingStops(events: seq<Event>, e: Event,
                                         opens: EventType, closes: EventType, key: Key, i: nat)
    requires Touches(e, opens, closes, key) && !Has(e, opens, key)
    ensures !Pending(events + [e], opens, closes, key, i)
  {
    hide Has, Touches;
    var all := events + [e];
    assert Touches(all[|events|], opens, closes, key) && !Has(all[|events|], opens, key);
  }

  lemma TouchesIs(e: Event, opens: EventType, closes: EventType, key: Key)
    ensures Touches(e, opens, closes, key) <==> Has(e, opens, key) || Has(e, closes, key)
  {
  }

  lemma {:induction false} PendingStays(events: seq<Event>, e: Event,
                                         opens: EventType, closes: EventType, key: Key, i: nat)
    requires !Has(e, opens, key)
    ensures Pending(events + [e], opens, closes, key, i) <==> !Has(e, closes, key) && Pending(events, opens, closes, key, i)
  {
    hide Pending, Has, Touches;
    TouchesIs(e, opens, closes, key);
    if Touches(e, opens, closes, key) { PendingStops(events, e, opens, closes, key, i); }
    else { PendingPasses(events, e, opens, closes, key, i); }
  }

  lemma {:induction false} PendingOnce(events: seq<Event>,
                                         opens: EventType, closes: EventType, key: Key, i: nat, j: nat)
    requires Pending(events, opens, closes, key, i) && Pending(events, opens, closes, key, j)
    ensures i == j
  {
  }

  lemma {:induction false} MarkedNext(events: seq<Event>, e: Event, since: Option<int>, opens: EventType, closes: EventType,
                                      key: Key)
    requires e.Event? && Marked(events, since, opens, closes, key)
    ensures Marked(events + [e], if Has(e, opens, key) then Some(e.ns) else if Has(e, closes, key) then None else since,
                   opens, closes, key)
  {
    hide Pending, Has, OpenSince;
    var all := events + [e];
    if Has(e, opens, key) {
      SinceLast(events, e, opens, closes, key);
    } else if Has(e, closes, key) {
      forall i: nat ensures !Pending(all, opens, closes, key, i) { PendingStays(events, e, opens, closes, key, i); }
    } else if since.Some? {
      var i: nat :| OpenSince(events, since.value, opens, closes, key, i);
      SinceStays(events, e, since.value, opens, closes, key, i);
    } else {
      forall i: nat ensures !Pending(all, opens, closes, key, i) { PendingStays(events, e, opens, closes, key, i); }
    }
  }

  lemma SinceLast(events: seq<Event>, e: Event, opens: EventType, closes: EventType, key: Key)
    requires Has(e, opens, key)
    ensures OpenSince(events + [e], e.ns, opens, closes, key, |events|)
  {
    hide Pending;
    PendingLast(events, e, opens, closes, key);
  }

  lemma {:induction false} SinceStays(events: seq<Event>, e: Event, since: int, opens: EventType, closes: EventType,
                                      key: Key, i: nat)
    requires !Has(e, opens, key) && !Has(e, closes, key) && OpenSince(events, since, opens, closes, key, i)
    ensures OpenSince(events + [e], since, opens, closes, key, i)
  {
    hide Pending, Has;
    PendingStays(events, e, opens, closes, key, i);
  }

  /** The memory after one more event: opened anew, closed, or unchanged. */
  lemma MarksNext(events: seq<Event>, e: Event, open: map<Key, int>, open': map<Key, int>,
                  opens: EventType, closes: EventType)
    requires opens != closes && e.Event? && Marks(events, open, opens, closes)
    requires open' == if e.eventType == opens then open[KeyOf(e) := e.ns]
                      else if e.eventType == closes then open - {KeyOf(e)} else open
    ensures Marks(events + [e], open', opens, closes)
  {
    hide Marked, Has;
    forall key ensures Marked(events + [e], if key in open' then Some(open'[key]) else None, opens, closes, key) {
      KeyHas(e, opens, key);
      KeyHas(e, closes, key);
      MarkedNext(events, e, if key in open then Some(open[key]) else None, opens, closes, key);
    }
  }

  lemma ClosesLast(events: seq<Event>, e: Event, open: map<Key, int>, opens: EventType, closes: EventType)
    requires e.Event? && Marks(events, open, opens, closes)
    ensures Closes(events, e, opens, closes) <==> e.eventType == closes && KeyOf(e) in open
    ensures KeyOf(e) in open ==> Measures(events, e, opens, closes, (e.ns - open[KeyOf(e)]) as real / 1_000_000.0)
  {
    hide Marked, Closes, Measures;
    var key := KeyOf(e);
    MarkedCloses(events, e, if key in open then Some(open[key]) else None, opens, closes);
  }

  lemma {:induction false} MarkedCloses(events: seq<Event>, e: Event, since: Option<int>, opens: EventType, closes: EventType)
    requires e.Event? && Marked(events, since, opens, closes, KeyOf(e))
    ensures Closes(events, e, opens, closes) <==> e.eventType == closes && since.Some?
    ensures since.Some? ==> Measures(events, e, opens, closes, (e.ns - since.value) as real / 1_000_000.0)
  {
    hide Pending, OpenSince, Measures, KeyOf;
    if since.Some? {
      var i: nat :| OpenSince(events, since.value, opens, closes, KeyOf(e), i);
      SinceMeasures(events, e, since.value, opens, closes, i);
    }
  }

  lemma {:induction false} SinceMeasures(events: seq<Event>, e: Event, since: int, opens: EventType, closes: EventType, i: nat)
    requires e.Event? && OpenSince(events, since, opens, closes, KeyOf(e), i)
    ensures Pending(events, opens, closes, KeyOf(e), i)
    ensures Measures(events, e, opens, closes, (e.ns - since) as real / 1_000_000.0)
  {
    hide Pending, KeyOf;
    forall j: nat | Pending(events, opens, closes, KeyOf(e), j)
      ensures (e.ns - since) as real / 1_000_000.0 == (e.ns - events[j].ns) as real / 1_000_000.0
    {
      SinceIs(events, since, opens, closes, KeyOf(e), i, j);
    }
  }

  lemma {:induction false} SinceIs(events: seq<Event>, since: int, opens: EventType, closes: EventType, key: Key,
                                   i: nat, j: nat)
    requires OpenSince(events, since, opens, closes, key, i) && Pending(events, opens, closes, key, j)
    ensures since == events[j].ns
  {
    hide Pending;
    PendingOnce(events, opens, closes, key, i, j);
  }

  /** The samples after one more event: one more exactly when it closes something. */
  lemma {:induction false} SamplesNext(events: seq<Event>, e: Event, open: map<Key, int>,
                                       samples: seq<real>, samples': seq<real>,
                    opens: EventType, closes: EventType)
    requires e.Event? && Marks(events, open, opens, closes) && Samples(events, opens, closes, samples)
    requires samples' == samples + (if e.eventType == closes && KeyOf(e) in open
                                    then [(e.ns - open[KeyOf(e)]) as real / 1_000_000.0] else [])
    ensures Samples(events + [e], opens, closes, samples')
  {
    hide Closes, Marks, Measures, SamplesAt;
    var js: seq<nat> :| SamplesAt(events, opens, closes, samples, js);
    ClosesLast(events, e, open, opens, closes);
    if Closes(events, e, opens, closes) {
      OneMoreSample(events, e, opens, closes, samples, js, (e.ns - open[KeyOf(e)]) as real / 1_000_000.0);
    } else {
      assert samples' == samples;
      NoMoreSample(events, e, opens, closes, samples, js);
    }
  }

  lemma {:induction false} NoMoreSample(events: seq<Event>, e: Event, opens: EventType, closes: EventType,
                                        samples: seq<real>, js: seq<nat>)
    requires SamplesAt(events, opens, closes, samples, js) && !Closes(events, e, opens, closes)
    ensures SamplesAt(events + [e], opens, closes, samples, js)
  {
    hide Closes, Measures;
    var all := events + [e];
    forall j | 0 <= j < |events| ensures all[..j] == events[..j] {
    }
    assert all[..|events|] == events;
  }

  lemma {:induction false} OneMoreSample(events: seq<Event>, e: Event, opens: EventType, closes: EventType,
                                         samples: seq<real>, js: seq<nat>,
                      sample: real)
    requires SamplesAt(events, opens, closes, samples, js)
    requires Closes(events, e, opens, closes) && Measures(events, e, opens, closes, sample)
    ensures SamplesAt(events + [e], opens, closes, samples + [sample], js + [|events|])
  {
    hide Closes, Measures;
    var n, all, js', samples' := |events|, events + [e], js + [|events|], samples + [sample];
    forall j | 0 <= j < n ensures all[..j] == events[..j] {
    }
    assert all[..n] == events;
    forall j: nat | j < |all| && Closes(all[..j], all[j], opens, closes) ensures j in js' {
      if j < n {
        assert j in js;
        var k :| 0 <= k < |js| && js[k] == j;
        assert js'[k] == j;
      } else {
        assert js'[|js|] == n;
      }
    }
  }

  // ----- states, numbers and times -----

  /** The last event of a conversation, or the last of its transitions. */
  predicate LastOf(events: seq<Event>, c: string, moving: bool, i: nat): (p: bool)
    ensures p ==> i < |events| && events[i].Event?
  {
    i < |events| && Concerns(events[i], c, moving) && forall k | i < k < |events| :: !Concerns(events[k], c, moving)
  }

  predicate Concerns(e: Event, c: string, moving: bool) {
    e.Event? && e.conversationId == c && (moving ==> e.eventType.StateTransitioned?)
  }

  /** The number of an event follows that of its conversation's event before it, and time does not run back. */
  ghost predicate Numbered(before: seq<Event>, e: Event)
    requires e.Event?
  {
    && (forall i: nat | LastOf(before, e.conversationId, false, i) ::
          e.sequence == before[i].sequence + 1 && e.ns >= before[i].ns)
    && ((forall i: nat :: !LastOf(before, e.conversationId, false, i)) ==> e.sequence == 1 && e.ns >= 0)
  }

  /** Where a conversation is: where its last transition led to, at first idle. */
  ghost predicate IsIn(events: seq<Event>, c: string, state: ConversationState) {
    && (forall i: nat | LastOf(events, c, true, i) :: state == events[i].state)
    && ((forall i: nat :: !LastOf(events, c, true, i)) ==> state == Idle)
  }

  /** A transition starts where its conversation is and follows the graph; any other event is recorded where it is. */
  ghost predicate Placed(before: seq<Event>, e: Event)
    requires e.Event?
  {
    forall state: ConversationState | IsIn(before, e.conversationId, state) ::
      if e.eventType.StateTransitioned?
      then e.payload == TransitionDetails(Some(state), Some(e.state)) && e.state in AllowedTransitions(state)
      else e.state == state
  }

  /** A cancellation of audio closes an interruption candidate of its own correlation. */
  ghost predicate Correlated(before: seq<Event>, e: Event)
    requires e.Event?
  {
    e.eventType.AgentAudioCancelled? ==>
      exists i: nat :: Pending(before, InterruptionCandidate, AgentAudioCancelled, KeyOf(e), i)
  }

  ghost predicate WellPlaced(before: seq<Event>, e: Event) {
    && e.Event? && e.conversationId != "" && e.correlationId != ""
    && Numbered(before, e) && Placed(before, e) && Correlated(before, e)
  }

  /** The number and the time of a conversation's last event, if it has one. */
  ghost predicate NumberKnown(events: seq<Event>, c: string, known: Option<(int, int)>) {
    if known.Some? then exists i: nat :: NumberAt(events, c, known.value.0, known.value.1, i)
    else forall i: nat :: !LastOf(events, c, false, i)
  }

  predicate NumberAt(events: seq<Event>, c: string, sequence: int, ns: int, i: nat) {
    LastOf(events, c, false, i) && events[i].sequence == sequence && events[i].ns == ns
  }

  /** The state that the last transition of a conversation led to, if it has one. */
  ghost predicate StateKnown(events: seq<Event>, c: string, known: Option<ConversationState>) {
    if known.Some? then exists i: nat :: StateAt(events, c, known.value, i) else forall i: nat :: !LastOf(events, c, true, i)
  }

  predicate StateAt(events: seq<Event>, c: string, state: ConversationState, i: nat) {
    LastOf(events, c, true, i) && events[i].state == state
  }

  lemma LastIs(events: seq<Event>, e: Event, c: string, moving: bool)
    requires Concerns(e, c, moving)
    ensures LastOf(events + [e], c, moving, |events|)
  {
    hide Concerns;
  }

  lemma {:induction false} LastStays(events: seq<Event>, e: Event, c: string, moving: bool, i: nat)
    requires !Concerns(e, c, moving)
    ensures LastOf(events + [e], c, moving, i) <==> LastOf(events, c, moving, i)
  {
    hide Concerns;
    var all, n := events + [e], |events|;
    if LastOf(events, c, moving, i) {
      forall k | i < k < |all| ensures !Concerns(all[k], c, moving) {
        if k < n { assert !Concerns(events[k], c, moving); }
      }
    }
    if LastOf(all, c, moving, i) {
      forall k | i < k < n ensures !Concerns(events[k], c, moving) { assert !Concerns(all[k], c, moving); }
    }
  }

  lemma {:induction false} LastOnce(events: seq<Event>, c: string, moving: bool, i: nat, j: nat)
    requires LastOf(events, c, moving, i) && LastOf(events, c, moving, j)
    ensures i == j
  {
  }

  lemma {:induction false} NumberNext(events: seq<Event>, e: Event, c: string, known: Option<(int, int)>)
    requires e.Event? && NumberKnown(events, c, known)
    ensures NumberKnown(events + [e], c, if e.conversationId == c then Some((e.sequence, e.ns)) else known)
  {
    hide LastOf;
    if e.conversationId == c {
      LastIs(events, e, c, false);
      assert NumberAt(events + [e], c, e.sequence, e.ns, |events|);
    } else if known.Some? {
      var i: nat :| NumberAt(events, c, known.value.0, known.value.1, i);
      LastStays(events, e, c, false, i);
      assert NumberAt(events + [e], c, known.value.0, known.value.1, i);
    } else {
      forall i: nat ensures !LastOf(events + [e], c, false, i) { LastStays(events, e, c, false, i); }
    }
  }

  lemma {:induction false} StateNext(events: seq<Event>, e: Event, c: string, known: Option<ConversationState>)
    requires e.Event? && StateKnown(events, c, known)
    ensures StateKnown(events + [e], c, if Concerns(e, c, true) then Some(e.state) else known)
  {
    hide LastOf;
    if Concerns(e, c, true) {
      LastIs(events, e, c, true);
      assert StateAt(events + [e], c, e.state, |events|);
    } else if known.Some? {
      var i: nat :| StateAt(events, c, known.value, i);
      LastStays(events, e, c, true, i);
      assert StateAt(events + [e], c, known.value, i);
    } else {
      forall i: nat ensures !LastOf(events + [e], c, true, i) { LastStays(events, e, c, true, i); }
    }
  }

  lemma {:induction false} NumberDecides(before: seq<Event>, e: Event, known: Option<(int, int)>)
    requires e.Event? && NumberKnown(before, e.conversationId, known)
    ensures Numbered(before, e) <==>
              if known.Some? then e.sequence == known.value.0 + 1 && e.ns >= known.value.1 else e.sequence == 1 && e.ns >= 0
  {
    hide LastOf;
    if known.Some? {
      var i: nat :| NumberAt(before, e.conversationId, known.value.0, known.value.1, i);
      forall j: nat | LastOf(before, e.conversationId, false, j) ensures j == i {
        LastOnce(before, e.conversationId, false, i, j);
      }
    }
  }

  lemma {:induction false} StateIs(before: seq<Event>, c: string, known: Option<ConversationState>)
    requires StateKnown(before, c, known)
    ensures forall state: ConversationState :: IsIn(before, c, state) <==> state == if known.Some? then known.value else Idle
  {
    hide LastOf;
    if known.Some? {
      var i: nat :| StateAt(before, c, known.value, i);
      forall j: nat | LastOf(before, c, true, j) ensures j == i { LastOnce(before, c, true, i, j); }
    }
  }

  // ----- the whole replay -----

  /** What a replay remembers is what the timeline says. */
  ghost predicate Remembers(events: seq<Event>, r: Replay) {
    && r.clocks.Keys == r.sequences.Keys
    && (forall c: string :: NumberKnown(events, c, if c in r.sequences then Some((r.sequences[c], r.clocks[c])) else None))
    && (forall c: string :: StateKnown(events, c, if c in r.states then Some(r.states[c]) else None))
    && Marks(events, r.turns, TurnConfirmed, AgentAudioStarted)
    && Marks(events, r.candidates, InterruptionCandidate, AgentAudioCancelled)
    && Samples(events, TurnConfirmed, AgentAudioStarted, r.ttfa)
    && Samples(events, InterruptionCandidate, AgentAudioCancelled, r.barge)
  }

  lemma FitsExactly(events: seq<Event>, r: Replay, e: Event)
    requires Remembers(events, r)
    ensures Fits(r, e) <==> WellPlaced(events, e)
  {
    hide Marks, Samples, Numbered, Placed, Correlated, NumberKnown, StateKnown, StateFits, CancellationFits;
    if e.Event? {
      var c := e.conversationId;
      NumberDecides(events, e, if c in r.sequences then Some((r.sequences[c], r.clocks[c])) else None);
      CorrelatedIs(events, r, e);
      PlacedIs(events, r, e);
    }
  }

  lemma PlacedIs(events: seq<Event>, r: Replay, e: Event)
    requires e.Event?
    requires StateKnown(events, e.conversationId, if e.conversationId in r.states then Some(r.states[e.conversationId]) else None)
    ensures Placed(events, e) <==> StateFits(r, e)
  {
    hide IsIn, StateKnown, AllowedTransitions;
    var c := e.conversationId;
    StateIs(events, c, if c in r.states then Some(r.states[c]) else None);
    assert IsIn(events, c, StateOf(r, c));
  }

  lemma CorrelatedIs(events: seq<Event>, r: Replay, e: Event)
    requires e.Event? && Marks(events, r.candidates, InterruptionCandidate, AgentAudioCancelled)
    ensures Correlated(events, e) <==> CancellationFits(r, e)
  {
    hide Marks, Pending;
    ClosesLast(events, e, r.candidates, InterruptionCandidate, AgentAudioCancelled);
  }

  lemma RemembersNext(events: seq<Event>, r: Replay, e: Event)
    requires Remembers(events, r) && Fits(r, e)
    ensures Remembers(events + [e], Apply(r, e))
  {
    hide Marks, Samples, NumberKnown, StateKnown, StateFits, CancellationFits;
    var r' := Apply(r, e);
    forall c: string
      ensures NumberKnown(events + [e], c, if c in r'.sequences then Some((r'.sequences[c], r'.clocks[c])) else None)
    {
      NumberNext(events, e, c, if c in r.sequences then Some((r.sequences[c], r.clocks[c])) else None);
    }
    forall c: string ensures StateKnown(events + [e], c, if c in r'.states then Some(r'.states[c]) else None) {
      StateNext(events, e, c, if c in r.states then Some(r.states[c]) else None);
    }
    TurnsNext(events, r, e);
    CandidatesNext(events, r, e);
  }

  lemma TurnsNext(events: seq<Event>, r: Replay, e: Event)
    requires e.Event? && Marks(events, r.turns, TurnConfirmed, AgentAudioStarted)
    requires Samples(events, TurnConfirmed, AgentAudioStarted, r.ttfa)
    ensures Marks(events + [e], TurnsAfter(r, e), TurnConfirmed, AgentAudioStarted)
    ensures Samples(events + [e], TurnConfirmed, AgentAudioStarted, r.ttfa + NewTtfa(r, e))
  {
    hide Marks, Samples;
    assert KeyOf(e) !in r.turns ==> r.turns - {KeyOf(e)} == r.turns;
    MarksNext(events, e, r.turns, TurnsAfter(r, e), TurnConfirmed, AgentAudioStarted);
    SamplesNext(events, e, r.turns, r.ttfa, r.ttfa + NewTtfa(r, e), TurnConfirmed, AgentAudioStarted);
  }

  lemma CandidatesNext(events: seq<Event>, r: Replay, e: Event)
    requires e.Event? && Marks(events, r.candidates, InterruptionCandidate, AgentAudioCancelled)
    requires Samples(events, InterruptionCandidate, AgentAudioCancelled, r.barge)
    ensures Marks(events + [e], CandidatesAfter(r, e), InterruptionCandidate, AgentAudioCancelled)
    ensures Samples(events + [e], InterruptionCandidate, AgentAudioCancelled, r.barge + NewBarge(r, e))
  {
    hide Marks, Samples;
    MarksNext(events, e, r.candidates, CandidatesAfter(r, e), InterruptionCandidate, AgentAudioCancelled);
    SamplesNext(events, e, r.candidates, r.barge, r.barge + NewBarge(r, e), InterruptionCandidate, AgentAudioCancelled);
  }

  lemma RemembersNothing()
    ensures Remembers([], Start)
  {
    assert SamplesAt([], TurnConfirmed, AgentAudioStarted, [], []);
    assert SamplesAt([], InterruptionCandidate, AgentAudioCancelled, [], []);
  }

  lemma {:induction false} RunRemembers(events: seq<Event>)
    ensures Run(events).Some? ==> Remembers(events, Run(events).value)
    ensures Run(events).Some? <==> forall j | 0 <= j < |events| :: WellPlaced(events[..j], events[j])
  {
    hide Remembers, WellPlaced, Fits, Apply;
    if events == [] {
      RemembersNothing();
    } else {
      var n := |events| - 1;
      var front := events[..n];
      RunRemembers(front);
      forall j | 0 <= j < n ensures front[..j] == events[..j] {
      }
      assert events == front + [events[n]];
      if Run(front).Some? {
        FitsExactly(front, Run(front).value, events[n]);
        if Fits(Run(front).value, events[n]) { RemembersNext(front, Run(front).value, events[n]); }
      }
    }
  }

  /** A timeline is accepted exactly when every event of it is well placed behind those before it. */
  lemma AcceptsExactly(events: seq<Event>)
    ensures Run(events).Some? <==> forall j | 0 <= j < |events| :: WellPlaced(events[..j], events[j])
  {
    hide Run;
    RunRemembers(events);
  }

  /**
   * The first-audio samples of an accepted timeline are the times from a confirmed turn to the first
   * audio that answers it, one for each such audio, in order; the barge-in samples those from an
   * interruption candidate to the cancellation of audio; and the conversations are those that moved.
   */
  lemma SamplesExactly(events: seq<Event>)
    requires Run(events).Some?
    ensures var r := Run(events).value;
      && Samples(events, TurnConfirmed, AgentAudioStarted, r.ttfa)
      && Samples(events, InterruptionCandidate, AgentAudioCancelled, r.barge)
      && (forall c: string :: c in r.states <==> exists i: nat :: i < |events| && Concerns(events[i], c, true))
  {
    hide Run, Samples, Marks;
    RunRemembers(events);
    var r := Run(events).value;
    forall c: string ensures c in r.states <==> exists i: nat :: i < |events| && Concerns(events[i], c, true) {
      SomeLast(events, c);
    }
  }

  lemma {:induction false} SomeLast(events: seq<Event>, c: string)
    ensures (exists i: nat :: LastOf(events, c, true, i)) <==> exists i: nat :: i < |events| && Concerns(events[i], c, true)
  {
    hide Concerns;
    if events != [] {
      var n := |events| - 1;
      var front := events[..n];
      if Concerns(events[n], c, true) {
        assert LastOf(events, c, true, n);
      } else {
        SomeLast(front, c);
        forall i: nat ensures LastOf(events, c, true, i) <==> LastOf(front, c, true, i) {
          assert front + [events[n]] == events;
          LastStays(front, events[n], c, true, i);
        }
        forall i: nat | i < |events| && Concerns(events[i], c, true) ensures i < n && Concerns(front[i], c, true) {
        }
      }
    }
  }
}
