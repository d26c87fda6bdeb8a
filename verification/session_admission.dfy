/** Which chunks a session admits, and what becomes of each. */
module SessionAdmission {
  import opened Domain
  import opened Ledger
  import opened Protocol
  import opened Invariants
  import opened Keeps
  import opened SessionReplay
  import opened SessionFinality

  /** A chunk of the live response that nobody has heard of, from the provider that speaks, for a sink that is free or its own. */
  predicate Admissible(w: World, chunk: Chunk) {
    && chunk.speech.responseId == w.response.id && w.response.id !in w.cancelled
    && chunk.speech.chunkId !in w.seenChunks && (chunk.streamId, chunk.sequence) !in w.seenSequences
    && (w.owner.None? || w.owner.value == w.response.id)
    && (w.provider.None? || w.provider.value == chunk.provider)
  }

  /** The chunk a step is about. */
  predicate Delivers(w: World, c: Choice, chunk: Chunk) {
    (c.SynthYields? && c.chunk == chunk) || (c.CapacityFrees? && w.control == InCapacity(chunk))
  }

  /** Nothing stands against looking at the chunk. */
  predicate Listens(w: World) {
    !AnyBroken(w.playbacks) && !w.cancelSet && w.m.Current(w.response.token) && UnfinishedCount(w.playbacks) < 2
  }

  /** What an admitted chunk leaves: one more entry, queued, and one more task waiting for its sink. */
  ghost predicate Admitted(w: World, chunk: Chunk, w': World) {
    && w'.ledger.order == w.ledger.order + [chunk.speech.chunkId]
    && chunk.speech.chunkId !in w.ledger.entries
    && (exists g: nat, q: nat ::
          w'.ledger.entries
          == w.ledger.entries[chunk.speech.chunkId := Entry(chunk.speech.responseId, chunk.speech.text, chunk.speech.semanticId,
               chunk.speech.semanticText, chunk.speech.samples, 0, g, Some(q), None, None, None, Queued)])
    && w'.playbacks == w.playbacks + [Playback(chunk.speech.chunkId, chunk.speech.samples, 0, 0, Pending)]
    && w'.sink == w.sink[chunk.speech.chunkId := 0]
    && w'.seenChunks == w.seenChunks + {chunk.speech.chunkId}
    && w'.seenSequences == w.seenSequences + {(chunk.streamId, chunk.sequence)}
    && w'.owner == Some(w.response.id) && w'.provider == Some(chunk.provider)
    && w'.response == w.response.(emitted := true, firstAudio := false)
    && w'.m.state.Speaking? && w'.control.InSynth?
    && w' == w.(m := w'.m, ledger := w'.ledger, playbacks := w'.playbacks, sink := w'.sink, seenChunks := w'.seenChunks,
                seenSequences := w'.seenSequences, owner := w'.owner, provider := w'.provider, response := w'.response,
                control := w'.control)
  }

  /** What a chunk that is not admitted leaves as it was. */
  ghost predicate Ignored(w: World, w': World) {
    w' == w.(m := w'.m, owner := w'.owner, control := w'.control) && w'.m.state == w.m.state && w'.m.epoch == w.m.epoch
  }

  lemma EntersAdmitted(w: World, chunk: Chunk)
    requires Base(w) && InLoops(w) && !w.cancelSet && w.m.Current(w.response.token) && chunk.speech.samples >= 1
    requires chunk.speech.chunkId !in w.seenChunks
    ensures var w' := w.Enter(chunk);
      && (w.owner == Some(w.response.id) && w.provider == Some(chunk.provider) ==> Admitted(w, chunk, w'))
  {
    hide World.Leads, World.Winds, World.Proceeds, Follows, Carries, Announces, Backed, Timely, Register, Queue, Valid,
         World.NoteReceived, World.Enlist, World.Schedule, UnfinishedCount;
    EnlistShape(w, chunk);
    var w1 := w.NoteReceived(chunk).Enlist(chunk.speech);
    EnlistOrder(w, chunk);
    ScheduleShape(w1, chunk);
    var g: nat, q: nat :|
      w1.ledger.entries
      == w.ledger.entries[chunk.speech.chunkId := Ledger.Fresh(chunk.speech, g).(queuedNs := Some(q), state := Queued)];
  }

  lemma EnlistOrder(w: World, chunk: Chunk)
    requires chunk.speech.chunkId !in w.ledger.entries
    ensures w.NoteReceived(chunk).Enlist(chunk.speech).ledger.order == w.ledger.order + [chunk.speech.chunkId]
  {
    hide World.Leads, World.Winds, Follows, Carries, Announces;
  }

  /** The gate admits exactly the admissible chunks; a chunk of another provider ends the stream. */
  lemma GateExactly(w: World, chunk: Chunk)
    requires Base(w) && InLoops(w) && Live(w) && !w.cancelSet && w.m.Current(w.response.token) && chunk.speech.samples >= 1
    ensures var w' := w.Admit(chunk);
      if Admissible(w, chunk) then Admitted(w, chunk, w')
      else Ignored(w, w') && w'.control == (if Admissible(w.(provider := None), chunk) then Closing(Propagating) else InSynth)
  {
    hide World.SameIdentity, World.Leads, World.Proceeds, Follows, Carries, Announces, Backed, Timely, UnfinishedCount,
         World.Enter, World.TakeOwnership, World.PinProvider;
    if !w.Stale(chunk) && !w.Seen(chunk) {
      ClaimShape(w, chunk.provider);
      var w1 := w.TakeOwnership();
      var w2 := w1.PinProvider(chunk.provider);
      Later(w.ledger, w.m.clock.Now(), w1.m.clock.Now());
      Later(w.ledger, w.m.clock.Now(), w2.m.clock.Now());
      PinnedIs(w1, chunk.provider);
      EntersAdmitted(w2, chunk);
    }
  }

  lemma PinnedIs(w: World, key: string)
    ensures w.PinProvider(key).provider == (if w.provider.Some? then w.provider else Some(key))
  {
    hide World.Leads, World.Winds, Follows, Carries, Announces;
  }

  /**
   * From every reachable world in which nothing stands against it, a chunk becomes one more entry and
   * one more task exactly when it is admissible; otherwise it leaves nothing behind but an event.
   */
  lemma AdmitsExactly(w: World, c: Choice, chunk: Chunk)
    requires Inv(w) && Enabled(w, c) && Delivers(w, c, chunk) && Listens(w)
    ensures var w' := Step(w, c);
      && (Admissible(w, chunk) <==>
            && w'.ledger.order == w.ledger.order + [chunk.speech.chunkId]
            && w'.playbacks == w.playbacks + [Playback(chunk.speech.chunkId, chunk.speech.samples, 0, 0, Pending)])
      && (if Admissible(w, chunk) then Admitted(w, chunk, w')
          else Ignored(w, w') && w'.control == (if Admissible(w.(provider := None), chunk) then Closing(Propagating) else InSynth))
  {
    hide World.Admit, Base, InLoops, Admitted, UnfinishedCount, World.Gates, Admissible;
    InvBase(w);
    GateExactly(w, chunk);
    if Admissible(w, chunk) { AdmittedGrows(w, chunk, Step(w, c)); }
  }

  lemma AdmittedGrows(w: World, chunk: Chunk, w': World)
    requires Admitted(w, chunk, w')
    ensures w'.ledger.order == w.ledger.order + [chunk.speech.chunkId]
    ensures w'.playbacks == w.playbacks + [Playback(chunk.speech.chunkId, chunk.speech.samples, 0, 0, Pending)]
  {
  }

  /** What stands against a chunk: a broken playback, a dropped response, or no room for another task. */
  lemma RefusesExactly(w: World, c: Choice, chunk: Chunk)
    requires Inv(w) && Enabled(w, c) && Delivers(w, c, chunk) && !Listens(w)
    ensures var w' := Step(w, c);
      && Ignored(w, w')
      && (AnyBroken(w.playbacks) ==> w'.control == Closing(Propagating))
      && (!AnyBroken(w.playbacks) && w.cancelSet ==> w'.control == if c.SynthYields? then Closing(StreamDone) else InSynth)
      && (!AnyBroken(w.playbacks) && !w.cancelSet ==> w' == w.(control := InCapacity(chunk)))
  {
    hide World.Gates, World.Leads, World.Winds, World.TakeOwnership, World.Pass, Backed, Timely, UnfinishedCount;
  }

  // ----- what a session has heard of -----

  /** The chunk that a step receives, if it receives one. */
  function ReceivedBy(w: World, c: Choice): Option<Chunk>
    requires Enabled(w, c)
  {
    if (c.SynthYields? || c.CapacityFrees?) && Listens(w) && Admissible(w, ChunkOf(w, c)) then Some(ChunkOf(w, c)) else None
  }

  /** Nothing is received: the sets of names and the order of the ledger stay. */
  predicate HearsNothing(w: World, w': World) {
    w'.seenChunks == w.seenChunks && w'.seenSequences == w.seenSequences && w'.ledger.order == w.ledger.order
  }

  lemma CallersHearNothing(w: World, c: Choice)
    requires Enabled(w, c)
    requires c.ConfirmTurn? || c.BeginResponse? || c.InterruptNow? || c.BackgroundOverlap? || c.Telemetry?
    ensures HearsNothing(w, Step(w, c))
  {
    hide World.Interrupt, World.Begin, World.OverlapStep, World.Leads, World.Winds, Follows, Announces;
    match c
    case ConfirmTurn(correlation) => InterruptHearsNothing(w.Say(TurnConfirmed, correlation, NoDetails), correlation);
    case InterruptNow(correlation) => InterruptHearsNothing(w, correlation);
    case BeginResponse(correlation, id) =>
      if w.control.Done? && w.m.state.Listening? { BeginShape(w, correlation, id); } else { BeginIdle(w, correlation, id); }
    case BackgroundOverlap(correlation, acoustic) => OverlapHearsNothing(w, correlation, acoustic);
    case _ =>
  }

  lemma InterruptHearsNothing(w: World, correlation: string)
    ensures HearsNothing(w, w.Interrupt(correlation))
  {
    hide World.Interrupt;
    if !w.control.Done? && !w.cancelSet { InterruptShape(w, correlation); } else { InterruptIdle(w, correlation); }
  }

  lemma OverlapHearsNothing(w: World, correlation: string, acousticEpisode: bool)
    ensures HearsNothing(w, w.OverlapStep(correlation, acousticEpisode))
  {
    hide Follows;
  }

  lemma OthersHearNothing(w: World, c: Choice)
    requires Inv(w) && Enabled(w, c) && !c.SynthYields? && !c.CapacityFrees?
    ensures HearsNothing(w, Step(w, c))
  {
    hide Inv, Step, World.Winds, Plays, Listed;
    BackedListed(w, 0);
    if c.ConfirmTurn? || c.BeginResponse? || c.InterruptNow? || c.BackgroundOverlap? || c.Telemetry? {
      CallersHearNothing(w, c);
    } else if c.PlaybackStarts? || c.PlaybackAdvances? || c.ObserverReturns? || c.PlaybackRaises? {
      PlaybackFrame(w, c);
      PlaybackPlays(w, c);
      PlaysOrder(w, Step(w, c), TaskOf(c));
    } else if c.StreamCloses? && w.RetryDue(w.control.cause, c.raises) {
      RetryHearsNothing(w, c);
    } else {
      TaskLeads(w, c);
      WindsOrder(w, Step(w, c));
    }
  }

  lemma PlaysOrder(w: World, w': World, i: nat)
    requires Plays(w, w', i)
    ensures w'.ledger.order == w.ledger.order
  {
  }

  lemma RetryHearsNothing(w: World, c: Choice)
    requires Enabled(w, c) && c.StreamCloses? && w.RetryDue(w.control.cause, c.raises)
    ensures HearsNothing(w, Step(w, c))
  {
    hide Follows, World.Leads, World.Fail, World.NextSegment, World.Gather;
  }

  /** A step receives the admissible chunk it brings and nothing else. */
  lemma StepReceives(w: World, c: Choice)
    requires Inv(w) && Enabled(w, c)
    ensures var w' := Step(w, c);
      match ReceivedBy(w, c)
      case None => HearsNothing(w, w')
      case Some(chunk) =>
        && w'.seenChunks == w.seenChunks + {chunk.speech.chunkId}
        && w'.seenSequences == w.seenSequences + {(chunk.streamId, chunk.sequence)}
        && w'.ledger.order == w.ledger.order + [chunk.speech.chunkId]
  {
    hide Inv, Step, Listens, Admissible;
    if c.SynthYields? || c.CapacityFrees? {
      if Listens(w) { AdmitsExactly(w, c, ChunkOf(w, c)); } else { RefusesExactly(w, c, ChunkOf(w, c)); }
    } else {
      OthersHearNothing(w, c);
    }
  }

  /** The chunks that a run receives, in order. */
  function Receives(w: World, cs: seq<Choice>): seq<Chunk>
    requires Feasible(w, cs)
    decreases cs
  {
    if cs == [] then []
    else (if ReceivedBy(w, cs[0]).Some? then [ReceivedBy(w, cs[0]).value] else []) + Receives(Step(w, cs[0]), cs[1..])
  }

  function IdsOf(chunks: seq<Chunk>): (ids: seq<string>)
    ensures |ids| == |chunks|
  {
    if chunks == [] then [] else [chunks[0].speech.chunkId] + IdsOf(chunks[1..])
  }

  /**
   * Over every run the ledger registers exactly the chunks received, in the order they came, and the
   * session knows exactly their ids and their places in their streams.
   */
  lemma {:induction false} RunReceives(w: World, cs: seq<Choice>)
    requires Inv(w) && Feasible(w, cs)
    ensures var w', chunks := Run(w, cs), Receives(w, cs);
      && w'.ledger.order == w.ledger.order + IdsOf(chunks)
      && (forall id: string ::
            id in w'.seenChunks <==>
              id in w.seenChunks || exists k :: 0 <= k < |chunks| && chunks[k].speech.chunkId == id)
      && (forall place: (string, nat) ::
            place in w'.seenSequences <==>
              place in w.seenSequences || exists k :: 0 <= k < |chunks| && (chunks[k].streamId, chunks[k].sequence) == place)
    decreases cs
  {
    hide Inv, Step, Enabled, ReceivedBy;
    if cs != [] {
      StepReceives(w, cs[0]);
      StepKeeps(w, cs[0]);
      var w1 := Step(w, cs[0]);
      RunReceives(w1, cs[1..]);
      ReceivesNext(w, w1, Run(w, cs), ReceivedBy(w, cs[0]), Receives(w1, cs[1..]));
    }
  }

  lemma ReceivesNext(w: World, w1: World, w': World, first: Option<Chunk>, rest: seq<Chunk>)
    requires match first
             case None => HearsNothing(w, w1)
             case Some(chunk) =>
               && w1.seenChunks == w.seenChunks + {chunk.speech.chunkId}
               && w1.seenSequences == w.seenSequences + {(chunk.streamId, chunk.sequence)}
               && w1.ledger.order == w.ledger.order + [chunk.speech.chunkId]
    requires w'.ledger.order == w1.ledger.order + IdsOf(rest)
    requires forall id: string ::
               id in w'.seenChunks <==>
                 id in w1.seenChunks || exists k :: 0 <= k < |rest| && rest[k].speech.chunkId == id
    requires forall place: (string, nat) ::
               place in w'.seenSequences <==>
                 place in w1.seenSequences || exists k :: 0 <= k < |rest| && (rest[k].streamId, rest[k].sequence) == place
    ensures var chunks := (if first.Some? then [first.value] else []) + rest;
      && w'.ledger.order == w.ledger.order + IdsOf(chunks)
      && (forall id: string ::
            id in w'.seenChunks <==>
              id in w.seenChunks || exists k :: 0 <= k < |chunks| && chunks[k].speech.chunkId == id)
      && (forall place: (string, nat) ::
            place in w'.seenSequences <==>
              place in w.seenSequences || exists k :: 0 <= k < |chunks| && (chunks[k].streamId, chunks[k].sequence) == place)
  {
    if first.None? {
      assert [] + rest == rest;
    } else {
      var chunks := [first.value] + rest;
      assert chunks[1..] == rest && chunks[0] == first.value;
      assert forall k | 0 <= k < |rest| :: chunks[k + 1] == rest[k];
    }
  }
}
