/** An undisturbed response speaks everything it was given, in order and to the last sample. */
module SessionProgress {
  import opened Domain
  import opened Ledger
  import opened Protocol
  import opened Invariants
  import opened Keeps
  import opened SessionReplay
  import opened SessionFinality
  import opened SessionTheorems
  import opened SessionStranding
  import opened SessionAdmission

  /** The chunk has been played to its last sample. */
  predicate PlayedWhole(e: Entry, chunk: Chunk) {
    && e.responseId == chunk.speech.responseId && e.text == chunk.speech.text
    && e.semanticId == chunk.speech.semanticId && e.semanticText == chunk.speech.semanticText
    && e.total == chunk.speech.samples && e.played == e.total && e.state.Played?
  }

  /** The response speaks, uncancelled, and whatever it has said is played out. */
  ghost predicate Ready(w: World) { Inv(w) && !w.cancelSet && AllFinished(w.playbacks) }

  /** The ledger has one more entry, played whole, and all else is as it was. */
  ghost predicate Spoke(b: Book, b': Book, chunk: Chunk) {
    && b'.order == b.order + [chunk.speech.chunkId]
    && b'.entries.Keys == b.entries.Keys + {chunk.speech.chunkId}
    && PlayedWhole(b'.entries[chunk.speech.chunkId], chunk)
    && forall id | id in b.entries :: id != chunk.speech.chunkId && b'.entries[id] == b.entries[id]
  }

  // ----- one chunk -----

  lemma FinishedListens(w: World)
    requires Ready(w) && (w.control.InSynth? || w.control.InReasoner? || w.control.Closing?)
    ensures Listens(w) && UnfinishedCount(w.playbacks) == 0
  {
    hide Base, World.Leads;
    CountBounds(w.playbacks);
  }

  /** A sink that is free begins to play a queued chunk. */
  lemma SinkStarts(w: World, i: nat)
    requires Inv(w) && i < |w.playbacks| && w.playbacks[i].phase.Pending? && !w.cancelSet
    ensures var w' := w.StartPlaying(i);
      var id := w.playbacks[i].chunkId;
      && w'.playbacks == w.playbacks[i := w'.playbacks[i]] && |w'.playbacks| == |w.playbacks|
      && w'.playbacks[i] == w.playbacks[i].(startedNs := w'.playbacks[i].startedNs, phase := Sleeping)
      && w.playbacks[i].played == 0 < w.playbacks[i].total
      && id in w.ledger.entries && w'.ledger.order == w.ledger.order
      && w'.ledger.entries
         == w.ledger.entries[id := w.ledger.entries[id].(startedNs := Some(w'.playbacks[i].startedNs), state := Playing)]
      && w' == w.(m := w'.m, ledger := w'.ledger, playbacks := w'.playbacks)
      && w'.m.state == w.m.state
  {
    hide Base, Inv, InLoop, World.Leads, StartPlayback, Started, World.StartPlaying, World.Stop, Valid, Timely, UnfinishedCount;
    InvBase(w);
    PendingEntry(w, i);
    StartShape(w.ledger, w.playbacks[i].chunkId, w.m.clock.Now());
    StartedShape(w, i);
    StartedInLoop(w, i);
    StartOrder(w.ledger, w.playbacks[i].chunkId, w.m.clock.Now());
  }

  /** A block with everything that is left stops the task, and its receipt settles the entry. */
  lemma SinkFinishes(w: World, i: nat)
    requires i < |w.playbacks| && !w.cancelSet
    requires var p := w.playbacks[i];
      && p.chunkId in w.ledger.entries && p.played < p.total
      && var e := w.ledger.entries[p.chunkId];
         e.state.Playing? && e.total == p.total && e.startedNs == Some(p.startedNs)
    ensures var p := w.playbacks[i];
      var w' := w.Advance(i, p.total - p.played, false);
      && w'.playbacks == w.playbacks[i := p.(played := p.total, phase := Finished)]
      && w'.ledger.order == w.ledger.order
      && (exists ns: nat ::
            w'.ledger.entries
            == w.ledger.entries[p.chunkId := w.ledger.entries[p.chunkId].(played := p.total, stoppedNs := Some(ns),
                                                                          cancelledNs := None, state := Played)])
      && w'.sink == w.sink[p.chunkId := p.total]
      && w' == w.(m := w'.m, ledger := w'.ledger, playbacks := w'.playbacks, sink := w'.sink)
      && w'.m.state == w.m.state
  {
    hide World.Leads, World.CancelRest, Follows;
  }

  /** The steps in which a chunk arrives and is played by a sink that nobody disturbs. */
  function PlayChunk(chunk: Chunk, i: nat): seq<Choice> {
    [SynthYields(chunk), PlaybackStarts(i), PlaybackAdvances(i, chunk.speech.samples, false)]
  }

  /** What speaking leaves alone. */
  predicate SameSession(w: World, w': World) {
    && w'.response.id == w.response.id && w'.response.segmentsLeft == w.response.segmentsLeft
    && w'.cancelSet == w.cancelSet && w'.cancelled == w.cancelled && w'.usedIds == w.usedIds
    && w'.strayed == w.strayed
  }

  /** A queued chunk is played to its end. */
  lemma PlaysOut(w: World, i: nat)
    requires Inv(w) && i < |w.playbacks| && w.playbacks[i].phase.Pending? && !w.cancelSet
    ensures var cs := [PlaybackStarts(i)] + ([PlaybackAdvances(i, w.playbacks[i].total, false)] + []);
      && Feasible(w, cs)
      && var w' := Run(w, cs);
         Inv(w') && w' == w.(m := w'.m, ledger := w'.ledger, playbacks := w'.playbacks, sink := w'.sink) && PlayedOut(w, w', i)
  {
    hide Inv, Step, Enabled, PlayedOut;
    var c2, c3 := PlaybackStarts(i), PlaybackAdvances(i, w.playbacks[i].total, false);
    assert Enabled(w, c2) && Step(w, c2) == w.StartPlaying(i) by { CanStart(w, i); }
    StepKeeps(w, c2);
    SinkStarts(w, i);
    var w2 := Step(w, c2);
    TotalStays(w, w2, i);
    assert Enabled(w2, c3) && Step(w2, c3) == w2.Advance(i, w.playbacks[i].total, false) by {
      CanAdvance(w2, i, w.playbacks[i].total);
    }
    StepKeeps(w2, c3);
    SinkFinishes(w2, i);
    StartedThenFinished(w, w2, Step(w2, c3), i);
    RunCons(w2, c3, []);
    RunCons(w, c2, [c3] + []);
  }

  /** The task is finished and its entry played whole; all others are as they were. */
  ghost predicate PlayedOut(w: World, w': World, i: nat)
    requires i < |w.playbacks|
  {
    var p := w.playbacks[i];
    && p.chunkId in w.ledger.entries && p.chunkId in w'.ledger.entries
    && w'.ledger.order == w.ledger.order
    && w'.ledger.entries == w.ledger.entries[p.chunkId := w'.ledger.entries[p.chunkId]]
    && |w'.playbacks| == |w.playbacks| && w'.playbacks == w.playbacks[i := w'.playbacks[i]]
    && w'.playbacks[i].phase.Finished?
    && w'.sink == w.sink[p.chunkId := p.total]
    && var e, e' := w.ledger.entries[p.chunkId], w'.ledger.entries[p.chunkId];
       e' == e.(startedNs := e'.startedNs, stoppedNs := e'.stoppedNs, cancelledNs := None, played := p.total, state := Played)
  }

  lemma TotalStays(w: World, w2: World, i: nat)
    requires i < |w.playbacks| && |w2.playbacks| == |w.playbacks| && w.playbacks[i].chunkId in w.ledger.entries && Inv(w)
    requires w2.playbacks[i] == w.playbacks[i].(startedNs := w2.playbacks[i].startedNs, phase := Sleeping)
    ensures w.ledger.entries[w.playbacks[i].chunkId].total == w2.playbacks[i].total == w.playbacks[i].total
  {
    hide Timely, UnfinishedCount, Where;
    assert Matches(w.ledger.entries[w.playbacks[i].chunkId], w.playbacks[i], w.cancelSet);
  }

  lemma StartedThenFinished(w: World, w2: World, w3: World, i: nat)
    requires i < |w.playbacks| == |w2.playbacks|
    requires var id := w.playbacks[i].chunkId;
      && w2.playbacks == w.playbacks[i := w2.playbacks[i]]
      && w2.playbacks[i] == w.playbacks[i].(startedNs := w2.playbacks[i].startedNs, phase := Sleeping)
      && id in w.ledger.entries && w2.ledger.order == w.ledger.order && w2.sink == w.sink
      && w2.ledger.entries
         == w.ledger.entries[id := w.ledger.entries[id].(startedNs := Some(w2.playbacks[i].startedNs), state := Playing)]
    requires var p := w2.playbacks[i];
      && w3.playbacks == w2.playbacks[i := p.(played := p.total, phase := Finished)]
      && w3.ledger.order == w2.ledger.order && w3.sink == w2.sink[p.chunkId := p.total]
      && (exists ns: nat ::
            w3.ledger.entries
            == w2.ledger.entries[p.chunkId := w2.ledger.entries[p.chunkId].(played := p.total, stoppedNs := Some(ns),
                                                                           cancelledNs := None, state := Played)])
    ensures PlayedOut(w, w3, i)
  {
  }

  /** One chunk: it arrives, its sink starts, and one block plays it. */
  lemma ChunkSpoken(w: World, chunk: Chunk)
    requires Ready(w) && w.control.InSynth? && Admissible(w, chunk) && chunk.speech.samples >= 1
    ensures var cs := PlayChunk(chunk, |w.playbacks|);
      && Feasible(w, cs)
      && var w' := Run(w, cs);
         && Ready(w') && w'.control.InSynth? && w'.response.emitted && |w'.playbacks| == |w.playbacks| + 1
         && Spoke(w.ledger, w'.ledger, chunk) && SameSession(w, w')
         && w'.seenChunks == w.seenChunks + {chunk.speech.chunkId}
         && w'.seenSequences == w.seenSequences + {(chunk.streamId, chunk.sequence)}
         && w'.provider == Some(chunk.provider)
         && w'.sink == w.sink[chunk.speech.chunkId := chunk.speech.samples]
  {
    hide Inv, Step, Enabled, Run, Feasible, Admissible, Spoke, SameSession, Listens, PlayedOut;
    var i := |w.playbacks|;
    var c := SynthYields(chunk);
    FinishedListens(w);
    assert Enabled(w, c) by { CanYield(w, chunk); }
    AdmitsExactly(w, c, chunk);
    StepKeeps(w, c);
    var w1 := Step(w, c);
    assert !w1.cancelSet && w1.playbacks[i] == Playback(chunk.speech.chunkId, chunk.speech.samples, 0, 0, Pending);
    PlaysOut(w1, i);
    var cs := [PlaybackStarts(i)] + ([PlaybackAdvances(i, chunk.speech.samples, false)] + []);
    ChunkPlayed(w, w1, Run(w1, cs), chunk);
    RunCons(w, c, cs);
    assert [c] + cs == PlayChunk(chunk, i);
  }

  lemma CanYield(w: World, chunk: Chunk)
    requires w.control.InSynth? && chunk.speech.samples >= 1
    ensures Enabled(w, SynthYields(chunk))
  {
  }

  lemma CanStart(w: World, i: nat)
    requires i < |w.playbacks| && w.playbacks[i].phase.Pending?
    ensures Enabled(w, PlaybackStarts(i)) && Step(w, PlaybackStarts(i)) == w.StartPlaying(i)
  {
    hide World.StartPlaying;
  }

  lemma CanAdvance(w: World, i: nat, block: nat)
    requires i < |w.playbacks| && w.playbacks[i].phase.Sleeping? && 1 <= block <= w.playbacks[i].total - w.playbacks[i].played
    ensures var c := PlaybackAdvances(i, block, false); Enabled(w, c) && Step(w, c) == w.Advance(i, block, false)
  {
    hide World.Advance;
  }

  /** Arrival and playing together. */
  lemma ChunkPlayed(w: World, w1: World, w3: World, chunk: Chunk)
    requires AllFinished(w.playbacks) && Admitted(w, chunk, w1) && PlayedOut(w1, w3, |w.playbacks|)
    requires w3 == w1.(m := w3.m, ledger := w3.ledger, playbacks := w3.playbacks, sink := w3.sink)
    ensures AllFinished(w3.playbacks) && |w3.playbacks| == |w.playbacks| + 1
    ensures Spoke(w.ledger, w3.ledger, chunk) && SameSession(w, w3) && w3.control.InSynth? && w3.response.emitted
    ensures w3.seenChunks == w.seenChunks + {chunk.speech.chunkId}
    ensures w3.seenSequences == w.seenSequences + {(chunk.streamId, chunk.sequence)}
    ensures w3.provider == Some(chunk.provider) && w3.sink == w.sink[chunk.speech.chunkId := chunk.speech.samples]
  {
  }

  // ----- many chunks -----

  lemma {:induction false} RunJoin(w: World, cs: seq<Choice>, ds: seq<Choice>)
    requires Feasible(w, cs) && Feasible(Run(w, cs), ds)
    ensures Feasible(w, cs + ds) && Run(w, cs + ds) == Run(Run(w, cs), ds)
    decreases cs
  {
    hide Step, Enabled;
    if cs == [] {
      assert cs + ds == ds;
    } else {
      assert (cs + ds)[0] == cs[0] && (cs + ds)[1..] == cs[1..] + ds;
      RunJoin(Step(w, cs[0]), cs[1..], ds);
    }
  }

  /** Chunks of the live response from one provider, none of them heard of, all different. */
  ghost predicate NewSpeech(w: World, chunks: seq<Chunk>) {
    && (forall k | 0 <= k < |chunks| :: NewChunk(w, chunks[k]))
    && (forall k, l | 0 <= k < l < |chunks| :: Apart(chunks[k], chunks[l]))
  }

  predicate NewChunk(w: World, chunk: Chunk) {
    && chunk.speech.responseId == w.response.id && chunk.speech.samples >= 1
    && chunk.speech.chunkId !in w.seenChunks && (chunk.streamId, chunk.sequence) !in w.seenSequences
    && (w.provider.None? || w.provider.value == chunk.provider)
  }

  predicate Apart(a: Chunk, b: Chunk) {
    && a.speech.chunkId != b.speech.chunkId && (a.streamId, a.sequence) != (b.streamId, b.sequence)
    && a.provider == b.provider
  }

  function PlayChunks(chunks: seq<Chunk>, i: nat): seq<Choice> {
    if chunks == [] then [] else PlayChunk(chunks[0], i) + PlayChunks(chunks[1..], i + 1)
  }

  /** The ledger has one more entry for each chunk, in order, all played whole. */
  ghost predicate SpokeAll(b: Book, b': Book, chunks: seq<Chunk>) {
    && b'.order == b.order + IdsOf(chunks)
    && (forall id | id in b.entries :: id in b'.entries && b'.entries[id] == b.entries[id])
    && (forall id | id in b'.entries :: id in b.entries || id in IdsOf(chunks))
    && (forall k | 0 <= k < |chunks| ::
          chunks[k].speech.chunkId in b'.entries && PlayedWhole(b'.entries[chunks[k].speech.chunkId], chunks[k]))
  }

  lemma SpokeNothing(b: Book)
    ensures SpokeAll(b, b, [])
  {
    assert b.order + [] == b.order;
  }

  lemma {:induction false} IdsJoin(xs: seq<Chunk>, ys: seq<Chunk>)
    ensures IdsOf(xs + ys) == IdsOf(xs) + IdsOf(ys)
  {
    if xs == [] {
      assert xs + ys == ys;
    } else {
      assert (xs + ys)[1..] == xs[1..] + ys;
      IdsJoin(xs[1..], ys);
    }
  }

  lemma {:induction false} IdsAt(xs: seq<Chunk>)
    ensures forall k | 0 <= k < |xs| :: IdsOf(xs)[k] == xs[k].speech.chunkId
  {
    if xs != [] { IdsAt(xs[1..]); }
  }

  /** What was spoken before and what is spoken now. */
  lemma SpokeJoin(b: Book, b1: Book, b2: Book, xs: seq<Chunk>, ys: seq<Chunk>)
    requires SpokeAll(b, b1, xs) && SpokeAll(b1, b2, ys)
    ensures SpokeAll(b, b2, xs + ys)
  {
    hide PlayedWhole;
    IdsJoin(xs, ys);
    var all := xs + ys;
    forall k | 0 <= k < |all|
      ensures all[k].speech.chunkId in b2.entries && PlayedWhole(b2.entries[all[k].speech.chunkId], all[k])
    {
      if k < |xs| { assert all[k] == xs[k]; } else { assert all[k] == ys[k - |xs|]; }
    }
  }

  lemma SpokeOne(b: Book, b': Book, chunk: Chunk)
    requires Spoke(b, b', chunk)
    ensures SpokeAll(b, b', [chunk])
  {
    hide PlayedWhole;
    assert IdsOf([chunk]) == [chunk.speech.chunkId] by { assert [chunk][1..] == []; }
  }

  lemma NewIsAdmissible(w: World, chunk: Chunk)
    requires Ready(w) && NewChunk(w, chunk)
    ensures Admissible(w, chunk)
  {
  }

  /** Speaking one chunk leaves the others new. */
  lemma StillNew(w: World, w': World, first: Chunk, chunk: Chunk)
    requires NewChunk(w, chunk) && Apart(first, chunk) && w'.response.id == w.response.id
    requires w'.seenChunks == w.seenChunks + {first.speech.chunkId}
    requires w'.seenSequences == w.seenSequences + {(first.streamId, first.sequence)}
    requires w'.provider == Some(first.provider)
    ensures NewChunk(w', chunk)
  {
  }

  lemma SpeechStaysNew(w: World, w': World, chunks: seq<Chunk>)
    requires chunks != [] && NewSpeech(w, chunks) && w'.response.id == w.response.id
    requires w'.seenChunks == w.seenChunks + {chunks[0].speech.chunkId}
    requires w'.seenSequences == w.seenSequences + {(chunks[0].streamId, chunks[0].sequence)}
    requires w'.provider == Some(chunks[0].provider)
    ensures NewSpeech(w', chunks[1..])
  {
    hide NewChunk, Apart;
    var rest := chunks[1..];
    forall k | 0 <= k < |rest| ensures NewChunk(w', rest[k]) {
      assert rest[k] == chunks[k + 1] && Apart(chunks[0], chunks[k + 1]);
      StillNew(w, w', chunks[0], rest[k]);
    }
    forall k, l | 0 <= k < l < |rest| ensures Apart(rest[k], rest[l]) {
      assert Apart(chunks[k + 1], chunks[l + 1]);
    }
  }

  /** Any number of chunks, one after the other; what comes later is still new. */
  lemma {:induction false} ChunksSpoken(w: World, chunks: seq<Chunk>, later: seq<Chunk>)
    requires Ready(w) && w.control.InSynth? && NewSpeech(w, chunks + later)
    ensures var cs := PlayChunks(chunks, |w.playbacks|);
      && Feasible(w, cs)
      && var w' := Run(w, cs);
         && Ready(w') && w'.control.InSynth? && SpokeAll(w.ledger, w'.ledger, chunks) && SameSession(w, w')
         && w'.response.emitted == (w.response.emitted || chunks != []) && |w'.playbacks| == |w.playbacks| + |chunks|
         && NewSpeech(w', later)
    decreases |chunks|
  {
    hide Ready, Run, Feasible, NewChunk, Apart, SpokeAll, Spoke, Admissible, PlayChunk, SameSession;
    if chunks == [] {
      assert chunks + later == later;
      SpokeNothing(w.ledger);
      NothingRuns(w);
      SameSelf(w);
    } else {
      var all := chunks + later;
      assert NewChunk(w, all[0]) && all[0] == chunks[0];
      NewIsAdmissible(w, chunks[0]);
      HasSamples(w, chunks[0]);
      ChunkSpoken(w, chunks[0]);
      var cs := PlayChunk(chunks[0], |w.playbacks|);
      var w1 := Run(w, cs);
      SpeechAfter(w, w1, chunks[0], all);
      assert all[1..] == chunks[1..] + later;
      ChunksSpoken(w1, chunks[1..], later);
      var ds := PlayChunks(chunks[1..], |w1.playbacks|);
      RunJoin(w, cs, ds);
      SpokeOne(w.ledger, w1.ledger, chunks[0]);
      SpokeJoin(w.ledger, w1.ledger, Run(w1, ds).ledger, [chunks[0]], chunks[1..]);
      assert [chunks[0]] + chunks[1..] == chunks;
      SameTwice(w, w1, Run(w1, ds));
    }
  }

  lemma NothingRuns(w: World)
    ensures Feasible(w, []) && Run(w, []) == w
  {
  }

  lemma SameSelf(w: World)
    ensures SameSession(w, w)
  {
  }

  lemma SameTwice(w: World, w1: World, w2: World)
    requires SameSession(w, w1) && SameSession(w1, w2)
    ensures SameSession(w, w2)
  {
  }

  lemma HasSamples(w: World, chunk: Chunk)
    requires NewChunk(w, chunk)
    ensures chunk.speech.samples >= 1
  {
  }

  lemma SpeechAfter(w: World, w1: World, first: Chunk, all: seq<Chunk>)
    requires all != [] && first == all[0] && NewSpeech(w, all) && SameSession(w, w1)
    requires w1.seenChunks == w.seenChunks + {first.speech.chunkId}
    requires w1.seenSequences == w.seenSequences + {(first.streamId, first.sequence)}
    requires w1.provider == Some(first.provider)
    ensures NewSpeech(w1, all[1..])
  {
    hide NewSpeech;
    SpeechStaysNew(w, w1, all);
  }

  // ----- segments, texts and the whole response -----

  function PlaySegment(chunks: seq<Chunk>, i: nat): seq<Choice> {
    PlayChunks(chunks, i) + ([SynthEnds] + ([StreamCloses(false)] + []))
  }

  /** Nothing but what the response task itself counts is different. */
  predicate SameResponse(w: World, w': World) {
    && w'.response.id == w.response.id && w'.cancelSet == w.cancelSet && w'.cancelled == w.cancelled
    && w'.usedIds == w.usedIds && w'.strayed == w.strayed
  }

  lemma SameResponseTwice(w: World, w1: World, w2: World)
    requires SameResponse(w, w1) && SameResponse(w1, w2)
    ensures SameResponse(w, w2)
  {
  }

  lemma SessionIsResponse(w: World, w': World)
    requires SameSession(w, w')
    ensures SameResponse(w, w') && w'.response.segmentsLeft == w.response.segmentsLeft
  {
  }

  /** A stream that brought audio is closed, and the next segment or the next text is awaited. */
  lemma SegmentCloses(w: World)
    requires Ready(w) && w.control.InSynth? && w.response.emitted
    ensures Enabled(w, SynthEnds)
    ensures var w1 := Step(w, SynthEnds);
      && Ready(w1) && Enabled(w1, StreamCloses(false))
      && var w2 := Step(w1, StreamCloses(false));
         && Ready(w2) && w2.ledger == w.ledger && w2.playbacks == w.playbacks
         && w2.seenChunks == w.seenChunks && w2.seenSequences == w.seenSequences && w2.provider == w.provider
         && SameResponse(w, w2)
         && (if w.response.segmentsLeft == 0 then w2.control.InReasoner? && w2.response.segmentsLeft == 0
             else w2.control.InSynth? && w2.response.segmentsLeft == w.response.segmentsLeft - 1)
  {
    hide Base, World.Leads, World.Winds, Follows, World.Fail, World.Gather, World.Retry, UnfinishedCount;
    FinishedListens(w);
    StepKeeps(w, SynthEnds);
    StepKeeps(Step(w, SynthEnds), StreamCloses(false));
  }

  lemma StillNewSpeech(w: World, w': World, later: seq<Chunk>)
    requires NewSpeech(w, later) && w'.response.id == w.response.id
    requires w'.seenChunks == w.seenChunks && w'.seenSequences == w.seenSequences && w'.provider == w.provider
    ensures NewSpeech(w', later)
  {
    forall k | 0 <= k < |later| ensures NewChunk(w', later[k]) { assert NewChunk(w, later[k]); }
  }

  /** One segment of speech. */
  lemma SegmentSpoken(w: World, chunks: seq<Chunk>, later: seq<Chunk>)
    requires Ready(w) && w.control.InSynth? && chunks != [] && NewSpeech(w, chunks + later)
    ensures var cs := PlaySegment(chunks, |w.playbacks|);
      && Feasible(w, cs)
      && var w' := Run(w, cs);
         && Ready(w') && SpokeAll(w.ledger, w'.ledger, chunks) && SameResponse(w, w') && NewSpeech(w', later)
         && |w'.playbacks| == |w.playbacks| + |chunks|
         && (if w.response.segmentsLeft == 0 then w'.control.InReasoner? && w'.response.segmentsLeft == 0
             else w'.control.InSynth? && w'.response.segmentsLeft == w.response.segmentsLeft - 1)
  {
    hide Ready, Run, Feasible, Step, Enabled, SpokeAll, SameSession, SameResponse, NewSpeech, PlayChunks;
    ChunksSpoken(w, chunks, later);
    var cs := PlayChunks(chunks, |w.playbacks|);
    var w1 := Run(w, cs);
    SessionIsResponse(w, w1);
    SegmentCloses(w1);
    var w2 := Step(w1, SynthEnds);
    var w3 := Step(w2, StreamCloses(false));
    IdStays(w1, w3);
    StillNewSpeech(w1, w3, later);
    SameResponseTwice(w, w1, w3);
    NothingRuns(w3);
    RunCons(w2, StreamCloses(false), []);
    RunCons(w1, SynthEnds, [StreamCloses(false)] + []);
    RunJoin(w, cs, [SynthEnds] + ([StreamCloses(false)] + []));
  }

  lemma IdStays(w: World, w': World)
    requires SameResponse(w, w')
    ensures w'.response.id == w.response.id
  {
  }

  function Flat(segments: seq<seq<Chunk>>): seq<Chunk> {
    if segments == [] then [] else segments[0] + Flat(segments[1..])
  }

  function PlaySegments(segments: seq<seq<Chunk>>, i: nat): seq<Choice> {
    if segments == [] then []
    else PlaySegment(segments[0], i) + PlaySegments(segments[1..], i + |segments[0]|)
  }

  /** The segments of a text, from the first of them on. */
  lemma {:induction false} SegmentsSpoken(w: World, segments: seq<seq<Chunk>>, later: seq<Chunk>)
    requires Ready(w) && w.control.InSynth? && segments != [] && w.response.segmentsLeft == |segments| - 1
    requires (forall k | 0 <= k < |segments| :: segments[k] != []) && NewSpeech(w, Flat(segments) + later)
    ensures var cs := PlaySegments(segments, |w.playbacks|);
      && Feasible(w, cs)
      && var w' := Run(w, cs);
         && Ready(w') && w'.control.InReasoner? && SpokeAll(w.ledger, w'.ledger, Flat(segments)) && SameResponse(w, w')
         && NewSpeech(w', later) && |w'.playbacks| == |w.playbacks| + |Flat(segments)|
    decreases |segments|
  {
    hide Ready, Run, Feasible, SpokeAll, SameResponse, NewSpeech, PlaySegment;
    var first, rest := segments[0], segments[1..];
    assert Flat(segments) + later == first + (Flat(rest) + later);
    SegmentSpoken(w, first, Flat(rest) + later);
    var cs := PlaySegment(first, |w.playbacks|);
    var w1 := Run(w, cs);
    if rest == [] {
      assert Flat(rest) == [] && Flat(segments) == first && [] + later == later;
      assert PlaySegments(rest, |w1.playbacks|) == [] && cs + [] == cs;
    } else {
      SegmentsSpoken(w1, rest, later);
      RunJoin(w, cs, PlaySegments(rest, |w1.playbacks|));
      SpokeJoin(w.ledger, w1.ledger, Run(w1, PlaySegments(rest, |w1.playbacks|)).ledger, first, Flat(rest));
      SameResponseTwice(w, w1, Run(w1, PlaySegments(rest, |w1.playbacks|)));
    }
  }

  function PlayText(segments: seq<seq<Chunk>>, i: nat): seq<Choice> {
    [ReasonerYields(|segments|, false)] + PlaySegments(segments, i)
  }

  /** A text with segments is spoken next. */
  lemma TextBegins(w: World, segments: nat)
    requires Ready(w) && w.control.InReasoner? && segments >= 1
    ensures Enabled(w, ReasonerYields(segments, false))
    ensures var w' := Step(w, ReasonerYields(segments, false));
      && Ready(w') && w'.control.InSynth? && w'.response.segmentsLeft == segments - 1
      && w'.ledger == w.ledger && w'.playbacks == w.playbacks && SameResponse(w, w')
      && w'.seenChunks == w.seenChunks && w'.seenSequences == w.seenSequences && w'.provider == w.provider
  {
    hide Base, World.Leads, World.Winds, Follows, World.Fail, World.Gather, UnfinishedCount;
    FinishedListens(w);
    StepKeeps(w, ReasonerYields(segments, false));
  }

  function FlatTexts(texts: seq<seq<seq<Chunk>>>): seq<Chunk> {
    if texts == [] then [] else Flat(texts[0]) + FlatTexts(texts[1..])
  }

  function PlayTexts(texts: seq<seq<seq<Chunk>>>, i: nat): seq<Choice> {
    if texts == [] then [] else PlayText(texts[0], i) + PlayTexts(texts[1..], i + |Flat(texts[0])|)
  }

  /** Every text has a segment, and every segment audio. */
  predicate Speakable(texts: seq<seq<seq<Chunk>>>) {
    forall t | 0 <= t < |texts| :: texts[t] != [] && forall k | 0 <= k < |texts[t]| :: texts[t][k] != []
  }

  lemma {:induction false} TextsSpoken(w: World, texts: seq<seq<seq<Chunk>>>)
    requires Ready(w) && w.control.InReasoner? && Speakable(texts) && NewSpeech(w, FlatTexts(texts))
    ensures var cs := PlayTexts(texts, |w.playbacks|);
      && Feasible(w, cs)
      && var w' := Run(w, cs);
         && Ready(w') && w'.control.InReasoner? && SpokeAll(w.ledger, w'.ledger, FlatTexts(texts)) && SameResponse(w, w')
         && |w'.playbacks| == |w.playbacks| + |FlatTexts(texts)|
    decreases |texts|
  {
    hide Ready, Run, Feasible, Step, Enabled, SpokeAll, SameResponse, NewSpeech, PlaySegments;
    if texts == [] {
      NothingRuns(w);
      SpokeNothing(w.ledger);
      SameResponseSelf(w);
    } else {
      var first, rest := texts[0], texts[1..];
      var later := FlatTexts(rest);
      var arrives := ReasonerYields(|first|, false);
      TextBegins(w, |first|);
      var w1 := Step(w, arrives);
      IdStays(w, w1);
      StillNewSpeech(w, w1, FlatTexts(texts));
      SegmentsSpoken(w1, first, later);
      var cs := PlaySegments(first, |w1.playbacks|);
      var w2 := Run(w1, cs);
      RunCons(w, arrives, cs);
      assert Speakable(rest);
      TextsSpoken(w2, rest);
      var ds := PlayTexts(rest, |w2.playbacks|);
      RunJoin(w, PlayText(first, |w.playbacks|), ds);
      SpokeJoin(w.ledger, w2.ledger, Run(w2, ds).ledger, Flat(first), later);
      SameResponseTwice(w, w1, w2);
      SameResponseTwice(w, w2, Run(w2, ds));
    }
  }

  lemma SameResponseSelf(w: World)
    ensures SameResponse(w, w)
  {
  }

  // ----- beginning and end -----

  function Opening(correlation: string, id: string): seq<Choice> {
    [BeginResponse(correlation, id)] + ([Launch(NoCoordinator)] + [])
  }

  function Closing3(): seq<Choice> {
    [ReasonerEnds(false)] + ([GatherReturns(false)] + ([PlaybacksSettle] + []))
  }

  /** A turn without a tool reaches the reasoner with nothing said yet. */
  lemma ResponseOpens(w: World, correlation: string, id: string)
    requires Inv(w) && w.control.Done? && w.m.state.Listening? && correlation != "" && id !in w.usedIds
    ensures var cs := Opening(correlation, id);
      && Feasible(w, cs)
      && var w' := Run(w, cs);
         && Ready(w') && w'.control.InReasoner? && w'.response.id == id && w'.playbacks == [] && w'.ledger == w.ledger
         && w'.cancelled == w.cancelled && w'.strayed == w.strayed && w'.provider.None?
         && w'.seenChunks == w.seenChunks && w'.seenSequences == w.seenSequences
  {
    hide Base, World.Leads, World.Winds, Follows, World.Begin, World.Say;
    var c1, c2 := BeginResponse(correlation, id), Launch(NoCoordinator);
    BeginShape(w, correlation, id);
    assert w.provider.None? by { NoProvider(w); }
    StepKeeps(w, c1);
    var w1 := Step(w, c1);
    StepKeeps(w1, c2);
    var w2 := Step(w1, c2);
    RunCons(w1, c2, []);
    RunCons(w, c1, [c2] + []);
  }

  lemma NoProvider(w: World)
    requires Inv(w) && w.control.Done?
    ensures w.provider.None? && w.owner.None?
  {
    hide Backed, Timely, UnfinishedCount;
  }

  /** A response that has said everything ends listening. */
  lemma ResponseCloses(w: World)
    requires Ready(w) && w.control.InReasoner? && w.playbacks != []
    ensures Feasible(w, Closing3())
    ensures var w' := Run(w, Closing3());
      && Inv(w') && w'.control.Done? && w'.m.state.Listening? && w'.ledger == w.ledger
      && !w'.response.failed && w'.cancelled == w.cancelled && w'.strayed == w.strayed
  {
    hide Inv, Step, Enabled, World.Leads;
    var c1, c2, c3 := ReasonerEnds(false), GatherReturns(false), PlaybacksSettle;
    FinishedListens(w);
    NotFailed(w);
    GathersAll(w);
    StepKeeps(w, c1);
    var w1 := Step(w, c1);
    CompletesAll(w1);
    StepKeeps(w1, c2);
    var w2 := Step(w1, c2);
    SettlesAll(w2);
    StepKeeps(w2, c3);
    RunCons(w2, c3, []);
    RunCons(w1, c2, [c3] + []);
    RunCons(w, c1, [c2] + ([c3] + []));
  }

  lemma NotFailed(w: World)
    requires Ready(w)
    ensures !w.response.failed
  {
    hide Backed, Timely, UnfinishedCount;
  }

  lemma GathersAll(w: World)
    requires Ready(w) && w.control.InReasoner? && w.playbacks != []
    ensures Enabled(w, ReasonerEnds(false)) && Step(w, ReasonerEnds(false)) == w.(control := Gathering)
  {
    hide Inv, World.Leads, World.Complete;
  }

  lemma CompletesAll(w: World)
    requires Ready(w) && w.control.Gathering? && UnfinishedCount(w.playbacks) == 0 && !AnyBroken(w.playbacks)
    ensures Enabled(w, GatherReturns(false))
    ensures var w' := Step(w, GatherReturns(false));
      && w'.control.Finishing? && w'.m.state.Listening? && w' == w.(m := w'.m, control := Finishing)
  {
    hide Base, World.Leads, Follows, World.Conclude, UnfinishedCount;
    CompletionWaits(w);
  }

  lemma SettlesAll(w: World)
    requires w.control.Finishing? && w.m.state.Listening? && !w.cancelSet && UnfinishedCount(w.playbacks) == 0
    ensures Enabled(w, PlaybacksSettle)
    ensures var w' := Step(w, PlaybacksSettle);
      && w'.control.Done? && w'.m.state.Listening? && w'.ledger == w.ledger && w'.response == w.response
      && w'.cancelled == w.cancelled && w'.strayed == w.strayed
  {
    hide World.Leads, World.Winds, Follows, World.Say, UnfinishedCount;
  }

  /** The schedule of a response that nobody disturbs. */
  function PlayResponse(correlation: string, id: string, texts: seq<seq<seq<Chunk>>>): seq<Choice> {
    Opening(correlation, id) + (PlayTexts(texts, 0) + Closing3())
  }

  /**
   * From every quiescent reachable world, for any texts of any segments of any new chunks: the
   * response registers exactly these chunks in their order, plays every one to its last sample and
   * leaves the session listening and quiescent, with all that was in the ledger before untouched.
   */
  lemma ResponseSpoken(w: World, correlation: string, id: string, texts: seq<seq<seq<Chunk>>>)
    requires Inv(w) && w.control.Done? && w.m.state.Listening? && correlation != "" && id !in w.usedIds
    requires texts != [] && Speakable(texts) && NewSpeech(w.(response := w.response.(id := id)), FlatTexts(texts))
    ensures var cs := PlayResponse(correlation, id, texts);
      && Feasible(w, cs)
      && var w' := Run(w, cs);
         && w'.control.Done? && w'.m.state.Listening? && Quiescent(w') && !w'.response.failed
         && w'.cancelled == w.cancelled && SpokeAll(w.ledger, w'.ledger, FlatTexts(texts))
  {
    hide Inv, Ready, Run, Feasible, Step, Enabled, SpokeAll, SameResponse, NewSpeech, Opening, Closing3, PlayTexts, Quiescent;
    ResponseOpens(w, correlation, id);
    var w1 := Run(w, Opening(correlation, id));
    NewWithout(w.(response := w.response.(id := id)), FlatTexts(texts));
    StillNewSpeech(w.(response := w.response.(id := id), provider := None), w1, FlatTexts(texts));
    TextsSpoken(w1, texts);
    var cs := PlayTexts(texts, 0);
    var w2 := Run(w1, cs);
    ResponseIds(w1, w2);
    assert w2.playbacks != [] by { SomeChunk(texts); }
    ResponseCloses(w2);
    RunJoin(w1, cs, Closing3());
    RunJoin(w, Opening(correlation, id), cs + Closing3());
    DoneIsQuiescent(Run(w2, Closing3()));
  }

  lemma NewWithout(w: World, chunks: seq<Chunk>)
    requires NewSpeech(w, chunks)
    ensures NewSpeech(w.(provider := None), chunks)
  {
    forall k | 0 <= k < |chunks| ensures NewChunk(w.(provider := None), chunks[k]) { assert NewChunk(w, chunks[k]); }
  }

  lemma ResponseIds(w: World, w': World)
    requires SameResponse(w, w')
    ensures w'.cancelled == w.cancelled && w'.strayed == w.strayed
  {
  }

  lemma SomeChunk(texts: seq<seq<seq<Chunk>>>)
    requires texts != [] && Speakable(texts)
    ensures FlatTexts(texts) != []
  {
    assert texts[0] != [] && texts[0][0] != [];
    assert Flat(texts[0]) == texts[0][0] + Flat(texts[0][1..]);
  }

  // ----- speech that brings no audio -----

  /** Another attempt at the same segment, with nothing else changed. */
  ghost predicate TriesAgain(w: World, w': World) {
    && w' == w.(m := w'.m, control := InSynth, response := w'.response)
    && w'.response == w.response.(attempt := 1, emitted := false, retries := w.response.retries + 1)
    && w'.m.state == w.m.state
  }

  /**
   * A stream that raises, or that ends without audio, is tried once more exactly before any audio, on
   * the first attempt and unless the response is cancelled; otherwise a stream that raises fails the
   * response, and one that ends without audio does so unless it is cancelled.
   */
  lemma RetriesExactly(w: World)
    requires Inv(w) && w.control.InSynth?
    ensures var due := w.response.firstAudio && w.response.attempt == 0 && !w.cancelSet;
      && Feasible(w, [SynthRaises, StreamCloses(false)]) && Feasible(w, [SynthEnds, StreamCloses(false)])
      && var raised, ended := Run(w, [SynthRaises, StreamCloses(false)]), Run(w, [SynthEnds, StreamCloses(false)]);
         && (if due then TriesAgain(w, raised) else raised.response.failed)
         && (!w.response.emitted ==>
               if due then TriesAgain(w, ended) else ended.response.failed == !w.cancelSet)
  {
    hide Inv, Step, Enabled, TriesAgain;
    LoopStates(w);
    StreamRuns(w, SynthRaises);
    StreamRuns(w, SynthEnds);
    BrokenCloses(w);
    SilentCloses(w);
  }

  lemma StreamRuns(w: World, c: Choice)
    requires Inv(w) && w.control.InSynth? && c in {SynthRaises, SynthEnds}
    ensures Enabled(w, c) && Enabled(Step(w, c), StreamCloses(false))
    ensures Feasible(w, [c, StreamCloses(false)]) && Run(w, [c, StreamCloses(false)]) == Step(Step(w, c), StreamCloses(false))
  {
    hide Inv, World.StreamClosed;
    RunCons(Step(w, c), StreamCloses(false), []);
    RunCons(w, c, [StreamCloses(false)] + []);
    assert [c] + ([StreamCloses(false)] + []) == [c, StreamCloses(false)];
  }

  /** What becomes of a stream that brought no audio, or that raised. */
  lemma ClosedSilently(w: World, cause: Cause)
    requires w.m.state in {Thinking, Speaking, Interrupted} && w.control == Closing(cause)
    requires cause.StreamDone? ==> !w.response.emitted
    ensures var w' := w.StreamClosed(cause, false);
      var due := w.response.firstAudio && w.response.attempt == 0 && !w.cancelSet && !cause.Propagating?;
      if due then TriesAgain(w, w') else w'.response.failed == (w.response.failed || !(cause.StreamDone? && w.cancelSet))
  {
    hide World.Leads, World.Winds, Follows, World.Say, World.Fail, World.Gather, World.NextSegment;
    FailNeverDooms(w);
    GatherDooms(w, false);
  }

  lemma TriesSame(w: World, w1: World, w': World)
    requires w1 == w.(control := w1.control)
    ensures TriesAgain(w1, w') <==> TriesAgain(w, w')
  {
  }

  lemma BreaksThenCloses(w: World)
    requires w.control.InSynth?
    ensures Enabled(w, SynthRaises) && Step(w, SynthRaises) == w.StreamBroke()
    ensures Enabled(w.StreamBroke(), StreamCloses(false))
    ensures Step(w.StreamBroke(), StreamCloses(false)) == w.StreamBroke().StreamClosed(w.StreamBroke().control.cause, false)
  {
    hide World.StreamClosed;
  }

  lemma BrokenCloses(w: World)
    requires Inv(w) && w.control.InSynth? && w.m.state in {Thinking, Speaking, Interrupted}
    ensures Enabled(w, SynthRaises) && Enabled(Step(w, SynthRaises), StreamCloses(false))
    ensures var w' := Step(Step(w, SynthRaises), StreamCloses(false));
      if w.response.firstAudio && w.response.attempt == 0 && !w.cancelSet then TriesAgain(w, w') else w'.response.failed
  {
    hide Inv, Step, Enabled, World.StreamClosed, TriesAgain;
    var w1 := w.StreamBroke();
    BreaksThenCloses(w);
    ClosedSilently(w1, w1.control.cause);
    TriesSame(w, w1, w1.StreamClosed(w1.control.cause, false));
  }

  lemma SilentCloses(w: World)
    requires Inv(w) && w.control.InSynth? && w.m.state in {Thinking, Speaking, Interrupted}
    ensures Enabled(w, SynthEnds) && Enabled(Step(w, SynthEnds), StreamCloses(false))
    ensures var w' := Step(Step(w, SynthEnds), StreamCloses(false));
      !w.response.emitted ==>
        if w.response.firstAudio && w.response.attempt == 0 && !w.cancelSet then TriesAgain(w, w')
        else w'.response.failed == !w.cancelSet
  {
    hide Inv, World.StreamClosed, TriesAgain;
    NotFailedInLoop(w);
    var w1 := w.(control := Closing(StreamDone));
    if !w.response.emitted {
      ClosedSilently(w1, StreamDone);
      TriesSame(w, w1, w1.StreamClosed(StreamDone, false));
    }
  }

  lemma NotFailedInLoop(w: World)
    requires Inv(w) && w.control.InSynth?
    ensures !w.response.failed
  {
    hide Base;
  }
}
