/** What sinks consume, what the ledger says about it, and that a cancellation is final. */
module SessionFinality {
  import opened Domain
  import opened StateMachine
  import opened Ledger
  import opened Audit
  import opened Protocol
  import opened Invariants
  import opened Keeps
  import opened SessionReplay
  import Timeline

  /** How many samples of a chunk its sink has consumed. */
  function Consumed(w: World, c: string): nat { if c in w.sink then w.sink[c] else 0 }

  // ----- one step of a playback task -----

  /** An open entry starts to play or is settled at what its task has played. */
  predicate Advanced(e: Entry, e': Entry, played: nat) {
    && e'.responseId == e.responseId && e'.total == e.total
    && (|| e' == e
        || (e.Open() && e'.state.Playing?)
        || (e.Open() && (e'.state.Played? || e'.state.Cancelled?) && e'.played == played))
  }

  /** Task `i` made one step: its own entry advanced, the others were at most wound down. */
  ghost predicate Plays(w: World, w': World, i: nat) {
    && i < |w.playbacks| && |w'.playbacks| == |w.playbacks|
    && var p, p' := w.playbacks[i], w'.playbacks[i];
       && w'.playbacks == w.playbacks[i := p'] && p'.chunkId == p.chunkId
       && (|| (w'.sink == w.sink && p'.played == p.played)
           || (!w.cancelSet && w'.sink == w.sink[p.chunkId := p'.played]))
       && w'.ledger.order == w.ledger.order && w'.ledger.entries.Keys == w.ledger.entries.Keys
       && p.chunkId in w.ledger.entries
       && (forall c | c in w.ledger.entries && c != p.chunkId ::
             WindsDown(w.ledger.entries[c], w'.ledger.entries[c]))
       && Advanced(w.ledger.entries[p.chunkId], w'.ledger.entries[p.chunkId], p'.played)
  }

  lemma AcknowledgeShape(w: World, chunkId: string)
    ensures var w' := w.Acknowledge(chunkId);
      w'.ledger == w.ledger && w'.sink == w.sink && w'.playbacks == w.playbacks
  {
    hide Consistent, DigestOf, Follows;
  }

  /** A receipt that is accepted settles exactly what the task has played. */
  lemma FinishAdvances(b: Book, r: Receipt)
    requires r.chunkId in b.entries && Finish(b, r).1
    ensures var b' := Finish(b, r).0;
      && b'.order == b.order && b'.entries.Keys == b.entries.Keys
      && (forall c | c in b.entries && c != r.chunkId :: b'.entries[c] == b.entries[c])
      && Advanced(b.entries[r.chunkId], b'.entries[r.chunkId], r.played)
      && !b'.entries[r.chunkId].Open()
  {
  }

  function StopReceipt(w: World, i: nat): Receipt
    requires i < |w.playbacks|
  {
    var p := w.playbacks[i];
    Receipt(p.chunkId, p.total, p.played, p.startedNs, w.m.clock.Now(), w.cancelSet && p.played < p.total)
  }

  /** A returning sink leaves an accepted receipt in the book, and after a cancelled one cancels the rest. */
  lemma StopShape(w: World, i: nat)
    requires i < |w.playbacks|
    ensures var w' := w.Stop(i);
      var (b', ok) := Finish(w.ledger, StopReceipt(w, i));
      && w'.sink == w.sink
      && w'.playbacks == w.playbacks[i := w.playbacks[i].(phase := if ok then Finished else Broken)]
      && w'.ledger == (if !ok then w.ledger
                       else if StopReceipt(w, i).cancelled then CancelFrom(b', w.response.id, w.m.clock.Now(), 0).0
                       else b')
  {
    hide Consistent, DigestOf, Follows, World.Acknowledge, CancelFrom, Finish, Listed;
    var p := w.playbacks[i];
    var (b', ok) := Finish(w.ledger, StopReceipt(w, i));
    var w2 := w.Tick().(ledger := b').Put(i, p.(phase := Finished))
               .Say(AudioChunkPlayed, w.response.correlation, ChunkDetails(w.response.id, p.chunkId));
    AcknowledgeShape(w2.CancelRest(w.m.clock.Now()), p.chunkId);
  }

  lemma StopPlays(w: World, i: nat)
    requires i < |w.playbacks| && w.playbacks[i].chunkId in w.ledger.entries && Listed(w.ledger)
    ensures Plays(w, w.Stop(i), i) && w.Stop(i).sink == w.sink
  {
    hide World.Stop, CancelFrom, Finish, Advanced, StopReceipt, Listed;
    StopShape(w, i);
    var r := StopReceipt(w, i);
    assert r.chunkId == w.playbacks[i].chunkId && r.played == w.playbacks[i].played by { ReceiptOf(w, i); }
    var (b', ok) := Finish(w.ledger, r);
    if ok {
      FinishAdvances(w.ledger, r);
      assert Listed(b') by { SameListed(w.ledger, b'); }
      CancelWindsDown(b', w.response.id, w.m.clock.Now());
      assert WindsDown(b'.entries[r.chunkId], w.Stop(i).ledger.entries[r.chunkId]);
    } else {
      AdvancedSelf(w.ledger.entries[r.chunkId], r.played);
    }
  }

  lemma AdvancedSelf(e: Entry, played: nat)
    ensures Advanced(e, e, played)
  {
  }

  lemma SameListed(b: Book, b': Book)
    requires Listed(b) && b'.order == b.order && b'.entries.Keys == b.entries.Keys
    ensures Listed(b')
  {
  }

  lemma ReceiptOf(w: World, i: nat)
    requires i < |w.playbacks|
    ensures StopReceipt(w, i).chunkId == w.playbacks[i].chunkId && StopReceipt(w, i).played == w.playbacks[i].played
  {
  }

  lemma LoopTestPlays(w: World, i: nat)
    requires i < |w.playbacks| && w.playbacks[i].chunkId in w.ledger.entries && Listed(w.ledger)
    ensures Plays(w, w.LoopTest(i), i) && w.LoopTest(i).sink == w.sink
  {
    hide Consistent, DigestOf, Follows, World.Stop, Listed;
    if !(w.playbacks[i].played < w.playbacks[i].total && !w.cancelSet) { StopPlays(w, i); }
  }

  lemma AdvancePlays(w: World, i: nat, block: nat, observed: bool)
    requires i < |w.playbacks| && w.playbacks[i].chunkId in w.ledger.entries && Listed(w.ledger)
    ensures Plays(w, w.Advance(i, block, observed), i)
  {
    hide Consistent, DigestOf, Follows, World.Stop, World.LoopTest, Listed;
    if w.cancelSet {
      StopPlays(w, i);
    } else if !observed {
      var p := w.playbacks[i].(played := w.playbacks[i].played + block, phase := Sleeping);
      var w1 := w.Put(i, p).(sink := w.sink[p.chunkId := p.played]);
      LoopTestPlays(w1, i);
    }
  }

  lemma StartPlays(w: World, i: nat)
    requires Inv(w) && i < |w.playbacks| && w.playbacks[i].phase.Pending?
    ensures Plays(w, w.StartPlaying(i), i) && w.StartPlaying(i).sink == w.sink
  {
    hide Consistent, DigestOf, Follows, World.LoopTest, World.StartPlaying, Listed, StartPlayback, Started, Inv;
    InvBase(w);
    PendingEntry(w, i);
    StartedShape(w, i);
    StartShape(w.ledger, w.playbacks[i].chunkId, w.m.clock.Now());
    var w1 := Started(w, i);
    StartOrder(w.ledger, w.playbacks[i].chunkId, w.m.clock.Now());
    assert Listed(w1.ledger) by { ValidListed(w1.ledger); }
    LoopTestPlays(w1, i);
    StartedInLoop(w, i);
    PlaysFromStart(w, w1, w1.LoopTest(i), i);
  }

  /** A start changes nothing but the task's own entry, which an open one can begin to play. */
  lemma PlaysFromStart(w: World, w1: World, w2: World, i: nat)
    requires i < |w.playbacks| && w.playbacks[i].chunkId in w.ledger.entries
    requires w1.sink == w.sink && w1.cancelSet == w.cancelSet && w1.ledger.order == w.ledger.order
    requires |w1.playbacks| == |w.playbacks| && w1.playbacks == w.playbacks[i := w1.playbacks[i]]
    requires w1.playbacks[i].chunkId == w.playbacks[i].chunkId && w1.playbacks[i].played == w.playbacks[i].played
    requires var c := w.playbacks[i].chunkId;
      var e := w.ledger.entries[c];
      || w1.ledger.entries == w.ledger.entries
      || (e.Open() && w1.ledger.entries == w.ledger.entries[c := e.(startedNs := Some(w.m.clock.Now()), state := Playing)])
    requires Plays(w1, w2, i) && w2.sink == w1.sink
    ensures Plays(w, w2, i)
  {
  }

  lemma StartOrder(b: Book, id: string, ns: nat)
    ensures StartPlayback(b, id, ns).0.order == b.order
  {
  }

  lemma ValidListed(b: Book)
    requires Valid(b)
    ensures Listed(b)
  {
  }

  /** The index of a playback choice. */
  function TaskOf(c: Choice): nat
    requires c.PlaybackStarts? || c.PlaybackAdvances? || c.ObserverReturns? || c.PlaybackRaises?
  {
    c.index
  }

  lemma PlaybackPlays(w: World, c: Choice)
    requires Inv(w) && Enabled(w, c)
    requires c.PlaybackStarts? || c.PlaybackAdvances? || c.ObserverReturns? || c.PlaybackRaises?
    ensures Plays(w, Step(w, c), TaskOf(c)) && SameTask(w, Step(w, c))
    ensures Step(w, c).sink == w.sink || c.PlaybackAdvances?
  {
    hide Inv, World.StartPlaying, World.Advance, World.LoopTest, World.Put, SameTask, Plays, Listed;
    PlaybackFrame(w, c);
    BackedListed(w, TaskOf(c));
    match c
    case PlaybackStarts(i) => StartPlays(w, i);
    case PlaybackAdvances(i, block, observed) => AdvancePlays(w, i, block, observed);
    case ObserverReturns(i) => LoopTestPlays(w, i);
    case PlaybackRaises(i) => BreakPlays(w, i);
  }

  lemma BreakPlays(w: World, i: nat)
    requires i < |w.playbacks| && w.playbacks[i].chunkId in w.ledger.entries
    ensures var w' := w.Put(i, w.playbacks[i].(phase := Broken)); Plays(w, w', i) && w'.sink == w.sink
  {
  }

  lemma BackedListed(w: World, i: nat)
    requires Inv(w)
    ensures Listed(w.ledger) && w.ledger.entries.Keys <= w.seenChunks
    ensures i < |w.playbacks| ==> w.playbacks[i].chunkId in w.ledger.entries
  {
    hide Timely, UnfinishedCount, Where;
  }

  // ----- every step: winding down, enlisting or playing -----

  /** Callers leave the ledger, the sinks and the tasks of a live response alone. */
  lemma CallersPlayNothing(w: World, c: Choice)
    requires Enabled(w, c)
    requires c.ConfirmTurn? || c.BeginResponse? || c.InterruptNow? || c.BackgroundOverlap? || c.Telemetry?
    ensures var w' := Step(w, c);
      && w'.ledger == w.ledger && w'.sink == w.sink && w.cancelled <= w'.cancelled
      && (w'.playbacks == w.playbacks || w'.playbacks == [])
  {
    hide Consistent, DigestOf, World.Interrupt, World.Begin, World.Go;
    match c
    case ConfirmTurn(correlation) =>
      InterruptPlaysNothing(w.Say(TurnConfirmed, correlation, NoDetails), correlation);
    case InterruptNow(correlation) => InterruptPlaysNothing(w, correlation);
    case BeginResponse(correlation, id) =>
      if w.control.Done? && w.m.state.Listening? { BeginShape(w, correlation, id); } else { BeginIdle(w, correlation, id); }
    case _ =>
  }

  lemma InterruptPlaysNothing(w: World, correlation: string)
    ensures var w' := w.Interrupt(correlation);
      w'.ledger == w.ledger && w'.sink == w.sink && w.cancelled <= w'.cancelled && w'.playbacks == w.playbacks
  {
    hide World.Interrupt;
    if !w.control.Done? && !w.cancelSet { InterruptShape(w, correlation); } else { InterruptIdle(w, correlation); }
  }

  lemma BeginIdle(w: World, correlation: string, id: string)
    requires !(w.control.Done? && w.m.state.Listening?)
    ensures w.Begin(correlation, id) == w
  {
  }

  function ChunkOf(w: World, c: Choice): Chunk
    requires Enabled(w, c) && (c.SynthYields? || c.CapacityFrees?)
  {
    if c.SynthYields? then c.chunk else w.control.chunk
  }

  /** What one step can do to the ledger, the sinks and the tasks. */
  ghost predicate Worked(w: World, c: Choice, w': World)
    requires Enabled(w, c)
  {
    if c.PlaybackStarts? || c.PlaybackAdvances? || c.ObserverReturns? || c.PlaybackRaises? then
      Plays(w, w', TaskOf(c)) && SameTask(w, w') && (w'.sink == w.sink || c.PlaybackAdvances?)
    else if c.SynthYields? || c.CapacityFrees? then
      w.cancelled == w'.cancelled
      && (|| (w.Winds(w') && w'.playbacks == w.playbacks)
          || (&& w.Enlists(w', ChunkOf(w, c).speech)
              && ChunkOf(w, c).speech.responseId == w.response.id && w.response.id !in w.cancelled))
    else
      w.Winds(w') && w.cancelled <= w'.cancelled && (w'.playbacks == w.playbacks || w'.playbacks == [])
  }

  lemma StepWorks(w: World, c: Choice)
    requires Inv(w) && Enabled(w, c)
    ensures Worked(w, c, Step(w, c))
  {
    hide Inv, Step, World.Enlists, Plays, SameTask, World.Winds, Listed;
    match c
    case ConfirmTurn(_) => CallersWind(w, c);
    case BeginResponse(_, _) => CallersWind(w, c);
    case InterruptNow(_) => CallersWind(w, c);
    case BackgroundOverlap(_, _) => CallersWind(w, c);
    case Telemetry(_) => CallersWind(w, c);
    case SynthYields(_) => GatesWork(w, c);
    case CapacityFrees => GatesWork(w, c);
    case PlaybackStarts(_) => PlaybackPlays(w, c);
    case PlaybackAdvances(_, _, _) => PlaybackPlays(w, c);
    case ObserverReturns(_) => PlaybackPlays(w, c);
    case PlaybackRaises(_) => PlaybackPlays(w, c);
    case StreamCloses(raises) =>
      if w.RetryDue(w.control.cause, raises) { RetryWinds(w, c); } else { TaskLeads(w, c); }
    case _ => TaskLeads(w, c);
  }

  lemma CallersWind(w: World, c: Choice)
    requires Enabled(w, c)
    requires c.ConfirmTurn? || c.BeginResponse? || c.InterruptNow? || c.BackgroundOverlap? || c.Telemetry?
    ensures var w' := Step(w, c);
      w.Winds(w') && w.cancelled <= w'.cancelled && (w'.playbacks == w.playbacks || w'.playbacks == [])
  {
    hide Step;
    CallersPlayNothing(w, c);
  }

  lemma RetryWinds(w: World, c: Choice)
    requires Enabled(w, c) && c.StreamCloses? && w.RetryDue(w.control.cause, c.raises)
    ensures var w' := Step(w, c);
      w.Winds(w') && w.cancelled == w'.cancelled && w'.playbacks == w.playbacks
  {
    hide Consistent, DigestOf, Follows, World.Fail, World.NextSegment, World.Gather;
  }

  lemma GatesWork(w: World, c: Choice)
    requires Inv(w) && Enabled(w, c) && (c.SynthYields? || c.CapacityFrees?)
    ensures Worked(w, c, Step(w, c))
  {
    hide Inv, World.Enlists, World.Winds, Listed, World.ChunkArrives, World.CapacityFreed;
    BackedListed(w, 0);
    assert w.Gates(Step(w, c), ChunkOf(w, c));
  }

  // ----- a cancellation is final -----

  /** From `w` to `w'` nothing of response `rid` entered the ledger, was queued or was consumed. */
  ghost predicate FinalFor(w: World, w': World, rid: string) {
    && rid in w'.cancelled
    && w.ledger.order <= w'.ledger.order
    && (forall c | c in w.ledger.entries ::
          c in w'.ledger.entries && w'.ledger.entries[c].responseId == w.ledger.entries[c].responseId)
    && (forall c | c in w'.ledger.entries && w'.ledger.entries[c].responseId == rid ::
          && c in w.ledger.entries
          && (w'.ledger.entries[c].state.Queued? ==> w.ledger.entries[c].state.Queued?)
          && Consumed(w', c) == Consumed(w, c))
  }

  lemma FinalTransitive(w0: World, w1: World, w2: World, rid: string)
    requires FinalFor(w0, w1, rid) && FinalFor(w1, w2, rid)
    ensures FinalFor(w0, w2, rid)
  {
  }

  lemma WindsFinal(w: World, w': World, rid: string)
    requires Listed(w.ledger) && w.Winds(w') && rid in w'.cancelled
    ensures FinalFor(w, w', rid)
  {
    hide Listed;
  }

  lemma EnlistsFinal(w: World, w': World, speech: Speech, rid: string)
    requires w.Enlists(w', speech) && speech.responseId != rid && rid in w'.cancelled
    ensures FinalFor(w, w', rid)
  {
  }

  lemma PlaysFinal(w: World, w': World, i: nat, rid: string)
    requires Inv(w) && Plays(w, w', i) && SameTask(w, w') && rid in w.cancelled
    ensures FinalFor(w, w', rid)
  {
    hide Timely, UnfinishedCount, Valid, Where;
    var d := w.playbacks[i].chunkId;
    assert !w.cancelSet ==> w.ledger.entries[d].responseId != rid;
    assert Advanced(w.ledger.entries[d], w'.ledger.entries[d], w'.playbacks[i].played);
    forall c | c in w'.ledger.entries && w'.ledger.entries[c].responseId == rid
      ensures Consumed(w', c) == Consumed(w, c)
      ensures w'.ledger.entries[c].state.Queued? ==> w.ledger.entries[c].state.Queued?
    {
      if c != d { assert WindsDown(w.ledger.entries[c], w'.ledger.entries[c]); }
    }
  }

  lemma StepFinal(w: World, c: Choice, rid: string)
    requires Inv(w) && Enabled(w, c) && rid in w.cancelled
    ensures FinalFor(w, Step(w, c), rid)
  {
    hide Inv, Step, World.Enlists, World.Winds, Plays, SameTask, FinalFor, Listed;
    var w' := Step(w, c);
    StepWorks(w, c);
    BackedListed(w, 0);
    if c.PlaybackStarts? || c.PlaybackAdvances? || c.ObserverReturns? || c.PlaybackRaises? {
      PlaysFinal(w, w', TaskOf(c), rid);
    } else if (c.SynthYields? || c.CapacityFrees?) && !w.Winds(w') {
      EnlistsFinal(w, w', ChunkOf(w, c).speech, rid);
    } else {
      WindsFinal(w, w', rid);
    }
  }

  lemma {:induction false} RunFinal(w: World, cs: seq<Choice>, rid: string)
    requires Inv(w) && Feasible(w, cs) && rid in w.cancelled
    ensures FinalFor(w, Run(w, cs), rid)
    decreases cs
  {
    hide Inv, Step, Enabled;
    if cs != [] {
      StepKeeps(w, cs[0]);
      StepFinal(w, cs[0], rid);
      RunFinal(Step(w, cs[0]), cs[1..], rid);
      FinalTransitive(w, Step(w, cs[0]), Run(w, cs), rid);
    }
  }

  // ----- what is scheduled is what the ledger lists -----

  /** The stream has scheduled exactly the chunks of the ledger, in registration order. */
  ghost predicate Scheduled(w: World) { DigestOf(w.m).scheduled == w.ledger.order }

  /** A chunk that passes the gate is enlisted and scheduled by the same step. */
  lemma AdmitSchedules(w: World, chunk: Chunk)
    requires Base(w) && InLoops(w) && chunk.speech.samples >= 1
    requires Consistent(w.m) && Named(w) && Scheduled(w)
    ensures Scheduled(w.Admit(chunk))
  {
    hide DigestOf, Consistent, Backed, Timely, UnfinishedCount, World.TakeOwnership, World.PinProvider,
         World.NoteReceived, World.Enlist, World.Schedule, World.Winds;
    if !w.Stale(chunk) && !w.Seen(chunk) {
      assert !w.cancelSet by { assert w.cancelSet ==> w.response.id in w.cancelled; }
      ClaimShape(w, chunk.provider);
      var w2 := w.TakeOwnership().PinProvider(chunk.provider);
      Later(w.ledger, w.m.clock.Now(), w2.m.clock.Now());
      EnlistShape(w2, chunk);
    }
  }

  lemma GatesSchedule(w: World, c: Choice)
    requires Inv(w) && Enabled(w, c) && (c.SynthYields? || c.CapacityFrees?)
    requires Consistent(w.m) && Named(w) && Scheduled(w)
    ensures Scheduled(Step(w, c))
  {
    hide DigestOf, Consistent, Base, World.Admit, World.Leads, World.SameIdentity, UnfinishedCount;
    AdmitSchedules(w, ChunkOf(w, c));
    assert w.Leads(w.AskDropped()) && w.AskDropped().ledger == w.ledger by { AskShape(w); }
    LeadsSame(w, w.AskDropped());
  }

  lemma AskShape(w: World)
    ensures w.Leads(w.AskDropped()) && w.AskDropped().ledger == w.ledger
  {
    hide DigestOf, Consistent;
  }

  lemma LeadsSame(w: World, w': World)
    requires w.Leads(w') && Named(w) && Consistent(w.m)
    ensures Consistent(w'.m) && DigestOf(w'.m) == DigestOf(w.m) && w'.response.correlation == w.response.correlation
  {
    hide DigestOf, Consistent;
  }

  /** Every other step leaves the list of scheduled chunks alone. */
  lemma StepSchedules(w: World, c: Choice)
    requires Inv(w) && Enabled(w, c) && Auditable(w) && Scheduled(w)
    ensures Scheduled(Step(w, c))
  {
    hide Inv, Step, DigestOf, Consistent, World.Enlists, WoundDown;
    AuditableParts(w);
    BackedListed(w, 0);
    if c.SynthYields? || c.CapacityFrees? {
      GatesSchedule(w, c);
    } else if c.PlaybackStarts? || c.PlaybackAdvances? || c.ObserverReturns? || c.PlaybackRaises? {
      PlaybackReports(w, c);
      PlaybackPlays(w, c);
    } else {
      StepWorks(w, c);
      WindsOrder(w, Step(w, c));
      SameSchedule(w, c);
    }
  }

  lemma AuditableParts(w: World)
    requires Auditable(w)
    ensures Consistent(w.m) && Named(w)
  {
  }

  lemma WindsOrder(w: World, w': World)
    requires Listed(w.ledger) && w.Winds(w')
    ensures w'.ledger.order == w.ledger.order
  {
    hide Listed;
  }

  lemma SameSchedule(w: World, c: Choice)
    requires Enabled(w, c) && Consistent(w.m) && Named(w)
    requires !(c.SynthYields? || c.CapacityFrees?)
    requires !(c.PlaybackStarts? || c.PlaybackAdvances? || c.ObserverReturns? || c.PlaybackRaises?)
    ensures DigestOf(Step(w, c).m).scheduled == DigestOf(w.m).scheduled
  {
    hide DigestOf, Consistent, World.Confirm, World.Begin, World.Interrupt, World.OverlapStep, World.StreamClosed, World.Retry;
    if c.ConfirmTurn? || c.BeginResponse? || c.InterruptNow? || c.BackgroundOverlap? || c.Telemetry? {
    } else if c.StreamCloses? && w.RetryDue(w.control.cause, c.raises) {
    } else {
      TaskLeads(w, c);
    }
  }

  // ----- what the ledger claims was heard -----

  /** A settled entry claims exactly what its sink consumed; before the sink starts, nothing was. */
  predicate HeardEntry(e: Entry, consumed: nat) {
    && consumed <= e.total
    && (e.state.Played? || e.state.Cancelled? ==> e.played == consumed)
    && (e.state.Generated? || e.state.Queued? ==> consumed == 0)
  }

  ghost predicate Heard(w: World) {
    && w.sink.Keys <= w.ledger.entries.Keys
    && (forall c | c in w.ledger.entries :: HeardEntry(w.ledger.entries[c], Consumed(w, c)))
    && (forall i | 0 <= i < |w.playbacks| :: w.playbacks[i].played == Consumed(w, w.playbacks[i].chunkId))
  }

  lemma WindsHeard(w: World, w': World)
    requires Heard(w) && Valid(w.ledger) && w.Winds(w')
    requires w'.playbacks == w.playbacks || w'.playbacks == []
    ensures Heard(w')
  {
    hide Listed;
    assert Listed(w.ledger) by { ValidListed(w.ledger); }
    forall c | c in w'.ledger.entries ensures HeardEntry(w'.ledger.entries[c], Consumed(w', c)) {
      assert SoundEntry(w.ledger.entries[c]);
      assert WindsDown(w.ledger.entries[c], w'.ledger.entries[c]);
    }
  }

  lemma EnlistsHeard(w: World, w': World, speech: Speech)
    requires Heard(w) && Valid(w.ledger) && w.Enlists(w', speech)
    requires forall i | 0 <= i < |w.playbacks| :: w.playbacks[i].chunkId in w.ledger.entries
    ensures Heard(w')
  {
    hide Listed;
    forall c | c in w'.ledger.entries ensures HeardEntry(w'.ledger.entries[c], Consumed(w', c)) {
      if c in w.ledger.entries {
        assert SoundEntry(w.ledger.entries[c]);
        assert WindsDown(w.ledger.entries[c], w'.ledger.entries[c]);
      }
    }
    forall i | 0 <= i < |w'.playbacks| ensures w'.playbacks[i].played == Consumed(w', w'.playbacks[i].chunkId) {
      if i < |w.playbacks| { assert w'.playbacks[i] == w.playbacks[i]; }
    }
  }

  lemma AdvancedHeard(e: Entry, e': Entry, p: Playback, p': Playback, cancelSet: bool)
    requires HeardEntry(e, p.played) && Matches(e, p, cancelSet) && Advanced(e, e', p'.played)
    requires p'.played <= p.total && (p'.played == p.played || p.phase.Sleeping?)
    ensures HeardEntry(e', p'.played)
  {
  }

  lemma WindsHeardEntry(e: Entry, e': Entry, consumed: nat)
    requires HeardEntry(e, consumed) && SoundEntry(e) && WindsDown(e, e')
    ensures HeardEntry(e', consumed)
  {
  }

  lemma PlaysHeard(w: World, w': World, i: nat)
    requires Heard(w) && Backed(w.ledger, w.playbacks, w.response.id, w.cancelSet) && Plays(w, w', i)
    requires w'.sink == w.sink || w.playbacks[i].phase.Sleeping?
    requires w'.playbacks[i].played <= w.playbacks[i].total
    ensures Heard(w')
  {
    hide Listed, HeardEntry, Matches, Advanced, WindsDown, SoundEntry;
    var p, p' := w.playbacks[i], w'.playbacks[i];
    var d := p.chunkId;
    forall c | c in w'.ledger.entries ensures HeardEntry(w'.ledger.entries[c], Consumed(w', c)) {
      if c == d {
        AdvancedHeard(w.ledger.entries[d], w'.ledger.entries[d], p, p', w.cancelSet);
      } else {
        WindsHeardEntry(w.ledger.entries[c], w'.ledger.entries[c], Consumed(w, c));
      }
    }
    forall k | 0 <= k < |w'.playbacks| ensures w'.playbacks[k].played == Consumed(w', w'.playbacks[k].chunkId) {
      if k != i { assert w'.playbacks[k] == w.playbacks[k] && w.playbacks[k].chunkId != d; }
    }
  }

  lemma TaskInBounds(w: World, i: nat)
    requires Inv(w) && i < |w.playbacks|
    ensures w.playbacks[i].played <= w.playbacks[i].total
  {
    hide Timely, UnfinishedCount, Where, Valid;
    assert Matches(w.ledger.entries[w.playbacks[i].chunkId], w.playbacks[i], w.cancelSet);
  }

  lemma InvBacked(w: World)
    requires Inv(w)
    ensures Backed(w.ledger, w.playbacks, w.response.id, w.cancelSet)
    ensures forall i | 0 <= i < |w.playbacks| :: w.playbacks[i].chunkId in w.ledger.entries
  {
    hide Timely, UnfinishedCount, Where, Valid;
  }

  lemma StepHeard(w: World, c: Choice)
    requires Inv(w) && Enabled(w, c) && Heard(w)
    ensures Heard(Step(w, c))
  {
    hide Inv, Step, World.Enlists, World.Winds, Heard, Backed, Listed;
    var w' := Step(w, c);
    StepWorks(w, c);
    StepKeeps(w, c);
    InvBacked(w);
    assert Valid(w.ledger) by { BackedValid(w); }
    if c.PlaybackStarts? || c.PlaybackAdvances? || c.ObserverReturns? || c.PlaybackRaises? {
      TaskInBounds(w', TaskOf(c));
      InvBacked(w');
      SameTotals(w, w', TaskOf(c));
      PlaysHeard(w, w', TaskOf(c));
    } else if (c.SynthYields? || c.CapacityFrees?) && !(w.Winds(w') && w'.playbacks == w.playbacks) {
      EnlistsHeard(w, w', ChunkOf(w, c).speech);
    } else {
      WindsHeard(w, w');
    }
  }

  lemma BackedValid(w: World)
    requires Inv(w)
    ensures Valid(w.ledger)
  {
    hide Timely, UnfinishedCount, Where, Valid;
  }

  /** Neither entries nor tasks ever change their length. */
  lemma SameTotals(w: World, w': World, i: nat)
    requires Backed(w.ledger, w.playbacks, w.response.id, w.cancelSet) && Plays(w, w', i)
    requires Backed(w'.ledger, w'.playbacks, w'.response.id, w'.cancelSet)
    ensures w'.playbacks[i].total == w.playbacks[i].total
  {
    hide Valid, WindsDown, Listed;
    assert Matches(w.ledger.entries[w.playbacks[i].chunkId], w.playbacks[i], w.cancelSet);
    assert Matches(w'.ledger.entries[w'.playbacks[i].chunkId], w'.playbacks[i], w'.cancelSet);
  }

  // ----- whole runs -----

  /** Everything known about a session at an await point. */
  ghost predicate Sound(w: World) { Inv(w) && Auditable(w) && Scheduled(w) && Heard(w) }

  lemma {:induction false} RunSound(w: World, cs: seq<Choice>)
    requires Sound(w) && Feasible(w, cs)
    ensures Sound(Run(w, cs))
    decreases cs
  {
    hide Inv, Auditable, Scheduled, Heard, Step, Enabled;
    if cs != [] {
      StepKeeps(w, cs[0]);
      StepAuditable(w, cs[0]);
      StepSchedules(w, cs[0]);
      StepHeard(w, cs[0]);
      RunSound(Step(w, cs[0]), cs[1..]);
    }
  }

  lemma StepAuditable(w: World, c: Choice)
    requires Inv(w) && Auditable(w) && Enabled(w, c)
    ensures Auditable(Step(w, c))
  {
    hide Inv, Auditable, Step, Enabled;
    StepAudits(w, c);
  }

  lemma InitialSound(conversationId: string, at: nat -> nat, correlation: string)
    requires NonDecreasing(at) && conversationId != "" && correlation != ""
    ensures Sound(Initial(conversationId, at, correlation))
  {
    hide Auditable, Inv, Consistent, Timeline.Run;
    InitialInv(conversationId, at, correlation);
    InitialAudits(conversationId, at, correlation);
    var w := Initial(conversationId, at, correlation);
    var idle := Machine(conversationId, Idle, 0, 0, 0, Clock(at, 0), []);
    ScheduledAppend([], w.m.log[0]);
    assert w.m.log == [] + [w.m.log[0]];
  }
}
