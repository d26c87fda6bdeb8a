/** The session's stream and the strict replay: exactly which interleavings are accepted. */
module SessionReplay {
  import opened Domain
  import opened StateMachine
  import opened Ledger
  import opened Audit
  import opened Protocol
  import opened Invariants
  import opened Keeps
  import Timeline

  /** Correlations are never empty. */
  predicate Named(w: World) {
    && w.response.correlation != ""
    && (w.cancelCorrelation.Some? ==> w.cancelCorrelation.value != "")
  }

  /** The interruption of a response is on record for as long as one of its tasks can still report it. */
  ghost predicate Announced(w: World) {
    (&& DigestOf(w.m).accepted && w.cancelCorrelation.Some?
     && w.response.id !in w.acknowledged && !NoneUnfinished(w.playbacks)) ==>
      w.cancelCorrelation.value in DigestOf(w.m).candidates
  }

  ghost predicate Auditable(w: World) { Consistent(w.m) && Named(w) && Announced(w) }

  /**
   * The one step that breaks the replay: a response has failed without being interrupted, and the
   * sink of a look-ahead chunk now reports the cancellation as the first one of that response.
   */
  predicate Orphan(w: World, c: Choice) {
    && c.PlaybackStarts?
    && w.response.failed && w.cancelCorrelation.None?
    && w.response.id !in w.acknowledged
    && w.response.correlation !in DigestOf(w.m).candidates
  }

  function StopCorrelation(w: World): string {
    if w.cancelCorrelation.Some? then w.cancelCorrelation.value else w.response.correlation
  }

  /** The receipt of task `i` is accepted, says cancelled, and is the first of its response to say so. */
  predicate FirstStop(w: World, i: nat)
    requires i < |w.playbacks|
  {
    var p := w.playbacks[i];
    && w.cancelSet && p.played < p.total
    && w.response.id !in w.acknowledged
    && Finish(w.ledger, Receipt(p.chunkId, p.total, p.played, p.startedNs, w.m.clock.Now(), true)).1
  }

  predicate Stops(w: World, c: Choice)
    requires Enabled(w, c)
  {
    match c
    case PlaybackStarts(i) =>
      StartPlayback(w.ledger, w.playbacks[i].chunkId, w.m.clock.Now()).1 && FirstStop(Started(w, i), i)
    case PlaybackAdvances(i, _, _) => FirstStop(w, i)
    case ObserverReturns(i) => FirstStop(w, i)
    case _ => false
  }

  /** What the stream of `w'` adds to the stream of `w`: nothing anybody reads, or one cancellation. */
  ghost predicate Reports(w: World, w': World, stops: bool) {
    && Consistent(w'.m)
    && DigestOf(w'.m) == (if stops then After(DigestOf(w.m), AgentAudioCancelled, StopCorrelation(w), NoDetails)
                          else DigestOf(w.m))
    && w'.acknowledged == (if stops then w.acknowledged + {w.response.id} else w.acknowledged)
  }

  lemma AcknowledgeReports(w: World, chunkId: string)
    requires Consistent(w.m) && Named(w)
    ensures Reports(w, w.Acknowledge(chunkId), w.response.id !in w.acknowledged)
  {
    hide Consistent, DigestOf;
  }

  lemma StopReports(w: World, i: nat)
    requires i < |w.playbacks| && Consistent(w.m) && Named(w)
    ensures Reports(w, w.Stop(i), FirstStop(w, i))
  {
    hide Consistent, DigestOf, After, Finish, World.Acknowledge, CancelFrom;
    var p := w.playbacks[i];
    var stopped := w.cancelSet && p.played < p.total;
    var receipt := Receipt(p.chunkId, p.total, p.played, p.startedNs, w.m.clock.Now(), stopped);
    var (book, ok) := Finish(w.ledger, receipt);
    if ok && stopped {
      var w2 := w.Tick().(ledger := book).Put(i, p.(phase := Finished))
                 .Say(AudioChunkPlayed, w.response.correlation, ChunkDetails(w.response.id, p.chunkId));
      AcknowledgeReports(w2.CancelRest(w.m.clock.Now()), p.chunkId);
    }
  }

  lemma LoopTestReports(w: World, i: nat)
    requires i < |w.playbacks| && Consistent(w.m) && Named(w)
    ensures Reports(w, w.LoopTest(i), FirstStop(w, i))
  {
    hide Consistent, DigestOf, After, Finish, World.Stop;
    if !(w.playbacks[i].played < w.playbacks[i].total && !w.cancelSet) { StopReports(w, i); }
  }

  lemma AdvanceReports(w: World, i: nat, block: nat, observed: bool)
    requires i < |w.playbacks| && Consistent(w.m) && Named(w)
    ensures Reports(w, w.Advance(i, block, observed), FirstStop(w, i))
  {
    hide Consistent, DigestOf, After, Finish, World.Stop, World.LoopTest;
    if w.cancelSet {
      StopReports(w, i);
    } else if !observed {
      var p := w.playbacks[i].(played := w.playbacks[i].played + block, phase := Sleeping);
      LoopTestReports(w.Put(i, p).(sink := w.sink[p.chunkId := p.played]), i);
    }
  }

  lemma StartReports(w: World, i: nat)
    requires i < |w.playbacks| && Consistent(w.m) && Named(w)
    ensures Reports(w, w.StartPlaying(i),
                    StartPlayback(w.ledger, w.playbacks[i].chunkId, w.m.clock.Now()).1 && FirstStop(Started(w, i), i))
  {
    hide Consistent, DigestOf, After, Finish, StartPlayback, World.LoopTest, World.StartPlaying;
    StartedShape(w, i);
    LoopTestReports(Started(w, i), i);
  }

  /** A playback step reports at most one cancellation. */
  lemma PlaybackReports(w: World, c: Choice)
    requires Enabled(w, c) && Consistent(w.m) && Named(w)
    requires c.PlaybackStarts? || c.PlaybackAdvances? || c.ObserverReturns? || c.PlaybackRaises?
    ensures Reports(w, Step(w, c), Stops(w, c))
  {
    hide Consistent, DigestOf, After, FirstStop, StartPlayback,
         World.StartPlaying, World.Advance, World.LoopTest;
    match c
    case PlaybackStarts(i) => StartReports(w, i);
    case PlaybackAdvances(i, block, observed) => AdvanceReports(w, i, block, observed);
    case ObserverReturns(i) => LoopTestReports(w, i);
    case PlaybackRaises(i) =>
  }

  lemma PlayingReceipt(w: World, i: nat)
    requires Inv(w) && i < |w.playbacks| && (w.playbacks[i].phase.Sleeping? || w.playbacks[i].phase.Observing?)
    requires w.response.failed
    ensures !FirstStop(w, i)
  {
    hide UnfinishedCount, Valid, Timely;
    assert Matches(w.ledger.entries[w.playbacks[i].chunkId], w.playbacks[i], w.cancelSet);
  }

  lemma PendingReceipt(w: World, i: nat)
    requires Inv(w) && i < |w.playbacks| && w.playbacks[i].phase.Pending? && w.response.failed
    ensures StartPlayback(w.ledger, w.playbacks[i].chunkId, w.m.clock.Now()).1
    ensures FirstStop(Started(w, i), i) <==> w.response.id !in w.acknowledged
  {
    hide UnfinishedCount, Valid, Timely, Follows;
    StartedShape(w, i);
    PendingEntry(w, i);
  }

  /** Without a failure a first cancelled receipt always finds its candidate. */
  lemma StopsAnnounced(w: World, c: Choice)
    requires Inv(w) && Auditable(w) && DigestOf(w.m).accepted && Enabled(w, c) && Stops(w, c)
    requires StopCorrelation(w) !in DigestOf(w.m).candidates
    ensures w.response.failed && w.cancelCorrelation.None?
  {
    hide UnfinishedCount, Backed, Timely, Consistent, DigestOf, Where, StartPlayback, Finish, Follows;
    var i := match c
      case PlaybackStarts(i) => i
      case PlaybackAdvances(i, _, _) => i
      case ObserverReturns(i) => i
      case _ => 0;
    assert Unfinished(w.playbacks[i]);
    if c.PlaybackStarts? { StartedShape(w, i); }
  }

  /** A first cancelled receipt lacks its candidate exactly in the orphan case. */
  lemma OrphanExactly(w: World, c: Choice)
    requires Inv(w) && Auditable(w) && DigestOf(w.m).accepted && Enabled(w, c)
    ensures Stops(w, c) && StopCorrelation(w) !in DigestOf(w.m).candidates <==> Orphan(w, c)
  {
    hide Inv, Auditable, DigestOf, FirstStop, StartPlayback, Finish, Started;
    if Stops(w, c) && StopCorrelation(w) !in DigestOf(w.m).candidates {
      StopsAnnounced(w, c);
      match c
      case PlaybackStarts(i) => PendingReceipt(w, i);
      case PlaybackAdvances(i, _, _) => PlayingReceipt(w, i);
      case ObserverReturns(i) => PlayingReceipt(w, i);
    }
    if Orphan(w, c) { PendingReceipt(w, c.index); }
  }

  /** Every step but the orphan keeps an accepted stream accepted, and nothing repairs a refused one. */
  ghost predicate Audits(w: World, c: Choice, w': World) {
    && Auditable(w')
    && (DigestOf(w'.m).accepted <==> DigestOf(w.m).accepted && !Orphan(w, c))
  }

  lemma AcknowledgedStep(w: World, c: Choice)
    requires Inv(w) && Auditable(w) && Enabled(w, c)
    requires c.PlaybackStarts? || c.PlaybackAdvances? || c.ObserverReturns? || c.PlaybackRaises?
    ensures Audits(w, c, Step(w, c))
  {
    hide Inv, Consistent, DigestOf, Stops, Orphan, Step;
    PlaybackReports(w, c);
    if DigestOf(w.m).accepted { OrphanExactly(w, c); }
    PlaybackFrame(w, c);
  }

  /** A playback step leaves names alone, and at least its own task was unfinished before. */
  lemma PlaybackFrame(w: World, c: Choice)
    requires Inv(w) && Enabled(w, c)
    requires c.PlaybackStarts? || c.PlaybackAdvances? || c.ObserverReturns? || c.PlaybackRaises?
    ensures SameTask(w, Step(w, c)) && !NoneUnfinished(w.playbacks)
  {
    hide Inv, World.StartPlaying, World.Advance, World.LoopTest;
    match c
    case PlaybackStarts(i) => StartPlayingKeeps(w, i);
    case PlaybackAdvances(i, block, observed) => AdvanceKeeps(w, i, block, observed);
    case ObserverReturns(i) => ObserverKeeps(w, i);
    case PlaybackRaises(i) => assert Unfinished(w.playbacks[i]);
  }

  /** Choices of the response task other than admitting a chunk or retrying. */
  predicate TaskChoice(w: World, c: Choice)
    requires Enabled(w, c)
  {
    || c.Launch? || c.ToolReturns? || c.ReasonerYields? || c.ReasonerEnds? || c.ReasonerRaises?
    || c.SynthEnds? || c.SynthRaises? || c.GatherReturns? || c.PlaybacksSettle?
    || (c.StreamCloses? && !w.RetryDue(w.control.cause, c.raises))
  }

  lemma TaskLeads(w: World, c: Choice)
    requires Enabled(w, c) && TaskChoice(w, c)
    ensures w.Leads(Step(w, c))
  {
    hide World.LaunchWith, World.ToolReturned, World.TextArrives, World.Gather, World.Fail, World.StreamClosed,
         World.GatherReturned, World.Conclude, World.Retry, DigestOf, Consistent, WoundDown;
  }

  lemma LeadsAudits(w: World, c: Choice)
    requires Enabled(w, c) && TaskChoice(w, c) && Auditable(w)
    ensures Audits(w, c, Step(w, c))
  {
    hide Step, DigestOf, Consistent, World.Winds;
    TaskLeads(w, c);
  }

  lemma RetryAudits(w: World, c: Choice)
    requires Enabled(w, c) && c.StreamCloses? && w.RetryDue(w.control.cause, c.raises) && Auditable(w)
    ensures Audits(w, c, Step(w, c))
  {
    hide World.StreamClosed, DigestOf, Consistent;
  }

  /** A cancelled response admits nothing. */
  lemma CancelledAdmitsNothing(w: World, c: Choice)
    requires Inv(w) && Enabled(w, c) && (c.SynthYields? || c.CapacityFrees?) && w.cancelSet
    ensures Step(w, c).playbacks == w.playbacks && w.Winds(Step(w, c))
  {
    hide DigestOf, Consistent, World.TakeOwnership, World.Pass, UnfinishedCount, Backed, Timely, WoundDown;
  }

  lemma GatesAudits(w: World, c: Choice)
    requires Inv(w) && Enabled(w, c) && (c.SynthYields? || c.CapacityFrees?) && Auditable(w)
    ensures Audits(w, c, Step(w, c))
  {
    hide DigestOf, Consistent, World.ChunkArrives, World.CapacityFreed, World.Winds, World.Enlists, Backed, Timely,
         UnfinishedCount;
    if w.cancelSet { CancelledAdmitsNothing(w, c); }
  }

  /** An interruption that can still be reported by a task announces itself. */
  lemma InterruptAudits(w: World, correlation: string)
    requires Inv(w) && Auditable(w) && correlation != ""
    ensures Auditable(w.Interrupt(correlation))
    ensures DigestOf(w.Interrupt(correlation).m).accepted <==> DigestOf(w.m).accepted
  {
    hide DigestOf, Consistent, World.Interrupt, UnfinishedCount, Backed, Timely;
    if !w.control.Done? && !w.cancelSet {
      InterruptShape(w, correlation);
    } else {
      assert w.Interrupt(correlation) == w by { InterruptIdle(w, correlation); }
    }
  }

  lemma InterruptIdle(w: World, correlation: string)
    requires w.control.Done? || w.cancelSet
    ensures w.Interrupt(correlation) == w
  {
  }

  lemma ConfirmAudits(w: World, correlation: string)
    requires Inv(w) && Auditable(w) && correlation != ""
    ensures Auditable(w.Confirm(correlation))
    ensures DigestOf(w.Confirm(correlation).m).accepted <==> DigestOf(w.m).accepted
  {
    hide DigestOf, Consistent, World.Interrupt, Inv;
    SayKeeps(w, TurnConfirmed, correlation, NoDetails);
    InterruptAudits(w.Say(TurnConfirmed, correlation, NoDetails), correlation);
  }

  lemma CallerAudits(w: World, c: Choice)
    requires Inv(w) && Enabled(w, c) && Auditable(w)
    requires c.ConfirmTurn? || c.BeginResponse? || c.InterruptNow? || c.BackgroundOverlap? || c.Telemetry?
    ensures Audits(w, c, Step(w, c))
  {
    hide DigestOf, Consistent, World.Confirm, World.Interrupt, World.Go, Inv;
    match c
    case ConfirmTurn(correlation) => ConfirmAudits(w, correlation);
    case InterruptNow(correlation) => InterruptAudits(w, correlation);
    case _ =>
  }

  /** One step of any interleaving: the stream stays accepted unless the step is the orphan. */
  lemma StepAudits(w: World, c: Choice)
    requires Inv(w) && Enabled(w, c) && Auditable(w)
    ensures Audits(w, c, Step(w, c))
  {
    hide Inv, Auditable, Audits, Step;
    match c
    case ConfirmTurn(_) => CallerAudits(w, c);
    case BeginResponse(_, _) => CallerAudits(w, c);
    case InterruptNow(_) => CallerAudits(w, c);
    case BackgroundOverlap(_, _) => CallerAudits(w, c);
    case Telemetry(_) => CallerAudits(w, c);
    case SynthYields(_) => GatesAudits(w, c);
    case CapacityFrees => GatesAudits(w, c);
    case PlaybackStarts(_) => AcknowledgedStep(w, c);
    case PlaybackAdvances(_, _, _) => AcknowledgedStep(w, c);
    case ObserverReturns(_) => AcknowledgedStep(w, c);
    case PlaybackRaises(_) => AcknowledgedStep(w, c);
    case StreamCloses(raises) =>
      if w.RetryDue(w.control.cause, raises) { RetryAudits(w, c); } else { LeadsAudits(w, c); }
    case _ => LeadsAudits(w, c);
  }

  // ----- whole runs -----

  predicate NeverOrphans(w: World, cs: seq<Choice>)
    requires Feasible(w, cs)
    decreases cs
  {
    cs == [] || (!Orphan(w, cs[0]) && NeverOrphans(Step(w, cs[0]), cs[1..]))
  }

  /** No response raises anywhere along the run. */
  predicate NeverFails(w: World, cs: seq<Choice>)
    requires Feasible(w, cs)
    decreases cs
  {
    !w.response.failed && (cs == [] || NeverFails(Step(w, cs[0]), cs[1..]))
  }

  lemma {:induction false} RunAudits(w: World, cs: seq<Choice>)
    requires Inv(w) && Auditable(w) && Feasible(w, cs)
    ensures Auditable(Run(w, cs))
    ensures DigestOf(Run(w, cs).m).accepted <==> DigestOf(w.m).accepted && NeverOrphans(w, cs)
    decreases cs
  {
    hide Inv, Auditable, Step, Enabled, Orphan, DigestOf;
    if cs != [] {
      StepKeeps(w, cs[0]);
      StepAudits(w, cs[0]);
      RunAudits(Step(w, cs[0]), cs[1..]);
    }
  }

  lemma {:induction false} FailureNeeded(w: World, cs: seq<Choice>)
    requires Feasible(w, cs) && NeverFails(w, cs)
    ensures NeverOrphans(w, cs)
    decreases cs
  {
    hide Step, Enabled;
    if cs != [] { FailureNeeded(Step(w, cs[0]), cs[1..]); }
  }

  lemma InitialAudits(conversationId: string, at: nat -> nat, correlation: string)
    requires NonDecreasing(at) && conversationId != "" && correlation != ""
    ensures var w := Initial(conversationId, at, correlation);
      Auditable(w) && DigestOf(w.m).accepted && DigestOf(w.m).candidates == {}
  {
    var idle := Machine(conversationId, Idle, 0, 0, 0, Clock(at, 0), []);
    assert Consistent(idle);
    MoveKeeps(idle, Listening, correlation);
  }

  /**
   * The strict replay accepts the stream of a session exactly when no orphan step occurs, and then
   * it ends in the machine's own state. Without a failing response it is always accepted.
   */
  lemma ReplayExact(conversationId: string, at: nat -> nat, correlation: string, cs: seq<Choice>)
    requires NonDecreasing(at) && conversationId != "" && correlation != ""
    requires Feasible(Initial(conversationId, at, correlation), cs)
    ensures var w0 := Initial(conversationId, at, correlation);
      var w := Run(w0, cs);
      && (Timeline.Run(w.m.log).Some? <==> NeverOrphans(w0, cs))
      && (Timeline.Run(w.m.log).Some? ==>
            Timeline.StateOf(Timeline.Run(w.m.log).value, w.m.conversationId) == w.m.state)
      && (NeverFails(w0, cs) ==> Timeline.Run(w.m.log).Some?)
  {
    hide Run, Feasible, NeverOrphans, NeverFails, Timeline.Run, Initial, Inv;
    var w0 := Initial(conversationId, at, correlation);
    InitialInv(conversationId, at, correlation);
    InitialAudits(conversationId, at, correlation);
    RunAudits(w0, cs);
    if NeverFails(w0, cs) { FailureNeeded(w0, cs); }
  }

  // ----- the orphan happens -----

  /** The shortest run that the replay refuses: speech fails while its chunk waits for the sink. */
  function OrphanRun(correlation: string, chunk: Chunk): seq<Choice> {
    [BeginResponse(correlation, chunk.speech.responseId), Launch(NoCoordinator), ReasonerYields(1, false),
     SynthYields(chunk), SynthRaises, StreamCloses(false), PlaybackStarts(0)]
  }

  /** The live response before its first audio, nothing cancelled and nothing announced. */
  ghost predicate Quiet(w: World, id: string) {
    && Inv(w) && Auditable(w) && DigestOf(w.m).accepted && DigestOf(w.m).candidates == {}
    && w.response.id == id && w.acknowledged == {} && w.cancelCorrelation.None?
  }

  /** No step of this run interrupts or acknowledges, so no candidate can appear. */
  lemma StaysQuiet(w: World, c: Choice, id: string)
    requires Quiet(w, id) && Enabled(w, c)
    requires c.SynthYields? || TaskChoice(w, c)
    ensures Quiet(Step(w, c), id)
  {
    hide Inv, Auditable, DigestOf, Step;
    StepKeeps(w, c);
    StepAudits(w, c);
    if c.SynthYields? {
      assert w.Gates(Step(w, c), c.chunk) && w.response.correlation != "" && Consistent(w.m) by { QuietGates(w, c); }
    } else {
      TaskLeads(w, c);
      assert w.response.correlation != "" && Consistent(w.m) by { QuietNames(w); }
    }
  }

  lemma QuietNames(w: World)
    requires Auditable(w)
    ensures w.response.correlation != "" && Consistent(w.m)
  {
    hide Consistent;
  }

  lemma QuietGates(w: World, c: Choice)
    requires Auditable(w) && Enabled(w, c) && c.SynthYields?
    ensures w.Gates(Step(w, c), c.chunk) && w.response.correlation != "" && Consistent(w.m)
  {
    hide World.Gates, World.ChunkArrives, Consistent;
  }

  /** A fresh session with a response that is about to receive its first chunk. */
  ghost predicate Fresh(w: World, id: string) {
    && Quiet(w, id) && !w.cancelSet && w.playbacks == [] && !w.response.failed
    && w.seenChunks == {} && w.seenSequences == {} && w.cancelled == {} && w.owner.None? && w.provider.None?
  }

  lemma FirstChunk(w: World, chunk: Chunk)
    requires Fresh(w, chunk.speech.responseId) && w.control.InSynth? && chunk.speech.samples >= 1
    ensures var w' := w.ChunkArrives(chunk);
      && w'.playbacks == [Playback(chunk.speech.chunkId, chunk.speech.samples, 0, 0, Pending)]
      && w'.control.InSynth? && !w'.response.failed && !w'.response.firstAudio
  {
    hide DigestOf, Consistent, Auditable, World.TakeOwnership, World.PinProvider, World.NoteReceived, World.Enlist,
         World.Schedule, Backed, Timely, World.Gates, World.Proceeds, World.Leads, Register, Queue;
    ClaimShape(w, chunk.provider);
    var w2 := w.TakeOwnership().PinProvider(chunk.provider);
    Later(w.ledger, w.m.clock.Now(), w2.m.clock.Now());
    EnlistShape(w2, chunk);
    ScheduleShape(w2.NoteReceived(chunk).Enlist(chunk.speech), chunk);
  }

  lemma RunCons(w: World, c: Choice, cs: seq<Choice>)
    requires Enabled(w, c) && Feasible(Step(w, c), cs)
    ensures Feasible(w, [c] + cs) && Run(w, [c] + cs) == Run(Step(w, c), cs)
  {
    hide Step, Enabled;
    assert ([c] + cs)[1..] == cs;
  }

  lemma BeginShape(w: World, correlation: string, id: string)
    requires w.control.Done? && w.m.state.Listening?
    ensures var w' := w.Begin(correlation, id);
      && w'.control.Created? && w'.m.state.Thinking? && w'.playbacks == [] && !w'.cancelSet
      && w'.response.id == id && w'.response.correlation == correlation && !w'.response.failed
      && w'.cancelCorrelation.None?
      && w' == w.(m := w'.m, control := w'.control, response := w'.response, cancelSet := false,
                  audioStopped := false, cancelCorrelation := None, usedIds := w'.usedIds, playbacks := [])
  {
    hide Follows, Carries, Announces, DigestOf, Consistent;
  }

  /** The first two steps of a created response leave everything but its own variables alone. */
  lemma ReasonShape(w: World)
    requires !w.cancelSet && w.m.Current(w.response.token) && w.playbacks == []
    ensures var w' := w.Generate();
      && w'.control.InReasoner?
      && w' == w.(m := w'.m, control := w'.control, response := w'.response)
      && w'.response.id == w.response.id && w'.response.failed == w.response.failed
    ensures var w' := w.TextArrives(1, false);
      && w'.control.InSynth?
      && w' == w.(m := w'.m, control := w'.control, response := w'.response)
      && w'.response.id == w.response.id && w'.response.failed == w.response.failed
  {
    hide Follows, Carries, Announces, DigestOf, Consistent, World.Leads, World.SameIdentity;
  }

  lemma Begins(w: World, correlation: string, id: string)
    requires Inv(w) && Auditable(w) && DigestOf(w.m).accepted && DigestOf(w.m).candidates == {}
    requires w.control.Done? && w.m.state.Listening? && id !in w.usedIds && correlation != ""
    requires w.acknowledged == {} && w.seenChunks == {} && w.seenSequences == {} && w.cancelled == {}
    requires w.owner.None? && w.provider.None?
    ensures Fresh(w.Begin(correlation, id), id) && w.Begin(correlation, id).control.Created?
  {
    hide DigestOf, Inv, Consistent, World.Begin;
    StepKeeps(w, BeginResponse(correlation, id));
    StepAudits(w, BeginResponse(correlation, id));
    BeginShape(w, correlation, id);
  }

  lemma LaunchesAndReads(w: World, c: Choice, id: string)
    requires Fresh(w, id)
    requires (w.control.Created? && c == Launch(NoCoordinator)) || (w.control.InReasoner? && c == ReasonerYields(1, false))
    ensures Enabled(w, c) && Fresh(Step(w, c), id)
    ensures if c.Launch? then Step(w, c).control.InReasoner? else Step(w, c).control.InSynth?
  {
    hide DigestOf, Auditable, World.Generate, World.TextArrives, Backed, Timely, UnfinishedCount;
    assert w.m.Current(w.response.token);
    ReasonShape(w);
    StaysQuiet(w, c, id);
  }

  /** With one chunk waiting for the sink, the response raises and recovers. */
  lemma SpeechFails(w: World, id: string)
    requires Quiet(w, id) && w.control.InSynth? && !w.response.firstAudio && !w.response.failed
    requires |w.playbacks| == 1 && w.playbacks[0].phase.Pending?
    ensures var w1 := w.StreamBroke();
      && Enabled(w, SynthRaises) && Step(w, SynthRaises) == w1 && Enabled(w1, StreamCloses(false))
      && Step(w1, StreamCloses(false)) == w1.Fail()
      && Quiet(w1.Fail(), id) && w1.Fail().playbacks == w.playbacks && w1.Fail().response.failed
  {
    hide DigestOf, Auditable, Inv, World.Fail, World.Recover, World.Leads, World.SameIdentity;
    var w1 := w.StreamBroke();
    StaysQuiet(w, SynthRaises, id);
    StaysQuiet(w1, StreamCloses(false), id);
    FailShape(w1);
  }

  lemma FailShape(w: World)
    requires Inv(w) && w.control.Closing? && w.playbacks != []
    ensures w.Fail().playbacks == w.playbacks && w.Fail().response.failed
  {
    hide DigestOf, World.Recover, World.Leads, World.SameIdentity, Backed, Timely, UnfinishedCount, Unconfirm, CancelFrom;
    RecoverShape(w);
  }

  /** The waiting sink then reports a cancellation that nobody announced. */
  lemma OrphanRefused(w: World, id: string)
    requires Quiet(w, id) && w.response.failed && |w.playbacks| == 1 && w.playbacks[0].phase.Pending?
    ensures Enabled(w, PlaybackStarts(0))
    ensures Timeline.Run(Step(w, PlaybackStarts(0)).m.log).None?
  {
    hide DigestOf, Auditable, Inv, Step;
    StepAudits(w, PlaybackStarts(0));
    RefusedLog(Step(w, PlaybackStarts(0)).m);
  }

  lemma RefusedLog(m: Machine)
    ensures Timeline.Run(m.log).Some? <==> DigestOf(m).accepted
  {
  }

  lemma ReceivesFirst(w: World, chunk: Chunk)
    requires Fresh(w, chunk.speech.responseId) && w.control.InSynth? && chunk.speech.samples >= 1
    ensures var w' := Step(w, SynthYields(chunk));
      && Enabled(w, SynthYields(chunk)) && Quiet(w', chunk.speech.responseId)
      && |w'.playbacks| == 1 && w'.playbacks[0].phase.Pending?
      && w'.control.InSynth? && !w'.response.failed && !w'.response.firstAudio
  {
    hide Quiet, World.ChunkArrives;
    FirstChunk(w, chunk);
    StaysQuiet(w, SynthYields(chunk), chunk.speech.responseId);
  }

  /** The session between its first segment and the refusal. */
  lemma SpokenOrphan(w: World, chunk: Chunk)
    requires Fresh(w, chunk.speech.responseId) && w.control.InSynth? && chunk.speech.samples >= 1
    ensures var cs := [SynthYields(chunk), SynthRaises, StreamCloses(false), PlaybackStarts(0)];
      Feasible(w, cs) && Timeline.Run(Run(w, cs).m.log).None?
  {
    hide Fresh, Quiet, Step, Enabled, Timeline.Run, World.StreamBroke, World.Fail;
    ReceivesFirst(w, chunk);
    var w1 := Step(w, SynthYields(chunk));
    SpeechFails(w1, chunk.speech.responseId);
    var w3 := w1.StreamBroke().Fail();
    OrphanRefused(w3, chunk.speech.responseId);
    RunCons(w3, PlaybackStarts(0), []);
    RunCons(w1.StreamBroke(), StreamCloses(false), [PlaybackStarts(0)]);
    RunCons(w1, SynthRaises, [StreamCloses(false)] + [PlaybackStarts(0)]);
    RunCons(w, SynthYields(chunk), [SynthRaises] + ([StreamCloses(false)] + [PlaybackStarts(0)]));
    assert [SynthYields(chunk), SynthRaises, StreamCloses(false), PlaybackStarts(0)]
        == [SynthYields(chunk)] + ([SynthRaises] + ([StreamCloses(false)] + [PlaybackStarts(0)]));
    assert [PlaybackStarts(0)] + [] == [PlaybackStarts(0)];
  }

  /**
   * Strict replay is refused on some run: speech fails while its only chunk still waits for the
   * sink, and the sink then reports a cancellation that nobody announced.
   */
  lemma OrphanHappens(conversationId: string, at: nat -> nat, correlation: string, chunk: Chunk)
    requires NonDecreasing(at) && conversationId != "" && correlation != ""
    requires chunk.speech.samples >= 1 && chunk.speech.responseId != ""
    ensures var w := Initial(conversationId, at, correlation);
      var cs := OrphanRun(correlation, chunk);
      Feasible(w, cs) && Timeline.Run(Run(w, cs).m.log).None?
  {
    hide DigestOf, Auditable, Inv, Fresh, World.Begin, Feasible, Run, Timeline.Run;
    var w0 := Initial(conversationId, at, correlation);
    InitialInv(conversationId, at, correlation);
    InitialAudits(conversationId, at, correlation);
    Begins(w0, correlation, chunk.speech.responseId);
    ChainOrphan(w0, correlation, chunk);
  }

  lemma ChainOrphan(w: World, correlation: string, chunk: Chunk)
    requires Enabled(w, BeginResponse(correlation, chunk.speech.responseId))
    requires Fresh(w.Begin(correlation, chunk.speech.responseId), chunk.speech.responseId)
    requires w.Begin(correlation, chunk.speech.responseId).control.Created? && chunk.speech.samples >= 1
    ensures var cs := OrphanRun(correlation, chunk);
      Feasible(w, cs) && Timeline.Run(Run(w, cs).m.log).None?
  {
    hide Fresh, World.Begin, World.Generate, World.TextArrives, World.ChunkArrives, World.StreamBroke, Timeline.Run;
    var id := chunk.speech.responseId;
    var w1 := w.Begin(correlation, id);
    LaunchesAndReads(w1, Launch(NoCoordinator), id);
    var w2 := w1.Generate();
    LaunchesAndReads(w2, ReasonerYields(1, false), id);
    var w3 := w2.TextArrives(1, false);
    SpokenOrphan(w3, chunk);
    var rest := [SynthYields(chunk), SynthRaises, StreamCloses(false), PlaybackStarts(0)];
    RunCons(w2, ReasonerYields(1, false), rest);
    RunCons(w1, Launch(NoCoordinator), [ReasonerYields(1, false)] + rest);
    RunCons(w, BeginResponse(correlation, id), [Launch(NoCoordinator)] + ([ReasonerYields(1, false)] + rest));
    assert OrphanRun(correlation, chunk)
        == [BeginResponse(correlation, id)] + ([Launch(NoCoordinator)] + ([ReasonerYields(1, false)] + rest));
  }
}
