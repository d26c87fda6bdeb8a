/** The voice session as an object that updates its fields, its state machine and its ledger in place. */
module Session {
  import opened Domain
  import opened StateMachine
  import opened Ledger
  import opened LedgerTruth
  import opened Protocol

  class RealtimeVoiceSession {
    const machine: ConversationStateMachine
    const ledger: PlayedAudioLedger
    var control: Control
    var response: Response
    var cancelEvent: bool
    var audioStopped: bool
    var cancelCorrelation: Option<string>
    var playbackOwner: Option<string>
    var providerPin: Option<string>
    var seenChunkIds: set<string>
    var seenSequences: set<(string, nat)>
    var cancelledResponseIds: set<string>
    var acknowledgedResponseIds: set<string>
    var responseIds: set<string>
    var playbacks: seq<Playback>
    var sink: map<string, nat>
    ghost var fault: bool
    ghost var strayed: bool

    ghost function View(): World
      reads this, machine, ledger
    {
      World(machine.View(), ledger.View(), control, response, cancelEvent, audioStopped, cancelCorrelation,
            playbackOwner, providerPin, seenChunkIds, seenSequences, cancelledResponseIds,
            acknowledgedResponseIds, responseIds, playbacks, sink, fault, strayed)
    }

    ghost predicate Valid()
      reads this, machine, ledger
    {
      Listed(ledger.View())
    }

    /** Starts a session: its first event leads from idle to listening. */
    constructor (conversationId: string, at: nat -> nat, correlation: string)
      ensures Valid() && fresh(machine) && fresh(ledger)
      ensures View() == Initial(conversationId, at, correlation)
    {
      machine := new ConversationStateMachine(conversationId, at);
      ledger := new PlayedAudioLedger();
      var token := OperationToken(conversationId, 0);
      control, response := Done, Response("", token, token, correlation, true, 0, 0, false, 0, 0, 0, false);
      cancelEvent, audioStopped, cancelCorrelation := false, true, None;
      playbackOwner, providerPin, seenChunkIds, seenSequences := None, None, {}, {};
      cancelledResponseIds, acknowledgedResponseIds, responseIds := {}, {}, {""};
      playbacks, sink, fault, strayed := [], map[], false, false;
      new;
      Transition(Listening, correlation);
    }

    // ----- the machine, its clock and its stream -----

    method Emit(kind: EventType, correlation: string, payload: Payload)
      modifies machine
      ensures View() == old(View()).Say(kind, correlation, payload)
    {
      machine.Emit(kind, correlation, payload);
    }

    method Transition(target: ConversationState, correlation: string)
      modifies this, machine
      ensures View() == old(View()).Go(target, correlation)
    {
      var moved := machine.Transition(target, correlation);
      if !moved { fault := true; }
    }

    method InvalidateOperations(correlation: string)
      modifies machine
      ensures View() == old(View()).Invalidate(correlation)
    {
      machine.InvalidateOperations(correlation);
    }

    method Now() returns (ns: nat)
      modifies machine
      ensures ns == old(View()).m.clock.Now() && View() == old(View()).Tick()
    {
      ns := machine.Now();
    }

    method AcceptResult() returns (current: bool)
      modifies machine
      ensures current == old(View()).m.Current(old(View()).response.token)
      ensures View() == old(View()).Accept()
    {
      current := machine.AcceptResult(response.token, response.correlation);
    }

    /** The question asked before any result of the response is used. */
    method CancelledOrStale() returns (dropped: bool)
      modifies machine
      ensures dropped == old(View()).Dropped() && View() == old(View()).AskDropped()
    {
      if cancelEvent { return true; }
      var current := AcceptResult();
      dropped := !current;
    }

    // ----- callers -----

    method InterruptSpeech(correlation: string)
      modifies this, machine
      ensures View() == old(View()).InterruptSpeech(correlation)
    {
      hide World.Go, World.Say;
      Transition(PossibleInterruption, correlation);
      Emit(InterruptionCandidate, correlation, NoDetails);
      Transition(Interrupted, correlation);
    }

    method EnterInterrupted(correlation: string)
      modifies this, machine
      ensures View() == old(View()).EnterInterrupted(correlation)
    {
      hide World.Go, World.InterruptSpeech;
      if machine.state.Speaking? {
        InterruptSpeech(correlation);
      } else if machine.state in {PossibleInterruption, Overlap, Thinking} {
        Transition(Interrupted, correlation);
      }
    }

    method SignalCancel(correlation: string)
      modifies this, machine
      ensures View() == old(View()).SignalCancel(correlation)
    {
      hide World.Invalidate, World.Say;
      InvalidateOperations(correlation);
      Emit(InterruptionConfirmed, correlation, NoDetails);
      cancelledResponseIds := cancelledResponseIds + {response.id};
      Emit(AudioCancelSignal, correlation, ResponseDetails(response.id));
      cancelEvent := true;
    }

    method Interrupt(correlation: string)
      modifies this, machine
      ensures View() == old(View()).Interrupt(correlation)
    {
      hide World.EnterInterrupted, World.SignalCancel;
      if control.Done? || cancelEvent { return; }
      cancelCorrelation := Some(correlation);
      EnterInterrupted(correlation);
      SignalCancel(correlation);
    }

    /** A complete user turn; a response that is still thinking gives way. */
    method ConfirmTurn(correlation: string)
      modifies this, machine
      ensures View() == old(View()).Confirm(correlation)
    {
      hide World.Interrupt, World.Say;
      var takeOver := !control.Done? && machine.state.Thinking?;
      Emit(TurnConfirmed, correlation, NoDetails);
      if takeOver { Interrupt(correlation); }
    }

    method BeginResponse(correlation: string, responseId: string)
      modifies this, machine
      ensures View() == old(View()).Begin(correlation, responseId)
    {
      hide World.Go;
      if !control.Done? || !machine.state.Listening? { return; }
      var token := machine.IssueOperation();
      Transition(Thinking, correlation);
      response := Response(responseId, token, token, correlation, true, 0, 0, false, 0, 0, 0, false);
      cancelEvent, audioStopped, cancelCorrelation := false, false, None;
      responseIds := responseIds + {responseId};
      playbacks := [];
      control := Created;
    }

    method BackgroundOverlap(correlation: string, acousticEpisode: bool)
      modifies this, machine
      ensures View() == old(View()).OverlapStep(correlation, acousticEpisode)
    {
      hide World.Go;
      ghost var before := machine.state;
      var agentSpeaking := machine.state in {Speaking, PossibleInterruption, Overlap} || acousticEpisode;
      if agentSpeaking && !machine.state.Overlap? && Overlap in AllowedTransitions(machine.state) {
        Transition(Overlap, correlation);
        Transition(Speaking, correlation);
        strayed := strayed || before.Listening? || before.Interrupted?;
      }
    }

    // ----- the end of a response -----

    method CancelRest(ns: nat)
      requires Valid()
      modifies this, ledger
      ensures Valid() && View() == old(View()).CancelRest(ns)
    {
      CancelWindsDown(ledger.View(), response.id, ns);
      var ok := ledger.CancelUnplayed(response.id, ns);
      if !ok { fault := true; }
    }

    method ReleasePlaybackOwner()
      modifies this, machine
      ensures View() == old(View()).ReleaseOwner()
    {
      hide World.Say;
      if playbackOwner != Some(response.id) { return; }
      if providerPin.Some? { Emit(OtherEvent, response.correlation, ResponseDetails(response.id)); }
      Emit(PlaybackOwnerDestroyed, response.correlation, ResponseDetails(response.id));
      playbackOwner, providerPin := None, None;
    }

    method EndState()
      requires Valid()
      modifies this, machine, ledger
      ensures Valid() && View() == old(View()).EndState()
    {
      hide World.Say, World.Go, World.Tick, World.CancelRest, Listed;
      var c := response.correlation;
      if cancelEvent {
        var state := machine.state;
        var ns := Now();
        CancelRest(ns);
        if state in {Interrupted, Thinking} { Transition(Listening, c); }
      } else if machine.state.Thinking? {
        var ns := Now();
        CancelRest(ns);
        Emit(RecoveryStarted, c, ResponseDetails(response.id));
        Transition(Listening, c);
        Emit(RecoveryCompleted, c, ResponseDetails(response.id));
      }
    }

    method Vacate()
      requires Valid()
      modifies this, machine
      ensures Valid() && View() == old(View()).Vacate()
    {
      hide World.ReleaseOwner, World.Leads, Listed;
      var ok := ledger.AssertInvariants();
      if !ok { fault := true; }
      ReleasePlaybackOwner();
      audioStopped, control := true, Done;
    }

    /** The last statements of a response task. */
    method Conclude()
      requires Valid()
      modifies this, machine, ledger
      ensures Valid() && View() == old(View()).Conclude()
    {
      hide World.EndState, World.Vacate, Listed;
      EndState();
      Vacate();
    }

    /** Waits for the playback tasks, if there are any. */
    method Finally()
      requires Valid()
      modifies this, machine, ledger
      ensures Valid() && View() == old(View()).Finally()
    {
      hide World.Conclude, Listed;
      if playbacks == [] { Conclude(); } else { control := Finishing; }
    }

    method BeginRecovery()
      modifies this, machine
      ensures View() == old(View()).BeginRecovery()
    {
      hide World.Say, World.Go, World.Invalidate;
      var c := response.correlation;
      cancelEvent, response := true, response.(failed := true);
      InvalidateOperations(c);
      Emit(RecoveryStarted, c, ResponseDetails(response.id));
      if machine.state in {Thinking, Speaking} { Transition(Recovering, c); }
    }

    method EndRecovery(unconfirmed: bool)
      modifies this, machine
      ensures View() == old(View()).EndRecovery(unconfirmed)
    {
      hide World.Say, World.Go;
      var c := response.correlation;
      if unconfirmed { Emit(AudioStopUnconfirmed, c, ResponseDetails(response.id)); }
      if machine.state.Recovering? { Transition(if unconfirmed then Handoff else Listening, c); }
      Emit(RecoveryCompleted, c, ResponseDetails(response.id));
    }

    /** The handler of whatever the response raised. */
    method Fail()
      requires Valid()
      modifies this, machine, ledger
      ensures Valid() && View() == old(View()).Fail()
    {
      hide World.Tick, World.BeginRecovery, World.EndRecovery, World.CancelRest, World.Finally, Unconfirm, Listed;
      var ns := Now();
      BeginRecovery();
      assert Listed(Unconfirm(ledger.View(), response.id).0) by { UnconfirmListed(ledger.View(), response.id); }
      var unconfirmed := ledger.MarkPlaybackUnconfirmed(response.id);
      CancelRest(ns);
      EndRecovery(unconfirmed);
      Finally();
    }

    method Complete(raises: bool)
      requires Valid()
      modifies this, machine, ledger
      ensures Valid() && View() == old(View()).Complete(raises)
    {
      hide World.Say, World.Go, World.Finally, World.Fail, Listed;
      var c := response.correlation;
      if cancelEvent {
        Finally();
      } else if raises {
        Fail();
      } else {
        Emit(AgentGenerationCompleted, c, ResponseDetails(response.id));
        Emit(AgentAudioCompleted, c, ResponseDetails(response.id));
        if machine.state.Speaking? { Transition(Listening, c); }
        Finally();
      }
    }

    method Gather(raises: bool)
      requires Valid()
      modifies this, machine, ledger
      ensures Valid() && View() == old(View()).Gather(raises)
    {
      hide World.Complete, Listed;
      if playbacks == [] { Complete(raises); } else { control := Gathering; }
    }

    // ----- coordinator and reasoner -----

    method Generate()
      modifies this, machine
      ensures View() == old(View()).Generate()
    {
      hide World.Say;
      Emit(AgentGenerationStarted, response.correlation, ResponseDetails(response.id));
      control, response := InReasoner, response.(reasonerRuns := response.reasonerRuns + 1);
    }

    method AfterCoordinator()
      requires Valid()
      modifies this, machine, ledger
      ensures Valid() && View() == old(View()).AfterCoordinator()
    {
      hide World.AskDropped, World.Finally, World.Generate, Listed;
      var dropped := CancelledOrStale();
      if dropped { Finally(); } else { AskedCurrent(old(View())); Generate(); }
    }

    method LaunchWith(setup: Setup)
      requires Valid()
      modifies this, machine, ledger
      ensures Valid() && View() == old(View()).LaunchWith(setup)
    {
      hide World.Say, World.Go, World.Fail, World.Generate, World.AfterCoordinator, Listed;
      match setup
      case NoCoordinator => Generate();
      case NoPlan => AfterCoordinator();
      case CoordinatorRaises => Fail();
      case ToolCall =>
        if !machine.state.Thinking? { Fail(); } else { CallTool(); }
    }

    /** The one tool call: its operation is issued before the session waits for it. */
    method CallTool()
      requires machine.state.Thinking?
      modifies this, machine
      ensures View() == old(View()).LaunchWith(ToolCall)
    {
      hide World.Say, World.Go;
      var token := machine.IssueOperation();
      Transition(ToolWait, response.correlation);
      Emit(OtherEvent, response.correlation, NoDetails);
      control, response := InTool, response.(toolRuns := response.toolRuns + 1, toolToken := token);
    }

    /** The tool executor settles its one attempt; anything but a current result goes through recovery. */
    method ToolSettled(ok: bool)
      modifies this, machine
      ensures View() == old(View()).ToolSettled(ok)
    {
      hide World.Say, World.Go, World.Invalidate;
      var c := response.correlation;
      if ok && response.toolToken == OperationToken(machine.conversationId, machine.operationEpoch) {
        Emit(OtherEvent, c, NoDetails);
        Transition(Thinking, c);
      } else {
        if ok { Emit(StaleResultRejected, c, NoDetails); }
        Emit(OtherEvent, c, NoDetails);
        InvalidateOperations(c);
        Transition(Recovering, c);
        Emit(RecoveryStarted, c, NoDetails);
        Transition(Thinking, c);
        Emit(RecoveryCompleted, c, NoDetails);
      }
    }

    method ToolReturned(ok: bool, raises: bool)
      requires Valid()
      modifies this, machine, ledger
      ensures Valid() && View() == old(View()).ToolReturned(ok, raises)
    {
      hide World.ToolSettled, World.Accept, World.Fail, World.AfterCoordinator, Listed;
      ToolSettled(ok);
      var _ := AcceptResult();
      if raises { Fail(); } else { AfterCoordinator(); }
    }

    method NextSegment()
      requires Valid()
      modifies this, machine, ledger
      ensures Valid() && View() == old(View()).NextSegment()
    {
      hide World.Say, World.Gather, World.Fail, Listed;
      if response.segmentsLeft == 0 {
        if cancelEvent { Gather(false); } else { control := InReasoner; }
      } else if AnyBroken(playbacks) {
        Fail();
      } else if cancelEvent {
        Gather(false);
      } else {
        Emit(OtherEvent, response.correlation, ResponseDetails(response.id));
        control := InSynth;
        response := response.(segmentsLeft := response.segmentsLeft - 1, attempt := 0, emitted := false);
      }
    }

    method TextArrives(segments: nat, raises: bool)
      requires Valid()
      modifies this, machine, ledger
      ensures Valid() && View() == old(View()).TextArrives(segments, raises)
    {
      hide World.Say, World.Gather, World.Fail, World.NextSegment, World.AskDropped, Listed;
      if AnyBroken(playbacks) { Fail(); return; }
      var dropped := CancelledOrStale();
      if dropped { Gather(false); return; }
      AskedCurrent(old(View()));
      Emit(OtherEvent, response.correlation, ResponseDetails(response.id));
      if raises { Fail(); return; }
      response := response.(segmentsLeft := segments);
      NextSegment();
    }

    // ----- speech -----

    method TakeOwnership()
      modifies this, machine
      ensures View() == old(View()).TakeOwnership()
    {
      hide World.Say;
      if playbackOwner.None? {
        Emit(PlaybackOwnerCreated, response.correlation, ResponseDetails(response.id));
        playbackOwner := Some(response.id);
      }
    }

    /** The first provider of a response is pinned; a chunk of another one ends the stream. */
    method Pass(chunk: Chunk)
      requires Valid()
      modifies this, machine, ledger
      ensures Valid() && View() == old(View()).Pass(chunk)
    {
      hide World.Say, World.Enter, Listed;
      if providerPin.Some? && providerPin.value != chunk.provider {
        control := Closing(Propagating);
      } else {
        if providerPin.None? {
          Emit(OtherEvent, response.correlation, ResponseDetails(response.id));
          providerPin := Some(chunk.provider);
        }
        Enter(chunk);
      }
    }

    /** The gate of every chunk: right response, not cancelled, unseen, single owner, one provider. */
    method AcceptAudioChunk(chunk: Chunk)
      requires Valid()
      modifies this, machine, ledger
      ensures Valid() && View() == old(View()).Admit(chunk)
    {
      hide World.Say, World.TakeOwnership, World.Pass, Listed;
      var c, details := response.correlation, ChunkDetails(response.id, chunk.speech.chunkId);
      var seen := chunk.speech.chunkId in seenChunkIds || (chunk.streamId, chunk.sequence) in seenSequences;
      if chunk.speech.responseId != response.id || response.id in cancelledResponseIds
        || (!seen && playbackOwner.Some? && playbackOwner.value != response.id)
      {
        Emit(StaleChunkRejected, c, details);
        control := InSynth;
      } else if seen {
        Emit(DuplicateChunkRejected, c, details);
        control := InSynth;
      } else {
        TakeOwnership();
        Pass(chunk);
      }
    }

    /** The chunk enters the ledger and is scheduled, unless the response was dropped meanwhile. */
    method Enter(chunk: Chunk)
      requires Valid()
      modifies this, machine, ledger
      ensures Valid() && View() == old(View()).Enter(chunk)
    {
      hide World.NoteReceived, World.Enlist, World.AskDropped, World.Tick, World.CancelRest, World.Schedule, Listed;
      NoteReceived(chunk);
      Enlist(chunk.speech);
      label Enlisted:
      var dropped := CancelledOrStale();
      if dropped {
        var ns := Now();
        CancelRest(ns);
        control := Closing(StreamDone);
      } else {
        AskedCurrent(old@Enlisted(View()));
        Schedule(chunk);
      }
    }

    method NoteReceived(chunk: Chunk)
      modifies this, machine
      ensures View() == old(View()).NoteReceived(chunk)
    {
      hide World.Say;
      Emit(AudioChunkReceived, response.correlation, ChunkDetails(response.id, chunk.speech.chunkId));
      seenChunkIds := seenChunkIds + {chunk.speech.chunkId};
      seenSequences := seenSequences + {(chunk.streamId, chunk.sequence)};
      response := response.(emitted := true);
    }

    method Enlist(speech: Speech)
      requires Valid()
      modifies this, machine, ledger
      ensures Valid() && View() == old(View()).Enlist(speech)
    {
      hide Register, Queue, Listed;
      EnlistListed(ledger.View(), speech);
      var generatedNs := Now();
      var registered := ledger.RegisterGenerated(speech, generatedNs);
      var queuedNs := Now();
      var queued := ledger.MarkQueued(speech.chunkId, queuedNs);
      if !registered || !queued { fault := true; }
    }

    /** The first audio of a response makes the session speak. */
    method FirstAudio()
      modifies this, machine
      ensures View() == old(View()).FirstAudio()
    {
      hide World.Say, World.Go;
      if !response.firstAudio { return; }
      Emit(OtherEvent, response.correlation, ResponseDetails(response.id));
      response := response.(firstAudio := false);
      if machine.state.Thinking? { Transition(Speaking, response.correlation); }
    }

    method Schedule(chunk: Chunk)
      modifies this, machine
      ensures View() == old(View()).Schedule(chunk)
    {
      hide World.Say, World.FirstAudio;
      FirstAudio();
      Emit(AudioChunkScheduled, response.correlation, ChunkDetails(response.id, chunk.speech.chunkId));
      playbacks := playbacks + [Playback(chunk.speech.chunkId, chunk.speech.samples, 0, 0, Pending)];
      sink := sink[chunk.speech.chunkId := 0];
      control := InSynth;
    }

    method ChunkArrives(chunk: Chunk)
      requires Valid()
      modifies this, machine, ledger
      ensures Valid() && View() == old(View()).ChunkArrives(chunk)
    {
      hide World.Say, World.AskDropped, World.Admit, UnfinishedCount, Listed;
      if AnyBroken(playbacks) { control := Closing(Propagating); return; }
      var dropped := CancelledOrStale();
      if dropped {
        Emit(StaleChunkRejected, response.correlation, ChunkDetails(response.id, chunk.speech.chunkId));
        control := Closing(StreamDone);
        return;
      }
      AskedCurrent(old(View()));
      if UnfinishedCount(playbacks) >= 2 { control := InCapacity(chunk); } else { AcceptAudioChunk(chunk); }
    }

    method CapacityFreed(chunk: Chunk)
      requires Valid()
      modifies this, machine, ledger
      ensures Valid() && View() == old(View()).CapacityFreed(chunk)
    {
      hide World.Admit, Listed;
      if AnyBroken(playbacks) { control := Closing(Propagating); } else { AcceptAudioChunk(chunk); }
    }

    /** The one further attempt to synthesize a segment. */
    method Retry()
      modifies this, machine
      ensures View() == old(View()).Retry() && ledger.View() == old(ledger.View())
    {
      hide World.Say;
      Emit(TtsSpeechRetry, response.correlation, ResponseDetails(response.id));
      control, response := InSynth, response.(attempt := 1, emitted := false, retries := response.retries + 1);
    }

    method StreamClosed(cause: Cause, raises: bool)
      requires Valid()
      modifies this, machine, ledger
      ensures Valid() && View() == old(View()).StreamClosed(cause, raises)
    {
      hide World.Retry, World.Fail, World.Gather, World.NextSegment, Listed;
      if raises || cause.Propagating? {
        Fail();
      } else if cause.StreamDone? && (response.emitted || cancelEvent) {
        if cancelEvent { Gather(false); } else { NextSegment(); }
      } else if response.firstAudio && !cancelEvent && response.attempt == 0 {
        Retry();
      } else {
        Fail();
      }
    }

    // ----- playback tasks -----

    method RecordCancelled(chunkId: string)
      modifies this, machine
      ensures View() == old(View()).Acknowledge(chunkId) && playbacks == old(playbacks)
    {
      hide World.Say;
      var c := if cancelCorrelation.Some? then cancelCorrelation.value else response.correlation;
      if response.id in acknowledgedResponseIds { return; }
      acknowledgedResponseIds := acknowledgedResponseIds + {response.id};
      Emit(AgentAudioCancelled, c, ChunkDetails(response.id, chunkId));
      Emit(AudibleStopAck, c, ChunkDetails(response.id, chunkId));
    }

    /** The sink returned: its receipt settles the ledger, and a cancelled one cancels what is left. */
    method SinkReturns(index: nat)
      requires Valid() && index < |playbacks|
      modifies this, machine, ledger
      ensures Valid() && |playbacks| == |old(playbacks)| && View() == old(View()).Stop(index)
    {
      hide World.Say, World.CancelRest, World.Acknowledge, Finish, Listed;
      var p := playbacks[index];
      var stoppedNs := Now();
      var stopped := cancelEvent && p.played < p.total;
      var receipt := Receipt(p.chunkId, p.total, p.played, p.startedNs, stoppedNs, stopped);
      FinishListed(ledger.View(), receipt);
      var ok := ledger.RecordPlayback(receipt);
      if !ok {
        playbacks := playbacks[index := p.(phase := Broken)];
        return;
      }
      playbacks := playbacks[index := p.(phase := Finished)];
      Emit(AudioChunkPlayed, response.correlation, ChunkDetails(response.id, p.chunkId));
      if stopped {
        CancelRest(stoppedNs);
        RecordCancelled(p.chunkId);
      }
    }

    method SinkLoops(index: nat)
      requires Valid() && index < |playbacks|
      modifies this, machine, ledger
      ensures Valid() && |playbacks| == |old(playbacks)| && View() == old(View()).LoopTest(index)
    {
      hide World.Stop, Listed;
      var p := playbacks[index];
      if p.played < p.total && !cancelEvent {
        playbacks := playbacks[index := p.(phase := Sleeping)];
      } else {
        SinkReturns(index);
      }
    }

    method PlaybackStarted(index: nat)
      requires Valid() && index < |playbacks|
      modifies this, machine, ledger
      ensures Valid() && |playbacks| == |old(playbacks)| && View() == old(View()).StartPlaying(index)
    {
      hide World.Say, World.LoopTest, StartPlayback, Listed;
      var p := playbacks[index];
      var startedNs := Now();
      StartListed(ledger.View(), p.chunkId, startedNs);
      var ok := ledger.MarkPlaybackStarted(p.chunkId, startedNs);
      if !ok {
        playbacks := playbacks[index := p.(phase := Broken)];
        return;
      }
      playbacks := playbacks[index := p.(startedNs := startedNs, phase := Sleeping)];
      Emit(AgentAudioStarted, response.correlation, ChunkDetails(response.id, p.chunkId));
      SinkLoops(index);
    }

    method SinkAdvances(index: nat, block: nat, observed: bool)
      requires Valid() && index < |playbacks|
      modifies this, machine, ledger
      ensures Valid() && |playbacks| == |old(playbacks)| && View() == old(View()).Advance(index, block, observed)
    {
      hide World.Stop, World.LoopTest, Listed;
      if cancelEvent {
        SinkReturns(index);
        return;
      }
      var p := playbacks[index];
      p := p.(played := p.played + block, phase := if observed then Observing else Sleeping);
      playbacks := playbacks[index := p];
      sink := sink[p.chunkId := p.played];
      if !observed { SinkLoops(index); }
    }

    // ----- one choice, a whole schedule -----

    method Call(c: Choice)
      requires Valid()
      requires c.ConfirmTurn? || c.BeginResponse? || c.InterruptNow? || c.BackgroundOverlap? || c.Telemetry?
      requires Enabled(View(), c)
      modifies this, machine
      ensures Valid() && View() == Step(old(View()), c)
    {
      hide World.Say, World.Confirm, World.Begin, World.Interrupt, World.OverlapStep, Listed;
      match c
      case ConfirmTurn(correlation) => ConfirmTurn(correlation);
      case BeginResponse(correlation, id) => BeginResponse(correlation, id);
      case InterruptNow(correlation) => Interrupt(correlation);
      case BackgroundOverlap(correlation, acoustic) => BackgroundOverlap(correlation, acoustic);
      case Telemetry(correlation) => Emit(OtherEvent, correlation, NoDetails);
    }

    method Play(c: Choice)
      requires Valid()
      requires c.PlaybackStarts? || c.PlaybackAdvances? || c.ObserverReturns? || c.PlaybackRaises?
      requires Enabled(View(), c)
      modifies this, machine, ledger
      ensures Valid() && View() == Step(old(View()), c)
    {
      hide World.StartPlaying, World.Advance, World.LoopTest, Listed;
      match c
      case PlaybackStarts(i) => PlaybackStarted(i);
      case PlaybackAdvances(i, block, observed) => SinkAdvances(i, block, observed);
      case ObserverReturns(i) => SinkLoops(i);
      case PlaybackRaises(i) => playbacks := playbacks[i := playbacks[i].(phase := Broken)];
    }

    method Synthesize(c: Choice)
      requires Valid()
      requires c.SynthYields? || c.SynthEnds? || c.SynthRaises? || c.CapacityFrees? || c.StreamCloses?
      requires Enabled(View(), c)
      modifies this, machine, ledger
      ensures Valid() && View() == Step(old(View()), c)
    {
      hide World.ChunkArrives, World.StreamClosed, World.CapacityFreed, UnfinishedCount, Listed;
      match c
      case SynthYields(chunk) => ChunkArrives(chunk);
      case SynthEnds => control := Closing(StreamDone);
      case SynthRaises => control := Closing(if response.firstAudio && !cancelEvent then SpeechError else Propagating);
      case CapacityFrees => CapacityFreed(control.chunk);
      case StreamCloses(raises) => StreamClosed(control.cause, raises);
    }

    /** One choice of whoever acts next. */
    method Take(c: Choice)
      requires Valid() && Enabled(View(), c)
      modifies this, machine, ledger
      ensures Valid() && View() == Step(old(View()), c)
    {
      hide World.LaunchWith, World.ToolReturned, World.TextArrives, World.Gather, World.Fail, World.Complete,
           World.Conclude, UnfinishedCount, Listed;
      match c
      case ConfirmTurn(_) => Call(c);
      case BeginResponse(_, _) => Call(c);
      case InterruptNow(_) => Call(c);
      case BackgroundOverlap(_, _) => Call(c);
      case Telemetry(_) => Call(c);
      case Launch(setup) => LaunchWith(setup);
      case ToolReturns(ok, raises) => ToolReturned(ok, raises);
      case ReasonerYields(segments, raises) => TextArrives(segments, raises);
      case ReasonerEnds(raises) => Gather(raises);
      case ReasonerRaises => Fail();
      case GatherReturns(raises) => if AnyBroken(playbacks) { Fail(); } else { Complete(raises); }
      case PlaybacksSettle => Conclude();
      case PlaybackStarts(_) => Play(c);
      case PlaybackAdvances(_, _, _) => Play(c);
      case ObserverReturns(_) => Play(c);
      case PlaybackRaises(_) => Play(c);
      case _ => Synthesize(c);
    }

    /** Whatever schedule the callers, providers and sinks produce, the object follows the protocol. */
    method Follow(cs: seq<Choice>)
      requires Valid() && Feasible(View(), cs)
      modifies this, machine, ledger
      ensures Valid() && View() == Run(old(View()), cs)
    {
      hide Step, Enabled, Listed;
      ghost var start := View();
      for i := 0 to |cs|
        invariant Valid() && Feasible(View(), cs[i..]) && Run(View(), cs[i..]) == Run(start, cs)
      {
        assert cs[i..][0] == cs[i] && cs[i..][1..] == cs[i + 1..];
        Take(cs[i]);
      }
    }
  }

  /** A response that is not dropped is asked about without a trace. */
  lemma AskedCurrent(w: World)
    ensures !w.Dropped() ==> w.AskDropped() == w
  {
  }

  lemma UnconfirmListed(b: Book, responseId: string)
    requires Listed(b)
    ensures Listed(Unconfirm(b, responseId).0)
  {
  }

  /** A refused receipt, like a refused start, leaves the book alone. */
  lemma FinishListed(b: Book, r: Receipt)
    requires Listed(b)
    ensures Listed(Finish(b, r).0) && (!Finish(b, r).1 ==> Finish(b, r).0 == b)
  {
  }

  lemma StartListed(b: Book, id: string, ns: nat)
    requires Listed(b)
    ensures Listed(StartPlayback(b, id, ns).0) && (!StartPlayback(b, id, ns).1 ==> StartPlayback(b, id, ns).0 == b)
  {
  }

  lemma EnlistListed(b: Book, speech: Speech)
    requires Listed(b)
    ensures forall g: nat, q: nat :: Listed(Queue(Register(b, speech, g).0, speech.chunkId, q).0)
  {
    hide Listed;
    forall g: nat, q: nat
      ensures Listed(Queue(Register(b, speech, g).0, speech.chunkId, q).0)
    {
      var b1 := Register(b, speech, g).0;
      if speech.chunkId !in b.entries { ListedAppended(b, b1, speech.chunkId); }
      QueueListed(b1, speech.chunkId, q);
    }
  }

  lemma QueueListed(b: Book, id: string, ns: nat)
    requires Listed(b)
    ensures Listed(Queue(b, id, ns).0)
  {
  }
}
