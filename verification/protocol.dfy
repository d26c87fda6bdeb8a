/** The response/playback protocol: one step is everything that runs between two suspension points. */
module Protocol {
  import opened Domain
  import opened StateMachine
  import opened Ledger
  import opened Audit

  /** A chunk as the synthesizer delivers it; `provider` is its provider, model and playback mode. */
  datatype Chunk = Chunk(speech: Speech, streamId: string, sequence: nat, provider: string)

  datatype Phase = Pending | Sleeping | Observing | Finished | Broken

  /** One scheduled playback task and what its sink has consumed. */
  datatype Playback = Playback(chunkId: string, total: nat, played: nat, startedNs: nat, phase: Phase)

  predicate Unfinished(p: Playback) { p.phase.Pending? || p.phase.Sleeping? || p.phase.Observing? }

  function UnfinishedCount(ps: seq<Playback>): nat {
    if ps == [] then 0
    else UnfinishedCount(ps[..|ps| - 1]) + (if Unfinished(ps[|ps| - 1]) then 1 else 0)
  }

  predicate AnyBroken(ps: seq<Playback>) { exists p | p in ps :: p.phase.Broken? }

  /** How a speech stream ended before it is closed. */
  datatype Cause = StreamDone | SpeechError | Propagating

  /** Where the response task is suspended; `Done` when there is none or it has ended. */
  datatype Control =
    | Done
    | Created
    | InTool
    | InReasoner
    | InSynth
    | InCapacity(chunk: Chunk)
    | Closing(cause: Cause)
    | Gathering
    | Finishing

  /** The response task's own variables; the counters are history. */
  datatype Response = Response(
    id: string,
    token: OperationToken,
    toolToken: OperationToken,
    correlation: string,
    firstAudio: bool,
    segmentsLeft: nat,
    attempt: nat,
    emitted: bool,
    toolRuns: nat,
    reasonerRuns: nat,
    retries: nat,
    failed: bool)

  datatype Setup = NoCoordinator | NoPlan | ToolCall | CoordinatorRaises

  /** What happens next: a caller, a provider, the sink or the scheduler acts. */
  datatype Choice =
    | ConfirmTurn(correlation: string)
    | BeginResponse(correlation: string, id: string)
    | InterruptNow(correlation: string)
    | BackgroundOverlap(correlation: string, acousticEpisode: bool)
    | Telemetry(correlation: string)
    | Launch(setup: Setup)
    | ToolReturns(ok: bool, raises: bool)
    | ReasonerYields(segments: nat, raises: bool)
    | ReasonerEnds(raises: bool)
    | ReasonerRaises
    | SynthYields(chunk: Chunk)
    | SynthEnds
    | SynthRaises
    | CapacityFrees
    | StreamCloses(raises: bool)
    | GatherReturns(raises: bool)
    | PlaybacksSettle
    | PlaybackStarts(index: nat)
    | PlaybackAdvances(index: nat, block: nat, observed: bool)
    | ObserverReturns(index: nat)
    | PlaybackRaises(index: nat)

  /** The stream goes on, and what anybody reads off it is unchanged. */
  ghost predicate Follows(m: Machine, m': Machine) {
    Consistent(m) ==> Consistent(m') && DigestOf(m') == DigestOf(m)
  }

  /** The stream goes on; nothing but the list of scheduled chunks may be different. */
  ghost predicate Carries(m: Machine, m': Machine) {
    Consistent(m) ==>
      && Consistent(m')
      && DigestOf(m').accepted == DigestOf(m).accepted
      && DigestOf(m').candidates == DigestOf(m).candidates
  }

  /** The stream goes on and announces at most an interruption under `correlation`. */
  ghost predicate Announces(m: Machine, m': Machine, correlation: string) {
    Consistent(m) ==>
      && Consistent(m')
      && (DigestOf(m') == DigestOf(m)
          || DigestOf(m') == DigestOf(m).(candidates := DigestOf(m).candidates + {correlation}))
  }

  lemma LeadsTransitive(w0: World, w1: World, w2: World)
    ensures w0.Leads(w1) && w1.Leads(w2) ==> w0.Leads(w2)
  {
    hide DigestOf, Consistent, Listed, WoundDown;
    if Listed(w0.ledger) && WoundDown(w0.ledger, w1.ledger) && WoundDown(w1.ledger, w2.ledger) {
      WoundDownTransitive(w0.ledger, w1.ledger, w2.ledger);
    }
    if Listed(w0.ledger) && WoundDown(w0.ledger, w1.ledger) { ListedWoundDown(w0.ledger, w1.ledger); }
  }

  lemma ListedAppended(b: Book, b1: Book, id: string)
    requires Listed(b) && id !in b.entries
    requires b1.order == b.order + [id] && b1.entries.Keys == b.entries.Keys + {id}
    ensures Listed(b1)
  {
    forall c | c in b1.entries ensures c in b1.order {
      if c in b.entries {
        var i :| 0 <= i < |b.order| && b.order[i] == c;
        assert b1.order[i] == c;
      } else {
        assert b1.order[|b.order|] == c;
      }
    }
  }

  lemma EnlistsThenWinds(w0: World, w1: World, w2: World, speech: Speech)
    requires w2.playbacks == w1.playbacks
    ensures w0.Enlists(w1, speech) && w1.Winds(w2) && Listed(w0.ledger) ==> w0.Enlists(w2, speech)
  {
    hide Listed;
    if w0.Enlists(w1, speech) && w1.Winds(w2) && Listed(w0.ledger) {
      ListedAppended(w0.ledger, w1.ledger, speech.chunkId);
      assert WindsDown(w1.ledger.entries[speech.chunkId], w2.ledger.entries[speech.chunkId]);
      forall c | c in w0.ledger.entries ensures WindsDown(w0.ledger.entries[c], w2.ledger.entries[c]) {
        assert WindsDown(w0.ledger.entries[c], w1.ledger.entries[c]);
        assert WindsDown(w1.ledger.entries[c], w2.ledger.entries[c]);
      }
    }
  }

  lemma ListedWoundDown(b: Book, b1: Book)
    requires Listed(b) && WoundDown(b, b1)
    ensures Listed(b1)
  {
  }

  /**
   * Everything the tasks of one session share, plus the response task and its playbacks.
   * `fault` records an error that the response task may never raise by itself: a refused
   * transition, a refused ledger operation or a failed ledger check. `strayed` records that
   * a background overlap fired while the agent was not speaking.
   */
  datatype World = World(
    m: Machine,
    ledger: Book,
    control: Control,
    response: Response,
    cancelSet: bool,
    audioStopped: bool,
    cancelCorrelation: Option<string>,
    owner: Option<string>,
    provider: Option<string>,
    seenChunks: set<string>,
    seenSequences: set<(string, nat)>,
    cancelled: set<string>,
    acknowledged: set<string>,
    usedIds: set<string>,
    playbacks: seq<Playback>,
    sink: map<string, nat>,
    fault: bool,
    strayed: bool)
  {
    /** What the response task never touches: its identity and what only callers and sinks decide. */
    predicate SameIdentity(w: World) {
      && w.response.id == response.id && w.response.correlation == response.correlation
      && w.response.retries == response.retries
      && w.cancelled == cancelled && w.acknowledged == acknowledged && w.usedIds == usedIds
      && w.cancelCorrelation == cancelCorrelation && w.strayed == strayed
    }

    /** Entries were at most wound down, and no sink consumed anything. */
    ghost predicate Winds(w: World) {
      w.sink == sink && (w.ledger == ledger || (Listed(ledger) ==> WoundDown(ledger, w.ledger)))
    }

    /** The response task went on without beginning to speak, and the stream follows. */
    ghost predicate Leads(w: World) {
      && SameIdentity(w)
      && w.playbacks == playbacks
      && w.seenChunks == seenChunks && w.seenSequences == seenSequences
      && Winds(w)
      && (w.m.state.Speaking? ==> m.state.Speaking?)
      && (response.correlation != "" ==> Follows(m, w.m))
    }

    /** A chunk entered the ledger behind all others, and the sink has consumed nothing of it. */
    ghost predicate Enlists(w: World, speech: Speech) {
      && speech.chunkId !in ledger.entries
      && w.ledger.order == ledger.order + [speech.chunkId]
      && w.ledger.entries.Keys == ledger.entries.Keys + {speech.chunkId}
      && w.ledger.entries[speech.chunkId].responseId == speech.responseId
      && w.ledger.entries[speech.chunkId].played == 0
      && (forall c | c in ledger.entries :: WindsDown(ledger.entries[c], w.ledger.entries[c]))
      && (w.sink == sink || w.sink == sink[speech.chunkId := 0])
      && (w.playbacks == playbacks
          || w.playbacks == playbacks + [Playback(speech.chunkId, speech.samples, 0, 0, Pending)])
    }

    /** The response task went on and may have admitted the chunk. */
    ghost predicate Proceeds(w: World, chunk: Chunk) {
      && SameIdentity(w)
      && (Listed(ledger) && chunk.speech.chunkId !in ledger.entries ==>
            (Winds(w) && w.playbacks == playbacks) || Enlists(w, chunk.speech))
      && (response.correlation != "" ==> Carries(m, w.m))
    }

    /** Like `Proceeds`, for an unseen chunk of the live response while that is not cancelled. */
    ghost predicate Gates(w: World, chunk: Chunk) {
      && SameIdentity(w)
      && (Listed(ledger) && ledger.entries.Keys <= seenChunks ==>
            || (Winds(w) && w.playbacks == playbacks)
            || (Enlists(w, chunk.speech) && chunk.speech.responseId == response.id && response.id !in cancelled))
      && (response.correlation != "" ==> Carries(m, w.m))
    }

    /** Kinds that neither move the machine, announce, settle nor schedule. */
    static predicate Plain(kind: EventType) {
      && !kind.StateTransitioned? && !kind.InterruptionCandidate?
      && !kind.AgentAudioCancelled? && !kind.AudioChunkScheduled?
    }

    function Say(kind: EventType, correlation: string, payload: Payload): (w: World)
      ensures w == this.(m := w.m) && w.m.state == m.state
      ensures correlation != "" && !kind.StateTransitioned? && Consistent(m) ==>
                Consistent(w.m) && DigestOf(w.m) == After(DigestOf(m), kind, correlation, payload)
      ensures correlation != "" && Plain(kind) ==> Follows(m, w.m)
      ensures correlation != "" && kind.AudioChunkScheduled? ==> Carries(m, w.m)
    {
      assert correlation != "" && !kind.StateTransitioned? && Consistent(m) ==>
             && Consistent(m.Record(kind, correlation, payload))
             && DigestOf(m.Record(kind, correlation, payload)) == After(DigestOf(m), kind, correlation, payload) by {
        if Consistent(m) && correlation != "" && !kind.StateTransitioned? {
          RecordKeeps(m, kind, correlation, payload);
        }
      }
      assert !DigestOf(m).accepted ==> DigestOf(m).candidates == {};
      this.(m := m.Record(kind, correlation, payload))
    }

    function Go(target: ConversationState, correlation: string): (w: World)
      ensures w == this.(m := w.m, fault := w.fault) && w.m.state in {target, m.state}
      ensures correlation != "" ==> Follows(m, w.m)
    {
      if m.CanMove(target) then
        assert correlation != "" ==> Follows(m, m.Move(target, correlation)) by {
          if Consistent(m) && correlation != "" { MoveKeeps(m, target, correlation); }
        }
        this.(m := m.Move(target, correlation))
      else this.(fault := true)
    }

    function Invalidate(correlation: string): (w: World)
      ensures w == this.(m := w.m) && w.m.state == m.state
      ensures correlation != "" ==> Follows(m, w.m)
    {
      assert correlation != "" ==> Follows(m, m.Invalidate(correlation)) by {
        if Consistent(m) && correlation != "" {
          RecordKeeps(m.(epoch := m.epoch + 1), OperationInvalidated, correlation, NoDetails);
        }
      }
      this.(m := m.Invalidate(correlation))
    }

    /** One clock reading that is not part of an event. */
    function Tick(): (w: World)
      ensures w == this.(m := w.m) && w.m.state == m.state
      ensures Follows(m, w.m)
    {
      assert Follows(m, m.Tick()) by { if Consistent(m) { TickKeeps(m); } }
      this.(m := m.Tick())
    }

    function Accept(): (w: World)
      ensures Leads(w)
    {
      if m.Current(response.token) then this else Say(StaleResultRejected, response.correlation, NoDetails)
    }

    /** The response is cancelled or its token is stale. */
    predicate Dropped() { cancelSet || !m.Current(response.token) }

    /** Asking `cancelled or stale`; the token is only asked about when not cancelled. */
    function AskDropped(): (w: World)
      ensures Leads(w)
    {
      if cancelSet then this else Accept()
    }

    // ----- callers: interruption, new turns, background speech -----

    function Announce(correlation: string): (w: World)
      ensures correlation != "" ==> Announces(m, w.m, correlation)
      ensures correlation != "" && Consistent(m) && DigestOf(m).accepted ==> correlation in DigestOf(w.m).candidates
    {
      hide Consistent;
      Say(InterruptionCandidate, correlation, NoDetails)
    }

    /** An interruption of audible speech is announced before it is confirmed. */
    function InterruptSpeech(correlation: string): (w: World)
      ensures correlation != "" ==> Announces(m, w.m, correlation)
      ensures correlation != "" && Consistent(m) && DigestOf(m).accepted ==> correlation in DigestOf(w.m).candidates
    {
      hide DigestOf, Consistent, Go, Announce;
      Go(PossibleInterruption, correlation)
        .Announce(correlation)
        .Go(Interrupted, correlation)
    }

    /** The lifecycle part of an interruption; only speech announces a candidate. */
    function EnterInterrupted(correlation: string): (w: World)
      ensures correlation != "" ==> Announces(m, w.m, correlation)
      ensures (correlation != "" && Consistent(m) && DigestOf(m).accepted && m.state.Speaking?) ==>
                correlation in DigestOf(w.m).candidates
    {
      hide DigestOf, Consistent;
      match m.state
      case Speaking => InterruptSpeech(correlation)
      case PossibleInterruption => Go(Interrupted, correlation)
      case Overlap => Go(Interrupted, correlation)
      case Thinking => Go(Interrupted, correlation)
      case _ => this
    }

    /** The response's operations, its queue and finally its audio are cancelled. */
    function SignalCancel(correlation: string): (w: World)
      ensures correlation != "" ==> Follows(m, w.m)
    {
      Invalidate(correlation)
        .Say(InterruptionConfirmed, correlation, NoDetails)
        .(cancelled := cancelled + {response.id})
        .Say(AudioCancelSignal, correlation, ResponseDetails(response.id))
        .(cancelSet := true)
    }

    function Interrupt(correlation: string): (w: World)
      ensures correlation != "" ==> Announces(m, w.m, correlation)
      ensures (correlation != "" && Consistent(m) && DigestOf(m).accepted
               && !control.Done? && !cancelSet && m.state.Speaking?) ==>
                correlation in DigestOf(w.m).candidates
    {
      hide DigestOf, Consistent, EnterInterrupted, SignalCancel;
      if control.Done? || cancelSet then this
      else
        this.(cancelCorrelation := Some(correlation))
          .EnterInterrupted(correlation)
          .SignalCancel(correlation)
    }

    /** A complete user turn; it takes over a response that has not begun to speak. */
    function Confirm(correlation: string): (w: World)
      ensures correlation != "" ==> Announces(m, w.m, correlation)
    {
      hide Interrupt;
      var w1 := Say(TurnConfirmed, correlation, NoDetails);
      if !control.Done? && m.state.Thinking? then w1.Interrupt(correlation) else w1
    }

    function Begin(correlation: string, id: string): (w: World)
      ensures correlation != "" ==> Follows(m, w.m)
    {
      if !control.Done? || !m.state.Listening? then this
      else
        var w1 := Go(Thinking, correlation);
        var token := OperationToken(m.conversationId, m.epoch);
        w1.(control := Created,
            response := Response(id, token, token, correlation, true, 0, 0, false, 0, 0, 0, false),
            cancelSet := false,
            audioStopped := false,
            cancelCorrelation := None,
            usedIds := usedIds + {id},
            playbacks := [])
    }

    /**
     * Probable background speech. The guard also holds during a recent acoustic episode, whatever
     * the state; a state without an edge to overlap makes the transcript handler raise.
     */
    function OverlapStep(correlation: string, acousticEpisode: bool): (w: World)
      ensures correlation != "" ==> Follows(m, w.m)
    {
      var agentSpeaking := m.state in {Speaking, PossibleInterruption, Overlap} || acousticEpisode;
      if agentSpeaking && m.CanMove(Overlap) then
        Go(Overlap, correlation)
          .Go(Speaking, correlation)
          .(strayed := strayed || m.state.Listening? || m.state.Interrupted?)
      else this
    }

    // ----- the end of a response -----

    function CancelRest(ns: nat): (w: World)
      ensures w == this.(ledger := w.ledger, fault := w.fault)
      ensures Winds(w)
    {
      assert Listed(ledger) ==> WoundDown(ledger, CancelFrom(ledger, response.id, ns, 0).0) by {
        if Listed(ledger) { CancelWindsDown(ledger, response.id, ns); }
      }
      var (book, ok) := CancelFrom(ledger, response.id, ns, 0);
      this.(ledger := book, fault := fault || !ok)
    }

    function ReleaseOwner(): (w: World)
      ensures Leads(w)
    {
      if owner != Some(response.id) then this
      else
        var w1 := if provider.Some? then Say(OtherEvent, response.correlation, ResponseDetails(response.id)) else this;
        w1.Say(PlaybackOwnerDestroyed, response.correlation, ResponseDetails(response.id))
          .(owner := None, provider := None)
    }

    /** A cancelled response ends: what is left is cancelled and the session listens again. */
    function EndCancelled(): (w: World)
      ensures Leads(w)
    {
      var w1 := Tick().CancelRest(m.clock.Now());
      if m.state in {Interrupted, Thinking} then w1.Go(Listening, response.correlation) else w1
    }

    /** A response that ends without having spoken may not leave the session thinking. */
    function EndSilent(): (w: World)
      ensures Leads(w)
    {
      var c := response.correlation;
      Tick().CancelRest(m.clock.Now())
        .Say(RecoveryStarted, c, ResponseDetails(response.id))
        .Go(Listening, c)
        .Say(RecoveryCompleted, c, ResponseDetails(response.id))
    }

    function EndState(): (w: World)
      ensures Leads(w)
    {
      if cancelSet then EndCancelled() else if m.state.Thinking? then EndSilent() else this
    }

    predicate LedgerChecked() { forall id | id in ledger.entries :: Checked(ledger.entries[id]) }

    function Vacate(): (w: World)
      ensures Leads(w)
    {
      this.(fault := fault || !LedgerChecked())
        .ReleaseOwner()
        .(audioStopped := true, control := Done)
    }

    function Conclude(): (w: World)
      ensures Leads(w)
    {
      hide *;
      LeadsTransitive(this, EndState(), EndState().Vacate());
      EndState().Vacate()
    }

    function Finally(): (w: World)
      ensures Leads(w)
    {
      if playbacks == [] then Conclude() else this.(control := Finishing)
    }

    /** Everything the response still had queued or playing is cancelled or unconfirmed. */
    function SettleFailed(failureNs: nat): (w: World)
      ensures Leads(w) && w == this.(ledger := w.ledger, fault := w.fault)
    {
      hide DigestOf, Consistent, CancelFrom;
      var w1 := this.(ledger := Unconfirm(ledger, response.id).0);
      LeadsTransitive(this, w1, w1.CancelRest(failureNs));
      this.(ledger := Unconfirm(ledger, response.id).0).CancelRest(failureNs)
    }

    function BeginRecovery(): (w: World)
      ensures Leads(w)
    {
      var c := response.correlation;
      var w1 := this.(cancelSet := true, response := response.(failed := true))
                  .Invalidate(c)
                  .Say(RecoveryStarted, c, ResponseDetails(response.id));
      if w1.m.state in {Thinking, Speaking} then w1.Go(Recovering, c) else w1
    }

    /** With audio of unknown extent the session hands over; otherwise it listens again. */
    function EndRecovery(unconfirmed: bool): (w: World)
      ensures Leads(w)
    {
      hide DigestOf, Consistent, Say, Go;
      var c := response.correlation;
      var w1 := if unconfirmed then Say(AudioStopUnconfirmed, c, ResponseDetails(response.id)) else this;
      var w2 := if w1.m.state.Recovering? then w1.Go(if unconfirmed then Handoff else Listening, c) else w1;
      w2.Say(RecoveryCompleted, c, ResponseDetails(response.id))
    }

    function Recover(): (w: World)
      ensures Leads(w)
    {
      Tick()
        .BeginRecovery()
        .SettleFailed(m.clock.Now())
        .EndRecovery(Unconfirm(ledger, response.id).1)
    }

    /** The recovery of a response that raised. */
    function Fail(): (w: World)
      ensures Leads(w)
    {
      hide *;
      LeadsTransitive(this, Recover(), Recover().Finally());
      Recover().Finally()
    }

    function Complete(raises: bool): (w: World)
      ensures Leads(w)
    {
      var c := response.correlation;
      if cancelSet then Finally()
      else if raises then Fail()
      else
        var w1 := Say(AgentGenerationCompleted, c, ResponseDetails(response.id))
                    .Say(AgentAudioCompleted, c, ResponseDetails(response.id));
        (if w1.m.state.Speaking? then w1.Go(Listening, c) else w1).Finally()
    }

    /** After the reasoner loop: wait for the playbacks, if there are any. */
    function Gather(raises: bool): (w: World)
      ensures Leads(w)
    {
      if playbacks == [] then Complete(raises) else this.(control := Gathering)
    }

    // ----- the response task's loops -----

    function Generate(): (w: World)
      ensures Leads(w)
    {
      Say(AgentGenerationStarted, response.correlation, ResponseDetails(response.id))
        .(control := InReasoner, response := response.(reasonerRuns := response.reasonerRuns + 1))
    }

    function AfterCoordinator(): (w: World)
      ensures Leads(w)
    {
      if Dropped() then AskDropped().Finally() else Generate()
    }

    function LaunchWith(setup: Setup): (w: World)
      ensures Leads(w)
    {
      match setup
      case NoCoordinator => Generate()
      case NoPlan => AfterCoordinator()
      case CoordinatorRaises => Fail()
      case ToolCall =>
        if !m.state.Thinking? then Fail()
        else
          Go(ToolWait, response.correlation)
            .Say(OtherEvent, response.correlation, NoDetails)
            .(control := InTool,
              response := response.(
                toolRuns := response.toolRuns + 1,
                toolToken := OperationToken(m.conversationId, m.epoch)))
    }

    function ToolFailed(ok: bool): (w: World)
      ensures Leads(w)
    {
      var c := response.correlation;
      (if ok then Say(StaleResultRejected, c, NoDetails) else this)
        .Say(OtherEvent, c, NoDetails)
        .Invalidate(c)
    }

    function ToolRecovered(): (w: World)
      ensures Leads(w)
    {
      hide DigestOf, Consistent, Say, Go;
      var c := response.correlation;
      Go(Recovering, c)
        .Say(RecoveryStarted, c, NoDetails)
        .Go(Thinking, c)
        .Say(RecoveryCompleted, c, NoDetails)
    }

    /**
     * The tool executor makes one attempt: a current result leads back to thinking; anything else
     * invalidates the operations, recovers through the fallback and leads there too.
     */
    function ToolSettled(ok: bool): (w: World)
      ensures Leads(w)
    {
      if ok && m.Current(response.toolToken) then
        Say(OtherEvent, response.correlation, NoDetails).Go(Thinking, response.correlation)
      else
        hide *;
        LeadsTransitive(this, ToolFailed(ok), ToolFailed(ok).ToolRecovered());
        ToolFailed(ok).ToolRecovered()
    }

    function Coordinated(raises: bool): (w: World)
      ensures Leads(w)
    {
      if raises then Fail() else AfterCoordinator()
    }

    function ToolReturned(ok: bool, raises: bool): (w: World)
      ensures Leads(w)
    {
      hide *;
      var settled := ToolSettled(ok);
      LeadsTransitive(this, settled, settled.Accept());
      LeadsTransitive(this, settled.Accept(), settled.Accept().Coordinated(raises));
      settled.Accept().Coordinated(raises)
    }

    /** The next speech segment of the current text, or the next text. */
    function NextSegment(): (w: World)
      ensures Leads(w)
    {
      if response.segmentsLeft == 0 then
        if cancelSet then Gather(false) else this.(control := InReasoner)
      else if AnyBroken(playbacks) then Fail()
      else if cancelSet then Gather(false)
      else
        Say(OtherEvent, response.correlation, ResponseDetails(response.id))
          .(control := InSynth,
            response := response.(segmentsLeft := response.segmentsLeft - 1, attempt := 0, emitted := false))
    }

    function TextArrives(segments: nat, raises: bool): (w: World)
      ensures Leads(w)
    {
      hide DigestOf, Consistent, Say, Fail, NextSegment, Gather, AskDropped;
      if AnyBroken(playbacks) then Fail()
      else if Dropped() then AskDropped().Gather(false)
      else
        var w1 := Say(OtherEvent, response.correlation, ResponseDetails(response.id));
        if raises then w1.Fail()
        else w1.(response := response.(segmentsLeft := segments)).NextSegment()
    }

    /** The first audio makes the session speak. */
    function FirstAudio(): (w: World)
      ensures SameIdentity(w) && w.ledger == ledger && w.sink == sink && w.playbacks == playbacks
      ensures response.correlation != "" ==> Follows(m, w.m)
    {
      if !response.firstAudio then this
      else
        var w1 := Say(OtherEvent, response.correlation, ResponseDetails(response.id))
                    .(response := response.(firstAudio := false));
        if w1.m.state.Thinking? then w1.Go(Speaking, response.correlation) else w1
    }

    function Schedule(chunk: Chunk): (w: World)
      ensures SameIdentity(w) && w.ledger == ledger && w.sink == sink[chunk.speech.chunkId := 0]
      ensures w.playbacks == playbacks + [Playback(chunk.speech.chunkId, chunk.speech.samples, 0, 0, Pending)]
      ensures response.correlation != "" ==> Carries(m, w.m)
      ensures response.correlation != "" && Consistent(m) ==>
                DigestOf(w.m).scheduled == DigestOf(m).scheduled + [chunk.speech.chunkId]
    {
      hide DigestOf, Consistent, FirstAudio, Say;
      FirstAudio()
        .Say(AudioChunkScheduled, response.correlation, ChunkDetails(response.id, chunk.speech.chunkId))
        .(playbacks := playbacks + [Playback(chunk.speech.chunkId, chunk.speech.samples, 0, 0, Pending)],
          sink := sink[chunk.speech.chunkId := 0],
          control := InSynth)
    }

    /** Registering and queueing an accepted chunk, each with its own clock reading. */
    function Enlist(speech: Speech): (w: World)
      ensures w == this.(m := w.m, ledger := w.ledger, fault := w.fault) && w.m.state == m.state
      ensures Follows(m, w.m)
      ensures speech.chunkId !in ledger.entries ==> Enlists(w, speech)
    {
      hide DigestOf, Consistent, Tick;
      var w1 := Tick();
      var w2 := w1.Tick();
      var (book1, ok1) := Register(ledger, speech, m.clock.Now());
      var (book2, ok2) := Queue(book1, speech.chunkId, w1.m.clock.Now());
      w2.(ledger := book2, fault := fault || !ok1 || !ok2)
    }

    function NoteReceived(chunk: Chunk): (w: World)
      ensures SameIdentity(w) && w.playbacks == playbacks && w.ledger == ledger && w.sink == sink
      ensures w.m.state == m.state && (response.correlation != "" ==> Follows(m, w.m))
    {
      Say(AudioChunkReceived, response.correlation, ChunkDetails(response.id, chunk.speech.chunkId))
        .(seenChunks := seenChunks + {chunk.speech.chunkId},
          seenSequences := seenSequences + {(chunk.streamId, chunk.sequence)},
          response := response.(emitted := true))
    }

    /** An enlisted chunk whose response was dropped at the very last moment. */
    function DropEnlisted(): (w: World)
      ensures Leads(w)
    {
      hide DigestOf, Consistent, CancelFrom, WoundDown;
      var w1 := AskDropped();
      LeadsTransitive(this, w1, w1.Tick().CancelRest(w1.m.clock.Now()));
      w1.Tick().CancelRest(w1.m.clock.Now()).(control := Closing(StreamDone))
    }

    /** A chunk that passed the gate enters the ledger and is scheduled, unless it was dropped meanwhile. */
    function Enter(chunk: Chunk): (w: World)
      ensures Proceeds(w, chunk)
    {
      hide DigestOf, Consistent, NoteReceived, Enlist, DropEnlisted, Schedule, WoundDown;
      var w1 := NoteReceived(chunk).Enlist(chunk.speech);
      if w1.Dropped() then
        EnlistsThenWinds(this, w1, w1.DropEnlisted(), chunk.speech);
        w1.DropEnlisted()
      else w1.Schedule(chunk)
    }

    function TakeOwnership(): (w: World)
      ensures Leads(w) && w.ledger == ledger
    {
      if owner.Some? then this
      else Say(PlaybackOwnerCreated, response.correlation, ResponseDetails(response.id)).(owner := Some(response.id))
    }

    function PinProvider(key: string): (w: World)
      ensures Leads(w) && w.ledger == ledger
    {
      if provider.Some? then this
      else Say(OtherEvent, response.correlation, ResponseDetails(response.id)).(provider := Some(key))
    }

    function Pass(chunk: Chunk): (w: World)
      ensures Proceeds(w, chunk)
    {
      hide DigestOf, Consistent, PinProvider, Enter, Listed, WoundDown;
      if provider.Some? && provider.value != chunk.provider then this.(control := Closing(Propagating))
      else PinProvider(chunk.provider).Enter(chunk)
    }

    predicate Stale(chunk: Chunk) {
      || chunk.speech.responseId != response.id
      || response.id in cancelled
      || (!Seen(chunk) && owner.Some? && owner.value != response.id)
    }

    predicate Seen(chunk: Chunk) {
      chunk.speech.chunkId in seenChunks || (chunk.streamId, chunk.sequence) in seenSequences
    }

    /** The gate every chunk passes: right response, not cancelled, unseen, single owner, one provider. */
    function Admit(chunk: Chunk): (w: World)
      ensures Gates(w, chunk)
    {
      hide DigestOf, Consistent, Say, TakeOwnership, Pass, Listed, WoundDown;
      var c := response.correlation;
      var details := ChunkDetails(response.id, chunk.speech.chunkId);
      if Stale(chunk) then Say(StaleChunkRejected, c, details).(control := InSynth)
      else if Seen(chunk) then Say(DuplicateChunkRejected, c, details).(control := InSynth)
      else TakeOwnership().Pass(chunk)
    }

    function ChunkArrives(chunk: Chunk): (w: World)
      ensures Gates(w, chunk)
    {
      hide DigestOf, Consistent, AskDropped, Say, Admit, Listed, WoundDown;
      if AnyBroken(playbacks) then this.(control := Closing(Propagating))
      else if Dropped() then
        AskDropped()
          .Say(StaleChunkRejected, response.correlation, ChunkDetails(response.id, chunk.speech.chunkId))
          .(control := Closing(StreamDone))
      else if UnfinishedCount(playbacks) >= 2 then this.(control := InCapacity(chunk))
      else Admit(chunk)
    }

    function CapacityFreed(chunk: Chunk): (w: World)
      ensures Gates(w, chunk)
    {
      hide DigestOf, Consistent, Admit, Listed, WoundDown;
      if AnyBroken(playbacks) then this.(control := Closing(Propagating)) else Admit(chunk)
    }

    function StreamBroke(): World {
      this.(control := Closing(if response.firstAudio && !cancelSet then SpeechError else Propagating))
    }

    /** A stream that brought no audio is retried once, before any audio and unless cancelled. */
    predicate RetryDue(cause: Cause, raises: bool) {
      && !raises && !cause.Propagating?
      && !(cause.StreamDone? && (response.emitted || cancelSet))
      && response.firstAudio && !cancelSet && response.attempt == 0
    }

    function Retry(): (w: World)
      ensures SameIdentity(w.(response := w.response.(retries := response.retries)))
      ensures w.ledger == ledger && w.sink == sink && w.m.state == m.state
      ensures response.correlation != "" ==> Follows(m, w.m)
    {
      Say(TtsSpeechRetry, response.correlation, ResponseDetails(response.id))
        .(control := InSynth,
          response := response.(attempt := 1, emitted := false, retries := response.retries + 1))
    }

    function StreamClosed(cause: Cause, raises: bool): (w: World)
      ensures if RetryDue(cause, raises) then w == Retry() else Leads(w)
    {
      hide DigestOf, Consistent, Fail, Gather, NextSegment, Retry;
      if raises || cause.Propagating? then Fail()
      else if cause.StreamDone? && (response.emitted || cancelSet) then
        if cancelSet then Gather(false) else NextSegment()
      else if response.firstAudio && !cancelSet && response.attempt == 0 then Retry()
      else Fail()
    }

    function GatherReturned(raises: bool): (w: World)
      ensures Leads(w)
    {
      if AnyBroken(playbacks) then Fail() else Complete(raises)
    }

    // ----- playback tasks: the contract of a cancel-aware PCM sink -----

    function Put(i: nat, p: Playback): World
      requires i < |playbacks|
    {
      this.(playbacks := playbacks[i := p])
    }

    /** The first cancelled receipt of a response announces the stop. */
    function Acknowledge(chunkId: string): World {
      var correlation := if cancelCorrelation.Some? then cancelCorrelation.value else response.correlation;
      if response.id in acknowledged then this
      else
        this.(acknowledged := acknowledged + {response.id})
            .Say(AgentAudioCancelled, correlation, ChunkDetails(response.id, chunkId))
            .Say(AudibleStopAck, correlation, ChunkDetails(response.id, chunkId))
    }

    /** The sink returned: settle the ledger and, after a cancelled receipt, cancel what is left. */
    function Stop(i: nat): World
      requires i < |playbacks|
    {
      var p := playbacks[i];
      var stoppedNs := m.clock.Now();
      var w1 := Tick();
      var stopped := cancelSet && p.played < p.total;
      var receipt := Receipt(p.chunkId, p.total, p.played, p.startedNs, stoppedNs, stopped);
      var (book, ok) := Finish(w1.ledger, receipt);
      if !ok then w1.Put(i, p.(phase := Broken))
      else
        var w2 := w1.(ledger := book)
                    .Put(i, p.(phase := Finished))
                    .Say(AudioChunkPlayed, response.correlation, ChunkDetails(response.id, p.chunkId));
        if stopped then w2.CancelRest(stoppedNs).Acknowledge(p.chunkId) else w2
    }

    function LoopTest(i: nat): World
      requires i < |playbacks|
    {
      var p := playbacks[i];
      if p.played < p.total && !cancelSet then Put(i, p.(phase := Sleeping)) else Stop(i)
    }

    function StartPlaying(i: nat): World
      requires i < |playbacks|
    {
      var p := playbacks[i];
      var startedNs := m.clock.Now();
      var w1 := Tick();
      var (book, ok) := StartPlayback(w1.ledger, p.chunkId, startedNs);
      if !ok then w1.Put(i, p.(phase := Broken))
      else
        w1.(ledger := book)
          .Put(i, p.(startedNs := startedNs, phase := Sleeping))
          .Say(AgentAudioStarted, response.correlation, ChunkDetails(response.id, p.chunkId))
          .LoopTest(i)
    }

    function Advance(i: nat, block: nat, observed: bool): World
      requires i < |playbacks|
    {
      if cancelSet then Stop(i)
      else
        var p := playbacks[i].(played := playbacks[i].played + block,
                               phase := if observed then Observing else Sleeping);
        var w1 := Put(i, p).(sink := sink[p.chunkId := p.played]);
        if observed then w1 else w1.LoopTest(i)
    }
  }

  /** Which choices the session, its providers and the scheduler can make now. */
  predicate Enabled(w: World, c: Choice) {
    match c
    case ConfirmTurn(correlation) => correlation != ""
    case BeginResponse(correlation, id) => correlation != "" && id !in w.usedIds
    case InterruptNow(correlation) => correlation != ""
    case BackgroundOverlap(correlation, _) => correlation != ""
    case Telemetry(correlation) => correlation != ""
    case Launch(_) => w.control.Created?
    case ToolReturns(_, _) => w.control.InTool?
    case ReasonerYields(_, _) => w.control.InReasoner?
    case ReasonerEnds(_) => w.control.InReasoner?
    case ReasonerRaises => w.control.InReasoner?
    case SynthYields(chunk) => w.control.InSynth? && chunk.speech.samples >= 1
    case SynthEnds => w.control.InSynth?
    case SynthRaises => w.control.InSynth?
    case CapacityFrees => w.control.InCapacity? && UnfinishedCount(w.playbacks) < 2
    case StreamCloses(_) => w.control.Closing?
    case GatherReturns(_) =>
      w.control.Gathering? && (UnfinishedCount(w.playbacks) == 0 || AnyBroken(w.playbacks))
    case PlaybacksSettle => w.control.Finishing? && UnfinishedCount(w.playbacks) == 0
    case PlaybackStarts(i) => i < |w.playbacks| && w.playbacks[i].phase.Pending?
    case PlaybackAdvances(i, block, _) =>
      && i < |w.playbacks| && w.playbacks[i].phase.Sleeping?
      && 1 <= block <= w.playbacks[i].total - w.playbacks[i].played
    case ObserverReturns(i) => i < |w.playbacks| && w.playbacks[i].phase.Observing?
    case PlaybackRaises(i) => i < |w.playbacks| && Unfinished(w.playbacks[i])
  }

  function Step(w: World, c: Choice): World
    requires Enabled(w, c)
  {
    match c
    case ConfirmTurn(correlation) => w.Confirm(correlation)
    case BeginResponse(correlation, id) => w.Begin(correlation, id)
    case InterruptNow(correlation) => w.Interrupt(correlation)
    case BackgroundOverlap(correlation, acoustic) => w.OverlapStep(correlation, acoustic)
    case Telemetry(correlation) => w.Say(OtherEvent, correlation, NoDetails)
    case Launch(setup) => w.LaunchWith(setup)
    case ToolReturns(ok, raises) => w.ToolReturned(ok, raises)
    case ReasonerYields(segments, raises) => w.TextArrives(segments, raises)
    case ReasonerEnds(raises) => w.Gather(raises)
    case ReasonerRaises => w.Fail()
    case SynthYields(chunk) => w.ChunkArrives(chunk)
    case SynthEnds => w.(control := Closing(StreamDone))
    case SynthRaises => w.StreamBroke()
    case CapacityFrees => w.CapacityFreed(w.control.chunk)
    case StreamCloses(raises) => w.StreamClosed(w.control.cause, raises)
    case GatherReturns(raises) => w.GatherReturned(raises)
    case PlaybacksSettle => w.Conclude()
    case PlaybackStarts(i) => w.StartPlaying(i)
    case PlaybackAdvances(i, block, observed) => w.Advance(i, block, observed)
    case ObserverReturns(i) => w.LoopTest(i)
    case PlaybackRaises(i) => w.Put(i, w.playbacks[i].(phase := Broken))
  }

  /** A session that has just been started: its first event leads from idle to listening. */
  function Initial(conversationId: string, at: nat -> nat, correlation: string): World {
    var token := OperationToken(conversationId, 0);
    var idle := World(
      Machine(conversationId, Idle, 0, 0, 0, Clock(at, 0), []),
      EmptyBook, Done,
      Response("", token, token, correlation, true, 0, 0, false, 0, 0, 0, false),
      false, true, None, None, None, {}, {}, {}, {}, {""}, [], map[], false, false);
    idle.Go(Listening, correlation)
  }

  /** A schedule whose every choice is possible when it is made. */
  predicate Feasible(w: World, cs: seq<Choice>)
    decreases cs
  {
    cs == [] || (Enabled(w, cs[0]) && Feasible(Step(w, cs[0]), cs[1..]))
  }

  function Run(w: World, cs: seq<Choice>): World
    requires Feasible(w, cs)
    decreases cs
  {
    if cs == [] then w else Run(Step(w, cs[0]), cs[1..])
  }
}
