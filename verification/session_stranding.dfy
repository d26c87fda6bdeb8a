/** When exactly background speech out of turn strands a session, on every interleaving. */
module SessionStranding {
  import opened Domain
  import opened Ledger
  import opened Audit
  import opened Protocol
  import opened Invariants
  import opened Keeps
  import opened SessionReplay
  import opened SessionFinality
  import opened SessionTheorems

  /** Does this step run the exception handler of the live response? Each case is the guard of that branch. */
  predicate Raises(w: World, c: Choice)
    requires Enabled(w, c)
  {
    match c
    case Launch(setup) => setup.CoordinatorRaises? || (setup.ToolCall? && !w.m.state.Thinking?)
    case ToolReturns(_, raises) => raises
    case ReasonerYields(_, raises) => AnyBroken(w.playbacks) || (raises && !w.Dropped())
    case ReasonerEnds(raises) => raises && w.playbacks == [] && !w.cancelSet
    case ReasonerRaises => true
    case StreamCloses(raises) => StreamRaises(w, w.control.cause, raises)
    case GatherReturns(raises) => AnyBroken(w.playbacks) || (raises && !w.cancelSet)
    case _ => false
  }

  /** The stream raised, or brought nothing for the last time, or the next segment meets a broken playback. */
  predicate StreamRaises(w: World, cause: Cause, raises: bool) {
    || raises || cause.Propagating?
    || (if cause.StreamDone? && (w.response.emitted || w.cancelSet)
        then !w.cancelSet && w.response.segmentsLeft > 0 && AnyBroken(w.playbacks)
        else !w.RetryDue(cause, raises))
  }

  /** An interruption that takes effect: it finds a live response that is not cancelled yet. */
  predicate Interrupts(w: World, c: Choice) { c.InterruptNow? && !w.control.Done? && !w.cancelSet }

  /** What can save a session that speaks out of turn. */
  predicate Saves(w: World, c: Choice)
    requires Enabled(w, c)
  {
    Raises(w, c) || Interrupts(w, c)
  }

  /** The session speaks although its response is cancelled, is winding up or has ended. */
  predicate Doomed(w: World) {
    w.m.state.Speaking? && (w.cancelSet || w.control.Finishing? || w.control.Done?)
  }

  // ----- what the parts of a response do to a doomed session -----

  /** Apart from the machine, only the ledger is touched, and nobody begins or ceases to speak. */
  ghost predicate WindsUp(w: World, w': World) {
    && w' == w.(m := w'.m, ledger := w'.ledger, fault := w'.fault)
    && (w'.m.state.Speaking? <==> w.m.state.Speaking?)
  }

  lemma EndCancelledShape(w: World)
    ensures WindsUp(w, w.EndCancelled())
  {
    hide World.Leads, World.Winds, Follows, World.CancelRest, World.Tick, World.Go;
  }

  lemma EndSilentShape(w: World)
    requires w.m.state.Thinking?
    ensures WindsUp(w, w.EndSilent())
  {
    hide World.Leads, World.Winds, Follows, Announces, Carries, World.CancelRest, World.Say, World.Tick, World.Go;
  }

  lemma EndStateShape(w: World)
    ensures WindsUp(w, w.EndState())
  {
    hide World.Leads, World.EndCancelled, World.EndSilent;
    if w.cancelSet { EndCancelledShape(w); } else if w.m.state.Thinking? { EndSilentShape(w); }
  }

  lemma VacateShape(w: World)
    ensures var w' := w.Vacate();
      && w'.control.Done? && w'.m.state == w.m.state && w'.response == w.response && w'.cancelSet == w.cancelSet
  {
    hide World.Leads, World.Winds, Follows, Announces, Carries, DigestOf, Consistent, World.Say, World.LedgerChecked;
  }

  /** Winding up leaves a speaking session speaking, and never makes one speak. */
  lemma FinallyShape(w: World)
    ensures var w' := w.Finally();
      && (w'.control.Done? || w'.control.Finishing?)
      && w'.response.failed == w.response.failed
      && (w'.m.state.Speaking? <==> w.m.state.Speaking?)
  {
    hide World.EndState, World.Vacate, World.Leads;
    EndStateShape(w);
    VacateShape(w.EndState());
  }

  /** The handler never leaves a session speaking. */
  lemma FailNeverDooms(w: World)
    requires w.m.state in {Thinking, Speaking, Interrupted}
    ensures !w.Fail().m.state.Speaking? && w.Fail().response.failed
  {
    hide World.Leads, Follows, World.Recover, World.Finally, CancelFrom, Unconfirm;
    RecoverShape(w);
    FinallyShape(w.Recover());
  }

  lemma CompleteDooms(w: World, raises: bool)
    requires w.m.state in {Thinking, Speaking, Interrupted}
    ensures Doomed(w.Complete(raises)) <==> w.m.state.Speaking? && w.cancelSet
    ensures w.Complete(raises).response.failed == (w.response.failed || (raises && !w.cancelSet))
  {
    hide World.Leads, Follows, DigestOf, Consistent, World.Finally, World.Fail;
    var c := w.response.correlation;
    if w.cancelSet {
      FinallyShape(w);
    } else if raises {
      FailNeverDooms(w);
    } else {
      var w1 := w.Say(AgentGenerationCompleted, c, ResponseDetails(w.response.id))
                 .Say(AgentAudioCompleted, c, ResponseDetails(w.response.id));
      var w2 := if w1.m.state.Speaking? then w1.Go(Listening, c) else w1;
      FinallyShape(w2);
    }
  }

  lemma GatherDooms(w: World, raises: bool)
    requires w.m.state in {Thinking, Speaking, Interrupted} && !w.control.Finishing? && !w.control.Done?
    ensures Doomed(w.Gather(raises)) <==> w.m.state.Speaking? && w.cancelSet
    ensures w.Gather(raises).response.failed == (w.response.failed || (raises && w.playbacks == [] && !w.cancelSet))
  {
    hide World.Leads, Follows, World.Complete;
    if w.playbacks == [] { CompleteDooms(w, raises); }
  }

  lemma NextSegmentDooms(w: World)
    requires w.m.state in {Thinking, Speaking, Interrupted} && !w.control.Finishing? && !w.control.Done?
    ensures var failing := w.response.segmentsLeft > 0 && AnyBroken(w.playbacks);
      && (Doomed(w.NextSegment()) <==> w.m.state.Speaking? && w.cancelSet && !failing)
      && w.NextSegment().response.failed == (w.response.failed || failing)
  {
    hide World.Leads, Follows, World.Gather, World.Fail;
    if w.cancelSet { GatherDooms(w, false); }
    if AnyBroken(w.playbacks) { FailNeverDooms(w); }
  }

  // ----- what each step does to a doomed session -----

  /** A step of the live response: doom and failure are what the guards say. */
  ghost predicate Decided(w: World, c: Choice, w': World)
    requires Enabled(w, c)
  {
    && (Doomed(w') <==> Doomed(w) && !Raises(w, c))
    && w'.response.failed == (w.response.failed || Raises(w, c))
  }

  lemma LoopStates(w: World)
    requires Inv(w) && !w.control.Done? && !w.control.Finishing? && !w.control.InTool?
    ensures w.m.state in {Thinking, Speaking, Interrupted}
    ensures !w.cancelSet ==> w.m.Current(w.response.token)
    ensures w.control.Gathering? ==> w.playbacks != []
    ensures Doomed(w) <==> w.m.state.Speaking? && w.cancelSet
  {
    hide Base;
  }

  lemma AfterCoordinatorShape(w: World)
    requires w.cancelSet || w.m.Current(w.response.token)
    ensures var w' := w.AfterCoordinator();
      && w'.response.failed == w.response.failed
      && (Doomed(w') <==> w.m.state.Speaking? && w.cancelSet)
  {
    hide World.Leads, Follows, World.Finally, World.Say;
    FinallyShape(w);
  }

  lemma LaunchDecided(w: World, c: Choice)
    requires Inv(w) && Enabled(w, c) && c.Launch?
    ensures Decided(w, c, Step(w, c))
  {
    hide Inv, World.Leads, Follows, DigestOf, Consistent, World.AfterCoordinator, World.Fail, World.Say, World.Go;
    LoopStates(w);
    FailNeverDooms(w);
    AfterCoordinatorShape(w);
    assert w.m.state.Thinking? ==> w.Go(ToolWait, w.response.correlation).m.state in {ToolWait, Thinking};
  }

  lemma ToolDecided(w: World, c: Choice)
    requires Inv(w) && Enabled(w, c) && c.ToolReturns?
    ensures Decided(w, c, Step(w, c))
  {
    hide World.Leads, Follows, DigestOf, Consistent, World.Finally, World.Fail, World.ToolSettled,
         Backed, Timely, UnfinishedCount;
    ToolSettledShape(w, c.ok);
    var w1 := w.ToolSettled(c.ok).Accept();
    FailNeverDooms(w1);
    FinallyShape(w1.AskDropped());
  }

  lemma TextDecided(w: World, c: Choice)
    requires Inv(w) && Enabled(w, c) && c.ReasonerYields?
    ensures Decided(w, c, Step(w, c))
  {
    hide Inv, World.Leads, Follows, DigestOf, Consistent, World.NextSegment, World.Fail, World.Gather;
    LoopStates(w);
    FailNeverDooms(w);
    if !AnyBroken(w.playbacks) {
      if w.Dropped() {
        GatherDooms(w.AskDropped(), false);
      } else {
        var w1 := w.Say(OtherEvent, w.response.correlation, ResponseDetails(w.response.id));
        FailNeverDooms(w1);
        NextSegmentDooms(w1.(response := w1.response.(segmentsLeft := c.segments)));
      }
    }
  }

  lemma RetryDooms(w: World)
    ensures Doomed(w.Retry()) <==> w.m.state.Speaking? && w.cancelSet
    ensures w.Retry().response.failed == w.response.failed
  {
    hide World.Leads, World.Winds, Follows, World.Say;
  }

  lemma StreamDooms(w: World, raises: bool)
    requires w.m.state in {Thinking, Speaking, Interrupted} && w.control.Closing?
    requires !w.cancelSet ==> w.m.Current(w.response.token)
    ensures var w' := w.StreamClosed(w.control.cause, raises);
      && (Doomed(w') <==> w.m.state.Speaking? && w.cancelSet && !StreamRaises(w, w.control.cause, raises))
      && w'.response.failed == (w.response.failed || StreamRaises(w, w.control.cause, raises))
  {
    hide World.Leads, World.NextSegment, World.Fail, World.Gather, World.Retry;
    RetryDooms(w);
    FailNeverDooms(w);
    GatherDooms(w, false);
    NextSegmentDooms(w);
  }

  lemma StreamDecided(w: World, c: Choice)
    requires Inv(w) && Enabled(w, c) && c.StreamCloses?
    ensures Decided(w, c, Step(w, c))
  {
    hide Inv, World.StreamClosed, StreamRaises, Doomed;
    LoopStates(w);
    StreamDooms(w, c.raises);
  }

  lemma EndDecided(w: World, c: Choice)
    requires Inv(w) && Enabled(w, c) && (c.ReasonerEnds? || c.ReasonerRaises? || c.GatherReturns?)
    ensures Decided(w, c, Step(w, c))
  {
    hide Inv, World.Leads, World.Complete, World.Fail, World.Gather, UnfinishedCount;
    LoopStates(w);
    FailNeverDooms(w);
    if c.GatherReturns? { CompleteDooms(w, c.raises); }
    if c.ReasonerEnds? { GatherDooms(w, c.raises); }
  }

  lemma SettleDecided(w: World, c: Choice)
    requires Inv(w) && Enabled(w, c) && (c.PlaybacksSettle? || c.SynthEnds? || c.SynthRaises?)
    ensures Decided(w, c, Step(w, c))
  {
    hide Inv, World.EndState, World.Vacate, UnfinishedCount;
    EndStateShape(w);
    VacateShape(w.EndState());
  }

  /** The response goes on, neither cancelled nor failed. */
  predicate GoesOn(w: World, w': World) {
    && w'.cancelSet == w.cancelSet && w'.response.failed == w.response.failed
    && (w'.control.InSynth? || w'.control.Closing?)
  }

  lemma ScheduleGoesOn(w: World, chunk: Chunk)
    ensures GoesOn(w, w.Schedule(chunk))
  {
    hide World.SameIdentity, Follows, Carries, DigestOf, Consistent, World.Say, World.Go;
  }

  lemma DropGoesOn(w: World)
    ensures GoesOn(w, w.DropEnlisted())
  {
    hide World.SameIdentity, World.Leads, Follows, DigestOf, Consistent, World.Say, World.Tick, World.CancelRest;
  }

  lemma EnterGoesOn(w: World, chunk: Chunk)
    ensures GoesOn(w, w.Enter(chunk))
  {
    hide World.SameIdentity, World.Leads, World.Enlists, World.Proceeds, Follows, Carries, DigestOf, Consistent,
         World.Say, World.Enlist, World.Schedule, World.DropEnlisted;
    var w1 := w.NoteReceived(chunk).Enlist(chunk.speech);
    ScheduleGoesOn(w1, chunk);
    DropGoesOn(w1);
  }

  lemma ClaimGoesOn(w: World, key: string)
    ensures var w' := w.TakeOwnership().PinProvider(key);
      w'.cancelSet == w.cancelSet && w'.response.failed == w.response.failed
    ensures w.TakeOwnership().cancelSet == w.cancelSet && w.TakeOwnership().response == w.response
  {
    hide World.SameIdentity, World.Leads, Follows, World.Say;
  }

  lemma PassGoesOn(w: World, chunk: Chunk)
    ensures GoesOn(w.TakeOwnership(), w.TakeOwnership().Pass(chunk))
  {
    hide World.SameIdentity, World.Leads, World.Proceeds, Follows, Carries, World.Enter, World.TakeOwnership, World.PinProvider;
    ClaimGoesOn(w, chunk.provider);
    EnterGoesOn(w.TakeOwnership().PinProvider(chunk.provider), chunk);
  }

  /** Chunks never end a response, whatever becomes of them. */
  lemma AdmitGoesOn(w: World, chunk: Chunk)
    ensures GoesOn(w, w.Admit(chunk))
  {
    hide World.SameIdentity, World.Leads, World.Proceeds, World.Gates, Follows, Carries,
         World.Say, World.Pass, World.Stale, World.Seen, World.TakeOwnership, World.Winds;
    ClaimGoesOn(w, chunk.provider);
    PassGoesOn(w, chunk);
  }

  lemma ChunkDecided(w: World, c: Choice)
    requires Inv(w) && Enabled(w, c) && (c.SynthYields? || c.CapacityFrees?)
    ensures Decided(w, c, Step(w, c))
  {
    hide Inv, World.Admit, World.Gates, World.Leads, Follows, UnfinishedCount;
    LoopStates(w);
    GatesStates(w, c);
    AdmitGoesOn(w, ChunkOf(w, c));
  }

  lemma PlaybackDecided(w: World, c: Choice)
    requires Inv(w) && Enabled(w, c)
    requires c.PlaybackStarts? || c.PlaybackAdvances? || c.ObserverReturns? || c.PlaybackRaises?
    ensures Decided(w, c, Step(w, c))
  {
    hide Inv, Step;
    PlaybackFrame(w, c);
  }

  lemma TaskDecided(w: World, c: Choice)
    requires Inv(w) && Enabled(w, c) && !CallerChoice(c)
    ensures Decided(w, c, Step(w, c))
  {
    hide Inv, Step, Decided;
    match c
    case Launch(_) => LaunchDecided(w, c);
    case ToolReturns(_, _) => ToolDecided(w, c);
    case ReasonerYields(_, _) => TextDecided(w, c);
    case StreamCloses(_) => StreamDecided(w, c);
    case SynthYields(_) => ChunkDecided(w, c);
    case CapacityFrees => ChunkDecided(w, c);
    case PlaybacksSettle => SettleDecided(w, c);
    case SynthEnds => SettleDecided(w, c);
    case SynthRaises => SettleDecided(w, c);
    case ReasonerEnds(_) => EndDecided(w, c);
    case ReasonerRaises => EndDecided(w, c);
    case GatherReturns(_) => EndDecided(w, c);
    case _ => PlaybackDecided(w, c);
  }

  /** Callers doom a session only by an overlap out of turn, and save it only by an interruption in time. */
  lemma CallerDecided(w: World, c: Choice)
    requires Inv(w) && Enabled(w, c) && CallerChoice(c)
    ensures Doomed(Step(w, c)) <==> FiresOutOfTurn(w, c) || (Doomed(w) && !Interrupts(w, c))
  {
    hide World.Interrupt, World.Begin, World.OverlapStep, World.Leads, World.Winds, Base, Follows;
    AwaitStates(w);
    match c
    case ConfirmTurn(correlation) =>
      var w1 := w.Say(TurnConfirmed, correlation, NoDetails);
      if !w1.control.Done? && !w1.cancelSet { InterruptShape(w1, correlation); } else { InterruptIdle(w1, correlation); }
    case InterruptNow(correlation) =>
      if !w.control.Done? && !w.cancelSet { InterruptShape(w, correlation); } else { InterruptIdle(w, correlation); }
    case BeginResponse(correlation, id) =>
      if w.control.Done? && w.m.state.Listening? { BeginShape(w, correlation, id); } else { BeginIdle(w, correlation, id); }
    case BackgroundOverlap(correlation, acoustic) => OverlapShape(w, correlation, acoustic);
    case Telemetry(_) =>
  }

  // ----- whole runs -----

  /**
   * One step of any interleaving: only an overlap out of turn dooms a session; and only the
   * exception handler of the live response saves a doomed one, or an interruption that still finds
   * that response uncancelled.
   */
  lemma StepDooms(w: World, c: Choice)
    requires Inv(w) && Enabled(w, c)
    ensures Doomed(Step(w, c)) <==> FiresOutOfTurn(w, c) || (Doomed(w) && !Saves(w, c))
  {
    hide Inv, Step, Enabled, Doomed;
    if CallerChoice(c) { CallerDecided(w, c); } else { TaskDecided(w, c); }
  }

  predicate NeverSaves(w: World, cs: seq<Choice>)
    requires Feasible(w, cs)
    decreases cs
  {
    cs == [] || (!Saves(w, cs[0]) && NeverSaves(Step(w, cs[0]), cs[1..]))
  }

  /** Some overlap of the schedule fires out of turn, and nothing after it saves the session. */
  predicate FiresUnsaved(w: World, cs: seq<Choice>)
    requires Feasible(w, cs)
    decreases cs
  {
    && cs != []
    && (|| (FiresOutOfTurn(w, cs[0]) && NeverSaves(Step(w, cs[0]), cs[1..]))
        || FiresUnsaved(Step(w, cs[0]), cs[1..]))
  }

  lemma {:induction false} RunDooms(w: World, cs: seq<Choice>)
    requires Inv(w) && Feasible(w, cs)
    ensures Doomed(Run(w, cs)) <==> FiresUnsaved(w, cs) || (Doomed(w) && NeverSaves(w, cs))
    decreases cs
  {
    hide Inv, Step, Enabled, Doomed, Saves, FiresOutOfTurn;
    if cs != [] {
      StepKeeps(w, cs[0]);
      StepDooms(w, cs[0]);
      RunDooms(Step(w, cs[0]), cs[1..]);
    }
  }

  /**
   * When no response task runs, the session is stranded exactly when some overlap of the run fired
   * out of turn and after it no response raised and no interruption took effect; in every other case
   * it is quiescent.
   */
  lemma StrandedExactly(conversationId: string, at: nat -> nat, correlation: string, cs: seq<Choice>, w: World)
    requires Reaches(conversationId, at, correlation, cs, w)
    ensures var w0 := Initial(conversationId, at, correlation);
      && !w.fault
      && (Doomed(w) <==> FiresUnsaved(w0, cs))
      && (w.control.Done? ==>
            && (Stranded(w) <==> FiresUnsaved(w0, cs))
            && (Quiescent(w) <==> !FiresUnsaved(w0, cs)))
  {
    hide Run, Feasible, FiresUnsaved, NeverSaves, Quiescent;
    var w0 := Initial(conversationId, at, correlation);
    Quiescence(conversationId, at, correlation, cs, w);
    InitialInv(conversationId, at, correlation);
    RunDooms(w0, cs);
    assert !w0.m.state.Speaking? by { StartsListening(conversationId, at, correlation); }
  }

  lemma StartsListening(conversationId: string, at: nat -> nat, correlation: string)
    ensures Initial(conversationId, at, correlation).m.state.Listening?
    ensures Initial(conversationId, at, correlation).control.Done?
  {
    hide DigestOf, Consistent, Follows;
  }

  // ----- an overlap while the response still lives -----

  /** With nothing to play, the end of a response is immediate. */
  lemma EndsAtOnce(w: World)
    requires Inv(w) && w.control.InReasoner? && w.playbacks == []
    ensures w.Fail().control.Done? && (w.cancelSet ==> w.Gather(false).control.Done?)
  {
    hide Inv, World.Leads, World.Recover, World.EndState, CancelFrom, Unconfirm;
    LoopStates(w);
    RecoverShape(w);
    VacateShape(w.Recover().EndState());
    VacateShape(w.EndState());
  }

  /**
   * After an interruption the very same overlap strands the session if the response then ends, and
   * does no harm if the response then raises.
   */
  lemma InterruptedOverlap(w: World, correlation: string)
    requires Inv(w) && w.control.InReasoner? && w.m.state.Interrupted? && w.playbacks == [] && correlation != ""
    ensures var o := BackgroundOverlap(correlation, true);
      && FiresOutOfTurn(w, o)
      && Feasible(w, [o, ReasonerEnds(false)]) && Stranded(Run(w, [o, ReasonerEnds(false)]))
      && Feasible(w, [o, ReasonerRaises]) && Quiescent(Run(w, [o, ReasonerRaises]))
  {
    hide Inv, Step, Quiescent, World.OverlapStep;
    var o := BackgroundOverlap(correlation, true);
    StepKeeps(w, o);
    StepDooms(w, o);
    OverlapKeepsTask(w, correlation);
    var w1 := Step(w, o);
    EndsAfterOverlap(w1, ReasonerEnds(false));
    EndsAfterOverlap(w1, ReasonerRaises);
    RunCons(w, o, [ReasonerEnds(false)]);
    RunCons(w, o, [ReasonerRaises]);
    assert [o] + [ReasonerEnds(false)] == [o, ReasonerEnds(false)] && [o] + [ReasonerRaises] == [o, ReasonerRaises];
  }

  lemma OverlapKeepsTask(w: World, correlation: string)
    requires correlation != ""
    ensures var w1 := Step(w, BackgroundOverlap(correlation, true));
      w1.control == w.control && w1.playbacks == w.playbacks
  {
    hide DigestOf, Consistent, Follows, World.Go;
  }

  lemma EndsAfterOverlap(w: World, c: Choice)
    requires Inv(w) && Doomed(w) && w.control.InReasoner? && w.playbacks == []
    requires c == ReasonerEnds(false) || c == ReasonerRaises
    ensures Feasible(w, [c])
    ensures if c.ReasonerRaises? then Quiescent(Run(w, [c])) else Stranded(Run(w, [c]))
  {
    hide Inv, World.Fail, World.Gather, Quiescent;
    assert Enabled(w, c);
    EndsAtOnce(w);
    StepKeeps(w, c);
    StepDooms(w, c);
    DoneIsQuiescent(Step(w, c));
    RunCons(w, c, []);
    assert [c] + [] == [c];
  }

  /** Every response that completes with audio waits for its finished tasks once more, uncancelled, while it listens. */
  lemma CompletionWaits(w: World)
    requires Inv(w) && w.control.Gathering? && !w.cancelSet
    requires UnfinishedCount(w.playbacks) == 0 && !AnyBroken(w.playbacks)
    ensures var w' := Step(w, GatherReturns(false));
      w'.control.Finishing? && w'.m.state.Listening? && !w'.cancelSet
  {
    hide Base, World.Leads, Follows, DigestOf, Consistent, World.Conclude, UnfinishedCount;
    LoopStates(w);
    var c := w.response.correlation;
    var w1 := w.Say(AgentGenerationCompleted, c, ResponseDetails(w.response.id))
               .Say(AgentAudioCompleted, c, ResponseDetails(w.response.id));
    assert w.playbacks != [] ==> w.m.state.Speaking? by { AudioSpeaks(w); }
    GoShape(w1, Listening, c);
  }

  lemma AudioSpeaks(w: World)
    requires Inv(w) && w.control.Gathering? && !w.cancelSet
    ensures w.playbacks != [] && w.m.state.Speaking?
  {
    hide Backed, Timely, UnfinishedCount;
  }

  /** While a response only waits for its finished tasks, an interruption repairs what an overlap did. */
  lemma InterruptionRepairs(w: World, correlation: string)
    requires Inv(w) && w.control.Finishing? && w.m.state.Listening? && !w.cancelSet && correlation != ""
    ensures var w1 := Step(w, BackgroundOverlap(correlation, true));
      && Doomed(w1)
      && Enabled(w1, InterruptNow(correlation)) && !Doomed(Step(w1, InterruptNow(correlation)))
  {
    hide Inv, Step, World.OverlapStep;
    var o := BackgroundOverlap(correlation, true);
    StepKeeps(w, o);
    StepDooms(w, o);
    OverlapKeepsTask(w, correlation);
    assert !Step(w, o).cancelSet by { OverlapCancelsNothing(w, correlation); }
    StepDooms(Step(w, o), InterruptNow(correlation));
  }

  lemma OverlapCancelsNothing(w: World, correlation: string)
    requires correlation != ""
    ensures Step(w, BackgroundOverlap(correlation, true)).cancelSet == w.cancelSet
  {
    hide DigestOf, Consistent, Follows, World.Go;
  }

  /** Such a session exists: a turn, an interruption before the first text, and then the overlap. */
  lemma InterruptedReached(conversationId: string, at: nat -> nat, correlation: string, id: string)
    requires NonDecreasing(at) && conversationId != "" && correlation != "" && id != ""
    ensures var w0 := Initial(conversationId, at, correlation);
      var cs := [BeginResponse(correlation, id), Launch(NoCoordinator), InterruptNow(correlation)];
      && Feasible(w0, cs) && Inv(Run(w0, cs))
      && Run(w0, cs).control.InReasoner? && Run(w0, cs).m.state.Interrupted? && Run(w0, cs).playbacks == []
  {
    hide Inv, DigestOf, Consistent, Follows, World.Begin, World.Interrupt, World.Generate, World.Leads;
    var w0 := Initial(conversationId, at, correlation);
    InitialInv(conversationId, at, correlation);
    assert Enabled(w0, BeginResponse(correlation, id));
    BeginShape(w0, correlation, id);
    var w1 := w0.Begin(correlation, id);
    StepKeeps(w0, BeginResponse(correlation, id));
    GenerateShape(w1);
    var w2 := w1.Generate();
    StepKeeps(w1, Launch(NoCoordinator));
    InterruptShape(w2, correlation);
    StepKeeps(w2, InterruptNow(correlation));
    RunCons(w2, InterruptNow(correlation), []);
    RunCons(w1, Launch(NoCoordinator), [InterruptNow(correlation)]);
    RunCons(w0, BeginResponse(correlation, id), [Launch(NoCoordinator)] + [InterruptNow(correlation)]);
    assert [InterruptNow(correlation)] + [] == [InterruptNow(correlation)];
    assert [BeginResponse(correlation, id)] + ([Launch(NoCoordinator)] + [InterruptNow(correlation)])
        == [BeginResponse(correlation, id), Launch(NoCoordinator), InterruptNow(correlation)];
  }

  lemma GenerateShape(w: World)
    ensures var w' := w.Generate();
      && w'.control.InReasoner? && w'.m.state == w.m.state && w'.cancelSet == w.cancelSet && w'.playbacks == w.playbacks
  {
    hide World.Leads, Follows, DigestOf, Consistent, World.Say;
  }
}
