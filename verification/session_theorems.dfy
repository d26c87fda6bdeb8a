/** What the response/playback protocol promises, on every interleaving. */
module SessionTheorems {
  import opened Domain
  import opened StateMachine
  import opened Ledger
  import opened Audit
  import opened Protocol
  import opened Invariants
  import opened Keeps
  import opened SessionReplay
  import opened SessionFinality

  /** `cs` is a run of a session that has just been started, and `w` is where it leads. */
  ghost predicate Reaches(conversationId: string, at: nat -> nat, correlation: string, cs: seq<Choice>, w: World) {
    && NonDecreasing(at) && conversationId != "" && correlation != ""
    && Feasible(Initial(conversationId, at, correlation), cs)
    && w == Run(Initial(conversationId, at, correlation), cs)
  }

  lemma ReachesSound(conversationId: string, at: nat -> nat, correlation: string, cs: seq<Choice>, w: World)
    requires Reaches(conversationId, at, correlation, cs, w)
    ensures Sound(w)
  {
    hide Run, Feasible, Sound, Initial;
    InitialSound(conversationId, at, correlation);
    RunSound(Initial(conversationId, at, correlation), cs);
  }

  // ----- background speech out of turn -----

  /** A background overlap that gets through between turns or after an interruption. */
  predicate FiresOutOfTurn(w: World, c: Choice) {
    c.BackgroundOverlap? && c.acousticEpisode && w.m.state in {Listening, Interrupted}
  }

  predicate NeverOutOfTurn(w: World, cs: seq<Choice>)
    requires Feasible(w, cs)
    decreases cs
  {
    cs == [] || (!FiresOutOfTurn(w, cs[0]) && NeverOutOfTurn(Step(w, cs[0]), cs[1..]))
  }

  /** The states a session can be in at an await point. */
  lemma AwaitStates(w: World)
    requires Inv(w)
    ensures w.m.state in {Listening, Thinking, Speaking, Interrupted, ToolWait, Handoff}
    ensures w.m.state.Thinking? ==> w.playbacks == []
    ensures w.m.state.Speaking? && !Stray(w) ==> !w.control.Done? && !w.cancelSet && w.m.Current(w.response.token)
  {
    hide Backed, Timely, UnfinishedCount;
  }

  lemma OverlapShape(w: World, correlation: string, acousticEpisode: bool)
    requires w.m.state in {Listening, Thinking, Speaking, Interrupted, ToolWait, Handoff}
    ensures var w' := w.OverlapStep(correlation, acousticEpisode);
      && w'.control == w.control && w'.cancelSet == w.cancelSet
      && (w'.m.state.Speaking? <==>
            w.m.state.Speaking? || (acousticEpisode && w.m.state in {Listening, Interrupted}))
      && (w'.m.state == w.m.state || w'.m.state.Speaking?)
      && (w'.strayed <==> w.strayed || (acousticEpisode && w.m.state in {Listening, Interrupted}))
  {
    hide World.Go;
    if w.m.CanMove(Overlap) {
      GoShape(w, Overlap, correlation);
      GoShape(w.Go(Overlap, correlation), Speaking, correlation);
    }
  }

  lemma CallerStates(w: World, c: Choice)
    requires Inv(w) && Enabled(w, c)
    requires c.ConfirmTurn? || c.BeginResponse? || c.InterruptNow? || c.BackgroundOverlap? || c.Telemetry?
    ensures var w' := Step(w, c);
      && (w'.strayed <==> w.strayed || FiresOutOfTurn(w, c))
      && (w'.m.state.Speaking? ==> w.m.state.Speaking? || FiresOutOfTurn(w, c))
  {
    hide World.Interrupt, World.Begin, World.OverlapStep, World.Leads, World.Winds, Follows, Inv;
    AwaitStates(w);
    match c
    case ConfirmTurn(correlation) =>
      var w1 := w.Say(TurnConfirmed, correlation, NoDetails);
      if !w1.control.Done? && !w1.cancelSet { InterruptShape(w1, correlation); } else { InterruptIdle(w1, correlation); }
    case InterruptNow(correlation) =>
      if !w.control.Done? && !w.cancelSet { InterruptShape(w, correlation); } else { InterruptIdle(w, correlation); }
    case BeginResponse(correlation, id) =>
      if w.control.Done? && w.m.state.Listening? { BeginShape(w, correlation, id); } else { BeginIdle(w, correlation, id); }
    case BackgroundOverlap(correlation, acoustic) => OverlapShape(w, correlation, acoustic);
    case _ =>
  }

  /** A complete turn cancels a live response that has not begun to speak, and leaves any other one alone. */
  lemma TurnTakesOver(w: World, correlation: string)
    requires Inv(w) && correlation != ""
    ensures var w' := Step(w, ConfirmTurn(correlation));
      if w.m.state.Thinking? && !w.cancelSet then
        w' == w.(m := w'.m, cancelCorrelation := Some(correlation), cancelSet := true, cancelled := w.cancelled + {w.response.id})
        && w'.m.state.Interrupted?
      else w' == w.(m := w'.m) && w'.m.state == w.m.state
  {
    hide World.Interrupt, World.Say, Base;
    var w1 := w.Say(TurnConfirmed, correlation, NoDetails);
    if !w1.control.Done? && !w1.cancelSet { InterruptShape(w1, correlation); } else { InterruptIdle(w1, correlation); }
  }

  /** Speech of a cancelled response that still arrives changes no state. */
  lemma CancelledSaysNothing(w: World, c: Choice)
    requires Inv(w) && Enabled(w, c) && (c.SynthYields? || c.CapacityFrees?) && w.cancelSet
    ensures Step(w, c).m.state == w.m.state
  {
    hide DigestOf, Consistent, World.TakeOwnership, World.Pass, UnfinishedCount, Backed, Timely;
  }

  /**
   * A session starts to speak only by admitting the first audio of its live, uncancelled response
   * while the token of that response is current, or by a background overlap out of turn; and
   * nothing else ever counts as out of turn.
   */
  lemma EntersSpeaking(w: World, c: Choice)
    requires Inv(w) && Enabled(w, c)
    ensures var w' := Step(w, c);
      && (w'.strayed <==> w.strayed || FiresOutOfTurn(w, c))
      && (w'.m.state.Speaking? ==>
            || w.m.state.Speaking?
            || FiresOutOfTurn(w, c)
            || (&& (c.SynthYields? || c.CapacityFrees?) && w.response.firstAudio && !w.cancelSet
                && w.m.Current(w.response.token)))
  {
    hide Inv, Step, DigestOf, Consistent, World.Winds;
    if c.ConfirmTurn? || c.BeginResponse? || c.InterruptNow? || c.BackgroundOverlap? || c.Telemetry? {
      CallerStates(w, c);
    } else if c.PlaybackStarts? || c.PlaybackAdvances? || c.ObserverReturns? || c.PlaybackRaises? {
      PlaybackFrame(w, c);
    } else if c.SynthYields? || c.CapacityFrees? {
      GatesStates(w, c);
    } else if c.StreamCloses? && w.RetryDue(w.control.cause, c.raises) {
      RetryStates(w, c);
    } else {
      TaskLeads(w, c);
    }
  }

  lemma GatesStates(w: World, c: Choice)
    requires Inv(w) && Enabled(w, c) && (c.SynthYields? || c.CapacityFrees?)
    ensures Step(w, c).strayed == w.strayed
    ensures if w.cancelSet then Step(w, c).m.state == w.m.state
            else w.m.Current(w.response.token) && (w.m.state.Speaking? || w.response.firstAudio)
  {
    hide DigestOf, Consistent, World.ChunkArrives, World.CapacityFreed, UnfinishedCount, Backed, Timely,
         World.Winds, World.Enlists;
    if w.cancelSet { CancelledSaysNothing(w, c); }
    assert w.Gates(Step(w, c), ChunkOf(w, c));
  }

  lemma RetryStates(w: World, c: Choice)
    requires Enabled(w, c) && c.StreamCloses? && w.RetryDue(w.control.cause, c.raises)
    ensures Step(w, c).m.state == w.m.state && Step(w, c).strayed == w.strayed
  {
    hide DigestOf, Consistent, World.StreamClosed, Follows;
  }

  lemma {:induction false} RunStrays(w: World, cs: seq<Choice>)
    requires Inv(w) && Feasible(w, cs)
    ensures Run(w, cs).strayed <==> w.strayed || !NeverOutOfTurn(w, cs)
    decreases cs
  {
    hide Inv, Step, Enabled, FiresOutOfTurn;
    if cs != [] {
      StepKeeps(w, cs[0]);
      EntersSpeaking(w, cs[0]);
      RunStrays(Step(w, cs[0]), cs[1..]);
    }
  }

  // ----- quiescence -----

  /** Nothing of an ended response lingers, and a new turn or a hand-over is possible. */
  ghost predicate Quiescent(w: World) {
    && w.m.state in {Listening, Handoff}
    && (forall c | c in w.ledger.entries ::
          w.ledger.entries[c].state in {Played, Cancelled, PlaybackUnconfirmed})
    && w.owner.None? && w.provider.None?
    && w.audioStopped
    && NoneUnfinished(w.playbacks)
  }

  /** No response task runs and the session speaks: nothing will ever make it listen again. */
  predicate Stranded(w: World) { w.control.Done? && w.m.state.Speaking? }

  lemma DoneIsQuiescent(w: World)
    requires Inv(w) && w.control.Done?
    ensures Quiescent(w) <==> !Stranded(w)
    ensures Stranded(w) ==> w.strayed
  {
    hide UnfinishedCount;
    forall c | c in w.ledger.entries ensures w.ledger.entries[c].state in {Played, Cancelled, PlaybackUnconfirmed} {
      assert !w.ledger.entries[c].Open();
    }
  }

  /**
   * However a response task ends, it raises nothing it may not raise. Whenever none runs, the
   * session is quiescent unless it is stranded, and on a run without a background overlap out of
   * turn it is quiescent.
   */
  lemma Quiescence(conversationId: string, at: nat -> nat, correlation: string, cs: seq<Choice>, w: World)
    requires Reaches(conversationId, at, correlation, cs, w)
    ensures !w.fault
    ensures w.control.Done? ==> (Quiescent(w) <==> !Stranded(w))
    ensures w.control.Done? && NeverOutOfTurn(Initial(conversationId, at, correlation), cs) ==> Quiescent(w)
  {
    hide Run, Feasible, Quiescent, Stranded, NeverOutOfTurn;
    ReachesSound(conversationId, at, correlation, cs, w);
    InitialInv(conversationId, at, correlation);
    RunStrays(Initial(conversationId, at, correlation), cs);
    if w.control.Done? { DoneIsQuiescent(w); }
  }

  lemma StaysStranded(w: World, c: Choice)
    requires Inv(w) && Stranded(w) && Enabled(w, c)
    ensures Stranded(Step(w, c))
  {
    hide DigestOf, Consistent, Backed, Timely, World.Interrupt, World.Begin, UnfinishedCount;
    match c
    case ConfirmTurn(correlation) => InterruptIdle(w.Say(TurnConfirmed, correlation, NoDetails), correlation);
    case InterruptNow(correlation) => InterruptIdle(w, correlation);
    case BeginResponse(correlation, id) => BeginIdle(w, correlation, id);
    case BackgroundOverlap(correlation, acoustic) => OverlapReturns(w, correlation, acoustic);
    case _ =>
  }

  lemma OverlapReturns(w: World, correlation: string, acousticEpisode: bool)
    requires w.m.state.Speaking?
    ensures w.OverlapStep(correlation, acousticEpisode).m.state.Speaking?
    ensures w.OverlapStep(correlation, acousticEpisode).control == w.control
  {
    hide DigestOf, Consistent, Follows;
  }

  /** A stranded session stays stranded on every continuation. */
  lemma {:induction false} StrandedForever(w: World, cs: seq<Choice>)
    requires Inv(w) && Stranded(w) && Feasible(w, cs)
    ensures Stranded(Run(w, cs))
    decreases cs
  {
    hide Inv, Step, Enabled, Stranded;
    if cs != [] {
      StepKeeps(w, cs[0]);
      StaysStranded(w, cs[0]);
      StrandedForever(Step(w, cs[0]), cs[1..]);
    }
  }

  /** Between turns a background overlap strands the session exactly when it fires out of turn. */
  lemma OverlapStrands(w: World, c: Choice)
    requires Inv(w) && w.control.Done? && w.m.state.Listening? && c.BackgroundOverlap? && Enabled(w, c)
    ensures Stranded(Step(w, c)) <==> FiresOutOfTurn(w, c)
  {
    hide DigestOf, Consistent, Inv, Follows;
  }

  /** So a session that has only just started can be stranded by its very first event. */
  lemma FirstOverlapStrands(conversationId: string, at: nat -> nat, correlation: string)
    requires NonDecreasing(at) && conversationId != "" && correlation != ""
    ensures var w := Initial(conversationId, at, correlation);
      var c := BackgroundOverlap(correlation, true);
      Feasible(w, [c]) && Stranded(Run(w, [c]))
  {
    hide Inv, Follows, DigestOf, Consistent;
    var w := Initial(conversationId, at, correlation);
    InitialInv(conversationId, at, correlation);
    OverlapStrands(w, BackgroundOverlap(correlation, true));
  }

  // ----- progress -----

  /** Choices of callers; all others belong to the response task, its providers and its sinks. */
  predicate CallerChoice(c: Choice) {
    c.ConfirmTurn? || c.BeginResponse? || c.InterruptNow? || c.BackgroundOverlap? || c.Telemetry?
  }

  /** What an unfinished playback task does next. */
  function Onwards(w: World, i: nat): Choice
    requires i < |w.playbacks|
  {
    match w.playbacks[i].phase
    case Pending => PlaybackStarts(i)
    case Sleeping => PlaybackAdvances(i, 1, true)
    case _ => ObserverReturns(i)
  }

  lemma UnfinishedMoves(w: World, i: nat)
    requires Inv(w) && i < |w.playbacks| && Unfinished(w.playbacks[i])
    ensures Enabled(w, Onwards(w, i)) && !CallerChoice(Onwards(w, i))
  {
    hide Timely, UnfinishedCount, Where, Valid;
    assert Matches(w.ledger.entries[w.playbacks[i].chunkId], w.playbacks[i], w.cancelSet);
  }

  /** What the response task itself does next, where it does not wait for its playback tasks. */
  function Ahead(w: World): Choice {
    match w.control
    case Created => Launch(NoCoordinator)
    case InTool => ToolReturns(true, false)
    case InReasoner => ReasonerEnds(false)
    case InSynth => SynthEnds
    case InCapacity(_) => CapacityFrees
    case Closing(_) => StreamCloses(false)
    case Gathering => GatherReturns(false)
    case _ => PlaybacksSettle
  }

  /**
   * No response ever waits for something that cannot happen: without any caller either the
   * response task can go on, or one of the playback tasks it waits for can.
   */
  lemma NeverStuck(w: World)
    requires Inv(w) && !w.control.Done?
    ensures exists c :: Enabled(w, c) && !CallerChoice(c)
    ensures !Enabled(w, Ahead(w)) ==> exists i | 0 <= i < |w.playbacks| :: Enabled(w, Onwards(w, i)) && Unfinished(w.playbacks[i])
  {
    hide Base, UnfinishedCount;
    if !Enabled(w, Ahead(w)) {
      CountBounds(w.playbacks);
      var i :| 0 <= i < |w.playbacks| && Unfinished(w.playbacks[i]);
      UnfinishedMoves(w, i);
    } else {
      assert !CallerChoice(Ahead(w));
    }
  }

  // ----- single owner -----

  /**
   * At every await point whatever is queued or playing belongs to the one live response, which
   * owns the sink; at most two of its tasks are unfinished; and every running counter is bounded.
   */
  lemma SingleOwner(conversationId: string, at: nat -> nat, correlation: string, cs: seq<Choice>, w: World)
    requires Reaches(conversationId, at, correlation, cs, w)
    ensures forall c | c in w.ledger.entries && w.ledger.entries[c].Open() ::
              && w.ledger.entries[c].responseId == w.response.id
              && w.owner == Some(w.response.id)
              && !w.control.Done? && !w.response.failed
    ensures UnfinishedCount(w.playbacks) <= 2
    ensures w.response.retries <= 1 && w.response.toolRuns <= 1 && w.response.reasonerRuns <= 1
  {
    hide Run, Feasible, Initial;
    ReachesSound(conversationId, at, correlation, cs, w);
    forall c | c in w.ledger.entries && w.ledger.entries[c].Open()
      ensures w.ledger.entries[c].responseId == w.response.id && w.owner == Some(w.response.id)
      ensures !w.control.Done? && !w.response.failed
    {
      OpenIsOwned(w, c);
    }
    BoundedInv(w);
  }

  lemma OpenIsOwned(w: World, c: string)
    requires Inv(w) && c in w.ledger.entries && w.ledger.entries[c].Open()
    ensures w.ledger.entries[c].responseId == w.response.id && w.owner == Some(w.response.id)
    ensures !w.control.Done? && !w.response.failed
  {
    hide Timely, UnfinishedCount, Valid;
    assert Tracked(w.playbacks, c);
  }

  lemma BoundedInv(w: World)
    requires Inv(w)
    ensures Bounded(w)
  {
    hide Backed, Timely, Where, Bounded;
  }

  // ----- retries -----

  /** Has the ledger ever heard of this response? */
  predicate HasAudio(w: World, id: string) {
    exists c | c in w.ledger.entries :: w.ledger.entries[c].responseId == id
  }

  /**
   * A step that retries speech finds a live response that is not cancelled, has no audio in the
   * ledger and has not retried before; no other step of the response counts a retry.
   */
  lemma RetriesOnlySilent(w: World, c: Choice)
    requires Inv(w) && Enabled(w, c) && !c.BeginResponse?
    ensures Step(w, c).response.retries != w.response.retries ==>
              && c.StreamCloses? && !w.cancelSet && w.response.firstAudio && w.response.retries == 0
              && !HasAudio(w, w.response.id)
              && Step(w, c).response.retries == 1
  {
    hide Inv, Step, DigestOf, Consistent, World.Winds, HasAudio, World.Enlists;
    if c.ConfirmTurn? || c.InterruptNow? || c.BackgroundOverlap? || c.Telemetry? {
      CallerRetries(w, c);
    } else if c.PlaybackStarts? || c.PlaybackAdvances? || c.ObserverReturns? || c.PlaybackRaises? {
      PlaybackFrame(w, c);
    } else if c.SynthYields? || c.CapacityFrees? {
      assert w.SameIdentity(Step(w, c)) by { GatesIdentity(w, c); }
    } else if c.StreamCloses? && w.RetryDue(w.control.cause, c.raises) {
      RetrySilent(w, c);
    } else {
      TaskLeads(w, c);
    }
  }

  lemma CallerRetries(w: World, c: Choice)
    requires Enabled(w, c) && (c.ConfirmTurn? || c.InterruptNow? || c.BackgroundOverlap? || c.Telemetry?)
    ensures Step(w, c).response == w.response
  {
    hide DigestOf, Consistent, World.Interrupt, World.Go;
    match c
    case ConfirmTurn(correlation) =>
      var w1 := w.Say(TurnConfirmed, correlation, NoDetails);
      if !w1.control.Done? && !w1.cancelSet { InterruptShape(w1, correlation); } else { InterruptIdle(w1, correlation); }
    case InterruptNow(correlation) =>
      if !w.control.Done? && !w.cancelSet { InterruptShape(w, correlation); } else { InterruptIdle(w, correlation); }
    case _ =>
  }

  lemma GatesIdentity(w: World, c: Choice)
    requires Enabled(w, c) && (c.SynthYields? || c.CapacityFrees?)
    ensures w.SameIdentity(Step(w, c))
  {
    hide DigestOf, Consistent, World.ChunkArrives, World.CapacityFreed, World.Winds, World.Enlists, Listed;
    assert w.Gates(Step(w, c), ChunkOf(w, c));
  }

  lemma AudioHasTask(w: World)
    requires Inv(w)
    ensures HasAudio(w, w.response.id) ==> w.playbacks != []
  {
    hide Timely, UnfinishedCount, Valid, Where;
    if HasAudio(w, w.response.id) {
      var c :| c in w.ledger.entries && w.ledger.entries[c].responseId == w.response.id;
      assert Tracked(w.playbacks, c);
    }
  }

  lemma RetrySilent(w: World, c: Choice)
    requires Inv(w) && Enabled(w, c) && c.StreamCloses? && w.RetryDue(w.control.cause, c.raises)
    ensures !w.cancelSet && w.response.firstAudio && w.response.retries == 0 && !HasAudio(w, w.response.id)
    ensures Step(w, c).response.retries == 1
  {
    hide DigestOf, Consistent, Timely, UnfinishedCount, Valid, HasAudio, World.Fail, World.NextSegment, World.Gather;
    AudioHasTask(w);
  }

  // ----- a cancellation is final, and the ledger tells the truth -----

  /**
   * Once a response is cancelled, no continuation registers, queues or schedules a chunk of it,
   * and no sink consumes another sample of it.
   */
  lemma CancellationIsFinal(conversationId: string, at: nat -> nat, correlation: string, cs: seq<Choice>, w: World,
                            ds: seq<Choice>, rid: string)
    requires Reaches(conversationId, at, correlation, cs, w) && Feasible(w, ds) && rid in w.cancelled
    ensures FinalFor(w, Run(w, ds), rid)
    ensures var w' := Run(w, ds);
      && ScheduledIn(w.m.log) <= ScheduledIn(w'.m.log)
      && (forall k | |ScheduledIn(w.m.log)| <= k < |ScheduledIn(w'.m.log)| ::
            && ScheduledIn(w'.m.log)[k] in w'.ledger.entries
            && w'.ledger.entries[ScheduledIn(w'.m.log)[k]].responseId != rid)
  {
    hide Run, Feasible, Initial, Inv, Auditable, Heard, DigestOf, Listed;
    ReachesSound(conversationId, at, correlation, cs, w);
    RunSound(w, ds);
    RunFinal(w, ds, rid);
    var w' := Run(w, ds);
    ScheduledDigest(w.m);
    ScheduledDigest(w'.m);
    BackedListed(w, 0);
    BackedListed(w', 0);
    assert forall k | |w.ledger.order| <= k < |w'.ledger.order| ::
      w'.ledger.order[k] in w'.ledger.entries && w'.ledger.entries[w'.ledger.order[k]].responseId != rid by {
      NewIsForeign(w, w', rid);
    }
  }

  lemma ScheduledDigest(m: Machine)
    ensures DigestOf(m).scheduled == ScheduledIn(m.log)
  {
  }

  lemma NewIsForeign(w: World, w': World, rid: string)
    requires FinalFor(w, w', rid) && Listed(w.ledger) && Listed(w'.ledger)
    ensures forall k | |w.ledger.order| <= k < |w'.ledger.order| ::
              w'.ledger.order[k] in w'.ledger.entries && w'.ledger.entries[w'.ledger.order[k]].responseId != rid
  {
    forall k | |w.ledger.order| <= k < |w'.ledger.order|
      ensures w'.ledger.order[k] in w'.ledger.entries && w'.ledger.entries[w'.ledger.order[k]].responseId != rid
    {
      var c := w'.ledger.order[k];
      forall j | 0 <= j < |w.ledger.order| ensures w.ledger.order[j] != c {
        assert w'.ledger.order[j] == w.ledger.order[j];
      }
      assert c !in w.ledger.order;
    }
  }

  /**
   * At every await point the ledger never claims more than was heard: a settled entry claims
   * exactly what its sink consumed, and a fully delivered one was consumed to its last sample.
   */
  lemma PlayedTruth(conversationId: string, at: nat -> nat, correlation: string, cs: seq<Choice>, w: World)
    requires Reaches(conversationId, at, correlation, cs, w)
    ensures forall c | c in w.ledger.entries ::
              var e := w.ledger.entries[c];
              && e.played <= Consumed(w, c) <= e.total
              && (e.state.Played? || e.state.Cancelled? ==> e.played == Consumed(w, c))
              && (e.FullyDelivered() ==> Consumed(w, c) == e.total)
  {
    hide Run, Feasible, Initial, Inv, Auditable, Scheduled;
    ReachesSound(conversationId, at, correlation, cs, w);
    BackedValid(w);
    forall c | c in w.ledger.entries
      ensures w.ledger.entries[c].played <= Consumed(w, c) <= w.ledger.entries[c].total
    {
      assert SoundEntry(w.ledger.entries[c]) && HeardEntry(w.ledger.entries[c], Consumed(w, c));
    }
  }
}
