/** What a session tells: the kinds of events of every step, each with the correlation it is told under. */
module SessionEvents {
  import opened Domain
  import opened StateMachine
  import opened Ledger
  import opened Protocol
  import opened Invariants
  import opened Keeps
  import opened SessionReplay
  import opened SessionFinality
  import opened SessionTheorems
  import opened SessionStranding
  import opened SessionAdmission

  type Telling = (EventType, string)

  /** Kind and correlation of every event of a stream. */
  function Kinds(log: seq<Event>): seq<Telling> {
    if log == [] then []
    else
      var e := log[|log| - 1];
      Kinds(log[..|log| - 1]) + (if e.Event? then [(e.eventType, e.correlationId)] else [])
  }

  /** What the second machine has told beyond the first. */
  ghost predicate Tells(m: Machine, m': Machine, told: seq<Telling>) { Kinds(m'.log) == Kinds(m.log) + told }

  lemma RecordTells(m: Machine, kind: EventType, correlation: string, payload: Payload)
    ensures Kinds(m.Record(kind, correlation, payload).log) == Kinds(m.log) + [(kind, correlation)]
  {
    var e := Event(m.conversationId, correlation, m.sequence + 1, m.clock.Now(), kind, m.state, payload);
    assert (m.log + [e])[..|m.log|] == m.log;
  }

  lemma SayTells(w: World, kind: EventType, correlation: string, payload: Payload)
    ensures Tells(w.m, w.Say(kind, correlation, payload).m, [(kind, correlation)])
  {
    RecordTells(w.m, kind, correlation, payload);
  }

  lemma GoTells(w: World, target: ConversationState, correlation: string)
    ensures Tells(w.m, w.Go(target, correlation).m, if w.m.CanMove(target) then [(StateTransitioned, correlation)] else [])
  {
    if w.m.CanMove(target) {
      RecordTells(w.m.(state := target, revision := w.m.revision + 1), StateTransitioned, correlation,
                  TransitionDetails(Some(w.m.state), Some(target)));
    }
  }

  lemma InvalidateTells(w: World, correlation: string)
    ensures Tells(w.m, w.Invalidate(correlation).m, [(OperationInvalidated, correlation)])
  {
    RecordTells(w.m.(epoch := w.m.epoch + 1), OperationInvalidated, correlation, NoDetails);
  }

  lemma NothingTells(m: Machine)
    ensures Tells(m, m, [])
  {
  }

  lemma ThenTells(m0: Machine, m1: Machine, m2: Machine, a: seq<Telling>, b: seq<Telling>)
    requires Tells(m0, m1, a) && Tells(m1, m2, b)
    ensures Tells(m0, m2, a + b)
  {
  }

  // ----- callers -----

  /** An interruption that finds a live, uncancelled response. */
  function ToldByInterrupt(w: World, correlation: string): seq<Telling> {
    if w.control.Done? || w.cancelSet then []
    else
      ToldByEntering(w.m.state, correlation)
      + [(OperationInvalidated, correlation), (InterruptionConfirmed, correlation), (AudioCancelSignal, correlation)]
  }

  /** How an interruption enters the interrupted state; only speech announces a candidate. */
  function ToldByEntering(state: ConversationState, c: string): seq<Telling> {
    match state
    case Speaking => [(StateTransitioned, c), (InterruptionCandidate, c), (StateTransitioned, c)]
    case Thinking => [(StateTransitioned, c)]
    case PossibleInterruption => [(StateTransitioned, c)]
    case Overlap => [(StateTransitioned, c)]
    case _ => []
  }

  lemma EnterTells(w: World, c: string)
    ensures Tells(w.m, w.EnterInterrupted(c).m, ToldByEntering(w.m.state, c))
  {
    hide Follows, Announces, World.Say, World.Go, Kinds;
    GoTells(w, Interrupted, c);
    NothingTells(w.m);
    if w.m.state.Speaking? {
      GoTells(w, PossibleInterruption, c);
      GoShape(w, PossibleInterruption, c);
      var w1 := w.Go(PossibleInterruption, c);
      SayTells(w1, InterruptionCandidate, c, NoDetails);
      var w2 := w1.Announce(c);
      GoTells(w2, Interrupted, c);
      ThenTells(w.m, w1.m, w2.m, [(StateTransitioned, c)], [(InterruptionCandidate, c)]);
      ThenTells(w.m, w2.m, w2.Go(Interrupted, c).m,
                [(StateTransitioned, c)] + [(InterruptionCandidate, c)], [(StateTransitioned, c)]);
    }
  }

  lemma SignalTells(w: World, c: string)
    ensures Tells(w.m, w.SignalCancel(c).m, [(OperationInvalidated, c), (InterruptionConfirmed, c), (AudioCancelSignal, c)])
  {
    hide Follows, World.Say, World.Invalidate, Kinds;
    var w1 := w.Invalidate(c);
    var w2 := w1.Say(InterruptionConfirmed, c, NoDetails).(cancelled := w.cancelled + {w.response.id});
    InvalidateTells(w, c);
    SayTells(w1, InterruptionConfirmed, c, NoDetails);
    SayTells(w2, AudioCancelSignal, c, ResponseDetails(w.response.id));
    ThenTells(w.m, w1.m, w2.m, [(OperationInvalidated, c)], [(InterruptionConfirmed, c)]);
    ThenTells(w.m, w2.m, w.SignalCancel(c).m, [(OperationInvalidated, c)] + [(InterruptionConfirmed, c)], [(AudioCancelSignal, c)]);
  }

  lemma InterruptTells(w: World, correlation: string)
    ensures Tells(w.m, w.Interrupt(correlation).m, ToldByInterrupt(w, correlation))
  {
    hide Follows, Announces, World.EnterInterrupted, World.SignalCancel, Kinds, Tells;
    NothingTells(w.m);
    if !w.control.Done? && !w.cancelSet {
      var w0 := w.(cancelCorrelation := Some(correlation));
      EnterTells(w0, correlation);
      SignalTells(w0.EnterInterrupted(correlation), correlation);
      ThenTells(w.m, w0.EnterInterrupted(correlation).m, w.Interrupt(correlation).m, ToldByEntering(w.m.state, correlation),
                [(OperationInvalidated, correlation), (InterruptionConfirmed, correlation), (AudioCancelSignal, correlation)]);
    }
  }

  /** Something told, or nothing. */
  function If(b: bool, told: seq<Telling>): seq<Telling> { if b then told else [] }

  // ----- the end of a response -----

  /** A response that owns the sink gives it up, and unpins its provider first. */
  function ToldByRelease(w: World): seq<Telling> {
    var c := w.response.correlation;
    If(w.owner == Some(w.response.id), If(w.provider.Some?, [(OtherEvent, c)]) + [(PlaybackOwnerDestroyed, c)])
  }

  lemma ReleaseTells(w: World)
    ensures Tells(w.m, w.ReleaseOwner().m, ToldByRelease(w))
  {
    hide Follows, World.Leads, World.Say, Kinds, Tells;
    var c, details := w.response.correlation, ResponseDetails(w.response.id);
    NothingTells(w.m);
    SayTells(w, OtherEvent, c, details);
    var w1 := if w.provider.Some? then w.Say(OtherEvent, c, details) else w;
    SayTells(w1, PlaybackOwnerDestroyed, c, details);
    ThenTells(w.m, w1.m, w1.Say(PlaybackOwnerDestroyed, c, details).m,
              If(w.provider.Some?, [(OtherEvent, c)]), [(PlaybackOwnerDestroyed, c)]);
  }

  /** What remains of a response ends silently, or listening again. */
  function ToldByEnd(w: World): seq<Telling> {
    var c := w.response.correlation;
    if w.cancelSet then If(w.m.state in {Interrupted, Thinking}, [(StateTransitioned, c)])
    else If(w.m.state.Thinking?, [(RecoveryStarted, c), (StateTransitioned, c), (RecoveryCompleted, c)])
  }

  lemma SameLog(m: Machine, m': Machine)
    requires m'.log == m.log
    ensures Tells(m, m', [])
  {
  }

  lemma QuietTells(w: World)
    ensures w.Tick().CancelRest(w.m.clock.Now()).m == w.m.Tick() && Tells(w.m, w.m.Tick(), [])
  {
    hide World.Leads, World.Winds, Follows, CancelFrom;
    SameLog(w.m, w.m.Tick());
  }

  lemma EndTells(w: World)
    ensures Tells(w.m, w.EndState().m, ToldByEnd(w))
  {
    hide Follows, World.Leads, World.EndCancelled, World.EndSilent, Kinds, Tells;
    NothingTells(w.m);
    if w.cancelSet { EndCancelledTells(w); } else if w.m.state.Thinking? { EndSilentTells(w); }
  }

  lemma EndCancelledTells(w: World)
    ensures Tells(w.m, w.EndCancelled().m, If(w.m.state in {Interrupted, Thinking}, [(StateTransitioned, w.response.correlation)]))
  {
    hide Follows, World.Leads, World.Winds, World.Go, World.CancelRest, Kinds;
    var w1 := w.Tick().CancelRest(w.m.clock.Now());
    QuietTells(w);
    GoTells(w1, Listening, w.response.correlation);
  }

  lemma EndSilentTells(w: World)
    requires w.m.state.Thinking?
    ensures var c := w.response.correlation;
      Tells(w.m, w.EndSilent().m, [(RecoveryStarted, c), (StateTransitioned, c), (RecoveryCompleted, c)])
  {
    hide Follows, World.Leads, World.Winds, World.Say, World.Go, World.CancelRest, Kinds;
    var c, details := w.response.correlation, ResponseDetails(w.response.id);
    var w1 := w.Tick().CancelRest(w.m.clock.Now());
    QuietTells(w);
    var w2 := w1.Say(RecoveryStarted, c, details);
    SayTells(w1, RecoveryStarted, c, details);
    var w3 := w2.Go(Listening, c);
    GoTells(w2, Listening, c);
    SayTells(w3, RecoveryCompleted, c, details);
    var w4 := w3.Say(RecoveryCompleted, c, details);
    assert Kinds(w3.m.log) == Kinds(w2.m.log) + [(StateTransitioned, c)];
  }

  function ToldByConclude(w: World): seq<Telling> { ToldByEnd(w) + ToldByRelease(w) }

  lemma ConcludeTells(w: World)
    ensures Tells(w.m, w.Conclude().m, ToldByConclude(w))
  {
    hide Follows, World.Leads, World.ReleaseOwner, World.EndState, Kinds, Tells, ToldByRelease, ToldByEnd;
    EndTells(w);
    var w1 := w.EndState();
    EndOwner(w);
    var w2 := w1.(fault := w1.fault || !w1.LedgerChecked());
    ReleaseTells(w2);
    ThenTells(w.m, w1.m, w2.ReleaseOwner().m, ToldByEnd(w), ToldByRelease(w2));
  }

  lemma EndOwner(w: World)
    ensures var w1 := w.EndState();
      forall fault: bool :: ToldByRelease(w1.(fault := fault)) == ToldByRelease(w)
  {
    hide World.EndState, World.Leads;
    EndStateShape(w);
  }

  function ToldByFinally(w: World): seq<Telling> { If(w.playbacks == [], ToldByConclude(w)) }

  lemma FinallyTells(w: World)
    ensures Tells(w.m, w.Finally().m, ToldByFinally(w))
  {
    hide World.Conclude, World.Leads, Kinds, Tells, ToldByConclude;
    NothingTells(w.m);
    ConcludeTells(w);
  }

  // ----- recovery -----

  /** The exception handler: operations are invalidated, the state is left and entered again, lost audio is admitted. */
  function ToldByRecovery(w: World): seq<Telling> {
    var c := w.response.correlation;
    var moves := If(w.m.state in {Thinking, Speaking}, [(StateTransitioned, c)]);
    [(OperationInvalidated, c), (RecoveryStarted, c)] + moves
    + If(Unconfirm(w.ledger, w.response.id).1, [(AudioStopUnconfirmed, c)]) + moves + [(RecoveryCompleted, c)]
  }

  lemma BeginRecoveryTells(w: World)
    ensures var c := w.response.correlation;
      Tells(w.m, w.BeginRecovery().m,
            [(OperationInvalidated, c), (RecoveryStarted, c)] + If(w.m.state in {Thinking, Speaking}, [(StateTransitioned, c)]))
  {
    hide Follows, World.Leads, World.Winds, World.Say, World.Go, World.Invalidate, Kinds;
    var c, details := w.response.correlation, ResponseDetails(w.response.id);
    var w0 := w.(cancelSet := true, response := w.response.(failed := true));
    InvalidateTells(w0, c);
    var w1 := w0.Invalidate(c);
    SayTells(w1, RecoveryStarted, c, details);
    var w2 := w1.Say(RecoveryStarted, c, details);
    GoTells(w2, Recovering, c);
  }

  lemma EndRecoveryTells(w: World, unconfirmed: bool)
    ensures var c := w.response.correlation;
      Tells(w.m, w.EndRecovery(unconfirmed).m,
            If(unconfirmed, [(AudioStopUnconfirmed, c)]) + If(w.m.state.Recovering?, [(StateTransitioned, c)])
            + [(RecoveryCompleted, c)])
  {
    hide Follows, World.Leads, World.Winds, World.Say, World.Go, Kinds;
    var c, details := w.response.correlation, ResponseDetails(w.response.id);
    SayTells(w, AudioStopUnconfirmed, c, details);
    var w1 := if unconfirmed then w.Say(AudioStopUnconfirmed, c, details) else w;
    var target := if unconfirmed then Handoff else Listening;
    GoTells(w1, target, c);
    var w2 := if w1.m.state.Recovering? then w1.Go(target, c) else w1;
    SayTells(w2, RecoveryCompleted, c, details);
  }

  lemma RecoveryTells(w: World)
    requires w.m.state in {Thinking, Speaking, Interrupted}
    ensures Tells(w.m, w.Recover().m, ToldByRecovery(w))
  {
    hide World.Leads, World.Winds, Follows, CancelFrom, Unconfirm, World.BeginRecovery, World.EndRecovery, Kinds;
    var w0 := w.Tick();
    SameLog(w.m, w0.m);
    BeginRecoveryShape(w0);
    BeginRecoveryTells(w0);
    var w1 := w0.BeginRecovery();
    EndRecoveryTells(w1.SettleFailed(w.m.clock.Now()), Unconfirm(w.ledger, w.response.id).1);
  }

  /** Recovery, and the end of the response if no playback is left to wait for. */
  function ToldByFail(w: World): seq<Telling> {
    var c := w.response.correlation;
    ToldByRecovery(w)
    + If(w.playbacks == [], If(w.m.state.Interrupted?, [(StateTransitioned, c)]) + ToldByRelease(w))
  }

  lemma FailTells(w: World)
    requires w.m.state in {Thinking, Speaking, Interrupted}
    ensures Tells(w.m, w.Fail().m, ToldByFail(w))
  {
    hide World.Leads, World.Recover, World.Finally, CancelFrom, Unconfirm, Kinds, ToldByRecovery;
    RecoveryTells(w);
    RecoverShape(w);
    FinallyTells(w.Recover());
  }

  // ----- the response task -----

  function ToldByComplete(w: World, raises: bool): seq<Telling> {
    var c := w.response.correlation;
    if w.cancelSet then ToldByFinally(w)
    else if raises then ToldByFail(w)
    else
      [(AgentGenerationCompleted, c), (AgentAudioCompleted, c)] + If(w.m.state.Speaking?, [(StateTransitioned, c)])
      + If(w.playbacks == [],
           If(w.m.state.Thinking?, [(RecoveryStarted, c), (StateTransitioned, c), (RecoveryCompleted, c)]) + ToldByRelease(w))
  }

  lemma CompleteTells(w: World, raises: bool)
    requires w.m.state in {Thinking, Speaking, Interrupted}
    ensures Tells(w.m, w.Complete(raises).m, ToldByComplete(w, raises))
  {
    hide World.Leads, World.Finally, World.Fail, World.Say, World.Go, Kinds, ToldByFail, ToldByFinally, ToldByRelease, Tells;
    FinallyTells(w);
    FailTells(w);
    if !w.cancelSet && !raises { CompletedTells(w); }
  }

  lemma CompletedTells(w: World)
    requires w.m.state in {Thinking, Speaking, Interrupted} && !w.cancelSet
    ensures Tells(w.m, w.Complete(false).m, ToldByComplete(w, false))
  {
    hide World.Leads, World.Finally, World.Fail, World.Say, World.Go, Kinds, ToldByFinally, ToldByFail;
    var c, details := w.response.correlation, ResponseDetails(w.response.id);
    SayTells(w, AgentGenerationCompleted, c, details);
    var w1 := w.Say(AgentGenerationCompleted, c, details);
    SayTells(w1, AgentAudioCompleted, c, details);
    var w2 := w1.Say(AgentAudioCompleted, c, details);
    GoTells(w2, Listening, c);
    if w2.m.state.Speaking? { GoShape(w2, Listening, c); }
    var w3 := if w2.m.state.Speaking? then w2.Go(Listening, c) else w2;
    FinallyTells(w3);
    CompletedEnd(w, w3);
  }

  /** Nothing but the machine has changed when a completed response winds up. */
  lemma CompletedEnd(w: World, w3: World)
    requires w3 == w.(m := w3.m) && !w.cancelSet && w3.m.state == (if w.m.state.Speaking? then Listening else w.m.state)
    ensures ToldByFinally(w3)
            == If(w.playbacks == [],
                  If(w.m.state.Thinking?, [(RecoveryStarted, w.response.correlation), (StateTransitioned, w.response.correlation),
                                           (RecoveryCompleted, w.response.correlation)]) + ToldByRelease(w))
  {
  }

  function ToldByGather(w: World, raises: bool): seq<Telling> { If(w.playbacks == [], ToldByComplete(w, raises)) }

  lemma GatherTells(w: World, raises: bool)
    requires w.m.state in {Thinking, Speaking, Interrupted}
    ensures Tells(w.m, w.Gather(raises).m, ToldByGather(w, raises))
  {
    hide World.Leads, World.Complete, Kinds, ToldByComplete;
    CompleteTells(w, raises);
  }

  lemma GenerateTells(w: World)
    ensures Tells(w.m, w.Generate().m, [(AgentGenerationStarted, w.response.correlation)])
  {
    hide World.Leads, Follows, World.Say, Kinds;
    SayTells(w, AgentGenerationStarted, w.response.correlation, ResponseDetails(w.response.id));
  }

  function ToldByNext(w: World): seq<Telling> {
    if w.response.segmentsLeft == 0 then If(w.cancelSet, ToldByGather(w, false))
    else if AnyBroken(w.playbacks) then ToldByFail(w)
    else if w.cancelSet then ToldByGather(w, false)
    else [(OtherEvent, w.response.correlation)]
  }

  lemma NextTells(w: World)
    requires w.m.state in {Thinking, Speaking, Interrupted}
    ensures Tells(w.m, w.NextSegment().m, ToldByNext(w))
  {
    hide World.Leads, Follows, World.Gather, World.Fail, World.Say, Kinds, ToldByGather, ToldByFail;
    GatherTells(w, false);
    FailTells(w);
    SayTells(w, OtherEvent, w.response.correlation, ResponseDetails(w.response.id));
  }

  /** After the coordinator: a dropped response ends, and any other one generates. */
  function ToldByCoordinated(w: World): seq<Telling> {
    var c := w.response.correlation;
    if w.cancelSet then ToldByFinally(w)
    else if !w.m.Current(w.response.token) then [(StaleResultRejected, c)] + ToldByFinally(w)
    else [(AgentGenerationStarted, c)]
  }

  lemma AskTells(w: World)
    ensures Tells(w.m, w.AskDropped().m,
                  If(!w.cancelSet && !w.m.Current(w.response.token), [(StaleResultRejected, w.response.correlation)]))
    ensures Tells(w.m, w.Accept().m, If(!w.m.Current(w.response.token), [(StaleResultRejected, w.response.correlation)]))
  {
    hide World.Leads, Follows, World.Say, Kinds;
    SayTells(w, StaleResultRejected, w.response.correlation, NoDetails);
  }

  lemma AskedEnd(w: World)
    ensures ToldByFinally(w.AskDropped()) == ToldByFinally(w)
    ensures forall raises: bool :: w.cancelSet ==> ToldByGather(w.AskDropped(), raises) == ToldByGather(w, raises)
  {
    hide World.Leads, Follows, World.Say;
  }

  lemma CoordinatedTells(w: World)
    ensures Tells(w.m, w.AfterCoordinator().m, ToldByCoordinated(w))
  {
    hide World.Leads, World.Finally, World.Generate, World.AskDropped, Kinds, ToldByFinally;
    AskTells(w);
    AskedEnd(w);
    FinallyTells(w.AskDropped());
    GenerateTells(w);
  }

  function ToldByLaunch(w: World, setup: Setup): seq<Telling> {
    var c := w.response.correlation;
    match setup
    case NoCoordinator => [(AgentGenerationStarted, c)]
    case NoPlan => ToldByCoordinated(w)
    case CoordinatorRaises => ToldByFail(w)
    case ToolCall => if w.m.state.Thinking? then [(StateTransitioned, c), (OtherEvent, c)] else ToldByFail(w)
  }

  lemma LaunchTells(w: World, setup: Setup)
    requires w.m.state in {Thinking, Speaking, Interrupted}
    ensures Tells(w.m, w.LaunchWith(setup).m, ToldByLaunch(w, setup))
  {
    hide World.Leads, Follows, World.Fail, World.Generate, World.AfterCoordinator, World.Say, World.Go, Kinds,
         ToldByFail, ToldByCoordinated;
    var c := w.response.correlation;
    match setup
    case NoCoordinator => GenerateTells(w);
    case NoPlan => CoordinatedTells(w);
    case CoordinatorRaises => FailTells(w);
    case ToolCall =>
      if w.m.state.Thinking? {
        GoTells(w, ToolWait, c);
        SayTells(w.Go(ToolWait, c), OtherEvent, c, NoDetails);
      } else {
        FailTells(w);
      }
  }

  /** The tool executor: a current result leads back; anything else invalidates the operations and recovers. */
  function ToldByTool(w: World, ok: bool): seq<Telling> {
    var c := w.response.correlation;
    if ok && w.m.Current(w.response.toolToken) then [(OtherEvent, c), (StateTransitioned, c)]
    else
      If(ok, [(StaleResultRejected, c)])
      + [(OtherEvent, c), (OperationInvalidated, c), (StateTransitioned, c), (RecoveryStarted, c), (StateTransitioned, c),
         (RecoveryCompleted, c)]
  }

  lemma ToolTells(w: World, ok: bool)
    requires w.m.state.ToolWait?
    ensures Tells(w.m, w.ToolSettled(ok).m, ToldByTool(w, ok))
  {
    hide World.Leads, Follows, World.ToolFailed, World.ToolRecovered, World.Say, World.Go, Kinds;
    var c := w.response.correlation;
    if ok && w.m.Current(w.response.toolToken) {
      SayTells(w, OtherEvent, c, NoDetails);
      GoTells(w.Say(OtherEvent, c, NoDetails), Thinking, c);
    } else {
      ToolFailedTells(w, ok);
      ToolFailedShape(w, ok);
      ToolRecoveredTells(w.ToolFailed(ok));
    }
  }

  lemma ToolFailedTells(w: World, ok: bool)
    ensures var c := w.response.correlation;
      Tells(w.m, w.ToolFailed(ok).m, If(ok, [(StaleResultRejected, c)]) + [(OtherEvent, c), (OperationInvalidated, c)])
  {
    hide World.Leads, Follows, World.Say, World.Invalidate, Kinds;
    var c := w.response.correlation;
    SayTells(w, StaleResultRejected, c, NoDetails);
    var w1 := if ok then w.Say(StaleResultRejected, c, NoDetails) else w;
    SayTells(w1, OtherEvent, c, NoDetails);
    InvalidateTells(w1.Say(OtherEvent, c, NoDetails), c);
  }

  lemma ToolRecoveredTells(w: World)
    requires w.m.state.ToolWait?
    ensures var c := w.response.correlation;
      Tells(w.m, w.ToolRecovered().m,
            [(StateTransitioned, c), (RecoveryStarted, c), (StateTransitioned, c), (RecoveryCompleted, c)])
  {
    hide World.Leads, Follows, World.Say, World.Go, Kinds;
    var c := w.response.correlation;
    GoTells(w, Recovering, c);
    GoShape(w, Recovering, c);
    var w1 := w.Go(Recovering, c);
    SayTells(w1, RecoveryStarted, c, NoDetails);
    var w2 := w1.Say(RecoveryStarted, c, NoDetails);
    GoTells(w2, Thinking, c);
    var w3 := w2.Go(Thinking, c);
    SayTells(w3, RecoveryCompleted, c, NoDetails);
  }

  function ToldByText(w: World, segments: nat, raises: bool): seq<Telling> {
    var c := w.response.correlation;
    if AnyBroken(w.playbacks) then ToldByFail(w)
    else if w.cancelSet then ToldByGather(w, false)
    else if raises then [(OtherEvent, c)] + ToldByFail(w)
    else [(OtherEvent, c)] + If(segments > 0, [(OtherEvent, c)])
  }

  lemma TextTells(w: World, segments: nat, raises: bool)
    requires w.m.state in {Thinking, Speaking, Interrupted} && (!w.cancelSet ==> w.m.Current(w.response.token))
    ensures Tells(w.m, w.TextArrives(segments, raises).m, ToldByText(w, segments, raises))
  {
    hide World.Leads, Follows, World.Fail, World.Gather, World.NextSegment, World.Say, Kinds, ToldByFail, ToldByGather, Tells;
    if AnyBroken(w.playbacks) {
      FailTells(w);
    } else if w.cancelSet {
      GatherTells(w, false);
    } else {
      NewTextTells(w, segments, raises);
    }
  }

  lemma NewTextTells(w: World, segments: nat, raises: bool)
    requires w.m.state in {Thinking, Speaking, Interrupted} && !w.cancelSet && w.m.Current(w.response.token)
    requires !AnyBroken(w.playbacks)
    ensures Tells(w.m, w.TextArrives(segments, raises).m,
                  [(OtherEvent, w.response.correlation)]
                  + if raises then ToldByFail(w) else If(segments > 0, [(OtherEvent, w.response.correlation)]))
  {
    hide World.Leads, Follows, World.Fail, World.Gather, World.NextSegment, World.Say, Kinds, ToldByFail, ToldByGather, Tells;
    var c, details := w.response.correlation, ResponseDetails(w.response.id);
    SayTells(w, OtherEvent, c, details);
    var w1 := w.Say(OtherEvent, c, details);
    if raises {
      SaidFails(w, w1);
      FailTells(w1);
      ThenTells(w.m, w1.m, w1.Fail().m, [(OtherEvent, c)], ToldByFail(w));
    } else {
      var w2 := w1.(response := w.response.(segmentsLeft := segments));
      NextTells(w2);
      ThenTells(w.m, w1.m, w2.NextSegment().m, [(OtherEvent, c)], If(segments > 0, [(OtherEvent, c)]));
    }
  }

  lemma SaidFails(w: World, w1: World)
    requires w1 == w.(m := w1.m) && w1.m.state == w.m.state
    ensures ToldByFail(w1) == ToldByFail(w)
  {
  }

  function ToldByClose(w: World, cause: Cause, raises: bool): seq<Telling> {
    if raises || cause.Propagating? then ToldByFail(w)
    else if cause.StreamDone? && w.cancelSet then ToldByGather(w, false)
    else if cause.StreamDone? && w.response.emitted then ToldByNext(w)
    else if w.response.firstAudio && !w.cancelSet && w.response.attempt == 0 then [(TtsSpeechRetry, w.response.correlation)]
    else ToldByFail(w)
  }

  lemma CloseTells(w: World, cause: Cause, raises: bool)
    requires w.m.state in {Thinking, Speaking, Interrupted}
    ensures Tells(w.m, w.StreamClosed(cause, raises).m, ToldByClose(w, cause, raises))
  {
    hide World.Leads, Follows, World.Fail, World.Gather, World.NextSegment, World.Say, Kinds, ToldByFail, ToldByGather, ToldByNext;
    FailTells(w);
    GatherTells(w, false);
    NextTells(w);
    SayTells(w, TtsSpeechRetry, w.response.correlation, ResponseDetails(w.response.id));
  }

  // ----- chunks -----

  /** A chunk that is looked at. */
  function ToldByChunk(w: World, chunk: Chunk): seq<Telling> {
    var c := w.response.correlation;
    if chunk.speech.responseId != w.response.id || w.response.id in w.cancelled then [(StaleChunkRejected, c)]
    else if chunk.speech.chunkId in w.seenChunks || (chunk.streamId, chunk.sequence) in w.seenSequences
      then [(DuplicateChunkRejected, c)]
    else If(w.owner.None?, [(PlaybackOwnerCreated, c)]) + ToldByPass(w, chunk)
  }

  /** A new chunk: another provider than the pinned one says nothing, any other is received and scheduled. */
  function ToldByPass(w: World, chunk: Chunk): seq<Telling> {
    var c := w.response.correlation;
    if w.provider.Some? && w.provider.value != chunk.provider then []
    else
      If(w.provider.None?, [(OtherEvent, c)])
      + ([(AudioChunkReceived, c)]
         + If(w.response.firstAudio, [(OtherEvent, c), (StateTransitioned, c)]) + [(AudioChunkScheduled, c)])
  }

  lemma ScheduleTells(w: World, chunk: Chunk)
    requires w.m.state == (if w.response.firstAudio then Thinking else Speaking)
    ensures var c := w.response.correlation;
      Tells(w.m, w.Schedule(chunk).m,
            If(w.response.firstAudio, [(OtherEvent, c), (StateTransitioned, c)]) + [(AudioChunkScheduled, c)])
  {
    hide World.SameIdentity, Follows, Carries, World.Say, World.Go, Kinds;
    var c := w.response.correlation;
    SayTells(w, OtherEvent, c, ResponseDetails(w.response.id));
    var w1 := w.Say(OtherEvent, c, ResponseDetails(w.response.id)).(response := w.response.(firstAudio := false));
    GoTells(w1, Speaking, c);
    SayTells(w.FirstAudio(), AudioChunkScheduled, c, ChunkDetails(w.response.id, chunk.speech.chunkId));
  }

  lemma EnterTellsChunk(w: World, chunk: Chunk)
    requires !w.cancelSet && w.m.Current(w.response.token)
    requires w.m.state == (if w.response.firstAudio then Thinking else Speaking)
    ensures var c := w.response.correlation;
      Tells(w.m, w.Enter(chunk).m,
            [(AudioChunkReceived, c)]
            + If(w.response.firstAudio, [(OtherEvent, c), (StateTransitioned, c)]) + [(AudioChunkScheduled, c)])
  {
    hide World.SameIdentity, World.Leads, World.Proceeds, World.Enlists, Follows, Carries, World.Say, World.Schedule, Kinds,
         Register, Queue;
    SayTells(w, AudioChunkReceived, w.response.correlation, ChunkDetails(w.response.id, chunk.speech.chunkId));
    SayEpoch(w, AudioChunkReceived, w.response.correlation, ChunkDetails(w.response.id, chunk.speech.chunkId));
    var w1 := w.NoteReceived(chunk);
    var w2 := w1.Enlist(chunk.speech);
    EnlistQuiet(w1, chunk.speech);
    ScheduleTells(w2, chunk);
  }

  lemma SayEpoch(w: World, kind: EventType, correlation: string, payload: Payload)
    ensures var m := w.Say(kind, correlation, payload).m; m.epoch == w.m.epoch && m.conversationId == w.m.conversationId
  {
  }

  lemma EnlistQuiet(w: World, speech: Speech)
    ensures var w' := w.Enlist(speech);
      Tells(w.m, w'.m, []) && w'.m.epoch == w.m.epoch && w'.m.conversationId == w.m.conversationId && w'.m.state == w.m.state
  {
    hide Register, Queue, Kinds, World.Enlists, Follows;
    SameLog(w.m, w.Enlist(speech).m);
  }

  lemma AdmitTells(w: World, chunk: Chunk)
    requires Base(w) && InLoops(w) && !w.cancelSet && w.m.Current(w.response.token)
    ensures Tells(w.m, w.Admit(chunk).m, ToldByChunk(w, chunk))
  {
    hide World.Gates, World.Say, World.TakeOwnership, World.Pass, Kinds, Tells, Backed, Timely, UnfinishedCount, ToldByPass;
    var c, details := w.response.correlation, ChunkDetails(w.response.id, chunk.speech.chunkId);
    SayTells(w, StaleChunkRejected, c, details);
    SayTells(w, DuplicateChunkRejected, c, details);
    if !w.Stale(chunk) && !w.Seen(chunk) { TakeTells(w, chunk); }
  }

  /** The owner is created where there is none, then the provider is asked. */
  lemma TakeTells(w: World, chunk: Chunk)
    requires w.owner.None? || w.owner == Some(w.response.id)
    requires !w.cancelSet && w.m.Current(w.response.token)
    requires w.m.state == (if w.response.firstAudio then Thinking else Speaking)
    ensures Tells(w.m, w.TakeOwnership().Pass(chunk).m,
                  If(w.owner.None?, [(PlaybackOwnerCreated, w.response.correlation)]) + ToldByPass(w, chunk))
  {
    hide World.SameIdentity, World.Leads, World.Proceeds, Follows, Carries, World.Say, World.Pass, Kinds, ToldByPass;
    SayTells(w, PlaybackOwnerCreated, w.response.correlation, ResponseDetails(w.response.id));
    TakeShape(w);
    var w1 := w.TakeOwnership();
    ConversationStays(w, w1.m);
    PassTells(w1, chunk);
    SamePass(w, w1, chunk);
  }

  lemma ConversationStays(w: World, m: Machine)
    requires Onward(w.m, m) && m.epoch == w.m.epoch
    ensures m.Current(w.response.token) == w.m.Current(w.response.token)
  {
  }

  lemma SamePass(w: World, w1: World, chunk: Chunk)
    requires w1.response == w.response && w1.provider == w.provider
    ensures ToldByPass(w1, chunk) == ToldByPass(w, chunk)
  {
  }

  lemma PassTells(w: World, chunk: Chunk)
    requires !w.cancelSet && w.m.Current(w.response.token)
    requires w.m.state == (if w.response.firstAudio then Thinking else Speaking)
    ensures Tells(w.m, w.Pass(chunk).m, ToldByPass(w, chunk))
  {
    hide World.SameIdentity, World.Leads, World.Proceeds, Follows, Carries, World.Say, World.Enter, Kinds;
    SayTells(w, OtherEvent, w.response.correlation, ResponseDetails(w.response.id));
    PinShape(w, chunk.provider);
    var w1 := w.PinProvider(chunk.provider);
    ConversationStays(w, w1.m);
    EnterTellsChunk(w1, chunk);
  }

  /** What a chunk makes a session tell, whatever stands against it. */
  function ToldByArrival(w: World, chunk: Chunk, waited: bool): seq<Telling> {
    var c := w.response.correlation;
    if AnyBroken(w.playbacks) then []
    else if w.cancelSet then [(StaleChunkRejected, c)]
    else if !waited && UnfinishedCount(w.playbacks) >= 2 then []
    else ToldByChunk(w, chunk)
  }

  lemma ArrivalTells(w: World, c: Choice)
    requires Inv(w) && Enabled(w, c) && (c.SynthYields? || c.CapacityFrees?)
    ensures Tells(w.m, Step(w, c).m, ToldByArrival(w, ChunkOf(w, c), c.CapacityFrees?))
  {
    hide World.Admit, World.Gates, World.Leads, World.Say, Base, UnfinishedCount, Kinds, ToldByChunk, Tells;
    var chunk := ChunkOf(w, c);
    NothingTells(w.m);
    SayTells(w, StaleChunkRejected, w.response.correlation, ChunkDetails(w.response.id, chunk.speech.chunkId));
    InvBase(w);
    LoopStates(w);
    if !AnyBroken(w.playbacks) {
      if w.cancelSet {
        CancelledIn(w);
        StaleTells(w, chunk);
      } else {
        AdmitTells(w, chunk);
      }
    }
  }

  lemma CancelledIn(w: World)
    requires Inv(w) && w.cancelSet && (w.control.InSynth? || w.control.InCapacity?)
    ensures w.response.id in w.cancelled
  {
    hide Backed, Timely, UnfinishedCount;
  }

  lemma StaleTells(w: World, chunk: Chunk)
    requires w.cancelSet && w.response.id in w.cancelled
    ensures w.Admit(chunk).m
            == w.Say(StaleChunkRejected, w.response.correlation, ChunkDetails(w.response.id, chunk.speech.chunkId)).m
    ensures w.AskDropped() == w
  {
    hide World.Gates, World.Say, World.Leads;
  }

  // ----- playback -----

  /** A sink returns: the chunk counts as played, and the first cancelled receipt announces the stop. */
  function ToldByStop(w: World, i: nat): seq<Telling>
    requires i < |w.playbacks|
  {
    var c := if w.cancelCorrelation.Some? then w.cancelCorrelation.value else w.response.correlation;
    [(AudioChunkPlayed, w.response.correlation)]
    + If(w.cancelSet && w.playbacks[i].played < w.playbacks[i].total && w.response.id !in w.acknowledged,
         [(AgentAudioCancelled, c), (AudibleStopAck, c)])
  }

  lemma StopTells(w: World, i: nat)
    requires i < |w.playbacks| && Finish(w.ledger, StopReceipt(w, i)).1
    ensures Tells(w.m, w.Stop(i).m, ToldByStop(w, i))
  {
    hide World.Winds, World.Say, World.CancelRest, Finish, Kinds;
    var p := w.playbacks[i];
    var details := ChunkDetails(w.response.id, p.chunkId);
    var w1 := w.Tick().(ledger := Finish(w.ledger, StopReceipt(w, i)).0).Put(i, p.(phase := Finished));
    SameLog(w.m, w1.m);
    SayTells(w1, AudioChunkPlayed, w.response.correlation, details);
    var w2 := w1.Say(AudioChunkPlayed, w.response.correlation, details).CancelRest(w.m.clock.Now());
    AcknowledgeTells(w2, p.chunkId);
  }

  lemma AcknowledgeTells(w: World, chunkId: string)
    ensures var c := if w.cancelCorrelation.Some? then w.cancelCorrelation.value else w.response.correlation;
      Tells(w.m, w.Acknowledge(chunkId).m, If(w.response.id !in w.acknowledged, [(AgentAudioCancelled, c), (AudibleStopAck, c)]))
  {
    hide World.Say, Kinds;
    var c := if w.cancelCorrelation.Some? then w.cancelCorrelation.value else w.response.correlation;
    var w1 := w.(acknowledged := w.acknowledged + {w.response.id});
    SayTells(w1, AgentAudioCancelled, c, ChunkDetails(w.response.id, chunkId));
    var w2 := w1.Say(AgentAudioCancelled, c, ChunkDetails(w.response.id, chunkId));
    SayTells(w2, AudibleStopAck, c, ChunkDetails(w.response.id, chunkId));
  }

  /** The entry of a task whose audio is not lost. */
  predicate Confirmed(w: World, i: nat)
    requires i < |w.playbacks|
  {
    var id := w.playbacks[i].chunkId;
    id in w.ledger.entries && !w.ledger.entries[id].state.PlaybackUnconfirmed?
  }

  function ToldByTask(w: World, c: Choice): seq<Telling>
    requires Enabled(w, c) && (c.PlaybackStarts? || c.PlaybackAdvances? || c.ObserverReturns? || c.PlaybackRaises?)
  {
    match c
    case PlaybackStarts(i) => [(AgentAudioStarted, w.response.correlation)] + If(w.cancelSet, ToldByStop(w, i))
    case PlaybackAdvances(i, block, observed) =>
      if w.cancelSet then If(Confirmed(w, i), ToldByStop(w, i))
      else If(!observed && w.playbacks[i].played + block == w.playbacks[i].total && Confirmed(w, i),
              [(AudioChunkPlayed, w.response.correlation)])
    case ObserverReturns(i) =>
      If((w.cancelSet || w.playbacks[i].played == w.playbacks[i].total) && Confirmed(w, i), ToldByStop(w, i))
    case PlaybackRaises(_) => []
  }

  /** The receipt of a playing task is accepted unless its audio has been given up. */
  lemma ReceiptAccepted(w: World, i: nat, played: nat)
    requires Inv(w) && i < |w.playbacks| && (w.playbacks[i].phase.Sleeping? || w.playbacks[i].phase.Observing?)
    ensures var p := w.playbacks[i];
      var r := Receipt(p.chunkId, p.total, played, p.startedNs, w.m.clock.Now(), w.cancelSet && played < p.total);
      Finish(w.ledger, r).1 <==> Confirmed(w, i)
  {
    hide Timely, UnfinishedCount, Where, Valid;
    assert Matches(w.ledger.entries[w.playbacks[i].chunkId], w.playbacks[i], w.cancelSet);
  }

  lemma RefusedTells(w: World, i: nat)
    requires i < |w.playbacks| && !Finish(w.ledger, StopReceipt(w, i)).1
    ensures Tells(w.m, w.Stop(i).m, [])
  {
    hide World.Winds, World.Say, World.CancelRest, World.Acknowledge, Finish, Kinds;
    SameLog(w.m, w.m.Tick());
  }

  lemma LoopTells(w: World, i: nat)
    requires i < |w.playbacks|
    ensures var stops := w.cancelSet || w.playbacks[i].played >= w.playbacks[i].total;
      Tells(w.m, w.LoopTest(i).m, If(stops && Finish(w.ledger, StopReceipt(w, i)).1, ToldByStop(w, i)))
  {
    hide World.Stop, Finish, Kinds, ToldByStop;
    NothingTells(w.m);
    if Finish(w.ledger, StopReceipt(w, i)).1 { StopTells(w, i); } else { RefusedTells(w, i); }
  }

  lemma StartTells(w: World, i: nat)
    requires Inv(w) && i < |w.playbacks| && w.playbacks[i].phase.Pending?
    ensures Tells(w.m, w.StartPlaying(i).m, [(AgentAudioStarted, w.response.correlation)] + If(w.cancelSet, ToldByStop(w, i)))
  {
    hide Base, Inv, InLoop, World.StartPlaying, World.LoopTest, World.Say, StartPlayback, Kinds, Valid, Timely, UnfinishedCount;
    InvBase(w);
    PendingEntry(w, i);
    var p := w.playbacks[i];
    var ns := w.m.clock.Now();
    StartShape(w.ledger, p.chunkId, ns);
    StartedShape(w, i);
    StartedInLoop(w, i);
    var w0 := w.Tick().(ledger := StartPlayback(w.ledger, p.chunkId, ns).0).Put(i, p.(startedNs := ns, phase := Sleeping));
    SameLog(w.m, w0.m);
    SayTells(w0, AgentAudioStarted, w.response.correlation, ChunkDetails(w.response.id, p.chunkId));
    LoopTells(Started(w, i), i);
    StartedReceipt(w, i);
  }

  lemma FinishAccepts(b: Book, r: Receipt)
    requires r.chunkId in b.entries
    requires var e := b.entries[r.chunkId];
      || (e.state.Playing? && r.requested == e.total && e.startedNs == Some(r.startedNs))
      || (e.state.Cancelled? && r.cancelled && r.played == 0)
    ensures Finish(b, r).1
  {
  }

  /** What a start leaves of the task, its entry and everything the stop depends on. */
  lemma StartedParts(w: World, i: nat)
    requires Inv(w) && i < |w.playbacks| && w.playbacks[i].phase.Pending?
    ensures var w1, p := Started(w, i), w.playbacks[i];
      && w1 == w.(m := w1.m, ledger := w1.ledger, playbacks := w1.playbacks)
      && |w1.playbacks| == |w.playbacks|
      && w1.playbacks[i] == p.(startedNs := w.m.clock.Now(), phase := Sleeping)
      && p.played == 0 < p.total && p.chunkId in w1.ledger.entries
      && var e := w1.ledger.entries[p.chunkId];
         && e.total == p.total
         && ((e.state.Playing? && e.startedNs == Some(w.m.clock.Now())) || (e.state.Cancelled? && w.cancelSet))
  {
    hide Base, Inv, StartPlayback, Valid, Timely, UnfinishedCount, Started, World.LoopTest, World.StartPlaying;
    InvBase(w);
    PendingEntry(w, i);
    StartShape(w.ledger, w.playbacks[i].chunkId, w.m.clock.Now());
    StartedShape(w, i);
  }

  lemma StartedReceipt(w: World, i: nat)
    requires Inv(w) && i < |w.playbacks| && w.playbacks[i].phase.Pending?
    ensures var w1 := Started(w, i);
      && i < |w1.playbacks| && (w.cancelSet ==> Finish(w1.ledger, StopReceipt(w1, i)).1)
      && ToldByStop(w1, i) == ToldByStop(w, i) && w1.cancelSet == w.cancelSet
      && w1.playbacks[i].played == 0 < w1.playbacks[i].total
  {
    hide Inv, Finish, Started;
    StartedParts(w, i);
    var w1 := Started(w, i);
    if w.cancelSet { FinishAccepts(w1.ledger, StopReceipt(w1, i)); }
  }

  lemma AdvanceTells(w: World, i: nat, block: nat, observed: bool)
    requires Inv(w) && Enabled(w, PlaybackAdvances(i, block, observed))
    ensures Tells(w.m, w.Advance(i, block, observed).m, ToldByTask(w, PlaybackAdvances(i, block, observed)))
  {
    hide Inv, World.Stop, World.LoopTest, Finish, Kinds, Confirmed;
    var p := w.playbacks[i];
    NothingTells(w.m);
    ReceiptAccepted(w, i, p.played);
    ReceiptAccepted(w, i, p.played + block);
    if w.cancelSet {
      LoopTells(w, i);
      LoopStopsAt(w, i);
    } else {
      var w1 := w.Put(i, p.(played := p.played + block, phase := if observed then Observing else Sleeping))
                 .(sink := w.sink[p.chunkId := p.played + block]);
      LoopTells(w1, i);
    }
  }

  lemma LoopStopsAt(w: World, i: nat)
    requires i < |w.playbacks| && w.cancelSet
    ensures w.LoopTest(i) == w.Stop(i)
  {
    hide World.Stop;
  }

  lemma TaskTells(w: World, c: Choice)
    requires Inv(w) && Enabled(w, c) && (c.PlaybackStarts? || c.PlaybackAdvances? || c.ObserverReturns? || c.PlaybackRaises?)
    ensures Tells(w.m, Step(w, c).m, ToldByTask(w, c))
  {
    hide Inv, World.StartPlaying, World.Advance, World.LoopTest, Finish, Kinds, Confirmed;
    match c
    case PlaybackStarts(i) => StartTells(w, i);
    case PlaybackAdvances(i, block, observed) => AdvanceTells(w, i, block, observed);
    case ObserverReturns(i) =>
      ReceiptAccepted(w, i, w.playbacks[i].played);
      LoopTells(w, i);
      ObserverBound(w, i);
    case PlaybackRaises(i) => NothingTells(w.m);
  }

  lemma ObserverBound(w: World, i: nat)
    requires Inv(w) && i < |w.playbacks| && Unfinished(w.playbacks[i])
    ensures w.playbacks[i].played <= w.playbacks[i].total
  {
    hide Timely, UnfinishedCount, Where, Valid;
    assert Matches(w.ledger.entries[w.playbacks[i].chunkId], w.playbacks[i], w.cancelSet);
  }

  // ----- every step -----

  /** What a step tells, by what can be seen before it. */
  function ToldBy(w: World, c: Choice): seq<Telling>
    requires Enabled(w, c)
  {
    match c
    case ConfirmTurn(correlation) =>
      [(TurnConfirmed, correlation)] + If(w.m.state.Thinking?, ToldByInterrupt(w, correlation))
    case BeginResponse(correlation, _) => If(w.control.Done? && w.m.state.Listening?, [(StateTransitioned, correlation)])
    case InterruptNow(correlation) => ToldByInterrupt(w, correlation)
    case BackgroundOverlap(correlation, acousticEpisode) =>
      If(w.m.state.Speaking? || (acousticEpisode && w.m.state in {Listening, Interrupted}),
         [(StateTransitioned, correlation), (StateTransitioned, correlation)])
    case Telemetry(correlation) => [(OtherEvent, correlation)]
    case Launch(setup) => ToldByLaunch(w, setup)
    case ToolReturns(ok, raises) => ToldByReturn(w, ok, raises)
    case ReasonerYields(segments, raises) => ToldByText(w, segments, raises)
    case ReasonerEnds(raises) => ToldByGather(w, raises)
    case ReasonerRaises => ToldByFail(w)
    case SynthYields(chunk) => ToldByArrival(w, chunk, false)
    case SynthEnds => []
    case SynthRaises => []
    case CapacityFrees => ToldByArrival(w, w.control.chunk, true)
    case StreamCloses(raises) => ToldByClose(w, w.control.cause, raises)
    case GatherReturns(raises) => if AnyBroken(w.playbacks) then ToldByFail(w) else ToldByComplete(w, raises)
    case PlaybacksSettle => ToldByConclude(w)
    case PlaybackStarts(_) => ToldByTask(w, c)
    case PlaybackAdvances(_, _, _) => ToldByTask(w, c)
    case ObserverReturns(_) => ToldByTask(w, c)
    case PlaybackRaises(_) => ToldByTask(w, c)
  }

  /** The token that is current after a tool: only a current result leaves the epoch alone. */
  function TokenAfterTool(w: World, ok: bool): OperationToken {
    OperationToken(w.m.conversationId, w.m.epoch + (if ok && w.m.Current(w.response.toolToken) then 0 else 1))
  }

  /** A tool that returns: its own telling, a stale token, and then the response goes on or fails. */
  function ToldByReturn(w: World, ok: bool, raises: bool): seq<Telling> {
    var c := w.response.correlation;
    var stale := If(w.response.token != TokenAfterTool(w, ok), [(StaleResultRejected, c)]);
    ToldByTool(w, ok) + stale
    + if raises then [(OperationInvalidated, c), (RecoveryStarted, c), (StateTransitioned, c)]
                     + If(Unconfirm(w.ledger, w.response.id).1, [(AudioStopUnconfirmed, c)])
                     + [(StateTransitioned, c), (RecoveryCompleted, c)] + If(w.playbacks == [], ToldByRelease(w))
      else if stale == [] && !w.cancelSet then [(AgentGenerationStarted, c)]
      else
        If(!w.cancelSet, stale)
        + If(w.playbacks == [],
             (if w.cancelSet then [(StateTransitioned, c)]
              else [(RecoveryStarted, c), (StateTransitioned, c), (RecoveryCompleted, c)]) + ToldByRelease(w))
  }

  lemma GoEpoch(w: World, target: ConversationState, correlation: string)
    ensures var m := w.Go(target, correlation).m; m.epoch == w.m.epoch && m.conversationId == w.m.conversationId
  {
  }

  lemma InvalidateEpoch(w: World, correlation: string)
    ensures var m := w.Invalidate(correlation).m; m.epoch == w.m.epoch + 1 && m.conversationId == w.m.conversationId
  {
  }

  lemma FailedEpoch(w: World, ok: bool)
    ensures var m := w.ToolFailed(ok).m; m.epoch == w.m.epoch + 1 && m.conversationId == w.m.conversationId
  {
    hide World.Leads, Follows, World.Say, World.Invalidate;
    var c := w.response.correlation;
    SayEpoch(w, StaleResultRejected, c, NoDetails);
    var w1 := if ok then w.Say(StaleResultRejected, c, NoDetails) else w;
    SayEpoch(w1, OtherEvent, c, NoDetails);
    InvalidateEpoch(w1.Say(OtherEvent, c, NoDetails), c);
  }

  lemma RecoveredEpoch(w: World)
    ensures var m := w.ToolRecovered().m; m.epoch == w.m.epoch && m.conversationId == w.m.conversationId
  {
    hide World.Leads, Follows, World.Say, World.Go;
    var c := w.response.correlation;
    GoEpoch(w, Recovering, c);
    var w1 := w.Go(Recovering, c);
    SayEpoch(w1, RecoveryStarted, c, NoDetails);
    var w2 := w1.Say(RecoveryStarted, c, NoDetails);
    GoEpoch(w2, Thinking, c);
    SayEpoch(w2.Go(Thinking, c), RecoveryCompleted, c, NoDetails);
  }

  /** A tool's outcome leaves the operations current exactly when its result was. */
  lemma SettledEpoch(w: World, ok: bool)
    ensures var m := w.ToolSettled(ok).m;
      && m.conversationId == w.m.conversationId
      && m.epoch == w.m.epoch + (if ok && w.m.Current(w.response.toolToken) then 0 else 1)
  {
    hide World.Leads, Follows, World.Say, World.Go, World.ToolFailed, World.ToolRecovered;
    var c := w.response.correlation;
    SayEpoch(w, OtherEvent, c, NoDetails);
    GoEpoch(w.Say(OtherEvent, c, NoDetails), Thinking, c);
    FailedEpoch(w, ok);
    RecoveredEpoch(w.ToolFailed(ok));
  }

  lemma SettledIs(w: World, ok: bool)
    requires w.m.state.ToolWait?
    ensures var w' := w.ToolSettled(ok); w'.m.state.Thinking? && w' == w.(m := w'.m)
  {
    hide World.Leads, Follows, World.ToolFailed, World.ToolRecovered, World.Say;
    ToolFailedShape(w, ok);
    ToolRecoveredShape(w.ToolFailed(ok));
    GoShape(w.Say(OtherEvent, w.response.correlation, NoDetails), Thinking, w.response.correlation);
  }

  lemma ReturnTells(w: World, ok: bool, raises: bool)
    requires w.m.state.ToolWait?
    ensures Tells(w.m, w.ToolReturned(ok, raises).m, ToldByReturn(w, ok, raises))
  {
    hide World.Leads, Follows, World.ToolSettled, World.Accept, World.Fail, World.AfterCoordinator, Kinds, Unconfirm, ToldByTool,
         ToldByRelease, ToldByFail, ToldByCoordinated, Tells;
    ToolTells(w, ok);
    SettledIs(w, ok);
    SettledEpoch(w, ok);
    var w1 := w.ToolSettled(ok);
    AskTells(w1);
    AcceptedIs(w1);
    var w2 := w1.Accept();
    var stale := If(!w1.m.Current(w.response.token), [(StaleResultRejected, w.response.correlation)]);
    ThenTells(w.m, w1.m, w2.m, ToldByTool(w, ok), stale);
    var w3 := w2.Coordinated(raises);
    if raises {
      FailTells(w2);
      SettledFails(w, w2);
      ThenTells(w.m, w2.m, w3.m, ToldByTool(w, ok) + stale, ToldByFail(w2));
    } else {
      CoordinatedTells(w2);
      SettledGoesOn(w, w2);
      ThenTells(w.m, w2.m, w3.m, ToldByTool(w, ok) + stale, ToldByCoordinated(w2));
    }
  }

  lemma AcceptedIs(w: World)
    ensures var w' := w.Accept();
      w' == w.(m := w'.m) && w'.m.state == w.m.state && w'.m.epoch == w.m.epoch && w'.m.conversationId == w.m.conversationId
  {
    hide World.Leads, Follows;
  }

  lemma SettledFails(w: World, w2: World)
    requires w2 == w.(m := w2.m) && w2.m.state.Thinking?
    ensures var c := w.response.correlation;
      ToldByFail(w2)
      == [(OperationInvalidated, c), (RecoveryStarted, c), (StateTransitioned, c)]
         + If(Unconfirm(w.ledger, w.response.id).1, [(AudioStopUnconfirmed, c)])
         + [(StateTransitioned, c), (RecoveryCompleted, c)] + If(w.playbacks == [], ToldByRelease(w))
  {
    hide Unconfirm, ToldByRelease;
    assert ToldByRelease(w2) == ToldByRelease(w) by { SameRelease(w, w2); }
  }

  lemma SameRelease(w: World, w2: World)
    requires w2 == w.(m := w2.m)
    ensures ToldByRelease(w2) == ToldByRelease(w)
  {
  }

  lemma SettledGoesOn(w: World, w2: World)
    requires w2 == w.(m := w2.m) && w2.m.state.Thinking?
    ensures var c := w.response.correlation;
      ToldByCoordinated(w2)
      == if !w.cancelSet && w2.m.Current(w.response.token) then [(AgentGenerationStarted, c)]
         else
           If(!w.cancelSet, [(StaleResultRejected, c)])
           + If(w.playbacks == [],
                (if w.cancelSet then [(StateTransitioned, c)]
                 else [(RecoveryStarted, c), (StateTransitioned, c), (RecoveryCompleted, c)]) + ToldByRelease(w))
  {
    hide ToldByRelease;
    SameRelease(w, w2);
  }

  lemma CallerTells(w: World, c: Choice)
    requires Inv(w) && Enabled(w, c)
    requires c.ConfirmTurn? || c.BeginResponse? || c.InterruptNow? || c.BackgroundOverlap? || c.Telemetry?
    ensures Tells(w.m, Step(w, c).m, ToldBy(w, c))
  {
    hide World.Interrupt, World.Begin, World.Confirm, World.OverlapStep, World.Say, Inv, Kinds, Tells, ToldByInterrupt;
    match c
    case ConfirmTurn(correlation) => ConfirmTells(w, correlation);
    case InterruptNow(correlation) => InterruptTells(w, correlation);
    case BeginResponse(correlation, id) => BeginTells(w, correlation, id);
    case BackgroundOverlap(correlation, acoustic) =>
      AwaitStates(w);
      OverlapTells(w, correlation, acoustic);
    case Telemetry(correlation) => SayTells(w, OtherEvent, correlation, NoDetails);
  }

  /** A complete turn takes over a response that has not begun to speak. */
  lemma ConfirmTells(w: World, correlation: string)
    ensures Tells(w.m, w.Confirm(correlation).m,
                  [(TurnConfirmed, correlation)] + If(w.m.state.Thinking?, ToldByInterrupt(w, correlation)))
  {
    hide World.Interrupt, World.Say, Announces, Kinds, ToldByInterrupt;
    SayTells(w, TurnConfirmed, correlation, NoDetails);
    InterruptTells(w.Say(TurnConfirmed, correlation, NoDetails), correlation);
    TurnInterrupts(w, correlation);
  }

  lemma OverlapTells(w: World, correlation: string, acousticEpisode: bool)
    requires w.m.state in {Listening, Thinking, Speaking, Interrupted, ToolWait, Handoff}
    ensures Tells(w.m, w.OverlapStep(correlation, acousticEpisode).m,
                  If(w.m.state.Speaking? || (acousticEpisode && w.m.state in {Listening, Interrupted}),
                     [(StateTransitioned, correlation), (StateTransitioned, correlation)]))
  {
    hide World.Go, Follows, Kinds;
    NothingTells(w.m);
    GoTells(w, Overlap, correlation);
    if w.m.CanMove(Overlap) { GoShape(w, Overlap, correlation); }
    GoTells(w.Go(Overlap, correlation), Speaking, correlation);
  }

  lemma TurnInterrupts(w: World, correlation: string)
    ensures ToldByInterrupt(w.Say(TurnConfirmed, correlation, NoDetails), correlation) == ToldByInterrupt(w, correlation)
    ensures w.control.Done? ==> ToldByInterrupt(w, correlation) == []
  {
    hide World.Say;
  }

  lemma BeginTells(w: World, correlation: string, id: string)
    ensures Tells(w.m, w.Begin(correlation, id).m, If(w.control.Done? && w.m.state.Listening?, [(StateTransitioned, correlation)]))
  {
    hide World.Go, Follows, Kinds;
    NothingTells(w.m);
    GoTells(w, Thinking, correlation);
  }

  /** Every step of a session tells exactly this. */
  lemma StepTells(w: World, c: Choice)
    requires Inv(w) && Enabled(w, c)
    ensures Tells(w.m, Step(w, c).m, ToldBy(w, c))
  {
    hide Inv, Kinds, Tells, World.LaunchWith, World.ToolReturned, World.TextArrives, World.Gather, World.Fail, World.StreamClosed,
         World.Complete, World.Conclude, World.ChunkArrives, World.CapacityFreed, World.StartPlaying, World.Advance, World.LoopTest,
         World.Interrupt, World.Begin, World.OverlapStep, World.Confirm, ToldByFail, ToldByComplete, ToldByConclude,
         ToldByGather, ToldByClose, ToldByText, ToldByReturn, ToldByLaunch, ToldByTask, ToldByArrival, ToldByInterrupt;
    NothingTells(w.m);
    match c
    case Launch(setup) =>
      LoopStates(w);
      LaunchTells(w, setup);
    case ToolReturns(ok, raises) =>
      ToolStates(w);
      ReturnTells(w, ok, raises);
    case ReasonerYields(segments, raises) =>
      LoopStates(w);
      TextTells(w, segments, raises);
    case ReasonerEnds(raises) =>
      LoopStates(w);
      GatherTells(w, raises);
    case ReasonerRaises =>
      LoopStates(w);
      FailTells(w);
    case SynthYields(chunk) => ArrivalTells(w, c);
    case CapacityFrees => ArrivalTells(w, c);
    case StreamCloses(raises) =>
      LoopStates(w);
      CloseTells(w, w.control.cause, raises);
    case GatherReturns(raises) =>
      LoopStates(w);
      FailTells(w);
      CompleteTells(w, raises);
    case PlaybacksSettle => ConcludeTells(w);
    case PlaybackStarts(_) => TaskTells(w, c);
    case PlaybackAdvances(_, _, _) => TaskTells(w, c);
    case ObserverReturns(_) => TaskTells(w, c);
    case PlaybackRaises(_) => TaskTells(w, c);
    case SynthEnds =>
    case SynthRaises =>
    case _ => CallerTells(w, c);
  }

  lemma ToolStates(w: World)
    requires Inv(w) && w.control.InTool?
    ensures w.m.state.ToolWait?
  {
    hide Base;
  }
}
