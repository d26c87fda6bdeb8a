/** Every piece of the protocol keeps the invariant. */
module Keeps {
  import opened Domain
  import opened StateMachine
  import opened Ledger
  import opened Protocol
  import opened Invariants

  /** Time only moves on. */
  lemma Later(b: Book, now: nat, later: nat)
    requires Timely(b, now) && now <= later
    ensures Timely(b, later)
  {
  }

  /** Cancelling the rest succeeds, leaves nothing queued and keeps the tasks matched. */
  lemma CancelRestKeeps(w: World, ns: nat)
    requires Base(w) && w.cancelSet
    requires forall c | c in w.ledger.entries :: w.ledger.entries[c].generatedNs <= ns
    ensures Base(w.CancelRest(ns))
    ensures forall c | c in w.CancelRest(ns).ledger.entries :: !w.CancelRest(ns).ledger.entries[c].state.Queued?
    ensures w.CancelRest(ns) == w.(ledger := w.CancelRest(ns).ledger)
    ensures forall c | c in w.ledger.entries ::
              c in w.CancelRest(ns).ledger.entries
              && CancelEffect(w.ledger.entries[c], w.CancelRest(ns).ledger.entries[c], w.response.id, ns)
    ensures w.CancelRest(ns).ledger.entries.Keys == w.ledger.entries.Keys
  {
    hide UnfinishedCount, World.Winds, WoundDown, CancelFrom, Backed, Where, Stray, InLoops, CancelEffect;
    CancelledTasks(w.ledger, w.playbacks, w.response.id, ns);
    CancelledTimely(w.ledger, w.CancelRest(ns).ledger, w.response.id, ns, w.m.clock.Now());
  }

  /** The ledger part: the tasks still match their entries, and no entry waits any more. */
  lemma CancelledTasks(b: Book, ps: seq<Playback>, id: string, ns: nat)
    requires Backed(b, ps, id, true)
    requires forall c | c in b.entries :: b.entries[c].generatedNs <= ns
    ensures var (b', ok) := CancelFrom(b, id, ns, 0);
      && ok && Backed(b', ps, id, true)
      && b'.entries.Keys == b.entries.Keys
      && (forall c | c in b.entries ::
           !b'.entries[c].state.Queued? && CancelEffect(b.entries[c], b'.entries[c], id, ns))
  {
    hide CancelFrom, WoundDown;
    CancelFromWalk(b, id, ns, 0);
    CancelFromCompletes(b, id, ns, 0);
    CancelKeeps(b, id, ns);
    var b' := CancelFrom(b, id, ns, 0).0;
    forall c | c in b'.entries
      ensures !b'.entries[c].state.Queued?
      ensures CancelEffect(b.entries[c], b'.entries[c], id, ns)
    {
      assert CancelEffect(b.entries[c], b'.entries[c], id, ns);
      assert !Cancellable(b'.entries[c], id);
    }
    forall i | 0 <= i < |ps| ensures Matches(b'.entries[ps[i].chunkId], ps[i], true) {
      assert CancelEffect(b.entries[ps[i].chunkId], b'.entries[ps[i].chunkId], id, ns);
    }
  }

  lemma CancelledTimely(b: Book, b': Book, id: string, ns: nat, now: nat)
    requires Timely(b, now) && b'.entries.Keys == b.entries.Keys
    requires forall c | c in b.entries :: CancelEffect(b.entries[c], b'.entries[c], id, ns)
    ensures Timely(b', now)
    ensures forall c | c in b.entries :: b'.entries[c].responseId == b.entries[c].responseId
    ensures forall c | c in b.entries :: b'.entries[c].Open() ==> b.entries[c].Open()
  {
    forall c | c in b.entries
      ensures b'.entries[c].responseId == b.entries[c].responseId
      ensures b'.entries[c].Open() ==> b.entries[c].Open()
    {
      assert CancelEffect(b.entries[c], b'.entries[c], id, ns);
    }
  }

  /** With no task there is nothing to cancel. */
  lemma CancelNothing(w: World, ns: nat)
    requires Base(w) && w.playbacks == []
    ensures w.CancelRest(ns) == w
  {
    CancelFromWalk(w.ledger, w.response.id, ns, 0);
    var (b', ok) := CancelFrom(w.ledger, w.response.id, ns, 0);
    forall c | c in w.ledger.entries ensures w.ledger.entries[c].responseId != w.response.id {
      assert w.ledger.entries[c].responseId == w.response.id ==> Tracked(w.playbacks, c);
    }
    CancelFromCompletes(w.ledger, w.response.id, ns, 0);
    assert b'.entries == w.ledger.entries;
  }

  /** The same machine some events later. */
  ghost predicate Onward(m: Machine, m': Machine) {
    && m'.conversationId == m.conversationId
    && m'.clock.at == m.clock.at
    && m'.clock.taken >= m.clock.taken
  }

  lemma BaseOnward(w: World, m': Machine)
    requires Base(w) && Onward(w.m, m')
    ensures Base(w.(m := m'))
  {
    Later(w.ledger, w.m.clock.Now(), m'.clock.Now());
  }

  /** A move along an edge of the graph. */
  lemma GoShape(w: World, target: ConversationState, correlation: string)
    requires target != w.m.state && target in AllowedTransitions(w.m.state)
    ensures var w' := w.Go(target, correlation);
      Onward(w.m, w'.m) && w'.m.state == target && w'.m.epoch == w.m.epoch && w' == w.(m := w'.m)
  {
    hide World.Leads, World.Winds, Follows, Carries, Announces;
  }

  // ----- winding up -----

  lemma SettledWhenFinished(w: World)
    requires Base(w) && AllFinished(w.playbacks)
    ensures NothingOpen(w.ledger)
  {
    forall c | c in w.ledger.entries ensures !w.ledger.entries[c].Open() {
      if w.ledger.entries[c].responseId == w.response.id {
        assert Tracked(w.playbacks, c);
        var i :| 0 <= i < |w.playbacks| && w.playbacks[i].chunkId == c;
        assert Matches(w.ledger.entries[c], w.playbacks[i], w.cancelSet);
      }
    }
  }

  lemma EndCancelledKeeps(w: World)
    requires Base(w) && Ending(w) && w.cancelSet
    ensures var w' := w.EndCancelled();
      && Base(w') && NothingOpen(w'.ledger)
      && (w'.m.state in {Listening, Handoff} || Stray(w'))
      && w' == w.(m := w'.m, ledger := w'.ledger)
  {
    hide Base, NothingOpen, Timely, CancelFrom;
    var ns := w.m.clock.Now();
    var w1 := w.Tick();
    BaseOnward(w, w1.m);
    GeneratedBefore(w);
    CancelRestKeeps(w1, ns);
    var w2 := w1.CancelRest(ns);
    if w.response.failed {
      OpenStaysShut(w1, ns);
    } else {
      SettledWhenFinished(w2);
    }
    BaseOnward(w2, w.EndCancelled().m);
  }

  lemma GeneratedBefore(w: World)
    requires Base(w)
    ensures forall c | c in w.ledger.entries :: w.ledger.entries[c].generatedNs <= w.m.clock.Now()
  {
  }

  lemma OpenStaysShut(w: World, ns: nat)
    requires Base(w) && w.response.failed
    ensures NothingOpen(w.CancelRest(ns).ledger)
  {
    CancelFromWalk(w.ledger, w.response.id, ns, 0);
    var b' := w.CancelRest(ns).ledger;
    forall c | c in b'.entries ensures !b'.entries[c].Open() {
      assert CancelEffect(w.ledger.entries[c], b'.entries[c], w.response.id, ns);
    }
  }

  lemma EndSilentKeeps(w: World)
    requires Base(w) && w.m.state.Thinking? && w.playbacks == []
    ensures var w' := w.EndSilent();
      && Base(w') && NothingOpen(w'.ledger) && w'.m.state.Listening? && w' == w.(m := w'.m)
  {
    hide Base, NothingOpen, CancelFrom;
    BaseOnward(w, w.Tick().m);
    CancelNothing(w.Tick(), w.m.clock.Now());
    BaseOnward(w, w.EndSilent().m);
    SettledWhenFinished(w.EndSilent());
  }

  /** At its end a response is silent: everything it had is settled and the session listens or hands over. */
  lemma ConcludeKeeps(w: World)
    requires Base(w) && Ending(w) && NoneUnfinished(w.playbacks)
    ensures Inv(w.Conclude()) && w.Conclude().control.Done?
  {
    var w1 := w.EndState();
    if w.cancelSet { EndCancelledKeeps(w); }
    else if w.m.state.Thinking? { EndSilentKeeps(w); }
    else { SettledWhenFinished(w); }
    VacateKeeps(w1);
  }

  /** The ledger's own assertions hold for every interleaving. */
  lemma LedgerHolds(w: World)
    requires Base(w)
    ensures w.LedgerChecked()
  {
    assert forall c | c in w.ledger.entries :: SoundEntry(w.ledger.entries[c]);
  }

  lemma SayOnward(w: World, kind: EventType, correlation: string, payload: Payload)
    ensures Onward(w.m, w.Say(kind, correlation, payload).m)
  {
    hide World.Leads, Follows, Carries;
  }

  /** Giving up the sink touches nothing but the stream, the owner and the provider pin. */
  lemma ReleaseShape(w: World)
    requires w.owner.None? || w.owner == Some(w.response.id)
    requires w.owner.None? ==> w.provider.None?
    ensures var w' := w.ReleaseOwner();
      && Onward(w.m, w'.m) && w'.m.state == w.m.state
      && w' == w.(m := w'.m, owner := None, provider := None)
  {
    hide World.SameIdentity, World.Leads, World.Winds, Follows, Carries, Announces, World.Say;
    var c, details := w.response.correlation, ResponseDetails(w.response.id);
    var w1 := if w.provider.Some? then w.Say(OtherEvent, c, details) else w;
    SayOnward(w, OtherEvent, c, details);
    SayOnward(w1, PlaybackOwnerDestroyed, c, details);
  }

  lemma VacateKeeps(w: World)
    requires Base(w) && NothingOpen(w.ledger) && NoneUnfinished(w.playbacks)
    requires w.m.state in {Listening, Handoff} || Stray(w)
    ensures Inv(w.Vacate()) && w.Vacate().control.Done?
  {
    hide World.SameIdentity, World.Leads, World.Winds, Follows, Carries, Announces,
         Backed, Timely, NothingOpen, NoneUnfinished, World.ReleaseOwner;
    assert w.LedgerChecked() by { LedgerHolds(w); }
    ReleaseShape(w);
    var w' := w.Vacate();
    Later(w.ledger, w.m.clock.Now(), w'.m.clock.Now());
  }

  lemma FinallyKeeps(w: World)
    requires Base(w) && Ending(w) && !w.audioStopped && !w.control.Done?
    requires w.playbacks != [] ==> !w.m.state.Thinking?
    ensures Inv(w.Finally())
  {
    hide World.Leads, World.Winds, Follows, Carries, Announces, Backed, Timely, NothingOpen;
    if w.playbacks == [] {
      ConcludeKeeps(w);
    }
  }

  // ----- recovery -----

  lemma UnconfirmedBacked(b: Book, ps: seq<Playback>, id: string, cancelSet: bool)
    requires Backed(b, ps, id, cancelSet)
    ensures Backed(Unconfirm(b, id).0, ps, id, true)
    ensures forall c | c in Unconfirm(b, id).0.entries :: !Unconfirm(b, id).0.entries[c].state.Playing?
  {
    UnconfirmKeeps(b, id);
    var b' := Unconfirm(b, id).0;
    forall i | 0 <= i < |ps| ensures Matches(b'.entries[ps[i].chunkId], ps[i], true) {
      assert Matches(b.entries[ps[i].chunkId], ps[i], cancelSet);
    }
    assert forall c | c in b'.entries :: b'.entries[c].Open() ==> b.entries[c].Open();
  }

  /** After recovery settled the ledger, nothing of the response is queued or playing. */
  lemma SettledLedger(b: Book, ps: seq<Playback>, id: string, cancelSet: bool, ns: nat)
    requires Backed(b, ps, id, cancelSet)
    requires forall c | c in b.entries :: b.entries[c].generatedNs <= ns
    ensures var (b', ok) := CancelFrom(Unconfirm(b, id).0, id, ns, 0);
      && ok && Backed(b', ps, id, true) && NothingOpen(b')
      && b'.entries.Keys == b.entries.Keys
      && (forall c | c in b.entries ::
           && b'.entries[c].responseId == b.entries[c].responseId
           && b'.entries[c].generatedNs == b.entries[c].generatedNs
           && b'.entries[c].startedNs == b.entries[c].startedNs)
  {
    hide *;
    var b1 := Unconfirm(b, id).0;
    UnconfirmedBacked(b, ps, id, cancelSet);
    UnconfirmSame(b, id);
    CancelledBacked(b1, ps, id, ns);
  }

  lemma UnconfirmSame(b: Book, id: string)
    ensures var b' := Unconfirm(b, id).0;
      && b'.entries.Keys == b.entries.Keys
      && (forall c | c in b.entries ::
           && b'.entries[c].responseId == b.entries[c].responseId
           && b'.entries[c].generatedNs == b.entries[c].generatedNs
           && b'.entries[c].startedNs == b.entries[c].startedNs)
  {
  }

  lemma CancelledBacked(b: Book, ps: seq<Playback>, id: string, ns: nat)
    requires Backed(b, ps, id, true)
    requires forall c | c in b.entries :: b.entries[c].generatedNs <= ns && !b.entries[c].state.Playing?
    ensures var (b', ok) := CancelFrom(b, id, ns, 0);
      && ok && Backed(b', ps, id, true) && NothingOpen(b')
      && b'.entries.Keys == b.entries.Keys
      && (forall c | c in b.entries ::
           && b'.entries[c].responseId == b.entries[c].responseId
           && b'.entries[c].generatedNs == b.entries[c].generatedNs
           && b'.entries[c].startedNs == b.entries[c].startedNs)
  {
    hide CancelFrom, Backed;
    CancelledTasks(b, ps, id, ns);
    var b' := CancelFrom(b, id, ns, 0).0;
    forall c | c in b'.entries
      ensures !b'.entries[c].Open()
      ensures CancelEffect(b.entries[c], b'.entries[c], id, ns)
    {
      assert CancelEffect(b.entries[c], b'.entries[c], id, ns);
      GeneratedNever(b, ps, id, c);
    }
  }

  lemma GeneratedNever(b: Book, ps: seq<Playback>, id: string, c: string)
    requires Backed(b, ps, id, true) && c in b.entries
    ensures !b.entries[c].state.Generated?
  {
  }

  lemma BeginRecoveryShape(w: World)
    requires w.m.state in {Thinking, Speaking, Interrupted}
    ensures var w' := w.BeginRecovery();
      && Onward(w.m, w'.m)
      && w'.m.state == (if w.m.state.Interrupted? then Interrupted else Recovering)
      && w' == w.(m := w'.m, cancelSet := true, response := w.response.(failed := true))
  {
    hide World.Leads, World.Winds, Follows, Carries, Announces;
  }

  lemma EndRecoveryShape(w: World, unconfirmed: bool)
    requires w.m.state in {Recovering, Interrupted}
    ensures var w' := w.EndRecovery(unconfirmed);
      && Onward(w.m, w'.m)
      && w'.m.state == (if w.m.state.Interrupted? then Interrupted else if unconfirmed then Handoff else Listening)
      && w' == w.(m := w'.m)
  {
    hide World.Leads, World.Winds, Follows, Carries, Announces, World.Go;
    var c := w.response.correlation;
    var w1 := if unconfirmed then w.Say(AudioStopUnconfirmed, c, ResponseDetails(w.response.id)) else w;
    if w.m.state.Recovering? { GoShape(w1, if unconfirmed then Handoff else Listening, c); }
  }

  /** The lifecycle part of recovery. */
  lemma RecoverShape(w: World)
    requires w.m.state in {Thinking, Speaking, Interrupted}
    ensures var w' := w.Recover();
      var (b', ok) := CancelFrom(Unconfirm(w.ledger, w.response.id).0, w.response.id, w.m.clock.Now(), 0);
      && Onward(w.m, w'.m)
      && w'.m.state == (if w.m.state.Interrupted? then Interrupted
                        else if Unconfirm(w.ledger, w.response.id).1 then Handoff else Listening)
      && w' == w.(m := w'.m, ledger := b', cancelSet := true, response := w.response.(failed := true),
                  fault := w.fault || !ok)
  {
    hide World.Leads, World.Winds, Follows, Carries, Announces, CancelFrom, Unconfirm, World.BeginRecovery, World.EndRecovery;
    var w1 := w.Tick().BeginRecovery();
    BeginRecoveryShape(w.Tick());
    EndRecoveryShape(w1.SettleFailed(w.m.clock.Now()), Unconfirm(w.ledger, w.response.id).1);
  }

  /** Whatever raised, recovery leads to listening or, with audio of unknown extent, to handoff. */
  lemma RecoverKeeps(w: World)
    requires Base(w) && !w.response.failed
    requires w.m.state in {Thinking, Speaking, Interrupted}
    ensures Base(w.Recover()) && Ending(w.Recover()) && !w.Recover().m.state.Thinking?
  {
    hide World.Leads, World.Winds, Follows, Carries, Announces, CancelFrom, Unconfirm, Backed, World.Recover;
    RecoverShape(w);
    GeneratedBefore(w);
    SettledLedger(w.ledger, w.playbacks, w.response.id, w.cancelSet, w.m.clock.Now());
    TimelySettled(w.ledger, w.m.clock.Now(), w.Recover().ledger, w.Recover().m.clock.Now());
  }

  lemma TimelySettled(b: Book, now: nat, b': Book, later: nat)
    requires Timely(b, now) && now <= later && NothingOpen(b') && b'.entries.Keys == b.entries.Keys
    requires forall c | c in b.entries ::
               b'.entries[c].generatedNs == b.entries[c].generatedNs && b'.entries[c].startedNs == b.entries[c].startedNs
    ensures Timely(b', later)
  {
  }

  lemma FailKeeps(w: World)
    requires Base(w) && !w.response.failed && !w.audioStopped && !w.control.Done?
    requires w.m.state in {Thinking, Speaking, Interrupted}
    ensures Inv(w.Fail())
  {
    hide World.Leads, World.Winds, Follows, Carries, Announces, Base, Inv, CancelFrom, Unconfirm, World.Recover, World.Finally;
    RecoverShape(w);
    RecoverKeeps(w);
    FinallyKeeps(w.Recover());
  }

  // ----- the loops of the response task -----

  /** The response task is live. */
  predicate Live(w: World) { !w.control.Done? && !w.audioStopped }

  lemma CompleteKeeps(w: World, raises: bool)
    requires Base(w) && InLoops(w) && Live(w) && AllFinished(w.playbacks)
    ensures Inv(w.Complete(raises))
  {
    hide World.Leads, World.Winds, Follows, Carries, Announces, Backed, Timely, World.Finally, World.Fail;
    if w.cancelSet {
      FinallyKeeps(w);
    } else if raises {
      FailKeeps(w);
    } else {
      var c := w.response.correlation;
      var w1 := w.Say(AgentGenerationCompleted, c, ResponseDetails(w.response.id))
                 .Say(AgentAudioCompleted, c, ResponseDetails(w.response.id));
      var w2 := if w1.m.state.Speaking? then w1.Go(Listening, c) else w1;
      BaseOnward(w, w2.m);
      FinallyKeeps(w2);
    }
  }

  lemma GatherKeeps(w: World, raises: bool)
    requires Base(w) && InLoops(w) && Live(w)
    ensures Inv(w.Gather(raises))
  {
    hide World.Leads, World.Winds, Follows, Carries, Announces, Backed, Timely, World.Complete;
    if w.playbacks == [] { CompleteKeeps(w, raises); }
  }

  lemma NextSegmentKeeps(w: World)
    requires Base(w) && InLoops(w) && Live(w) && (w.response.firstAudio ==> w.response.attempt == 0)
    ensures Inv(w.NextSegment())
  {
    hide World.Leads, World.Winds, Follows, Carries, Announces, Backed, Timely, World.Gather, World.Fail;
    if w.cancelSet && (w.response.segmentsLeft == 0 || !AnyBroken(w.playbacks)) {
      GatherKeeps(w, false);
    } else if w.response.segmentsLeft > 0 && AnyBroken(w.playbacks) {
      FailKeeps(w);
    } else if w.response.segmentsLeft > 0 {
      BaseOnward(w, w.Say(OtherEvent, w.response.correlation, ResponseDetails(w.response.id)).m);
    }
  }

  lemma TextArrivesKeeps(w: World, segments: nat, raises: bool)
    requires Inv(w) && w.control.InReasoner?
    ensures Inv(w.TextArrives(segments, raises))
  {
    hide World.Leads, World.Winds, Follows, Carries, Announces, Backed, Timely, World.Gather, World.Fail, World.NextSegment;
    if AnyBroken(w.playbacks) {
      FailKeeps(w);
    } else if w.Dropped() {
      GatherKeeps(w, false);
    } else {
      var w1 := w.Say(OtherEvent, w.response.correlation, ResponseDetails(w.response.id));
      BaseOnward(w, w1.m);
      FailKeeps(w1);
      NextSegmentKeeps(w1.(response := w1.response.(segmentsLeft := segments)));
    }
  }

  lemma RetryKeeps(w: World)
    requires Inv(w) && w.control.Closing? && w.response.firstAudio && !w.cancelSet && w.response.attempt == 0
    ensures Inv(w.Retry())
  {
    hide World.Leads, World.Winds, Follows, Carries, Announces, Backed, Timely, UnfinishedCount, World.SameIdentity;
    BaseOnward(w, w.Retry().m);
  }

  lemma StreamClosedKeeps(w: World, cause: Cause, raises: bool)
    requires Inv(w) && w.control.Closing?
    ensures Inv(w.StreamClosed(cause, raises))
  {
    hide World.Leads, World.Winds, Follows, Carries, Announces, Backed, Timely, World.Gather, World.Fail, World.NextSegment, World.Retry,
         World.Leads, World.SameIdentity, UnfinishedCount;
    FailKeeps(w);
    if w.cancelSet { GatherKeeps(w, false); }
    if w.response.emitted { NextSegmentKeeps(w); }
    if w.RetryDue(cause, raises) { RetryKeeps(w); }
  }

  /** Registering and queueing an unseen chunk succeeds and adds exactly its queued entry. */
  lemma EnlistedShape(b: Book, speech: Speech, g: nat, q: nat)
    requires Valid(b) && g <= q && speech.samples >= 1 && speech.chunkId !in b.entries
    ensures var (b1, ok1) := Register(b, speech, g);
      var (b2, ok2) := Queue(b1, speech.chunkId, q);
      && ok1 && ok2 && Valid(b2)
      && b2.entries == b.entries[speech.chunkId := Fresh(speech, g).(queuedNs := Some(q), state := Queued)]
  {
    var b1 := Register(b, speech, g).0;
    RegisterKeeps(b, speech, g);
    QueueKeeps(b1, speech.chunkId, q);
  }

  /** A new chunk enters the book queued, and its task is the only one that is new. */
  lemma EnlistedBacked(b: Book, b2: Book, ps: seq<Playback>, id: string, speech: Speech, g: nat, q: nat)
    requires Backed(b, ps, id, false) && Valid(b2)
    requires speech.responseId == id && speech.chunkId !in b.entries
    requires b2.entries == b.entries[speech.chunkId := Fresh(speech, g).(queuedNs := Some(q), state := Queued)]
    ensures Backed(b2, ps + [Playback(speech.chunkId, speech.samples, 0, 0, Pending)], id, false)
  {
    hide Valid;
    var p := Playback(speech.chunkId, speech.samples, 0, 0, Pending);
    var qs := ps + [p];
    forall i | 0 <= i < |qs|
      ensures qs[i].chunkId in b2.entries && Matches(b2.entries[qs[i].chunkId], qs[i], false)
      ensures b2.entries[qs[i].chunkId].responseId == id
    {
      if i < |ps| {
        assert qs[i] == ps[i];
        assert Matches(b.entries[ps[i].chunkId], ps[i], false);
      } else {
        assert qs[i] == p;
      }
    }
    forall c | c in b2.entries && b2.entries[c].responseId == id ensures Tracked(qs, c) {
      if c == speech.chunkId {
        assert qs[|ps|].chunkId == c;
      } else {
        assert Tracked(ps, c);
        var i :| 0 <= i < |ps| && ps[i].chunkId == c;
        assert qs[i].chunkId == c;
      }
    }
  }

  /** The ledger, the gate's memory and the machine after an accepted chunk was enlisted. */
  lemma EnlistShape(w: World, chunk: Chunk)
    requires Base(w) && chunk.speech.samples >= 1 && chunk.speech.chunkId !in w.seenChunks
    ensures var w' := w.NoteReceived(chunk).Enlist(chunk.speech);
      && Onward(w.m, w'.m) && w'.m.state == w.m.state && w'.m.epoch == w.m.epoch
      && Valid(w'.ledger) && !w'.fault
      && Timely(w'.ledger, w'.m.clock.Now())
      && (exists g: nat, q: nat ::
           w'.ledger.entries
           == w.ledger.entries[chunk.speech.chunkId := Fresh(chunk.speech, g).(queuedNs := Some(q), state := Queued)])
      && w' == w.(m := w'.m, ledger := w'.ledger, seenChunks := w.seenChunks + {chunk.speech.chunkId},
                  seenSequences := w.seenSequences + {(chunk.streamId, chunk.sequence)},
                  response := w.response.(emitted := true))
  {
    hide World.Leads, World.Winds, Follows, Carries, Announces, Register, Queue;
    var w1 := w.NoteReceived(chunk);
    var g := w1.m.clock.Now();
    var q := w1.Tick().m.clock.Now();
    assert g <= q;
    assert chunk.speech.chunkId !in w.ledger.entries;
    EnlistedShape(w.ledger, chunk.speech, g, q);
    var w' := w1.Enlist(chunk.speech);
    assert w.m.clock.Now() <= g && q <= w'.m.clock.Now();
    Later(w.ledger, w.m.clock.Now(), w'.m.clock.Now());
    TimelyAdded(w.ledger, w'.ledger, chunk.speech, g, q, w'.m.clock.Now());
  }

  lemma TimelyAdded(b: Book, b2: Book, speech: Speech, g: nat, q: nat, now: nat)
    requires Timely(b, now) && g <= now && q <= now
    requires b2.entries == b.entries[speech.chunkId := Fresh(speech, g).(queuedNs := Some(q), state := Queued)]
    ensures Timely(b2, now)
  {
  }

  lemma EnterKeeps(w: World, chunk: Chunk)
    requires Base(w) && InLoops(w) && Live(w) && !w.cancelSet
    requires chunk.speech.responseId == w.response.id && chunk.speech.samples >= 1
    requires chunk.speech.chunkId !in w.seenChunks
    requires UnfinishedCount(w.playbacks) < 2 && w.owner == Some(w.response.id)
    ensures Inv(w.Enter(chunk)) && w.Enter(chunk).control.InSynth?
  {
    hide World.Leads, World.Winds, Follows, Carries, Announces, Backed, Timely, Register, Queue, Valid, World.NoteReceived, World.Enlist;
    EnlistShape(w, chunk);
    var w1 := w.NoteReceived(chunk).Enlist(chunk.speech);
    var g: nat, q: nat :|
      w1.ledger.entries
      == w.ledger.entries[chunk.speech.chunkId := Fresh(chunk.speech, g).(queuedNs := Some(q), state := Queued)];
    assert chunk.speech.chunkId !in w.ledger.entries;
    EnlistedBacked(w.ledger, w1.ledger, w.playbacks, w.response.id, chunk.speech, g, q);
    CountAppend(w.playbacks, Playback(chunk.speech.chunkId, chunk.speech.samples, 0, 0, Pending));
    ScheduleKeeps(w1, chunk);
  }

  lemma ScheduleKeeps(w: World, chunk: Chunk)
    requires !w.fault && NonDecreasing(w.m.clock.at) && Timely(w.ledger, w.m.clock.Now())
    requires Known(w) && CancelOwn(w) && InLoops(w) && Live(w) && !w.cancelSet
    requires w.response.retries <= 1 && w.response.toolRuns <= 1 && w.response.reasonerRuns <= 1
    requires w.response.firstAudio ==> w.response.retries == w.response.attempt
    requires w.response.firstAudio <==> w.playbacks == []
    requires w.owner == Some(w.response.id)
    requires var ps := w.playbacks + [Playback(chunk.speech.chunkId, chunk.speech.samples, 0, 0, Pending)];
      UnfinishedCount(ps) <= 2 && Backed(w.ledger, ps, w.response.id, false)
    ensures Inv(w.Schedule(chunk)) && w.Schedule(chunk).control.InSynth?
  {
    hide World.Leads, World.Winds, Follows, Carries, Announces, Backed, Timely, UnfinishedCount, World.Schedule;
    var w' := w.Schedule(chunk);
    ScheduleShape(w, chunk);
    Later(w.ledger, w.m.clock.Now(), w'.m.clock.Now());
  }

  /** The first audio of a response is the only way into speaking. */
  lemma ScheduleShape(w: World, chunk: Chunk)
    requires !w.cancelSet && w.m.state == (if w.response.firstAudio then Thinking else Speaking)
    ensures var w' := w.Schedule(chunk);
      && Onward(w.m, w'.m) && w'.m.state.Speaking? && w'.m.epoch == w.m.epoch
      && w' == w.(m := w'.m, response := w.response.(firstAudio := false), control := InSynth,
                  playbacks := w.playbacks
                    + [Playback(chunk.speech.chunkId, chunk.speech.samples, 0, 0, Pending)],
                  sink := w.sink[chunk.speech.chunkId := 0])
  {
    hide World.Leads, World.Winds, Follows, Carries, Announces, World.FirstAudio;
    FirstAudioShape(w);
  }

  lemma FirstAudioShape(w: World)
    requires !w.cancelSet && w.m.state == (if w.response.firstAudio then Thinking else Speaking)
    ensures var w' := w.FirstAudio();
      && Onward(w.m, w'.m) && w'.m.state.Speaking? && w'.m.epoch == w.m.epoch
      && w' == w.(m := w'.m, response := w.response.(firstAudio := false))
  {
    hide World.Leads, World.Winds, Follows, Carries, Announces, World.Go;
    if w.response.firstAudio {
      GoShape(w.Say(OtherEvent, w.response.correlation, ResponseDetails(w.response.id))
               .(response := w.response.(firstAudio := false)), Speaking, w.response.correlation);
    }
  }

  lemma TakeShape(w: World)
    requires w.owner.None? || w.owner == Some(w.response.id)
    ensures var w' := w.TakeOwnership();
      && Onward(w.m, w'.m) && w'.m.state == w.m.state && w'.m.epoch == w.m.epoch
      && w' == w.(m := w'.m, owner := Some(w.response.id))
  {
    hide World.SameIdentity, World.Leads, World.Winds, Follows, Carries, Announces;
  }

  lemma PinShape(w: World, key: string)
    ensures var w' := w.PinProvider(key);
      && Onward(w.m, w'.m) && w'.m.state == w.m.state && w'.m.epoch == w.m.epoch
      && w' == w.(m := w'.m, provider := w'.provider)
  {
    hide World.SameIdentity, World.Leads, World.Winds, Follows, Carries, Announces;
  }

  /** Claiming the sink and pinning the provider touch only the stream and those two fields. */
  lemma ClaimShape(w: World, key: string)
    requires w.owner.None? || w.owner == Some(w.response.id)
    ensures var w' := w.TakeOwnership().PinProvider(key);
      && Onward(w.m, w'.m) && w'.m.state == w.m.state && w'.m.epoch == w.m.epoch
      && w'.owner == Some(w.response.id)
      && w' == w.(m := w'.m, owner := w'.owner, provider := w'.provider)
      && Onward(w.m, w.TakeOwnership().m) && w.TakeOwnership().m.state == w.m.state
      && w.TakeOwnership().m.epoch == w.m.epoch
      && w.TakeOwnership() == w.(m := w.TakeOwnership().m, owner := w'.owner)
  {
    hide World.SameIdentity, World.Leads, World.Winds, Follows, Carries, Announces, World.TakeOwnership, World.PinProvider;
    TakeShape(w);
    PinShape(w.TakeOwnership(), key);
  }

  /** A rejected chunk leaves no trace but its event. */
  lemma RejectKeeps(w: World, kind: EventType, payload: Payload)
    requires Base(w) && InLoops(w) && Live(w)
    ensures Inv(w.Say(kind, w.response.correlation, payload).(control := InSynth))
  {
    hide World.Leads, Follows, Carries, Announces, Backed, Timely, UnfinishedCount;
    BaseOnward(w, w.Say(kind, w.response.correlation, payload).m);
  }

  lemma AdmitKeeps(w: World, chunk: Chunk)
    requires Base(w) && InLoops(w) && Live(w) && chunk.speech.samples >= 1
    requires UnfinishedCount(w.playbacks) < 2
    ensures Inv(w.Admit(chunk))
  {
    hide World.SameIdentity, World.Leads, World.Proceeds, Follows, Carries, Announces, World.Say,
         Backed, Timely, UnfinishedCount, World.Enter, World.TakeOwnership, World.PinProvider;
    var details := ChunkDetails(w.response.id, chunk.speech.chunkId);
    if w.Stale(chunk) {
      RejectKeeps(w, StaleChunkRejected, details);
    } else if w.Seen(chunk) {
      RejectKeeps(w, DuplicateChunkRejected, details);
    } else {
      assert !w.cancelSet by { assert w.cancelSet ==> w.response.id in w.cancelled; }
      ClaimShape(w, chunk.provider);
      var w1 := w.TakeOwnership();
      Later(w.ledger, w.m.clock.Now(), w1.m.clock.Now());
      var w2 := w1.PinProvider(chunk.provider);
      Later(w.ledger, w.m.clock.Now(), w2.m.clock.Now());
      EnterKeeps(w2, chunk);
    }
  }

  lemma ChunkArrivesKeeps(w: World, chunk: Chunk)
    requires Inv(w) && w.control.InSynth? && chunk.speech.samples >= 1
    ensures Inv(w.ChunkArrives(chunk))
  {
    hide World.Leads, World.Winds, Follows, Carries, Announces, Backed, Timely, UnfinishedCount, World.Admit;
    if !AnyBroken(w.playbacks) {
      if w.Dropped() {
        BaseOnward(w, w.ChunkArrives(chunk).m);
      } else if UnfinishedCount(w.playbacks) >= 2 {
        CountBounds(w.playbacks);
      } else {
        AdmitKeeps(w, chunk);
      }
    }
  }

  lemma CapacityFreedKeeps(w: World)
    requires Inv(w) && w.control.InCapacity? && UnfinishedCount(w.playbacks) < 2
    ensures Inv(w.CapacityFreed(w.control.chunk))
  {
    hide World.Leads, World.Winds, Follows, Carries, Announces, Backed, Timely, UnfinishedCount, World.Admit;
    if !AnyBroken(w.playbacks) { AdmitKeeps(w, w.control.chunk); }
  }

  // ----- launch and tool -----

  lemma GenerateKeeps(w: World)
    requires Base(w) && InLoops(w) && Live(w) && w.response.firstAudio && w.response.attempt == 0
    requires w.response.reasonerRuns == 0
    ensures Inv(w.Generate())
  {
    hide World.Leads, World.Winds, Follows, Carries, Announces, Backed, Timely;
    BaseOnward(w, w.Say(AgentGenerationStarted, w.response.correlation, ResponseDetails(w.response.id)).m);
  }

  /** Back from the coordinator: a dropped response ends silently, any other one starts reasoning. */
  lemma AfterCoordinatorKeeps(w: World)
    requires Base(w) && Live(w) && w.response.firstAudio && w.response.attempt == 0
    requires w.response.reasonerRuns == 0 && !w.response.failed
    requires w.m.state.Thinking? || (w.cancelSet && (w.m.state.Interrupted? || Stray(w)))
    ensures Inv(w.AfterCoordinator())
  {
    hide World.Leads, World.Winds, Follows, Carries, Announces, Backed, Timely, World.Finally, World.Generate;
    if w.Dropped() {
      BaseOnward(w, w.AskDropped().m);
      FinallyKeeps(w.AskDropped());
    } else {
      GenerateKeeps(w);
    }
  }

  /** Planning a tool call leaves the response waiting for the tool. */
  lemma ToolCallKeeps(w: World)
    requires Inv(w) && w.control.Created? && w.m.state.Thinking?
    ensures Inv(w.LaunchWith(ToolCall))
  {
    hide World.SameIdentity, World.Leads, World.Proceeds, Follows, Carries, Announces, Backed, Timely, UnfinishedCount,
         World.Fail, World.Generate, World.AfterCoordinator, World.Go;
    var c := w.response.correlation;
    GoShape(w, ToolWait, c);
    var w1 := w.Go(ToolWait, c).Say(OtherEvent, c, NoDetails);
    Later(w.ledger, w.m.clock.Now(), w1.m.clock.Now());
  }

  lemma LaunchKeeps(w: World, setup: Setup)
    requires Inv(w) && w.control.Created?
    ensures Inv(w.LaunchWith(setup))
  {
    hide World.SameIdentity, World.Leads, World.Proceeds, Follows, Carries, Announces, Backed, Timely, UnfinishedCount,
         World.Fail, World.Generate, World.AfterCoordinator, World.Go;
    match setup
    case NoCoordinator => GenerateKeeps(w);
    case NoPlan => AfterCoordinatorKeeps(w);
    case CoordinatorRaises => FailKeeps(w);
    case ToolCall => if w.m.state.Thinking? { ToolCallKeeps(w); } else { FailKeeps(w); }
  }

  lemma ToolFailedShape(w: World, ok: bool)
    ensures var w' := w.ToolFailed(ok);
      Onward(w.m, w'.m) && w'.m.state == w.m.state && w' == w.(m := w'.m)
  {
    hide World.Leads, World.Winds, Follows, Carries, Announces;
  }

  lemma ToolRecoveredShape(w: World)
    requires w.m.state.ToolWait?
    ensures var w' := w.ToolRecovered();
      Onward(w.m, w'.m) && w'.m.state.Thinking? && w' == w.(m := w'.m)
  {
    hide World.Leads, World.Winds, Follows, Carries, Announces, World.Go;
    var c := w.response.correlation;
    GoShape(w, Recovering, c);
    GoShape(w.Go(Recovering, c).Say(RecoveryStarted, c, NoDetails), Thinking, c);
  }

  /** The tool executor always hands back a thinking session, whatever happened meanwhile. */
  lemma ToolSettledShape(w: World, ok: bool)
    requires w.m.state.ToolWait?
    ensures var w' := w.ToolSettled(ok).Accept();
      Onward(w.m, w'.m) && w'.m.state.Thinking? && w' == w.(m := w'.m)
  {
    hide World.Leads, World.Winds, Follows, Carries, Announces, World.ToolFailed, World.ToolRecovered;
    ToolFailedShape(w, ok);
    ToolRecoveredShape(w.ToolFailed(ok));
  }

  lemma ToolReturnedKeeps(w: World, ok: bool, raises: bool)
    requires Inv(w) && w.control.InTool?
    ensures Inv(w.ToolReturned(ok, raises))
  {
    hide World.Leads, World.Winds, Follows, Carries, Announces, Backed, Timely, World.Fail, World.AfterCoordinator, World.ToolSettled;
    ToolSettledShape(w, ok);
    var w1 := w.ToolSettled(ok).Accept();
    BaseOnward(w, w1.m);
    FailKeeps(w1);
    AfterCoordinatorKeeps(w1);
  }

  // ----- callers -----

  lemma BackedCancelled(b: Book, ps: seq<Playback>, id: string, cancelSet: bool)
    requires Backed(b, ps, id, cancelSet)
    ensures Backed(b, ps, id, true)
  {
    forall i | 0 <= i < |ps| ensures Matches(b.entries[ps[i].chunkId], ps[i], true) {
      assert Matches(b.entries[ps[i].chunkId], ps[i], cancelSet);
    }
  }

  lemma InterruptSpeechShape(w: World, correlation: string)
    requires w.m.state.Speaking?
    ensures var w' := w.InterruptSpeech(correlation);
      Onward(w.m, w'.m) && w'.m.state.Interrupted? && w' == w.(m := w'.m)
  {
    hide World.Leads, World.Winds, Follows, Carries, Announces, World.Go;
    GoShape(w, PossibleInterruption, correlation);
    GoShape(w.Go(PossibleInterruption, correlation).Announce(correlation), Interrupted, correlation);
  }

  lemma EnterInterruptedShape(w: World, correlation: string)
    ensures var w' := w.EnterInterrupted(correlation);
      && Onward(w.m, w'.m)
      && w'.m.state == (if w.m.state in {Speaking, PossibleInterruption, Overlap, Thinking}
                        then Interrupted else w.m.state)
      && w' == w.(m := w'.m)
  {
    hide World.Leads, World.Winds, Follows, Carries, Announces, World.Go, World.InterruptSpeech;
    match w.m.state
    case Speaking => InterruptSpeechShape(w, correlation);
    case PossibleInterruption => GoShape(w, Interrupted, correlation);
    case Overlap => GoShape(w, Interrupted, correlation);
    case Thinking => GoShape(w, Interrupted, correlation);
    case _ =>
  }

  lemma SignalCancelShape(w: World, correlation: string)
    ensures var w' := w.SignalCancel(correlation);
      && Onward(w.m, w'.m) && w'.m.state == w.m.state
      && w' == w.(m := w'.m, cancelSet := true, cancelled := w.cancelled + {w.response.id})
  {
    hide World.Leads, World.Winds, Follows, Carries, Announces;
  }

  /** What an interruption does to the machine and to the shared fields. */
  lemma InterruptShape(w: World, correlation: string)
    requires !w.control.Done? && !w.cancelSet
    ensures var w' := w.Interrupt(correlation);
      && Onward(w.m, w'.m)
      && w'.m.state == (if w.m.state in {Speaking, PossibleInterruption, Overlap, Thinking}
                        then Interrupted else w.m.state)
      && w' == w.(m := w'.m, cancelCorrelation := Some(correlation), cancelSet := true,
                  cancelled := w.cancelled + {w.response.id})
  {
    hide World.Leads, World.Winds, Follows, Carries, Announces, World.EnterInterrupted, World.SignalCancel;
    var w1 := w.(cancelCorrelation := Some(correlation));
    EnterInterruptedShape(w1, correlation);
    SignalCancelShape(w1.EnterInterrupted(correlation), correlation);
  }

  lemma InterruptKeeps(w: World, correlation: string)
    requires Inv(w)
    ensures Inv(w.Interrupt(correlation))
  {
    hide World.Leads, World.Winds, Follows, Carries, Announces, Backed, Timely, World.EnterInterrupted, World.SignalCancel;
    if !w.control.Done? && !w.cancelSet {
      InterruptShape(w, correlation);
      BackedCancelled(w.ledger, w.playbacks, w.response.id, w.cancelSet);
      Later(w.ledger, w.m.clock.Now(), w.Interrupt(correlation).m.clock.Now());
    }
  }

  lemma ConfirmKeeps(w: World, correlation: string)
    requires Inv(w)
    ensures Inv(w.Confirm(correlation))
  {
    hide World.Leads, World.Winds, Follows, Carries, Announces, Backed, Timely, World.Interrupt;
    var w1 := w.Say(TurnConfirmed, correlation, NoDetails);
    SayKeeps(w, TurnConfirmed, correlation, NoDetails);
    InterruptKeeps(w1, correlation);
  }

  /** A record changes nothing but the stream. */
  lemma SayKeeps(w: World, kind: EventType, correlation: string, payload: Payload)
    requires Inv(w)
    ensures Inv(w.Say(kind, correlation, payload))
  {
    hide World.Leads, World.Winds, Follows, Carries, Announces, Backed, Timely;
    BaseOnward(w, w.Say(kind, correlation, payload).m);
  }

  lemma BeginKeeps(w: World, correlation: string, id: string)
    requires Inv(w) && id !in w.usedIds
    ensures Inv(w.Begin(correlation, id))
  {
    hide World.Leads, World.Winds, Follows, Carries, Announces, World.Go;
    if w.control.Done? && w.m.state.Listening? {
      GoShape(w, Thinking, correlation);
      var w' := w.Begin(correlation, id);
      Later(w.ledger, w.m.clock.Now(), w'.m.clock.Now());
      assert Backed(w'.ledger, [], id, false) by {
        assert forall c | c in w.ledger.entries :: w.ledger.entries[c].responseId in w.usedIds;
      }
    }
  }

  lemma OverlapKeeps(w: World, correlation: string, acousticEpisode: bool)
    requires Inv(w)
    ensures Inv(w.OverlapStep(correlation, acousticEpisode))
  {
    hide World.Leads, World.Winds, Follows, Carries, Announces, Backed, Timely, World.Go;
    if w.m.CanMove(Overlap) {
      GoShape(w, Overlap, correlation);
      var w1 := w.Go(Overlap, correlation);
      GoShape(w1, Speaking, correlation);
      BaseOnward(w, w1.Go(Speaking, correlation).m);
    }
  }

  // ----- playback tasks -----

  /** A playback step leaves the response task and the shared identities alone. */
  ghost predicate SameTask(w: World, w': World) {
    && w' == w.(m := w'.m, ledger := w'.ledger, playbacks := w'.playbacks, sink := w'.sink,
                acknowledged := w'.acknowledged)
    && w'.m.state == w.m.state && w'.m.epoch == w.m.epoch && w'.m.conversationId == w.m.conversationId
    && |w'.playbacks| == |w.playbacks|
  }

  /** Only a response that still has work, or that failed, has unfinished tasks. */
  lemma UnfinishedMeansLive(w: World, i: nat)
    requires Inv(w) && i < |w.playbacks| && Unfinished(w.playbacks[i])
    ensures !w.control.Done? && (w.control.Finishing? ==> w.response.failed)
    ensures !w.control.Created? && !w.control.InTool?
  {
    hide World.Leads, World.Winds, Follows, Carries, Announces, Backed, Timely;
  }

  lemma PlaybackWhere(w: World, w': World, i: nat)
    requires Inv(w) && i < |w.playbacks| && Unfinished(w.playbacks[i])
    requires SameTask(w, w') && Base(w')
    ensures Inv(w')
  {
    hide World.Leads, World.Winds, Follows, Carries, Announces, Backed, Timely, Base;
    UnfinishedMeansLive(w, i);
  }

  /** A task whose sink is about to return; the entry may already be cancelled or unconfirmed. */
  ghost predicate Stoppable(e: Entry, p: Playback, cancelSet: bool, now: nat) {
    && p.total == e.total && p.played <= p.total && p.startedNs <= now
    && (cancelSet || p.played == p.total)
    && ((e.state.Playing? && e.startedNs == Some(p.startedNs))
        || e.state.PlaybackUnconfirmed?
        || (e.state.Cancelled? && cancelSet && p.played == 0))
  }

  /** Everything but task `i` is in order. */
  ghost predicate BaseBut(w: World, i: nat) {
    i < |w.playbacks| && Base(w.Put(i, w.playbacks[i].(phase := Broken)))
  }

  /** One task and its entry change together. */
  lemma UpdateBacked(b: Book, ps: seq<Playback>, id: string, cancelSet: bool, i: nat, b': Book, p: Playback)
    requires i < |ps| && Backed(b, ps, id, cancelSet) && Valid(b')
    requires p.chunkId == ps[i].chunkId && p.chunkId in b'.entries
    requires b'.entries == b.entries[p.chunkId := b'.entries[p.chunkId]]
    requires b'.entries[p.chunkId].responseId == id && !b'.entries[p.chunkId].state.Generated?
    requires Matches(b'.entries[p.chunkId], p, cancelSet)
    ensures Backed(b', ps[i := p], id, cancelSet)
  {
    var qs := ps[i := p];
    forall k | 0 <= k < |qs|
      ensures qs[k].chunkId in b'.entries && Matches(b'.entries[qs[k].chunkId], qs[k], cancelSet)
      ensures b'.entries[qs[k].chunkId].responseId == id
    {
      if k != i { assert Matches(b.entries[ps[k].chunkId], ps[k], cancelSet); }
    }
    forall c | c in b'.entries && b'.entries[c].responseId == id ensures Tracked(qs, c) {
      assert Tracked(ps, c);
      var k :| 0 <= k < |ps| && ps[k].chunkId == c;
      assert qs[k].chunkId == c;
    }
  }

  lemma PutCount(w: World, i: nat, p: Playback)
    requires i < |w.playbacks| && UnfinishedCount(w.playbacks) <= 2 && !Unfinished(p)
    ensures UnfinishedCount(w.playbacks[i := p]) <= 2
  {
    CountPut(w.playbacks, i, p);
  }

  /** An accepted receipt leaves its entry settled and touches no other. */
  lemma FinishShape(b: Book, r: Receipt)
    requires r.chunkId in b.entries && Finish(b, r).1
    ensures var b' := Finish(b, r).0;
      var e, e' := b.entries[r.chunkId], b'.entries[r.chunkId];
      && b'.entries == b.entries[r.chunkId := e']
      && b'.entries.Keys == b.entries.Keys
      && (e'.state.Played? || e'.state.Cancelled?)
      && e'.responseId == e.responseId && e'.total == e.total
      && e'.generatedNs == e.generatedNs && e'.startedNs == e.startedNs
  {
  }

  lemma TimelyFinished(b: Book, r: Receipt, now: nat)
    requires Timely(b, now) && r.chunkId in b.entries && Finish(b, r).1
    ensures Timely(Finish(b, r).0, now)
  {
  }

  /** The receipt of a stopped task settles its entry, unless somebody already did. */
  lemma ReceiptKeeps(w: World, i: nat, r: Receipt)
    requires i < |w.playbacks| && Base(w) && w.playbacks[i].phase.Broken?
    requires r.chunkId == w.playbacks[i].chunkId && ValidReceipt(r) && Finish(w.ledger, r).1
    ensures Base(w.(ledger := Finish(w.ledger, r).0).Put(i, w.playbacks[i].(phase := Finished)))
  {
    hide World.Leads, World.Winds, Follows, Carries, Announces, UnfinishedCount, Finish, Timely, Valid;
    var b' := Finish(w.ledger, r).0;
    var p := w.playbacks[i].(phase := Finished);
    assert Matches(w.ledger.entries[p.chunkId], w.playbacks[i], w.cancelSet);
    FinishKeeps(w.ledger, r);
    FinishShape(w.ledger, r);
    UpdateBacked(w.ledger, w.playbacks, w.response.id, w.cancelSet, i, b', p);
    ReceiptBase(w, i, b', p);
    TimelyFinished(w.ledger, r, w.m.clock.Now());
  }

  lemma ReceiptBase(w: World, i: nat, b': Book, p: Playback)
    requires i < |w.playbacks| && Base(w) && !Unfinished(p)
    requires b'.entries.Keys == w.ledger.entries.Keys && p.chunkId in b'.entries
    requires b'.entries == w.ledger.entries[p.chunkId := b'.entries[p.chunkId]]
    requires b'.entries[p.chunkId].responseId == w.response.id && !b'.entries[p.chunkId].Open()
    ensures var w' := w.(ledger := b').Put(i, p);
      Known(w') && Bounded(w') && (w'.response.failed ==> NothingOpen(w'.ledger)) && w'.playbacks != []
  {
    hide World.Leads, World.Winds, Follows, Carries, Announces, Backed, Timely, UnfinishedCount;
    PutCount(w, i, p);
  }

  /** Announcing the stop only concerns the stream and the set of acknowledged responses. */
  lemma AcknowledgeKeeps(w: World, chunkId: string)
    requires Base(w) && w.cancelSet
    ensures Base(w.Acknowledge(chunkId))
    ensures w.Acknowledge(chunkId) == w.(m := w.Acknowledge(chunkId).m, acknowledged := w.Acknowledge(chunkId).acknowledged)
    ensures w.Acknowledge(chunkId).m.state == w.m.state && w.Acknowledge(chunkId).m.epoch == w.m.epoch
    ensures Onward(w.m, w.Acknowledge(chunkId).m)
  {
    hide World.Leads, World.Winds, Follows, Carries, Announces, Backed, Timely;
    BaseOnward(w, w.Acknowledge(chunkId).m);
  }

  lemma StoppedKeeps(w: World, chunkId: string, ns: nat)
    requires Base(w) && w.cancelSet
    requires forall c | c in w.ledger.entries :: w.ledger.entries[c].generatedNs <= ns
    ensures Base(w.CancelRest(ns).Acknowledge(chunkId)) && SameTask(w, w.CancelRest(ns).Acknowledge(chunkId))
  {
    hide World.Leads, World.Winds, Follows, Carries, Announces, Base, World.Acknowledge, CancelFrom;
    CancelRestKeeps(w, ns);
    AcknowledgeKeeps(w.CancelRest(ns), chunkId);
  }

  /** A sink that returns leaves everything in order, whether its receipt is accepted or refused. */
  lemma StopKeeps(w: World, i: nat)
    requires BaseBut(w, i) && w.playbacks[i].chunkId in w.ledger.entries
    requires Stoppable(w.ledger.entries[w.playbacks[i].chunkId], w.playbacks[i], w.cancelSet, w.m.clock.Now())
    ensures Base(w.Stop(i)) && SameTask(w, w.Stop(i))
  {
    hide World.Leads, World.Winds, Follows, Carries, Announces, Base, World.Acknowledge, World.CancelRest, Finish;
    var p := w.playbacks[i];
    var broken := p.(phase := Broken);
    var w0 := w.Put(i, broken).Tick();
    BaseOnward(w.Put(i, broken), w0.m);
    var ns := w.m.clock.Now();
    var stopped := w.cancelSet && p.played < p.total;
    var r := Receipt(p.chunkId, p.total, p.played, p.startedNs, ns, stopped);
    SoundTotal(w.Put(i, broken), i);
    if Finish(w.ledger, r).1 {
      ReceiptKeeps(w0, i, r);
      assert w0.playbacks[i := p.(phase := Finished)] == w.playbacks[i := p.(phase := Finished)];
      var w1 := w.Tick().(ledger := Finish(w.ledger, r).0).Put(i, p.(phase := Finished));
      var w2 := w1.Say(AudioChunkPlayed, w.response.correlation, ChunkDetails(w.response.id, p.chunkId));
      BaseOnward(w1, w2.m);
      if stopped {
        FinishedBefore(w, i, r);
        StoppedKeeps(w2, p.chunkId, ns);
      }
    }
  }

  lemma SoundTotal(w: World, i: nat)
    requires Base(w) && i < |w.playbacks|
    ensures w.playbacks[i].chunkId in w.ledger.entries && 1 <= w.ledger.entries[w.playbacks[i].chunkId].total
  {
    assert SoundEntry(w.ledger.entries[w.playbacks[i].chunkId]);
  }

  lemma FinishedBefore(w: World, i: nat, r: Receipt)
    requires BaseBut(w, i) && Finish(w.ledger, r).1 && r.chunkId in w.ledger.entries
    ensures forall c | c in Finish(w.ledger, r).0.entries ::
              Finish(w.ledger, r).0.entries[c].generatedNs <= w.m.clock.Now()
  {
    GeneratedBefore(w.Put(i, w.playbacks[i].(phase := Broken)));
    FinishShape(w.ledger, r);
  }

  /** Giving up on a task keeps everything else in order. */
  lemma BrokenKeeps(w: World, i: nat, p: Playback)
    requires Base(w) && i < |w.playbacks| && p.phase.Broken?
    requires p.chunkId == w.playbacks[i].chunkId && p.total == w.playbacks[i].total && p.played <= p.total
    ensures Base(w.Put(i, p))
  {
    hide World.Leads, World.Winds, Follows, Carries, Announces, UnfinishedCount, Valid, Timely;
    assert Matches(w.ledger.entries[p.chunkId], w.playbacks[i], w.cancelSet);
    UpdateBacked(w.ledger, w.playbacks, w.response.id, w.cancelSet, i, w.ledger, p);
    PutCount(w, i, p);
  }

  /** Giving a broken slot back to a task that matches its entry. */
  lemma ReviveKeeps(w: World, i: nat, p: Playback)
    requires BaseBut(w, i) && UnfinishedCount(w.playbacks) <= 2 && Unfinished(w.playbacks[i])
    requires p.chunkId == w.playbacks[i].chunkId && p.chunkId in w.ledger.entries
    requires Matches(w.ledger.entries[p.chunkId], p, w.cancelSet)
    ensures Base(w.Put(i, p))
  {
    hide World.Leads, World.Winds, Follows, Carries, Announces, UnfinishedCount, Valid, Timely;
    var broken := w.playbacks[i].(phase := Broken);
    var w0 := w.Put(i, broken);
    UpdateBacked(w.ledger, w0.playbacks, w.response.id, w.cancelSet, i, w.ledger, p);
    assert w0.playbacks[i := p] == w.playbacks[i := p];
    CountPut(w.playbacks, i, p);
  }

  /** A task in its playing loop, possibly overtaken by a cancellation or a recovery. */
  ghost predicate InLoop(w: World, i: nat) {
    && BaseBut(w, i) && UnfinishedCount(w.playbacks) <= 2 && Unfinished(w.playbacks[i])
    && w.playbacks[i].chunkId in w.ledger.entries
    && var e, p := w.ledger.entries[w.playbacks[i].chunkId], w.playbacks[i];
       && p.total == e.total && p.played <= p.total && p.startedNs <= w.m.clock.Now()
       && (e.startedNs == Some(p.startedNs) || (w.cancelSet && p.played < p.total))
       && ((e.state.Playing? && e.startedNs == Some(p.startedNs))
           || e.state.PlaybackUnconfirmed?
           || (e.state.Cancelled? && w.cancelSet && p.played == 0))
  }

  lemma LoopTestKeeps(w: World, i: nat)
    requires InLoop(w, i)
    ensures Base(w.LoopTest(i)) && SameTask(w, w.LoopTest(i))
  {
    hide World.Leads, World.Winds, Follows, Carries, Announces, Base, World.Stop;
    var p := w.playbacks[i];
    if p.played < p.total && !w.cancelSet {
      ReviveKeeps(w, i, p.(phase := Sleeping));
    } else {
      StopKeeps(w, i);
    }
  }

  /** A task suspended in its loop is ready for the next test. */
  lemma ResumeInLoop(w: World, i: nat)
    requires Inv(w) && i < |w.playbacks|
    requires w.playbacks[i].phase.Sleeping? || w.playbacks[i].phase.Observing?
    ensures InLoop(w, i)
  {
    hide World.Leads, World.Winds, Follows, Carries, Announces, Where, UnfinishedCount;
    BrokenKeeps(w, i, w.playbacks[i].(phase := Broken));
    assert Matches(w.ledger.entries[w.playbacks[i].chunkId], w.playbacks[i], w.cancelSet);
    assert Timely(w.ledger, w.m.clock.Now());
  }

  lemma ObserverKeeps(w: World, i: nat)
    requires Inv(w) && i < |w.playbacks| && w.playbacks[i].phase.Observing?
    ensures Inv(w.LoopTest(i)) && SameTask(w, w.LoopTest(i))
  {
    hide World.Leads, World.Winds, Follows, Carries, Announces, Base, World.LoopTest, Where;
    ResumeInLoop(w, i);
    LoopTestKeeps(w, i);
    PlaybackWhere(w, w.LoopTest(i), i);
  }

  lemma AdvanceKeeps(w: World, i: nat, block: nat, observed: bool)
    requires Inv(w) && i < |w.playbacks| && w.playbacks[i].phase.Sleeping?
    requires 1 <= block <= w.playbacks[i].total - w.playbacks[i].played
    ensures Inv(w.Advance(i, block, observed)) && SameTask(w, w.Advance(i, block, observed))
  {
    hide World.Leads, World.Winds, Follows, Carries, Announces, Base, World.LoopTest, World.Stop, Where, UnfinishedCount;
    ResumeInLoop(w, i);
    if w.cancelSet {
      StopKeeps(w, i);
    } else {
      var p := w.playbacks[i].(played := w.playbacks[i].played + block,
                               phase := if observed then Observing else Sleeping);
      var w1 := w.Put(i, p).(sink := w.sink[p.chunkId := p.played]);
      assert w1.playbacks[i := p.(phase := Broken)] == w.playbacks[i := p.(phase := Broken)];
      CountPut(w.playbacks, i, p);
      InvBase(w);
      BrokenKeeps(w, i, p.(phase := Broken));
      if observed {
        ReviveKeeps(w, i, p);
        SinkKeeps(w.Put(i, p), w1.sink);
      } else {
        SinkKeeps(w.Put(i, p.(phase := Broken)), w1.sink);
        LoopTestKeeps(w1, i);
      }
    }
    PlaybackWhere(w, w.Advance(i, block, observed), i);
  }

  lemma InvBase(w: World)
    requires Inv(w)
    ensures Base(w)
  {
  }

  /** The sink's own counters are history; nothing depends on them. */
  lemma SinkKeeps(w: World, sink: map<string, nat>)
    requires Base(w)
    ensures Base(w.(sink := sink))
  {
  }

  /** An accepted start makes a queued entry play; a cancelled one stays as it is. */
  lemma StartShape(b: Book, id: string, ns: nat)
    requires Valid(b) && Timely(b, ns) && id in b.entries
    requires b.entries[id].state.Queued? || b.entries[id].state.Cancelled?
    ensures var (b', ok) := StartPlayback(b, id, ns);
      && ok && Valid(b') && Timely(b', ns)
      && b'.entries
         == (if b.entries[id].state.Queued? then b.entries[id := b.entries[id].(startedNs := Some(ns), state := Playing)]
             else b.entries)
  {
    StartKeeps(b, id, ns);
    assert SoundEntry(b.entries[id]);
  }

  /** What waits for its sink: a queued entry, or one that a cancellation already reached. */
  lemma PendingEntry(w: World, i: nat)
    requires Base(w) && i < |w.playbacks| && w.playbacks[i].phase.Pending?
    ensures var p := w.playbacks[i];
      && p.chunkId in w.ledger.entries && p.played == 0 && 1 <= p.total
      && var e := w.ledger.entries[p.chunkId];
         p.total == e.total && (e.state.Queued? || (e.state.Cancelled? && w.cancelSet))
    ensures Valid(w.ledger) && Timely(w.ledger, w.m.clock.Now()) && UnfinishedCount(w.playbacks) <= 2
  {
    hide UnfinishedCount, Timely;
    assert Matches(w.ledger.entries[w.playbacks[i].chunkId], w.playbacks[i], w.cancelSet);
    assert SoundEntry(w.ledger.entries[w.playbacks[i].chunkId]);
  }

  /** The world just before a starting task first looks at the cancel event. */
  function Started(w: World, i: nat): World
    requires i < |w.playbacks|
  {
    var p := w.playbacks[i];
    w.Tick().(ledger := StartPlayback(w.ledger, p.chunkId, w.m.clock.Now()).0)
      .Put(i, p.(startedNs := w.m.clock.Now(), phase := Sleeping))
      .Say(AgentAudioStarted, w.response.correlation, ChunkDetails(w.response.id, p.chunkId))
  }

  lemma StartedShape(w: World, i: nat)
    requires i < |w.playbacks|
    ensures var p := w.playbacks[i];
      var w' := Started(w, i);
      && Onward(w.m, w'.m) && w'.m.state == w.m.state && w'.m.epoch == w.m.epoch
      && w' == w.(m := w'.m, ledger := StartPlayback(w.ledger, p.chunkId, w.m.clock.Now()).0,
                  playbacks := w.playbacks[i := p.(startedNs := w.m.clock.Now(), phase := Sleeping)])
      && w.StartPlaying(i)
         == if StartPlayback(w.ledger, p.chunkId, w.m.clock.Now()).1 then w'.LoopTest(i)
            else w.Tick().Put(i, p.(phase := Broken))
  {
    hide World.Leads, World.Winds, Follows, Carries, Announces, StartPlayback, World.LoopTest;
  }

  lemma StartedBaseBut(w: World, i: nat)
    requires Inv(w) && i < |w.playbacks| && w.playbacks[i].phase.Pending?
    ensures BaseBut(Started(w, i), i)
  {
    hide Base, World.StartPlaying, World.LoopTest, Started, Inv, UnfinishedCount, StartPlayback, Valid, Timely;
    var p := w.playbacks[i];
    var ns := w.m.clock.Now();
    InvBase(w);
    PendingEntry(w, i);
    StartShape(w.ledger, p.chunkId, ns);
    StartedShape(w, i);
    var b' := StartPlayback(w.ledger, p.chunkId, ns).0;
    var broken := p.(startedNs := ns, phase := Broken);
    StartedBase(w, i, b', broken);
    var w1 := Started(w, i);
    BaseOnward(w.(ledger := b').Put(i, broken), w1.m);
    assert w1.playbacks[i := broken] == w.playbacks[i := broken];
  }

  lemma StartedInLoop(w: World, i: nat)
    requires Inv(w) && i < |w.playbacks| && w.playbacks[i].phase.Pending?
    ensures InLoop(Started(w, i), i) && SameTask(w, Started(w, i))
    ensures w.StartPlaying(i) == Started(w, i).LoopTest(i)
  {
    hide Base, World.StartPlaying, World.LoopTest, Started, Inv, UnfinishedCount, StartPlayback, Valid, Timely;
    var p := w.playbacks[i];
    var ns := w.m.clock.Now();
    InvBase(w);
    PendingEntry(w, i);
    StartShape(w.ledger, p.chunkId, ns);
    StartedShape(w, i);
    StartedBaseBut(w, i);
    CountPut(w.playbacks, i, p.(startedNs := ns, phase := Sleeping));
    NowOnward(w, Started(w, i).m);
  }

  lemma StartPlayingKeeps(w: World, i: nat)
    requires Inv(w) && i < |w.playbacks| && w.playbacks[i].phase.Pending?
    ensures Inv(w.StartPlaying(i)) && SameTask(w, w.StartPlaying(i))
  {
    hide *;
    StartedInLoop(w, i);
    LoopTestKeeps(Started(w, i), i);
    SameTaskTransitive(w, Started(w, i), w.StartPlaying(i));
    StillUnfinished(w, i);
    PlaybackWhere(w, w.StartPlaying(i), i);
  }

  lemma StillUnfinished(w: World, i: nat)
    requires i < |w.playbacks| && w.playbacks[i].phase.Pending?
    ensures Unfinished(w.playbacks[i])
  {
  }

  lemma SameTaskTransitive(w0: World, w1: World, w2: World)
    requires SameTask(w0, w1) && SameTask(w1, w2)
    ensures SameTask(w0, w2)
  {
  }

  lemma NowOnward(w: World, m': Machine)
    requires Base(w) && Onward(w.m, m')
    ensures w.m.clock.Now() <= m'.clock.Now()
  {
  }

  lemma StartedBase(w: World, i: nat, b': Book, p: Playback)
    requires Base(w) && i < |w.playbacks| && w.playbacks[i].phase.Pending? && p.phase.Broken?
    requires p.chunkId == w.playbacks[i].chunkId && p.total == w.playbacks[i].total && p.played <= p.total
    requires p.chunkId in w.ledger.entries && Valid(b') && Timely(b', w.m.clock.Now())
    requires var e := w.ledger.entries[p.chunkId];
      b'.entries == if e.state.Queued?
                    then w.ledger.entries[p.chunkId := e.(startedNs := Some(w.m.clock.Now()), state := Playing)]
                    else w.ledger.entries
    ensures Base(w.(ledger := b').Put(i, p))
  {
    hide World.Leads, World.Winds, Follows, Carries, Announces, UnfinishedCount, Valid, Timely;
    assert Matches(w.ledger.entries[p.chunkId], w.playbacks[i], w.cancelSet);
    UpdateBacked(w.ledger, w.playbacks, w.response.id, w.cancelSet, i, b', p);
    PutCount(w, i, p);
  }

  lemma PlaybackRaisesKeeps(w: World, i: nat)
    requires Inv(w) && i < |w.playbacks| && Unfinished(w.playbacks[i])
    ensures Inv(w.Put(i, w.playbacks[i].(phase := Broken)))
  {
    hide World.Leads, World.Winds, Follows, Carries, Announces, Base, Where;
    InvBase(w);
    MatchedPlayed(w, i);
    BrokenKeeps(w, i, w.playbacks[i].(phase := Broken));
    PlaybackWhere(w, w.Put(i, w.playbacks[i].(phase := Broken)), i);
  }

  lemma MatchedPlayed(w: World, i: nat)
    requires Base(w) && i < |w.playbacks|
    ensures w.playbacks[i].played <= w.playbacks[i].total
  {
    assert Matches(w.ledger.entries[w.playbacks[i].chunkId], w.playbacks[i], w.cancelSet);
  }

  // ----- every step, every run -----

  lemma GatherReturnedKeeps(w: World, raises: bool)
    requires Inv(w) && w.control.Gathering?
    requires UnfinishedCount(w.playbacks) == 0 || AnyBroken(w.playbacks)
    ensures Inv(w.GatherReturned(raises))
  {
    hide World.Leads, World.Winds, Follows, Carries, Announces, Backed, Timely, UnfinishedCount, World.Complete, World.Fail;
    if AnyBroken(w.playbacks) {
      FailKeeps(w);
    } else {
      NotBrokenFinished(w.playbacks);
      CompleteKeeps(w, raises);
    }
  }

  lemma ControlKeeps(w: World, c: Choice)
    requires Inv(w) && Enabled(w, c)
    requires c.ReasonerEnds? || c.ReasonerRaises? || c.SynthEnds? || c.SynthRaises? || c.PlaybacksSettle?
    ensures Inv(Step(w, c))
  {
    hide World.Leads, World.Winds, Follows, Carries, Announces, Backed, Timely, World.Gather, World.Fail, World.Conclude, UnfinishedCount;
    match c
    case ReasonerEnds(raises) => GatherKeeps(w, raises);
    case ReasonerRaises => FailKeeps(w);
    case PlaybacksSettle =>
      CountBounds(w.playbacks);
      ConcludeKeeps(w);
    case _ =>
  }

  /** The invariant survives every step of every caller, provider, sink and scheduler. */
  lemma StepKeeps(w: World, c: Choice)
    requires Inv(w) && Enabled(w, c)
    ensures Inv(Step(w, c))
  {
    hide World.Leads, World.Winds, Follows, Carries, Announces, Inv;
    match c
    case ConfirmTurn(correlation) => ConfirmKeeps(w, correlation);
    case BeginResponse(correlation, id) => BeginKeeps(w, correlation, id);
    case InterruptNow(correlation) => InterruptKeeps(w, correlation);
    case BackgroundOverlap(correlation, acoustic) => OverlapKeeps(w, correlation, acoustic);
    case Telemetry(correlation) => SayKeeps(w, OtherEvent, correlation, NoDetails);
    case Launch(setup) => LaunchKeeps(w, setup);
    case ToolReturns(ok, raises) => ToolReturnedKeeps(w, ok, raises);
    case ReasonerYields(segments, raises) => TextArrivesKeeps(w, segments, raises);
    case SynthYields(chunk) => ChunkArrivesKeeps(w, chunk);
    case CapacityFrees => CapacityFreedKeeps(w);
    case StreamCloses(raises) => StreamClosedKeeps(w, w.control.cause, raises);
    case GatherReturns(raises) => GatherReturnedKeeps(w, raises);
    case PlaybackStarts(i) => StartPlayingKeeps(w, i);
    case PlaybackAdvances(i, block, observed) => AdvanceKeeps(w, i, block, observed);
    case ObserverReturns(i) => ObserverKeeps(w, i);
    case PlaybackRaises(i) => PlaybackRaisesKeeps(w, i);
    case _ => ControlKeeps(w, c);
  }

  lemma InitialInv(conversationId: string, at: nat -> nat, correlation: string)
    requires NonDecreasing(at)
    ensures Inv(Initial(conversationId, at, correlation))
  {
    hide World.Leads, World.Winds, Follows, Carries, Announces;
  }

  /** Every reachable world satisfies the invariant, on every interleaving. */
  lemma {:induction false} RunKeeps(w: World, cs: seq<Choice>)
    requires Inv(w) && Feasible(w, cs)
    ensures Inv(Run(w, cs))
    decreases cs
  {
    hide World.Leads, World.Winds, Follows, Carries, Announces, Inv, Step, Enabled;
    if cs != [] {
      StepKeeps(w, cs[0]);
      RunKeeps(Step(w, cs[0]), cs[1..]);
    }
  }
}
