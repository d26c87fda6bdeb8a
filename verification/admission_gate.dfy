/** The admission gate as an object: episodes are mutable objects in a bounded deque. */
module AdmissionGate {
  import opened Domain
  import opened FinalAdmission

  class PcmSpeechEpisode {
    const streamId: string
    const startNs: int
    const firstSequence: int
    const generation: nat
    var endNs: int
    var lastSequence: int
    var voicedMs: real
    var maxRms: real
    var maxPeak: real
    var threshold: real
    var state: EpisodeState
    var valid: bool
    var startedEmitted: bool
    var claimedBy: Option<string>

    ghost function Value(): Episode
      reads this
    {
      Episode(streamId, startNs, endNs, firstSequence, lastSequence, voicedMs, maxRms, maxPeak, threshold,
              generation, state, valid, startedEmitted, claimedBy)
    }

    constructor (f: Frame, threshold: real, generation: nat)
      ensures Value() == Episode(f.streamId, f.capturedNs, FrameEnd(f), f.sequence, f.sequence, 0.0, 0.0, 0.0,
                                 threshold, generation, Active, false, false, None)
    {
      streamId, startNs, firstSequence, this.generation := f.streamId, f.capturedNs, f.sequence, generation;
      endNs, lastSequence, voicedMs, maxRms, maxPeak := FrameEnd(f), f.sequence, 0.0, 0.0, 0.0;
      this.threshold, state, valid, startedEmitted, claimedBy := threshold, Active, false, false, None;
    }

    predicate IsFramed(u: Final) {
      streamId == u.streamId && (u.sequence.Some? ==> u.sequence.value >= firstSequence)
    }

    predicate HasPassed(s: Settings, u: Final)
      reads this
    {
      u.timestampNs - endNs > Nanos(s.windowMs)
    }

    predicate IsTemporal(s: Settings, u: Final)
      reads this
    {
      IsFramed(u) && startNs <= u.timestampNs && !HasPassed(s, u)
    }
  }

  class FinalTranscriptAdmissionGate {
    const settings: Settings
    var episodes: seq<PcmSpeechEpisode>
    var active: PcmSpeechEpisode?
    var silenceMs: real
    var generation: nat
    var noiseFloor: real
    /** The gate as a value, kept up to date by every method. */
    ghost var view: Gate

    ghost function Repr(): set<object>
      reads this
    {
      (set e | e in episodes) + (if active == null then {} else {active})
    }

    /** No episode is listed twice, and the value says what the objects hold. */
    ghost predicate Valid()
      reads this, Repr()
    {
      && settings.Valid()
      && (forall i, j | 0 <= i < j < |episodes| :: episodes[i] != episodes[j])
      && (active != null ==> active !in episodes)
      && |view.episodes| == |episodes| <= settings.maximumEpisodes
      && (forall i | 0 <= i < |episodes| :: view.episodes[i] == episodes[i].Value())
      && view.active == (if active == null then None else Some(active.Value()))
      && view.silenceMs == silenceMs && view.generation == generation && view.noiseFloor == noiseFloor
    }

    constructor (settings: Settings, initialNoiseFloor: real)
      requires settings.Valid()
      ensures Valid() && view == Gate([], None, 0.0, 0, initialNoiseFloor)
      ensures this.settings == settings && Repr() == {}
    {
      this.settings := settings;
      episodes, active, silenceMs, generation, noiseFloor := [], null, 0.0, 0, initialNoiseFloor;
      view := Gate([], None, 0.0, 0, initialNoiseFloor);
    }

    method UpdateNoiseFloor(rms: real)
      requires Valid()
      modifies this
      ensures Valid() && view == old(view).(noiseFloor := Adapted(settings, old(view).noiseFloor, rms))
      ensures episodes == old(episodes) && active == old(active)
    {
      noiseFloor := noiseFloor * 0.96 + Min(rms, settings.minimumRms) * 0.04;
      view := view.(noiseFloor := noiseFloor);
    }

    /** `deque.append` on a full deque drops the oldest episode. */
    method Append(e: PcmSpeechEpisode)
      requires Valid() && e !in episodes && active == null
      modifies this
      ensures Valid() && view == old(view).(episodes := Push(settings, old(view).episodes, e.Value()))
      ensures active == null && Repr() <= old(Repr()) + {e}
    {
      view := view.(episodes := Push(settings, view.episodes, e.Value()));
      episodes := (if |episodes| >= settings.maximumEpisodes then episodes[1..] else episodes) + [e];
    }

    /** The active episode joins the others, and nothing is active any more. */
    method Retire()
      requires Valid() && active != null
      modifies this
      ensures Valid() && active == null && Repr() <= old(Repr())
      ensures view == old(view).(episodes := Push(settings, old(view).episodes, old(active.Value())), active := None,
                                 silenceMs := 0.0)
    {
      var e := active;
      active := null;
      view := view.(active := None);
      Append(e);
      silenceMs := 0.0;
      view := view.(silenceMs := 0.0);
    }

    method FinishActive(observedNs: int) returns (events: seq<EpisodeEvent>)
      requires Valid()
      modifies this, Repr()
      ensures Valid() && (view, events) == FinalAdmission.FinishActive(settings, old(view), observedNs)
      ensures active == null && Repr() <= old(Repr())
    {
      if active == null { return []; }
      var e := active;
      if e.state.Active? { e.state := Finalizing; }
      view := view.(active := Some(e.Value()));
      Retire();
      UpdateNoiseFloor(0.0);
      events := if e.startedEmitted then [Ended(e.generation, observedNs)] else [];
    }

    method CloseGap(f: Frame) returns (events: seq<EpisodeEvent>)
      requires Valid()
      modifies this, Repr()
      ensures Valid() && (view, events) == FinalAdmission.CloseGap(settings, old(view), f)
      ensures Repr() <= old(Repr())
    {
      events := [];
      if active != null && f.capturedNs - active.endNs >= Nanos(settings.releaseSilenceMs) {
        events := FinishActive(f.capturedNs);
      }
    }

    method Open(f: Frame, threshold: real) returns (events: seq<EpisodeEvent>)
      requires Valid()
      modifies this, Repr()
      ensures Valid() && (view, events) == Opened(settings, old(view), f, threshold)
      ensures active != null && fresh(Repr() - old(Repr()))
    {
      hide Adapted, Push;
      silenceMs := 0.0;
      view := view.(silenceMs := 0.0);
      events := [];
      if active == null || active.streamId != f.streamId {
        events := FinishActive(f.capturedNs);
        generation := generation + 1;
        var e := new PcmSpeechEpisode(f, threshold, generation);
        active := e;
        view := view.(active := Some(e.Value()), generation := generation);
      }
    }

    method Grow(f: Frame, threshold: real) returns (events: seq<EpisodeEvent>)
      requires Valid() && active != null
      modifies this, Repr()
      ensures Valid() && old(view).active.Some?
      ensures view == old(view).(active := Some(Grown(settings, old(view).active.value, f, threshold)))
      ensures events == if view.active.value.startedEmitted && !old(view).active.value.startedEmitted
                        then [Started(view.active.value.generation, FrameEnd(f))] else []
      ensures episodes == old(episodes) && active == old(active)
    {
      var e := active;
      e.endNs, e.lastSequence := FrameEnd(f), f.sequence;
      e.voicedMs := e.voicedMs + f.durationMs;
      e.maxRms, e.maxPeak := Max(e.maxRms, f.rms), Max(e.maxPeak, f.peak);
      e.threshold := Max(e.threshold, threshold);
      events := [];
      if e.voicedMs >= settings.shortVoicedMs {
        e.valid := true;
        if !e.startedEmitted {
          e.startedEmitted := true;
          events := [Started(e.generation, FrameEnd(f))];
        }
      }
      view := view.(active := Some(e.Value()));
    }

    method Observe(f: Frame) returns (events: seq<EpisodeEvent>)
      requires Valid()
      modifies this, Repr()
      ensures Valid() && (view, events) == FinalAdmission.Observe(settings, old(view), f)
      ensures fresh(Repr() - old(Repr()))
    {
      hide FinalAdmission.FinishActive, FinalAdmission.CloseGap, Opened, Grown, Adapted;
      var threshold := Max(settings.minimumRms, noiseFloor * settings.noiseMultiplier);
      var speechLike := f.rms >= threshold && f.peak >= settings.minimumPeak;
      events := CloseGap(f);
      if speechLike {
        var begun := Open(f, threshold);
        var started := Grow(f, threshold);
        events := events + begun + started;
      } else if active != null {
        silenceMs := silenceMs + f.durationMs;
        view := view.(silenceMs := silenceMs);
        if silenceMs >= settings.releaseSilenceMs {
          var ended := FinishActive(FrameEnd(f));
          events := events + ended;
        }
      } else {
        UpdateNoiseFloor(f.rms);
      }
    }

    /** All episodes a final may belong to, the growing one last. */
    method Candidates() returns (es: seq<PcmSpeechEpisode>)
      requires Valid()
      ensures |es| == |All(view)| && forall i | 0 <= i < |es| :: es[i].Value() == All(view)[i]
      ensures es == episodes + (if active == null then [] else [active])
    {
      es := episodes;
      if active != null { es := es + [active]; }
    }

    /** The index of the candidate the final belongs to: the open one that starts first. */
    method Associate(u: Final) returns (found: Option<nat>)
      requires Valid()
      ensures found == Earliest(settings, All(view), u)
    {
      hide FinalAdmission.Open, Temporal, Framed, Passed;
      var es := Candidates();
      found := None;
      ghost var all := All(view);
      for i := 0 to |es|
        invariant found == Earliest(settings, all[..i], u)
      {
        var e := es[i];
        assert all[..i + 1][..i] == all[..i];
        var framed, passed := e.IsFramed(u), e.HasPassed(settings, u);
        var temporal := e.IsTemporal(settings, u);
        CandidateTests(settings, all[i], u, framed, passed, temporal);
        if temporal && e.claimedBy.None? && (found.None? || e.startNs < es[found.value].startNs) { found := Some(i); }
      }
      assert all[..|all|] == all;
    }

    /** Candidates answer the gate's questions as their values do. */
    lemma CandidateAnswers(es: seq<PcmSpeechEpisode>, u: Final)
      requires Valid()
      requires |es| == |All(view)| && forall i | 0 <= i < |es| :: es[i].Value() == All(view)[i]
      ensures forall k | 0 <= k < |es| ::
                && es[k].streamId == All(view)[k].streamId && es[k].startNs == All(view)[k].startNs
                && es[k].IsFramed(u) == Framed(All(view)[k], u)
                && es[k].HasPassed(settings, u) == Passed(settings, All(view)[k], u.timestampNs)
                && es[k].IsTemporal(settings, u) == Temporal(settings, All(view)[k], u)
    {
    }

    /** Why no candidate was found, told by the candidates themselves. */
    lemma CandidatesTell(es: seq<PcmSpeechEpisode>, u: Final)
      requires Valid()
      requires |es| == |All(view)| && forall i | 0 <= i < |es| :: es[i].Value() == All(view)[i]
      ensures WhyNone(settings, view, u)
              == if es == [] then NoPcmEpisode
                 else if forall k | 0 <= k < |es| :: es[k].streamId != u.streamId then StreamMismatch
                 else if forall k | 0 <= k < |es| :: !es[k].IsFramed(u) then FrameRangeMismatch
                 else if exists k | 0 <= k < |es| :: es[k].IsTemporal(settings, u) then AlreadyConsumed
                 else if forall k | 0 <= k < |es| && es[k].IsFramed(u) :: u.timestampNs < es[k].startNs then FinalTooEarly
                 else if forall k | 0 <= k < |es| && es[k].IsFramed(u) :: es[k].HasPassed(settings, u) then FinalTooLate
                 else Unknown
    {
      hide Framed, Temporal, Passed, WhyNone, All, Nanos, PcmSpeechEpisode.Value,
           PcmSpeechEpisode.IsFramed, PcmSpeechEpisode.IsTemporal, PcmSpeechEpisode.HasPassed;
      CandidateAnswers(es, u);
      WhyNoneByIndex(settings, view, u);
    }

    method Explain(u: Final) returns (reason: Reason)
      requires Valid()
      ensures reason == WhyNone(settings, view, u)
    {
      hide WhyNone, All, PcmSpeechEpisode.Value,
           PcmSpeechEpisode.IsFramed, PcmSpeechEpisode.IsTemporal, PcmSpeechEpisode.HasPassed;
      var es := Candidates();
      CandidatesTell(es, u);
      if es == [] { return NoPcmEpisode; }
      if forall k | 0 <= k < |es| :: es[k].streamId != u.streamId { return StreamMismatch; }
      if forall k | 0 <= k < |es| :: !es[k].IsFramed(u) { return FrameRangeMismatch; }
      if exists k | 0 <= k < |es| :: es[k].IsTemporal(settings, u) { return AlreadyConsumed; }
      if forall k | 0 <= k < |es| && es[k].IsFramed(u) :: u.timestampNs < es[k].startNs { return FinalTooEarly; }
      if forall k | 0 <= k < |es| && es[k].IsFramed(u) :: es[k].HasPassed(settings, u) { return FinalTooLate; }
      reason := Unknown;
    }

    /** Episodes whose window is over expire when a final comes too late for all of them. */
    method ExpirePassed(u: Final)
      requires Valid()
      modifies this, Repr()
      ensures Valid() && view == ExpireAll(old(view), u)
      ensures episodes == old(episodes) && active == old(active)
    {
      hide Settings.Valid;
      var es := Candidates();
      ghost var before := view;
      for i := 0 to |es|
        invariant episodes == old(episodes) && active == old(active)
        invariant silenceMs == old(silenceMs) && generation == old(generation) && noiseFloor == old(noiseFloor)
        invariant view == before
        invariant forall k | 0 <= k < |es| :: es[k].Value() == if k < i then Expire(All(before)[k], u) else All(before)[k]
      {
        var e := es[i];
        if e.IsFramed(u) && e.state.Finalizing? {
          e.state := Expired;
        }
      }
      view := ExpireAll(view, u);
      forall i | 0 <= i < |episodes| ensures view.episodes[i] == episodes[i].Value() {
        assert es[i] == episodes[i] && All(before)[i] == before.episodes[i];
      }
      if active != null { assert es[|episodes|] == active && All(before)[|episodes|] == before.active.value; }
    }

    method Consume(k: nat, u: Final)
      requires Valid() && k < |All(view)|
      modifies this, Repr()
      ensures Valid() && view == Claim(settings, old(view), k, u)
      ensures Repr() <= old(Repr())
    {
      hide Push, Settings.Valid;
      var es := Candidates();
      var e := es[k];
      ghost var before := view;
      e.claimedBy, e.state := Some(u.transcriptId), Consumed;
      if e == active {
        view := view.(active := Some(e.Value()));
        Retire();
      } else {
        view := view.(episodes := view.episodes[k := e.Value()]);
      }
    }

    method RequiredVoicedMs(u: Final) returns (ms: real)
      ensures ms == RequiredVoiced(settings, u)
    {
      if u.tokens <= 3 { return settings.shortVoicedMs; }
      ms := Max(settings.minimumVoicedMs, Min(700.0, u.tokens as real * 35.0));
    }

    /** Whether the evidence of one episode admits the final. */
    method Judge(e: PcmSpeechEpisode, u: Final, c: Context) returns (reason: Reason)
      ensures reason == FinalAdmission.Judge(settings, e.Value(), u, c)
    {
      hide Recoverable, StrongEvidence;
      var required := RequiredVoicedMs(u);
      var strong := IsStrong(e, u, required);
      var recoverable := HasRecoverableEvidence(e, u, c, required);
      if e.voicedMs < settings.shortVoicedMs { return EpisodeTooShort; }
      if c.selfSuppress && !strong { return SelfSpeechMatch; }
      var recovered := e.voicedMs < required && recoverable;
      if !e.valid || (e.voicedMs < required && !recovered) { return InsufficientEvidence; }
      reason := if recovered then AcceptedRecovered else Accepted;
    }

    method IsStrong(e: PcmSpeechEpisode, u: Final, required: real) returns (strong: bool)
      requires required == RequiredVoiced(settings, u)
      ensures strong == StrongEvidence(settings, e.Value(), u)
    {
      strong := e.voicedMs >= Max(480.0, required * 1.5) && e.maxRms >= e.threshold * 1.2
                && e.maxPeak >= settings.minimumPeak * 1.5;
    }

    method HasRecoverableEvidence(e: PcmSpeechEpisode, u: Final, c: Context, required: real) returns (recoverable: bool)
      requires required == RequiredVoiced(settings, u)
      ensures recoverable == Recoverable(settings, e.Value(), u, c)
    {
      hide SpanMs, RequiredSpan, RequiredVoiced;
      if c.playbackActive || c.selfCandidate || c.selfSuppress || !e.valid || e.voicedMs < settings.recoveryVoicedMs
        || !u.exactInput || u.sequence.None? || !u.endpointed || !u.complete || !u.meaningful
      {
        return false;
      }
      recoverable := SpanMs(e.startNs, e.endNs) >= RequiredSpan(settings, required);
    }

    method AssessFinal(u: Final, c: Context) returns (verdict: Verdict)
      requires Valid()
      modifies this, Repr()
      ensures Valid() && (view, verdict) == Assess(settings, old(view), u, c)
      ensures Repr() <= old(Repr())
    {
      hide ExpireAll, Claim, WhyNone, FinalAdmission.Judge, Earliest, FinalAdmission.Open;
      var found := Associate(u);
      if found.None? {
        var why := Explain(u);
        if why.FinalTooLate? { ExpirePassed(u); }
        return Verdict(false, if c.selfSuppress then SelfSpeechMatch else why, None);
      }
      var es := Candidates();
      var reason := Judge(es[found.value], u, c);
      var generation := es[found.value].generation;
      if Accepting(reason) { Consume(found.value, u); }
      verdict := Verdict(Accepting(reason), reason, Some(generation));
    }
  }

  lemma CandidateTests(s: Settings, e: Episode, u: Final, framed: bool, passed: bool, temporal: bool)
    requires framed == (e.streamId == u.streamId && (u.sequence.Some? ==> u.sequence.value >= e.firstSequence))
    requires passed == (u.timestampNs - e.endNs > Nanos(s.windowMs))
    requires temporal == (framed && e.startNs <= u.timestampNs && !passed)
    ensures framed == Framed(e, u) && passed == Passed(s, e, u.timestampNs) && temporal == Temporal(s, e, u)
    ensures Open(s, e, u) == (temporal && e.claimedBy.None?)
  {
  }

  /** The reasons, told by index instead of by membership. */
  lemma WhyNoneByIndex(s: Settings, g: Gate, u: Final)
    ensures var es := All(g);
      WhyNone(s, g, u)
      == if es == [] then NoPcmEpisode
         else if !exists k | 0 <= k < |es| :: es[k].streamId == u.streamId then StreamMismatch
         else if !exists k | 0 <= k < |es| :: Framed(es[k], u) then FrameRangeMismatch
         else if exists k | 0 <= k < |es| :: Temporal(s, es[k], u) then AlreadyConsumed
         else if forall k | 0 <= k < |es| && Framed(es[k], u) :: u.timestampNs < es[k].startNs then FinalTooEarly
         else if forall k | 0 <= k < |es| && Framed(es[k], u) :: Passed(s, es[k], u.timestampNs) then FinalTooLate
         else Unknown
  {
    hide Framed, Temporal, Passed, All;
    var es := All(g);
    assert forall k | 0 <= k < |es| :: es[k] in es;
  }
}
