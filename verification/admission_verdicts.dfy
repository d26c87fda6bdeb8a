/** Which finals the admission gate accepts and why it refuses the others, in terms of levels, times and words. */
module AdmissionVerdicts {
  import opened Domain
  import opened FinalAdmission
  import opened AdmissionTheorems

  // ----- the evidence, written out -----

  /**
   * A voiced time is enough for a final, or for some multiple of what a final needs: up to three
   * words need the short time, more words 35 ms each, at least the normal time and never over 700 ms.
   */
  predicate Enough(s: Settings, u: Final, ms: real, multiple: real) {
    if u.tokens <= 3 then ms >= s.shortVoicedMs * multiple
    else ms >= s.minimumVoicedMs * multiple && (ms >= 700.0 * multiple || ms >= (u.tokens as real * 35.0) * multiple)
  }

  /** Voice and levels that no echo of the assistant has. */
  predicate Overwhelming(s: Settings, e: Episode, u: Final) {
    && e.voicedMs >= 480.0 && Enough(s, u, e.voicedMs, 1.5)
    && e.maxRms >= 1.2 * e.threshold && e.maxPeak >= 1.5 * s.minimumPeak
  }

  /** Everything but the voiced time speaks for the user, and nothing is being played. */
  predicate Corroborated(s: Settings, e: Episode, u: Final, c: Context) {
    var span := (e.endNs - e.startNs) as real / 1_000_000.0;
    && !(c.playbackActive || c.selfCandidate || c.selfSuppress)
    && u.exactInput && u.sequence.Some? && u.endpointed && u.complete && u.meaningful
    && e.voicedMs >= s.recoveryVoicedMs
    && span >= s.minimumVoicedMs && Enough(s, u, span, s.recoverySpanRatio)
  }

  /** The final may belong to the episode: its stream, its frames, its time, and nobody has claimed it. */
  predicate MayClaim(s: Settings, e: Episode, u: Final) {
    && Within(s, e, u) && e.claimedBy.None?
  }

  predicate Within(s: Settings, e: Episode, u: Final) {
    && OfFrames(e, u) && e.startNs <= u.timestampNs && !TooLate(s, e, u)
  }

  predicate OfFrames(e: Episode, u: Final) {
    e.streamId == u.streamId && (u.sequence.None? || e.firstSequence <= u.sequence.value)
  }

  /** More than the finalization window, rounded to nanoseconds, after the end of the episode. */
  predicate TooLate(s: Settings, e: Episode, u: Final) { u.timestampNs > e.endNs + Nanos(s.windowMs) }

  /** The candidate that starts first; of those that start together, the oldest. */
  ghost predicate Belongs(s: Settings, g: Gate, u: Final, k: nat) {
    && k < |All(g)| && MayClaim(s, All(g)[k], u)
    && forall i | 0 <= i < |All(g)| && MayClaim(s, All(g)[i], u) ::
         All(g)[k].startNs < All(g)[i].startNs || (All(g)[k].startNs == All(g)[i].startNs && k <= i)
  }

  // ----- arithmetic of the required time -----

  lemma TimesMax(a: real, b: real, f: real)
    requires f > 0.0
    ensures Max(a, b) * f == Max(a * f, b * f) && Min(a, b) * f == Min(a * f, b * f)
  {
    if a >= b { assert (a - b) * f >= 0.0; } else { assert (b - a) * f > 0.0; }
  }

  lemma EnoughIs(s: Settings, u: Final, ms: real, multiple: real)
    requires multiple > 0.0
    ensures Enough(s, u, ms, multiple) <==> ms >= RequiredVoiced(s, u) * multiple
  {
    if u.tokens > 3 { EnoughWords(s.minimumVoicedMs, u.tokens as real * 35.0, ms, multiple); }
  }

  lemma EnoughWords(minimum: real, words: real, ms: real, multiple: real)
    requires multiple > 0.0
    ensures ms >= Max(minimum, Min(700.0, words)) * multiple <==>
              ms >= minimum * multiple && (ms >= 700.0 * multiple || ms >= words * multiple)
  {
    TimesMax(minimum, Min(700.0, words), multiple);
    TimesMax(700.0, words, multiple);
  }

  lemma EvidenceIs(s: Settings, e: Episode, u: Final, c: Context)
    requires s.Valid()
    ensures Overwhelming(s, e, u) <==> StrongEvidence(s, e, u)
    ensures Enough(s, u, e.voicedMs, 1.0) <==> e.voicedMs >= RequiredVoiced(s, u)
    ensures e.valid && Corroborated(s, e, u, c) <==> Recoverable(s, e, u, c)
  {
    hide Enough, RequiredVoiced;
    EnoughIs(s, u, e.voicedMs, 1.5);
    EnoughIs(s, u, e.voicedMs, 1.0);
    EnoughIs(s, u, (e.endNs - e.startNs) as real / 1_000_000.0, s.recoverySpanRatio);
    RequiredPositive(s, u);
  }

  lemma RequiredPositive(s: Settings, u: Final)
    requires s.Valid()
    ensures RequiredVoiced(s, u) > 0.0 && RequiredVoiced(s, u) * s.recoverySpanRatio > 0.0
  {
  }

  // ----- which episode a final belongs to -----

  lemma FoundIs(s: Settings, g: Gate, u: Final)
    ensures forall k: nat :: Earliest(s, All(g), u) == Some(k) <==> Belongs(s, g, u, k)
    ensures Earliest(s, All(g), u).None? <==> forall i | 0 <= i < |All(g)| :: !MayClaim(s, All(g)[i], u)
  {
    var es := All(g);
    forall i | 0 <= i < |es| ensures MayClaim(s, es[i], u) <==> Open(s, es[i], u) { OpenIs(s, es[i], u); }
    hide MayClaim, Open;
    EarliestFirst(s, es, u);
  }

  lemma OpenIs(s: Settings, e: Episode, u: Final)
    ensures MayClaim(s, e, u) <==> Open(s, e, u)
  {
  }

  /** The list of episodes after one was claimed: where the growing one is claimed the oldest may be dropped. */
  ghost predicate ClaimedIn(s: Settings, g: Gate, g': Gate, k: nat, transcriptId: string)
    requires k < |All(g)|
  {
    var es := All(g)[k := All(g)[k].(claimedBy := Some(transcriptId), state := Consumed)];
    && All(g') == (if k == |g.episodes| && |es| > s.maximumEpisodes then es[1..] else es)
    && g'.generation == g.generation && g'.noiseFloor == g.noiseFloor
    && if k == |g.episodes| then g'.active.None? && g'.silenceMs == 0.0
       else g'.active == g.active && g'.silenceMs == g.silenceMs
  }

  // ----- verdicts -----

  /**
   * A final that belongs to an episode is accepted exactly when the episode is valid speech with
   * enough voice for its words, or with less voice but corroborated, and, where it looks like the
   * assistant's own speech, with overwhelming evidence. Then and only then the gate changes.
   */
  lemma AcceptsExactly(s: Settings, g: Gate, u: Final, c: Context, k: nat)
    requires s.Valid() && |g.episodes| <= s.maximumEpisodes && Belongs(s, g, u, k)
    ensures var e := All(g)[k];
      var (g', v) := Assess(s, g, u, c);
      var enough := Enough(s, u, e.voicedMs, 1.0);
      && v.generation == Some(e.generation)
      && (v.accepted <==>
            && e.valid && e.voicedMs >= s.shortVoicedMs
            && (c.selfSuppress ==> Overwhelming(s, e, u))
            && (enough || Corroborated(s, e, u, c)))
      && v.reason == (if v.accepted then if enough then Accepted else AcceptedRecovered
                      else if e.voicedMs < s.shortVoicedMs then EpisodeTooShort
                      else if c.selfSuppress && !Overwhelming(s, e, u) then SelfSpeechMatch
                      else InsufficientEvidence)
      && (if v.accepted then ClaimedIn(s, g, g', k, u.transcriptId) else g' == g)
  {
    hide Enough, Overwhelming, Corroborated, StrongEvidence, RequiredVoiced, Recoverable, MayClaim, Belongs, Earliest;
    FoundIs(s, g, u);
    EvidenceIs(s, All(g)[k], u, c);
    ClaimIs(s, g, k, u);
  }

  lemma ClaimIs(s: Settings, g: Gate, k: nat, u: Final)
    requires s.Valid() && |g.episodes| <= s.maximumEpisodes && k < |All(g)|
    ensures ClaimedIn(s, g, Claim(s, g, k, u), k, u.transcriptId)
  {
    var e := All(g)[k].(claimedBy := Some(u.transcriptId), state := Consumed);
    if k == |g.episodes| {
      assert All(g)[k := e] == g.episodes + [e];
      if |g.episodes| >= s.maximumEpisodes { assert (g.episodes + [e])[1..] == g.episodes[1..] + [e]; }
    } else if g.active.Some? {
      assert All(g)[k := e] == g.episodes[k := e] + [g.active.value];
    }
  }

  /** Why a final belongs to no episode: the first of these that applies. */
  ghost function Refusal(s: Settings, es: seq<Episode>, u: Final): Reason {
    if es == [] then NoPcmEpisode
    else if forall i | 0 <= i < |es| :: es[i].streamId != u.streamId then StreamMismatch
    else if forall i | 0 <= i < |es| :: !OfFrames(es[i], u) then FrameRangeMismatch
    else if exists i :: 0 <= i < |es| && Within(s, es[i], u) then AlreadyConsumed
    else if forall i | 0 <= i < |es| && OfFrames(es[i], u) :: u.timestampNs < es[i].startNs then FinalTooEarly
    else if forall i | 0 <= i < |es| && OfFrames(es[i], u) :: TooLate(s, es[i], u) then FinalTooLate
    else Unknown
  }

  lemma RefusalIs(s: Settings, g: Gate, u: Final)
    ensures WhyNone(s, g, u) == Refusal(s, All(g), u)
  {
    var es := All(g);
    forall e: Episode
      ensures Framed(e, u) == OfFrames(e, u)
      ensures Temporal(s, e, u) == Within(s, e, u)
      ensures Passed(s, e, u.timestampNs) == TooLate(s, e, u)
    {
    }
    hide Framed, OfFrames, Temporal, Within, Passed, TooLate;
    assert forall i | 0 <= i < |es| :: es[i] in es;
    forall e | e in es ensures exists i :: 0 <= i < |es| && es[i] == e {
    }
  }

  /**
   * A final that belongs to no episode is refused with the first reason that applies, and where all
   * its episodes are over those still waiting for a final expire.
   */
  lemma RefusesExactly(s: Settings, g: Gate, u: Final, c: Context)
    requires forall i | 0 <= i < |All(g)| :: !MayClaim(s, All(g)[i], u)
    ensures var (g', v) := Assess(s, g, u, c);
      var refusal := Refusal(s, All(g), u);
      && v == Verdict(false, if c.selfSuppress then SelfSpeechMatch else refusal, None)
      && (if refusal.FinalTooLate? then ExpiredIn(g, g', u) else g' == g)
  {
    hide MayClaim, Earliest, ExpireAll, WhyNone, Refusal, ExpiredIn;
    FoundIs(s, g, u);
    RefusalIs(s, g, u);
    ExpiredAll(g, u);
  }

  /** Every waiting episode of the final's frames has expired, and nothing else has changed. */
  ghost predicate ExpiredIn(g: Gate, g': Gate, u: Final) {
    && g' == g.(episodes := g'.episodes, active := g'.active)
    && |All(g')| == |All(g)| && |g'.episodes| == |g.episodes|
    && forall i | 0 <= i < |All(g)| ::
         All(g')[i] == if OfFrames(All(g)[i], u) && All(g)[i].state.Finalizing? then All(g)[i].(state := Expired)
                       else All(g)[i]
  }

  lemma ExpiredAll(g: Gate, u: Final)
    ensures ExpiredIn(g, ExpireAll(g, u), u)
  {
    hide ExpireEach;
  }

  // ----- what follows for playback and for the assistant's own speech -----

  /** Starting playback never turns a refusal into an acceptance, and under it only enough voice is accepted. */
  lemma PlaybackNeverHelps(s: Settings, g: Gate, u: Final, c: Context)
    requires s.Valid() && |g.episodes| <= s.maximumEpisodes
    requires Assess(s, g, u, c.(playbackActive := true)).1.accepted
    ensures Assess(s, g, u, c.(playbackActive := false)).1.accepted
    ensures exists k: nat :: Belongs(s, g, u, k) && Enough(s, u, All(g)[k].voicedMs, 1.0)
  {
    hide Assess, Enough, Overwhelming;
    var played := c.(playbackActive := true);
    var k := AcceptedBelongs(s, g, u, played);
    AcceptsExactly(s, g, u, played, k);
    AcceptsExactly(s, g, u, c.(playbackActive := false), k);
  }

  lemma AcceptedBelongs(s: Settings, g: Gate, u: Final, c: Context) returns (k: nat)
    requires Assess(s, g, u, c).1.accepted
    ensures Belongs(s, g, u, k)
  {
    hide Belongs, Judge, Claim;
    FoundIs(s, g, u);
    k := Earliest(s, All(g), u).value;
  }

  /** Neither does a suspicion that the assistant hears itself. */
  lemma SuspicionNeverHelps(s: Settings, g: Gate, u: Final, c: Context)
    requires s.Valid() && |g.episodes| <= s.maximumEpisodes
    requires Assess(s, g, u, c).1.accepted && (c.selfCandidate || c.selfSuppress)
    ensures Assess(s, g, u, c.(selfCandidate := false, selfSuppress := false)).1.accepted
    ensures exists k: nat :: Belongs(s, g, u, k) && Enough(s, u, All(g)[k].voicedMs, 1.0)
                        && (c.selfSuppress ==> Overwhelming(s, All(g)[k], u))
  {
    hide Assess, Enough, Overwhelming;
    var k := AcceptedBelongs(s, g, u, c);
    AcceptsExactly(s, g, u, c, k);
    AcceptsExactly(s, g, u, c.(selfCandidate := false, selfSuppress := false), k);
  }
}
