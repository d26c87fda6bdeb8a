/** What an episode of the admission gate has measured, told by the frames that were heard. */
module AdmissionEpisodes {
  import opened Domain
  import opened FinalAdmission
  import opened AdmissionVerdicts

  // ----- one frame -----

  /** Louder than the minimum and than the noise floor by its factor, and with a peak. */
  predicate Loud(s: Settings, floor: real, f: Frame) {
    f.rms >= s.minimumRms && f.rms >= floor * s.noiseMultiplier && f.peak >= s.minimumPeak
  }

  predicate AfterGap(s: Settings, g: Gate, f: Frame) {
    g.active.Some? && f.capturedNs >= g.active.value.endNs + Nanos(s.releaseSilenceMs)
  }

  /** The episode in which this frame is heard, unless it is the first of one. */
  predicate Continues(s: Settings, g: Gate, f: Frame) {
    g.active.Some? && !AfterGap(s, g, f) && (Loud(s, g.noiseFloor, f) ==> g.active.value.streamId == f.streamId)
  }

  /** A frame of silence with which the silence is long enough. */
  predicate Releases(s: Settings, g: Gate, f: Frame) {
    g.active.Some? && !Loud(s, g.noiseFloor, f) && g.silenceMs + f.durationMs >= s.releaseSilenceMs
  }

  /** The episode after one more frame of speech. */
  ghost predicate Extends(s: Settings, g: Gate, e: Episode, e': Episode, f: Frame) {
    && e' == e.(endNs := e'.endNs, lastSequence := e'.lastSequence, voicedMs := e'.voicedMs, maxRms := e'.maxRms,
                maxPeak := e'.maxPeak, threshold := e'.threshold, valid := e'.valid, startedEmitted := e'.startedEmitted)
    && e'.endNs == f.capturedNs + Nanos(f.durationMs) && e'.lastSequence == f.sequence
    && e'.voicedMs == e.voicedMs + f.durationMs
    && e'.maxRms >= e.maxRms && e'.maxRms >= f.rms && e'.maxRms in {e.maxRms, f.rms}
    && e'.maxPeak >= e.maxPeak && e'.maxPeak >= f.peak && e'.maxPeak in {e.maxPeak, f.peak}
    && e'.threshold >= e.threshold && e'.threshold >= s.minimumRms && e'.threshold >= g.noiseFloor * s.noiseMultiplier
    && e'.threshold in {e.threshold, s.minimumRms, g.noiseFloor * s.noiseMultiplier}
    && (e'.valid <==> e.valid || e'.voicedMs >= s.shortVoicedMs)
    && (e'.startedEmitted <==> e.startedEmitted || e'.voicedMs >= s.shortVoicedMs)
  }

  /** An episode that has not measured anything yet. */
  function Blank(s: Settings, g: Gate, f: Frame): Episode {
    Episode(f.streamId, f.capturedNs, f.capturedNs, f.sequence, f.sequence, 0.0, 0.0, 0.0, s.minimumRms,
            g.generation + 1, Active, false, false, None)
  }

  /** The growing episode is over: it waits for a final behind the others, of which the oldest may go. */
  ghost predicate Closes(s: Settings, others: seq<Episode>, e: Episode, episodes: seq<Episode>) {
    var all := others + [e.(state := if e.state.Active? then Finalizing else e.state)];
    episodes == if |all| > s.maximumEpisodes then all[1..] else all
  }

  lemma LoudIs(s: Settings, g: Gate, f: Frame)
    ensures Loud(s, g.noiseFloor, f) <==> SpeechLike(s, g, f)
  {
  }

  lemma AdaptedIs(s: Settings, floor: real, rms: real)
    ensures FinalAdmission.Adapted(s, floor, rms) == 0.96 * floor + 0.04 * (if rms <= s.minimumRms then rms else s.minimumRms)
  {
  }

  lemma CloseIs(s: Settings, g: Gate, ns: int)
    requires s.Valid() && g.active.Some? && |g.episodes| <= s.maximumEpisodes
    ensures var (g', events) := FinishActive(s, g, ns);
      && g' == Gate(g'.episodes, None, 0.0, g.generation, 0.96 * g.noiseFloor) && Closes(s, g.episodes, g.active.value, g'.episodes)
      && events == if g.active.value.startedEmitted then [Ended(g.active.value.generation, ns)] else []
  {
  }

  lemma NothingToFinish(s: Settings, g: Gate, ns: int)
    requires g.active.None?
    ensures FinishActive(s, g, ns) == (g, [])
  {
  }

  lemma GrownIs(s: Settings, g: Gate, e: Episode, f: Frame)
    ensures Extends(s, g, e, Grown(s, e, f, Threshold(s, g)), f)
  {
    hide Nanos;
  }

  lemma FreshIs(s: Settings, g: Gate, g1: Gate, f: Frame)
    requires g1.generation == g.generation
    ensures var begun := Fresh(g1, f, Threshold(s, g));
      !begun.startedEmitted && Extends(s, g, Blank(s, g, f), Grown(s, begun, f, Threshold(s, g)), f)
  {
    hide Nanos;
  }

  /**
   * What a frame does: speech continues the growing episode or begins a new one, silence is added up
   * until it is long enough, and only outside speech the noise floor follows what is heard.
   */
  lemma ObserveExactly(s: Settings, g: Gate, f: Frame)
    requires s.Valid() && |g.episodes| <= s.maximumEpisodes
    ensures var (g', events) := Observe(s, g, f);
      var loud := Loud(s, g.noiseFloor, f);
      var over := g.active.Some?
                  && (AfterGap(s, g, f) || (if loud then g.active.value.streamId != f.streamId else Releases(s, g, f)));
      && (loud ==>
            && g'.active.Some? && g'.silenceMs == 0.0
            && Extends(s, g, if Continues(s, g, f) then g.active.value else Blank(s, g, f), g'.active.value, f)
            && g'.generation == g.generation + (if Continues(s, g, f) then 0 else 1))
      && (!loud && g.active.Some? && !over ==> g' == g.(silenceMs := g.silenceMs + f.durationMs) && events == [])
      && (!loud && (g.active.None? || over) ==>
            g'.active.None? && g'.generation == g.generation && (g.active.Some? ==> g'.silenceMs == 0.0))
      && (if over then Closes(s, g.episodes, g.active.value, g'.episodes) else g'.episodes == g.episodes)
      && g'.noiseFloor == (if over && (loud || !AfterGap(s, g, f)) then 0.96 * g.noiseFloor
                           else if loud || (g.active.Some? && !over) then g.noiseFloor
                           else 0.96 * (if over then 0.96 * g.noiseFloor else g.noiseFloor)
                                + 0.04 * (if f.rms <= s.minimumRms then f.rms else s.minimumRms))
      && events
         == (if over && g.active.value.startedEmitted
             then [Ended(g.active.value.generation,
                         if loud || AfterGap(s, g, f) then f.capturedNs else f.capturedNs + Nanos(f.durationMs))] else [])
            + (if loud && g'.active.value.startedEmitted && !(Continues(s, g, f) && g.active.value.startedEmitted)
               then [Started(g'.active.value.generation, f.capturedNs + Nanos(f.durationMs))] else [])
  {
    hide Nanos, FinishActive, Closes, Fresh, Grown, Threshold, SpeechLike, Extends, Loud, FinalAdmission.Adapted;
    var g1 := CloseGap(s, g, f).0;
    LoudIs(s, g, f);
    AdaptedIs(s, g.noiseFloor, f.rms);
    AdaptedIs(s, 0.96 * g.noiseFloor, f.rms);
    if g.active.Some? {
      CloseIs(s, g, f.capturedNs);
      CloseIs(s, g.(silenceMs := g.silenceMs + f.durationMs), f.capturedNs + Nanos(f.durationMs));
    }
    FreshIs(s, g, g1, f);
    if Continues(s, g, f) { GrownIs(s, g, g.active.value, f); }
    if g1.active.None? { NothingToFinish(s, g1, f.capturedNs); }
  }

  // ----- whole runs -----

  /** Speech is heard at this input, measured against the noise floor of the moment. */
  predicate SpeechAt(s: Settings, floor: real, inputs: seq<Input>, i: nat): (speech: bool)
    requires i < |inputs|
    ensures speech ==> inputs[i].Heard?
  {
    inputs[i].Heard? && Loud(s, Run(s, floor, inputs[..i]).noiseFloor, inputs[i].frame)
  }

  /** How long speech was heard from an input on. */
  function Voice(s: Settings, floor: real, inputs: seq<Input>, b: nat): real {
    if |inputs| <= b then 0.0
    else
      var last := |inputs| - 1;
      Voice(s, floor, inputs[..last], b) + (if SpeechAt(s, floor, inputs, last) then inputs[last].frame.durationMs else 0.0)
  }

  /** How long anything was heard from an input on. */
  function Time(inputs: seq<Input>, n: nat): real {
    if |inputs| <= n then 0.0
    else
      var last := |inputs| - 1;
      Time(inputs[..last], n) + (if inputs[last].Heard? then inputs[last].frame.durationMs else 0.0)
  }

  /** The speech from input `b` to the one before `n` is all of one stream, and the episode is what it measures. */
  ghost predicate Measured(s: Settings, floor: real, inputs: seq<Input>, e: Episode, b: nat, n: nat) {
    && b < n <= |inputs| && SpeechAt(s, floor, inputs, b) && SpeechAt(s, floor, inputs, n - 1)
    && e.startNs == inputs[b].frame.capturedNs && e.firstSequence == inputs[b].frame.sequence
    && e.endNs == inputs[n - 1].frame.capturedNs + Nanos(inputs[n - 1].frame.durationMs)
    && e.lastSequence == inputs[n - 1].frame.sequence
    && e.voicedMs == Voice(s, floor, inputs[..n], b)
    && (e.valid <==> Voiced(s, floor, inputs, b, n)) && (e.startedEmitted <==> e.valid)
    && (forall i | b <= i < n && SpeechAt(s, floor, inputs, i) :: Bounds(e, inputs[i].frame))
    && (exists i :: b <= i < n && SpeechAt(s, floor, inputs, i) && inputs[i].frame.rms == e.maxRms)
    && (exists i :: b <= i < n && SpeechAt(s, floor, inputs, i) && inputs[i].frame.peak == e.maxPeak)
  }

  predicate Bounds(e: Episode, f: Frame) { f.streamId == e.streamId && f.rms <= e.maxRms && f.peak <= e.maxPeak }

  /** At some point the voice was enough for a short utterance. */
  ghost predicate Voiced(s: Settings, floor: real, inputs: seq<Input>, b: nat, n: nat)
    requires n <= |inputs|
  {
    exists m :: b < m <= n && VoicedAt(s, floor, inputs, b, m)
  }

  predicate VoicedAt(s: Settings, floor: real, inputs: seq<Input>, b: nat, m: nat)
    requires m <= |inputs|
  {
    Voice(s, floor, inputs[..m], b) >= s.shortVoicedMs
  }

  /** No speech since, and not enough silence to end the episode. */
  ghost predicate Growing(s: Settings, floor: real, inputs: seq<Input>, g: Gate, b: nat, n: nat) {
    && g.active.Some? && Measured(s, floor, inputs, g.active.value, b, n)
    && (forall i | n <= i < |inputs| :: !SpeechAt(s, floor, inputs, i))
    && g.silenceMs == Time(inputs, n) < s.releaseSilenceMs
  }

  ghost predicate IsMeasured(s: Settings, floor: real, inputs: seq<Input>, e: Episode) {
    exists b: nat, n: nat :: Measured(s, floor, inputs, e, b, n)
  }

  ghost predicate AllMeasured(s: Settings, floor: real, inputs: seq<Input>, g: Gate) {
    && |g.episodes| <= s.maximumEpisodes
    && (forall i | 0 <= i < |g.episodes| :: IsMeasured(s, floor, inputs, g.episodes[i]))
    && (g.active.Some? ==> exists b: nat, n: nat :: Growing(s, floor, inputs, g, b, n))
  }

  /** What one more input does not change. */
  lemma SpeechGrows(s: Settings, floor: real, inputs: seq<Input>, x: Input, i: nat)
    requires i < |inputs|
    ensures SpeechAt(s, floor, inputs + [x], i) == SpeechAt(s, floor, inputs, i)
  {
    hide Run, Loud;
    assert (inputs + [x])[..i] == inputs[..i];
  }

  lemma VoicedGrows(s: Settings, floor: real, inputs: seq<Input>, x: Input, b: nat, n: nat)
    requires n <= |inputs|
    ensures Voiced(s, floor, inputs + [x], b, n) == Voiced(s, floor, inputs, b, n)
  {
    hide Voice;
    forall m | 0 <= m <= n ensures VoicedAt(s, floor, inputs + [x], b, m) == VoicedAt(s, floor, inputs, b, m) {
      assert (inputs + [x])[..m] == inputs[..m];
    }
  }

  lemma MeasuredGrows(s: Settings, floor: real, inputs: seq<Input>, x: Input, e: Episode, b: nat, n: nat)
    requires Measured(s, floor, inputs, e, b, n)
    ensures Measured(s, floor, inputs + [x], e, b, n)
  {
    hide Voice, Voiced, SpeechAt, Nanos, Bounds;
    var all := inputs + [x];
    forall i | 0 <= i < |inputs| ensures SpeechAt(s, floor, all, i) == SpeechAt(s, floor, inputs, i) && all[i] == inputs[i] {
      SpeechGrows(s, floor, inputs, x, i);
    }
    VoicedGrows(s, floor, inputs, x, b, n);
    assert all[..n] == inputs[..n];
    var i :| b <= i < n && SpeechAt(s, floor, inputs, i) && inputs[i].frame.rms == e.maxRms;
    var j :| b <= j < n && SpeechAt(s, floor, inputs, j) && inputs[j].frame.peak == e.maxPeak;
    assert SpeechAt(s, floor, all, i) && SpeechAt(s, floor, all, j);
  }

  /** State and claim are not measured. */
  lemma MeasuredSame(s: Settings, floor: real, inputs: seq<Input>, e: Episode, e': Episode, b: nat, n: nat)
    requires Measured(s, floor, inputs, e, b, n) && e' == e.(state := e'.state, claimedBy := e'.claimedBy)
    ensures Measured(s, floor, inputs, e', b, n)
  {
    hide Voice, Voiced, SpeechAt, Nanos;
    forall i | b <= i < n && SpeechAt(s, floor, inputs, i) ensures Bounds(e', inputs[i].frame) {
      assert Bounds(e, inputs[i].frame);
    }
  }

  lemma IsMeasuredLater(s: Settings, floor: real, inputs: seq<Input>, x: Input, e: Episode, e': Episode)
    requires IsMeasured(s, floor, inputs, e) && e' == e.(state := e'.state, claimedBy := e'.claimedBy)
    ensures IsMeasured(s, floor, inputs + [x], e')
  {
    hide Measured;
    var b: nat, n: nat :| Measured(s, floor, inputs, e, b, n);
    MeasuredGrows(s, floor, inputs, x, e, b, n);
    MeasuredSame(s, floor, inputs + [x], e, e', b, n);
  }

  lemma {:induction false} QuietVoice(s: Settings, floor: real, inputs: seq<Input>, b: nat, n: nat)
    requires b < n <= |inputs| && forall i | n <= i < |inputs| :: !SpeechAt(s, floor, inputs, i)
    ensures Voice(s, floor, inputs, b) == Voice(s, floor, inputs[..n], b)
  {
    hide SpeechAt;
    if n == |inputs| {
      assert inputs[..n] == inputs;
    } else {
      var last := |inputs| - 1;
      var front := inputs[..last];
      assert front + [inputs[last]] == inputs;
      forall i | n <= i < last ensures !SpeechAt(s, floor, front, i) {
        SpeechGrows(s, floor, front, inputs[last], i);
      }
      QuietVoice(s, floor, front, b, n);
      assert front[..n] == inputs[..n];
    }
  }

  /** A frame of speech that continues the growing episode. */
  lemma ContinuesMeasured(s: Settings, floor: real, inputs: seq<Input>, g: Gate, f: Frame, e': Episode, b: nat, n: nat)
    requires Growing(s, floor, inputs, g, b, n) && g == Run(s, floor, inputs)
    requires Loud(s, g.noiseFloor, f) && Extends(s, g, g.active.value, e', f) && g.active.value.streamId == f.streamId
    ensures Measured(s, floor, inputs + [Heard(f)], e', b, |inputs| + 1)
  {
    hide Voice, Voiced, SpeechAt, Nanos, Run, Time, Loud;
    var x := Heard(f);
    var all, e := inputs + [x], g.active.value;
    MeasuredGrows(s, floor, inputs, x, e, b, n);
    assert SpeechAt(s, floor, all, |inputs|) by { HeardLoud(s, floor, inputs, f); }
    forall i | n <= i < |inputs| ensures !SpeechAt(s, floor, all, i) { SpeechGrows(s, floor, inputs, x, i); }
    QuietVoice(s, floor, inputs, b, n);
    VoiceNext(s, floor, inputs, f, b);
    assert all[..|inputs| + 1] == all;
    VoicedNext(s, floor, inputs, f, b, n);
    forall i | b <= i < |all| && SpeechAt(s, floor, all, i) ensures Bounds(e', all[i].frame) {
      if i < n { assert Bounds(e, all[i].frame); }
    }
    var i :| b <= i < n && SpeechAt(s, floor, all, i) && all[i].frame.rms == e.maxRms;
    var j :| b <= j < n && SpeechAt(s, floor, all, j) && all[j].frame.peak == e.maxPeak;
    assert all[|inputs|] == x;
    assert all[if e'.maxRms == e.maxRms then i else |inputs|].frame.rms == e'.maxRms;
    assert all[if e'.maxPeak == e.maxPeak then j else |inputs|].frame.peak == e'.maxPeak;
  }

  lemma HeardLoud(s: Settings, floor: real, inputs: seq<Input>, f: Frame)
    requires Loud(s, Run(s, floor, inputs).noiseFloor, f)
    ensures SpeechAt(s, floor, inputs + [Heard(f)], |inputs|)
  {
    assert (inputs + [Heard(f)])[..|inputs|] == inputs;
  }

  lemma VoiceNext(s: Settings, floor: real, inputs: seq<Input>, f: Frame, b: nat)
    requires b <= |inputs| && SpeechAt(s, floor, inputs + [Heard(f)], |inputs|)
    ensures Voice(s, floor, inputs + [Heard(f)], b) == Voice(s, floor, inputs, b) + f.durationMs
  {
    hide SpeechAt;
    assert (inputs + [Heard(f)])[..|inputs|] == inputs;
  }

  /** Silence in between adds no moment at which the voice was enough. */
  lemma VoicedNext(s: Settings, floor: real, inputs: seq<Input>, f: Frame, b: nat, n: nat)
    requires b < n <= |inputs| && forall i | n <= i < |inputs| :: !SpeechAt(s, floor, inputs, i)
    ensures var all := inputs + [Heard(f)];
      Voiced(s, floor, all, b, |all|) <==> Voiced(s, floor, inputs, b, n) || Voice(s, floor, all, b) >= s.shortVoicedMs
  {
    hide Voice, SpeechAt;
    var all := inputs + [Heard(f)];
    assert all[..|all|] == all;
    forall m | 0 <= m <= |inputs| ensures all[..m] == inputs[..m] {
    }
    forall m | n <= m <= |inputs| ensures Voice(s, floor, inputs[..m], b) == Voice(s, floor, inputs[..n], b) {
      forall i | n <= i < m ensures !SpeechAt(s, floor, inputs[..m], i) { SpeechPrefix(s, floor, inputs, m, i); }
      QuietVoice(s, floor, inputs[..m], b, n);
      assert inputs[..m][..n] == inputs[..n];
    }
    if Voiced(s, floor, inputs, b, n) {
      var m :| b < m <= n && VoicedAt(s, floor, inputs, b, m);
      assert VoicedAt(s, floor, all, b, m);
    }
    if Voice(s, floor, all, b) >= s.shortVoicedMs { assert VoicedAt(s, floor, all, b, |all|); }
    if Voiced(s, floor, all, b, |all|) {
      var m :| b < m <= |all| && VoicedAt(s, floor, all, b, m);
      if m <= |inputs| { assert VoicedAt(s, floor, inputs, b, if m <= n then m else n); }
    }
  }

  lemma SpeechPrefix(s: Settings, floor: real, inputs: seq<Input>, m: nat, i: nat)
    requires i < m <= |inputs|
    ensures SpeechAt(s, floor, inputs[..m], i) == SpeechAt(s, floor, inputs, i)
  {
    hide Run, Loud;
    assert inputs[..m][..i] == inputs[..i];
  }

  /** A frame of speech that begins an episode. */
  lemma BlankMeasured(s: Settings, floor: real, inputs: seq<Input>, f: Frame, e': Episode)
    requires s.Valid()
    requires var g := Run(s, floor, inputs);
      Loud(s, g.noiseFloor, f) && Extends(s, g, Blank(s, g, f), e', f)
    ensures Measured(s, floor, inputs + [Heard(f)], e', |inputs|, |inputs| + 1)
  {
    hide Voiced, SpeechAt, Nanos, Run;
    var all := inputs + [Heard(f)];
    HeardLoud(s, floor, inputs, f);
    VoiceNext(s, floor, inputs, f, |inputs|);
    assert all[..|all|] == all && all[|inputs|] == Heard(f);
    assert Voiced(s, floor, all, |inputs|, |all|) <==> VoicedAt(s, floor, all, |inputs|, |all|) by {
      OneMoment(s, floor, all);
    }
  }

  lemma OneMoment(s: Settings, floor: real, all: seq<Input>)
    requires all != []
    ensures Voiced(s, floor, all, |all| - 1, |all|) <==> VoicedAt(s, floor, all, |all| - 1, |all|)
  {
    hide VoicedAt;
  }

  /** The growing episode among the others, all of them measured. */
  lemma ActiveIsMeasured(s: Settings, floor: real, inputs: seq<Input>, g: Gate)
    requires AllMeasured(s, floor, inputs, g) && g.active.Some?
    ensures IsMeasured(s, floor, inputs, g.active.value)
  {
    hide Measured;
    var b: nat, n: nat :| Growing(s, floor, inputs, g, b, n);
  }

  lemma ClosedMeasured(s: Settings, floor: real, inputs: seq<Input>, g: Gate, x: Input, episodes: seq<Episode>)
    requires s.Valid() && AllMeasured(s, floor, inputs, g) && g.active.Some?
    requires Closes(s, g.episodes, g.active.value, episodes)
    ensures |episodes| <= s.maximumEpisodes
    ensures forall i | 0 <= i < |episodes| :: IsMeasured(s, floor, inputs + [x], episodes[i])
  {
    hide IsMeasured, Growing;
    var e := g.active.value;
    var closed := e.(state := if e.state.Active? then Finalizing else e.state);
    ActiveIsMeasured(s, floor, inputs, g);
    IsMeasuredLater(s, floor, inputs, x, e, closed);
    forall i | 0 <= i < |g.episodes| ensures IsMeasured(s, floor, inputs + [x], g.episodes[i]) {
      IsMeasuredLater(s, floor, inputs, x, g.episodes[i], g.episodes[i]);
    }
    var all := g.episodes + [closed];
    assert forall i | 0 <= i < |all| :: IsMeasured(s, floor, inputs + [x], all[i]);
  }

  lemma SameMeasured(s: Settings, floor: real, inputs: seq<Input>, g: Gate, x: Input)
    requires AllMeasured(s, floor, inputs, g)
    ensures forall i | 0 <= i < |g.episodes| :: IsMeasured(s, floor, inputs + [x], g.episodes[i])
  {
    hide IsMeasured, Growing;
    forall i | 0 <= i < |g.episodes| ensures IsMeasured(s, floor, inputs + [x], g.episodes[i]) {
      IsMeasuredLater(s, floor, inputs, x, g.episodes[i], g.episodes[i]);
    }
  }

  /** No speech in the last input: the growing episode goes on, or only its state and claim are others. */
  lemma SilenceGrows(s: Settings, floor: real, inputs: seq<Input>, g: Gate, x: Input, g': Gate, b: nat, n: nat)
    requires Growing(s, floor, inputs, g, b, n) && g == Run(s, floor, inputs)
    requires x.Heard? ==> !Loud(s, g.noiseFloor, x.frame)
    requires g'.active.Some?
    requires g'.active.value == g.active.value.(state := g'.active.value.state, claimedBy := g'.active.value.claimedBy)
    requires g'.silenceMs == g.silenceMs + (if x.Heard? then x.frame.durationMs else 0.0) < s.releaseSilenceMs
    ensures Growing(s, floor, inputs + [x], g', b, n)
  {
    hide Measured, Run, Loud, SpeechAt;
    var all := inputs + [x];
    MeasuredGrows(s, floor, inputs, x, g.active.value, b, n);
    MeasuredSame(s, floor, all, g.active.value, g'.active.value, b, n);
    MeasuredBelow(s, floor, inputs, g.active.value, b, n);
    forall i | n <= i < |inputs| ensures !SpeechAt(s, floor, all, i) { SpeechGrows(s, floor, inputs, x, i); }
    assert !SpeechAt(s, floor, all, |inputs|) by { NotLoud(s, floor, inputs, x); }
    assert all[..|inputs|] == inputs;
  }

  lemma MeasuredBelow(s: Settings, floor: real, inputs: seq<Input>, e: Episode, b: nat, n: nat)
    requires Measured(s, floor, inputs, e, b, n)
    ensures b < n <= |inputs|
  {
  }

  lemma NotLoud(s: Settings, floor: real, inputs: seq<Input>, x: Input)
    requires x.Heard? ==> !Loud(s, Run(s, floor, inputs).noiseFloor, x.frame)
    ensures !SpeechAt(s, floor, inputs + [x], |inputs|)
  {
    assert (inputs + [x])[..|inputs|] == inputs;
  }

  /** An episode that was just heard. */
  lemma JustHeard(s: Settings, floor: real, all: seq<Input>, g: Gate, b: nat)
    requires s.Valid() && g.active.Some? && g.silenceMs == 0.0 && Measured(s, floor, all, g.active.value, b, |all|)
    ensures Growing(s, floor, all, g, b, |all|)
  {
    hide Measured, SpeechAt;
  }

  lemma HeardMeasures(s: Settings, floor: real, inputs: seq<Input>, f: Frame)
    requires s.Valid() && AllMeasured(s, floor, inputs, Run(s, floor, inputs))
    ensures AllMeasured(s, floor, inputs + [Heard(f)], Observe(s, Run(s, floor, inputs), f).0)
  {
    hide Measured, Observe, Growing, Extends, Loud, IsMeasured, Run, Closes, Nanos;
    var g := Run(s, floor, inputs);
    var g' := Observe(s, g, f).0;
    var x := Heard(f);
    ObserveExactly(s, g, f);
    SameMeasured(s, floor, inputs, g, x);
    if g'.episodes != g.episodes { ClosedMeasured(s, floor, inputs, g, x, g'.episodes); }
    if Loud(s, g.noiseFloor, f) {
      if Continues(s, g, f) {
        var b: nat, n: nat :| Growing(s, floor, inputs, g, b, n);
        ContinuesMeasured(s, floor, inputs, g, f, g'.active.value, b, n);
        JustHeard(s, floor, inputs + [x], g', b);
      } else {
        BlankMeasured(s, floor, inputs, f, g'.active.value);
        JustHeard(s, floor, inputs + [x], g', |inputs|);
      }
    } else if g'.active.Some? {
      var b: nat, n: nat :| Growing(s, floor, inputs, g, b, n);
      SilenceGrows(s, floor, inputs, g, x, g', b, n);
    }
  }

  lemma ReceivedMeasures(s: Settings, floor: real, inputs: seq<Input>, u: Final, c: Context)
    requires s.Valid() && AllMeasured(s, floor, inputs, Run(s, floor, inputs))
    ensures AllMeasured(s, floor, inputs + [Received(u, c)], Assess(s, Run(s, floor, inputs), u, c).0)
  {
    hide Measured, Assess, Growing, IsMeasured, Run, Enough, Overwhelming, Corroborated, MayClaim;
    var g := Run(s, floor, inputs);
    var g' := Assess(s, g, u, c).0;
    var x := Received(u, c);
    AssessKeepsParts(s, g, u, c);
    forall i | 0 <= i < |g'.episodes| ensures IsMeasured(s, floor, inputs + [x], g'.episodes[i]) {
      assert FromSome(All(g), g'.episodes[i]);
      var j :| 0 <= j < |All(g)| && SameMeasures(All(g)[j], g'.episodes[i]);
      if j == |g.episodes| { ActiveIsMeasured(s, floor, inputs, g); }
      IsMeasuredLater(s, floor, inputs, x, All(g)[j], g'.episodes[i]);
    }
    if g'.active.Some? {
      var b: nat, n: nat :| Growing(s, floor, inputs, g, b, n);
      GrowingSilence(s, floor, inputs, g, b, n);
      SilenceGrows(s, floor, inputs, g, x, g', b, n);
    }
  }

  lemma GrowingSilence(s: Settings, floor: real, inputs: seq<Input>, g: Gate, b: nat, n: nat)
    requires Growing(s, floor, inputs, g, b, n)
    ensures g.silenceMs < s.releaseSilenceMs
  {
  }

  predicate SameMeasures(e: Episode, e': Episode) { e' == e.(state := e'.state, claimedBy := e'.claimedBy) }

  predicate FromSome(es: seq<Episode>, e': Episode) { exists j :: 0 <= j < |es| && SameMeasures(es[j], e') }

  /** A final changes at most states and claims. */
  lemma AssessKeepsParts(s: Settings, g: Gate, u: Final, c: Context)
    requires s.Valid() && |g.episodes| <= s.maximumEpisodes
    ensures var g' := Assess(s, g, u, c).0;
      && |g'.episodes| <= s.maximumEpisodes
      && (forall i | 0 <= i < |g'.episodes| :: FromSome(All(g), g'.episodes[i]))
      && (g'.active.Some? ==>
            g.active.Some? && SameMeasures(g.active.value, g'.active.value) && g'.silenceMs == g.silenceMs)
  {
    hide Assess, Enough, Overwhelming, Corroborated, MayClaim, Refusal, Belongs, Earliest;
    var (g', v) := Assess(s, g, u, c);
    FoundIs(s, g, u);
    var k := Earliest(s, All(g), u);
    if k.Some? {
      AcceptsExactly(s, g, u, c, k.value);
      forall i | 0 <= i < |g'.episodes|
        ensures FromSome(All(g), g'.episodes[i])
      {
        assert g'.episodes[i] == All(g')[i];
        var j := i + (|All(g)| - |All(g')|);
        assert SameMeasures(All(g)[j], g'.episodes[i]);
      }
    } else {
      RefusesExactly(s, g, u, c);
      forall i | 0 <= i < |g'.episodes|
        ensures FromSome(All(g), g'.episodes[i])
      {
        assert g'.episodes[i] == All(g')[i];
        assert SameMeasures(All(g)[i], g'.episodes[i]);
      }
      if g'.active.Some? { assert All(g')[|g'.episodes|] == g'.active.value; }
    }
  }

  /**
   * Over every run of frames and finals each episode is exactly what was heard in it: where it begins
   * and ends, how long the voice was, the largest levels, and whether it counts as speech. The growing
   * one has heard no speech since, and less silence than would end it.
   */
  lemma {:induction false} MeasuresAll(s: Settings, floor: real, inputs: seq<Input>)
    requires s.Valid()
    ensures AllMeasured(s, floor, inputs, Run(s, floor, inputs))
  {
    hide Measured, Observe, Assess, Growing;
    if inputs == [] {
      assert Run(s, floor, inputs).active.None?;
    } else {
      var front, x := inputs[..|inputs| - 1], inputs[|inputs| - 1];
      assert inputs == front + [x];
      MeasuresAll(s, floor, front);
      match x
      case Heard(f) => HeardMeasures(s, floor, front, f);
      case Received(u, c) => ReceivedMeasures(s, floor, front, u, c);
    }
  }
}
