/** Admission of streaming finals: every accepted final claims one microphone speech episode. */
module FinalAdmission {
  import opened Domain

  datatype EpisodeState = Active | Finalizing | Consumed | Expired

  /** A speech episode at one moment; its id is made from its generation. */
  datatype Episode = Episode(
    streamId: string,
    startNs: int,
    endNs: int,
    firstSequence: int,
    lastSequence: int,
    voicedMs: real,
    maxRms: real,
    maxPeak: real,
    threshold: real,
    generation: nat,
    state: EpisodeState,
    valid: bool,
    startedEmitted: bool,
    claimedBy: Option<string>)

  /** A frame as the gate sees it: its levels and its length. */
  datatype Frame = Frame(streamId: string, capturedNs: int, sequence: int, durationMs: real, rms: real, peak: real)

  /** A final transcript; `tokens` counts its words and `meaningful` judges its text. */
  datatype Final = Final(
    streamId: string,
    timestampNs: int,
    sequence: Option<int>,
    transcriptId: string,
    tokens: nat,
    meaningful: bool,
    exactInput: bool,
    endpointed: bool,
    complete: bool)

  /** What else is known when a final arrives. */
  datatype Context = Context(playbackActive: bool, selfCandidate: bool, selfSuppress: bool)

  datatype Settings = Settings(
    minimumVoicedMs: real,
    shortVoicedMs: real,
    releaseSilenceMs: real,
    windowMs: real,
    minimumRms: real,
    minimumPeak: real,
    noiseMultiplier: real,
    maximumEpisodes: nat,
    recoveryVoicedMs: real,
    recoverySpanRatio: real)
  {
    /** The constructor's checks. */
    predicate Valid() {
      && minimumVoicedMs > 0.0 && shortVoicedMs > 0.0 && releaseSilenceMs > 0.0
      && shortVoicedMs <= minimumVoicedMs
      && windowMs >= releaseSilenceMs
      && minimumRms > 0.0 && minimumPeak > 0.0 && noiseMultiplier > 1.0
      && maximumEpisodes >= 1
      && recoveryVoicedMs >= shortVoicedMs
      && 0.0 < recoverySpanRatio <= 1.0
    }
  }

  datatype Reason =
    | Accepted | AcceptedRecovered | NoPcmEpisode | EpisodeTooShort | FinalTooEarly | FinalTooLate
    | StreamMismatch | FrameRangeMismatch | AlreadyConsumed | SelfSpeechMatch | InsufficientEvidence | Unknown

  /** `generation` names the episode the final was measured against. */
  datatype Verdict = Verdict(accepted: bool, reason: Reason, generation: Option<nat>)

  datatype EpisodeEvent = Started(generation: nat, ns: int) | Ended(generation: nat, ns: int)

  /** The gate: finished episodes in order, at most `maximumEpisodes`, and the one still growing. */
  datatype Gate = Gate(
    episodes: seq<Episode>, active: Option<Episode>, silenceMs: real, generation: nat, noiseFloor: real)

  function All(g: Gate): seq<Episode> {
    if g.active.Some? then g.episodes + [g.active.value] else g.episodes
  }

  function Max(a: real, b: real): real { if a >= b then a else b }

  function Min(a: real, b: real): real { if a <= b then a else b }

  /** Rounding to the nearest integer, ties to even. */
  function Round(x: real): (n: int)
    ensures -0.5 <= n as real - x <= 0.5
    ensures n as real - x == 0.5 || x - n as real == 0.5 ==> n % 2 == 0
  {
    var f := x.Floor;
    var rest := x - f as real;
    if rest < 0.5 || (rest == 0.5 && f % 2 == 0) then f else f + 1
  }

  function Nanos(ms: real): (ns: int)
    ensures ms * 1_000_000.0 - 0.5 <= ns as real <= ms * 1_000_000.0 + 0.5
  {
    Round(ms * 1_000_000.0)
  }

  function Adapted(s: Settings, floor: real, rms: real): real { floor * 0.96 + Min(rms, s.minimumRms) * 0.04 }

  /** Appending to a bounded deque drops the oldest episode. */
  function Push(s: Settings, episodes: seq<Episode>, e: Episode): seq<Episode> {
    if |episodes| >= s.maximumEpisodes && episodes != [] then episodes[1..] + [e] else episodes + [e]
  }

  // ----- frames -----

  function FinishActive(s: Settings, g: Gate, ns: int): (Gate, seq<EpisodeEvent>) {
    if g.active.None? then (g, [])
    else
      var e := g.active.value;
      var done := e.(state := if e.state.Active? then Finalizing else e.state);
      (Gate(Push(s, g.episodes, done), None, 0.0, g.generation, Adapted(s, g.noiseFloor, 0.0)),
       if e.startedEmitted then [Ended(e.generation, ns)] else [])
  }

  function Threshold(s: Settings, g: Gate): real { Max(s.minimumRms, g.noiseFloor * s.noiseMultiplier) }

  predicate SpeechLike(s: Settings, g: Gate, f: Frame) { f.rms >= Threshold(s, g) && f.peak >= s.minimumPeak }

  function FrameEnd(f: Frame): int { f.capturedNs + Nanos(f.durationMs) }

  /** A long enough gap ends the active episode before the frame is looked at. */
  function CloseGap(s: Settings, g: Gate, f: Frame): (Gate, seq<EpisodeEvent>) {
    if g.active.Some? && f.capturedNs - g.active.value.endNs >= Nanos(s.releaseSilenceMs)
    then FinishActive(s, g, f.capturedNs)
    else (g, [])
  }

  function Fresh(g: Gate, f: Frame, threshold: real): Episode {
    Episode(f.streamId, f.capturedNs, FrameEnd(f), f.sequence, f.sequence, 0.0, 0.0, 0.0, threshold,
            g.generation + 1, Active, false, false, None)
  }

  /** Speech of another stream ends the active episode; then one is open for the frame's stream. */
  function Opened(s: Settings, g: Gate, f: Frame, threshold: real): (r: (Gate, seq<EpisodeEvent>))
    ensures r.0.active.Some? && r.0.active.value.streamId == f.streamId
  {
    if g.active.Some? && g.active.value.streamId == f.streamId then (g.(silenceMs := 0.0), [])
    else
      var (g1, events) := FinishActive(s, g, f.capturedNs);
      (g1.(active := Some(Fresh(g, f, threshold)), silenceMs := 0.0, generation := g.generation + 1), events)
  }

  function Grown(s: Settings, e: Episode, f: Frame, threshold: real): Episode {
    var voiced := e.voicedMs + f.durationMs;
    e.(endNs := FrameEnd(f), lastSequence := f.sequence, voicedMs := voiced,
       maxRms := Max(e.maxRms, f.rms), maxPeak := Max(e.maxPeak, f.peak), threshold := Max(e.threshold, threshold),
       valid := e.valid || voiced >= s.shortVoicedMs,
       startedEmitted := e.startedEmitted || voiced >= s.shortVoicedMs)
  }

  function Observe(s: Settings, g: Gate, f: Frame): (Gate, seq<EpisodeEvent>) {
    var threshold := Threshold(s, g);
    var (g1, ended) := CloseGap(s, g, f);
    if SpeechLike(s, g, f) then
      var (g2, events) := Opened(s, g1, f, threshold);
      var e := Grown(s, g2.active.value, f, threshold);
      (g2.(active := Some(e)),
       ended + events
       + (if e.startedEmitted && !g2.active.value.startedEmitted then [Started(e.generation, FrameEnd(f))] else []))
    else if g1.active.Some? then
      var g2 := g1.(silenceMs := g1.silenceMs + f.durationMs);
      if g2.silenceMs >= s.releaseSilenceMs then
        var (g3, events) := FinishActive(s, g2, FrameEnd(f));
        (g3, ended + events)
      else (g2, ended)
    else (g1.(noiseFloor := Adapted(s, g1.noiseFloor, f.rms)), ended)
  }

  // ----- finals -----

  predicate Framed(e: Episode, u: Final) {
    e.streamId == u.streamId && (u.sequence.Some? ==> u.sequence.value >= e.firstSequence)
  }

  predicate Passed(s: Settings, e: Episode, ns: int) { ns - e.endNs > Nanos(s.windowMs) }

  predicate Temporal(s: Settings, e: Episode, u: Final) {
    Framed(e, u) && e.startNs <= u.timestampNs && !Passed(s, e, u.timestampNs)
  }

  predicate Open(s: Settings, e: Episode, u: Final) { Temporal(s, e, u) && e.claimedBy.None? }

  /** The open episode that starts first; among equal starts, the first in the list. */
  function Earliest(s: Settings, es: seq<Episode>, u: Final): (k: Option<nat>)
    ensures k.Some? ==> k.value < |es| && Open(s, es[k.value], u)
  {
    if es == [] then None
    else
      var last := |es| - 1;
      var k := Earliest(s, es[..last], u);
      if Open(s, es[last], u) && (k.None? || es[last].startNs < es[k.value].startNs) then Some(last) else k
  }

  function Expire(e: Episode, u: Final): Episode {
    if Framed(e, u) && e.state.Finalizing? then e.(state := Expired) else e
  }

  function ExpireEach(es: seq<Episode>, u: Final): (es': seq<Episode>)
    ensures |es'| == |es| && forall i | 0 <= i < |es| :: es'[i] == Expire(es[i], u)
  {
    if es == [] then [] else ExpireEach(es[..|es| - 1], u) + [Expire(es[|es| - 1], u)]
  }

  function ExpireAll(g: Gate, u: Final): Gate {
    g.(episodes := ExpireEach(g.episodes, u),
       active := if g.active.Some? then Some(Expire(g.active.value, u)) else None)
  }

  /** Why no open episode was found. */
  function WhyNone(s: Settings, g: Gate, u: Final): Reason {
    var es := All(g);
    if es == [] then NoPcmEpisode
    else if forall e | e in es :: e.streamId != u.streamId then StreamMismatch
    else if forall e | e in es :: !Framed(e, u) then FrameRangeMismatch
    else if exists e | e in es :: Temporal(s, e, u) then AlreadyConsumed
    else if forall e | e in es && Framed(e, u) :: u.timestampNs < e.startNs then FinalTooEarly
    else if forall e | e in es && Framed(e, u) :: Passed(s, e, u.timestampNs) then FinalTooLate
    else Unknown
  }

  function RequiredVoiced(s: Settings, u: Final): real {
    if u.tokens <= 3 then s.shortVoicedMs else Max(s.minimumVoicedMs, Min(700.0, u.tokens as real * 35.0))
  }

  predicate StrongEvidence(s: Settings, e: Episode, u: Final) {
    && e.voicedMs >= Max(480.0, RequiredVoiced(s, u) * 1.5)
    && e.maxRms >= e.threshold * 1.2
    && e.maxPeak >= s.minimumPeak * 1.5
  }

  /** How long an episode was open, and how long it must have been for the recovery. */
  function SpanMs(startNs: int, endNs: int): real { Max(0.0, (endNs - startNs) as real / 1_000_000.0) }

  function RequiredSpan(s: Settings, required: real): real { Max(s.minimumVoicedMs, required * s.recoverySpanRatio) }

  /** Independent evidence may stand in for missing voiced time, never during playback. */
  predicate Recoverable(s: Settings, e: Episode, u: Final, c: Context) {
    && !c.playbackActive && !c.selfCandidate && !c.selfSuppress
    && e.valid && e.voicedMs >= s.recoveryVoicedMs
    && u.exactInput && u.sequence.Some? && u.endpointed && u.complete && u.meaningful
    && SpanMs(e.startNs, e.endNs) >= RequiredSpan(s, RequiredVoiced(s, u))
  }

  function Judge(s: Settings, e: Episode, u: Final, c: Context): Reason {
    if e.voicedMs < s.shortVoicedMs then EpisodeTooShort
    else if c.selfSuppress && !StrongEvidence(s, e, u) then SelfSpeechMatch
    else
      var short := e.voicedMs < RequiredVoiced(s, u);
      var recovered := short && Recoverable(s, e, u, c);
      if !e.valid || (short && !recovered) then InsufficientEvidence
      else if recovered then AcceptedRecovered else Accepted
  }

  predicate Accepting(r: Reason) { r.Accepted? || r.AcceptedRecovered? }

  function Claim(s: Settings, g: Gate, k: nat, u: Final): Gate
    requires k < |All(g)|
  {
    var e := All(g)[k].(claimedBy := Some(u.transcriptId), state := Consumed);
    if k < |g.episodes| then g.(episodes := g.episodes[k := e])
    else g.(episodes := Push(s, g.episodes, e), active := None, silenceMs := 0.0)
  }

  function Assess(s: Settings, g: Gate, u: Final, c: Context): (Gate, Verdict) {
    var k := Earliest(s, All(g), u);
    if k.None? then
      var reason := WhyNone(s, g, u);
      (if reason.FinalTooLate? then ExpireAll(g, u) else g,
       Verdict(false, if c.selfSuppress then SelfSpeechMatch else reason, None))
    else
      var e := All(g)[k.value];
      var reason := Judge(s, e, u, c);
      (if Accepting(reason) then Claim(s, g, k.value, u) else g,
       Verdict(Accepting(reason), reason, Some(e.generation)))
  }

  // ----- whole runs -----

  datatype Input = Heard(frame: Frame) | Received(final: Final, context: Context)

  /** Which episode an accepted final took, and in what state it found it. */
  datatype Taken = Taken(streamId: string, generation: nat, was: EpisodeState)

  function Next(s: Settings, g: Gate, input: Input): Gate {
    match input
    case Heard(f) => Observe(s, g, f).0
    case Received(u, c) => Assess(s, g, u, c).0
  }

  function Takes(s: Settings, g: Gate, input: Input): seq<Taken> {
    if input.Heard? then []
    else
      var k := Earliest(s, All(g), input.final);
      if k.Some? && Accepting(Judge(s, All(g)[k.value], input.final, input.context))
      then [Taken(All(g)[k.value].streamId, All(g)[k.value].generation, All(g)[k.value].state)]
      else []
  }

  function Run(s: Settings, floor: real, inputs: seq<Input>): Gate {
    if inputs == [] then Gate([], None, 0.0, 0, floor)
    else Next(s, Run(s, floor, inputs[..|inputs| - 1]), inputs[|inputs| - 1])
  }

  function Claims(s: Settings, floor: real, inputs: seq<Input>): seq<Taken> {
    if inputs == [] then []
    else
      var front := inputs[..|inputs| - 1];
      Claims(s, floor, front) + Takes(s, Run(s, floor, front), inputs[|inputs| - 1])
  }

  /** Per stream, frames come in order of time and sequence, and finals in order of their timestamps. */
  predicate Ordered(inputs: seq<Input>) {
    forall i, j | 0 <= i < j < |inputs| ::
      && (inputs[i].Heard? && inputs[j].Heard? && inputs[i].frame.streamId == inputs[j].frame.streamId ==>
            && inputs[i].frame.capturedNs <= inputs[j].frame.capturedNs
            && inputs[i].frame.sequence <= inputs[j].frame.sequence)
      && (inputs[i].Received? && inputs[j].Received? && inputs[i].final.streamId == inputs[j].final.streamId ==>
            inputs[i].final.timestampNs <= inputs[j].final.timestampNs)
  }
}
