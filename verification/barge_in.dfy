/** The acoustic barge-in detector: counters updated frame by frame against the frame history. */
module BargeIn {
  import opened Domain
  import opened FinalAdmission

  datatype Thresholds = Thresholds(
    onsetMs: real, takeoverMs: real, releaseMs: real, minimumRms: real, minimumPeak: real, multiplier: real)
  {
    predicate Valid() {
      && 20.0 <= onsetMs < takeoverMs
      && releaseMs > 0.0
      && minimumRms > 0.0 && minimumPeak > 0.0 && multiplier > 1.0
    }
  }

  datatype Kind = Onset | Takeover | Ended

  /** When the speech began, when it was noticed and how much of it had been heard. */
  datatype BargeEvent = BargeEvent(kind: Kind, onsetNs: int, observedNs: int, speechMs: real)

  /** A frame together with whether the assistant is playing. */
  datatype Sample = Sample(frame: Frame, playing: bool)

  datatype Detector = Detector(
    floor: real, onsetNs: Option<int>, durationMs: real, silenceMs: real, active: bool, takenOver: bool)

  function Adapt(t: Thresholds, floor: real, rms: real): real { floor * 0.96 + Min(rms, t.minimumRms) * 0.04 }

  predicate Speech(t: Thresholds, floor: real, f: Frame) {
    f.rms >= Max(t.minimumRms, floor * t.multiplier) && f.peak >= t.minimumPeak
  }

  /** The floor moves 4 percent of the way towards the level, which counts at most as the minimum. */
  lemma AdaptExactly(t: Thresholds, floor: real, rms: real)
    ensures Adapt(t, floor, rms) - floor == 0.04 * ((if rms < t.minimumRms then rms else t.minimumRms) - floor)
  {
  }

  /** Speech is what is loud enough in three ways: by itself, over the noise, and at its peak. */
  lemma SpeechExactly(t: Thresholds, floor: real, f: Frame)
    ensures Speech(t, floor, f) <==> f.rms >= t.minimumRms && f.rms >= floor * t.multiplier && f.peak >= t.minimumPeak
  {
  }

  function Cleared(floor: real): Detector { Detector(floor, None, 0.0, 0.0, false, false) }

  // ----- the definition over the history -----

  /** A frame as it was classified when it came. */
  datatype Judged = Judged(sample: Sample, speech: bool)

  /** How much speech a window holds. */
  function Voiced(w: seq<Judged>): real {
    if w == [] then 0.0
    else
      var last := w[|w| - 1];
      Voiced(w[..|w| - 1]) + (if last.speech then last.sample.frame.durationMs else 0.0)
  }

  /** How much silence a window ends with. */
  function Trailing(w: seq<Judged>): real {
    if w == [] || w[|w| - 1].speech then 0.0
    else Trailing(w[..|w| - 1]) + w[|w| - 1].sample.frame.durationMs
  }

  /** Does the next frame end everything that was heard since the last reset? */
  predicate Resets(t: Thresholds, w: seq<Judged>, j: Judged) {
    || !j.sample.playing
    || (!j.speech && (Voiced(w) < t.onsetMs || Trailing(w + [j]) >= t.releaseMs))
  }

  /** The floor moves with every frame that is not speech and not a pause within speech. */
  function FloorAfter(t: Thresholds, floor: real, w: seq<Judged>, j: Judged): real {
    if !j.speech && Resets(t, w, j) then Adapt(t, floor, j.sample.frame.rms) else floor
  }

  /** The floor and the frames since the last reset, for a whole history. */
  datatype Past = Past(floor: real, window: seq<Judged>)

  function Judge(t: Thresholds, floor: real, x: Sample): Judged { Judged(x, Speech(t, floor, x.frame)) }

  function History(t: Thresholds, initial: real, xs: seq<Sample>): Past {
    if xs == [] then Past(initial, [])
    else
      var p := History(t, initial, xs[..|xs| - 1]);
      var j := Judge(t, p.floor, xs[|xs| - 1]);
      Past(FloorAfter(t, p.floor, p.window, j), if Resets(t, p.window, j) then [] else p.window + [j])
  }

  /** What the definition says about the next frame: a threshold is crossed or the silence is long enough. */
  function Defined(t: Thresholds, w: seq<Judged>, j: Judged): seq<BargeEvent> {
    if !j.sample.playing then []
    else
      var f := j.sample.frame;
      var onset := if w == [] then f.capturedNs else w[0].sample.frame.capturedNs;
      var event := (kind: Kind, ms: real) => BargeEvent(kind, onset, FrameEnd(f), ms);
      if j.speech then
        var before, after := Voiced(w), Voiced(w + [j]);
        (if before < t.onsetMs <= after then [event(Onset, after)] else [])
        + (if before < t.takeoverMs <= after then [event(Takeover, after)] else [])
      else if Voiced(w) >= t.onsetMs && Trailing(w + [j]) >= t.releaseMs then [event(Kind.Ended, Voiced(w))]
      else []
  }

  // ----- the detector -----

  function Detect(t: Thresholds, d: Detector, x: Sample): (Detector, seq<BargeEvent>) {
    var f := x.frame;
    var speech := Speech(t, d.floor, f);
    if !x.playing then (Cleared(if speech then d.floor else Adapt(t, d.floor, f.rms)), [])
    else if speech then
      var onset := if d.onsetNs.Some? then d.onsetNs.value else f.capturedNs;
      var duration := (if d.onsetNs.Some? then d.durationMs else 0.0) + f.durationMs;
      var starts := !d.active && duration >= t.onsetMs;
      var takes := (d.active || starts) && !d.takenOver && duration >= t.takeoverMs;
      (Detector(d.floor, Some(onset), duration, 0.0, d.active || starts, d.takenOver || takes),
       (if starts then [BargeEvent(Onset, onset, FrameEnd(f), duration)] else [])
       + (if takes then [BargeEvent(Takeover, onset, FrameEnd(f), duration)] else []))
    else if d.active then
      var silence := d.silenceMs + f.durationMs;
      if silence >= t.releaseMs && d.onsetNs.Some? then
        (Cleared(Adapt(t, d.floor, f.rms)), [BargeEvent(Kind.Ended, d.onsetNs.value, FrameEnd(f), d.durationMs)])
      else (d.(silenceMs := silence), [])
    else (Cleared(Adapt(t, d.floor, f.rms)), [])
  }

  function RunDetector(t: Thresholds, initial: real, xs: seq<Sample>): Detector {
    if xs == [] then Cleared(initial)
    else Detect(t, RunDetector(t, initial, xs[..|xs| - 1]), xs[|xs| - 1]).0
  }

  /** Frames never last a negative time. */
  predicate Timed(xs: seq<Sample>) { forall x | x in xs :: x.frame.durationMs >= 0.0 }

  predicate TimedWindow(w: seq<Judged>) { forall j | j in w :: j.sample.frame.durationMs >= 0.0 }

  // ----- the counters agree with the definition -----

  /** Before speech is active a window holds nothing but speech. */
  ghost predicate Agrees(t: Thresholds, d: Detector, p: Past) {
    && d.floor == p.floor
    && d.durationMs == Voiced(p.window)
    && d.silenceMs == Trailing(p.window)
    && d.active == (Voiced(p.window) >= t.onsetMs)
    && d.takenOver == (Voiced(p.window) >= t.takeoverMs)
    && d.onsetNs == (if p.window == [] then None else Some(p.window[0].sample.frame.capturedNs))
    && TimedWindow(p.window)
  }

  lemma VoicedAppend(w: seq<Judged>, j: Judged)
    ensures Voiced(w + [j]) == Voiced(w) + (if j.speech then j.sample.frame.durationMs else 0.0)
    ensures Trailing(w + [j]) == if j.speech then 0.0 else Trailing(w) + j.sample.frame.durationMs
  {
    assert (w + [j])[..|w|] == w;
  }

  lemma {:induction false} VoicedPositive(w: seq<Judged>)
    requires TimedWindow(w)
    ensures Voiced(w) >= 0.0
  {
    if w != [] {
      assert TimedWindow(w[..|w| - 1]) by { assert forall j | j in w[..|w| - 1] :: j in w; }
      VoicedPositive(w[..|w| - 1]);
      assert w[|w| - 1] in w;
    }
  }

  /** While speech counts, the window grows and the counters with it. */
  lemma SpeechAgrees(t: Thresholds, d: Detector, p: Past, x: Sample)
    requires t.Valid() && Agrees(t, d, p) && x.frame.durationMs >= 0.0 && x.playing && Speech(t, p.floor, x.frame)
    ensures var j := Judge(t, p.floor, x);
      && Detect(t, d, x).1 == Defined(t, p.window, j)
      && Agrees(t, Detect(t, d, x).0, Past(p.floor, p.window + [j]))
  {
    hide Speech, FrameEnd, Voiced, Trailing;
    var j := Judge(t, p.floor, x);
    assert Voiced([]) == 0.0 by { NothingVoiced(); }
    VoicedAppend(p.window, j);
    VoicedPositive(p.window);
  }

  lemma NothingVoiced()
    ensures Voiced([]) == 0.0 && Trailing([]) == 0.0
  {
  }

  lemma DetectAgrees(t: Thresholds, d: Detector, p: Past, x: Sample)
    requires t.Valid() && Agrees(t, d, p) && x.frame.durationMs >= 0.0
    ensures var j := Judge(t, p.floor, x);
      && Detect(t, d, x).1 == Defined(t, p.window, j)
      && Agrees(t, Detect(t, d, x).0,
                Past(FloorAfter(t, p.floor, p.window, j), if Resets(t, p.window, j) then [] else p.window + [j]))
  {
    hide Speech, Adapt, FrameEnd, Voiced, Trailing;
    var j := Judge(t, p.floor, x);
    NothingVoiced();
    VoicedAppend(p.window, j);
    VoicedPositive(p.window);
    if x.playing && Speech(t, p.floor, x.frame) { SpeechAgrees(t, d, p, x); }
  }

  /**
   * On every history the incremental counters equal the definition over the frames since the last
   * reset, and every frame emits exactly the events the definition says.
   */
  lemma {:induction false} DetectorAgrees(t: Thresholds, initial: real, xs: seq<Sample>)
    requires t.Valid() && Timed(xs)
    ensures Agrees(t, RunDetector(t, initial, xs), History(t, initial, xs))
    ensures forall n | 0 <= n < |xs| ::
              var p := History(t, initial, xs[..n]);
              Detect(t, RunDetector(t, initial, xs[..n]), xs[n]).1 == Defined(t, p.window, Judge(t, p.floor, xs[n]))
  {
    hide Agrees, Detect, Defined, Judge, Resets, FloorAfter;
    if xs == [] {
      assert Agrees(t, Cleared(initial), Past(initial, [])) by { AgreesAtStart(t, initial); }
    } else {
      var front := xs[..|xs| - 1];
      assert xs[|xs| - 1] in xs && forall x | x in front :: x in xs;
      DetectorAgrees(t, initial, front);
      DetectAgrees(t, RunDetector(t, initial, front), History(t, initial, front), xs[|xs| - 1]);
      forall n | 0 <= n < |xs|
        ensures var p := History(t, initial, xs[..n]);
          Detect(t, RunDetector(t, initial, xs[..n]), xs[n]).1 == Defined(t, p.window, Judge(t, p.floor, xs[n]))
      {
        if n < |front| { assert front[..n] == xs[..n] && front[n] == xs[n]; }
      }
    }
  }

  lemma AgreesAtStart(t: Thresholds, initial: real)
    requires t.Valid()
    ensures Agrees(t, Cleared(initial), Past(initial, []))
  {
  }

  // ----- the event grammar -----

  /** The trace of a run: its events, and a mark for every frame without playback. */
  datatype Token = Emitted(kind: Kind) | Stopped

  function Tokens(events: seq<BargeEvent>): seq<Token> {
    if events == [] then [] else Tokens(events[..|events| - 1]) + [Emitted(events[|events| - 1].kind)]
  }

  function Trace(t: Thresholds, initial: real, xs: seq<Sample>): seq<Token> {
    if xs == [] then []
    else
      var front := xs[..|xs| - 1];
      var x := xs[|xs| - 1];
      Trace(t, initial, front)
      + (if x.playing then Tokens(Detect(t, RunDetector(t, initial, front), x).1) else [Stopped])
  }

  /** What may come after what; `None` is the beginning. */
  predicate MayFollow(previous: Option<Token>, next: Token) {
    match previous
    case Some(Emitted(Onset)) => next != Emitted(Onset)
    case Some(Emitted(Takeover)) => next == Emitted(Kind.Ended) || next.Stopped?
    case _ => next == Emitted(Onset) || next.Stopped?
  }

  function Last(ts: seq<Token>): Option<Token> { if ts == [] then None else Some(ts[|ts| - 1]) }

  ghost predicate InGrammar(ts: seq<Token>) {
    forall i | 0 <= i < |ts| :: MayFollow(Last(ts[..i]), ts[i])
  }

  lemma GrammarAppend(ts: seq<Token>, token: Token)
    requires InGrammar(ts) && MayFollow(Last(ts), token)
    ensures InGrammar(ts + [token]) && Last(ts + [token]) == Some(token)
  {
    forall i | 0 <= i < |ts| + 1 ensures MayFollow(Last((ts + [token])[..i]), (ts + [token])[i]) {
      assert (ts + [token])[..i] == ts[..i];
    }
    assert ts[..|ts|] == ts;
  }

  /** The last token tells the detector's flags. */
  predicate Tells(d: Detector, ts: seq<Token>) {
    && d.active == (Last(ts) in {Some(Emitted(Onset)), Some(Emitted(Takeover))})
    && d.takenOver == (Last(ts) == Some(Emitted(Takeover)))
    && (d.active ==> d.onsetNs.Some?)
  }

  /** A frame emits nothing, one event, or an onset and a takeover. */
  lemma DetectShape(t: Thresholds, d: Detector, x: Sample)
    ensures var events := Detect(t, d, x).1;
      && |events| <= 2
      && (|events| == 2 ==> events[0].kind.Onset? && events[1].kind.Takeover?)
    ensures var events := Detect(t, d, x).1;
      Tokens(events)
      == if |events| == 0 then [] else if |events| == 1 then [Emitted(events[0].kind)]
         else [Emitted(Onset), Emitted(Takeover)]
  {
    hide Speech, Adapt, FrameEnd;
    var events := Detect(t, d, x).1;
    if |events| == 2 { assert events[..1] == [events[0]] && Tokens([events[0]]) == [Emitted(events[0].kind)]; }
  }

  lemma DetectTells(t: Thresholds, d: Detector, x: Sample, ts: seq<Token>)
    requires Tells(d, ts) && InGrammar(ts)
    ensures var next := ts + (if x.playing then Tokens(Detect(t, d, x).1) else [Stopped]);
      InGrammar(next) && Tells(Detect(t, d, x).0, next)
  {
    hide Speech, Adapt, FrameEnd, InGrammar, Tokens;
    DetectShape(t, d, x);
    if !x.playing {
      GrammarAppend(ts, Stopped);
    } else {
      var events := Detect(t, d, x).1;
      if |events| == 0 {
        assert ts + [] == ts;
      } else {
        var first := Emitted(events[0].kind);
        GrammarAppend(ts, first);
        if |events| == 2 {
          GrammarAppend(ts + [first], Emitted(Takeover));
          assert ts + [Emitted(Onset), Emitted(Takeover)] == ts + [first] + [Emitted(Takeover)];
        }
      }
    }
  }

  /**
   * Every run emits blocks of one onset, at most one takeover and then an end, and only a stop of
   * the playback cuts a block short.
   */
  lemma {:induction false} EventGrammar(t: Thresholds, initial: real, xs: seq<Sample>)
    ensures InGrammar(Trace(t, initial, xs)) && Tells(RunDetector(t, initial, xs), Trace(t, initial, xs))
  {
    hide Detect, InGrammar;
    if xs == [] {
      assert InGrammar([]) by { EmptyGrammar(); }
    } else {
      var front := xs[..|xs| - 1];
      EventGrammar(t, initial, front);
      DetectTells(t, RunDetector(t, initial, front), xs[|xs| - 1], Trace(t, initial, front));
    }
  }

  lemma EmptyGrammar()
    ensures InGrammar([])
  {
  }

  // ----- the noise floor -----

  /** An excess after some moves, each of which leaves 96 percent of it. */
  function Decayed(excess: real, n: nat): real { if n == 0 then excess else 0.96 * Decayed(excess, n - 1) }

  function Excess(t: Thresholds, floor: real): real { if floor > t.minimumRms then floor - t.minimumRms else 0.0 }

  /** How often the floor has moved. */
  function Moves(t: Thresholds, initial: real, xs: seq<Sample>): nat {
    if xs == [] then 0
    else
      var front := xs[..|xs| - 1];
      var p := History(t, initial, front);
      var j := Judge(t, p.floor, xs[|xs| - 1]);
      Moves(t, initial, front) + (if !j.speech && Resets(t, p.window, j) then 1 else 0)
  }

  /** A floor above the minimum level decays towards it geometrically with every move. */
  lemma {:induction false} FloorDecays(t: Thresholds, initial: real, xs: seq<Sample>)
    ensures var floor := History(t, initial, xs).floor;
      floor - t.minimumRms <= Decayed(Excess(t, initial), Moves(t, initial, xs))
  {
    hide Resets, Judge, Adapt;
    if xs != [] {
      var front := xs[..|xs| - 1];
      FloorDecays(t, initial, front);
      var p := History(t, initial, front);
      var j := Judge(t, p.floor, xs[|xs| - 1]);
      DecayStep(t, p.floor, j.sample.frame.rms);
    }
  }

  lemma DecayStep(t: Thresholds, floor: real, rms: real)
    ensures Adapt(t, floor, rms) - t.minimumRms <= 0.96 * (floor - t.minimumRms)
  {
  }

  lemma {:induction false} DecayBounds(excess: real, n: nat)
    requires excess >= 0.0
    ensures 0.0 <= Decayed(excess, n) <= excess
  {
    if n > 0 { DecayBounds(excess, n - 1); }
  }

  lemma FloorBounded(t: Thresholds, initial: real, xs: seq<Sample>)
    ensures History(t, initial, xs).floor <= Max(initial, t.minimumRms)
  {
    hide History, Moves, Decayed;
    FloorDecays(t, initial, xs);
    DecayBounds(Excess(t, initial), Moves(t, initial, xs));
  }

  /**
   * The floor never exceeds the larger of its start and the minimum level, so speech that is loud
   * enough for that bound is classified as speech after every history.
   */
  lemma LoudSpeechIsSpeech(t: Thresholds, initial: real, xs: seq<Sample>, f: Frame)
    requires t.Valid()
    ensures History(t, initial, xs).floor <= Max(initial, t.minimumRms)
    ensures f.peak >= t.minimumPeak && f.rms >= Max(initial, t.minimumRms) * t.multiplier ==>
              Speech(t, History(t, initial, xs).floor, f)
  {
    hide History;
    FloorBounded(t, initial, xs);
    Classifies(t, History(t, initial, xs).floor, Max(initial, t.minimumRms), f);
  }

  lemma Classifies(t: Thresholds, floor: real, bound: real, f: Frame)
    requires t.Valid() && floor <= bound && t.minimumRms <= bound
    ensures f.peak >= t.minimumPeak && f.rms >= bound * t.multiplier ==> Speech(t, floor, f)
  {
    ThresholdBelow(t.minimumRms, floor, bound, t.multiplier);
  }

  /** The threshold over a floor never exceeds the one over a bound of it. */
  lemma ThresholdBelow(minimum: real, floor: real, bound: real, multiplier: real)
    requires 0.0 < minimum <= bound && floor <= bound && multiplier > 1.0
    ensures Max(minimum, floor * multiplier) <= bound * multiplier
  {
    assert (bound - floor) * multiplier >= 0.0;
    assert bound * (multiplier - 1.0) >= 0.0;
  }

  // ----- the object -----

  class AcousticBargeInDetector {
    const thresholds: Thresholds
    var noiseFloor: real
    var candidateOnsetNs: Option<int>
    var candidateDurationMs: real
    var silenceDurationMs: real
    var speechActive: bool
    var takeoverEmitted: bool

    ghost function View(): Detector
      reads this
    {
      Detector(noiseFloor, candidateOnsetNs, candidateDurationMs, silenceDurationMs, speechActive, takeoverEmitted)
    }

    constructor (thresholds: Thresholds, initialNoiseFloor: real)
      requires thresholds.Valid()
      ensures this.thresholds == thresholds && View() == Cleared(initialNoiseFloor)
    {
      this.thresholds, noiseFloor := thresholds, initialNoiseFloor;
      candidateOnsetNs, candidateDurationMs, silenceDurationMs, speechActive, takeoverEmitted :=
        None, 0.0, 0.0, false, false;
    }

    method ResetCandidate()
      modifies this
      ensures View() == Cleared(old(View()).floor)
    {
      candidateOnsetNs, candidateDurationMs, silenceDurationMs, speechActive, takeoverEmitted :=
        None, 0.0, 0.0, false, false;
    }

    method UpdateNoiseFloor(rms: real)
      modifies this`noiseFloor
      ensures View() == old(View()).(floor := Adapt(thresholds, old(View()).floor, rms))
    {
      var bounded := Min(rms, thresholds.minimumRms);
      noiseFloor := noiseFloor * 0.96 + bounded * 0.04;
    }

    /** An active detector always knows its onset. */
    method Observe(x: Sample) returns (events: seq<BargeEvent>)
      requires speechActive ==> candidateOnsetNs.Some?
      modifies this
      ensures (View(), events) == Detect(thresholds, old(View()), x)
      ensures speechActive ==> candidateOnsetNs.Some?
    {
      hide Adapt, FrameEnd;
      var f := x.frame;
      var threshold := Max(thresholds.minimumRms, noiseFloor * thresholds.multiplier);
      var speech := f.rms >= threshold && f.peak >= thresholds.minimumPeak;
      events := [];
      if !x.playing {
        ResetCandidate();
        if !speech { UpdateNoiseFloor(f.rms); }
        return;
      }
      if speech {
        silenceDurationMs := 0.0;
        if candidateOnsetNs.None? {
          candidateOnsetNs := Some(f.capturedNs);
          candidateDurationMs := 0.0;
        }
        candidateDurationMs := candidateDurationMs + f.durationMs;
        if !speechActive && candidateDurationMs >= thresholds.onsetMs {
          speechActive := true;
          events := [BargeEvent(Onset, candidateOnsetNs.value, FrameEnd(f), candidateDurationMs)];
        }
        if speechActive && !takeoverEmitted && candidateDurationMs >= thresholds.takeoverMs {
          takeoverEmitted := true;
          events := events + [BargeEvent(Takeover, candidateOnsetNs.value, FrameEnd(f), candidateDurationMs)];
        }
        assert events + [] == events;
        return;
      }
      if speechActive {
        silenceDurationMs := silenceDurationMs + f.durationMs;
        if silenceDurationMs >= thresholds.releaseMs {
          events := [BargeEvent(Kind.Ended, candidateOnsetNs.value, FrameEnd(f), candidateDurationMs)];
          ResetCandidate();
          UpdateNoiseFloor(f.rms);
        }
        return;
      }
      ResetCandidate();
      UpdateNoiseFloor(f.rms);
    }
  }
}
