/** Accepted finals claim strictly increasing episodes, and never an expired one. */
module AdmissionTheorems {
  import opened Domain
  import opened FinalAdmission

  /** A final of the episode's stream has already come after the episode's window. */
  ghost predicate Missed(s: Settings, e: Episode, inputs: seq<Input>) {
    exists k :: 0 <= k < |inputs| && MissedBy(s, e, inputs[k])
  }

  predicate MissedBy(s: Settings, e: Episode, input: Input) {
    input.Received? && input.final.streamId == e.streamId && Passed(s, e, input.final.timestampNs)
  }

  /** The episode began with a frame that was heard. */
  ghost predicate Begun(e: Episode, inputs: seq<Input>) {
    exists k :: 0 <= k < |inputs| && BegunBy(e, inputs[k])
  }

  predicate BegunBy(e: Episode, input: Input) {
    && input.Heard? && input.frame.streamId == e.streamId
    && input.frame.capturedNs == e.startNs && input.frame.sequence == e.firstSequence
  }

  /** The list of episodes is in order: of generation, and per stream of time and sequence. */
  ghost predicate InOrder(es: seq<Episode>) {
    forall i, j | 0 <= i < j < |es| ::
      && es[i].generation < es[j].generation
      && (es[i].streamId == es[j].streamId ==>
            es[i].startNs <= es[j].startNs && es[i].firstSequence <= es[j].firstSequence)
  }

  /** What every episode of the list satisfies by itself; `last` says whether it still grows. */
  ghost predicate Sane(s: Settings, e: Episode, inputs: seq<Input>, generation: nat, growing: bool) {
    && e.generation <= generation
    && Begun(e, inputs)
    && (e.claimedBy.Some? <==> e.state.Consumed?)
    && (e.state.Active? <==> growing)
    && (e.state.Expired? ==> Missed(s, e, inputs))
  }

  /** A claim leaves no open episode of its stream behind it. */
  ghost predicate Behind(s: Settings, t: Taken, e: Episode, inputs: seq<Input>) {
    (e.streamId == t.streamId && e.generation <= t.generation) ==>
      e.claimedBy.Some? || (e.generation < t.generation && !e.state.Active? && Missed(s, e, inputs))
  }

  ghost predicate Inv(s: Settings, g: Gate, inputs: seq<Input>, claims: seq<Taken>) {
    && InOrder(All(g))
    && (forall i | 0 <= i < |All(g)| :: Sane(s, All(g)[i], inputs, g.generation, i == |g.episodes|))
    && (forall t | t in claims :: t.generation <= g.generation)
    && (forall t, i | t in claims && 0 <= i < |All(g)| :: Behind(s, t, All(g)[i], inputs))
  }

  /** Nothing open starts earlier, and nothing open that starts as early comes before. */
  lemma {:induction false} EarliestFirst(s: Settings, es: seq<Episode>, u: Final)
    ensures Earliest(s, es, u).None? ==> forall i | 0 <= i < |es| :: !Open(s, es[i], u)
    ensures Earliest(s, es, u).Some? ==>
              var k := Earliest(s, es, u).value;
              && (forall i | 0 <= i < |es| && Open(s, es[i], u) :: es[k].startNs <= es[i].startNs)
              && (forall i | 0 <= i < k && Open(s, es[i], u) :: es[k].startNs < es[i].startNs)
  {
    hide Open;
    if es != [] {
      var front := es[..|es| - 1];
      EarliestFirst(s, front, u);
      assert forall i | 0 <= i < |front| :: front[i] == es[i];
    }
  }

  lemma MissedGrows(s: Settings, e: Episode, inputs: seq<Input>, input: Input)
    requires Missed(s, e, inputs)
    ensures Missed(s, e, inputs + [input])
  {
    var k :| 0 <= k < |inputs| && MissedBy(s, e, inputs[k]);
    assert (inputs + [input])[k] == inputs[k];
  }

  lemma BegunGrows(e: Episode, inputs: seq<Input>, input: Input)
    requires Begun(e, inputs)
    ensures Begun(e, inputs + [input])
  {
    var k :| 0 <= k < |inputs| && BegunBy(e, inputs[k]);
    assert (inputs + [input])[k] == inputs[k];
  }

  lemma SaneGrows(s: Settings, e: Episode, inputs: seq<Input>, input: Input, g: nat, g': nat, growing: bool)
    requires Sane(s, e, inputs, g, growing) && g <= g'
    ensures Sane(s, e, inputs + [input], g', growing)
  {
    BegunGrows(e, inputs, input);
    if Missed(s, e, inputs) { MissedGrows(s, e, inputs, input); }
  }

  lemma BehindGrows(s: Settings, t: Taken, e: Episode, inputs: seq<Input>, input: Input)
    requires Behind(s, t, e, inputs)
    ensures Behind(s, t, e, inputs + [input])
  {
    if Missed(s, e, inputs) { MissedGrows(s, e, inputs, input); }
  }

  /** One more input by itself changes nothing that is known. */
  lemma InvGrows(s: Settings, g: Gate, inputs: seq<Input>, claims: seq<Taken>, input: Input)
    requires Inv(s, g, inputs, claims)
    ensures Inv(s, g, inputs + [input], claims)
  {
    hide Sane, Behind, InOrder;
    forall i | 0 <= i < |All(g)|
      ensures Sane(s, All(g)[i], inputs + [input], g.generation, i == |g.episodes|)
    {
      SaneGrows(s, All(g)[i], inputs, input, g.generation, g.generation, i == |g.episodes|);
    }
    forall t, i | t in claims && 0 <= i < |All(g)| ensures Behind(s, t, All(g)[i], inputs + [input]) {
      BehindGrows(s, t, All(g)[i], inputs, input);
    }
  }

  // ----- frames -----

  /** Finishing moves every episode at most one place ahead. */
  lemma FinishShape(s: Settings, g: Gate, ns: int)
    requires g.active.Some? && g.active.value.state.Active?
    ensures var g' := FinishActive(s, g, ns).0;
      var es, es' := All(g), All(g');
      var drop := |es| - |es'|;
      && g'.active.None? && g'.generation == g.generation && es' == g'.episodes && 0 <= drop < |es|
      && (forall i | 0 <= i < |es'| - 1 :: es'[i] == es[i + drop])
      && es'[|es'| - 1] == es[|es| - 1].(state := Finalizing)
  {
  }

  /** The active episode becomes a finished one; the oldest may be dropped. */
  lemma FinishKeeps(s: Settings, g: Gate, ns: int, inputs: seq<Input>, claims: seq<Taken>)
    requires Inv(s, g, inputs, claims)
    ensures Inv(s, FinishActive(s, g, ns).0, inputs, claims)
    ensures FinishActive(s, g, ns).0.active.None?
  {
    if g.active.Some? {
      hide FinishActive;
      var es, es' := All(g), All(FinishActive(s, g, ns).0);
      var last := |es| - 1;
      var drop := |es| - |es'|;
      assert Sane(s, es[last], inputs, g.generation, true);
      FinishShape(s, g, ns);
      forall i | 0 <= i < |es'| ensures Sane(s, es'[i], inputs, g.generation, false) {
        assert Sane(s, es[i + drop], inputs, g.generation, i + drop == last);
        if i == |es'| - 1 { SameBegun(es[last], es'[i], inputs); }
      }
      forall t, i | t in claims && 0 <= i < |es'| ensures Behind(s, t, es'[i], inputs) {
        assert Behind(s, t, es[i + drop], inputs);
      }
    }
  }

  lemma SameBegun(e: Episode, e': Episode, inputs: seq<Input>)
    requires Begun(e, inputs)
    requires e'.streamId == e.streamId && e'.startNs == e.startNs && e'.firstSequence == e.firstSequence
    ensures Begun(e', inputs)
  {
    var k :| 0 <= k < |inputs| && BegunBy(e, inputs[k]);
    assert BegunBy(e', inputs[k]);
  }

  /** Growing the active episode is invisible to every claim. */
  lemma GrowKeeps(s: Settings, g: Gate, e: Episode, inputs: seq<Input>, claims: seq<Taken>, silence: real, floor: real)
    requires Inv(s, g, inputs, claims) && g.active.Some?
    requires var a := g.active.value;
      e.streamId == a.streamId && e.startNs == a.startNs && e.firstSequence == a.firstSequence
      && e.generation == a.generation && e.state == a.state && e.claimedBy == a.claimedBy
    ensures Inv(s, g.(active := Some(e), silenceMs := silence, noiseFloor := floor), inputs, claims)
  {
    var g' := g.(active := Some(e), silenceMs := silence, noiseFloor := floor);
    var es, es' := All(g), All(g');
    var last := |es| - 1;
    assert forall i | 0 <= i < |es| :: es'[i] == if i < last then es[i] else e;
    assert Sane(s, es[last], inputs, g.generation, true);
    SameBegun(es[last], e, inputs);
    forall i | 0 <= i < |es'| ensures Sane(s, es'[i], inputs, g.generation, i == last) {
      if i < last { assert es'[i] == es[i]; }
    }
    forall t, i | t in claims && 0 <= i < |es'| ensures Behind(s, t, es'[i], inputs) {
      assert Behind(s, t, es[i], inputs);
      if i < last { assert es'[i] == es[i]; }
    }
  }

  /** A new episode starts no earlier than anything of its stream that was heard before. */
  lemma FreshKeeps(s: Settings, g: Gate, f: Frame, threshold: real, inputs: seq<Input>, claims: seq<Taken>)
    requires Inv(s, g, inputs, claims) && g.active.None? && Ordered(inputs + [Heard(f)])
    ensures Inv(s, g.(active := Some(Fresh(g, f, threshold)), silenceMs := 0.0, generation := g.generation + 1),
                inputs + [Heard(f)], claims)
  {
    hide Inv;
    var g' := g.(active := Some(Fresh(g, f, threshold)), silenceMs := 0.0, generation := g.generation + 1);
    InvGrows(s, g, inputs, claims, Heard(f));
    var heard := inputs + [Heard(f)];
    assert BegunBy(Fresh(g, f, threshold), heard[|inputs|]);
    FreshParts(s, g, g', Fresh(g, f, threshold), heard, claims, inputs, Heard(f));
  }

  lemma FreshParts(s: Settings, g: Gate, g': Gate, e: Episode, heard: seq<Input>, claims: seq<Taken>, inputs: seq<Input>,
                   input: Input)
    requires Inv(s, g, inputs, claims) && Inv(s, g, heard, claims) && g.active.None? && heard == inputs + [input]
    requires Ordered(heard) && BegunBy(e, input)
    requires e.generation == g.generation + 1 && e.state.Active? && e.claimedBy.None?
    requires All(g') == All(g) + [e] && g'.generation == g.generation + 1 && |g'.episodes| == |g.episodes|
    ensures Inv(s, g', heard, claims)
  {
    var es, es' := All(g), All(g');
    assert heard[|inputs|] == input;
    assert Begun(e, heard);
    forall i | 0 <= i < |es|
      ensures es[i].generation < e.generation
      ensures es[i].streamId == e.streamId ==> es[i].startNs <= e.startNs && es[i].firstSequence <= e.firstSequence
      ensures Sane(s, es[i], heard, g'.generation, false)
    {
      assert Sane(s, es[i], inputs, g.generation, false);
      var k :| 0 <= k < |inputs| && BegunBy(es[i], inputs[k]);
      assert heard[k] == inputs[k];
      assert Sane(s, es[i], heard, g.generation, false);
    }
    forall t, i | t in claims && 0 <= i < |es'| ensures Behind(s, t, es'[i], heard) {
      if i < |es| { assert Behind(s, t, es[i], heard); }
    }
  }

  lemma SilenceKeeps(s: Settings, g: Gate, inputs: seq<Input>, claims: seq<Taken>, silence: real, floor: real)
    requires Inv(s, g, inputs, claims)
    ensures Inv(s, g.(silenceMs := silence, noiseFloor := floor), inputs, claims)
  {
    assert All(g.(silenceMs := silence, noiseFloor := floor)) == All(g);
  }

  lemma ObserveKeeps(s: Settings, g: Gate, f: Frame, inputs: seq<Input>, claims: seq<Taken>)
    requires Inv(s, g, inputs, claims) && Ordered(inputs + [Heard(f)])
    ensures Inv(s, Observe(s, g, f).0, inputs + [Heard(f)], claims)
  {
    hide Inv, FinishActive, Ordered;
    var heard := inputs + [Heard(f)];
    var threshold := Threshold(s, g);
    var g1 := CloseGap(s, g, f).0;
    FinishKeeps(s, g, f.capturedNs, inputs, claims);
    InvGrows(s, g1, inputs, claims, Heard(f));
    if SpeechLike(s, g, f) {
      var g2 := Opened(s, g1, f, threshold).0;
      if g1.active.Some? && g1.active.value.streamId == f.streamId {
        SilenceKeeps(s, g1, heard, claims, 0.0, g1.noiseFloor);
      } else {
        FinishKeeps(s, g1, f.capturedNs, inputs, claims);
        var g3 := FinishActive(s, g1, f.capturedNs).0;
        FinishGeneration(s, g1, f.capturedNs);
        FreshKeeps(s, g3, f, threshold, inputs, claims);
      }
      GrowKeeps(s, g2, Grown(s, g2.active.value, f, threshold), heard, claims, g2.silenceMs, g2.noiseFloor);
    } else if g1.active.Some? {
      SilenceKeeps(s, g1, heard, claims, g1.silenceMs + f.durationMs, g1.noiseFloor);
      FinishKeeps(s, g1.(silenceMs := g1.silenceMs + f.durationMs), FrameEnd(f), heard, claims);
    } else {
      SilenceKeeps(s, g1, heard, claims, g1.silenceMs, Adapted(s, g1.noiseFloor, f.rms));
    }
  }

  lemma FinishGeneration(s: Settings, g: Gate, ns: int)
    ensures FinishActive(s, g, ns).0.generation == g.generation
  {
  }

  // ----- finals -----

  /** An expired episode was missed by the final that expired it. */
  lemma ExpiredSane(s: Settings, e: Episode, u: Final, c: Context, inputs: seq<Input>, generation: nat, growing: bool)
    requires Sane(s, e, inputs, generation, growing)
    requires Framed(e, u) ==> Passed(s, e, u.timestampNs)
    ensures Sane(s, Expire(e, u), inputs + [Received(u, c)], generation, growing)
  {
    hide Nanos;
    var input := Received(u, c);
    SaneGrows(s, e, inputs, input, generation, generation, growing);
    SameBegun(e, Expire(e, u), inputs + [input]);
    SameMissed(s, e, Expire(e, u), inputs + [input]);
    if Expire(e, u) != e { assert MissedBy(s, Expire(e, u), (inputs + [input])[|inputs|]); }
  }

  lemma ExpiredBehind(s: Settings, t: Taken, e: Episode, u: Final, c: Context, inputs: seq<Input>)
    requires Behind(s, t, e, inputs)
    ensures Behind(s, t, Expire(e, u), inputs + [Received(u, c)])
  {
    BehindGrows(s, t, e, inputs, Received(u, c));
    SameMissed(s, e, Expire(e, u), inputs + [Received(u, c)]);
  }

  lemma ExpireKeeps(s: Settings, g: Gate, u: Final, c: Context, inputs: seq<Input>, claims: seq<Taken>)
    requires Inv(s, g, inputs, claims)
    requires forall e | e in All(g) && Framed(e, u) :: Passed(s, e, u.timestampNs)
    ensures Inv(s, ExpireAll(g, u), inputs + [Received(u, c)], claims)
  {
    hide Nanos, Sane, Behind, ExpireEach, Framed, Passed;
    var es, es' := All(g), All(ExpireAll(g, u));
    assert forall i | 0 <= i < |es| :: es'[i] == Expire(es[i], u);
    forall i | 0 <= i < |es|
      ensures Sane(s, es'[i], inputs + [Received(u, c)], g.generation, i == |g.episodes|)
    {
      assert es[i] in es;
      ExpiredSane(s, es[i], u, c, inputs, g.generation, i == |g.episodes|);
    }
    forall t, i | t in claims && 0 <= i < |es'| ensures Behind(s, t, es'[i], inputs + [Received(u, c)]) {
      ExpiredBehind(s, t, es[i], u, c, inputs);
    }
  }

  lemma SameMissed(s: Settings, e: Episode, e': Episode, inputs: seq<Input>)
    requires e'.streamId == e.streamId && e'.endNs == e.endNs
    ensures Missed(s, e, inputs) ==> Missed(s, e', inputs)
  {
    if Missed(s, e, inputs) {
      var k :| 0 <= k < |inputs| && MissedBy(s, e, inputs[k]);
      assert MissedBy(s, e', inputs[k]);
    }
  }

  /** An episode that a final has missed is missed by every later final of its stream. */
  lemma MissedStays(s: Settings, e: Episode, inputs: seq<Input>, u: Final, c: Context)
    requires Missed(s, e, inputs) && e.streamId == u.streamId && Ordered(inputs + [Received(u, c)])
    ensures Passed(s, e, u.timestampNs)
  {
    hide Nanos;
    var k :| 0 <= k < |inputs| && MissedBy(s, e, inputs[k]);
    var all := inputs + [Received(u, c)];
    assert all[k] == inputs[k] && all[|inputs|] == Received(u, c);
  }

  /** The episode found is newer than every claim of its stream, and has not expired. */
  lemma FoundIsNew(s: Settings, g: Gate, u: Final, c: Context, inputs: seq<Input>, claims: seq<Taken>)
    requires Inv(s, g, inputs, claims) && Ordered(inputs + [Received(u, c)]) && Earliest(s, All(g), u).Some?
    ensures var e := All(g)[Earliest(s, All(g), u).value];
      && !e.state.Expired? && !e.state.Consumed?
      && (forall t | t in claims && t.streamId == e.streamId :: t.generation < e.generation)
  {
    hide Ordered, InOrder;
    var k := Earliest(s, All(g), u).value;
    var e := All(g)[k];
    assert Sane(s, e, inputs, g.generation, k == |g.episodes|);
    if Missed(s, e, inputs) { MissedStays(s, e, inputs, u, c); }
    forall t | t in claims && t.streamId == e.streamId ensures t.generation < e.generation {
      assert Behind(s, t, e, inputs);
    }
  }

  /** Everything older than the episode found, in its stream, is claimed or has been missed. */
  lemma OlderIsSettled(s: Settings, g: Gate, u: Final, c: Context, inputs: seq<Input>, claims: seq<Taken>, i: nat)
    requires Inv(s, g, inputs, claims) && Earliest(s, All(g), u).Some?
    requires i < Earliest(s, All(g), u).value && All(g)[i].streamId == u.streamId
    ensures All(g)[i].claimedBy.Some? || Missed(s, All(g)[i], inputs + [Received(u, c)])
  {
    hide Sane, Behind, Nanos;
    var k := Earliest(s, All(g), u).value;
    EarliestFirst(s, All(g), u);
    var e := All(g)[i];
    if e.claimedBy.None? {
      assert !Open(s, e, u);
      assert MissedBy(s, e, (inputs + [Received(u, c)])[|inputs|]);
    }
  }

  lemma ClaimKeeps(s: Settings, g: Gate, u: Final, c: Context, inputs: seq<Input>, claims: seq<Taken>)
    requires Inv(s, g, inputs, claims) && Earliest(s, All(g), u).Some?
    ensures var k := Earliest(s, All(g), u).value;
      var e := All(g)[k];
      Inv(s, Claim(s, g, k, u), inputs + [Received(u, c)], claims + [Taken(e.streamId, e.generation, e.state)])
  {
    hide Inv, Behind, InOrder, Sane;
    var k := Earliest(s, All(g), u).value;
    var e := All(g)[k];
    var input := Received(u, c);
    InvGrows(s, g, inputs, claims, input);
    var t := Taken(e.streamId, e.generation, e.state);
    forall i | 0 <= i < |All(g)| && i != k ensures Behind(s, t, All(g)[i], inputs + [input]) {
      ClaimBehind(s, g, u, c, inputs, claims, i);
    }
    ClaimedKeeps(s, g, k, u, inputs + [input], claims);
  }

  lemma ClaimBehind(s: Settings, g: Gate, u: Final, c: Context, inputs: seq<Input>, claims: seq<Taken>, i: nat)
    requires Inv(s, g, inputs, claims) && Earliest(s, All(g), u).Some?
    requires i < |All(g)| && i != Earliest(s, All(g), u).value
    ensures var e := All(g)[Earliest(s, All(g), u).value];
      Behind(s, Taken(e.streamId, e.generation, e.state), All(g)[i], inputs + [Received(u, c)])
  {
    var k := Earliest(s, All(g), u).value;
    assert Sane(s, All(g)[i], inputs, g.generation, i == |g.episodes|);
    if i < k && All(g)[i].streamId == u.streamId { OlderIsSettled(s, g, u, c, inputs, claims, i); }
  }

  lemma ClaimedSane(s: Settings, e: Episode, transcript: string, inputs: seq<Input>, generation: nat, growing: bool)
    requires Sane(s, e, inputs, generation, growing)
    ensures Sane(s, e.(claimedBy := Some(transcript), state := Consumed), inputs, generation, false)
  {
    SameBegun(e, e.(claimedBy := Some(transcript), state := Consumed), inputs);
  }

  /** What a claim does to the list: one episode is marked, and at most the oldest is dropped. */
  lemma ClaimList(s: Settings, g: Gate, k: nat, u: Final) returns (drop: nat)
    requires k < |All(g)|
    ensures var es, es' := All(g), All(Claim(s, g, k, u));
      var e' := es[k].(claimedBy := Some(u.transcriptId), state := Consumed);
      && |es'| + drop == |es|
      && (drop == 0 || k == |es| - 1)
      && (forall i | 0 <= i < |es'| :: es'[i] == if i + drop == k then e' else es[i + drop])
      && Claim(s, g, k, u).generation == g.generation
      && (k < |g.episodes| ==> drop == 0 && |Claim(s, g, k, u).episodes| == |g.episodes|)
      && (k >= |g.episodes| ==> |Claim(s, g, k, u).episodes| == |es'|)
  {
    hide Push;
    var e' := All(g)[k].(claimedBy := Some(u.transcriptId), state := Consumed);
    if k < |g.episodes| {
      drop := 0;
      assert All(Claim(s, g, k, u)) == All(g)[k := e'];
    } else {
      drop := PushList(s, g.episodes, e');
    }
  }

  lemma PushList(s: Settings, es: seq<Episode>, e: Episode) returns (drop: nat)
    ensures |Push(s, es, e)| + drop == |es| + 1 && drop <= |es|
    ensures forall i | 0 <= i < |Push(s, es, e)| :: Push(s, es, e)[i] == if i + drop == |es| then e else es[i + drop]
  {
    drop := |es| + 1 - |Push(s, es, e)|;
  }

  /** Marking one episode as claimed keeps the gate in order. */
  lemma ClaimedKeeps(s: Settings, g: Gate, k: nat, u: Final, inputs: seq<Input>, claims: seq<Taken>)
    requires Inv(s, g, inputs, claims) && k < |All(g)|
    requires var e := All(g)[k];
      forall i | 0 <= i < |All(g)| && i != k ::
        Behind(s, Taken(e.streamId, e.generation, e.state), All(g)[i], inputs)
    ensures var e := All(g)[k];
      Inv(s, Claim(s, g, k, u), inputs, claims + [Taken(e.streamId, e.generation, e.state)])
  {
    hide Sane, Claim;
    var es, es' := All(g), All(Claim(s, g, k, u));
    var e := es[k];
    var claims' := claims + [Taken(e.streamId, e.generation, e.state)];
    var drop := ClaimList(s, g, k, u);
    forall i | 0 <= i < |es'|
      ensures Sane(s, es'[i], inputs, g.generation, i == |Claim(s, g, k, u).episodes|)
    {
      assert Sane(s, es[i + drop], inputs, g.generation, i + drop == |g.episodes|);
      if i + drop == k { ClaimedSane(s, e, u.transcriptId, inputs, g.generation, k == |g.episodes|); }
    }
    assert e.generation <= g.generation by { SaneGeneration(s, e, inputs, g.generation, k == |g.episodes|); }
    forall t, i | t in claims' && 0 <= i < |es'| ensures Behind(s, t, es'[i], inputs) {
      if t in claims { assert Behind(s, t, es[i + drop], inputs); }
    }
  }

  lemma SaneGeneration(s: Settings, e: Episode, inputs: seq<Input>, generation: nat, growing: bool)
    requires Sane(s, e, inputs, generation, growing)
    ensures e.generation <= generation
  {
  }

  // ----- whole runs -----

  lemma NextKeeps(s: Settings, g: Gate, input: Input, inputs: seq<Input>, claims: seq<Taken>)
    requires Inv(s, g, inputs, claims) && Ordered(inputs + [input])
    ensures Inv(s, Next(s, g, input), inputs + [input], claims + Takes(s, g, input))
  {
    hide Inv, Ordered, Observe, Claim, ExpireAll;
    match input
    case Heard(f) =>
      ObserveKeeps(s, g, f, inputs, claims);
      assert claims + [] == claims;
    case Received(u, c) =>
      var k := Earliest(s, All(g), u);
      InvGrows(s, g, inputs, claims, input);
      assert claims + [] == claims;
      if k.Some? {
        ClaimKeeps(s, g, u, c, inputs, claims);
      } else if WhyNone(s, g, u).FinalTooLate? {
        ExpireKeeps(s, g, u, c, inputs, claims);
      }
  }

  /** Claims of one stream strictly increase, and none takes a consumed or expired episode. */
  ghost predicate Rising(claims: seq<Taken>) {
    && (forall i, j | 0 <= i < j < |claims| && claims[i].streamId == claims[j].streamId ::
          claims[i].generation < claims[j].generation)
    && (forall i | 0 <= i < |claims| :: !claims[i].was.Expired? && !claims[i].was.Consumed?)
  }

  lemma TakesRising(s: Settings, g: Gate, input: Input, inputs: seq<Input>, claims: seq<Taken>)
    requires Inv(s, g, inputs, claims) && Ordered(inputs + [input]) && Rising(claims)
    ensures Rising(claims + Takes(s, g, input))
  {
    hide Inv, Ordered;
    assert claims + [] == claims;
    if input.Received? && Earliest(s, All(g), input.final).Some? {
      FoundIsNew(s, g, input.final, input.context, inputs, claims);
    }
  }

  lemma {:induction false} RunKeeps(s: Settings, floor: real, inputs: seq<Input>)
    requires Ordered(inputs)
    ensures Inv(s, Run(s, floor, inputs), inputs, Claims(s, floor, inputs)) && Rising(Claims(s, floor, inputs))
  {
    hide Next, Takes;
    if inputs != [] {
      var front := inputs[..|inputs| - 1];
      var input := inputs[|inputs| - 1];
      assert front + [input] == inputs;
      assert Ordered(front) by { PrefixOrdered(inputs); }
      RunKeeps(s, floor, front);
      NextKeeps(s, Run(s, floor, front), input, front, Claims(s, floor, front));
      TakesRising(s, Run(s, floor, front), input, front, Claims(s, floor, front));
    }
  }

  lemma PrefixOrdered(inputs: seq<Input>)
    requires Ordered(inputs) && inputs != []
    ensures Ordered(inputs[..|inputs| - 1])
  {
  }

  /**
   * Claims are injective and in order: per stream, accepted finals take episodes of strictly
   * increasing generation, so none twice, and never one that has expired.
   */
  lemma ClaimsRise(s: Settings, floor: real, inputs: seq<Input>)
    requires Ordered(inputs)
    ensures Rising(Claims(s, floor, inputs))
  {
    RunKeeps(s, floor, inputs);
  }
}
