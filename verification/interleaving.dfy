/** Replaying many interleaved conversations is replaying each one by itself. */
module Interleaving {
  import opened Domain
  import opened Timeline

  /** The conversation a line is legibly about. */
  function About(e: Event): Option<string> {
    if e.Event? then Some(e.conversationId) else e.claimedConversation
  }

  function Project(events: seq<Event>, c: string): seq<Event> {
    if events == [] then []
    else
      var e := events[|events| - 1];
      Project(events[..|events| - 1], c) + (if About(e) == Some(c) then [e] else [])
  }

  lemma ProjectAppend(events: seq<Event>, e: Event, c: string)
    ensures Project(events + [e], c) == if About(e) == Some(c) then Project(events, c) + [e] else Project(events, c)
  {
    assert (events + [e])[..|events|] == events;
  }

  /** Two replays know the same about one conversation. */
  ghost predicate SameFor(r: Replay, s: Replay, c: string) {
    && StateOf(r, c) == StateOf(s, c)
    && SequenceOf(r, c) == SequenceOf(s, c)
    && ClockOf(r, c) == ClockOf(s, c)
    && (forall k: string :: (c, k) in r.turns <==> (c, k) in s.turns)
    && (forall k: string | (c, k) in r.turns :: r.turns[(c, k)] == s.turns[(c, k)])
    && (forall k: string :: (c, k) in r.candidates <==> (c, k) in s.candidates)
    && (forall k: string | (c, k) in r.candidates :: r.candidates[(c, k)] == s.candidates[(c, k)])
  }

  /** Only what a replay knows about the event's own conversation decides about it. */
  lemma SameDecides(r: Replay, s: Replay, e: Event)
    requires e.Event? && SameFor(r, s, e.conversationId)
    ensures Fits(r, e) <==> Fits(s, e)
    ensures NewTtfa(r, e) == NewTtfa(s, e) && NewBarge(r, e) == NewBarge(s, e)
  {
  }

  lemma ApplySame(r: Replay, s: Replay, e: Event)
    requires Fits(r, e) && Fits(s, e) && SameFor(r, s, e.conversationId)
    ensures SameFor(Apply(r, e), Apply(s, e), e.conversationId)
  {
  }

  lemma ApplyForeign(r: Replay, s: Replay, e: Event, c: string)
    requires Fits(r, e) && e.conversationId != c && SameFor(r, s, c)
    ensures SameFor(Apply(r, e), s, c)
  {
  }

  /** Every projection is accepted and knows what the whole replay knows about its conversation. */
  ghost predicate Simulates(events: seq<Event>, r: Replay) {
    forall c: string :: Run(Project(events, c)).Some? && SameFor(r, Run(Project(events, c)).value, c)
  }

  lemma SimulatesNext(events: seq<Event>, r: Replay, e: Event)
    requires Simulates(events, r) && Fits(r, e)
    ensures Simulates(events + [e], Apply(r, e))
  {
    hide Run, Fits, Apply, SameFor, Project;
    forall c: string
      ensures Run(Project(events + [e], c)).Some?
      ensures SameFor(Apply(r, e), Run(Project(events + [e], c)).value, c)
    {
      var s := Run(Project(events, c)).value;
      ProjectAppend(events, e, c);
      assert e.Event? by { FitsEvent(r, e); }
      if e.conversationId == c {
        SameDecides(r, s, e);
        RunAppend(Project(events, c), e);
        ApplySame(r, s, e);
      } else {
        ApplyForeign(r, s, e, c);
      }
    }
  }

  lemma FitsEvent(r: Replay, e: Event)
    requires Fits(r, e)
    ensures e.Event?
  {
  }

  lemma {:induction false} AcceptedProjects(events: seq<Event>)
    requires Run(events).Some?
    ensures Simulates(events, Run(events).value)
  {
    hide Fits, Apply;
    if events != [] {
      var front := events[..|events| - 1];
      AcceptedProjects(front);
      SimulatesNext(front, Run(front).value, events[|events| - 1]);
      assert front + [events[|events| - 1]] == events;
    }
  }

  /** Every conversation's own timeline is accepted. */
  ghost predicate EachAccepted(events: seq<Event>) { forall c: string :: Run(Project(events, c)).Some? }

  /** A refused prefix of a projection refuses the projection. */
  lemma {:induction false} ProjectionsCompose(events: seq<Event>)
    requires forall e | e in events :: About(e).Some?
    requires EachAccepted(events)
    ensures Run(events).Some?
  {
    hide Fits, Apply, SameFor;
    if events != [] {
      var front := events[..|events| - 1];
      var e := events[|events| - 1];
      assert front + [e] == events;
      assert EachAccepted(front) by {
        forall c: string ensures Run(Project(front, c)).Some? {
          ProjectAppend(front, e, c);
          RunAppend(Project(front, c), e);
          assert Run(Project(events, c)).Some?;
        }
      }
      ProjectionsCompose(front);
      AcceptedProjects(front);
      var c := About(e).value;
      var r, s := Run(front).value, Run(Project(front, c)).value;
      ProjectAppend(front, e, c);
      RunAppend(Project(front, c), e);
      assert Run(Project(events, c)).Some?;
      FitsEvent(s, e);
      SameDecides(r, s, e);
    }
  }

  // ----- samples -----

  /** All samples of the listed conversations, replayed one by one. */
  function Samples(events: seq<Event>, cs: seq<string>, pick: Replay -> seq<real>): multiset<real> {
    if cs == [] then multiset{}
    else
      var c := cs[|cs| - 1];
      Samples(events, cs[..|cs| - 1], pick)
      + (match Run(Project(events, c)) case Some(r) => multiset(pick(r)) case None => multiset{})
  }

  ghost predicate Distinct(cs: seq<string>) { forall i, j | 0 <= i < j < |cs| :: cs[i] != cs[j] }

  /** One more event adds its samples to the conversation it is about, and to no other. */
  lemma {:induction false} SamplesNext(events: seq<Event>, r: Replay, e: Event, cs: seq<string>,
                                      pick: Replay -> seq<real>, added: seq<real>)
    requires Simulates(events, r) && Fits(r, e) && Distinct(cs)
    requires forall s | SameFor(r, s, e.conversationId) && Fits(s, e) :: pick(Apply(s, e)) == pick(s) + added
    ensures Samples(events + [e], cs, pick)
            == Samples(events, cs, pick) + (if e.conversationId in cs then multiset(added) else multiset{})
  {
    hide Run, Fits, Apply, SameFor, Project;
    if cs != [] {
      var c := cs[|cs| - 1];
      var front := cs[..|cs| - 1];
      SamplesNext(events, r, e, front, pick, added);
      ProjectAppend(events, e, c);
      RunAppend(Project(events, c), e);
      FitsEvent(r, e);
      assert e.conversationId in cs <==> e.conversationId in front || e.conversationId == c;
      assert c !in front;
      if e.conversationId == c {
        var s := Run(Project(events, c)).value;
        SameDecides(r, s, e);
        assert pick(Apply(s, e)) == pick(s) + added;
      }
    }
  }

  lemma {:induction false} SamplesStart(cs: seq<string>, pick: Replay -> seq<real>)
    requires pick(Start) == []
    ensures Samples([], cs, pick) == multiset{}
  {
    if cs != [] { SamplesStart(cs[..|cs| - 1], pick); }
  }

  /** For any list of the conversations that occur, the samples of the whole are those of the parts. */
  lemma {:induction false} SamplesAgree(events: seq<Event>, cs: seq<string>)
    requires Run(events).Some? && Distinct(cs)
    requires forall e | e in events :: e.Event? ==> e.conversationId in cs
    ensures multiset(Run(events).value.ttfa) == Samples(events, cs, (r: Replay) => r.ttfa)
    ensures multiset(Run(events).value.barge) == Samples(events, cs, (r: Replay) => r.barge)
  {
    hide Fits, SameFor, Project, NewTtfa, NewBarge;
    var ttfa := (r: Replay) => r.ttfa;
    var barge := (r: Replay) => r.barge;
    if events == [] {
      SamplesStart(cs, ttfa);
      SamplesStart(cs, barge);
    } else {
      var front := events[..|events| - 1];
      var e := events[|events| - 1];
      assert front + [e] == events;
      var r := Run(front).value;
      SamplesAgree(front, cs);
      AcceptedProjects(front);
      FitsEvent(r, e);
      forall s | SameFor(r, s, e.conversationId) && Fits(s, e)
        ensures ttfa(Apply(s, e)) == ttfa(s) + NewTtfa(r, e) && barge(Apply(s, e)) == barge(s) + NewBarge(r, e)
      {
        SameDecides(r, s, e);
      }
      SamplesNext(front, r, e, cs, ttfa, NewTtfa(r, e));
      SamplesNext(front, r, e, cs, barge, NewBarge(r, e));
      assert e in events;
    }
  }

  lemma {:induction false} AcceptedNames(events: seq<Event>)
    requires Run(events).Some?
    ensures forall e | e in events :: About(e).Some?
  {
    if events != [] {
      var front := events[..|events| - 1];
      AcceptedNames(front);
      assert forall e | e in events :: e in front || e == events[|events| - 1];
    }
  }

  /**
   * A timeline is accepted exactly when every line names its conversation and each conversation's
   * own timeline is accepted; and then the whole ends every conversation in the same state.
   */
  lemma InterleavingExact(events: seq<Event>)
    ensures Run(events).Some? <==> EachAccepted(events) && forall e | e in events :: About(e).Some?
    ensures Run(events).Some? ==>
              forall c :: StateOf(Run(events).value, c) == StateOf(Run(Project(events, c)).value, c)
  {
    hide Run, Project;
    if Run(events).Some? {
      AcceptedProjects(events);
      AcceptedNames(events);
    } else if EachAccepted(events) && forall e | e in events :: About(e).Some? {
      ProjectionsCompose(events);
    }
  }

  // ----- how many samples, and that none is negative -----

  function Count(events: seq<Event>, kind: EventType): nat {
    if events == [] then 0
    else
      var e := events[|events| - 1];
      Count(events[..|events| - 1], kind) + (if e.Event? && e.eventType == kind then 1 else 0)
  }

  /** Everything a replay waits for lies in the past of its conversation. */
  ghost predicate Past(r: Replay) {
    && (forall key | key in r.turns :: r.turns[key] <= ClockOf(r, key.0))
    && (forall key | key in r.candidates :: r.candidates[key] <= ClockOf(r, key.0))
    && (forall x | x in r.ttfa :: x >= 0.0)
    && (forall x | x in r.barge :: x >= 0.0)
  }

  lemma PastNext(r: Replay, e: Event)
    requires Past(r) && Fits(r, e)
    ensures Past(Apply(r, e))
  {
    var key := (e.conversationId, e.correlationId);
    if key in r.turns { MillisPositive(e.ns - r.turns[key]); }
    if key in r.candidates { MillisPositive(e.ns - r.candidates[key]); }
  }

  lemma MillisPositive(ns: int)
    ensures ns >= 0 ==> Millis(ns) >= 0.0
  {
  }

  lemma RemoveOne(m: map<(string, string), int>, key: (string, string))
    requires key in m
    ensures |m - {key}| == |m| - 1
  {
    assert (m - {key}).Keys == m.Keys - {key};
    assert |(m - {key}).Keys| == |m.Keys| - 1;
  }

  lemma PutOne(m: map<(string, string), int>, key: (string, string), v: int)
    ensures |m[key := v]| <= |m| + 1
  {
    assert m[key := v].Keys == m.Keys + {key};
  }

  lemma CountsNext(r: Replay, e: Event)
    requires Fits(r, e)
    ensures |Apply(r, e).barge| == |r.barge| + (if e.eventType.AgentAudioCancelled? then 1 else 0)
    ensures |Apply(r, e).ttfa| + |Apply(r, e).turns|
            <= |r.ttfa| + |r.turns| + (if e.eventType.TurnConfirmed? then 1 else 0)
  {
    var key := (e.conversationId, e.correlationId);
    PutOne(r.turns, key, e.ns);
    if key in r.turns { RemoveOne(r.turns, key); }
  }

  /**
   * Every cancellation yields one latency sample, every confirmed turn at most one, and no sample
   * is negative.
   */
  lemma {:induction false} SampleCounts(events: seq<Event>)
    requires Run(events).Some?
    ensures var r := Run(events).value;
      && Past(r)
      && |r.barge| == Count(events, AgentAudioCancelled)
      && |r.ttfa| + |r.turns| <= Count(events, TurnConfirmed)
  {
    hide Fits, Apply, Past;
    if events != [] {
      var front := events[..|events| - 1];
      var e := events[|events| - 1];
      SampleCounts(front);
      PastNext(Run(front).value, e);
      CountsNext(Run(front).value, e);
      FitsEvent(Run(front).value, e);
    } else {
      assert Past(Start) by { StartPast(); }
    }
  }

  lemma StartPast()
    ensures Past(Start)
  {
  }
}
