/** What every interleaving keeps: the inductive invariant of the response/playback protocol. */
module Invariants {
  import opened Domain
  import opened Ledger
  import opened Protocol

  /** How a playback task and its ledger entry go together. */
  ghost predicate Matches(e: Entry, p: Playback, cancelSet: bool) {
    && p.total == e.total
    && p.played <= p.total
    && match p.phase
       case Pending => p.played == 0 && (e.state.Queued? || (e.state.Cancelled? && cancelSet))
       case Sleeping =>
         p.played < p.total && e.startedNs == Some(p.startedNs)
         && (e.state.Playing? || e.state.PlaybackUnconfirmed?)
       case Observing =>
         e.startedNs == Some(p.startedNs) && (e.state.Playing? || e.state.PlaybackUnconfirmed?)
       case Finished => e.state.Played? || e.state.Cancelled?
       case Broken => true
  }

  /** Nothing in the ledger carries a time later than now. */
  ghost predicate Timely(b: Book, now: nat) {
    forall id | id in b.entries ::
      && b.entries[id].generatedNs <= now
      && (b.entries[id].state.Queued? ==> b.entries[id].queuedNs.Some? && b.entries[id].queuedNs.value <= now)
      && (b.entries[id].startedNs.Some? ==> b.entries[id].startedNs.value <= now)
  }

  ghost predicate Tracked(ps: seq<Playback>, id: string) {
    exists i :: 0 <= i < |ps| && ps[i].chunkId == id
  }

  /** The ledger and the playback tasks of the response agree. */
  ghost predicate Backed(b: Book, ps: seq<Playback>, id: string, cancelSet: bool) {
    && Valid(b)
    && (forall i, j | 0 <= i < j < |ps| :: ps[i].chunkId != ps[j].chunkId)
    && (forall i | 0 <= i < |ps| ::
          && ps[i].chunkId in b.entries
          && b.entries[ps[i].chunkId].responseId == id
          && Matches(b.entries[ps[i].chunkId], ps[i], cancelSet))
    && (forall c | c in b.entries ::
          && !b.entries[c].state.Generated?
          && (b.entries[c].Open() ==> b.entries[c].responseId == id)
          && (b.entries[c].responseId == id ==> Tracked(ps, c)))
  }

  ghost predicate NothingOpen(b: Book) { forall c | c in b.entries :: !b.entries[c].Open() }

  ghost predicate AllFinished(ps: seq<Playback>) { forall i | 0 <= i < |ps| :: ps[i].phase.Finished? }

  ghost predicate NoneUnfinished(ps: seq<Playback>) { forall i | 0 <= i < |ps| :: !Unfinished(ps[i]) }

  /** Response ids in use and the identities the shared sets speak about. */
  ghost predicate Known(w: World) {
    && w.response.id in w.usedIds
    && w.cancelled <= w.usedIds
    && w.acknowledged <= w.usedIds
    && w.ledger.entries.Keys <= w.seenChunks
    && (forall c | c in w.ledger.entries :: w.ledger.entries[c].responseId in w.usedIds)
    && w.response.token.conversationId == w.m.conversationId
    && w.response.toolToken.conversationId == w.m.conversationId
  }

  /** Cancellation is shared by nobody but the live response. */
  ghost predicate CancelOwn(w: World) {
    && (!w.cancelSet ==>
          && !w.response.failed
          && w.cancelCorrelation.None?
          && w.response.id !in w.cancelled
          && w.response.id !in w.acknowledged)
    && (w.cancelSet && !w.response.failed ==> w.response.id in w.cancelled)
    && (w.response.id in w.cancelled <==> w.cancelCorrelation.Some?)
  }

  /** One retry, one tool run, one reasoner run. */
  ghost predicate Bounded(w: World) {
    && w.response.retries <= 1 && w.response.toolRuns <= 1 && w.response.reasonerRuns <= 1
    && (w.response.firstAudio ==> w.response.retries == w.response.attempt)
    && (w.response.emitted ==> !w.response.firstAudio)
    && UnfinishedCount(w.playbacks) <= 2
  }

  /** Everything that holds whether the response task is running or suspended. */
  ghost predicate Base(w: World) {
    && !w.fault
    && NonDecreasing(w.m.clock.at)
    && Backed(w.ledger, w.playbacks, w.response.id, w.cancelSet)
    && Timely(w.ledger, w.m.clock.Now())
    && Known(w)
    && CancelOwn(w)
    && Bounded(w)
    && (w.owner.None? || w.owner == Some(w.response.id))
    && (w.owner.None? ==> w.provider.None?)
    && (w.owner.None? && w.playbacks != [] ==> w.control.Done?)
    && (w.response.firstAudio <==> w.playbacks == [])
    && (w.response.failed ==> NothingOpen(w.ledger))
  }

  /** A background overlap that fired out of turn leaves the session in speaking. */
  predicate Stray(w: World) { w.strayed && w.m.state.Speaking? }

  /** The state while the reasoner and synthesizer loops run. */
  ghost predicate InLoops(w: World) {
    && !w.response.failed
    && (!w.cancelSet ==>
          && w.m.Current(w.response.token)
          && w.m.state == (if w.response.firstAudio then Thinking else Speaking))
    && (w.cancelSet ==> w.m.state.Interrupted? || Stray(w))
  }

  /** The state in which a response may be wound up. */
  ghost predicate Ending(w: World) {
    && (!w.cancelSet ==> w.m.state.Listening? || Stray(w) || (w.m.state.Thinking? && w.playbacks == []))
    && (w.cancelSet ==> w.m.state in {Interrupted, Thinking, Listening, Handoff} || Stray(w))
    && (w.response.failed || AllFinished(w.playbacks))
  }

  ghost predicate Where(w: World) {
    && (w.control.Done? <==> w.audioStopped)
    && match w.control
       case Done =>
         && w.owner.None?
         && NothingOpen(w.ledger)
         && NoneUnfinished(w.playbacks)
         && (w.m.state in {Listening, Handoff} || Stray(w))
       case Created =>
         && w.response.firstAudio && w.response.attempt == 0
         && w.response.toolRuns == 0 && w.response.reasonerRuns == 0
         && InLoops(w)
       case InTool =>
         && w.response.firstAudio && w.response.attempt == 0 && w.response.reasonerRuns == 0
         && !w.response.failed
         && w.m.state.ToolWait?
         && (!w.cancelSet ==> w.m.Current(w.response.token) && w.m.Current(w.response.toolToken))
       case InReasoner => InLoops(w) && (w.response.firstAudio ==> w.response.attempt == 0)
       case InSynth => InLoops(w)
       case InCapacity(chunk) => InLoops(w) && w.playbacks != [] && chunk.speech.samples >= 1
       case Closing(_) => InLoops(w)
       case Gathering => InLoops(w) && w.playbacks != []
       case Finishing => Ending(w) && !w.m.state.Thinking? && w.playbacks != []
  }

  ghost predicate Inv(w: World) { Base(w) && Where(w) }

  // ----- reading the playback counts -----

  lemma {:induction false} CountBounds(ps: seq<Playback>)
    ensures UnfinishedCount(ps) <= |ps|
    ensures UnfinishedCount(ps) == 0 <==> NoneUnfinished(ps)
  {
    if ps != [] {
      var front := ps[..|ps| - 1];
      CountBounds(front);
      assert forall i | 0 <= i < |front| :: front[i] == ps[i];
    }
  }

  /** Replacing one task changes the count by that task alone. */
  lemma {:induction false} CountPut(ps: seq<Playback>, i: nat, p: Playback)
    requires i < |ps|
    ensures UnfinishedCount(ps[i := p])
            == UnfinishedCount(ps) - (if Unfinished(ps[i]) then 1 else 0) + (if Unfinished(p) then 1 else 0)
  {
    var qs := ps[i := p];
    var last := |ps| - 1;
    if i == last {
      assert qs[..last] == ps[..last];
    } else {
      assert qs[..last] == ps[..last][i := p];
      CountPut(ps[..last], i, p);
    }
  }

  lemma CountAppend(ps: seq<Playback>, p: Playback)
    ensures UnfinishedCount(ps + [p]) == UnfinishedCount(ps) + (if Unfinished(p) then 1 else 0)
  {
    assert (ps + [p])[..|ps|] == ps;
  }

  lemma NotBrokenFinished(ps: seq<Playback>)
    requires UnfinishedCount(ps) == 0 && !AnyBroken(ps)
    ensures AllFinished(ps)
  {
    CountBounds(ps);
    forall i | 0 <= i < |ps| ensures ps[i].phase.Finished? {
      assert ps[i] in ps;
    }
  }
}
