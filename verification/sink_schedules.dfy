/** The playback tasks of a session and the sink they stand for: each does what the other allows. */
module SinkSchedules {
  import opened Domain
  import opened Ledger
  import opened Protocol
  import opened Invariants
  import opened Keeps
  import opened SessionFinality
  import Sink

  /** A receipt that the sink returns for some block length and some moment of cancellation. */
  ghost predicate Returned(r: Receipt) {
    exists quantum: nat, cancelAt: nat | quantum >= 1 :: ReturnedFor(r, quantum, cancelAt)
  }

  predicate ReturnedFor(r: Receipt, quantum: nat, cancelAt: nat)
    requires quantum >= 1
  {
    var blocks := Sink.Blocks(r.requested, quantum, cancelAt, 0);
    && r.played == Sink.Consumed(r.requested, quantum, blocks)
    && (r.cancelled <==> r.played < r.requested)
    && (r.cancelled ==> cancelAt <= 2 * blocks + 1)
  }

  /** The sink can be stopped after any number of samples, and says so exactly when some are left. */
  lemma ReturnedExactly(r: Receipt)
    requires r.requested >= 1
    ensures Returned(r) <==> r.played <= r.requested && (r.cancelled <==> r.played < r.requested)
  {
    if r.played <= r.requested && (r.cancelled <==> r.played < r.requested) {
      var quantum := if r.played == 0 then 1 else r.played;
      var cancelAt := if r.played == r.requested then 3 else if r.played == 0 then 0 else 2;
      OneBlock(r.requested, quantum, cancelAt);
      assert ReturnedFor(r, quantum, cancelAt);
    }
  }

  lemma OneBlock(total: nat, quantum: nat, cancelAt: nat)
    requires 1 <= quantum <= total
    ensures Sink.Consumed(total, quantum, 0) == 0 && Sink.Consumed(total, quantum, 1) == quantum
    ensures Sink.Blocks(total, quantum, 0, 0) == 0 && Sink.Blocks(total, quantum, 2, 0) == 1
    ensures quantum == total ==> Sink.Blocks(total, quantum, 3, 0) == 1
  {
  }

  /** The world in which a playback task leaves its loop in a step, if it does. */
  function LeavesAt(w: World, c: Choice): Option<World>
    requires Enabled(w, c)
  {
    match c
    case PlaybackStarts(i) => if w.cancelSet then Some(Started(w, i)) else None
    case PlaybackAdvances(i, block, observed) =>
      if w.cancelSet then Some(w)
      else if !observed && w.playbacks[i].played + block == w.playbacks[i].total then Some(PlayedOut(w, i))
      else None
    case ObserverReturns(i) =>
      if w.cancelSet || w.playbacks[i].played == w.playbacks[i].total then Some(w) else None
    case _ => None
  }

  /** Task `i` after its last block. */
  function PlayedOut(w: World, i: nat): World
    requires i < |w.playbacks|
  {
    var p := w.playbacks[i];
    w.Put(i, p.(played := p.total, phase := Sleeping)).(sink := w.sink[p.chunkId := p.total])
  }

  /** The sink of task `i` returns in `at`, with a receipt that it can return. */
  ghost predicate ReturnsIn(at: World, i: nat, w': World) {
    i < |at.playbacks| && w' == at.Stop(i) && StopReceipt(at, i).requested >= 1 && Returned(StopReceipt(at, i))
  }

  /** No task is finished that was not finished before. */
  predicate NoneFinishes(before: seq<Playback>, after: seq<Playback>) {
    forall i | 0 <= i < |after| && after[i].phase.Finished? :: i < |before| && before[i].phase.Finished?
  }

  /** A playback task finishes by leaving its loop alone, and its receipt is then one that the sink returns. */
  lemma StopsLikeSink(w: World, c: Choice)
    requires Inv(w) && Enabled(w, c)
    ensures if LeavesAt(w, c).Some? then ReturnsIn(LeavesAt(w, c).value, TaskOf(c), Step(w, c))
            else NoneFinishes(w.playbacks, Step(w, c).playbacks)
  {
    hide Inv, ReturnsIn, NoneFinishes, Plays, Started, World.StartPlaying, World.Advance, World.LoopTest;
    if c.PlaybackStarts? {
      StartStops(w, c.index);
    } else if c.PlaybackAdvances? {
      AdvanceStops(w, c.index, c.block, c.observed);
    } else if c.ObserverReturns? {
      ObserverStops(w, c.index);
    } else {
      OthersFinishNothing(w, c);
    }
  }

  /** What its loop leaves of a task that has its samples to play. */
  lemma LoopStops(at: World, i: nat)
    requires i < |at.playbacks| && 1 <= at.playbacks[i].total && at.playbacks[i].played <= at.playbacks[i].total
    ensures if at.cancelSet || at.playbacks[i].played == at.playbacks[i].total then ReturnsIn(at, i, at.LoopTest(i))
            else at.LoopTest(i) == at.Put(i, at.playbacks[i].(phase := Sleeping))
  {
    hide World.Stop, Returned;
    ReturnedExactly(StopReceipt(at, i));
  }

  lemma StartStops(w: World, i: nat)
    requires Inv(w) && i < |w.playbacks| && w.playbacks[i].phase.Pending?
    ensures if w.cancelSet then ReturnsIn(Started(w, i), i, w.StartPlaying(i))
            else NoneFinishes(w.playbacks, w.StartPlaying(i).playbacks)
  {
    hide Inv, Base, InLoop, ReturnsIn, Started, World.StartPlaying, World.LoopTest, StartPlayback, Timely, UnfinishedCount;
    InvBase(w);
    PendingEntry(w, i);
    StartedShape(w, i);
    StartedInLoop(w, i);
    LoopStops(Started(w, i), i);
  }

  lemma TaskInRange(w: World, i: nat)
    requires Inv(w) && i < |w.playbacks| && Unfinished(w.playbacks[i])
    ensures 1 <= w.playbacks[i].total && w.playbacks[i].played <= w.playbacks[i].total
  {
    hide Timely, UnfinishedCount, Where;
    var p := w.playbacks[i];
    assert Matches(w.ledger.entries[p.chunkId], p, w.cancelSet);
    assert SoundEntry(w.ledger.entries[p.chunkId]);
  }

  lemma ObserverStops(w: World, i: nat)
    requires Inv(w) && i < |w.playbacks| && w.playbacks[i].phase.Observing?
    ensures if w.cancelSet || w.playbacks[i].played == w.playbacks[i].total then ReturnsIn(w, i, w.LoopTest(i))
            else NoneFinishes(w.playbacks, w.LoopTest(i).playbacks)
  {
    hide Inv, ReturnsIn, World.LoopTest;
    TaskInRange(w, i);
    LoopStops(w, i);
  }

  lemma AdvanceStops(w: World, i: nat, block: nat, observed: bool)
    requires Inv(w) && Enabled(w, PlaybackAdvances(i, block, observed))
    ensures var c := PlaybackAdvances(i, block, observed);
      if LeavesAt(w, c).Some? then ReturnsIn(LeavesAt(w, c).value, i, w.Advance(i, block, observed))
      else NoneFinishes(w.playbacks, w.Advance(i, block, observed).playbacks)
  {
    hide Inv, ReturnsIn, World.LoopTest, World.Stop;
    TaskInRange(w, i);
    LoopStops(w, i);
    if w.cancelSet {
      assert w.LoopTest(i) == w.Stop(i) by { StopIsLoop(w, i); }
    } else if !observed {
      var p := w.playbacks[i];
      LoopStops(w.Put(i, p.(played := p.played + block, phase := Sleeping)).(sink := w.sink[p.chunkId := p.played + block]), i);
    }
  }

  lemma StopIsLoop(w: World, i: nat)
    requires i < |w.playbacks| && w.cancelSet
    ensures w.LoopTest(i) == w.Stop(i)
  {
    hide World.Stop;
  }

  lemma OthersFinishNothing(w: World, c: Choice)
    requires Inv(w) && Enabled(w, c) && !c.PlaybackStarts? && !c.PlaybackAdvances? && !c.ObserverReturns?
    ensures NoneFinishes(w.playbacks, Step(w, c).playbacks)
  {
    hide Inv, World.Winds, Plays, Listed;
    if c.PlaybackRaises? {
      assert Step(w, c) == w.Put(c.index, w.playbacks[c.index].(phase := Broken));
    } else {
      hide Step;
      StepWorks(w, c);
    }
  }

  /** The sink's `k`-th block, as a choice of the protocol. */
  function NextBlock(i: nat, total: nat, quantum: nat, k: nat): Choice
    requires quantum >= 1
  {
    Sink.Progress(total, quantum, k);
    PlaybackAdvances(i, Sink.Consumed(total, quantum, k + 1) - Sink.Consumed(total, quantum, k), false)
  }

  /** The sink's blocks from the `k`-th on. */
  function Advances(i: nat, total: nat, quantum: nat, k: nat, n: nat): seq<Choice>
    requires quantum >= 1
    decreases n
  {
    if n == 0 then [] else [NextBlock(i, total, quantum, k)] + Advances(i, total, quantum, k + 1, n - 1)
  }

  /** The task after some blocks of the sink. */
  function Played(w: World, i: nat, quantum: nat, k: nat): World
    requires i < |w.playbacks| && quantum >= 1
  {
    var p := w.playbacks[i];
    var played := Sink.Consumed(p.total, quantum, k);
    w.Put(i, p.(played := played)).(sink := w.sink[p.chunkId := played])
  }

  /** A task that has played `k` blocks and has samples left, while the event is not set. */
  predicate AtBlock(w: World, i: nat, quantum: nat, k: nat)
    requires quantum >= 1
  {
    && i < |w.playbacks| && !w.cancelSet && w.playbacks[i].phase.Sleeping?
    && w.playbacks[i].played == Sink.Consumed(w.playbacks[i].total, quantum, k) < w.playbacks[i].total
  }

  /** A block that leaves samples over takes the task to the next block; the last block stops it, complete. */
  lemma BlockStep(w: World, i: nat, quantum: nat, k: nat)
    requires quantum >= 1 && AtBlock(w, i, quantum, k)
    ensures var c := NextBlock(i, w.playbacks[i].total, quantum, k);
      var w1 := Played(w, i, quantum, k + 1);
      && Enabled(w, c)
      && (w1.playbacks[i].played < w1.playbacks[i].total ==> Step(w, c) == w1 && AtBlock(w1, i, quantum, k + 1))
      && (w1.playbacks[i].played == w1.playbacks[i].total ==>
            Step(w, c) == w1.Stop(i) && !StopReceipt(w1, i).cancelled)
  {
    hide World.Stop;
    Sink.Progress(w.playbacks[i].total, quantum, k);
  }

  /** Once the event is set, whatever block comes next stops the task where it was. */
  lemma CancelledBlock(w: World, i: nat)
    requires i < |w.playbacks| && w.cancelSet && w.playbacks[i].phase.Sleeping?
    requires w.playbacks[i].played < w.playbacks[i].total
    ensures var c := PlaybackAdvances(i, 1, false);
      && Enabled(w, c) && Step(w, c) == w.Stop(i)
      && StopReceipt(w, i).cancelled && StopReceipt(w, i).played == w.playbacks[i].played
  {
    hide World.Stop;
  }

  /** While the event is not set and samples are left, any number of the sink's blocks is a run of the protocol. */
  lemma {:induction false} BlocksRun(w: World, i: nat, quantum: nat, k: nat, n: nat)
    requires quantum >= 1 && n >= 1 && AtBlock(w, i, quantum, k)
    requires Sink.Consumed(w.playbacks[i].total, quantum, k + n) < w.playbacks[i].total
    ensures var cs := Advances(i, w.playbacks[i].total, quantum, k, n);
      Feasible(w, cs) && Run(w, cs) == Played(w, i, quantum, k + n)
    decreases n
  {
    hide Step, Enabled, NextBlock;
    var total := w.playbacks[i].total;
    Smaller(total, quantum, k + 1, k + n);
    BlockStep(w, i, quantum, k);
    var w1 := Played(w, i, quantum, k + 1);
    if n > 1 {
      BlocksRun(w1, i, quantum, k + 1, n - 1);
      PlayedAgain(w, i, quantum, k + 1, k + n);
    } else {
      assert Advances(i, total, quantum, k + 1, 0) == [];
    }
  }

  lemma PlayedAgain(w: World, i: nat, quantum: nat, a: nat, b: nat)
    requires i < |w.playbacks| && quantum >= 1
    ensures Played(Played(w, i, quantum, a), i, quantum, b) == Played(w, i, quantum, b)
  {
  }

  lemma Smaller(total: nat, quantum: nat, a: nat, b: nat)
    requires quantum >= 1 && a <= b && Sink.Consumed(total, quantum, b) < total
    ensures Sink.Consumed(total, quantum, a) < total
  {
    assert quantum * b == quantum * a + quantum * (b - a);
  }
}
