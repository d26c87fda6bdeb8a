/** The bounded queue between the reader of a response and its stream, which may lose the end mark. */
module PacketQueue {

  const CAPACITY := 12

  datatype Item<T> = Packet(value: T) | Failure | EndMark

  /** The reader sends packets, may fail and report that, and leaves its end mark if there is room. */
  datatype Reader = Sending | Failing | Leaving | Ended

  datatype Stop = Running | AtMark | AtFailure | AtDeadline | AtCancel

  /** `reported` and `marked` say what the reader has put behind its packets. */
  datatype Line<T> = Line(
    queue: seq<Item<T>>, toSend: seq<T>, received: seq<T>, reader: Reader, reported: bool, marked: bool,
    cancelled: bool, stop: Stop)

  datatype Choice = Put | ReaderFails | PutFailure | PutEnd | Get | Cancel | SeeCancel | Deadline

  /**
   * The reader runs as long as the stream does. Its deadline and a cancellation can end the stream
   * at any moment, whatever is still queued or unsent; a cancelled reader may leave early.
   */
  predicate Enabled<T>(l: Line<T>, c: Choice) {
    match c
    case Put => l.stop.Running? && l.reader.Sending? && l.toSend != [] && |l.queue| < CAPACITY
    case ReaderFails => l.stop.Running? && l.reader.Sending?
    case PutFailure => l.stop.Running? && l.reader.Failing? && |l.queue| < CAPACITY
    case PutEnd => l.stop.Running? && (l.reader.Leaving? || (l.reader.Sending? && (l.toSend == [] || l.cancelled)))
    case Get => l.stop.Running? && !l.cancelled && l.queue != []
    case Cancel => !l.cancelled
    case SeeCancel => l.stop.Running? && l.cancelled
    case Deadline => l.stop.Running?
  }

  function Step<T>(l: Line<T>, c: Choice): Line<T>
    requires Enabled(l, c)
  {
    match c
    case Put => l.(queue := l.queue + [Packet(l.toSend[0])], toSend := l.toSend[1..])
    case ReaderFails => l.(reader := Failing)
    case PutFailure => l.(queue := l.queue + [Failure], reader := Leaving, reported := true)
    case PutEnd =>
      if |l.queue| < CAPACITY then l.(queue := l.queue + [EndMark], reader := Ended, marked := true)
      else l.(reader := Ended)
    case Get =>
      (match l.queue[0]
       case Packet(value) => l.(queue := l.queue[1..], received := l.received + [value])
       case Failure => l.(queue := l.queue[1..], stop := AtFailure)
       case EndMark => l.(queue := l.queue[1..], stop := AtMark))
    case Cancel => l.(cancelled := true)
    case SeeCancel => l.(stop := AtCancel)
    case Deadline => l.(stop := AtDeadline)
  }

  function Start<T>(packets: seq<T>): Line<T> {
    Line([], packets, [], Sending, false, false, false, Running)
  }

  predicate Feasible<T>(l: Line<T>, cs: seq<Choice>)
    decreases cs
  {
    cs == [] || (Enabled(l, cs[0]) && Feasible(Step(l, cs[0]), cs[1..]))
  }

  function Run<T>(l: Line<T>, cs: seq<Choice>): Line<T>
    requires Feasible(l, cs)
    decreases cs
  {
    if cs == [] then l else Run(Step(l, cs[0]), cs[1..])
  }

  /** The end mark was dropped and no failure was reported in its place. */
  predicate Lost<T>(l: Line<T>) { l.reader.Ended? && !l.marked && !l.reported }

  // ----- what every schedule keeps -----

  /** What stands behind the packets in the queue. */
  function Tail<T>(l: Line<T>): seq<Item<T>> {
    (if l.reported then [Failure] else []) + (if l.marked then [EndMark] else [])
  }

  function Packets<T>(values: seq<T>): (items: seq<Item<T>>)
    ensures |items| == |values| && forall i | 0 <= i < |values| :: items[i] == Packet(values[i])
  {
    if values == [] then [] else [Packet(values[0])] + Packets(values[1..])
  }

  /** While the stream runs, packets are received, queued or unsent, in order, and ends come last. */
  ghost predicate Waiting<T>(packets: seq<T>, l: Line<T>, queued: seq<T>) {
    && l.queue == Packets(queued) + Tail(l)
    && l.received + queued + l.toSend == packets
    && |l.queue| <= CAPACITY
  }

  ghost predicate Inv<T(!new)>(packets: seq<T>, l: Line<T>) {
    && l.received <= packets
    && (l.stop.AtMark? ==> l.received == packets)
    && (l.stop.Running? ==> exists queued :: Waiting(packets, l, queued))
    && (l.reported ==> l.reader.Leaving? || l.reader.Ended?)
    && (l.reader.Leaving? ==> l.reported)
    && (l.marked ==> l.reader.Ended?)
    && (l.reader.Ended? && !l.reported && !l.cancelled && l.stop.Running? ==> l.toSend == [])
    && (Lost(l) ==> |packets| >= CAPACITY)
  }

  lemma PacketsAppend<T>(values: seq<T>, value: T)
    ensures Packets(values + [value]) == Packets(values) + [Packet(value)]
  {
  }

  lemma PutKeeps<T(!new)>(packets: seq<T>, l: Line<T>)
    requires Inv(packets, l) && Enabled(l, Put)
    ensures Inv(packets, Step(l, Put))
  {
    var queued :| Waiting(packets, l, queued);
    var more := queued + [l.toSend[0]];
    PacketsAppend(queued, l.toSend[0]);
    assert Tail(l) == [] && l.queue == Packets(queued);
    assert l.received + more + l.toSend[1..] == l.received + queued + l.toSend;
    assert Waiting(packets, Step(l, Put), more);
  }

  /** The reader's ends come behind everything else; only a full queue of packets loses the mark. */
  lemma EndsKeep<T(!new)>(packets: seq<T>, l: Line<T>, c: Choice)
    requires Inv(packets, l) && Enabled(l, c) && (c.PutFailure? || c.PutEnd?)
    ensures Inv(packets, Step(l, c))
  {
    var queued :| Waiting(packets, l, queued);
    var l' := Step(l, c);
    if l'.queue != l.queue {
      assert l'.queue == Packets(queued) + (Tail(l) + [if c.PutEnd? then EndMark else Failure]);
      assert Tail(l') == Tail(l) + [if c.PutEnd? then EndMark else Failure];
    } else {
      assert Tail(l') == Tail(l);
      if !l.reported { assert Tail(l) == [] && |queued| == CAPACITY; }
    }
    assert Waiting(packets, l', queued);
  }

  lemma Regroup<T>(a: seq<T>, b: seq<T>, c: seq<T>)
    requires b != []
    ensures a + b + c == (a + [b[0]]) + b[1..] + c
    ensures a <= a + b + c && a + [b[0]] <= a + b + c
  {
    assert b == [b[0]] + b[1..];
  }

  /** Taking a packet that is queued. */
  lemma TakeKeeps<T>(packets: seq<T>, l: Line<T>, queued: seq<T>)
    requires Waiting(packets, l, queued) && queued != [] && Enabled(l, Get)
    ensures Waiting(packets, Step(l, Get), queued[1..])
    ensures Step(l, Get).received <= packets && Step(l, Get).stop.Running?
  {
    Regroup(l.received, queued, l.toSend);
    assert Packets(queued) == [Packet(queued[0])] + Packets(queued[1..]);
    assert l.queue == [Packet(queued[0])] + (Packets(queued[1..]) + Tail(l));
  }

  lemma GetKeeps<T(!new)>(packets: seq<T>, l: Line<T>)
    requires Inv(packets, l) && Enabled(l, Get)
    ensures Inv(packets, Step(l, Get))
  {
    hide Packets;
    var queued :| Waiting(packets, l, queued);
    if queued != [] {
      TakeKeeps(packets, l, queued);
    } else {
      assert Packets(queued) == [];
      assert l.queue == Tail(l);
    }
  }

  lemma StepKeeps<T(!new)>(packets: seq<T>, l: Line<T>, c: Choice)
    requires Inv(packets, l) && Enabled(l, c)
    ensures Inv(packets, Step(l, c))
  {
    match c
    case Put => PutKeeps(packets, l);
    case PutFailure => EndsKeep(packets, l, c);
    case PutEnd => EndsKeep(packets, l, c);
    case Get => GetKeeps(packets, l);
    case ReaderFails => SameItems(packets, l, l.(reader := Failing));
    case Cancel => SameItems(packets, l, l.(cancelled := true));
    case _ =>
  }

  lemma SameItems<T(!new)>(packets: seq<T>, l: Line<T>, l': Line<T>)
    requires Inv(packets, l)
    requires l' == l.(reader := l'.reader, cancelled := l'.cancelled)
    ensures l'.stop.Running? ==> exists queued :: Waiting(packets, l', queued)
  {
    if l.stop.Running? {
      var queued :| Waiting(packets, l, queued);
      assert Waiting(packets, l', queued);
    }
  }

  lemma {:induction false} RunKeeps<T(!new)>(packets: seq<T>, l: Line<T>, cs: seq<Choice>)
    requires Inv(packets, l) && Feasible(l, cs)
    ensures Inv(packets, Run(l, cs))
    decreases cs
  {
    hide Inv, Step;
    if cs != [] {
      StepKeeps(packets, l, cs[0]);
      RunKeeps(packets, Step(l, cs[0]), cs[1..]);
    }
  }

  lemma StartInv<T(!new)>(packets: seq<T>)
    ensures Inv(packets, Start(packets))
  {
    assert Waiting(packets, Start(packets), []);
  }

  /**
   * On every schedule, with any deadline, cancellation or failure: what the stream received is the
   * beginning of the packets; when it stopped at the end mark, it is all of them; and a reader that
   * is done has left the stream something to stop at exactly when it did not lose its end mark.
   */
  lemma StreamReceives<T(!new)>(packets: seq<T>, cs: seq<Choice>)
    requires Feasible(Start(packets), cs)
    ensures var l := Run(Start(packets), cs);
      && l.received <= packets
      && (l.stop.AtMark? ==> l.received == packets)
      && (l.stop.Running? && l.reader.Ended? ==> (Lost(l) <==> forall i | 0 <= i < |l.queue| :: l.queue[i].Packet?))
      && (l.stop.Running? && l.reader.Ended? && l.queue == [] ==> Lost(l))
      && (l.stop.Running? && Lost(l) && l.queue == [] && !l.cancelled ==> l.received == packets)
  {
    StartInv(packets);
    RunKeeps(packets, Start(packets), cs);
    var l := Run(Start(packets), cs);
    if l.stop.Running? {
      var queued :| Waiting(packets, l, queued);
      assert l.queue == Packets(queued) + Tail(l);
      if l.reader.Ended? && !Lost(l) { assert !l.queue[|l.queue| - 1].Packet?; }
    }
  }

  // ----- a lost end mark -----

  /** Once the end mark is lost, the stream never stops by itself: only its deadline or a cancellation ends it. */
  lemma {:induction false} LostForGood<T(!new)>(packets: seq<T>, l: Line<T>, cs: seq<Choice>)
    requires Inv(packets, l) && Lost(l) && l.stop.Running? && Feasible(l, cs)
    ensures Lost(Run(l, cs)) && Run(l, cs).stop in {Running, AtDeadline, AtCancel}
    decreases cs
  {
    if cs != [] {
      var queued :| Waiting(packets, l, queued);
      assert Tail(l) == [] && l.queue == Packets(queued);
      StepKeeps(packets, l, cs[0]);
      if Step(l, cs[0]).stop.Running? {
        LostForGood(packets, Step(l, cs[0]), cs[1..]);
      } else {
        StoppedStays(Step(l, cs[0]), cs[1..]);
      }
    }
  }

  lemma {:induction false} StoppedStays<T>(l: Line<T>, cs: seq<Choice>)
    requires !l.stop.Running? && Feasible(l, cs)
    ensures Run(l, cs) == l.(cancelled := Run(l, cs).cancelled)
    decreases cs
  {
    if cs != [] { StoppedStays(Step(l, cs[0]), cs[1..]); }
  }

  lemma SomethingToTake<T(!new)>(packets: seq<T>, l: Line<T>)
    requires Inv(packets, l) && l.reader.Ended? && !Lost(l) && l.stop.Running? && !l.cancelled
    ensures Enabled(l, Get)
    ensures var l1 := Step(l, Get);
      l1.stop in {AtMark, AtFailure}
      || (l1.stop.Running? && l1.reader.Ended? && !Lost(l1) && !l1.cancelled && |l1.queue| < |l.queue|)
  {
    var queued :| Waiting(packets, l, queued);
  }

  /** Otherwise taking what is queued is enough: the stream stops by itself. */
  lemma {:induction false} StopsByItself<T(!new)>(packets: seq<T>, l: Line<T>)
    requires Inv(packets, l) && l.reader.Ended? && !Lost(l) && l.stop.Running? && !l.cancelled
    ensures exists n | 0 <= n <= |l.queue| ::
              Feasible(l, Repeat(Get, n)) && Run(l, Repeat(Get, n)).stop in {AtMark, AtFailure}
    decreases |l.queue|
  {
    hide Inv, Step, Lost, Run;
    SomethingToTake(packets, l);
    StepKeeps(packets, l, Get);
    var l1 := Step(l, Get);
    if l1.stop.Running? {
      StopsByItself(packets, l1);
      var n :| 0 <= n <= |l1.queue| && Feasible(l1, Repeat(Get, n)) && Run(l1, Repeat(Get, n)).stop in {AtMark, AtFailure};
      RepeatMore(l, Get, n);
      assert Run(l, Repeat(Get, n + 1)).stop in {AtMark, AtFailure};
    } else {
      OneMore(l, Get);
      assert Repeat(Get, 1) == [Get];
      assert Run(l, Repeat(Get, 1)).stop in {AtMark, AtFailure};
    }
  }

  function Repeat(c: Choice, n: nat): seq<Choice> { if n == 0 then [] else [c] + Repeat(c, n - 1) }

  lemma RepeatMore<T>(l: Line<T>, c: Choice, n: nat)
    requires Enabled(l, c) && Feasible(Step(l, c), Repeat(c, n))
    ensures Feasible(l, Repeat(c, n + 1)) && Run(l, Repeat(c, n + 1)) == Run(Step(l, c), Repeat(c, n))
  {
    assert Repeat(c, n + 1)[1..] == Repeat(c, n);
  }

  lemma {:induction false} RunConcat<T>(l: Line<T>, cs: seq<Choice>, ds: seq<Choice>)
    requires Feasible(l, cs) && Feasible(Run(l, cs), ds)
    ensures Feasible(l, cs + ds) && Run(l, cs + ds) == Run(Run(l, cs), ds)
    decreases cs
  {
    if cs == [] {
      assert cs + ds == ds;
    } else {
      assert (cs + ds)[1..] == cs[1..] + ds;
      RunConcat(Step(l, cs[0]), cs[1..], ds);
    }
  }

  /** The reader still sends, and nobody has failed, cancelled or stopped. */
  predicate Busy<T>(l: Line<T>) { l.stop.Running? && l.reader.Sending? && !l.cancelled && !l.marked && !l.reported }

  /** The reader fills the queue as far as it goes. */
  lemma {:induction false} PutMany<T>(l: Line<T>, n: nat)
    requires Busy(l) && n <= |l.toSend| && |l.queue| + n <= CAPACITY
    ensures Feasible(l, Repeat(Put, n))
    ensures var l' := Run(l, Repeat(Put, n));
      Busy(l') && |l'.queue| == |l.queue| + n && |l'.toSend| == |l.toSend| - n
    decreases n
  {
    if n > 0 {
      PutMany(Step(l, Put), n - 1);
      RepeatMore(l, Put, n - 1);
    }
  }

  /** A stream that takes one packet whenever the queue is full keeps it full to the end. */
  function KeepFull(n: nat): seq<Choice> { if n == 0 then [] else [Get, Put] + KeepFull(n - 1) }

  lemma {:induction false} StaysFull<T(!new)>(packets: seq<T>, l: Line<T>, n: nat)
    requires Inv(packets, l) && Busy(l) && |l.queue| == CAPACITY && |l.toSend| == n
    ensures Feasible(l, KeepFull(n))
    ensures var l' := Run(l, KeepFull(n));
      Busy(l') && |l'.queue| == CAPACITY && l'.toSend == []
    decreases n
  {
    if n > 0 {
      var queued :| Waiting(packets, l, queued);
      assert Tail(l) == [] && l.queue == Packets(queued);
      StepKeeps(packets, l, Get);
      var l1 := Step(l, Get);
      StepKeeps(packets, l1, Put);
      StaysFull(packets, Step(l1, Put), n - 1);
      var cs := [Get, Put] + KeepFull(n - 1);
      assert cs[1..] == [Put] + KeepFull(n - 1) && cs[1..][1..] == KeepFull(n - 1);
    }
  }

  /**
   * No schedule loses the end mark exactly when a response has fewer packets than the queue holds;
   * from that number on a slow stream can wait for an end that never comes.
   */
  lemma EndMarkExactly<T(!new)>(packets: seq<T>)
    ensures (forall cs | Feasible(Start(packets), cs) :: !Lost(Run(Start(packets), cs))) <==> |packets| < CAPACITY
  {
    StartInv(packets);
    if |packets| < CAPACITY {
      forall cs | Feasible(Start(packets), cs) ensures !Lost(Run(Start(packets), cs)) {
        RunKeeps(packets, Start(packets), cs);
      }
    } else {
      var start := Start(packets);
      PutMany(start, CAPACITY);
      RunKeeps(packets, start, Repeat(Put, CAPACITY));
      var full := Run(start, Repeat(Put, CAPACITY));
      StaysFull(packets, full, |full.toSend|);
      RunConcat(start, Repeat(Put, CAPACITY), KeepFull(|full.toSend|));
      var cs := Repeat(Put, CAPACITY) + KeepFull(|full.toSend|);
      OneMore(Run(start, cs), PutEnd);
      RunConcat(start, cs, [PutEnd]);
      assert Lost(Run(start, cs + [PutEnd]));
    }
  }

  lemma OneMore<T>(l: Line<T>, c: Choice)
    requires Enabled(l, c)
    ensures Feasible(l, [c]) && Run(l, [c]) == Step(l, c)
  {
  }
}
