/** PCM cut into packets while it arrives, within a budget of audio. */
module Packets {
  newtype Byte = b: int | 0 <= b < 256

  type Bytes = seq<Byte>

  datatype Packet = Packet(pcm: Bytes, final: bool)

  function Seconds(bytes: nat): real { bytes as real / 2.0 / 16_000.0 }

  /** A second of audio are 16,000 samples of two bytes. */
  lemma SecondsExactly(seconds: nat)
    ensures Seconds(seconds * 16_000 * 2) == seconds as real
  {
  }

  lemma SecondsAdd(a: nat, b: nat)
    ensures Seconds(a) + Seconds(b) == Seconds(a + b)
    ensures a <= b ==> Seconds(a) <= Seconds(b)
  {
  }

  /** Packet lengths of at least 20 ms of mono PCM16 at 16 kHz; always even. */
  datatype Targets = Targets(firstMs: nat, followingMs: nat) {
    predicate Valid() { firstMs >= 20 && followingMs >= 20 }

    function First(): nat { firstMs * 16_000 * 2 / 1_000 }

    function Following(): nat { followingMs * 16_000 * 2 / 1_000 }
  }

  lemma TargetsEven(t: Targets)
    requires t.Valid()
    ensures t.First() == 32 * t.firstMs && t.Following() == 32 * t.followingMs
    ensures t.First() % 2 == 0 && t.Following() % 2 == 0 && t.Following() >= 640
  {
    BytesOf(t.firstMs);
    BytesOf(t.followingMs);
  }

  lemma BytesOf(ms: nat)
    ensures ms * 16_000 * 2 / 1_000 == 32 * ms && 32 * ms % 2 == 0
  {
    var q := 32 * ms;
    Thousandth(ms * 16_000 * 2, q);
    Halved(q, 16 * ms);
  }

  lemma Thousandth(n: nat, q: nat)
    requires n == 1_000 * q
    ensures n / 1_000 == q
  {
  }

  lemma Halved(n: nat, q: nat)
    requires n == 2 * q
    ensures n % 2 == 0
  {
  }

  /** The packet loop: what is buffered, what was queued, how much audio the budget has recorded. */
  datatype Reader = Reader(buffer: Bytes, packets: seq<Packet>, target: nat, generated: real, exhausted: bool)

  predicate CanEmit(generated: real, maximum: real, bytes: nat) { generated + Seconds(bytes) <= maximum }

  /** Queues one packet from the front of the buffer, unless the budget is exhausted. */
  function Emit(t: Targets, maximum: real, r: Reader, n: nat, final: bool): Reader
    requires n <= |r.buffer|
  {
    if CanEmit(r.generated, maximum, n) then
      Reader(r.buffer[n..], r.packets + [Packet(r.buffer[..n], final)], t.Following(), r.generated + Seconds(n), false)
    else r.(buffer := r.buffer[n..], exhausted := true)
  }

  /** Cuts while more than one packet is buffered; the strict test always leaves some bytes. */
  function Drain(t: Targets, maximum: real, r: Reader): Reader
    requires t.Valid() && r.target >= 640
    decreases |r.buffer|
  {
    if r.exhausted || |r.buffer| <= r.target then r
    else
      TargetsEven(t);
      Drain(t, maximum, Emit(t, maximum, r, r.target, false))
  }

  /** One piece from the network; an odd number of buffered bytes waits for more. */
  function Feed(t: Targets, maximum: real, r: Reader, piece: Bytes): Reader
    requires t.Valid() && r.target >= 640
  {
    if r.exhausted || piece == [] then r
    else
      var r1 := r.(buffer := r.buffer + piece);
      if |r1.buffer| % 2 == 1 then r1 else Drain(t, maximum, r1)
  }

  /** At the end an odd last byte is dropped and the rest becomes the final packet. */
  function Flush(t: Targets, maximum: real, r: Reader): Reader {
    var n := |r.buffer| - |r.buffer| % 2;
    if r.exhausted || n == 0 then r else Emit(t, maximum, r.(buffer := r.buffer[..n]), n, true)
  }

  lemma {:induction false} DrainTarget(t: Targets, maximum: real, r: Reader)
    requires t.Valid() && r.target >= 640
    ensures Drain(t, maximum, r).target >= 640
    decreases |r.buffer|
  {
    TargetsEven(t);
    if !r.exhausted && |r.buffer| > r.target { DrainTarget(t, maximum, Emit(t, maximum, r, r.target, false)); }
  }

  function FeedAll(t: Targets, maximum: real, r: Reader, pieces: seq<Bytes>): (r': Reader)
    requires t.Valid() && r.target >= 640
    ensures r'.target >= 640
  {
    if pieces == [] then r
    else
      var r1 := FeedAll(t, maximum, r, pieces[..|pieces| - 1]);
      DrainTarget(t, maximum, r1.(buffer := r1.buffer + pieces[|pieces| - 1]));
      Feed(t, maximum, r1, pieces[|pieces| - 1])
  }

  function Ready(t: Targets, generated: real): Reader { Reader([], [], t.First(), generated, false) }

  datatype Outcome = Streamed(packets: seq<Packet>) | Exhausted(packets: seq<Packet>) | NoAudio

  /** A response that is read to its end without cancellation. */
  function Read(t: Targets, maximum: real, generated: real, pieces: seq<Bytes>): Outcome
    requires t.Valid()
  {
    TargetsEven(t);
    var r := Flush(t, maximum, FeedAll(t, maximum, Ready(t, generated), pieces));
    if r.exhausted then Exhausted(r.packets) else if r.packets == [] then NoAudio else Streamed(r.packets)
  }

  // ----- what the packets are -----

  function Flatten(pieces: seq<Bytes>): Bytes {
    if pieces == [] then [] else Flatten(pieces[..|pieces| - 1]) + pieces[|pieces| - 1]
  }

  function Joined(packets: seq<Packet>): Bytes {
    if packets == [] then [] else Joined(packets[..|packets| - 1]) + packets[|packets| - 1].pcm
  }

  lemma JoinedAppend(packets: seq<Packet>, p: Packet)
    ensures Joined(packets + [p]) == Joined(packets) + p.pcm
  {
    assert (packets + [p])[..|packets|] == packets;
  }

  /** The cuts that the bytes alone determine: whole packets while more than one target remains. */
  function Cuts(t: Targets, bytes: Bytes, target: nat): seq<Packet>
    requires t.Valid() && target >= 640
    decreases |bytes|
  {
    if |bytes| <= target then []
    else
      TargetsEven(t);
      [Packet(bytes[..target], false)] + Cuts(t, bytes[target..], t.Following())
  }

  function Rest(t: Targets, bytes: Bytes, target: nat): Bytes
    requires t.Valid() && target >= 640
    decreases |bytes|
  {
    if |bytes| <= target then bytes
    else
      TargetsEven(t);
      Rest(t, bytes[target..], t.Following())
  }

  function TargetAfter(t: Targets, cuts: seq<Packet>, target: nat): nat { if cuts == [] then target else t.Following() }

  /** Bytes that come later do not change cuts already made. */
  lemma {:induction false} CutsAppend(t: Targets, a: Bytes, b: Bytes, target: nat)
    requires t.Valid() && target >= 640
    ensures TargetAfter(t, Cuts(t, a, target), target) >= 640
    ensures var rest := Rest(t, a, target);
      var next := TargetAfter(t, Cuts(t, a, target), target);
      && Cuts(t, a + b, target) == Cuts(t, a, target) + Cuts(t, rest + b, next)
      && Rest(t, a + b, target) == Rest(t, rest + b, next)
    decreases |a|
  {
    hide Targets.First, Targets.Following;
    TargetsEven(t);
    if |a| > target {
      assert (a + b)[..target] == a[..target] && (a + b)[target..] == a[target..] + b;
      CutsAppend(t, a[target..], b, t.Following());
      var head := [Packet(a[..target], false)];
      var tail := Cuts(t, a[target..], t.Following());
      assert head + tail != [];
    }
  }

  /** What a sink can play: whole samples, and more to come. */
  predicate Whole(p: Packet) { p.pcm != [] && |p.pcm| % 2 == 0 }

  lemma {:induction false} CutsWhole(t: Targets, bytes: Bytes, target: nat)
    requires t.Valid() && target >= 640 && target % 2 == 0
    ensures forall p | p in Cuts(t, bytes, target) :: Whole(p) && !p.final
    decreases |bytes|
  {
    TargetsEven(t);
    if |bytes| > target { CutsWhole(t, bytes[target..], t.Following()); }
  }

  lemma {:induction false} RestParity(t: Targets, bytes: Bytes, target: nat)
    requires t.Valid() && target >= 640 && target % 2 == 0
    ensures |Rest(t, bytes, target)| % 2 == |bytes| % 2
    ensures bytes != [] ==> Rest(t, bytes, target) != []
    decreases |bytes|
  {
    hide Targets.First, Targets.Following;
    TargetsEven(t);
    if |bytes| > target {
      SameParity(0, |bytes|, target);
      RestParity(t, bytes[target..], t.Following());
    }
  }

  lemma {:induction false} CutsJoined(t: Targets, bytes: Bytes, target: nat)
    requires t.Valid() && target >= 640 && target % 2 == 0
    ensures Joined(Cuts(t, bytes, target)) + Rest(t, bytes, target) == bytes
    ensures bytes != [] ==> Rest(t, bytes, target) != []
    ensures |Rest(t, bytes, target)| % 2 == |bytes| % 2
    decreases |bytes|
  {
    hide Joined, Targets.First, Targets.Following;
    TargetsEven(t);
    RestParity(t, bytes, target);
    if |bytes| > target {
      var head, behind := bytes[..target], bytes[target..];
      var tail, rest := Cuts(t, behind, t.Following()), Rest(t, behind, t.Following());
      CutsJoined(t, behind, t.Following());
      JoinedCons(Packet(head, false), tail);
      Rejoined(bytes, target, Joined(tail), rest);
    } else {
      assert Joined([]) == [] by { NothingJoined(); }
    }
  }

  lemma Rejoined(bytes: Bytes, cut: nat, middle: Bytes, rest: Bytes)
    requires cut <= |bytes| && middle + rest == bytes[cut..]
    ensures (bytes[..cut] + middle) + rest == bytes
  {
    assert (bytes[..cut] + middle) + rest == bytes[..cut] + (middle + rest);
  }

  lemma NothingJoined()
    ensures Joined([]) == []
  {
  }

  lemma {:induction false} JoinedCons(p: Packet, ps: seq<Packet>)
    ensures Joined([p] + ps) == p.pcm + Joined(ps)
  {
    if ps == [] {
      assert [p] + ps == [p];
      assert [p][..0] == [];
    } else {
      var front := ps[..|ps| - 1];
      assert ([p] + ps)[..|ps|] == [p] + front;
      JoinedCons(p, front);
    }
  }

  // ----- what a reader has done -----

  /** The longest prefix of the pieces that ends between two samples. */
  function EvenPrefix(pieces: seq<Bytes>): Bytes {
    if pieces == [] then []
    else if |Flatten(pieces)| % 2 == 0 then Flatten(pieces)
    else EvenPrefix(pieces[..|pieces| - 1])
  }

  lemma {:induction false} EvenPrefixIs(pieces: seq<Bytes>)
    ensures EvenPrefix(pieces) <= Flatten(pieces) && |EvenPrefix(pieces)| % 2 == 0
  {
    if pieces != [] && |Flatten(pieces)| % 2 == 1 { EvenPrefixIs(pieces[..|pieces| - 1]); }
  }

  /** Draining either cuts as the bytes alone say, or finds them too long for the budget. */
  lemma {:induction false} DrainShape(t: Targets, maximum: real, r: Reader)
    requires t.Valid() && r.target >= 640 && !r.exhausted
    ensures var r' := Drain(t, maximum, r);
      var cuts := Cuts(t, r.buffer, r.target);
      if r'.exhausted then r.generated + Seconds(|r.buffer|) > maximum
      else && r'.packets == r.packets + cuts
           && r'.buffer == Rest(t, r.buffer, r.target)
           && r'.target == TargetAfter(t, cuts, r.target)
           && r'.generated == r.generated + Seconds(|Joined(cuts)|)
           && (cuts != [] ==> r'.generated <= maximum)
    decreases |r.buffer|
  {
    hide Seconds, Joined;
    TargetsEven(t);
    NothingJoined();
    if |r.buffer| > r.target {
      var r1 := Emit(t, maximum, r, r.target, false);
      var head := Packet(r.buffer[..r.target], false);
      SecondsAdd(r.target, |r.buffer| - r.target);
      SecondsAdd(r.target, |r.buffer|);
      if !r1.exhausted {
        DrainShape(t, maximum, r1);
        var tail := Cuts(t, r1.buffer, r1.target);
        JoinedCons(head, tail);
        SecondsAdd(r.target, |Joined(tail)|);
        assert r.packets + [head] + tail == r.packets + ([head] + tail);
      }
    } else {
      SecondsZero();
    }
  }

  lemma SecondsZero()
    ensures Seconds(0) == 0.0
  {
  }

  /** The reader after some pieces, in terms of the bytes that have arrived. */
  ghost predicate Follows(t: Targets, maximum: real, generated: real, pieces: seq<Bytes>, r: Reader)
    requires t.Valid()
  {
    var all, even := Flatten(pieces), EvenPrefix(pieces);
    var cuts := Cuts(t, even, t.First());
    if r.exhausted then even != [] && generated + Seconds(|even|) > maximum
    else && even <= all
         && r.packets == cuts
         && r.buffer == Rest(t, even, t.First()) + all[|even|..]
         && r.target == TargetAfter(t, cuts, t.First())
         && r.generated == generated + Seconds(|Joined(cuts)|)
         && (cuts != [] ==> r.generated <= maximum)
  }

  lemma {:induction false} FeedAllFollows(t: Targets, maximum: real, generated: real, pieces: seq<Bytes>)
    requires t.Valid()
    ensures Follows(t, maximum, generated, pieces, FeedAll(t, maximum, Ready(t, generated), pieces))
  {
    hide Seconds, Joined, Drain, Cuts, Rest;
    TargetsEven(t);
    if pieces == [] {
      StartFollows(t, maximum, generated);
    } else {
      var front := pieces[..|pieces| - 1];
      FeedAllFollows(t, maximum, generated, front);
      var r := FeedAll(t, maximum, Ready(t, generated), front);
      FeedFollows(t, maximum, generated, front, pieces[|pieces| - 1], r);
      assert front + [pieces[|pieces| - 1]] == pieces;
    }
  }

  lemma StartFollows(t: Targets, maximum: real, generated: real)
    requires t.Valid()
    ensures Follows(t, maximum, generated, [], Ready(t, generated))
  {
  }

  lemma FlattenAppend(pieces: seq<Bytes>, piece: Bytes)
    ensures Flatten(pieces + [piece]) == Flatten(pieces) + piece
    ensures EvenPrefix(pieces + [piece])
            == if |Flatten(pieces) + piece| % 2 == 0 then Flatten(pieces) + piece else EvenPrefix(pieces)
  {
    assert (pieces + [piece])[..|pieces|] == pieces;
  }

  lemma FeedFollows(t: Targets, maximum: real, generated: real, pieces: seq<Bytes>, piece: Bytes, r: Reader)
    requires t.Valid() && r.target >= 640 && Follows(t, maximum, generated, pieces, r)
    ensures Follows(t, maximum, generated, pieces + [piece], Feed(t, maximum, r, piece))
  {
    hide Seconds, Joined, Drain, Cuts, Rest, Flatten, EvenPrefix, TargetAfter;
    var all, even := Flatten(pieces), EvenPrefix(pieces);
    EvenPrefixIs(pieces);
    FlattenAppend(pieces, piece);
    if r.exhausted {
      EvenPrefixIs(pieces + [piece]);
      SecondsAdd(|even|, |EvenPrefix(pieces + [piece])|);
    } else if piece == [] {
      assert all + piece == all;
      if |all| % 2 == 0 { EvenWhole(pieces); }
    } else {
      Arrived(t, even, all, piece);
      CutsLength(t, even, t.First());
      if |all + piece| % 2 == 0 {
        FeedCuts(t, maximum, Cuts(t, even, t.First()), r, piece);
        FeedBudget(t, maximum, generated, Cuts(t, even, t.First()), r, piece);
      }
    }
  }

  /** The buffered rest together with the new piece is what the cuts of the whole are made of. */
  lemma Arrived(t: Targets, even: Bytes, all: Bytes, piece: Bytes)
    requires t.Valid() && even <= all && |even| % 2 == 0
    ensures var whole := all + piece;
      var cuts, rest := Cuts(t, even, t.First()), Rest(t, even, t.First());
      var next := TargetAfter(t, cuts, t.First());
      && next >= 640 && |rest| % 2 == 0 && even <= whole
      && rest + all[|even|..] + piece == rest + whole[|even|..]
      && |rest + all[|even|..]| % 2 == |all| % 2 && |rest + whole[|even|..]| % 2 == |whole| % 2
      && Cuts(t, whole, t.First()) == cuts + Cuts(t, rest + whole[|even|..], next)
      && Rest(t, whole, t.First()) == Rest(t, rest + whole[|even|..], next)
  {
    hide Cuts, Rest, Targets.First, Targets.Following, Joined;
    TargetsEven(t);
    var whole := all + piece;
    CutsJoined(t, even, t.First());
    ArrivedBytes(even, all, piece, Rest(t, even, t.First()));
    CutsAppend(t, even, whole[|even|..], t.First());
    TargetAfterEven(t, Cuts(t, even, t.First()));
  }

  lemma TargetAfterEven(t: Targets, cuts: seq<Packet>)
    requires t.Valid()
    ensures TargetAfter(t, cuts, t.First()) >= 640
  {
    hide Targets.First, Targets.Following;
    TargetsEven(t);
  }

  lemma ArrivedBytes(even: Bytes, all: Bytes, piece: Bytes, rest: Bytes)
    requires even <= all && |even| % 2 == 0 && |rest| % 2 == 0
    ensures var whole := all + piece;
      && even <= whole && whole == even + whole[|even|..]
      && rest + all[|even|..] + piece == rest + whole[|even|..]
      && |rest + all[|even|..]| % 2 == |all| % 2 && |rest + whole[|even|..]| % 2 == |whole| % 2
  {
    var whole := all + piece;
    assert all[|even|..] + piece == whole[|even|..];
    SameParity(|rest|, |all|, |even|);
    SameParity(|rest|, |whole|, |even|);
  }

  lemma SameParity(rest: nat, n: nat, even: nat)
    requires rest % 2 == 0 && even % 2 == 0 && even <= n
    ensures (rest + (n - even)) % 2 == n % 2
  {
  }

  lemma CutsLength(t: Targets, bytes: Bytes, target: nat)
    requires t.Valid() && target >= 640 && target == t.First()
    ensures |Joined(Cuts(t, bytes, target))| + |Rest(t, bytes, target)| == |bytes|
  {
    hide Cuts, Rest, Joined;
    TargetsEven(t);
    CutsJoined(t, bytes, target);
  }

  lemma EvenWhole(pieces: seq<Bytes>)
    requires |Flatten(pieces)| % 2 == 0
    ensures EvenPrefix(pieces) == Flatten(pieces)
  {
  }

  /** The piece that completes a sample lets the reader cut everything that has arrived. */
  lemma FeedCuts(t: Targets, maximum: real, cuts: seq<Packet>, r: Reader, piece: Bytes)
    requires t.Valid() && !r.exhausted && piece != [] && r.target >= 640
    requires |r.buffer + piece| % 2 == 0 && r.packets == cuts && r.target == TargetAfter(t, cuts, t.First())
    ensures var r' := Feed(t, maximum, r, piece);
      var more := Cuts(t, r.buffer + piece, r.target);
      !r'.exhausted ==>
        && r'.packets == cuts + more && r'.buffer == Rest(t, r.buffer + piece, r.target)
        && r'.target == TargetAfter(t, cuts + more, t.First())
  {
    hide Seconds, Joined, Drain, Cuts, Rest, Feed, TargetAfter, Targets.First, Targets.Following;
    FeedDrains(t, maximum, r, piece);
    DrainShape(t, maximum, r.(buffer := r.buffer + piece));
    TargetCompose(t, cuts, Cuts(t, r.buffer + piece, r.target), t.First());
  }

  /** It stays within the budget, or everything that has arrived does not fit. */
  lemma FeedBudget(t: Targets, maximum: real, generated: real, cuts: seq<Packet>, r: Reader, piece: Bytes)
    requires t.Valid() && !r.exhausted && piece != [] && r.target >= 640
    requires |r.buffer + piece| % 2 == 0
    requires r.generated == generated + Seconds(|Joined(cuts)|) && (cuts != [] ==> r.generated <= maximum)
    ensures var r' := Feed(t, maximum, r, piece);
      var all := cuts + Cuts(t, r.buffer + piece, r.target);
      if r'.exhausted then generated + Seconds(|Joined(cuts)| + |r.buffer + piece|) > maximum
      else r'.generated == generated + Seconds(|Joined(all)|) && (all != [] ==> r'.generated <= maximum)
  {
    hide Seconds, Joined, Drain, Cuts, Rest, Feed, TargetAfter, Targets.First, Targets.Following;
    FeedDrains(t, maximum, r, piece);
    DrainShape(t, maximum, r.(buffer := r.buffer + piece));
    var more := Cuts(t, r.buffer + piece, r.target);
    SecondsAdd(|Joined(cuts)|, |r.buffer + piece|);
    SecondsAdd(|Joined(cuts)|, |Joined(more)|);
    JoinedConcat(cuts, more);
    assert Seconds(|Joined([])|) == 0.0 by { SecondsNone(); }
  }

  lemma SecondsNone()
    ensures Seconds(|Joined([])|) == 0.0
  {
  }

  lemma TargetCompose(t: Targets, cuts: seq<Packet>, more: seq<Packet>, target: nat)
    ensures TargetAfter(t, more, TargetAfter(t, cuts, target)) == TargetAfter(t, cuts + more, target)
  {
  }

  lemma FeedDrains(t: Targets, maximum: real, r: Reader, piece: Bytes)
    requires t.Valid() && r.target >= 640 && !r.exhausted && piece != [] && |r.buffer + piece| % 2 == 0
    ensures Feed(t, maximum, r, piece) == Drain(t, maximum, r.(buffer := r.buffer + piece))
  {
  }

  lemma {:induction false} JoinedConcat(ps: seq<Packet>, qs: seq<Packet>)
    ensures Joined(ps + qs) == Joined(ps) + Joined(qs)
  {
    if qs == [] {
      assert ps + qs == ps;
    } else {
      var last := qs[|qs| - 1];
      assert (ps + qs)[..|ps + qs| - 1] == ps + qs[..|qs| - 1];
      JoinedConcat(ps, qs[..|qs| - 1]);
    }
  }

  // ----- the main results -----

  function EvenLength(bytes: Bytes): nat { |bytes| - |bytes| % 2 }

  /** The packets of a stream: the cuts of its longest even prefix of pieces, then all the rest. */
  function Expected(t: Targets, pieces: seq<Bytes>): seq<Packet>
    requires t.Valid()
  {
    var cuts := Cuts(t, EvenPrefix(pieces), t.First());
    var all := Flatten(pieces);
    var cut := |Joined(cuts)|;
    cuts + [Packet(if cut <= EvenLength(all) then all[cut..EvenLength(all)] else [], true)]
  }

  /** What the final flush finds in the buffer. */
  lemma LeftOver(t: Targets, pieces: seq<Bytes>)
    requires t.Valid() && EvenLength(Flatten(pieces)) >= 2
    ensures EvenPrefix(pieces) <= Flatten(pieces)
    ensures Joined(Cuts(t, EvenPrefix(pieces), t.First())) <= Flatten(pieces)
    ensures var even, all := EvenPrefix(pieces), Flatten(pieces);
      var cuts, rest := Cuts(t, even, t.First()), Rest(t, even, t.First());
      var buffer := rest + all[|even|..];
      && buffer == all[|Joined(cuts)|..]
      && |buffer| % 2 == |all| % 2 && |buffer| >= 2 && |Joined(cuts)| + |buffer| == |all|
  {
    hide Cuts, Rest, Joined, Flatten, EvenPrefix;
    TargetsEven(t);
    EvenPrefixIs(pieces);
    var even, all := EvenPrefix(pieces), Flatten(pieces);
    CutsJoined(t, even, t.First());
    assert all == even + all[|even|..];
  }

  /**
   * Reading without cancellation: with less than one sample there is no audio; otherwise the
   * budget is exhausted exactly when the whole samples do not fit, and else the packets are the
   * expected ones.
   */
  lemma ReadExactly(t: Targets, maximum: real, generated: real, pieces: seq<Bytes>)
    requires t.Valid()
    ensures var n := EvenLength(Flatten(pieces));
      var outcome := Read(t, maximum, generated, pieces);
      if n == 0 then outcome == NoAudio
      else if generated + Seconds(n) > maximum then outcome.Exhausted?
      else outcome == Streamed(Expected(t, pieces))
  {
    hide Cuts, Rest, Joined, Flatten, EvenPrefix, FeedAll, Targets.First, Targets.Following, Seconds;
    var all, even := Flatten(pieces), EvenPrefix(pieces);
    TargetsEven(t);
    var r := FeedAll(t, maximum, Ready(t, generated), pieces);
    FeedAllFollows(t, maximum, generated, pieces);
    EvenPrefixIs(pieces);
    SecondsAdd(|even|, EvenLength(all));
    if EvenLength(all) >= 2 {
      LeftOver(t, pieces);
      var cut := |Joined(Cuts(t, even, t.First()))|;
      SecondsAdd(cut, EvenLength(all) - cut);
      if !r.exhausted {
        var n := EvenLength(r.buffer);
        assert r.buffer[..n][..n] == r.buffer[..n] == all[cut..EvenLength(all)];
      }
    } else {
      NothingCut(t, even);
      NothingJoined();
      SecondsZero();
    }
  }

  lemma NothingCut(t: Targets, bytes: Bytes)
    requires t.Valid()
    ensures |bytes| <= t.First() ==> Cuts(t, bytes, t.First()) == [] && Rest(t, bytes, t.First()) == bytes
  {
  }

  /**
   * Packet round trip: however the network splits the bytes, the packets are whole samples, the
   * last one and no other is final, and together they are the bytes without an odd last one.
   */
  lemma PacketRoundTrip(t: Targets, maximum: real, generated: real, pieces: seq<Bytes>)
    requires t.Valid() && |Flatten(pieces)| >= 2
    requires generated + Seconds(EvenLength(Flatten(pieces))) <= maximum
    ensures var outcome := Read(t, maximum, generated, pieces);
      && outcome.Streamed?
      && Joined(outcome.packets) == Flatten(pieces)[..EvenLength(Flatten(pieces))]
      && (forall p | p in outcome.packets :: Whole(p))
      && outcome.packets != []
      && (forall i | 0 <= i < |outcome.packets| :: outcome.packets[i].final <==> i == |outcome.packets| - 1)
  {
    hide Cuts, Rest, Joined, Flatten, EvenPrefix, Read, Targets.First, Targets.Following, Seconds;
    ReadExactly(t, maximum, generated, pieces);
    LeftOver(t, pieces);
    TargetsEven(t);
    CutsWhole(t, EvenPrefix(pieces), t.First());
    LastCloses(Cuts(t, EvenPrefix(pieces), t.First()), Flatten(pieces), EvenLength(Flatten(pieces)));
  }

  /** Whole cuts and a final packet of whole samples behind them. */
  lemma LastCloses(cuts: seq<Packet>, bytes: Bytes, n: nat)
    requires Joined(cuts) <= bytes && |Joined(cuts)| < n <= |bytes| && (n - |Joined(cuts)|) % 2 == 0
    requires forall p | p in cuts :: Whole(p) && !p.final
    ensures var packets := cuts + [Packet(bytes[|Joined(cuts)|..n], true)];
      && Joined(packets) == bytes[..n]
      && (forall p | p in packets :: Whole(p))
      && (forall i | 0 <= i < |packets| :: packets[i].final <==> i == |packets| - 1)
  {
    hide Joined;
    var cut := |Joined(cuts)|;
    JoinedAppend(cuts, Packet(bytes[cut..n], true));
    assert bytes[..n] == bytes[..cut] + bytes[cut..n];
    assert forall i | 0 <= i < |cuts| :: cuts[i] in cuts;
  }

  /** One piece, and the same bytes with the odd last one arriving late. */
  lemma OnePiece(bytes: Bytes)
    ensures Flatten([bytes]) == bytes
    ensures EvenPrefix([bytes]) == if |bytes| % 2 == 0 then bytes else []
  {
    var one := [bytes];
    assert one[..0] == [];
    NoPieces();
    assert Flatten(one) == [] + bytes == bytes;
  }

  lemma NoPieces()
    ensures Flatten([]) == [] && EvenPrefix([]) == []
  {
  }

  lemma LateByte(bytes: Bytes)
    requires |bytes| % 2 == 1
    ensures var late := [bytes[..|bytes| - 1], bytes[|bytes| - 1..]];
      Flatten(late) == bytes && EvenPrefix(late) == bytes[..|bytes| - 1]
  {
    var front, last := bytes[..|bytes| - 1], bytes[|bytes| - 1..];
    OnePiece(front);
    FlattenAppend([front], last);
    assert [front] + [last] == [front, last] && front + last == bytes;
  }

  /** Every way to split the bytes gives the same packets. */
  ghost predicate SplitBlind(t: Targets, bytes: Bytes)
    requires t.Valid()
  {
    forall pieces | Flatten(pieces) == bytes :: Expected(t, pieces) == Expected(t, [bytes])
  }

  /**
   * The packet list depends on the bytes alone exactly when their number is even or they exceed
   * the first packet by at most one byte.
   */
  lemma SplitBlindExactly(t: Targets, bytes: Bytes)
    requires t.Valid() && |bytes| >= 2
    ensures SplitBlind(t, bytes) <==> |bytes| % 2 == 0 || |bytes| <= t.First() + 1
  {
    hide Flatten, Joined, Targets.First, Targets.Following;
    OnePiece(bytes);
    if |bytes| % 2 == 0 {
      forall pieces | Flatten(pieces) == bytes ensures Expected(t, pieces) == Expected(t, [bytes]) {
        EvenWhole(pieces);
        EvenWhole([bytes]);
      }
    } else if |bytes| <= t.First() + 1 {
      forall pieces | Flatten(pieces) == bytes ensures Expected(t, pieces) == Expected(t, [bytes]) {
        ShortOdd(t, pieces);
        ShortOdd(t, [bytes]);
      }
    } else {
      var late := [bytes[..|bytes| - 1], bytes[|bytes| - 1..]];
      LateByte(bytes);
      TargetsEven(t);
      assert |Cuts(t, bytes[..|bytes| - 1], t.First())| >= 1;
      assert Expected(t, late) != Expected(t, [bytes]);
    }
  }

  lemma ShortOdd(t: Targets, pieces: seq<Bytes>)
    requires t.Valid() && |Flatten(pieces)| % 2 == 1 && |Flatten(pieces)| <= t.First() + 1
    ensures Expected(t, pieces) == [Packet(Flatten(pieces)[..|Flatten(pieces)| - 1], true)]
  {
    hide Flatten, EvenPrefix;
    EvenPrefixIs(pieces);
    NothingCut(t, EvenPrefix(pieces));
    NothingJoined();
  }
}
