/** The ledger of speech chunks: entries in registration order, and operations that move them forward or refuse. */
module Ledger {
  import opened Domain

  datatype LedgerState = Generated | Queued | Playing | Played | Cancelled | PlaybackUnconfirmed

  datatype Entry = Entry(
    responseId: string,
    text: string,
    semanticId: string,
    semanticText: string,
    total: nat,
    played: nat,
    generatedNs: nat,
    queuedNs: Option<nat>,
    startedNs: Option<nat>,
    stoppedNs: Option<nat>,
    cancelledNs: Option<nat>,
    state: LedgerState)
  {
    predicate FullyDelivered() { played == total }

    predicate Open() { state.Generated? || state.Queued? || state.Playing? }
  }

  /** What a provider hands over; an audio frame always holds at least one sample. */
  datatype Speech = Speech(
    chunkId: string, responseId: string, text: string, semanticId: string, semanticText: string,
    samples: nat)

  /** What a sink consumed. */
  datatype Receipt = Receipt(
    chunkId: string, requested: nat, played: nat, startedNs: nat, stoppedNs: nat, cancelled: bool)

  /** The receipt's own validation: only a cancelled playback may stop short. */
  predicate ValidReceipt(r: Receipt) {
    && 1 <= r.requested
    && r.played <= r.requested
    && r.startedNs <= r.stoppedNs
    && (!r.cancelled ==> r.played == r.requested)
  }

  /** Entries by chunk id, and the order in which they were registered. */
  datatype Book = Book(entries: map<string, Entry>, order: seq<string>)

  const EmptyBook := Book(map[], [])

  /** Every operation; the last component of a result says whether it was accepted. */
  datatype Operation =
    | RegisterGenerated(speech: Speech, ns: nat)
    | MarkQueued(chunkId: string, ns: nat)
    | MarkStarted(chunkId: string, ns: nat)
    | RecordPlayback(receipt: Receipt)
    | CancelUnplayed(responseId: string, ns: nat)
    | MarkUnconfirmed(responseId: string)

  predicate ValidOperation(op: Operation) {
    match op
    case RegisterGenerated(speech, _) => speech.samples >= 1
    case RecordPlayback(receipt) => ValidReceipt(receipt)
    case _ => true
  }

  function Fresh(speech: Speech, ns: nat): Entry {
    Entry(speech.responseId, speech.text, speech.semanticId, speech.semanticText,
          speech.samples, 0, ns, None, None, None, None, Generated)
  }

  function Register(b: Book, speech: Speech, ns: nat): (Book, bool) {
    if speech.chunkId in b.entries then (b, false)
    else (Book(b.entries[speech.chunkId := Fresh(speech, ns)], b.order + [speech.chunkId]), true)
  }

  function Queue(b: Book, id: string, ns: nat): (Book, bool) {
    if id in b.entries && b.entries[id].state.Generated? && ns >= b.entries[id].generatedNs then
      (b.(entries := b.entries[id := b.entries[id].(queuedNs := Some(ns), state := Queued)]), true)
    else (b, false)
  }

  function StartPlayback(b: Book, id: string, ns: nat): (Book, bool) {
    if id !in b.entries then (b, false)
    else
      var e := b.entries[id];
      if e.state.Cancelled? then (b, true)
      else if e.state.Queued? && e.queuedNs.Some? && ns >= e.queuedNs.value then
        (b.(entries := b.entries[id := e.(startedNs := Some(ns), state := Playing)]), true)
      else (b, false)
  }

  function Settle(e: Entry, r: Receipt): Entry {
    e.(played := r.played,
       stoppedNs := Some(r.stoppedNs),
       cancelledNs := if r.cancelled then Some(r.stoppedNs) else None,
       state := if r.cancelled then Cancelled else Played)
  }

  function Finish(b: Book, r: Receipt): (Book, bool) {
    if r.chunkId !in b.entries then (b, false)
    else
      var e := b.entries[r.chunkId];
      if e.state.Cancelled? && r.cancelled && r.played == 0 then (b, true)
      else if e.state.Playing? && r.requested == e.total && Some(r.startedNs) == e.startedNs then
        (b.(entries := b.entries[r.chunkId := Settle(e, r)]), true)
      else (b, false)
  }

  predicate Cancellable(e: Entry, responseId: string) {
    e.responseId == responseId && (e.state.Generated? || e.state.Queued?)
  }

  /**
   * Walks the registration order from position `i`. An entry generated after the given time
   * stops the walk with an error; entries before it stay cancelled.
   */
  function CancelFrom(b: Book, responseId: string, ns: nat, i: nat): (Book, bool)
    requires i <= |b.order|
    decreases |b.order| - i
  {
    if i == |b.order| then (b, true)
    else
      var id := b.order[i];
      if id in b.entries && Cancellable(b.entries[id], responseId) then
        if ns < b.entries[id].generatedNs then (b, false)
        else
          CancelFrom(
            b.(entries := b.entries[id := CancelledAt(b.entries[id], ns)]),
            responseId, ns, i + 1)
      else CancelFrom(b, responseId, ns, i + 1)
  }

  predicate PlaysFor(e: Entry, responseId: string) { e.responseId == responseId && e.state.Playing? }

  function Unconfirmed(e: Entry, responseId: string): Entry {
    if PlaysFor(e, responseId) then e.(state := PlaybackUnconfirmed) else e
  }

  /** The playing entries of a response become unconfirmed; the flag says whether there were any. */
  function Unconfirm(b: Book, responseId: string): (Book, bool) {
    (b.(entries := map id | id in b.entries :: Unconfirmed(b.entries[id], responseId)),
     exists id | id in b.entries :: PlaysFor(b.entries[id], responseId))
  }

  function Perform(b: Book, op: Operation): (Book, bool) {
    match op
    case RegisterGenerated(speech, ns) => Register(b, speech, ns)
    case MarkQueued(id, ns) => Queue(b, id, ns)
    case MarkStarted(id, ns) => StartPlayback(b, id, ns)
    case RecordPlayback(receipt) => Finish(b, receipt)
    case CancelUnplayed(responseId, ns) => CancelFrom(b, responseId, ns, 0)
    case MarkUnconfirmed(responseId) => Unconfirm(b, responseId)
  }

  function PerformAll(b: Book, ops: seq<Operation>): Book
    decreases ops
  {
    if ops == [] then b else PerformAll(Perform(b, ops[0]).0, ops[1..])
  }

  // ----- what every book satisfies -----

  /** The four checks of `assert_invariants` for one entry. */
  predicate Checked(e: Entry) {
    && 0 <= e.played <= e.total
    && (e.state.Played? ==> e.FullyDelivered())
    && (e.state.Generated? ==> e.queuedNs.None?)
    && (e.stoppedNs.Some? ==> e.startedNs.Some?)
  }

  /** Nothing counts as played before a receipt settles it. */
  predicate Truthful(e: Entry) {
    && 1 <= e.total
    && (e.state.Queued? ==> e.queuedNs.Some? && e.generatedNs <= e.queuedNs.value)
    && (e.state.Playing? ==> e.startedNs.Some?)
    && (e.Open() || e.state.PlaybackUnconfirmed? ==> e.played == 0)
    && (e.startedNs.None? ==> e.played == 0)
  }

  predicate SoundEntry(e: Entry) { Checked(e) && Truthful(e) }

  /** The order lists every registered chunk exactly once. */
  ghost predicate Listed(b: Book) {
    && (forall i, j | 0 <= i < j < |b.order| :: b.order[i] != b.order[j])
    && (forall i | 0 <= i < |b.order| :: b.order[i] in b.entries)
    && (forall id | id in b.entries :: id in b.order)
  }

  ghost predicate Valid(b: Book) {
    Listed(b) && forall id | id in b.entries :: SoundEntry(b.entries[id])
  }

  /** One operation moves an entry at most forward, and never touches one that is settled. */
  predicate Forward(e: Entry, e': Entry) {
    && e'.responseId == e.responseId && e'.total == e.total && e'.generatedNs == e.generatedNs
    && e'.text == e.text && e'.semanticId == e.semanticId && e'.semanticText == e.semanticText
    && (e' == e || match e.state
       case Generated => e'.state.Queued? || e'.state.Cancelled?
       case Queued => e'.state.Playing? || e'.state.Cancelled?
       case Playing => e'.state.Played? || e'.state.Cancelled? || e'.state.PlaybackUnconfirmed?
       case _ => false)
  }

  /** How one operation may change a book: entries only move forward and new ones come last. */
  ghost predicate Extends(b: Book, b': Book) {
    && b.order <= b'.order
    && (forall id | id in b.entries :: id in b'.entries && Forward(b.entries[id], b'.entries[id]))
  }

  function CancelledAt(e: Entry, ns: nat): Entry { e.(cancelledNs := Some(ns), state := Cancelled) }

  /** Winding an entry down: what waits is cancelled, what plays becomes unconfirmed, nothing counts as played. */
  predicate WindsDown(e: Entry, e': Entry) {
    || e' == e
    || (&& e' == e.(state := e'.state, cancelledNs := e'.cancelledNs)
        && (if e.state.Playing? then e'.state.PlaybackUnconfirmed?
            else (e.state.Generated? || e.state.Queued?) && e'.state.Cancelled?))
  }

  ghost predicate WoundDown(b: Book, b': Book) {
    && b'.order == b.order && b'.entries.Keys == b.entries.Keys
    && (forall id | id in b.entries :: WindsDown(b.entries[id], b'.entries[id]))
  }

  predicate CancelEffect(e: Entry, e': Entry, responseId: string, ns: nat) {
    e' == e || (Cancellable(e, responseId) && e' == CancelledAt(e, ns))
  }

  lemma ListedPut(b: Book, id: string, e: Entry)
    requires Listed(b) && id in b.entries
    ensures Listed(b.(entries := b.entries[id := e]))
  {
  }

  lemma ListedAt(b: Book, i: nat)
    requires Listed(b) && i < |b.order|
    ensures b.order[i] in b.entries
  {
  }

  lemma EffectsAfterOne(b: Book, id: string, b': Book, responseId: string, ns: nat)
    requires id in b.entries && Cancellable(b.entries[id], responseId) && b'.entries.Keys == b.entries.Keys
    requires var es := b.entries[id := CancelledAt(b.entries[id], ns)];
      forall k | k in es :: CancelEffect(es[k], b'.entries[k], responseId, ns)
    ensures forall k | k in b.entries :: CancelEffect(b.entries[k], b'.entries[k], responseId, ns)
  {
    var es := b.entries[id := CancelledAt(b.entries[id], ns)];
    forall k | k in b.entries ensures CancelEffect(b.entries[k], b'.entries[k], responseId, ns) {
      assert CancelEffect(es[k], b'.entries[k], responseId, ns);
    }
  }

  lemma {:induction false} CancelFromWalk(b: Book, responseId: string, ns: nat, i: nat)
    requires Listed(b) && i <= |b.order|
    ensures var b' := CancelFrom(b, responseId, ns, i).0;
      && b'.order == b.order && b'.entries.Keys == b.entries.Keys
      && (forall id | id in b.entries :: CancelEffect(b.entries[id], b'.entries[id], responseId, ns))
    decreases |b.order| - i
  {
    hide Listed, CancelledAt, Cancellable;
    if i < |b.order| {
      var id := b.order[i];
      ListedAt(b, i);
      if !Cancellable(b.entries[id], responseId) {
        CancelFromWalk(b, responseId, ns, i + 1);
      } else if ns >= b.entries[id].generatedNs {
        var b1 := b.(entries := b.entries[id := CancelledAt(b.entries[id], ns)]);
        ListedPut(b, id, CancelledAt(b.entries[id], ns));
        CancelFromWalk(b1, responseId, ns, i + 1);
        EffectsAfterOne(b, id, CancelFrom(b1, responseId, ns, i + 1).0, responseId, ns);
      }
    }
  }

  lemma CancelWindsDown(b: Book, responseId: string, ns: nat)
    requires Listed(b)
    ensures WoundDown(b, CancelFrom(b, responseId, ns, 0).0)
  {
    CancelFromWalk(b, responseId, ns, 0);
    var b' := CancelFrom(b, responseId, ns, 0).0;
    forall id | id in b.entries ensures WindsDown(b.entries[id], b'.entries[id]) {
      assert CancelEffect(b.entries[id], b'.entries[id], responseId, ns);
    }
  }

  lemma WoundDownTransitive(b: Book, b1: Book, b2: Book)
    requires Listed(b) && WoundDown(b, b1) && WoundDown(b1, b2)
    ensures Listed(b1) && WoundDown(b, b2)
  {
    forall id | id in b.entries ensures WindsDown(b.entries[id], b2.entries[id]) {
      assert WindsDown(b.entries[id], b1.entries[id]) && WindsDown(b1.entries[id], b2.entries[id]);
    }
  }

  /** With a late enough time the walk completes and leaves nothing of the response cancellable. */
  lemma {:induction false} CancelFromCompletes(b: Book, responseId: string, ns: nat, i: nat)
    requires Listed(b) && i <= |b.order|
    requires forall id | id in b.entries && Cancellable(b.entries[id], responseId) :: b.entries[id].generatedNs <= ns
    requires forall k | 0 <= k < i :: !Cancellable(b.entries[b.order[k]], responseId)
    ensures CancelFrom(b, responseId, ns, i).1
    ensures forall id | id in CancelFrom(b, responseId, ns, i).0.entries ::
              !Cancellable(CancelFrom(b, responseId, ns, i).0.entries[id], responseId)
    decreases |b.order| - i
  {
    if i < |b.order| {
      var id := b.order[i];
      if Cancellable(b.entries[id], responseId) {
        var b1 := b.(entries := b.entries[id := CancelledAt(b.entries[id], ns)]);
        assert Listed(b1);
        CancelFromCompletes(b1, responseId, ns, i + 1);
      } else {
        CancelFromCompletes(b, responseId, ns, i + 1);
      }
    }
  }

  lemma RegisterKeeps(b: Book, speech: Speech, ns: nat)
    requires Valid(b) && speech.samples >= 1
    ensures Valid(Register(b, speech, ns).0) && Extends(b, Register(b, speech, ns).0)
  {
    hide Listed;
    if speech.chunkId !in b.entries { RegisterListed(b, speech, ns); }
  }

  lemma RegisterListed(b: Book, speech: Speech, ns: nat)
    requires Listed(b) && speech.chunkId !in b.entries
    ensures Listed(Register(b, speech, ns).0)
  {
    var b' := Register(b, speech, ns).0;
    assert b'.order[|b.order|] == speech.chunkId;
    forall id | id in b.entries ensures id in b'.order {
      var k :| 0 <= k < |b.order| && b.order[k] == id;
      assert b'.order[k] == id;
    }
  }

  /** Changing one sound entry into another sound one, forward, keeps the book. */
  lemma UpdateKeeps(b: Book, id: string, e: Entry)
    requires Valid(b) && id in b.entries && SoundEntry(e) && Forward(b.entries[id], e)
    ensures Valid(b.(entries := b.entries[id := e])) && Extends(b, b.(entries := b.entries[id := e]))
  {
  }

  lemma QueueKeeps(b: Book, id: string, ns: nat)
    requires Valid(b)
    ensures Valid(Queue(b, id, ns).0) && Extends(b, Queue(b, id, ns).0)
  {
    if Queue(b, id, ns).1 { UpdateKeeps(b, id, Queue(b, id, ns).0.entries[id]); }
  }

  lemma StartKeeps(b: Book, id: string, ns: nat)
    requires Valid(b)
    ensures Valid(StartPlayback(b, id, ns).0) && Extends(b, StartPlayback(b, id, ns).0)
  {
    if StartPlayback(b, id, ns).1 && !b.entries[id].state.Cancelled? {
      UpdateKeeps(b, id, StartPlayback(b, id, ns).0.entries[id]);
    }
  }

  lemma FinishKeeps(b: Book, r: Receipt)
    requires Valid(b) && ValidReceipt(r)
    ensures Valid(Finish(b, r).0) && Extends(b, Finish(b, r).0)
  {
    if Finish(b, r).1 && b.entries[r.chunkId].state.Playing? {
      UpdateKeeps(b, r.chunkId, Settle(b.entries[r.chunkId], r));
    }
  }

  lemma CancelKeeps(b: Book, responseId: string, ns: nat)
    requires Valid(b)
    ensures Valid(CancelFrom(b, responseId, ns, 0).0) && Extends(b, CancelFrom(b, responseId, ns, 0).0)
  {
    CancelFromWalk(b, responseId, ns, 0);
    var b' := CancelFrom(b, responseId, ns, 0).0;
    forall id | id in b'.entries ensures SoundEntry(b'.entries[id]) && Forward(b.entries[id], b'.entries[id]) {
      assert CancelEffect(b.entries[id], b'.entries[id], responseId, ns);
    }
  }

  lemma UnconfirmKeeps(b: Book, responseId: string)
    requires Valid(b)
    ensures Valid(Unconfirm(b, responseId).0) && Extends(b, Unconfirm(b, responseId).0)
  {
    var b' := Unconfirm(b, responseId).0;
    forall id | id in b'.entries ensures SoundEntry(b'.entries[id]) && Forward(b.entries[id], b'.entries[id]) {
    }
  }

  /** Every operation, accepted or refused, keeps the book valid and moves entries forward only. */
  lemma PerformKeeps(b: Book, op: Operation)
    requires Valid(b) && ValidOperation(op)
    ensures Valid(Perform(b, op).0) && Extends(b, Perform(b, op).0)
  {
    match op
    case RegisterGenerated(speech, ns) => RegisterKeeps(b, speech, ns);
    case MarkQueued(id, ns) => QueueKeeps(b, id, ns);
    case MarkStarted(id, ns) => StartKeeps(b, id, ns);
    case RecordPlayback(r) => FinishKeeps(b, r);
    case CancelUnplayed(responseId, ns) => CancelKeeps(b, responseId, ns);
    case MarkUnconfirmed(responseId) => UnconfirmKeeps(b, responseId);
  }
}
