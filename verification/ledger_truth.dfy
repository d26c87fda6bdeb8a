/** What the ledger reports as delivered and as unheard, under every sequence of operations. */
module LedgerTruth {
  import opened Domain
  import opened Ledger

  /** The entries a report is about, in registration order; without a response id, all of them. */
  function Relevant(b: Book, order: seq<string>, responseId: Option<string>): seq<Entry> {
    if order == [] then []
    else
      var id := order[|order| - 1];
      var front := Relevant(b, order[..|order| - 1], responseId);
      if id in b.entries && (responseId.None? || b.entries[id].responseId == responseId.value)
      then front + [b.entries[id]] else front
  }

  function Report(b: Book, responseId: Option<string>): seq<Entry> { Relevant(b, b.order, responseId) }

  /** An entry whose words were heard to the end. */
  predicate Delivers(e: Entry) { e.text != "" && e.FullyDelivered() }

  function SemanticIds(es: seq<Entry>): set<string> { set e | e in es :: e.semanticId }

  function DeliveredIds(es: seq<Entry>): set<string> { set e | e in es && Delivers(e) :: e.semanticId }

  function DeliveredTexts(es: seq<Entry>): seq<string> {
    if es == [] then []
    else
      var e := es[|es| - 1];
      DeliveredTexts(es[..|es| - 1]) + (if e.FullyDelivered() then [e.text] else [])
  }

  /** The first entry of every semantic id that is not delivered, in order. */
  function Unheard(es: seq<Entry>, delivered: set<string>): seq<Entry> {
    if es == [] then []
    else
      var e := es[|es| - 1];
      var front := es[..|es| - 1];
      Unheard(front, delivered)
      + (if e.semanticId in delivered || e.semanticId in SemanticIds(front) then [] else [e])
  }

  function UnheardIds(es: seq<Entry>): seq<string> { Ids(Unheard(es, DeliveredIds(es))) }

  function Ids(es: seq<Entry>): (ids: seq<string>)
    ensures |ids| == |es| && forall i | 0 <= i < |es| :: ids[i] == es[i].semanticId
  {
    if es == [] then [] else Ids(es[..|es| - 1]) + [es[|es| - 1].semanticId]
  }

  function Texts(es: seq<Entry>): (texts: seq<string>)
    ensures |texts| == |es| && forall i | 0 <= i < |es| :: texts[i] == es[i].semanticText
  {
    if es == [] then [] else Texts(es[..|es| - 1]) + [es[|es| - 1].semanticText]
  }

  /** Texts separated by single blanks. */
  function Join(texts: seq<string>): string {
    if texts == [] then ""
    else if |texts| == 1 then texts[0]
    else Join(texts[..|texts| - 1]) + " " + texts[|texts| - 1]
  }

  lemma {:induction false} UnheardExactly(es: seq<Entry>, delivered: set<string>)
    ensures forall id :: id in Ids(Unheard(es, delivered)) <==> id in SemanticIds(es) && id !in delivered
    ensures forall i, j | 0 <= i < j < |Unheard(es, delivered)| ::
              Unheard(es, delivered)[i].semanticId != Unheard(es, delivered)[j].semanticId
  {
    if es != [] {
      var front := es[..|es| - 1];
      var e := es[|es| - 1];
      UnheardExactly(front, delivered);
      var us, vs := Unheard(es, delivered), Unheard(front, delivered);
      assert SemanticIds(es) == SemanticIds(front) + {e.semanticId};
      assert Ids(us) == Ids(vs) + (if us == vs then [] else [e.semanticId]);
      forall i | 0 <= i < |vs| ensures vs[i].semanticId in SemanticIds(front) {
        assert Ids(vs)[i] in Ids(vs);
      }
    } else {
      assert Ids(Unheard(es, delivered)) == [];
    }
  }

  /** Every unheard entry is the first of its semantic id, and the entries keep their order. */
  ghost predicate FirstsAt(es: seq<Entry>, us: seq<Entry>, at: seq<nat>) {
    && |at| == |us|
    && (forall i, j | 0 <= i < j < |at| :: at[i] < at[j])
    && (forall i | 0 <= i < |at| ::
          && at[i] < |es| && es[at[i]] == us[i]
          && (forall k | 0 <= k < at[i] :: es[k].semanticId != us[i].semanticId))
  }

  lemma {:induction false} UnheardFirst(es: seq<Entry>, delivered: set<string>) returns (at: seq<nat>)
    ensures FirstsAt(es, Unheard(es, delivered), at)
  {
    if es == [] {
      at := [];
    } else {
      var front := es[..|es| - 1];
      var e := es[|es| - 1];
      at := UnheardFirst(front, delivered);
      FirstsGrow(front, e, Unheard(front, delivered), at);
      assert es == front + [e];
      if e.semanticId !in delivered && e.semanticId !in SemanticIds(front) {
        FirstsAppend(front, e, Unheard(front, delivered), at);
        at := at + [|front|];
      }
    }
  }

  lemma FirstsGrow(front: seq<Entry>, e: Entry, us: seq<Entry>, at: seq<nat>)
    requires FirstsAt(front, us, at)
    ensures FirstsAt(front + [e], us, at)
  {
  }

  lemma FirstsAppend(front: seq<Entry>, e: Entry, us: seq<Entry>, at: seq<nat>)
    requires FirstsAt(front, us, at) && e.semanticId !in SemanticIds(front)
    ensures FirstsAt(front + [e], us + [e], at + [|front|])
  {
    forall k | 0 <= k < |front| ensures front[k].semanticId != e.semanticId { assert front[k] in front; }
  }

  /**
   * The semantic ids of a report split exactly into delivered and unheard ones, and every unheard
   * id is listed once.
   */
  lemma SplitExactly(b: Book, responseId: Option<string>)
    ensures var es := Report(b, responseId);
      && (forall id | id in SemanticIds(es) :: id in DeliveredIds(es) <==> id !in UnheardIds(es))
      && (forall id | id in UnheardIds(es) :: id in SemanticIds(es))
      && (forall i, j | 0 <= i < j < |UnheardIds(es)| :: UnheardIds(es)[i] != UnheardIds(es)[j])
  {
    var es := Report(b, responseId);
    UnheardExactly(es, DeliveredIds(es));
  }

  lemma {:induction false} RelevantExactly(b: Book, order: seq<string>, responseId: Option<string>, e: Entry)
    ensures e in Relevant(b, order, responseId)
            <==> exists id :: id in order && id in b.entries && b.entries[id] == e
                              && (responseId.None? || e.responseId == responseId.value)
  {
    if order != [] {
      var front := order[..|order| - 1];
      var last := order[|order| - 1];
      RelevantExactly(b, front, responseId, e);
      assert order == front + [last];
      forall id ensures id in order <==> id in front || id == last { }
    }
  }

  // ----- every sequence of operations -----

  lemma {:induction false} PerformAllKeeps(b: Book, ops: seq<Operation>)
    requires Valid(b) && forall op | op in ops :: ValidOperation(op)
    ensures Valid(PerformAll(b, ops)) && b.order <= PerformAll(b, ops).order
    ensures forall id | id in b.entries && !b.entries[id].Open() ::
              id in PerformAll(b, ops).entries && PerformAll(b, ops).entries[id] == b.entries[id]
    decreases ops
  {
    hide Valid, Perform, ValidOperation;
    if ops != [] {
      PerformKeeps(b, ops[0]);
      PerformAllKeeps(Perform(b, ops[0]).0, ops[1..]);
    }
  }

  /** What counts as delivered was confirmed by a receipt for a playback that had started. */
  lemma DeliveredWasPlayed(b: Book, id: string)
    requires Valid(b) && id in b.entries && b.entries[id].FullyDelivered()
    ensures b.entries[id].state in {Played, LedgerState.Cancelled}
    ensures b.entries[id].startedNs.Some?
  {
    assert SoundEntry(b.entries[id]);
  }

  /** What a report calls delivered is settled, so that every later report of the response holds it. */
  lemma ReportedStays(b: Book, ops: seq<Operation>, responseId: Option<string>, e: Entry)
    requires Valid(b) && forall op | op in ops :: ValidOperation(op)
    requires e in Report(b, responseId) && Delivers(e)
    ensures e in Report(PerformAll(b, ops), responseId)
  {
    hide Relevant, PerformAll;
    var b' := PerformAll(b, ops);
    PerformAllKeeps(b, ops);
    RelevantExactly(b, b.order, responseId, e);
    var id :| id in b.order && id in b.entries && b.entries[id] == e;
    DeliveredWasPlayed(b, id);
    PrefixHolds(b.order, b'.order, id);
    RelevantExactly(b', b'.order, responseId, e);
  }

  lemma PrefixHolds(order: seq<string>, order': seq<string>, id: string)
    requires order <= order' && id in order
    ensures id in order'
  {
    var k :| 0 <= k < |order| && order[k] == id;
    assert order'[k] == id;
  }

  /**
   * Played-audio truth: whatever operations follow, accepted or refused, the checks hold, the
   * order only grows, and no semantic id that was delivered is ever lost.
   */
  lemma DeliveredNeverLost(b: Book, ops: seq<Operation>, responseId: Option<string>)
    requires Valid(b) && forall op | op in ops :: ValidOperation(op)
    ensures var b' := PerformAll(b, ops);
      && (forall id | id in b'.entries :: Checked(b'.entries[id]))
      && DeliveredIds(Report(b, responseId)) <= DeliveredIds(Report(b', responseId))
  {
    hide Relevant, PerformAll;
    var b' := PerformAll(b, ops);
    PerformAllKeeps(b, ops);
    forall id | id in b'.entries ensures Checked(b'.entries[id]) {
      assert SoundEntry(b'.entries[id]);
    }
    forall s | s in DeliveredIds(Report(b, responseId)) ensures s in DeliveredIds(Report(b', responseId)) {
      var e :| e in Report(b, responseId) && Delivers(e) && e.semanticId == s;
      ReportedStays(b, ops, responseId, e);
    }
  }

  /** A ledger that starts empty is valid after any operations. */
  lemma FromEmpty(ops: seq<Operation>)
    requires forall op | op in ops :: ValidOperation(op)
    ensures Valid(PerformAll(EmptyBook, ops))
  {
    PerformAllKeeps(EmptyBook, ops);
  }

  // ----- the object that updates its dictionary and its order in place -----

  lemma ListedIndices(b: Book)
    requires Listed(b)
    ensures forall i, j | 0 <= i < j < |b.order| :: b.order[i] != b.order[j]
    ensures forall i | 0 <= i < |b.order| :: b.order[i] in b.entries
    ensures forall id | id in b.entries :: exists k :: 0 <= k < |b.order| && b.order[k] == id
  {
  }

  lemma UnconfirmedOne(e: Entry, responseId: string)
    ensures PlaysFor(e, responseId) <==> e.responseId == responseId && e.state.Playing?
    ensures Unconfirmed(e, responseId) == if PlaysFor(e, responseId) then e.(state := PlaybackUnconfirmed) else e
  {
  }

  /** One of the first entries plays for the response. */
  predicate AnyPlays(b: Book, n: nat, responseId: string) {
    exists k | 0 <= k < n && k < |b.order| && b.order[k] in b.entries :: PlaysFor(b.entries[b.order[k]], responseId)
  }

  lemma AnyPlaysNext(b: Book, n: nat, responseId: string)
    ensures !AnyPlays(b, 0, responseId)
    ensures n < |b.order| && b.order[n] in b.entries ==>
              (AnyPlays(b, n + 1, responseId) <==> AnyPlays(b, n, responseId) || PlaysFor(b.entries[b.order[n]], responseId))
  {
    hide PlaysFor;
  }

  lemma UnconfirmedAll(b: Book, b': Book, responseId: string, changed: bool)
    requires Listed(b) && b'.order == b.order && b'.entries.Keys == b.entries.Keys
    requires forall k | 0 <= k < |b.order| :: b'.entries[b.order[k]] == Unconfirmed(b.entries[b.order[k]], responseId)
    requires changed <==> AnyPlays(b, |b.order|, responseId)
    ensures (b', changed) == Unconfirm(b, responseId)
  {
    hide Unconfirmed, PlaysFor, Listed;
    ListedIndices(b);
    assert b'.entries == Unconfirm(b, responseId).0.entries;
  }

  lemma UnheardStart(delivered: set<string>)
    ensures Texts(Unheard([], delivered)) == [] && SemanticIds([]) == {}
  {
  }

  /** One more entry of a report. */
  lemma UnheardNext(es: seq<Entry>, i: nat, delivered: set<string>)
    requires i < |es|
    ensures SemanticIds(es[..i + 1]) == SemanticIds(es[..i]) + {es[i].semanticId}
    ensures Texts(Unheard(es[..i + 1], delivered))
            == Texts(Unheard(es[..i], delivered))
               + (if es[i].semanticId in delivered || es[i].semanticId in SemanticIds(es[..i]) then []
                  else [es[i].semanticText])
  {
    var front, us := es[..i], Unheard(es[..i], delivered);
    assert es[..i + 1] == front + [es[i]] && es[..i + 1][..i] == front;
    assert (us + [es[i]])[..|us|] == us;
    assert us + [] == us;
  }

  class PlayedAudioLedger {
    var entries: map<string, Entry>
    var order: seq<string>

    ghost function View(): Book
      reads this
    {
      Book(entries, order)
    }

    constructor ()
      ensures View() == EmptyBook
    {
      entries, order := map[], [];
    }

    method RegisterGenerated(speech: Speech, generatedNs: nat) returns (ok: bool)
      modifies this
      ensures (View(), ok) == Register(old(View()), speech, generatedNs)
    {
      if speech.chunkId in entries { return false; }
      entries := entries[speech.chunkId := Fresh(speech, generatedNs)];
      order := order + [speech.chunkId];
      ok := true;
    }

    method MarkQueued(chunkId: string, queuedNs: nat) returns (ok: bool)
      modifies this
      ensures (View(), ok) == Queue(old(View()), chunkId, queuedNs)
    {
      if chunkId !in entries { return false; }
      var entry := entries[chunkId];
      if !entry.state.Generated? || queuedNs < entry.generatedNs { return false; }
      entries := entries[chunkId := entry.(queuedNs := Some(queuedNs), state := Queued)];
      ok := true;
    }

    method MarkPlaybackStarted(chunkId: string, startedNs: nat) returns (ok: bool)
      modifies this
      ensures (View(), ok) == StartPlayback(old(View()), chunkId, startedNs)
    {
      if chunkId !in entries { return false; }
      var entry := entries[chunkId];
      if entry.state.Cancelled? { return true; }
      if !entry.state.Queued? || entry.queuedNs.None? || startedNs < entry.queuedNs.value { return false; }
      entries := entries[chunkId := entry.(startedNs := Some(startedNs), state := Playing)];
      ok := true;
    }

    method RecordPlayback(receipt: Receipt) returns (ok: bool)
      modifies this
      ensures (View(), ok) == Finish(old(View()), receipt)
    {
      if receipt.chunkId !in entries { return false; }
      var entry := entries[receipt.chunkId];
      if entry.state.Cancelled? && receipt.cancelled && receipt.played == 0 { return true; }
      if !entry.state.Playing? || receipt.requested != entry.total || Some(receipt.startedNs) != entry.startedNs {
        return false;
      }
      entries := entries[receipt.chunkId :=
        entry.(played := receipt.played,
               stoppedNs := Some(receipt.stoppedNs),
               cancelledNs := if receipt.cancelled then Some(receipt.stoppedNs) else None,
               state := if receipt.cancelled then LedgerState.Cancelled else Played)];
      ok := true;
    }

    /** Entries before an offending one stay cancelled. */
    method CancelUnplayed(responseId: string, cancelledNs: nat) returns (ok: bool)
      requires Listed(View())
      modifies this
      ensures (View(), ok) == CancelFrom(old(View()), responseId, cancelledNs, 0)
    {
      var i := 0;
      while i < |order|
        invariant i <= |order| && order == old(order) && entries.Keys == old(entries).Keys
        invariant CancelFrom(View(), responseId, cancelledNs, i) == CancelFrom(old(View()), responseId, cancelledNs, 0)
      {
        var entry := entries[order[i]];
        if entry.responseId == responseId && (entry.state.Generated? || entry.state.Queued?) {
          if cancelledNs < entry.generatedNs { return false; }
          entries := entries[order[i] := entry.(cancelledNs := Some(cancelledNs), state := LedgerState.Cancelled)];
        }
        i := i + 1;
      }
      ok := true;
    }

    method MarkPlaybackUnconfirmed(responseId: string) returns (changed: bool)
      requires Listed(View())
      modifies this
      ensures (View(), changed) == Unconfirm(old(View()), responseId)
    {
      hide Unconfirm, Unconfirmed, PlaysFor, AnyPlays, Listed;
      changed := false;
      ghost var before := View();
      ListedIndices(before);
      AnyPlaysNext(before, 0, responseId);
      var i := 0;
      while i < |order|
        invariant i <= |order| && order == before.order && entries.Keys == before.entries.Keys
        invariant forall k | 0 <= k < |order| ::
                    entries[order[k]] == if k < i then Unconfirmed(before.entries[order[k]], responseId)
                                         else before.entries[order[k]]
        invariant changed <==> AnyPlays(before, i, responseId)
      {
        var entry := entries[order[i]];
        if entry.responseId == responseId && entry.state.Playing? {
          entries := entries[order[i] := entry.(state := PlaybackUnconfirmed)];
          changed := true;
        }
        UnconfirmedOne(entry, responseId);
        AnyPlaysNext(before, i, responseId);
        i := i + 1;
      }
      UnconfirmedAll(before, View(), responseId, changed);
    }

    /** A snapshot of the entries a report is about. */
    method Snapshot(responseId: Option<string>) returns (es: seq<Entry>)
      requires Listed(View())
      ensures es == Report(View(), responseId)
    {
      es := [];
      for i := 0 to |order|
        invariant es == Relevant(View(), order[..i], responseId)
      {
        assert order[..i + 1][..i] == order[..i];
        var entry := entries[order[i]];
        if responseId.None? || entry.responseId == responseId.value { es := es + [entry]; }
      }
      assert order[..|order|] == order;
    }

    method DeliveredText(responseId: Option<string>) returns (text: string)
      requires Listed(View())
      ensures text == Join(DeliveredTexts(Report(View(), responseId)))
    {
      var es := Snapshot(responseId);
      var texts: seq<string> := [];
      for i := 0 to |es|
        invariant texts == DeliveredTexts(es[..i])
      {
        assert es[..i + 1][..i] == es[..i];
        if es[i].FullyDelivered() { texts := texts + [es[i].text]; }
      }
      assert es[..|es|] == es;
      text := Join(texts);
    }

    method UnheardText(responseId: Option<string>) returns (text: string)
      requires Listed(View())
      ensures var es := Report(View(), responseId);
        text == Join(Texts(Unheard(es, DeliveredIds(es))))
    {
      hide DeliveredIds, SemanticIds, Texts, Unheard, Join, Report, Listed;
      var es := Snapshot(responseId);
      var delivered := DeliveredIds(es);
      UnheardStart(delivered);
      var seen: set<string> := {};
      var unheard: seq<string> := [];
      for i := 0 to |es|
        invariant unheard == Texts(Unheard(es[..i], delivered))
        invariant SemanticIds(es[..i]) - delivered == seen
      {
        UnheardNext(es, i, delivered);
        if es[i].semanticId !in delivered && es[i].semanticId !in seen {
          seen := seen + {es[i].semanticId};
          unheard := unheard + [es[i].semanticText];
        }
      }
      assert es[..|es|] == es;
      text := Join(unheard);
    }

    method AssertInvariants() returns (ok: bool)
      requires Listed(View())
      ensures ok <==> forall id | id in entries ::
                        var e := entries[id];
                        && e.played <= e.total && (e.state.Played? ==> e.played == e.total)
                        && (e.state.Generated? ==> e.queuedNs.None?) && (e.stoppedNs.Some? ==> e.startedNs.Some?)
    {
      for i := 0 to |order|
        invariant forall k | 0 <= k < i :: Checked(entries[order[k]])
      {
        if !Checked(entries[order[i]]) { return false; }
      }
      forall id | id in entries ensures Checked(entries[id]) {
        var k :| 0 <= k < |order| && order[k] == id;
      }
      ok := true;
    }
  }
}
