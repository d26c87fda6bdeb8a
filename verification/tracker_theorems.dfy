/** Which appointment a user turn is about, told by the appointments themselves. */
module TrackerTheorems {
  import opened Domain
  import opened Appointments
  import opened Tracker

  /** An appointment that has not been cancelled. */
  predicate Live(tr: AppointmentStateTracker, n: nat)
    reads tr, tr.Repr()
  {
    n in tr.appointments
    && !(Status in tr.appointments[n].slots && tr.appointments[n].slots[Status].value == "CANCELLED")
  }

  /** One of the texts an appointment is known by; an absent one is empty. */
  predicate KnownAs(tr: AppointmentStateTracker, n: nat, text: string)
    requires n in tr.appointments
    reads tr, tr.Repr()
  {
    exists s: Slot | s in {Purpose, Specialty, Slot.Provider} ::
      text == if s in tr.appointments[n].slots then tr.fold(tr.appointments[n].slots[s].value) else ""
  }

  /** An appointment that a reference may mean, by its purpose or its specialty. */
  predicate Means(tr: AppointmentStateTracker, r: Reference, n: nat)
    reads tr, tr.Repr()
  {
    n in tr.appointments
    && (KnownAs(tr, n, tr.fold(r.purpose)) || (r.specialty.Some? && KnownAs(tr, n, tr.fold(r.specialty.value))))
  }

  /** The turn brings a date, a time or a date that needs a question. */
  predicate BringsNews(tr: AppointmentStateTracker, t: Turn)
    reads tr, tr.Repr()
  {
    || t.time.Some?
    || t.clarification == Ok(true)
    || var known := if tr.focus.Some? && tr.focus.value in tr.appointments
                    then ValueOf(tr.appointments[tr.focus.value].slots, DateSlot) else None;
       t.dates(known).Ok? && t.dates(known).value.Some?
  }

  /** A question about free slots that changes nothing. */
  predicate AsksForSlots(tr: AppointmentStateTracker, t: Turn)
    reads tr, tr.Repr()
  {
    t.availabilityQuery && t.references == [] && !BringsNews(tr, t)
  }

  /** A question about all appointments. */
  predicate AsksForAll(tr: AppointmentStateTracker, t: Turn)
    reads tr, tr.Repr()
  {
    !t.availabilityQuery && t.references == [] && (t.overview || (t.contextualOverview && tr.appointments != map[]))
  }

  predicate Ascending(ids: seq<nat>) { forall i, j | 0 <= i < j < |ids| :: ids[i] < ids[j] }

  /** The numbers of a set in ascending order. */
  ghost predicate Lists(ids: seq<nat>, numbers: set<nat>) {
    Ascending(ids) && forall n: nat :: n in ids <==> n in numbers
  }

  function AllLive(tr: AppointmentStateTracker): set<nat>
    reads tr, tr.Repr()
  {
    set n | n in tr.appointments && Live(tr, n)
  }

  function AllMeant(tr: AppointmentStateTracker, r: Reference): set<nat>
    reads tr, tr.Repr()
  {
    set n | n in tr.appointments && Means(tr, r, n)
  }

  // ----- the lists the tracker makes -----

  lemma AppendLarger(ids: seq<nat>, n: nat)
    requires Ascending(ids) && forall k | k in ids :: k < n
    ensures Ascending(ids + [n]) && forall k: nat :: k in ids + [n] <==> k in ids || k == n
    ensures ids + [] == ids
  {
    var all := ids + [n];
    assert all[|ids|] == n;
    forall k: nat ensures k in all <==> k in ids || k == n {
      if k in ids {
        var i :| 0 <= i < |ids| && ids[i] == k;
        assert all[i] == k;
      }
    }
    forall i, j | 0 <= i < j < |all| ensures all[i] < all[j] {
      if j == |ids| { assert ids[i] in ids; }
    }
  }

  lemma {:induction false} ActiveBelowLists(tr: AppointmentStateTracker, n: nat)
    requires tr.Valid() && n <= tr.nextId
    ensures Ascending(tr.ActiveBelow(n))
    ensures forall k: nat :: k in tr.ActiveBelow(n) <==> k < n && Live(tr, k)
  {
    if n > 1 {
      ActiveBelowLists(tr, n - 1);
      var front := tr.ActiveBelow(n - 1);
      assert Live(tr, n - 1) <==> Active(tr.appointments[n - 1].slots);
      AppendLarger(front, n - 1);
    }
  }

  lemma ActiveLists(tr: AppointmentStateTracker)
    requires tr.Valid()
    ensures Lists(tr.ActiveIds(), AllLive(tr))
  {
    ActiveBelowLists(tr, tr.nextId);
  }

  lemma MeansMatches(tr: AppointmentStateTracker, r: Reference, n: nat)
    requires n in tr.appointments
    ensures tr.MatchesEntity(tr.appointments[n], r) <==> Means(tr, r, n)
  {
    var a := tr.appointments[n];
    KnownFolded(tr, n, tr.fold(r.purpose));
    if r.specialty.Some? { KnownFolded(tr, n, tr.fold(r.specialty.value)); }
  }

  lemma KnownFolded(tr: AppointmentStateTracker, n: nat, text: string)
    requires n in tr.appointments
    ensures KnownAs(tr, n, text) <==> text in tr.FoldedValues(tr.appointments[n])
  {
    var a := tr.appointments[n];
    if text in tr.FoldedValues(a) {
      var s :| s in {Purpose, Specialty, Slot.Provider} && text == tr.Folded(a, s);
      assert KnownAs(tr, n, text);
    }
  }

  lemma {:induction false} MatchingBelowLists(tr: AppointmentStateTracker, r: Reference, n: nat)
    requires tr.Valid() && n <= tr.nextId
    ensures Ascending(tr.MatchingBelow(r, n))
    ensures forall k: nat :: k in tr.MatchingBelow(r, n) <==> k < n && Means(tr, r, k)
  {
    if n > 1 {
      MatchingBelowLists(tr, r, n - 1);
      MeansMatches(tr, r, n - 1);
      AppendLarger(tr.MatchingBelow(r, n - 1), n - 1);
    }
  }

  lemma MatchingLists(tr: AppointmentStateTracker, r: Reference)
    requires tr.Valid()
    ensures Lists(tr.Matching(r), AllMeant(tr, r))
  {
    MatchingBelowLists(tr, r, tr.nextId);
  }

  lemma {:induction false} WithoutLists(ids: seq<nat>, id: Option<nat>)
    requires Ascending(ids)
    ensures Ascending(Without(ids, id))
  {
    if ids != [] {
      var front, last := ids[..|ids| - 1], ids[|ids| - 1];
      WithoutLists(front, id);
      assert forall k | k in front :: k < last;
      AppendLarger(Without(front, id), last);
    }
  }

  lemma {:induction false} ChoicesAt(ids: seq<nat>)
    ensures |Choices(ids)| == |ids| && forall i | 0 <= i < |ids| :: Choices(ids)[i] == Of(ids[i])
  {
    if ids != [] { ChoicesAt(ids[..|ids| - 1]); }
  }

  /** The options are the appointments of a set, in ascending order. */
  ghost predicate Offers(options: seq<Choice>, numbers: set<nat>) {
    exists ids: seq<nat> :: Lists(ids, numbers) && OffersThese(options, ids)
  }

  predicate OffersThese(options: seq<Choice>, ids: seq<nat>) {
    |options| == |ids| && forall i | 0 <= i < |ids| :: options[i] == Of(ids[i])
  }

  lemma OfferLists(ids: seq<nat>, numbers: set<nat>)
    requires Lists(ids, numbers)
    ensures Offers(Choices(ids), numbers)
    ensures ids == [] <==> numbers == {}
    ensures |ids| == |numbers|
  {
    ChoicesAt(ids);
    assert OffersThese(Choices(ids), ids);
    ListSize(ids, numbers);
    if ids != [] { assert ids[0] in numbers; }
  }

  lemma {:induction false} ListSize(ids: seq<nat>, numbers: set<nat>)
    requires Lists(ids, numbers)
    ensures |ids| == |numbers|
  {
    if ids == [] {
      assert numbers == {};
    } else {
      var last := ids[|ids| - 1];
      assert last in ids;
      forall n: nat ensures n in ids[..|ids| - 1] <==> n in numbers - {last} {
        assert n in ids <==> n in ids[..|ids| - 1] || n == last;
      }
      ListSize(ids[..|ids| - 1], numbers - {last});
    }
  }

  // ----- questions -----

  /** A turn raises before anything is touched where the resolver does so for a question or for the date in focus. */
  lemma RaisesExactly(tr: AppointmentStateTracker, t: Turn)
    ensures tr.DatesRaise(t) <==>
              !(t.clarification.Ok?
                && t.dates(if tr.focus.Some? && tr.focus.value in tr.appointments
                           then ValueOf(tr.appointments[tr.focus.value].slots, DateSlot) else None).Ok?)
  {
  }

  /** A question about free slots keeps the focus; one about all appointments offers every live one. */
  lemma QuestionsAnswered(tr: AppointmentStateTracker, t: Turn, turn: nat)
    requires tr.Valid()
    ensures var r := tr.Decide(t, turn);
      && (AsksForSlots(tr, t) ==> r == Resolution(tr.focus, [], None))
      && (AsksForAll(tr, t) ==> r.number.None? && r.create.None? && Offers(r.options, AllLive(tr)))
      && (AsksForAll(tr, t) <==> tr.IsOverview(t))
  {
    ActiveLists(tr);
    OfferLists(tr.ActiveIds(), AllLive(tr));
  }

  // ----- what the context says -----

  /** Several purposes with an action each. */
  predicate SeveralActions(t: Turn) {
    t.actionMentions > 1
    && exists i, j | 0 <= i < j < |t.references| :: t.references[i].purpose != t.references[j].purpose
  }

  /** The appointments that some reference may mean. */
  function AllMentioned(tr: AppointmentStateTracker, rs: seq<Reference>): set<nat>
    reads tr, tr.Repr()
  {
    set n | n in tr.appointments && exists i :: 0 <= i < |rs| && Means(tr, rs[i], n)
  }

  /** Neither a question nor anything named decides. */
  predicate LeftToContext(tr: AppointmentStateTracker, t: Turn)
    reads tr, tr.Repr()
  {
    && !AsksForSlots(tr, t) && !AsksForAll(tr, t)
    && (t.references == []
        || (&& !SeveralActions(t) && !t.aboutAppointment
            && (t.ordinalFirst.None? || AllMentioned(tr, t.references) * AllLive(tr) == {})
            && (t.newAppointment || AllMeant(tr, t.references[|t.references| - 1]) == {})))
  }

  // ----- what references say -----

  lemma {:induction false} PurposesHold(rs: seq<Reference>)
    ensures forall p: string :: p in Purposes(rs) <==> exists i :: 0 <= i < |rs| && rs[i].purpose == p
    ensures forall i, j | 0 <= i < j < |Purposes(rs)| :: Purposes(rs)[i] != Purposes(rs)[j]
  {
    if rs != [] {
      var front, last := rs[..|rs| - 1], rs[|rs| - 1];
      PurposesHold(front);
      forall p: string ensures p in Purposes(rs) <==> exists i :: 0 <= i < |rs| && rs[i].purpose == p {
        if p in Purposes(front) {
          var i :| 0 <= i < |front| && front[i].purpose == p;
          assert rs[i].purpose == p;
        }
        if i :| 0 <= i < |rs| && rs[i].purpose == p && p != last.purpose {
          assert front[i].purpose == p;
        }
        assert rs[|rs| - 1].purpose == last.purpose;
      }
    }
  }

  lemma SeveralExactly(t: Turn)
    ensures SeveralActions(t) <==> |Purposes(t.references)| > 1 && t.actionMentions > 1
  {
    var rs, ps := t.references, Purposes(t.references);
    PurposesHold(rs);
    if |ps| > 1 {
      assert ps[0] in ps && ps[1] in ps && ps[0] != ps[1];
      var i :| 0 <= i < |rs| && rs[i].purpose == ps[0];
      var j :| 0 <= j < |rs| && rs[j].purpose == ps[1];
    }
    if i, j :| 0 <= i < j < |rs| && rs[i].purpose != rs[j].purpose {
      assert rs[i].purpose in ps && rs[j].purpose in ps;
    }
  }

  /** `n` is mentioned by a reference before any mentions `m`, or by the same one with a smaller number. */
  predicate MentionedFirst(tr: AppointmentStateTracker, rs: seq<Reference>, n: nat, m: nat)
    reads tr, tr.Repr()
  {
    exists i :: 0 <= i < |rs| && MentionedFirstAt(tr, rs, i, n, m)
  }

  predicate MentionedFirstAt(tr: AppointmentStateTracker, rs: seq<Reference>, i: nat, n: nat, m: nat)
    requires i < |rs|
    reads tr, tr.Repr()
  {
    Means(tr, rs[i], n) && (forall j | 0 <= j < i :: !Means(tr, rs[j], m)) && (Means(tr, rs[i], m) ==> n < m)
  }

  ghost predicate InMentionOrder(tr: AppointmentStateTracker, rs: seq<Reference>, ids: seq<nat>)
    reads tr, tr.Repr()
  {
    forall p, q | 0 <= p < q < |ids| :: MentionedFirst(tr, rs, ids[p], ids[q])
  }

  /** Merging appends what is new, in its order. */
  lemma {:induction false} MergeAppends(a: seq<nat>, b: seq<nat>)
    requires Ascending(b)
    ensures a <= Merge(a, b) && Ascending(Merge(a, b)[|a|..])
    ensures forall k | k in Merge(a, b)[|a|..] :: k in b && k !in a
  {
    if b != [] {
      var front, last := b[..|b| - 1], b[|b| - 1];
      MergeAppends(a, front);
      var m := Merge(a, front);
      var added := m[|a|..];
      assert forall k | k in added :: k < last;
      AppendLarger(added, last);
      assert (m + [last])[|a|..] == added + [last];
    }
  }

  lemma {:induction false} MentionsList(tr: AppointmentStateTracker, rs: seq<Reference>)
    requires tr.Valid()
    ensures forall n: nat :: n in tr.MatchingAny(rs) <==> n in AllMentioned(tr, rs)
    ensures InMentionOrder(tr, rs, tr.MatchingAny(rs))
  {
    hide Means, AppointmentStateTracker.Valid;
    if rs != [] {
      var front, last := rs[..|rs| - 1], rs[|rs| - 1];
      MentionsList(tr, front);
      MatchingLists(tr, last);
      MergeAppends(tr.MatchingAny(front), tr.Matching(last));
      MentionsAppend(tr, rs, tr.MatchingAny(front), tr.MatchingAny(rs));
    }
  }

  lemma MentionsAppend(tr: AppointmentStateTracker, rs: seq<Reference>, before: seq<nat>, ids: seq<nat>)
    requires rs != []
    requires forall n: nat :: n in before <==> n in AllMentioned(tr, rs[..|rs| - 1])
    requires InMentionOrder(tr, rs[..|rs| - 1], before)
    requires before <= ids && Ascending(ids[|before|..])
    requires forall n: nat :: n in ids <==> n in before || n in AllMeant(tr, rs[|rs| - 1])
    requires forall n | n in ids[|before|..] :: n in AllMeant(tr, rs[|rs| - 1]) && n !in before
    ensures forall n: nat :: n in ids <==> n in AllMentioned(tr, rs)
    ensures InMentionOrder(tr, rs, ids)
  {
    hide Means;
    var k := |rs| - 1;
    var front := rs[..k];
    forall n: nat ensures n in ids <==> n in AllMentioned(tr, rs) {
      if n in before {
        var i :| 0 <= i < |front| && Means(tr, front[i], n);
        assert Means(tr, rs[i], n);
      }
      if n in AllMentioned(tr, rs) {
        var i :| 0 <= i < |rs| && Means(tr, rs[i], n);
        if i < k { assert Means(tr, front[i], n); }
      }
    }
    forall p, q | 0 <= p < q < |ids| ensures MentionedFirst(tr, rs, ids[p], ids[q]) {
      MentionsOrder(tr, rs, before, ids, p, q);
    }
  }

  lemma MentionsOrder(tr: AppointmentStateTracker, rs: seq<Reference>, before: seq<nat>, ids: seq<nat>, p: nat, q: nat)
    requires rs != [] && p < q < |ids|
    requires forall n: nat :: n in before <==> n in AllMentioned(tr, rs[..|rs| - 1])
    requires InMentionOrder(tr, rs[..|rs| - 1], before)
    requires before <= ids && Ascending(ids[|before|..])
    requires forall n | n in ids[|before|..] :: n in AllMeant(tr, rs[|rs| - 1]) && n !in before
    ensures MentionedFirst(tr, rs, ids[p], ids[q])
  {
    hide Means;
    var k := |rs| - 1;
    var front := rs[..k];
    var n, m := ids[p], ids[q];
    var added := ids[|before|..];
    if q < |before| {
      assert MentionedFirst(tr, front, before[p], before[q]);
      var i :| 0 <= i < |front| && MentionedFirstAt(tr, front, i, n, m);
      assert MentionedFirstAt(tr, rs, i, n, m);
    } else {
      assert m == added[q - |before|] && m in added;
      NotMentioned(tr, front, m);
      if p < |before| {
        assert before[p] in before;
        var i :| 0 <= i < |front| && Means(tr, front[i], n);
        assert MentionedFirstAt(tr, rs, i, n, m);
      } else {
        assert n == added[p - |before|] && n in added;
        assert n < m by { assert Ascending(added); }
        assert MentionedFirstAt(tr, rs, k, n, m);
      }
    }
  }

  lemma NotMentioned(tr: AppointmentStateTracker, rs: seq<Reference>, m: nat)
    requires m !in AllMentioned(tr, rs)
    ensures forall j | 0 <= j < |rs| :: !Means(tr, rs[j], m)
  {
  }

  lemma {:induction false} LiveKeepsOrder(tr: AppointmentStateTracker, rs: seq<Reference>, ids: seq<nat>)
    requires tr.Valid() && InMentionOrder(tr, rs, ids) && forall n | n in ids :: n in tr.appointments
    ensures InMentionOrder(tr, rs, tr.OnlyActive(ids))
    ensures forall n: nat :: n in tr.OnlyActive(ids) <==> n in ids && Live(tr, n)
  {
    hide MentionedFirst;
    if ids != [] {
      var front, last := ids[..|ids| - 1], ids[|ids| - 1];
      LiveKeepsOrder(tr, rs, front);
      var live := tr.OnlyActive(front);
      assert Live(tr, last) <==> Active(tr.appointments[last].slots);
      assert forall n: nat :: n in ids <==> n in front || n == last;
      forall n | n in live ensures MentionedFirst(tr, rs, n, last) {
        var p :| 0 <= p < |front| && front[p] == n;
        assert ids[p] == n && ids[|ids| - 1] == last;
      }
      assert forall p | 0 <= p < |live| :: live[p] in live;
    }
  }

  lemma LiveMentioned(tr: AppointmentStateTracker, rs: seq<Reference>)
    requires tr.Valid()
    ensures var ids := tr.OnlyActive(tr.MatchingAny(rs));
      && InMentionOrder(tr, rs, ids)
      && (forall n: nat :: n in ids <==> n in AllMentioned(tr, rs) * AllLive(tr))
      && (ids == [] <==> AllMentioned(tr, rs) * AllLive(tr) == {})
  {
    hide Means;
    MentionsList(tr, rs);
    LiveKeepsOrder(tr, rs, tr.MatchingAny(rs));
    var ids := tr.OnlyActive(tr.MatchingAny(rs));
    if ids != [] { assert ids[0] in ids; }
  }

  /** Where neither a question nor a reference decides, the context does. */
  lemma ContextDecides(tr: AppointmentStateTracker, t: Turn, turn: nat)
    requires tr.Valid() && LeftToContext(tr, t)
    ensures tr.Decide(t, turn) == tr.ByContext(t, turn)
  {
    hide Live, Means, Lists, AppointmentStateTracker.Valid, BringsNews, AppointmentStateTracker.HasDelta,
         AppointmentStateTracker.ByContext;
    NewsAreDeltas(tr, t);
    SeveralExactly(t);
    if t.references != [] {
      LiveMentioned(tr, t.references);
      var last := t.references[|t.references| - 1];
      MatchingLists(tr, last);
      OfferLists(tr.Matching(last), AllMeant(tr, last));
    }
  }

  /** "The first" is the live appointment with the smallest number, any other ordinal the one with the largest. */
  lemma OrdinalFound(tr: AppointmentStateTracker, t: Turn, turn: nat)
    requires tr.Valid() && LeftToContext(tr, t) && t.ordinalFirst.Some? && AllLive(tr) != {}
    ensures var r := tr.Decide(t, turn);
      && r.number.Some? && r.options == [] && r.create.None? && Live(tr, r.number.value)
      && forall n | n in AllLive(tr) :: if t.ordinalFirst.value then r.number.value <= n else n <= r.number.value
  {
    hide AppointmentStateTracker.Decide, LeftToContext;
    ContextDecides(tr, t, turn);
    ActiveLists(tr);
    OfferLists(tr.ActiveIds(), AllLive(tr));
    Extremes(tr.ActiveIds());
  }

  lemma Extremes(ids: seq<nat>)
    requires Ascending(ids) && ids != []
    ensures forall n | n in ids :: ids[0] <= n <= ids[|ids| - 1]
    ensures ids[0] in ids && ids[|ids| - 1] in ids
  {
  }

  /** "The other one" is the only live appointment without the focus; where that is not one, it asks. */
  lemma OtherFound(tr: AppointmentStateTracker, t: Turn, turn: nat)
    requires tr.Valid() && LeftToContext(tr, t) && t.otherReference && (t.ordinalFirst.None? || AllLive(tr) == {})
    ensures var r := tr.Decide(t, turn);
      var others := set n | n in AllLive(tr) && tr.focus != Some(n);
      && r.create.None?
      && (forall n :: r.number == Some(n) <==> others == {n})
      && (r.number.None? ==> Offers(r.options, if others == {} then AllLive(tr) else others))
  {
    hide AppointmentStateTracker.Decide, LeftToContext;
    ContextDecides(tr, t, turn);
    hide Live, Lists, Offers, AppointmentStateTracker.Valid, BringsNews, AppointmentStateTracker.HasDelta;
    OtherLists(tr);
    assert AsksForSlots(tr, t) <==> t.availabilityQuery && t.references == [] && !tr.HasDelta(t) by { NewsAreDeltas(tr, t); }
    var active := tr.ActiveIds();
    var others := set n | n in AllLive(tr) && tr.focus != Some(n);
    OfferLists(active, AllLive(tr));
    var ids := Without(active, tr.focus);
    OfferLists(ids, others);
    OnlyMember(ids, others);
  }

  lemma NewsAreDeltas(tr: AppointmentStateTracker, t: Turn)
    ensures BringsNews(tr, t) <==> tr.HasDelta(t)
  {
  }

  lemma OtherLists(tr: AppointmentStateTracker)
    requires tr.Valid()
    ensures Lists(tr.ActiveIds(), AllLive(tr))
    ensures Lists(Without(tr.ActiveIds(), tr.focus), set n | n in AllLive(tr) && tr.focus != Some(n))
  {
    ActiveLists(tr);
    WithoutLists(tr.ActiveIds(), tr.focus);
  }

  lemma OnlyMember(ids: seq<nat>, numbers: set<nat>)
    requires Lists(ids, numbers)
    ensures forall n :: numbers == {n} <==> |ids| == 1 && ids[0] == n
  {
    ListSize(ids, numbers);
    forall n ensures numbers == {n} <==> |ids| == 1 && ids[0] == n {
      if |ids| == 1 { assert ids[0] in ids; assert numbers == {ids[0]} by { assert forall k: nat :: k in ids <==> k == ids[0]; } }
      if numbers == {n} { assert ids[0] in ids; }
    }
  }

  /** A pronoun among several live appointments means the one in focus, if the turn before named it. */
  lemma PronounFound(tr: AppointmentStateTracker, t: Turn, turn: nat)
    requires tr.Valid() && LeftToContext(tr, t) && t.ordinalFirst.None? && !t.otherReference
    requires t.pronoun && |AllLive(tr)| > 1
    ensures var r := tr.Decide(t, turn);
      && r.create.None?
      && (r.number.Some? <==> tr.focus.Some? && Live(tr, tr.focus.value)
                              && tr.lastExplicitFocusTurn.Some? && tr.lastExplicitFocusTurn.value + 1 == turn)
      && (r.number.Some? ==> r.number == tr.focus)
      && (r.number.None? ==> Offers(r.options, AllLive(tr)))
  {
    hide AppointmentStateTracker.Decide, LeftToContext;
    ContextDecides(tr, t, turn);
    ActiveLists(tr);
    OfferLists(tr.ActiveIds(), AllLive(tr));
  }

  /** Without any of these, the context makes a new appointment, keeps the focus, or takes the only live one. */
  predicate NothingPointsAt(tr: AppointmentStateTracker, t: Turn)
    reads tr, tr.Repr()
  {
    && LeftToContext(tr, t) && !t.otherReference
    && (t.ordinalFirst.None? || AllLive(tr) == {}) && !(t.pronoun && |AllLive(tr)| > 1)
  }

  lemma ContextFound(tr: AppointmentStateTracker, t: Turn, turn: nat)
    requires tr.Valid() && NothingPointsAt(tr, t)
    ensures var r := tr.Decide(t, turn);
      var about := t.aboutAppointment || BringsNews(tr, t);
      var begins := (tr.appointments == map[] && about) || (t.newAppointment && t.aboutAppointment);
      && r.options == []
      && r.create == (if begins then Some(Reference("Termin", None, "Termin")) else None)
      && (tr.focus.Some? && !begins ==>
            r.number == if about || t.pronoun || (t.confirmation && !t.negated) then tr.focus else None)
      && (tr.focus.None? && !begins ==>
            && (r.number.Some? <==> about && |AllLive(tr)| == 1)
            && (r.number.Some? ==> AllLive(tr) == {r.number.value}))
  {
    hide AppointmentStateTracker.Decide, LeftToContext;
    ContextDecides(tr, t, turn);
    hide Live, AllLive, BringsNews, AppointmentStateTracker.Valid, AppointmentStateTracker.HasDelta,
         AppointmentStateTracker.ActiveIds;
    NewsAreDeltas(tr, t);
    LiveCount(tr);
  }

  lemma LiveCount(tr: AppointmentStateTracker)
    requires tr.Valid()
    ensures |tr.ActiveIds()| == |AllLive(tr)| && (tr.ActiveIds() == [] <==> AllLive(tr) == {})
    ensures |tr.ActiveIds()| == 1 ==> AllLive(tr) == {tr.ActiveIds()[0]}
  {
    hide Live, AppointmentStateTracker.Valid;
    ActiveLists(tr);
    OfferLists(tr.ActiveIds(), AllLive(tr));
    OnlyMember(tr.ActiveIds(), AllLive(tr));
  }

  // ----- what a reference finds -----

  /** Several actions in one turn are never carried out; it asks which appointment or which purpose is meant. */
  lemma SeveralAsk(tr: AppointmentStateTracker, t: Turn, turn: nat)
    requires tr.Valid() && t.references != [] && SeveralActions(t)
    ensures var r := tr.Decide(t, turn);
      && r.number.None? && r.create.None? && r.options != []
      && (AllMentioned(tr, t.references) != {} ==>
            exists ids: seq<nat> :: OffersThese(r.options, ids) && InMentionOrder(tr, t.references, ids)
                         && forall n: nat :: n in ids <==> n in AllMentioned(tr, t.references))
      && (AllMentioned(tr, t.references) == {} ==>
            (forall p: string :: Named(p) in r.options <==> exists i :: 0 <= i < |t.references| && t.references[i].purpose == p)
            && forall c | c in r.options :: c.Named?)
  {
    hide Means, AppointmentStateTracker.Valid, BringsNews, AppointmentStateTracker.HasDelta, SeveralActions;
    SeveralExactly(t);
    MentionsList(tr, t.references);
    var ids := tr.MatchingAny(t.references);
    if ids == [] {
      PurposesHold(t.references);
      PurposeChoicesHold(Purposes(t.references));
    } else {
      assert ids[0] in ids;
      ChoicesAt(ids);
      assert OffersThese(Choices(ids), ids);
    }
  }

  lemma {:induction false} PurposeChoicesHold(ps: seq<string>)
    ensures |PurposeChoices(ps)| == |ps|
    ensures forall p: string :: Named(p) in PurposeChoices(ps) <==> p in ps
    ensures forall c | c in PurposeChoices(ps) :: c.Named?
  {
    if ps != [] {
      var front, last := ps[..|ps| - 1], ps[|ps| - 1];
      PurposeChoicesHold(front);
      assert forall p: string :: p in ps <==> p in front || p == last;
    }
  }

  /** An ordinal with references takes the first or the last live appointment, in order of mention. */
  lemma OrdinalReferenceFound(tr: AppointmentStateTracker, t: Turn, turn: nat)
    requires tr.Valid() && t.references != [] && !SeveralActions(t) && t.ordinalFirst.Some?
    requires AllMentioned(tr, t.references) * AllLive(tr) != {}
    ensures var r := tr.Decide(t, turn);
      var found := AllMentioned(tr, t.references) * AllLive(tr);
      && r.options == [] && r.create.None? && r.number.Some? && r.number.value in found
      && forall n | n in found && n != r.number.value ::
           if t.ordinalFirst.value then MentionedFirst(tr, t.references, r.number.value, n)
           else MentionedFirst(tr, t.references, n, r.number.value)
  {
    hide Means, Live, MentionedFirst, InMentionOrder, AppointmentStateTracker.Valid, AppointmentStateTracker.Decide, SeveralActions;
    OrdinalDecides(tr, t, turn);
    LiveMentioned(tr, t.references);
    var ids := tr.OnlyActive(tr.MatchingAny(t.references));
    FirstAndLast(tr, t.references, ids);
  }

  lemma OrdinalDecides(tr: AppointmentStateTracker, t: Turn, turn: nat)
    requires tr.Valid() && t.references != [] && !SeveralActions(t) && t.ordinalFirst.Some?
    ensures var ids := tr.OnlyActive(tr.MatchingAny(t.references));
      ids != [] ==> tr.Decide(t, turn) == Resolution(Some(if t.ordinalFirst.value then ids[0] else ids[|ids| - 1]), [], None)
  {
    hide AppointmentStateTracker.Valid, AppointmentStateTracker.HasDelta, SeveralActions,
         AppointmentStateTracker.OnlyActive, AppointmentStateTracker.MatchingAny;
    SeveralExactly(t);
  }

  lemma FirstAndLast(tr: AppointmentStateTracker, rs: seq<Reference>, ids: seq<nat>)
    requires ids != [] && InMentionOrder(tr, rs, ids)
    ensures ids[0] in ids && ids[|ids| - 1] in ids
    ensures forall n | n in ids && n != ids[0] :: MentionedFirst(tr, rs, ids[0], n)
    ensures forall n | n in ids && n != ids[|ids| - 1] :: MentionedFirst(tr, rs, n, ids[|ids| - 1])
  {
    hide MentionedFirst;
  }

  /**
   * Otherwise the last reference decides: the newest appointment it may mean, unless there is none
   * or a new one is asked for, and then a new one where the turn is about an appointment.
   */
  lemma ReferenceFound(tr: AppointmentStateTracker, t: Turn, turn: nat)
    requires tr.Valid() && t.references != [] && !SeveralActions(t)
    requires t.ordinalFirst.None? || AllMentioned(tr, t.references) * AllLive(tr) == {}
    ensures var r := tr.Decide(t, turn);
      var last := t.references[|t.references| - 1];
      var meant := AllMeant(tr, last);
      && (meant != {} && !t.newAppointment ==>
            r.options == [] && r.create.None? && r.number.Some? && r.number.value in meant
            && forall n | n in meant :: n <= r.number.value)
      && ((meant == {} || t.newAppointment) && t.aboutAppointment ==> r == Resolution(None, [], Some(last)))
  {
    hide Means, Live, AppointmentStateTracker.Valid, BringsNews, AppointmentStateTracker.HasDelta, SeveralActions;
    SeveralExactly(t);
    LiveMentioned(tr, t.references);
    var last := t.references[|t.references| - 1];
    MatchingLists(tr, last);
    var ids := tr.Matching(last);
    OfferLists(ids, AllMeant(tr, last));
    if ids != [] { Extremes(ids); }
  }

  /** A turn begins a new appointment exactly in these two cases. */
  lemma CreatesExactly(tr: AppointmentStateTracker, t: Turn, turn: nat)
    requires tr.Valid()
    ensures tr.Decide(t, turn).create.Some? <==>
              || (&& t.references != [] && !SeveralActions(t) && t.aboutAppointment
                  && (t.ordinalFirst.None? || AllMentioned(tr, t.references) * AllLive(tr) == {})
                  && (t.newAppointment || AllMeant(tr, t.references[|t.references| - 1]) == {}))
              || (&& NothingPointsAt(tr, t)
                  && if tr.appointments == map[] then t.aboutAppointment || BringsNews(tr, t)
                     else t.newAppointment && t.aboutAppointment)
  {
    hide Means, Live, AppointmentStateTracker.Valid, BringsNews, AppointmentStateTracker.Decide, Lists, Offers;
    QuestionsAnswered(tr, t, turn);
    if AsksForSlots(tr, t) || AsksForAll(tr, t) {
    } else if LeftToContext(tr, t) {
      if NothingPointsAt(tr, t) {
        ContextFound(tr, t, turn);
        if tr.appointments == map[] { assert AllLive(tr) == {}; }
      } else if t.ordinalFirst.Some? && AllLive(tr) != {} {
        OrdinalFound(tr, t, turn);
      } else if t.otherReference {
        OtherFound(tr, t, turn);
      } else {
        PronounFound(tr, t, turn);
      }
    } else if SeveralActions(t) {
      SeveralAsk(tr, t, turn);
    } else if t.ordinalFirst.Some? && AllMentioned(tr, t.references) * AllLive(tr) != {} {
      OrdinalReferenceFound(tr, t, turn);
    } else {
      ReferenceFound(tr, t, turn);
    }
  }
}
