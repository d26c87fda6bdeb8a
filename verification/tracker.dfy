/** The tracker of many appointments: a heap of mutable objects, of which a turn alters at most one. */
module Tracker {
  import opened Domain
  import opened Appointments

  class AppointmentState {
    const number: nat
    var slots: Slots
    var sourceTurn: string
    var updatedAt: string
    var confidence: real
    var externalActionConfirmed: bool

    constructor (number: nat, sourceTurn: string, timestamp: string, confidence: real, confirmed: bool)
      ensures this.number == number && slots == map[] && externalActionConfirmed == confirmed
    {
      this.number, slots, this.sourceTurn, updatedAt := number, map[], sourceTurn, timestamp;
      this.confidence, externalActionConfirmed := confidence, confirmed;
    }

    /** Sets one slot; reports whether its value was a new one. */
    method SetSlot(e: Entry, source: string, timestamp: string) returns (changed: bool)
      modifies this`slots
      ensures slots == Set(old(slots), e, source, timestamp) && changed == Changes(old(slots), e)
    {
      if e.slot in slots && slots[e.slot].value == e.value { return false; }
      slots := slots[e.slot := SlotValue(e.value, source, timestamp, e.confidence, e.raw, e.temporal)];
      changed := true;
    }

    method SetSlots(es: seq<Entry>, source: string, timestamp: string) returns (changed: seq<Slot>)
      modifies this`slots
      ensures slots == SetAll(old(slots), es, source, timestamp)
      ensures changed == Reported(old(slots), es, source, timestamp)
    {
      changed := [];
      for i := 0 to |es|
        invariant slots == SetAll(old(slots), es[..i], source, timestamp)
        invariant changed == Reported(old(slots), es[..i], source, timestamp)
      {
        assert es[..i + 1][..i] == es[..i];
        var c := SetSlot(es[i], source, timestamp);
        if c { changed := changed + [es[i].slot]; }
      }
      assert es[..|es|] == es;
    }
  }

  class AppointmentStateTracker {
    /** The comparison form of a text. */
    const fold: string -> string
    var appointments: map<nat, AppointmentState>
    var databaseIds: map<string, nat>
    var focus: Option<nat>
    var nextId: nat
    var turnIndex: nat
    var lastExplicitFocusTurn: Option<nat>

    function Repr(): set<object>
      reads this
    {
      set n | n in appointments :: appointments[n]
    }

    /** Ids are the numbers given out so far, every object has its own, and the focus is absent or valid. */
    ghost predicate Valid()
      reads this, Repr()
    {
      && nextId >= 1
      && (forall n :: n in appointments <==> 1 <= n < nextId)
      && (forall n | n in appointments :: appointments[n].number == n)
      && (focus.Some? ==> focus.value in appointments)
      && (forall d | d in databaseIds :: databaseIds[d] in appointments)
      && (forall n | n in appointments :: Booked(appointments[n].slots) ==> appointments[n].externalActionConfirmed)
    }

    constructor (fold: string -> string)
      ensures Valid() && appointments == map[] && focus.None? && nextId == 1 && this.fold == fold
    {
      this.fold := fold;
      appointments, databaseIds, focus, nextId, turnIndex, lastExplicitFocusTurn := map[], map[], None, 1, 0, None;
    }

    /** Objects of different ids are different objects. */
    lemma Separate()
      requires Valid()
      ensures forall m, n | m in appointments && n in appointments && m != n :: appointments[m] != appointments[n]
    {
    }

    // ----- reading -----

    predicate MatchesEntity(a: AppointmentState, r: Reference)
      reads this, a
    {
      var values := FoldedValues(a);
      fold(r.purpose) in values || (r.specialty.Some? && fold(r.specialty.value) in values)
    }

    function FoldedValues(a: AppointmentState): set<string>
      reads this, a
    {
      {Folded(a, Purpose), Folded(a, Specialty), Folded(a, Provider)}
    }

    function Folded(a: AppointmentState, slot: Slot): string
      reads this, a
    {
      if slot in a.slots then fold(a.slots[slot].value) else ""
    }

    /** The active appointments below `n`, in order. */
    function ActiveBelow(n: nat): (ids: seq<nat>)
      requires Valid() && n <= nextId
      reads this, Repr()
      ensures forall k | k in ids :: k in appointments && k < n
    {
      if n <= 1 then []
      else ActiveBelow(n - 1) + (if Active(appointments[n - 1].slots) then [n - 1] else [])
    }

    function ActiveIds(): (ids: seq<nat>)
      requires Valid()
      reads this, Repr()
      ensures forall k | k in ids :: k in appointments
    {
      ActiveBelow(nextId)
    }

    function MatchingBelow(r: Reference, n: nat): (ids: seq<nat>)
      requires Valid() && n <= nextId
      reads this, Repr()
      ensures forall k | k in ids :: k in appointments
    {
      if n <= 1 then []
      else MatchingBelow(r, n - 1) + (if MatchesEntity(appointments[n - 1], r) then [n - 1] else [])
    }

    /** The appointments a reference may mean, in order. */
    function Matching(r: Reference): (ids: seq<nat>)
      requires Valid()
      reads this, Repr()
      ensures forall k | k in ids :: k in appointments
    {
      MatchingBelow(r, nextId)
    }

    /** Those of all references, each once, in order of mention. */
    function MatchingAny(rs: seq<Reference>): (ids: seq<nat>)
      requires Valid()
      reads this, Repr()
      ensures forall k | k in ids :: k in appointments
    {
      if rs == [] then [] else Merge(MatchingAny(rs[..|rs| - 1]), Matching(rs[|rs| - 1]))
    }

    function OnlyActive(ids: seq<nat>): (active: seq<nat>)
      requires Valid() && forall k | k in ids :: k in appointments
      reads this, Repr()
      ensures forall k | k in active :: k in appointments
    {
      if ids == [] then []
      else
        var last := ids[|ids| - 1];
        OnlyActive(ids[..|ids| - 1]) + (if Active(appointments[last].slots) then [last] else [])
    }

    predicate IsOverview(t: Turn)
      reads this, Repr()
    {
      && !(t.availabilityQuery && t.references == [] && !HasDelta(t))
      && (t.overview || (appointments != map[] && t.contextualOverview))
      && !t.availabilityQuery && t.references == []
    }

    /** A turn that brings a date, a time or a date that needs a question. */
    predicate HasDelta(t: Turn)
      reads this, Repr()
    {
      t.time.Some? || t.UnclearDate() || (t.dates(FocusDate()).Ok? && t.dates(FocusDate()).value.Some?)
    }

    /** The resolver raises, for a question or for the date of the appointment in focus. */
    predicate DatesRaise(t: Turn)
      reads this, Repr()
    {
      t.clarification.Err? || t.dates(FocusDate()).Err?
    }

    function FocusDate(): Option<string>
      reads this, Repr()
    {
      if focus.Some? && focus.value in appointments then ValueOf(appointments[focus.value].slots, DateSlot) else None
    }

    /** Which appointment the turn of the given number is about; what is unclear is asked back, not guessed. */
    function Decide(t: Turn, turn: nat): (r: Resolution)
      requires Valid()
      reads this, Repr()
      ensures r.number.Some? ==> r.number.value in appointments && r.options == [] && r.create.None?
      ensures r.create.Some? ==> r.options == []
    {
      if t.availabilityQuery && t.references == [] && !HasDelta(t) then
        if focus.Some? then Found(focus.value) else Unresolved
      else if IsOverview(t) then Ask(Choices(ActiveIds()))
      else
        var named := ByReference(t);
        if named.Some? then named.value else ByContext(t, turn)
    }

    /** Resolution by what is named; `None` leaves it to the context. */
    function ByReference(t: Turn): (r: Option<Resolution>)
      requires Valid()
      reads this, Repr()
      ensures r.Some? && r.value.number.Some? ==>
                r.value.number.value in appointments && r.value.options == [] && r.value.create.None?
      ensures r.Some? && r.value.create.Some? ==> r.value.options == []
    {
      if t.references == [] then None
      else if |Purposes(t.references)| > 1 && t.actionMentions > 1 then
        var ids := MatchingAny(t.references);
        Some(Ask(if ids != [] then Choices(ids) else PurposeChoices(Purposes(t.references))))
      else
        var active := OnlyActive(MatchingAny(t.references));
        if t.ordinalFirst.Some? && active != [] then
          Some(Found(if t.ordinalFirst.value then active[0] else active[|active| - 1]))
        else
          var reference := t.references[|t.references| - 1];
          var matching := Matching(reference);
          if matching != [] && !t.newAppointment then Some(Found(matching[|matching| - 1]))
          else if t.aboutAppointment then Some(New(reference))
          else None
    }

    /** Resolution by ordinals, pronouns and the focus. */
    function ByContext(t: Turn, turn: nat): (r: Resolution)
      requires Valid()
      reads this, Repr()
      ensures r.number.Some? ==> r.number.value in appointments && r.options == [] && r.create.None?
      ensures r.create.Some? ==> r.options == []
    {
      var active := ActiveIds();
      if t.ordinalFirst.Some? && active != [] then
        Found(if t.ordinalFirst.value then active[0] else active[|active| - 1])
      else if t.otherReference then
        var others := Without(active, focus);
        if |others| == 1 then assert others[0] in others; Found(others[0])
        else Ask(Choices(if others != [] then others else active))
      else if t.pronoun && |active| > 1 then
        if focus.Some? && focus.value in active && turn > 0 && lastExplicitFocusTurn == Some(turn - 1)
        then Found(focus.value)
        else Ask(Choices(active))
      else if appointments == map[] && (t.aboutAppointment || HasDelta(t)) then New(Generic)
      else if t.newAppointment && t.aboutAppointment then New(Generic)
      else if focus.Some? && !t.negated && t.confirmation then Found(focus.value)
      else if focus.Some? && (t.aboutAppointment || HasDelta(t) || t.pronoun) then Found(focus.value)
      else if |active| == 1 && (t.aboutAppointment || HasDelta(t)) then assert active[0] in active; Found(active[0])
      else Unresolved
    }

    // ----- operations -----

    /** Reads the state, and gives up the focus for an overview. */
    method Resolve(t: Turn, turn: nat) returns (r: Resolution)
      requires Valid()
      modifies this`focus
      ensures Valid() && r == old(Decide(t, turn))
      ensures focus == if old(IsOverview(t)) then None else old(focus)
    {
      r := Decide(t, turn);
      if IsOverview(t) { focus := None; }
    }

    method Create(source: string, timestamp: string, confidence: real, confirmed: bool) returns (a: AppointmentState)
      requires Valid()
      modifies this`appointments, this`nextId
      ensures Valid() && fresh(a) && a.slots == map[] && a.externalActionConfirmed == confirmed
      ensures a.number == old(nextId) && nextId == old(nextId) + 1
      ensures appointments == old(appointments)[old(nextId) := a]
    {
      a := new AppointmentState(nextId, source, timestamp, confidence, confirmed);
      appointments := appointments[nextId := a];
      nextId := nextId + 1;
    }

    /** The smallest confidence among the reported slots. */
    method LeastConfidence(a: AppointmentState, changed: seq<Slot>) returns (least: real)
      requires forall s | s in changed :: s in a.slots
      ensures if changed == [] then least == a.confidence
              else (exists s :: s in changed && least == a.slots[s].confidence)
                   && forall s | s in changed :: least <= a.slots[s].confidence
    {
      if changed == [] { return a.confidence; }
      least := a.slots[changed[0]].confidence;
      for i := 1 to |changed|
        invariant exists k :: 0 <= k < i && least == a.slots[changed[k]].confidence
        invariant forall k | 0 <= k < i :: least <= a.slots[changed[k]].confidence
      {
        if a.slots[changed[i]].confidence < least { least := a.slots[changed[i]].confidence; }
      }
    }

    /** Every entry in turn, then the derived status; what is not reported stays as it was. */
    method Alter(a: AppointmentState, es: seq<Entry>, t: Turn) returns (changed: seq<Slot>)
      requires NoStatus(es)
      modifies a
      ensures a.slots == AfterTurn(old(a.slots), es, t.cancellation, t.source, t.timestamp)
      ensures a.externalActionConfirmed == old(a.externalActionConfirmed)
      ensures changed == TurnReports(old(a.slots), es, t)
      ensures a.sourceTurn == t.source && a.updatedAt == t.timestamp
      ensures if changed == [] then a.confidence == old(a.confidence)
              else forall s | s in changed :: s in a.slots && a.confidence <= a.slots[s].confidence
    {
      changed := a.SetSlots(es, t.source, t.timestamp);
      ReportedHeld(old(a.slots), es, t.source, t.timestamp);
      var derived := a.SetSlot(StatusEntry(a.slots, t.cancellation), t.source, t.timestamp);
      if derived { changed := changed + [Status]; }
      a.sourceTurn, a.updatedAt := t.source, t.timestamp;
      var least := LeastConfidence(a, changed);
      a.confidence := least;
    }

    /** The appointment a turn was resolved to, made if need be, gets the focus. */
    method Settle(r: Resolution, t: Turn) returns (a: AppointmentState)
      requires Valid() && (r.create.Some? || r.number.Some?) && (r.create.None? ==> r.number.value in appointments)
      modifies this`appointments, this`nextId, this`focus
      ensures Valid() && a.number in appointments && appointments[a.number] == a && focus == Some(a.number)
      ensures if r.create.Some?
              then fresh(a) && a.slots == map[] && !a.externalActionConfirmed && a.number == old(nextId) && nextId == old(nextId) + 1
                   && appointments == old(appointments)[old(nextId) := a]
              else appointments == old(appointments) && nextId == old(nextId) && a.number == r.number.value
      ensures fresh(Repr() - old(Repr())) && AltersOnly(None)
    {
      if r.create.Some? {
        a := Create(t.source, t.timestamp, 0.99, false);
      } else {
        a := appointments[r.number.value];
      }
      focus := Some(a.number);
    }

    /** Sets what a turn says about the appointment in focus; the resolver may raise first. */
    method Write(a: AppointmentState, create: Option<Reference>, t: Turn) returns (delta: Delta)
      requires Valid() && t.Valid() && a.number in appointments && appointments[a.number] == a
      modifies this`lastExplicitFocusTurn, a
      ensures Valid()
      ensures a.externalActionConfirmed == old(a.externalActionConfirmed)
      ensures delta.Raised? ==> unchanged(a)
      ensures Written(old(a.slots), a.slots, a.number, create, t, delta)
      ensures lastExplicitFocusTurn
              == if delta.Delta? && t.references != [] then Some(turnIndex) else old(lastExplicitFocusTurn)
    {
      hide AfterTurn, Booked, Turn.Entries, NoStatus, ValueOf, TurnReports;
      Separate();
      var date := t.dates(ValueOf(a.slots, DateSlot));
      if date.Err? { return Raised; }
      if t.references != [] { lastExplicitFocusTurn := Some(turnIndex); }
      ghost var before := a.slots;
      var changed := Alter(a, t.Entries(create, date.value), t);
      delta := Delta(Some(a.number), changed, create.Some?, t.UnclearDate());
      WrittenKeeps(before, a.slots, a.number, create, t, delta);
    }

    /** No appointment is lost or replaced, and none but that of the given number is altered. */
    twostate predicate AltersOnly(number: Option<nat>)
      reads this, Repr()
    {
      forall n | n in old(appointments) ::
        && n in appointments && appointments[n] == old(appointments)[n]
        && (number != Some(n) ==> unchanged(old(appointments)[n]))
    }

    /** The altered appointment is neither newly booked nor newly confirmed. */
    twostate predicate ClaimsNothing(n: nat)
      requires n in appointments
      reads this, appointments[n]
    {
      if n in old(appointments) && old(appointments)[n] == appointments[n] then
        && appointments[n].externalActionConfirmed == old(appointments[n].externalActionConfirmed)
        && (Booked(appointments[n].slots) ==> old(Booked(appointments[n].slots)))
      else !Booked(appointments[n].slots)
    }

    /** Slots that are not reported keep value and provenance. */
    twostate predicate KeepsUnreported(n: nat, updated: seq<Slot>)
      requires n in appointments
      reads this, appointments[n]
    {
      n in old(appointments) && old(appointments)[n] == appointments[n] ==>
        forall s: Slot | s !in updated ::
          && (s in appointments[n].slots <==> s in old(appointments[n].slots))
          && (s in appointments[n].slots ==> appointments[n].slots[s] == old(appointments[n].slots)[s])
    }

    /** The number of the appointment a turn was resolved to, and its slots before the turn. */
    twostate function Target(r: Resolution): nat
      requires r.create.Some? || r.number.Some?
    {
      if r.create.Some? then old(nextId) else r.number.value
    }

    twostate function SlotsBefore(r: Resolution): Slots
      requires r.create.Some? || (r.number.Some? && r.number.value in old(appointments))
    {
      if r.create.Some? then map[] else old(appointments[r.number.value].slots)
    }

    /** The appointment a turn was resolved to has the focus and got what the turn says. */
    twostate predicate Completed(r: Resolution, t: Turn, delta: Delta)
      requires t.Valid() && (r.create.Some? || r.number.Some?)
      reads this, Repr()
    {
      && Target(r) in appointments && focus == Some(Target(r))
      && (if r.create.Some? then nextId == old(nextId) + 1 && Target(r) !in old(appointments)
          else nextId == old(nextId) && Target(r) in old(appointments))
      && appointments[Target(r)].externalActionConfirmed
         == (r.create.None? && old(appointments[r.number.value].externalActionConfirmed))
      && Written(SlotsBefore(r), appointments[Target(r)].slots, Target(r), r.create, t, delta)
    }

    /** What a user turn that was resolved to `r` does, told from the state before it. */
    twostate predicate Carried(r: Resolution, t: Turn, delta: Delta)
      requires t.Valid()
      reads this, Repr()
    {
      if old(DatesRaise(t)) then delta.Raised? && focus == old(focus) && nextId == old(nextId)
      else if r.options != [] then delta == Delta(None, [], false, true) && focus.None? && nextId == old(nextId)
      else if r.create.None? && r.number.None? then
        delta == Delta(None, [], false, false) && nextId == old(nextId)
        && focus == if old(IsOverview(t)) then None else old(focus)
      else Completed(r, t, delta)
    }

    /** The part of a user turn after it has been resolved to an appointment. */
    method Complete(resolution: Resolution, t: Turn) returns (delta: Delta)
      requires Valid() && t.Valid() && (resolution.create.Some? || resolution.number.Some?)
      requires resolution.create.None? ==> resolution.number.value in appointments
      modifies this`appointments, this`nextId, this`focus, this`lastExplicitFocusTurn, Repr()
      ensures Valid() && fresh(Repr() - old(Repr()))
      ensures Completed(resolution, t, delta)
      ensures AltersOnly(if delta.Delta? then delta.number else None)
      ensures lastExplicitFocusTurn
              == if delta.Delta? && t.references != [] then Some(turnIndex) else old(lastExplicitFocusTurn)
    {
      hide Booked, ValueOf, AfterTurn, Turn.Entries, NoStatus, Turn.Valid, TurnReports;
      var a := Settle(resolution, t);
      assert resolution.create.None? ==> a == old(appointments)[a.number] && a in old(Repr());
      KeptApart(a);
      delta := Write(a, resolution.create, t);
    }

    /** An object without its own number is none of the others. */
    lemma KeptApart(a: AppointmentState)
      requires a.number in appointments && appointments[a.number] == a
      requires forall n | n in appointments :: appointments[n].number == n
      ensures forall n | n in appointments && n != a.number :: appointments[n] != a
    {
    }

    /** Completing a turn, and what follows from it for the one appointment and for all others. */
    method Perform(resolution: Resolution, t: Turn) returns (delta: Delta)
      requires Valid() && t.Valid() && (resolution.create.Some? || resolution.number.Some?)
      requires resolution.create.None? ==> resolution.number.value in appointments
      modifies this`appointments, this`nextId, this`focus, this`lastExplicitFocusTurn, Repr()
      ensures Valid() && fresh(Repr() - old(Repr()))
      ensures Completed(resolution, t, delta)
      ensures AltersOnly(if delta.Delta? then delta.number else None)
      ensures forall n | n in appointments :: ClaimsNothing(n)
      ensures delta.Delta? ==> delta.number == Some(Target(resolution)) && KeepsUnreported(Target(resolution), delta.updated)
      ensures lastExplicitFocusTurn
              == if delta.Delta? && t.references != [] then Some(turnIndex) else old(lastExplicitFocusTurn)
    {
      hide Booked, AfterTurn, Said, Unresolvable, TurnReports;
      delta := Complete(resolution, t);
      WrittenKeeps(SlotsBefore(resolution), appointments[Target(resolution)].slots, Target(resolution),
                   resolution.create, t, delta);
    }

    /**
     * A user turn alters at most the one appointment it reports; that one keeps every slot that is
     * not reported, stays as confirmed as it was, and is booked afterwards only if it was booked
     * before. Where the resolver raises, nothing but the focus and an empty new appointment is left.
     */
    method ApplyUserTurn(t: Turn) returns (delta: Delta)
      requires Valid() && t.Valid()
      modifies this, Repr()
      ensures Valid() && fresh(Repr() - old(Repr()))
      ensures if t.blank then delta.Raised? && unchanged(this)
              else turnIndex == old(turnIndex) + 1 && Carried(old(Decide(t, turnIndex + 1)), t, delta)
      ensures AltersOnly(if delta.Delta? then delta.number else None)
      ensures forall n | n in appointments :: ClaimsNothing(n)
      ensures delta.Delta? && delta.number.Some? ==>
                delta.number.value in appointments && KeepsUnreported(delta.number.value, delta.updated)
      ensures lastExplicitFocusTurn
              == if delta.Delta? && delta.number.Some? && t.references != [] then Some(turnIndex)
                 else old(lastExplicitFocusTurn)
    {
      hide Decide, HasDelta, IsOverview, FocusDate, DatesRaise, Booked, Written, Turn.Valid, Valid;
      if t.blank { return Raised; }
      var raised, resolution := Begin(t);
      assert Repr() == old(Repr());
      if raised { return Raised; }
      if resolution.options != [] { return Delta(None, [], false, true); }
      if resolution.create.None? && resolution.number.None? { return Delta(None, [], false, false); }
      delta := Perform(resolution, t);
    }

    /** The part of a user turn before any appointment is touched; a turn counts even when the resolver raises. */
    method Begin(t: Turn) returns (raised: bool, resolution: Resolution)
      requires Valid()
      modifies this`turnIndex, this`focus
      ensures Valid() && turnIndex == old(turnIndex) + 1
      ensures raised == old(DatesRaise(t))
      ensures !raised ==> resolution == old(Decide(t, turnIndex + 1))
      ensures focus == if !raised && (resolution.options != [] || old(IsOverview(t))) then None else old(focus)
    {
      hide Decide, IsOverview, FocusDate;
      resolution := Unresolved;
      raised := t.clarification.Err? || t.dates(FocusDate()).Err?;
      if !raised {
        resolution := Resolve(t, turnIndex + 1);
        if resolution.options != [] { focus := None; }
      }
      turnIndex := turnIndex + 1;
    }

    /**
     * The only path to a claim about the outside world: exactly one appointment gets the status and
     * the confirmation that the tool's report implies.
     */
    method RecordToolResult(number: nat, action: Option<Action>, success: bool, preserve: bool, start: Option<Start>,
                            source: string, timestamp: string, timezone: string) returns (delta: Delta)
      requires Valid()
      modifies Repr()
      ensures Valid()
      ensures forall n | n in appointments && n != number :: unchanged(appointments[n])
      ensures number !in appointments || action.None? ==> delta.Raised? && forall n | n in appointments :: unchanged(appointments[n])
      ensures number in appointments && action.Some? ==>
                var a := appointments[number];
                && a.externalActionConfirmed == Confirms(action.value, success, preserve)
                && if StartRaises(action.value, success, preserve, start) then delta.Raised? && a.slots == old(a.slots)
                   else
                     var es := ToolEntries(action.value, success, preserve, ReadableOnly(start), timezone);
                     && a.slots == SetAll(old(a.slots), es, source, timestamp)
                     && delta == Delta(Some(number), Reported(old(a.slots), es, source, timestamp), false, false)
    {
      hide Booked, Set, SetAll, Reported, ToolEntries;
      Separate();
      if number !in appointments || action.None? { return Raised; }
      var a := appointments[number];
      a.externalActionConfirmed := Confirms(action.value, success, preserve);
      if StartRaises(action.value, success, preserve, start) { return Raised; }
      var entries := ToolEntries(action.value, success, preserve, ReadableOnly(start), timezone);
      ToolReportHolds(a.slots, action.value, success, preserve, ReadableOnly(start), timezone, source, timestamp);
      var changed := a.SetSlots(entries, source, timestamp);
      a.updatedAt := timestamp;
      delta := Delta(Some(number), changed, false, false);
    }

    /** Hydrates a committed booking once; a known one is found again. */
    method RestoreCommittedAppointment(databaseId: string, kind: string, start: Start, provider: Option<string>,
                                       location: Option<string>, source: string, timestamp: string, timezone: string)
      returns (number: Option<nat>)
      requires Valid()
      modifies this`appointments, this`nextId, this`databaseIds
      ensures Valid() && fresh(Repr() - old(Repr()))
      ensures forall n | n in old(appointments) ::
                n in appointments && appointments[n] == old(appointments)[n] && unchanged(appointments[n])
      ensures databaseId in old(databaseIds) ==> number == Some(old(databaseIds)[databaseId]) && unchanged(this)
      ensures databaseId !in old(databaseIds) ==>
                if start.Unreadable? then number.None? && unchanged(this)
                else && number == Some(old(nextId)) && nextId == old(nextId) + 1
                     && databaseIds == old(databaseIds)[databaseId := old(nextId)]
                     && old(nextId) in appointments && appointments[old(nextId)].externalActionConfirmed
                     && appointments[old(nextId)].slots
                        == SetAll(map[], RestoreEntries(kind, start, provider, location, timezone), source, timestamp)
                     && Booked(appointments[old(nextId)].slots)
    {
      hide Booked, SetAll, Reported, RestoreEntries;
      if databaseId in databaseIds { return Some(databaseIds[databaseId]); }
      if start.Unreadable? { return None; }
      var a := Create(source, timestamp, 1.0, true);
      RestoreHolds(kind, start, provider, location, timezone, source, timestamp);
      KeptApart(a);
      var _ := a.SetSlots(RestoreEntries(kind, start, provider, location, timezone), source, timestamp);
      databaseIds := databaseIds[databaseId := a.number];
      number := Some(a.number);
    }

    /** Nothing that was there is lost or replaced. */
    twostate predicate OnlyGrows()
      reads this
    {
      && old(nextId) <= nextId
      && (forall n | n in old(appointments) :: n in appointments && appointments[n] == old(appointments)[n])
    }

    /** What was not booked is not booked now, nor is anything that is new. */
    twostate predicate NewlyBooksNothing()
      reads this, Repr()
    {
      forall n | n in appointments && Booked(appointments[n].slots) ::
        n in old(appointments) && old(appointments)[n] == appointments[n] && old(Booked(appointments[n].slots))
    }

    /**
     * Over any series of user turns ids are never reused, the focus stays absent or valid, and no
     * appointment becomes booked.
     */
    method ApplyUserTurns(ts: seq<Turn>)
      requires Valid() && forall t | t in ts :: t.Valid()
      modifies this, Repr()
      ensures Valid() && fresh(Repr() - old(Repr()))
      ensures OnlyGrows() && NewlyBooksNothing()
    {
      hide Booked, ValueOf, KeepsUnreported;
      for i := 0 to |ts|
        invariant Valid() && fresh(Repr() - old(Repr()))
        invariant OnlyGrows() && NewlyBooksNothing()
      {
        label Before:
        var delta := ApplyUserTurn(ts[i]);
        forall n | n in appointments && Booked(appointments[n].slots)
          ensures n in old@Before(appointments) && old@Before(Booked(appointments[n].slots))
        {
        }
      }
    }
  }

  /** Everything that can happen to a tracker. */
  datatype Operation =
    | User(turn: Turn)
    | Tool(number: nat, action: Option<Action>, success: bool, preserve: bool, committed: Option<Start>,
           source: string, timestamp: string)
    | Restore(databaseId: string, kind: string, start: Start, provider: Option<string>, location: Option<string>,
              source: string, timestamp: string)

  /**
   * Over any series of operations ids are never reused, the focus stays absent or valid, and
   * whatever is booked has been confirmed from outside.
   */
  method Operate(tracker: AppointmentStateTracker, ops: seq<Operation>, timezone: string)
    requires tracker.Valid() && forall op | op in ops && op.User? :: op.turn.Valid()
    modifies tracker, tracker.Repr()
    ensures tracker.Valid() && tracker.OnlyGrows()
    ensures forall n | n in tracker.appointments && Booked(tracker.appointments[n].slots) ::
              tracker.appointments[n].externalActionConfirmed
    ensures tracker.focus.Some? ==> tracker.focus.value in tracker.appointments
  {
    hide Booked, ValueOf, AppointmentStateTracker.KeepsUnreported, AppointmentStateTracker.ClaimsNothing;
    for i := 0 to |ops|
      invariant tracker.Valid() && fresh(tracker.Repr() - old(tracker.Repr()))
      invariant tracker.OnlyGrows()
    {
      match ops[i]
      case User(turn) =>
        assert ops[i] in ops;
        var _ := tracker.ApplyUserTurn(turn);
      case Tool(number, action, success, preserve, committed, source, timestamp) =>
        var _ := tracker.RecordToolResult(number, action, success, preserve, committed, source, timestamp, timezone);
      case Restore(databaseId, kind, start, provider, location, source, timestamp) =>
        var _ := tracker.RestoreCommittedAppointment(databaseId, kind, start, provider, location, source, timestamp, timezone);
    }
  }

  lemma {:induction false} ReportedHeld(slots: Slots, es: seq<Entry>, sourceTurn: string, timestamp: string)
    ensures forall s | s in Reported(slots, es, sourceTurn, timestamp) :: s in SetAll(slots, es, sourceTurn, timestamp)
    ensures forall s | s in slots :: s in SetAll(slots, es, sourceTurn, timestamp)
  {
    if es != [] { ReportedHeld(slots, es[..|es| - 1], sourceTurn, timestamp); }
  }
}
