/** What a user turn leaves in the slots of its appointment, slot by slot. */
module AppointmentTheorems {
  import opened Domain
  import opened Appointments

  /** What a turn says for a slot; a purpose that is only "Termin" names nothing. */
  function SaidFor(t: Turn, create: Option<Reference>, date: Option<Temporal>, slot: Slot): Option<Entry> {
    var selected := if create.Some? then create
                    else if t.references == [] then None else Some(t.references[|t.references| - 1]);
    var named := if selected.Some? && selected.value.purpose != "Termin" then selected else None;
    match slot
    case DateSlot =>
      if date.None? then None
      else Some(Entry(DateSlot, date.value.isoDate, date.value.expression, date.value.confidence, date))
    case TimeSlot => Plainly(t.time)
    case Purpose =>
      if named.Some? then Some(Entry(Purpose, named.value.purpose, named.value.raw, 0.99, None))
      else if t.genericPurpose.Some? then Some(Entry(Purpose, t.genericPurpose.value, t.genericPurpose.value, 0.91, None))
      else None
    case Specialty =>
      if named.Some? && named.value.specialty.Some?
      then Some(Entry(Specialty, named.value.specialty.value, named.value.raw, 0.99, None)) else None
    case Location => Plainly(t.location)
    case Provider => Plainly(t.provider)
    case Status => None
  }

  function Plainly(e: Option<Entry>): Option<Entry> { if e.None? then None else Some(e.value.(temporal := None)) }

  /** The value of a slot after something was said for it: a value it has already stays with its provenance. */
  predicate Holds(before: Slots, after: Slots, slot: Slot, said: Option<Entry>, source: string, timestamp: string) {
    if said.None? then (slot in after <==> slot in before) && (slot in before ==> after[slot] == before[slot])
    else
      && slot in after
      && after[slot] == if slot in before && before[slot].value == said.value.value then before[slot]
                        else SlotValue(said.value.value, source, timestamp, said.value.confidence, said.value.raw,
                                       said.value.temporal)
  }

  predicate Distinct(es: seq<Entry>) { forall i, j | 0 <= i < j < |es| :: es[i].slot != es[j].slot }

  function SaidIn(es: seq<Entry>, slot: Slot): Option<Entry> {
    if es == [] then None
    else if es[|es| - 1].slot == slot then Some(es[|es| - 1]) else SaidIn(es[..|es| - 1], slot)
  }

  lemma {:induction false} SaidNowhere(es: seq<Entry>, slot: Slot)
    requires forall i | 0 <= i < |es| :: es[i].slot != slot
    ensures SaidIn(es, slot).None?
  {
    if es != [] { SaidNowhere(es[..|es| - 1], slot); }
  }

  /** Where no slot is set twice, every slot holds what was said for it, and exactly the changed ones are reported. */
  lemma {:induction false} SetAllHolds(before: Slots, es: seq<Entry>, source: string, timestamp: string, slot: Slot)
    requires Distinct(es)
    ensures var after := SetAll(before, es, source, timestamp);
      && Holds(before, after, slot, SaidIn(es, slot), source, timestamp)
      && (slot in Reported(before, es, source, timestamp) <==> ValueOf(after, slot) != ValueOf(before, slot))
  {
    if es != [] {
      var front, last := es[..|es| - 1], es[|es| - 1];
      SetAllHolds(before, front, source, timestamp, slot);
      SetAllHolds(before, front, source, timestamp, last.slot);
      SaidNowhere(front, last.slot);
    }
  }

  // ----- the entries of a turn -----

  function Rank(slot: Slot): nat {
    match slot
    case DateSlot => 0
    case TimeSlot => 1
    case Purpose => 2
    case Specialty => 3
    case Location => 4
    case Provider => 5
    case Status => 6
  }

  predicate RankedBelow(es: seq<Entry>, n: nat) {
    Distinct(es) && forall i | 0 <= i < |es| :: Rank(es[i].slot) < n
  }

  lemma SayOneMore(es: seq<Entry>, more: Option<Entry>, n: nat, slot: Slot)
    requires RankedBelow(es, n) && (more.Some? ==> Rank(more.value.slot) == n)
    ensures var es' := es + One(more);
      && RankedBelow(es', n + 1)
      && SaidIn(es', slot) == if more.Some? && more.value.slot == slot then more else SaidIn(es, slot)
  {
    if more.Some? {
      assert (es + [more.value])[..|es|] == es;
    } else {
      assert es + [] == es;
    }
  }

  lemma SixEntries(date: Option<Entry>, time: Option<Entry>, purpose: Option<Entry>, specialty: Option<Entry>,
                   location: Option<Entry>, provider: Option<Entry>, slot: Slot)
    returns (es: seq<Entry>)
    requires date.Some? ==> date.value.slot == DateSlot
    requires time.Some? ==> time.value.slot == TimeSlot
    requires purpose.Some? ==> purpose.value.slot == Purpose
    requires specialty.Some? ==> specialty.value.slot == Specialty
    requires location.Some? ==> location.value.slot == Location
    requires provider.Some? ==> provider.value.slot == Provider
    ensures es == One(date) + One(time) + One(purpose) + One(specialty) + One(location) + One(provider)
    ensures Distinct(es)
    ensures SaidIn(es, slot) == match slot
                                case DateSlot => date
                                case TimeSlot => time
                                case Purpose => purpose
                                case Specialty => specialty
                                case Location => location
                                case Provider => provider
                                case Status => None
  {
    hide SaidIn, RankedBelow, One, Distinct;
    NothingSaid(slot);
    SayOneMore([], date, 0, slot);
    es := One(date);
    assert [] + es == es;
    SayOneMore(es, time, 1, slot);
    es := es + One(time);
    SayOneMore(es, purpose, 2, slot);
    es := es + One(purpose);
    SayOneMore(es, specialty, 3, slot);
    es := es + One(specialty);
    SayOneMore(es, location, 4, slot);
    es := es + One(location);
    SayOneMore(es, provider, 5, slot);
    es := es + One(provider);
    assert Distinct(es) by { RankedDistinct(es, 6); }
  }

  function One(e: Option<Entry>): seq<Entry> { if e.Some? then [e.value] else [] }

  lemma NothingSaid(slot: Slot)
    ensures RankedBelow([], 0) && SaidIn([], slot).None?
  {
  }

  lemma RankedDistinct(es: seq<Entry>, n: nat)
    requires RankedBelow(es, n)
    ensures Distinct(es)
  {
  }

  /** The entries of a turn are what it says for each slot, and no slot is among them twice. */
  lemma EntriesSay(t: Turn, create: Option<Reference>, date: Option<Temporal>, slot: Slot)
    requires t.Valid()
    ensures Distinct(t.Entries(create, date))
    ensures SaidIn(t.Entries(create, date), slot) == SaidFor(t, create, date, slot)
  {
    hide SaidIn, Distinct;
    EntriesAre(t, create, date);
    var es := SixEntries(SaidFor(t, create, date, DateSlot), SaidFor(t, create, date, TimeSlot),
                         SaidFor(t, create, date, Purpose), SaidFor(t, create, date, Specialty),
                         SaidFor(t, create, date, Location), SaidFor(t, create, date, Provider), slot);
  }

  lemma EntriesAre(t: Turn, create: Option<Reference>, date: Option<Temporal>)
    requires t.Valid()
    ensures t.Entries(create, date)
            == One(SaidFor(t, create, date, DateSlot)) + One(SaidFor(t, create, date, TimeSlot))
               + One(SaidFor(t, create, date, Purpose)) + One(SaidFor(t, create, date, Specialty))
               + One(SaidFor(t, create, date, Location)) + One(SaidFor(t, create, date, Provider))
  {
  }

  // ----- a whole turn -----

  /** The status a user turn derives, told by the status before it and the slots after it. */
  predicate Derives(before: Option<string>, after: Slots, cancellation: bool, status: string) {
    if cancellation then (status == "TOOL_PENDING" <==> before == Some("BOOKED")) && status in {"TOOL_PENDING", "CANCELLED"}
    else if before in {Some("BOOKED"), Some("CANCELLED"), Some("TOOL_PENDING")} then before == Some(status)
    else
      && (status == "READY_TO_BOOK" <==> DateSlot in after && TimeSlot in after)
      && (status == "PROPOSED" <==> Purpose !in after && DateSlot !in after && TimeSlot !in after)
      && status in {"READY_TO_BOOK", "PROPOSED", "COLLECTING_DETAILS"}
  }

  /** A derived status says whether it cancels a mere request; neither claims an external action. */
  function Derived(status: string): Entry {
    Entry(Status, status,
          if status != "CANCELLED" then "controller_derived_no_external_action" else "local_appointment_request_cancelled",
          1.0, None)
  }

  /**
   * What a turn does to its appointment, slot by slot: each holds what the turn says for it, or what
   * it held; the status is the derived one; and what is reported is exactly what has a new value.
   */
  lemma TurnExactly(before: Slots, after: Slots, n: nat, create: Option<Reference>, t: Turn, delta: Delta)
    requires t.Valid() && Written(before, after, n, create, t, delta) && t.dates(ValueOf(before, DateSlot)).Ok?
    ensures var date := t.dates(ValueOf(before, DateSlot)).value;
      && delta.Delta? && delta.number == Some(n) && delta.created == create.Some?
      && (forall slot: Slot | !slot.Status? ::
            Holds(before, after, slot, SaidFor(t, create, date, slot), t.source, t.timestamp))
      && Status in after && Derives(ValueOf(before, Status), after, t.cancellation, after[Status].value)
      && Holds(before, after, Status, Some(Derived(after[Status].value)), t.source, t.timestamp)
      && (forall slot: Slot :: slot in delta.updated <==> ValueOf(after, slot) != ValueOf(before, slot))
  {
    hide Turn.Entries, Turn.Valid, SaidFor, SaidIn, Holds, Distinct, ValueOf;
    var date := t.dates(ValueOf(before, DateSlot)).value;
    var es := t.Entries(create, date);
    var set1 := SetAll(before, es, t.source, t.timestamp);
    forall slot: Slot
      ensures !slot.Status? ==> Holds(before, after, slot, SaidFor(t, create, date, slot), t.source, t.timestamp)
      ensures slot in delta.updated <==> ValueOf(after, slot) != ValueOf(before, slot)
    {
      EntriesSay(t, create, date, slot);
      SetAllHolds(before, es, t.source, t.timestamp, slot);
      if slot.Status? {
        StatusReported(before, es, t);
      } else {
        StatusApart(set1, StatusEntry(set1, t.cancellation), before, slot, SaidFor(t, create, date, slot), t.source, t.timestamp);
        OthersReported(before, es, t, slot);
      }
    }
    StatusDerived(before, es, t);
  }

  lemma StatusApart(set1: Slots, e: Entry, before: Slots, slot: Slot, said: Option<Entry>, source: string, timestamp: string)
    requires e.slot == Status && !slot.Status?
    ensures ValueOf(Set(set1, e, source, timestamp), slot) == ValueOf(set1, slot)
    ensures Holds(before, set1, slot, said, source, timestamp) ==>
              Holds(before, Set(set1, e, source, timestamp), slot, said, source, timestamp)
  {
  }

  lemma OthersReported(before: Slots, es: seq<Entry>, t: Turn, slot: Slot)
    requires !slot.Status?
    ensures slot in TurnReports(before, es, t) <==> slot in Reported(before, es, t.source, t.timestamp)
  {
  }

  lemma StatusReported(before: Slots, es: seq<Entry>, t: Turn)
    requires NoStatus(es) && Distinct(es)
    ensures Status in TurnReports(before, es, t)
            <==> ValueOf(AfterTurn(before, es, t.cancellation, t.source, t.timestamp), Status) != ValueOf(before, Status)
  {
    StatusUntouched(before, es, t.source, t.timestamp);
    SetAllHolds(before, es, t.source, t.timestamp, Status);
  }

  lemma StatusDerived(before: Slots, es: seq<Entry>, t: Turn)
    requires NoStatus(es)
    ensures var after := AfterTurn(before, es, t.cancellation, t.source, t.timestamp);
      && Status in after && Derives(ValueOf(before, Status), after, t.cancellation, after[Status].value)
      && Holds(before, after, Status, Some(Derived(after[Status].value)), t.source, t.timestamp)
  {
    StatusUntouched(before, es, t.source, t.timestamp);
  }

  // ----- tools -----

  /** The entries of a committed start. */
  function Committed(start: Start, timezone: string, rule: string, slot: Slot): Option<Entry>
    requires start.Readable?
  {
    match slot
    case DateSlot =>
      Some(Entry(DateSlot, start.isoDate, start.raw, 1.0, Some(Temporal(start.raw, start.isoDate, timezone, rule, 1.0))))
    case TimeSlot => Some(Entry(TimeSlot, start.time, start.raw, 1.0, None))
    case _ => None
  }

  function ToolTag(action: Action): string {
    match action
    case Search => "tool_search"
    case Book => "tool_book"
    case Reschedule => "tool_reschedule"
    case Cancel => "tool_cancel"
  }

  lemma TagIs(action: Action, success: bool)
    ensures ToolRaw(action, success) == ToolTag(action) + (if success then "_success" else "_failed")
  {
    assert "tool_" + "search" == "tool_search" && "tool_" + "book" == "tool_book";
    assert "tool_" + "reschedule" == "tool_reschedule" && "tool_" + "cancel" == "tool_cancel";
  }

  /** A committed start that cannot be read raises exactly where it would be written. */
  lemma StartRaisesExactly(action: Action, success: bool, preserve: bool, start: Option<Start>)
    ensures StartRaises(action, success, preserve, start) <==>
              start == Some(Unreadable) && !(action.Search? || action.Cancel?) && (!success ==> preserve)
  {
  }

  /**
   * A tool report moves date and time to the committed start exactly when it books or moves, or keeps
   * a booking while doing so; it leaves every other slot but the status alone. It confirms something
   * exactly when it leaves a booked or cancelled appointment behind, or keeps a booking.
   */
  lemma ToolExactly(slots: Slots, action: Action, success: bool, preserve: bool, start: Option<Start>, timezone: string,
                    source: string, timestamp: string)
    requires start.Some? ==> start.value.Readable?
    ensures var es := ToolEntries(action, success, preserve, start, timezone);
      var after := SetAll(slots, es, source, timestamp);
      var commits := start.Some? && (success || preserve) && (action.Book? || action.Reschedule?);
      var status := ValueOf(after, Status);
      && (forall slot: Slot | !slot.Status? ::
            Holds(slots, after, slot,
                  if commits then Committed(start.value, timezone, "SQLITE_COMMITTED_AVAILABLE_SLOT", slot) else None,
                  source, timestamp))
      && status.Some?
      && Holds(slots, after, Status,
               Some(Entry(Status, status.value, ToolTag(action) + (if success then "_success" else "_failed"), 1.0, None)),
               source, timestamp)
      && (success && action.Search? ==> status == Some("AVAILABLE"))
      && (success && (action.Book? || action.Reschedule?) ==> status == Some("BOOKED"))
      && (success && action.Cancel? ==> status == Some("CANCELLED"))
      && (!success ==> status == Some(if preserve then "BOOKED" else "FAILED"))
      && (Confirms(action, success, preserve) <==> preserve || status in {Some("BOOKED"), Some("CANCELLED")})
      && (forall slot: Slot ::
            slot in Reported(slots, es, source, timestamp) <==> ValueOf(after, slot) != ValueOf(slots, slot))
  {
    hide SetAll, Reported, Holds, ToolRaw, ToolTag;
    var es := ToolEntries(action, success, preserve, start, timezone);
    assert Distinct(es);
    ToolReportHolds(slots, action, success, preserve, start, timezone, source, timestamp);
    TagIs(action, success);
    var commits := start.Some? && (success || preserve) && (action.Book? || action.Reschedule?);
    forall slot: Slot
      ensures !slot.Status? ==>
                Holds(slots, SetAll(slots, es, source, timestamp), slot,
                      if commits then Committed(start.value, timezone, "SQLITE_COMMITTED_AVAILABLE_SLOT", slot) else None,
                      source, timestamp)
      ensures slot in Reported(slots, es, source, timestamp)
              <==> ValueOf(SetAll(slots, es, source, timestamp), slot) != ValueOf(slots, slot)
      ensures slot.Status? ==> Holds(slots, SetAll(slots, es, source, timestamp), slot, Some(es[|es| - 1]), source, timestamp)
    {
      SetAllHolds(slots, es, source, timestamp, slot);
      if slot.Status? { SaidLast(es[..|es| - 1], es[|es| - 1], slot); assert es == es[..|es| - 1] + [es[|es| - 1]]; }
      if !slot.Status? { ToolSays(action, success, preserve, start, timezone, slot); }
    }
  }

  lemma ToolSays(action: Action, success: bool, preserve: bool, start: Option<Start>, timezone: string, slot: Slot)
    requires !slot.Status? && (start.Some? ==> start.value.Readable?)
    ensures var commits := start.Some? && (success || preserve) && (action.Book? || action.Reschedule?);
      SaidIn(ToolEntries(action, success, preserve, start, timezone), slot)
      == if commits then Committed(start.value, timezone, "SQLITE_COMMITTED_AVAILABLE_SLOT", slot) else None
  {
    var es := ToolEntries(action, success, preserve, start, timezone);
    var front := es[..|es| - 1];
    assert es == front + [es[|es| - 1]];
    SaidLast(front, es[|es| - 1], slot);
    if |es| == 3 {
      StartSays(start.value, timezone, "SQLITE_COMMITTED_AVAILABLE_SLOT", slot);
      assert front == StartEntries(start.value, timezone, "SQLITE_COMMITTED_AVAILABLE_SLOT");
    } else {
      SaidNowhere([], slot);
    }
  }

  lemma SaidLast(es: seq<Entry>, e: Entry, slot: Slot)
    ensures SaidIn(es + [e], slot) == if e.slot == slot then Some(e) else SaidIn(es, slot)
  {
    assert (es + [e])[..|es|] == es;
  }

  lemma StartSays(start: Start, timezone: string, rule: string, slot: Slot)
    requires start.Readable?
    ensures SaidIn(StartEntries(start, timezone, rule), slot) == Committed(start, timezone, rule, slot)
  {
    var es := StartEntries(start, timezone, rule);
    assert es == [] + [es[0]] + [es[1]];
    SaidLast([es[0]], es[1], slot);
    SaidLast([], es[0], slot);
  }

  lemma SaidJoin(a: seq<Entry>, b: seq<Entry>, slot: Slot)
    ensures SaidIn(a + b, slot) == if SaidIn(b, slot).Some? then SaidIn(b, slot) else SaidIn(a, slot)
  {
    if b == [] {
      assert a + b == a;
    } else {
      assert (a + b)[..|a + b| - 1] == a + b[..|b| - 1];
      SaidJoin(a, b[..|b| - 1], slot);
    }
  }

  /** A restored booking has its kind, start, provider and place, and is booked. */
  lemma RestoreExactly(kind: string, start: Start, provider: Option<string>, location: Option<string>, timezone: string,
                       source: string, timestamp: string, slot: Slot)
    requires start.Readable?
    ensures var after := SetAll(map[], RestoreEntries(kind, start, provider, location, timezone), source, timestamp);
      var text := (value: string) => Some(Entry(slot, value, value, 1.0, None));
      Holds(map[], after, slot,
            match slot
            case Purpose => text(kind)
            case Specialty => None
            case Provider => if provider.Some? then text(provider.value) else None
            case Location => if location.Some? then text(location.value) else None
            case Status => text("BOOKED")
            case _ => Committed(start, timezone, "SQLITE_COMMITTED_APPOINTMENT_RESTORED", slot),
            source, timestamp)
  {
    hide SetAll, Reported, Holds;
    var es := RestoreEntries(kind, start, provider, location, timezone);
    SetAllHolds(map[], es, source, timestamp, slot);
    RestoreSays(kind, start, provider, location, timezone, slot);
  }

  lemma RestoreSays(kind: string, start: Start, provider: Option<string>, location: Option<string>, timezone: string, slot: Slot)
    requires start.Readable?
    ensures Distinct(RestoreEntries(kind, start, provider, location, timezone))
    ensures SaidIn(RestoreEntries(kind, start, provider, location, timezone), slot)
            == match slot
               case Purpose => Some(Entry(slot, kind, kind, 1.0, None))
               case Specialty => None
               case Provider => if provider.Some? then Some(Entry(slot, provider.value, provider.value, 1.0, None)) else None
               case Location => if location.Some? then Some(Entry(slot, location.value, location.value, 1.0, None)) else None
               case Status => Some(Entry(slot, "BOOKED", "BOOKED", 1.0, None))
               case _ => Committed(start, timezone, "SQLITE_COMMITTED_APPOINTMENT_RESTORED", slot)
  {
    hide SaidIn;
    var purpose := Entry(Purpose, kind, kind, 1.0, None);
    var starts := StartEntries(start, timezone, "SQLITE_COMMITTED_APPOINTMENT_RESTORED");
    var whose := if provider.Some? then [Entry(Slot.Provider, provider.value, provider.value, 1.0, None)] else [];
    var place := if location.Some? then [Entry(Slot.Location, location.value, location.value, 1.0, None)] else [];
    var booked := Entry(Status, "BOOKED", "BOOKED", 1.0, None);
    SaidJoin([purpose], starts, slot);
    StartSays(start, timezone, "SQLITE_COMMITTED_APPOINTMENT_RESTORED", slot);
    SaidJoin([purpose] + starts, whose, slot);
    SaidJoin([purpose] + starts + whose, place, slot);
    SaidLast([purpose] + starts + whose + place, booked, slot);
    SaidNoneOrOne(purpose, slot);
    if provider.Some? { SaidNoneOrOne(whose[0], slot); }
    if location.Some? { SaidNoneOrOne(place[0], slot); }
    SaidNowhere([], slot);
  }

  lemma SaidNoneOrOne(e: Entry, slot: Slot)
    ensures SaidIn([e], slot) == if e.slot == slot then Some(e) else None
  {
    assert [e][..0] == [];
  }
}
