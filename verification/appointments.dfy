/** Appointment objects that user turns and tools change, one at a time. */
module Appointments {
  import opened Domain

  datatype Slot = Purpose | Specialty | DateSlot | TimeSlot | Location | Provider | Status

  /** Where a date came from. */
  datatype Temporal = Temporal(expression: string, isoDate: string, timezone: string, rule: string, confidence: real)

  /** One value with its provenance. */
  datatype SlotValue = SlotValue(
    value: string, sourceTurn: string, updatedAt: string, confidence: real, raw: string, temporal: Option<Temporal>)

  type Slots = map<Slot, SlotValue>

  function ValueOf(slots: Slots, slot: Slot): Option<string> {
    if slot in slots then Some(slots[slot].value) else None
  }

  /** A cancelled appointment is no longer active. */
  predicate Active(slots: Slots) { ValueOf(slots, Status) != Some("CANCELLED") }

  predicate Booked(slots: Slots) { ValueOf(slots, Status) == Some("BOOKED") }

  /** What somebody is asked to set. */
  datatype Entry = Entry(slot: Slot, value: string, raw: string, confidence: real, temporal: Option<Temporal>)

  predicate Changes(slots: Slots, e: Entry) { ValueOf(slots, e.slot) != Some(e.value) }

  /** Setting a value that is already there changes nothing, not even its provenance. */
  function Set(slots: Slots, e: Entry, sourceTurn: string, timestamp: string): Slots {
    if Changes(slots, e)
    then slots[e.slot := SlotValue(e.value, sourceTurn, timestamp, e.confidence, e.raw, e.temporal)]
    else slots
  }

  function SetAll(slots: Slots, es: seq<Entry>, sourceTurn: string, timestamp: string): Slots {
    if es == [] then slots
    else Set(SetAll(slots, es[..|es| - 1], sourceTurn, timestamp), es[|es| - 1], sourceTurn, timestamp)
  }

  /** The slots whose value differed when it was set. */
  function Reported(slots: Slots, es: seq<Entry>, sourceTurn: string, timestamp: string): seq<Slot> {
    if es == [] then []
    else
      var front := es[..|es| - 1];
      Reported(slots, front, sourceTurn, timestamp)
      + (if Changes(SetAll(slots, front, sourceTurn, timestamp), es[|es| - 1]) then [es[|es| - 1].slot] else [])
  }

  /** Slots that are not reported keep their value and its provenance. */
  lemma {:induction false} UnreportedKeep(slots: Slots, es: seq<Entry>, sourceTurn: string, timestamp: string, slot: Slot)
    requires slot !in Reported(slots, es, sourceTurn, timestamp)
    ensures slot in SetAll(slots, es, sourceTurn, timestamp) <==> slot in slots
    ensures slot in slots ==> SetAll(slots, es, sourceTurn, timestamp)[slot] == slots[slot]
  {
    if es != [] { UnreportedKeep(slots, es[..|es| - 1], sourceTurn, timestamp, slot); }
  }

  /** And reported ones hold what was asked for, from this turn. */
  lemma {:induction false} LastEntryHolds(slots: Slots, es: seq<Entry>, sourceTurn: string, timestamp: string, k: nat)
    requires k < |es| && forall i | k < i < |es| :: es[i].slot != es[k].slot
    ensures ValueOf(SetAll(slots, es, sourceTurn, timestamp), es[k].slot) == Some(es[k].value)
  {
    if k < |es| - 1 { LastEntryHolds(slots, es[..|es| - 1], sourceTurn, timestamp, k); }
  }

  // ----- the status a user turn derives -----

  function DeriveStatus(slots: Slots, cancellation: bool): string {
    var current := ValueOf(slots, Status);
    if cancellation then if current == Some("BOOKED") then "TOOL_PENDING" else "CANCELLED"
    else if current in {Some("BOOKED"), Some("CANCELLED"), Some("TOOL_PENDING")} then current.value
    else if DateSlot in slots && TimeSlot in slots then "READY_TO_BOOK"
    else if Purpose in slots || DateSlot in slots || TimeSlot in slots then "COLLECTING_DETAILS"
    else "PROPOSED"
  }

  function StatusEntry(slots: Slots, cancellation: bool): Entry {
    var status := DeriveStatus(slots, cancellation);
    Entry(Status, status,
          if status == "CANCELLED" then "local_appointment_request_cancelled" else "controller_derived_no_external_action",
          1.0, None)
  }

  /** Everything a user turn does to the slots of its appointment. */
  function AfterTurn(slots: Slots, es: seq<Entry>, cancellation: bool, sourceTurn: string, timestamp: string): Slots {
    var set1 := SetAll(slots, es, sourceTurn, timestamp);
    Set(set1, StatusEntry(set1, cancellation), sourceTurn, timestamp)
  }

  ghost predicate NoStatus(es: seq<Entry>) { forall e | e in es :: e.slot != Status }

  lemma {:induction false} StatusUntouched(slots: Slots, es: seq<Entry>, sourceTurn: string, timestamp: string)
    requires NoStatus(es)
    ensures ValueOf(SetAll(slots, es, sourceTurn, timestamp), Status) == ValueOf(slots, Status)
    ensures Status in slots ==> SetAll(slots, es, sourceTurn, timestamp)[Status] == slots[Status]
  {
    if es != [] {
      assert NoStatus(es[..|es| - 1]) by { assert forall e | e in es[..|es| - 1] :: e in es; }
      StatusUntouched(slots, es[..|es| - 1], sourceTurn, timestamp);
      assert es[|es| - 1] in es;
    }
  }

  /**
   * A user turn never books: booked afterwards means booked before and not cancelled now; and a
   * cancellation takes effect at once exactly when the appointment is not booked.
   */
  lemma UserTurnNeverBooks(slots: Slots, es: seq<Entry>, cancellation: bool, sourceTurn: string, timestamp: string)
    requires NoStatus(es)
    ensures var after := AfterTurn(slots, es, cancellation, sourceTurn, timestamp);
      && (Booked(after) <==> Booked(slots) && !cancellation)
      && (cancellation ==>
            (ValueOf(after, Status) == Some("CANCELLED") <==> !Booked(slots))
            && (ValueOf(after, Status) == Some("TOOL_PENDING") <==> Booked(slots)))
      && (!cancellation ==> (ValueOf(after, Status) == Some("CANCELLED") <==> !Active(slots)))
  {
    StatusUntouched(slots, es, sourceTurn, timestamp);
  }

  /** So a second cancellation, before any tool answered the first, cancels a booking locally. */
  lemma CancelledTwice(slots: Slots, es: seq<Entry>, fs: seq<Entry>, sourceTurn: string, timestamp: string)
    requires NoStatus(es) && NoStatus(fs) && Booked(slots)
    ensures var once := AfterTurn(slots, es, true, sourceTurn, timestamp);
      var twice := AfterTurn(once, fs, true, sourceTurn, timestamp);
      ValueOf(once, Status) == Some("TOOL_PENDING") && ValueOf(twice, Status) == Some("CANCELLED")
  {
    UserTurnNeverBooks(slots, es, true, sourceTurn, timestamp);
    UserTurnNeverBooks(AfterTurn(slots, es, true, sourceTurn, timestamp), fs, true, sourceTurn, timestamp);
  }

  // ----- what a turn says -----

  datatype Reference = Reference(purpose: string, specialty: Option<string>, raw: string)

  /**
   * A user turn after extraction. `dates` is the temporal resolver for this text: it may depend on
   * the date already known, and it may raise.
   */
  datatype Turn = Turn(
    blank: bool,
    source: string,
    timestamp: string,
    references: seq<Reference>,
    aboutAppointment: bool,
    availabilityQuery: bool,
    overview: bool,
    contextualOverview: bool,
    actionMentions: nat,
    ordinalFirst: Option<bool>,
    newAppointment: bool,
    otherReference: bool,
    pronoun: bool,
    confirmation: bool,
    negated: bool,
    cancellation: bool,
    clarification: Result<bool, string>,
    dates: Option<string> -> Result<Option<Temporal>, string>,
    time: Option<Entry>,
    genericPurpose: Option<string>,
    location: Option<Entry>,
    provider: Option<Entry>)
  {
    predicate Valid() {
      && (time.Some? ==> time.value.slot == TimeSlot)
      && (location.Some? ==> location.value.slot == Location)
      && (provider.Some? ==> provider.value.slot == Provider)
    }

    /** A date that needs a question; looking for one may raise, like resolving it. */
    predicate UnclearDate() { clarification.Ok? && clarification.value }

    /** The entries for the resolved appointment, in the order they are set. */
    function Entries(create: Option<Reference>, date: Option<Temporal>): (es: seq<Entry>)
      requires Valid()
      ensures NoStatus(es)
    {
      var selected := if create.Some? then create
                      else if references != [] then Some(references[|references| - 1]) else None;
      var named := selected.Some? && selected.value.purpose != "Termin";
      (if date.Some?
       then [Entry(DateSlot, date.value.isoDate, date.value.expression, date.value.confidence, date)] else [])
      + (if time.Some? then [time.value.(temporal := None)] else [])
      + (if named then [Entry(Purpose, selected.value.purpose, selected.value.raw, 0.99, None)]
         else if genericPurpose.Some? then [Entry(Purpose, genericPurpose.value, genericPurpose.value, 0.91, None)] else [])
      + (if named && selected.value.specialty.Some?
         then [Entry(Specialty, selected.value.specialty.value, selected.value.raw, 0.99, None)] else [])
      + (if location.Some? then [location.value.(temporal := None)] else [])
      + (if provider.Some? then [provider.value.(temporal := None)] else [])
    }
  }

  /** What a turn about one appointment reports: the changed slots, the derived status last. */
  function TurnReports(slots: Slots, es: seq<Entry>, t: Turn): seq<Slot> {
    var set1 := SetAll(slots, es, t.source, t.timestamp);
    Reported(slots, es, t.source, t.timestamp)
    + (if Changes(set1, StatusEntry(set1, t.cancellation)) then [Status] else [])
  }

  /** The resolver raises once more for the date of the appointment itself. */
  predicate Unresolvable(before: Slots, t: Turn) { t.dates(ValueOf(before, DateSlot)).Err? }

  /** The entries a turn makes for an appointment with these slots. */
  function Said(before: Slots, create: Option<Reference>, t: Turn): seq<Entry>
    requires t.Valid() && !Unresolvable(before, t)
  {
    t.Entries(create, t.dates(ValueOf(before, DateSlot)).value)
  }

  /** What a turn about appointment `n` does to its slots, and what it tells. */
  ghost predicate Written(before: Slots, after: Slots, n: nat, create: Option<Reference>, t: Turn, delta: Delta)
    requires t.Valid()
  {
    if Unresolvable(before, t) then delta.Raised? && after == before
    else
      && after == AfterTurn(before, Said(before, create, t), t.cancellation, t.source, t.timestamp)
      && delta == Delta(Some(n), TurnReports(before, Said(before, create, t), t), create.Some?, t.UnclearDate())
  }

  /** What is not reported keeps value and provenance, and a turn books nothing. */
  lemma WrittenKeeps(before: Slots, after: Slots, n: nat, create: Option<Reference>, t: Turn, delta: Delta)
    requires t.Valid() && Written(before, after, n, create, t, delta)
    ensures Booked(after) ==> Booked(before)
    ensures forall s: Slot | delta.Raised? || s !in delta.updated ::
              (s in after <==> s in before) && (s in after ==> after[s] == before[s])
  {
    hide Turn.Entries;
    if !Unresolvable(before, t) {
      var es := Said(before, create, t);
      UserTurnNeverBooks(before, es, t.cancellation, t.source, t.timestamp);
      forall s: Slot | s !in delta.updated
        ensures (s in after <==> s in before) && (s in after ==> after[s] == before[s])
      {
        UnreportedKeep(before, es, t.source, t.timestamp, s);
      }
    }
  }

  /** What may be asked back: an appointment or a purpose. */
  datatype Choice = Of(number: nat) | Named(purpose: string)

  datatype Resolution = Resolution(number: Option<nat>, options: seq<Choice>, create: Option<Reference>)

  datatype Delta =
    | Raised
    | Delta(number: Option<nat>, updated: seq<Slot>, created: bool, clarify: bool)

  /** Appends what is not there yet. */
  function Merge(a: seq<nat>, b: seq<nat>): (r: seq<nat>)
    ensures forall k :: k in r <==> k in a || k in b
  {
    if b == [] then a
    else
      var front := Merge(a, b[..|b| - 1]);
      var last := b[|b| - 1];
      assert forall k :: k in b <==> k in b[..|b| - 1] || k == last;
      if last in front then front else front + [last]
  }

  function Without(ids: seq<nat>, id: Option<nat>): (r: seq<nat>)
    ensures forall k :: k in r <==> k in ids && Some(k) != id
  {
    if ids == [] then []
    else
      var last := ids[|ids| - 1];
      assert forall k :: k in ids <==> k in ids[..|ids| - 1] || k == last;
      Without(ids[..|ids| - 1], id) + (if Some(last) == id then [] else [last])
  }

  function Choices(ids: seq<nat>): (cs: seq<Choice>)
    ensures |cs| == |ids|
  {
    if ids == [] then [] else Choices(ids[..|ids| - 1]) + [Of(ids[|ids| - 1])]
  }

  /** The purposes mentioned, each once. */
  function Purposes(rs: seq<Reference>): seq<string> {
    if rs == [] then []
    else
      var front := Purposes(rs[..|rs| - 1]);
      if rs[|rs| - 1].purpose in front then front else front + [rs[|rs| - 1].purpose]
  }

  function PurposeChoices(ps: seq<string>): seq<Choice> {
    if ps == [] then [] else PurposeChoices(ps[..|ps| - 1]) + [Named(ps[|ps| - 1])]
  }

  const Unresolved := Resolution(None, [], None)

  function Found(number: nat): Resolution { Resolution(Some(number), [], None) }

  function Ask(options: seq<Choice>): Resolution { Resolution(None, options, None) }

  function New(r: Reference): Resolution { Resolution(None, [], Some(r)) }

  const Generic := Reference("Termin", None, "Termin")

  // ----- what a tool reports -----

  datatype Action = Search | Book | Reschedule | Cancel

  /** A committed start as the database wrote it; it may be unreadable. */
  datatype Start = Readable(isoDate: string, time: string, raw: string) | Unreadable

  function ToolStatus(action: Action, success: bool, preserve: bool): string {
    if !success then if preserve then "BOOKED" else "FAILED"
    else match action
      case Search => "AVAILABLE"
      case Book => "BOOKED"
      case Reschedule => "BOOKED"
      case Cancel => "CANCELLED"
  }

  /** Only a tool confirms an external action; a preserved booking stays confirmed. */
  predicate Confirms(action: Action, success: bool, preserve: bool) { (success && !action.Search?) || preserve }

  /** The start of a committed booking, as date and time entries. */
  function StartEntries(start: Start, timezone: string, rule: string): (es: seq<Entry>)
    requires start.Readable?
    ensures NoStatus(es)
  {
    [Entry(DateSlot, start.isoDate, start.raw, 1.0, Some(Temporal(start.raw, start.isoDate, timezone, rule, 1.0))),
     Entry(TimeSlot, start.time, start.raw, 1.0, None)]
  }

  function ToolEntries(action: Action, success: bool, preserve: bool, start: Option<Start>, timezone: string): (es: seq<Entry>)
    requires start.Some? ==> start.value.Readable?
  {
    (if (success || preserve) && action in {Book, Reschedule} && start.Some?
     then StartEntries(start.value, timezone, "SQLITE_COMMITTED_AVAILABLE_SLOT") else [])
    + [Entry(Status, ToolStatus(action, success, preserve), ToolRaw(action, success), 1.0, None)]
  }

  function ToolRaw(action: Action, success: bool): string {
    "tool_" + (match action
               case Search => "search"
               case Book => "book"
               case Reschedule => "reschedule"
               case Cancel => "cancel")
    + (if success then "_success" else "_failed")
  }

  /** A committed start is read exactly when the report books or reschedules; an unreadable one raises then. */
  predicate StartRaises(action: Action, success: bool, preserve: bool, start: Option<Start>) {
    (success || preserve) && action in {Book, Reschedule} && start.Some? && start.value.Unreadable?
  }

  function ReadableOnly(start: Option<Start>): (r: Option<Start>)
    ensures r.Some? ==> r.value.Readable?
  {
    if start.Some? && start.value.Readable? then start else None
  }

  function RestoreEntries(kind: string, start: Start, provider: Option<string>, location: Option<string>, timezone: string)
    : (es: seq<Entry>)
    requires start.Readable?
  {
    [Entry(Purpose, kind, kind, 1.0, None)]
    + StartEntries(start, timezone, "SQLITE_COMMITTED_APPOINTMENT_RESTORED")
    + (if provider.Some? then [Entry(Provider, provider.value, provider.value, 1.0, None)] else [])
    + (if location.Some? then [Entry(Location, location.value, location.value, 1.0, None)] else [])
    + [Entry(Status, "BOOKED", "BOOKED", 1.0, None)]
  }

  /** A tool report leaves its own status behind, and whatever it books is confirmed. */
  lemma ToolReportHolds(slots: Slots, action: Action, success: bool, preserve: bool, start: Option<Start>,
                        timezone: string, sourceTurn: string, timestamp: string)
    requires start.Some? ==> start.value.Readable?
    ensures var after := SetAll(slots, ToolEntries(action, success, preserve, start, timezone), sourceTurn, timestamp);
      && ValueOf(after, Status) == Some(ToolStatus(action, success, preserve))
      && (Booked(after) ==> Confirms(action, success, preserve))
      && (Booked(after) <==> if success then action in {Book, Reschedule} else preserve)
  {
    var es := ToolEntries(action, success, preserve, start, timezone);
    LastEntryHolds(slots, es, sourceTurn, timestamp, |es| - 1);
  }

  lemma RestoreHolds(kind: string, start: Start, provider: Option<string>, location: Option<string>, timezone: string,
                     sourceTurn: string, timestamp: string)
    requires start.Readable?
    ensures Booked(SetAll(map[], RestoreEntries(kind, start, provider, location, timezone), sourceTurn, timestamp))
  {
    var es := RestoreEntries(kind, start, provider, location, timezone);
    LastEntryHolds(map[], es, sourceTurn, timestamp, |es| - 1);
  }
}
