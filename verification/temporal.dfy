/** German date expressions, already read into tokens, resolved against a reference date. */
module Temporal {
  import opened Domain
  import opened Calendar

  /** What surrounds the last weekday spoken; counts are the numbers of `in N Wochen` and where they stand. */
  datatype Window = Window(
    weekAfterNext: bool,
    nextWeek: bool,
    weekCounts: seq<(int, nat)>,
    weekdayAt: int,
    thisWeek: bool,
    afterNext: bool)

  /** A date spoken as such, and where. */
  datatype Spoken = Spoken(at: int, day: int, month: int, year: Option<int>)

  /** What was found in a text: day counts of relative days and weekdays stand with their positions, in order. */
  datatype Utterance = Utterance(
    blank: bool,
    explicit: seq<Spoken>,
    ambiguous: bool,
    dayOffset: Option<nat>,
    relativeDays: seq<(int, int)>,
    weekdays: seq<(int, int)>,
    window: Window)
  {
    predicate Valid() {
      && (forall i | 0 <= i < |weekdays| :: 0 <= weekdays[i].1 <= 6)
      && (forall i | 0 <= i < |relativeDays| :: relativeDays[i].1 in {1, 2})
      && (forall i, j | 0 <= i < j < |weekdays| :: weekdays[i].0 < weekdays[j].0)
      && (forall i, j | 0 <= i < j < |relativeDays| :: relativeDays[i].0 < relativeDays[j].0)
    }
  }

  datatype Resolution = Resolved(date: Date) | NoDate | OutOfRange | WeekdayContradicted

  // ----- dates without a year -----

  /** A date that this reference has not passed, on the given day of the year. */
  predicate Upcoming(d: Date, month: int, day: int, reference: Date) {
    Representable(d) && d.month == month && d.day == day && !Less(d, reference)
  }

  predicate Earliest(d: Date, month: int, day: int, reference: Date) {
    Upcoming(d, month, day, reference)
    && forall y | 1 <= y < d.year :: !Upcoming(Date(y, month, day), month, day, reference)
  }

  /** Among any eight years that follow a year there is a leap year. */
  lemma LeapWithinEight(y: int)
    returns (leap: int)
    ensures y < leap <= y + 8 && Leap(leap)
  {
    var n := NextFour(y);
    leap := if Leap(n) then n else n + 4;
    if !Leap(n) { AfterCentury(n); }
  }

  /** The next multiple of four. */
  function NextFour(y: int): (n: int)
    ensures y < n <= y + 4 && n % 4 == 0
  {
    y + 4 - y % 4
  }

  lemma AfterCentury(n: int)
    requires n % 100 == 0
    ensures (n + 4) % 4 == 0 && (n + 4) % 100 == 4
  {
    var century := n / 100;
    assert n == 100 * century;
    FourDivides(25 * century + 1);
    FourthYear(century);
  }

  lemma FourDivides(m: int)
    ensures (4 * m) % 4 == 0
  {
  }

  lemma FourthYear(century: int)
    ensures (100 * century + 4) % 100 == 4
  {
  }

  /** Every other day of the year recurs after a year at most. */
  lemma RecursYearly(month: int, day: int, y: int, z: int)
    requires Valid(Date(y, month, day)) && z >= 1 && !(month == 2 && day == 29)
    ensures Valid(Date(z, month, day))
  {
  }

  /** If such a date is upcoming at all, one is upcoming within nine years. */
  lemma WithinNine(month: int, day: int, reference: Date, later: Date) returns (d: Date)
    requires Representable(reference) && Upcoming(later, month, day, reference)
    ensures Upcoming(d, month, day, reference) && reference.year <= d.year <= reference.year + 8
  {
    if later.year <= reference.year + 8 {
      d := later;
    } else if month == 2 && day == 29 {
      var leap := LeapWithinEight(reference.year);
      d := Date(leap, month, day);
    } else {
      RecursYearly(month, day, later.year, reference.year + 1);
      d := Date(reference.year + 1, month, day);
    }
  }

  /**
   * The next occurrence of a day of the year: the earliest representable date that is not past, and
   * none exactly when there is no such date before the year 10000.
   */
  method NextValidAnnualDate(month: int, day: int, reference: Date) returns (found: Option<Date>)
    requires Representable(reference)
    ensures found.Some? ==> Earliest(found.value, month, day, reference)
    ensures found.None? <==> forall d: Date :: !Upcoming(d, month, day, reference)
  {
    var year := reference.year;
    while year < reference.year + 9
      invariant reference.year <= year <= reference.year + 9
      invariant forall y | 1 <= y < year :: !Upcoming(Date(y, month, day), month, day, reference)
    {
      var candidate := Date(year, month, day);
      if Representable(candidate) && !Less(candidate, reference) {
        return Some(candidate);
      }
      year := year + 1;
    }
    found := None;
    forall d: Date ensures !Upcoming(d, month, day, reference) {
      SomeWithinNine(month, day, reference, d);
    }
  }

  lemma SomeWithinNine(month: int, day: int, reference: Date, later: Date)
    requires Representable(reference)
    ensures Upcoming(later, month, day, reference) ==>
              exists y :: reference.year <= y < reference.year + 9 && Upcoming(Date(y, month, day), month, day, reference)
  {
    if Upcoming(later, month, day, reference) {
      var d := WithinNine(month, day, reference, later);
      assert d == Date(d.year, month, day);
    }
  }

  /** Up to the reference year 9991 every day that some year has is found. */
  lemma AlwaysFound(month: int, day: int, reference: Date, some: int)
    returns (d: Date)
    requires Representable(reference) && reference.year <= 9991 && some >= 1 && Valid(Date(some, month, day))
    ensures Upcoming(d, month, day, reference)
  {
    if month == 2 && day == 29 {
      var leap := LeapWithinEight(reference.year);
      d := Date(leap, month, day);
    } else {
      RecursYearly(month, day, some, reference.year + 1);
      d := Date(reference.year + 1, month, day);
    }
  }

  /** Nine years are needed: across the year 1900 the next leap day is in the ninth. */
  lemma NineAreNeeded()
    ensures var reference := Date(1896, 3, 1);
      && Representable(reference)
      && (forall y | 1896 <= y < 1904 :: !Upcoming(Date(y, 2, 29), 2, 29, reference))
      && Upcoming(Date(1904, 2, 29), 2, 29, reference)
  {
    var reference := Date(1896, 3, 1);
    forall y | 1896 <= y < 1904 ensures !Upcoming(Date(y, 2, 29), 2, 29, reference) {
      assert Leap(y) ==> y == 1896;
    }
  }

  // ----- weekdays -----

  function Distance(a: int, b: int): nat { if a >= b then a - b else b - a }

  /** The count that stands nearest to the weekday; among equally near ones, the first. */
  function Nearest(counts: seq<(int, nat)>, at: int): (k: Option<nat>)
    ensures k.Some? <==> counts != []
    ensures k.Some? ==> k.value < |counts|
  {
    if counts == [] then None
    else
      var last := |counts| - 1;
      var k := Nearest(counts[..last], at);
      if k.None? || Distance(counts[last].0, at) < Distance(counts[k.value].0, at) then Some(last) else k
  }

  /** The number of weeks, unless there is none or it is zero. */
  function WeekCount(w: Window): Option<nat> {
    var k := Nearest(w.weekCounts, w.weekdayAt);
    if k.None? || w.weekCounts[k.value].1 < 1 then None else Some(w.weekCounts[k.value].1)
  }

  method NearestWeekCount(w: Window) returns (count: Option<nat>)
    ensures count == WeekCount(w)
  {
    var counts := w.weekCounts;
    if counts == [] { return None; }
    var best := 0;
    for i := 1 to |counts|
      invariant best < i && Nearest(counts[..i], w.weekdayAt) == Some(best)
    {
      assert counts[..i + 1][..i] == counts[..i];
      if Distance(counts[i].0, w.weekdayAt) < Distance(counts[best].0, w.weekdayAt) { best := i; }
    }
    assert counts[..|counts|] == counts;
    count := if counts[best].1 < 1 then None else Some(counts[best].1);
  }

  /** The count nearest to the weekday, the first of them, counts unless it is zero. */
  lemma WeekCountExactly(w: Window, k: nat)
    requires k < |w.weekCounts|
    requires forall i | 0 <= i < |w.weekCounts| ::
               var d, d' := w.weekCounts[k].0 - w.weekdayAt, w.weekCounts[i].0 - w.weekdayAt;
               var near, near' := if d < 0 then -d else d, if d' < 0 then -d' else d';
               near <= near' && (i < k ==> near < near')
    ensures WeekCount(w) == if w.weekCounts[k].1 == 0 then None else Some(w.weekCounts[k].1)
  {
    NearestIsNearest(w.weekCounts, w.weekdayAt);
    var n := Nearest(w.weekCounts, w.weekdayAt).value;
    assert Distance(w.weekCounts[n].0, w.weekdayAt) <= Distance(w.weekCounts[k].0, w.weekdayAt);
  }

  lemma {:induction false} NearestIsNearest(counts: seq<(int, nat)>, at: int)
    requires counts != []
    ensures var k := Nearest(counts, at).value;
      && (forall i | 0 <= i < |counts| :: Distance(counts[k].0, at) <= Distance(counts[i].0, at))
      && (forall i | 0 <= i < k :: Distance(counts[k].0, at) < Distance(counts[i].0, at))
  {
    if |counts| > 1 {
      var front := counts[..|counts| - 1];
      NearestIsNearest(front, at);
      assert forall i | 0 <= i < |front| :: front[i] == counts[i];
    }
  }

  /** How many days after the reference a weekday rule lands. */
  function Offset(w: Window, today: int, target: int): int
    requires 0 <= today <= 6 && 0 <= target <= 6
  {
    if w.weekAfterNext then 14 + target - today
    else if w.nextWeek then 7 + target - today
    else if WeekCount(w).Some? then 7 * WeekCount(w).value + target - today
    else if w.thisWeek then if target < today then 7 + target - today else target - today
    else
      var ahead := (target - today) % 7;
      var next := if ahead == 0 then 7 else ahead;
      if w.afterNext then next + 7 else next
  }

  /** A local date reassigned by branch; every addition may leave the representable dates. */
  method ResolveWeekday(w: Window, reference: Date, target: int) returns (resolved: Option<Date>)
    requires Representable(reference) && 0 <= target <= 6
    ensures resolved == Add(reference, Offset(w, Weekday(reference), target))
  {
    hide DayNumber, FromNumber, Valid;
    var today := Weekday(reference);
    MondayExists(reference);
    var monday := Add(reference, -today).value;
    if w.weekAfterNext {
      resolved := Add(monday, 14 + target);
    } else if w.nextWeek {
      resolved := Add(monday, 7 + target);
    } else {
      var inWeeks := NearestWeekCount(w);
      if inWeeks.Some? {
        resolved := Add(monday, 7 * inWeeks.value + target);
      } else if w.thisWeek {
        resolved := Add(monday, target);
        if resolved.Some? && Less(resolved.value, reference) {
          PastThisWeek(reference, monday, target);
          AddTwice(reference, target - today, 7);
          resolved := Add(resolved.value, 7);
        } else {
          NotPastThisWeek(reference, monday, target);
        }
      } else {
        var ahead := (target - today) % 7;
        if ahead == 0 { ahead := 7; }
        resolved := Add(reference, ahead);
        if w.afterNext && resolved.Some? {
          AddTwice(reference, ahead, 7);
          resolved := Add(resolved.value, 7);
        } else if w.afterNext {
          FartherOut(reference, ahead, 7);
        }
      }
    }
    MondayAdds(reference, monday, today);
  }

  /** The Monday of a week always exists: the calendar begins on one. */
  lemma MondayExists(reference: Date)
    requires Representable(reference)
    ensures Add(reference, -Weekday(reference)).Some?
    ensures DayNumber(Add(reference, -Weekday(reference)).value) == DayNumber(reference) - Weekday(reference)
  {
    hide DayNumber, FromNumber;
    NumberBounds(reference);
    AddExactly(reference, -Weekday(reference));
    BackToMonday(DayNumber(reference));
  }

  lemma BackToMonday(n: int)
    requires n >= 1
    ensures 1 <= n - (n + 6) % 7 <= n
  {
  }

  lemma NumberBounds(d: Date)
    requires Representable(d)
    ensures 1 <= DayNumber(d) <= LAST
  {
    hide DayNumber, FromNumber;
    Bijection(d, 1);
    LastDay();
    NumbersOrder(Date(9999, 12, 31), d);
  }

  lemma MondayAdds(reference: Date, monday: Date, today: int)
    requires Valid(reference) && Valid(monday) && DayNumber(monday) == DayNumber(reference) - today
    ensures forall k :: Add(monday, k) == Add(reference, k - today)
  {
  }

  lemma AddTwice(d: Date, a: int, b: int)
    requires Representable(d) && Add(d, a).Some?
    ensures Add(Add(d, a).value, b) == Add(d, a + b)
  {
    AddExactly(d, a);
  }

  lemma FartherOut(d: Date, a: nat, b: nat)
    requires Representable(d) && Add(d, a).None?
    ensures Add(d, a + b).None?
  {
    NumberBounds(d);
  }

  lemma PastThisWeek(reference: Date, monday: Date, target: int)
    requires Representable(reference) && Valid(monday) && 0 <= target <= 6
    requires DayNumber(monday) == DayNumber(reference) - Weekday(reference)
    requires Add(monday, target).Some? && Less(Add(monday, target).value, reference)
    ensures target < Weekday(reference) && Add(monday, target) == Add(reference, target - Weekday(reference))
  {
    hide DayNumber, FromNumber, Less;
    AddExactly(monday, target);
    NumbersOrder(Add(monday, target).value, reference);
  }

  lemma NotPastThisWeek(reference: Date, monday: Date, target: int)
    requires Representable(reference) && Valid(monday) && 0 <= target <= 6
    requires DayNumber(monday) == DayNumber(reference) - Weekday(reference)
    requires Add(monday, target).Some? ==> !Less(Add(monday, target).value, reference)
    ensures target >= Weekday(reference)
  {
    hide DayNumber, FromNumber, Less;
    NumberBounds(reference);
    if target < Weekday(reference) {
      AddExactly(monday, target);
      NumberBounds(Add(monday, target).value);
      NumbersOrder(Add(monday, target).value, reference);
    }
  }

  /** The weekday of a date some days away. */
  lemma WeekdayAfter(d: Date, days: int)
    requires Valid(d) && Add(d, days).Some?
    ensures Weekday(Add(d, days).value) == (Weekday(d) + days) % 7
  {
    hide DayNumber, FromNumber;
    AddExactly(d, days);
    var n := DayNumber(d);
    assert (n + days + 6) % 7 == ((n + 6) % 7 + days) % 7;
  }

  /**
   * Every weekday rule lands on the weekday spoken and never in the past: 1 to 7 days ahead for the
   * plain one, 8 to 14 after that for the one after next, 0 to 6 for this week's, and whole weeks
   * plus the difference within the week for the counted ones.
   */
  lemma WeekdayRules(w: Window, reference: Date, target: int)
    requires Representable(reference) && 0 <= target <= 6
    ensures var today := Weekday(reference);
      var offset := Offset(w, today, target);
      && offset >= 0
      && (Add(reference, offset).Some? ==>
            && Weekday(Add(reference, offset).value) == target
            && !Less(Add(reference, offset).value, reference))
      && (Add(reference, offset).None? <==> DayNumber(reference) + offset > LAST)
      && (w.weekAfterNext ==> offset == 14 + (target - today))
      && (!w.weekAfterNext && w.nextWeek ==> offset == 7 + (target - today))
      && (!w.weekAfterNext && !w.nextWeek && WeekCount(w).Some? ==> offset == 7 * WeekCount(w).value + (target - today))
      && (!w.weekAfterNext && !w.nextWeek && WeekCount(w).None? ==>
            if w.thisWeek then 0 <= offset <= 6 else if w.afterNext then 8 <= offset <= 14 else 1 <= offset <= 7)
  {
    hide DayNumber, FromNumber;
    var today := Weekday(reference);
    var offset := Offset(w, today, target);
    NumberBounds(reference);
    assert (today + offset) % 7 == target by { OffsetWeekday(w, today, target); }
    if Add(reference, offset).Some? {
      WeekdayAfter(reference, offset);
      AddExactly(reference, offset);
      NumbersOrder(Add(reference, offset).value, reference);
    }
  }

  lemma OffsetWeekday(w: Window, today: int, target: int)
    requires 0 <= today <= 6 && 0 <= target <= 6
    ensures (today + Offset(w, today, target)) % 7 == target && Offset(w, today, target) >= 0
  {
    if WeekCount(w).Some? { Sevens(WeekCount(w).value, target); }
    var ahead := (target - today) % 7;
    assert (today + ahead) % 7 == target;
  }

  lemma Sevens(n: nat, r: int)
    requires 0 <= r <= 6
    ensures (7 * n + r) % 7 == r
  {
  }

  /** The plain rule finds the very next such weekday, and this week's rule the first not past. */
  lemma NextIsNearest(w: Window, reference: Date, target: int, days: int)
    requires Representable(reference) && 0 <= target <= 6
    requires !w.weekAfterNext && !w.nextWeek && WeekCount(w).None? && !w.afterNext
    requires Add(reference, days).Some? && Weekday(Add(reference, days).value) == target
    requires if w.thisWeek then days >= 0 else days >= 1
    ensures Offset(w, Weekday(reference), target) <= days
  {
    hide DayNumber, FromNumber;
    WeekdayAfter(reference, days);
    var today := Weekday(reference);
    OffsetWeekday(w, today, target);
    SameResidue(today, Offset(w, today, target), days);
  }

  lemma SameResidue(today: int, a: int, b: int)
    requires (today + a) % 7 == (today + b) % 7
    ensures (a - b) % 7 == 0
  {
  }

  // ----- a whole utterance -----

  /** A year of two digits is one of this century. */
  function YearOf(year: int): (y: int)
    ensures 0 <= year < 100 ==> 2000 <= y < 2100 && y % 100 == year
    ensures year >= 100 ==> y == year
  {
    if year < 100 then year + 2000 else year
  }

  /** The date spoken last; among those at one position, the first. */
  function Latest(dates: seq<Spoken>): (k: nat)
    requires dates != []
    ensures k < |dates|
    ensures forall i | 0 <= i < |dates| :: dates[i].at <= dates[k].at && (i < k ==> dates[i].at < dates[k].at)
  {
    if |dates| == 1 then 0
    else
      var last := |dates| - 1;
      var k := Latest(dates[..last]);
      if dates[last].at > dates[k].at then last else k
  }

  function Last<T>(values: seq<T>): T
    requires values != []
  {
    values[|values| - 1]
  }

  /** No expression stands behind the position. */
  predicate NoneAfter(spoken: seq<(int, int)>, at: int) { forall i | 0 <= i < |spoken| :: spoken[i].0 <= at }

  predicate AllBefore(spoken: seq<(int, int)>, at: int) { forall i | 0 <= i < |spoken| :: spoken[i].0 < at }

  lemma LastSpoken(spoken: seq<(int, int)>)
    requires forall i, j | 0 <= i < j < |spoken| :: spoken[i].0 < spoken[j].0
    ensures forall k | 0 <= k < |spoken| && NoneAfter(spoken, spoken[k].0) :: k == |spoken| - 1
    ensures forall at :: NoneAfter(spoken, at) <==> spoken == [] || Last(spoken).0 <= at
    ensures forall at :: AllBefore(spoken, at) <==> spoken == [] || Last(spoken).0 < at
  {
    var n := |spoken| - 1;
    assert forall i | 0 <= i < |spoken| :: spoken[i].0 <= spoken[n].0;
    forall at ensures NoneAfter(spoken, at) <==> spoken == [] || spoken[n].0 <= at {
      if NoneAfter(spoken, at) && spoken != [] { assert spoken[n].0 <= at; }
    }
    forall at ensures AllBefore(spoken, at) <==> spoken == [] || spoken[n].0 < at {
      if AllBefore(spoken, at) && spoken != [] { assert spoken[n].0 < at; }
    }
  }

  /** Which explicit date an utterance names, as a relation. */
  ghost predicate Names(u: Utterance, reference: Date, d: Date) {
    && u.explicit != []
    && var spoken := u.explicit[Latest(u.explicit)];
       if spoken.year.Some? then d == Date(YearOf(spoken.year.value), spoken.month, spoken.day) && Representable(d)
       else Earliest(d, spoken.month, spoken.day, reference)
  }

  /** The explicit date of an utterance, if it names one that exists. */
  method ResolveExplicit(u: Utterance, reference: Date) returns (resolved: Option<Date>)
    requires Representable(reference)
    ensures resolved.Some? ==> Representable(resolved.value) && Names(u, reference, resolved.value)
    ensures resolved.None? ==> forall d :: !Names(u, reference, d)
  {
    if u.explicit == [] { return None; }
    var spoken := u.explicit[Latest(u.explicit)];
    if spoken.year.Some? {
      var y := spoken.year.value;
      if y < 100 { y := y + 2000; }
      var d := Date(y, spoken.month, spoken.day);
      return if Representable(d) then Some(d) else None;
    }
    resolved := NextValidAnnualDate(spoken.month, spoken.day, reference);
  }

  function Ranged(d: Option<Date>): Resolution { if d.Some? then Resolved(d.value) else OutOfRange }

  /** The answer is the date of the given number, or there is no such date. */
  predicate Lands(r: Resolution, number: int) {
    if 1 <= number <= LAST then r.Resolved? && Representable(r.date) && DayNumber(r.date) == number else r.OutOfRange?
  }

  lemma AddLands(d: Date, days: int)
    requires Valid(d)
    ensures Lands(Ranged(Add(d, days)), DayNumber(d) + days)
  {
    hide DayNumber, FromNumber;
    AddExactly(d, days);
  }

  /**
   * An explicit date that exists wins, and is refused exactly when the last weekday spoken
   * contradicts it; no other rule ever raises that contradiction. Otherwise an ambiguous weekday
   * gives nothing, days are counted from a date already agreed, and of relative days and weekdays
   * the one spoken last decides.
   */
  method Resolve(u: Utterance, reference: Date, existing: Option<Date>) returns (r: Resolution)
    requires u.Valid() && Representable(reference) && (existing.Some? ==> Representable(existing.value))
    ensures u.blank ==> r == NoDate
    ensures !u.blank && (exists d :: Names(u, reference, d)) ==>
              exists d :: Names(u, reference, d) && r in {Resolved(d), WeekdayContradicted}
                          && (r.Resolved? <==> forall k | 0 <= k < |u.weekdays| && NoneAfter(u.weekdays, u.weekdays[k].0) ::
                                                 Weekday(d) == u.weekdays[k].1)
    ensures !u.blank && (forall d :: !Names(u, reference, d)) ==>
              && !r.WeekdayContradicted?
              && (u.ambiguous ==> r == NoDate)
              && (!u.ambiguous && u.dayOffset.Some? && existing.Some? ==>
                    Lands(r, DayNumber(existing.value) + u.dayOffset.value))
              && (!u.ambiguous && (u.dayOffset.None? || existing.None?) ==>
                    && (u.relativeDays == [] && u.weekdays == [] ==> r == NoDate)
                    && (forall k | 0 <= k < |u.relativeDays| && NoneAfter(u.relativeDays, u.relativeDays[k].0)
                            && AllBefore(u.weekdays, u.relativeDays[k].0) ::
                          Lands(r, DayNumber(reference) + u.relativeDays[k].1))
                    && (forall k | 0 <= k < |u.weekdays| && NoneAfter(u.weekdays, u.weekdays[k].0)
                            && NoneAfter(u.relativeDays, u.weekdays[k].0) ::
                          && Lands(r, DayNumber(reference) + Offset(u.window, Weekday(reference), u.weekdays[k].1))
                          && (r.Resolved? ==> Weekday(r.date) == u.weekdays[k].1 && !Less(r.date, reference))))
  {
    hide DayNumber, FromNumber, Offset, Lands, Names, Add, Less, NoneAfter, AllBefore;
    if u.blank { return NoDate; }
    var explicit := ResolveExplicit(u, reference);
    LastSpoken(u.relativeDays);
    LastSpoken(u.weekdays);
    if explicit.Some? {
      return if u.weekdays != [] && Weekday(explicit.value) != Last(u.weekdays).1 then WeekdayContradicted
             else Resolved(explicit.value);
    }
    if u.ambiguous { return NoDate; }
    if u.dayOffset.Some? && existing.Some? {
      AddLands(existing.value, u.dayOffset.value);
      return Ranged(Add(existing.value, u.dayOffset.value));
    }
    if u.relativeDays != [] && (u.weekdays == [] || Last(u.relativeDays).0 > Last(u.weekdays).0) {
      AddLands(reference, Last(u.relativeDays).1);
      return Ranged(Add(reference, Last(u.relativeDays).1));
    }
    if u.weekdays == [] { return NoDate; }
    var target := Last(u.weekdays).1;
    var resolved := ResolveWeekday(u.window, reference, target);
    WeekdayRules(u.window, reference, target);
    AddLands(reference, Offset(u.window, Weekday(reference), target));
    AddExactly(reference, Offset(u.window, Weekday(reference), target));
    if resolved.None? { return OutOfRange; }
    r := if Weekday(resolved.value) != target then WeekdayContradicted else Resolved(resolved.value);
  }

  /** A tentative date for a question: the next such weekday after the reference. */
  method ClarificationCandidate(u: Utterance, reference: Date, target: int) returns (r: Resolution)
    requires Representable(reference) && 0 <= target <= 6
    ensures r == NoDate <==> u.blank || !u.ambiguous || exists d :: Names(u, reference, d)
    ensures r.Resolved? ==>
              && Representable(r.date) && Weekday(r.date) == target
              && 1 <= DayNumber(r.date) - DayNumber(reference) <= 7
    ensures r.OutOfRange? ==> DayNumber(reference) + 7 > LAST
    ensures !r.WeekdayContradicted?
  {
    hide DayNumber, FromNumber;
    if u.blank { return NoDate; }
    var explicit := ResolveExplicit(u, reference);
    if explicit.Some? { return NoDate; }
    if !u.ambiguous { return NoDate; }
    var ahead := (target - Weekday(reference)) % 7;
    if ahead == 0 { ahead := 7; }
    NumberBounds(reference);
    AddExactly(reference, ahead);
    r := Ranged(Add(reference, ahead));
    if r.Resolved? {
      WeekdayAfter(reference, ahead);
      assert (Weekday(reference) + ahead) % 7 == target;
    }
  }
}
