/** The holidays of one year taken together: eleven distinct weekdays, one per slot of the year,
    and the days on which a holiday lookup by the date's own year misses one. */
module HolidayTable {
  import opened Wrappers
  import opened Gregorian
  import opened Holidays

  /** Day of the year, in a common year, on which slot `i` begins; a leap day shifts slots 3 to 10. */
  function SlotStart(y: int, i: nat): int {
    (if i >= 3 && Leap(y) then 1 else 0)
    + match i
      case 0 => 0
      case 1 => 15
      case 2 => 46
      case 3 => 145
      case 4 => 169
      case 5 => 184
      case 6 => 244
      case 7 => 281
      case 8 => 314
      case 9 => 326
      case _ => 358
  }

  predicate FixedDay(i: nat) {
    i == 0 || i == 4 || i == 5 || i == 8 || i == 10
  }

  /** The statutory date of a holiday that has one. */
  function Statutory(y: int, i: nat): Date
    requires FixedDay(i)
  {
    if i == 0 then Date(y, 1, 1)
    else if i == 4 then Date(y, 6, 19)
    else if i == 5 then Date(y, 7, 4)
    else if i == 8 then Date(y, 11, 11)
    else Date(y, 12, 25)
  }

  predicate InSlot(y: int, i: nat, o: int) {
    DaysBeforeYear(y) + SlotStart(y, i) <= o
    <= DaysBeforeYear(y) + SlotStart(y, i) + if FixedDay(i) then 2 else 6
  }

  lemma FixedSlot(y: int, i: nat)
    requires 1 <= y <= LAST_YEAR && i < 11 && FixedDay(i)
    ensures Entry(y, i).Some? && Proper(Entry(y, i).value)
    ensures Weekday(Entry(y, i).value) < 5 && InSlot(y, i, Ord(Entry(y, i).value))
  {
    hide DaysBeforeYear, Observed, Weekday;
    ObservedNear(Statutory(y, i));
  }

  lemma FloatingSlot(y: int, i: nat)
    requires 1 <= y <= LAST_YEAR && i < 11 && !FixedDay(i)
    ensures Entry(y, i).Some? && Proper(Entry(y, i).value)
    ensures Weekday(Entry(y, i).value) < 5 && InSlot(y, i, Ord(Entry(y, i).value))
    ensures Entry(y, i).value.y == y
  {
    hide DaysBeforeYear, NthWeekday, LastWeekday, Weekday;
    if i == 3 {
      var _ := LastWeekdayExists(y, 5, 0);
    } else {
      var _ := NthWeekdayExists(y, 1, 0, 3);
      var _ := NthWeekdayExists(y, 2, 0, 3);
      var _ := NthWeekdayExists(y, 9, 0, 1);
      var _ := NthWeekdayExists(y, 10, 0, 2);
      var _ := NthWeekdayExists(y, 11, 3, 4);
    }
  }

  /** Every entry exists, is a weekday and lies in its slot. */
  lemma EntrySlot(y: int, i: nat)
    requires 1 <= y <= LAST_YEAR && i < 11
    ensures Entry(y, i).Some? && Proper(Entry(y, i).value)
    ensures Weekday(Entry(y, i).value) < 5 && InSlot(y, i, Ord(Entry(y, i).value))
  {
    hide *;
    if FixedDay(i) {
      FixedSlot(y, i);
    } else {
      FloatingSlot(y, i);
    }
  }

  /** An entry lies in the year it was listed for, except New Year's Day of a year that begins on a
      Saturday, which is observed on 31 December before. */
  lemma EntryYear(y: int, i: nat)
    requires 1 <= y <= LAST_YEAR && i < 11
    ensures Entry(y, i).Some? && Proper(Entry(y, i).value)
    ensures i == 0 && Weekday(Date(y, 1, 1)) == 5 ==> Entry(y, i).value == Date(y - 1, 12, 31)
    ensures Entry(y, i).value.y != y <==> i == 0 && Weekday(Date(y, 1, 1)) == 5
  {
    hide DaysBeforeYear, Entry, Weekday;
    EntrySlot(y, i);
    var t := Entry(y, i).value;
    YearLength(y);
    YearByOrd(t, y, y);
    if i == 0 {
      NewYear(y);
    }
  }

  lemma NewYear(y: int)
    requires 1 <= y <= LAST_YEAR
    ensures Observed(Date(y, 1, 1)).Some? && Proper(Observed(Date(y, 1, 1)).value)
    ensures Weekday(Date(y, 1, 1)) == 5 ==> Observed(Date(y, 1, 1)).value == Date(y - 1, 12, 31)
    ensures Weekday(Date(y, 1, 1)) != 5 ==> Observed(Date(y, 1, 1)).value.y == y
    ensures Entry(y, 0) == Observed(Date(y, 1, 1))
  {
    hide DaysBeforeYear, Observed, Weekday;
    var first := Date(y, 1, 1);
    ObservedNear(first);
    var t := Observed(first).value;
    if Weekday(first) == 5 {
      OrdPositive(t);
      DayOneIsMonday();
      PredProper(first);
      OrdInjective(t, Pred(first));
    } else {
      YearLength(y);
      YearByOrd(t, y, y);
    }
  }

  // ----- which days they are -------------------------------------------------------------------

  /** The day on which `t` is kept off: the Friday before a Saturday, the Monday after a Sunday, `t` itself
      otherwise. */
  predicate ObservedOn(t: Date, s: Date) {
    && Proper(s)
    && Ord(s) == Ord(t) + if Weekday(t) == 5 then -1 else if Weekday(t) == 6 then 1 else 0
  }

  /** A day of the given weekday among days `first` to `first + 6` of the month. */
  predicate WeekdayFrom(y: int, m: int, weekday: int, first: int, s: Date) {
    Proper(s) && s.y == y && s.m == m && Weekday(s) == weekday && first <= s.d <= first + 6
  }

  /** The holidays by what they are: New Year's Day, the third Mondays of January and February, the last
      Monday of May, 19 June, 4 July, the first Monday of September, the second of October, 11 November, the
      fourth Thursday of November, and Christmas Day. */
  predicate HolidayIs(y: int, i: nat, s: Date)
    requires i < 11
  {
    match i
    case 0 => ObservedOn(Date(y, 1, 1), s)
    case 1 => WeekdayFrom(y, 1, 0, 15, s)
    case 2 => WeekdayFrom(y, 2, 0, 15, s)
    case 3 => WeekdayFrom(y, 5, 0, 25, s)
    case 4 => ObservedOn(Date(y, 6, 19), s)
    case 5 => ObservedOn(Date(y, 7, 4), s)
    case 6 => WeekdayFrom(y, 9, 0, 1, s)
    case 7 => WeekdayFrom(y, 10, 0, 8, s)
    case 8 => ObservedOn(Date(y, 11, 11), s)
    case 9 => WeekdayFrom(y, 11, 3, 22, s)
    case _ => ObservedOn(Date(y, 12, 25), s)
  }

  lemma ObservedIff(t: Date, s: Date)
    requires Proper(t) && t.y <= LAST_YEAR && t != Date(LAST_YEAR, 12, 31)
    ensures Observed(t) == Some(s) <==> ObservedOn(t, s)
  {
    hide Ord, Weekday, Observed;
    ObservedNear(t);
    if ObservedOn(t, s) {
      OrdInjective(s, Observed(t).value);
    }
  }

  lemma OncePerWeek(s: Date, t: Date)
    requires Proper(s) && Proper(t) && s.y == t.y && s.m == t.m && Weekday(s) == Weekday(t)
    requires -6 <= s.d - t.d <= 6
    ensures s == t
  {
    hide Ord;
    SameMonth(s, t);
  }

  lemma NthIff(y: int, m: int, weekday: int, n: int, s: Date)
    requires 1 <= y <= LAST_YEAR && 1 <= m <= 12 && 0 <= weekday < 7 && 1 <= n <= 4
    ensures NthWeekday(y, m, weekday, n) == Some(s) <==> WeekdayFrom(y, m, weekday, 7 * n - 6, s)
  {
    hide NthWeekday, Weekday;
    var t := NthWeekdayExists(y, m, weekday, n);
    NthProper(y, m, weekday, n);
    if WeekdayFrom(y, m, weekday, 7 * n - 6, s) {
      OncePerWeek(s, t);
    }
  }

  lemma NthProper(y: int, m: int, weekday: int, n: int)
    requires 1 <= y <= LAST_YEAR && 1 <= m <= 12
    ensures NthWeekday(y, m, weekday, n).Some? ==> Proper(NthWeekday(y, m, weekday, n).value)
  {
    hide Shift;
  }

  lemma LastIff(y: int, s: Date)
    requires 1 <= y <= LAST_YEAR
    ensures LastWeekday(y, 5, 0) == Some(s) <==> WeekdayFrom(y, 5, 0, 25, s)
  {
    hide LastWeekday, Weekday;
    var t := LastWeekdayExists(y, 5, 0);
    if WeekdayFrom(y, 5, 0, 25, s) {
      OncePerWeek(s, t);
    }
  }

  /** Each entry of a year is the day that holiday is. */
  lemma EntryIs(y: int, i: nat, s: Date)
    requires 1 <= y <= LAST_YEAR && i < 11
    ensures Entry(y, i) == Some(s) <==> HolidayIs(y, i, s)
  {
    hide Observed, NthWeekday, LastWeekday, ObservedOn, WeekdayFrom;
    if FixedDay(i) {
      ObservedIff(Statutory(y, i), s);
    } else if i == 3 {
      LastIff(y, s);
    } else {
      NthIff(y, 1, 0, 3, s);
      NthIff(y, 2, 0, 3, s);
      NthIff(y, 9, 0, 1, s);
      NthIff(y, 10, 0, 2, s);
      NthIff(y, 11, 3, 4, s);
    }
  }

  /** The table of a year holds exactly those days. */
  lemma HolidaysAre(y: int, s: Date)
    requires 1 <= y <= LAST_YEAR
    ensures s in FederalHolidays(y) <==> exists i: nat :: i < 11 && HolidayIs(y, i, s)
  {
    hide Entry, HolidayIs;
    forall i: nat | i < 11
      ensures Entry(y, i) == Some(s) <==> HolidayIs(y, i, s)
    {
      EntryIs(y, i, s);
    }
  }

  /** Entries of one year are in order and at least seven days apart. */
  lemma EntriesApart(y: int, i: nat, j: nat)
    requires 1 <= y <= LAST_YEAR && i < j < 11
    ensures Entry(y, i).Some? && Entry(y, j).Some?
    ensures Ord(Entry(y, i).value) + 7 <= Ord(Entry(y, j).value)
  {
    hide DaysBeforeYear, Entry, Ord, Weekday;
    EntrySlot(y, i);
    EntrySlot(y, j);
  }

  /** Christmas Day and the New Year's Day after it are observed exactly a week apart. */
  lemma ChristmasToNewYear(y: int)
    requires 1 <= y < LAST_YEAR
    ensures Entry(y, 10).Some? && Entry(y + 1, 0).Some?
    ensures Ord(Entry(y + 1, 0).value) == Ord(Entry(y, 10).value) + 7
  {
    hide Ord, Observed;
    WeekToNewYear(y);
    ObservedNear(Date(y, 12, 25));
    ObservedNear(Date(y + 1, 1, 1));
  }

  lemma WeekToNewYear(y: int)
    requires 1 <= y < LAST_YEAR
    ensures Ord(Date(y + 1, 1, 1)) == Ord(Date(y, 12, 25)) + 7
    ensures Weekday(Date(y + 1, 1, 1)) == Weekday(Date(y, 12, 25))
  {
    hide DaysBeforeYear;
    YearLength(y);
  }

  function Listed(y: int, n: nat): (r: set<Date>)
    requires 1 <= y <= LAST_YEAR && n <= 11
  {
    set i: nat | i < n && Entry(y, i).Some? :: Entry(y, i).value
  }

  lemma {:induction false} ListedCount(y: int, n: nat)
    requires 1 <= y <= LAST_YEAR && n <= 11
    ensures |Listed(y, n)| == n
  {
    hide Entry, Ord;
    if n > 0 {
      ListedCount(y, n - 1);
      EntrySlot(y, n - 1);
      var last := Entry(y, n - 1).value;
      assert Listed(y, n) == Listed(y, n - 1) + {last};
      if last in Listed(y, n - 1) {
        var i: nat :| i < n - 1 && Entry(y, i) == Some(last);
        EntriesApart(y, i, n - 1);
      }
    }
  }

  /** Exactly eleven distinct dates, all weekdays, all in the year asked for except New Year's Day
      when 1 January is a Saturday. */
  lemma ElevenHolidays(y: int)
    requires 1 <= y <= LAST_YEAR
    ensures |FederalHolidays(y)| == 11
    ensures forall t :: t in FederalHolidays(y) ==> Proper(t) && Weekday(t) < 5
    ensures forall t :: t in FederalHolidays(y) ==>
      t.y == y || (t == Date(y - 1, 12, 31) && Weekday(Date(y, 1, 1)) == 5)
    ensures Weekday(Date(y, 1, 1)) == 5 ==> Date(y - 1, 12, 31) in FederalHolidays(y)
  {
    hide Entry, Ord, Weekday;
    ListedCount(y, 11);
    assert FederalHolidays(y) == Listed(y, 11);
    forall t | t in FederalHolidays(y)
      ensures Proper(t) && Weekday(t) < 5
      ensures t.y == y || (t == Date(y - 1, 12, 31) && Weekday(Date(y, 1, 1)) == 5)
    {
      var i: nat :| i < 11 && Entry(y, i) == Some(t);
      EntrySlot(y, i);
      EntryYear(y, i);
    }
    EntryYear(y, 0);
    assert Entry(y, 0).value in FederalHolidays(y);
  }

  /** The code looks a date up in its own year's table. */
  predicate Recognised(t: Date) {
    Proper(t) && t.y <= LAST_YEAR && t in FederalHolidays(t.y)
  }

  ghost predicate HolidayOfSomeYear(t: Date) {
    exists y :: 1 <= y <= LAST_YEAR && t in FederalHolidays(y)
  }

  /** A weekday that is an observed holiday goes unrecognised exactly when it is a Friday that is
      31 December; there the next year's New Year's Day is missed. */
  lemma MissedHolidays(t: Date)
    requires Proper(t) && t.y < LAST_YEAR
    ensures HolidayOfSomeYear(t) && !Recognised(t)
       <==> t.m == 12 && t.d == 31 && Weekday(t) == 4
  {
    hide FederalHolidays, Ord;
    var next := Date(t.y + 1, 1, 1);
    ElevenHolidays(t.y + 1);
    ElevenHolidays(t.y);
    if t.m == 12 && t.d == 31 {
      OrdSucc(t);
      assert Succ(t) == next;
      YearEndNotListed(t.y);
    }
    if HolidayOfSomeYear(t) {
      var y :| 1 <= y <= LAST_YEAR && t in FederalHolidays(y);
      ElevenHolidays(y);
    }
  }

  /** New Year's Day of 2022 was observed on Friday 31 December 2021, which the lookup misses. */
  lemma MissedNewYear2022()
    ensures Weekday(Date(2021, 12, 31)) == 4
    ensures HolidayOfSomeYear(Date(2021, 12, 31)) && !Recognised(Date(2021, 12, 31))
  {
    hide FederalHolidays, HolidayOfSomeYear, Recognised;
    assert Ord(Date(2021, 12, 31)) == 738155;
    MissedHolidays(Date(2021, 12, 31));
  }

  /** 31 December is never in its own year's table. */
  lemma YearEndNotListed(y: int)
    requires 1 <= y <= LAST_YEAR
    ensures Date(y, 12, 31) !in FederalHolidays(y)
  {
    hide DaysBeforeYear, Entry;
    if Date(y, 12, 31) in FederalHolidays(y) {
      var i: nat :| i < 11 && Entry(y, i) == Some(Date(y, 12, 31));
      EntrySlot(y, i);
    }
  }

  /** Recognised holidays are at least a week apart, across a year's end too. */
  lemma RecognisedApart(s: Date, t: Date)
    requires Recognised(s) && Recognised(t) && Ord(s) < Ord(t)
    ensures Ord(s) + 7 <= Ord(t)
  {
    hide Entry, DaysBeforeYear, Ord;
    var i: nat :| i < 11 && Entry(s.y, i) == Some(s);
    var j: nat :| j < 11 && Entry(t.y, j) == Some(t);
    EntrySlot(s.y, i);
    EntrySlot(t.y, j);
    WithinYear(s);
    WithinYear(t);
    YearLength(s.y);
    if s.y == t.y {
      if i < j {
        EntriesApart(s.y, i, j);
      } else if j < i {
        EntriesApart(s.y, j, i);
      }
    } else if t.y < s.y {
      YearMonotone(t.y + 1, s.y);
    } else if t.y == s.y + 1 {
      ChristmasToNewYear(s.y);
    } else {
      YearMonotone(s.y + 2, t.y);
      YearLength(s.y + 1);
    }
  }
}
