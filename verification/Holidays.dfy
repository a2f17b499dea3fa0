/** The federal holiday table: nth and last weekdays of a month, observed dates, and the eleven
    holidays of a year. */
module Holidays {
  import opened Wrappers
  import opened Gregorian

  const LAST_YEAR := 9999

  /** `d + timedelta(days=n)`: fails outside the years 1 to 9999. */
  function Shift(t: Date, n: int): (r: Option<Date>)
    requires Proper(t)
    ensures r.Some? ==> Proper(r.value) && Ord(r.value) == Ord(t) + n
    ensures r.Some? <==> 1 <= Ord(t) + n <= Ord(Date(LAST_YEAR, 12, 31))
  {
    if 1 <= Ord(t) + n <= Ord(Date(LAST_YEAR, 12, 31)) then
      OrdFromOrd(Ord(t) + n);
      Some(FromOrd(Ord(t) + n))
    else None
  }

  function NthWeekday(y: int, m: int, weekday: int, n: int): (r: Option<Date>)
    requires 1 <= y <= LAST_YEAR && 1 <= m <= 12
  {
    var first := Date(y, m, 1);
    var delta := (weekday - Weekday(first)) % 7;
    var r := Shift(first, delta + (n - 1) * 7);
    if r.Some? && r.value.m == m then r else None
  }

  function LastWeekday(y: int, m: int, weekday: int): (r: Option<Date>)
    requires 1 <= y <= LAST_YEAR && 1 <= m <= 12
  {
    if y == LAST_YEAR && m == 12 then None
    else
      var next := if m < 12 then Date(y, m % 12 + 1, 1) else Date(y + 1, 1, 1);
      var last := Shift(next, -1);
      if last.None? then None
      else Shift(last.value, -((Weekday(last.value) - weekday) % 7))
  }

  function Observed(t: Date): (r: Option<Date>)
    requires Proper(t)
  {
    if Weekday(t) == 5 then Shift(t, -1)
    else if Weekday(t) == 6 then Shift(t, 1)
    else Some(t)
  }

  /** The eleven entries of the year's list, in the order the table gives them. */
  function Entry(y: int, i: nat): (r: Option<Date>)
    requires 1 <= y <= LAST_YEAR && i < 11
  {
    match i
    case 0 => Observed(Date(y, 1, 1))
    case 1 => NthWeekday(y, 1, 0, 3)
    case 2 => NthWeekday(y, 2, 0, 3)
    case 3 => LastWeekday(y, 5, 0)
    case 4 => Observed(Date(y, 6, 19))
    case 5 => Observed(Date(y, 7, 4))
    case 6 => NthWeekday(y, 9, 0, 1)
    case 7 => NthWeekday(y, 10, 0, 2)
    case 8 => Observed(Date(y, 11, 11))
    case 9 => NthWeekday(y, 11, 3, 4)
    case _ => Observed(Date(y, 12, 25))
  }

  /** The observed holidays of a year; every entry exists, so building the table never fails. */
  function FederalHolidays(y: int): (r: set<Date>)
    requires 1 <= y <= LAST_YEAR
  {
    set i: nat | i < 11 && Entry(y, i).Some? :: Entry(y, i).value
  }

  // ----- nth and last weekday ------------------------------------------------------------------

  /** How many of the first `upTo` days of the month fall on the weekday. */
  function CountWeekday(y: int, m: int, weekday: int, upTo: nat): nat {
    if upTo == 0 then 0
    else CountWeekday(y, m, weekday, upTo - 1) + if Weekday(Date(y, m, upTo)) == weekday then 1 else 0
  }

  /** The weekday recurs exactly every seven days from its first occurrence, `delta` days in. */
  lemma Recurs(first: int, weekday: int, k: int)
    requires 0 <= weekday < 7
    ensures WeekdayAt(first + k) == weekday <==> (k - (weekday - WeekdayAt(first)) % 7) % 7 == 0
  {
  }

  lemma {:induction false} CountIs(y: int, m: int, weekday: int, upTo: nat, first: int, delta: int)
    requires 0 <= weekday < 7
    requires first == Ord(Date(y, m, 1)) && delta == (weekday - WeekdayAt(first)) % 7
    ensures CountWeekday(y, m, weekday, upTo) == (upTo + 6 - delta) / 7
  {
    if upTo > 0 {
      CountIs(y, m, weekday, upTo - 1, first, delta);
      Recurs(first, weekday, upTo - 1);
      assert Ord(Date(y, m, upTo)) == first + (upTo - 1);
      Divides(upTo, delta);
    }
  }

  lemma Divides(k: int, delta: int)
    ensures (k + 6 - delta) / 7 == (k + 5 - delta) / 7 + if (k - 1 - delta) % 7 == 0 then 1 else 0
  {
  }

  lemma NthArithmetic(first: int, weekday: int, delta: int, k: int, n: int)
    requires 0 <= weekday < 7 && delta == (weekday - WeekdayAt(first)) % 7
    ensures k == delta + (n - 1) * 7 <==> WeekdayAt(first + k) == weekday && (k + 7 - delta) / 7 == n
  {
    Recurs(first, weekday, k);
  }

  lemma ShiftIs(t: Date, n: int, r: Date)
    requires Proper(t) && Proper(r) && r.y <= LAST_YEAR
    ensures Shift(t, n) == Some(r) <==> Ord(r) == Ord(t) + n
  {
    hide Ord;
    YearByOrd(r, 1, LAST_YEAR);
    FromOrdOrd(r);
    OrdPositive(r);
  }

  lemma NthIs(y: int, m: int, weekday: int, n: int, t: Date, first: int, delta: int)
    requires 1 <= y <= LAST_YEAR && 1 <= m <= 12 && Proper(t) && t.y == y && t.m == m
    requires first == Ord(Date(y, m, 1)) && delta == (weekday - WeekdayAt(first)) % 7
    ensures NthWeekday(y, m, weekday, n) == Some(t) <==> t.d - 1 == delta + (n - 1) * 7
    ensures Weekday(t) == WeekdayAt(first + (t.d - 1))
  {
    hide DaysBeforeYear;
    ShiftIs(Date(y, m, 1), delta + (n - 1) * 7, t);
    assert Ord(t) == first + (t.d - 1);
  }

  /** Within the asked year, the result is the date of that month and weekday with exactly `n`
      such weekdays up to it, and no other date qualifies. */
  lemma NthWeekdayCorrect(y: int, m: int, weekday: int, n: int, t: Date)
    requires 1 <= y <= LAST_YEAR && 1 <= m <= 12 && 0 <= weekday < 7
    requires Proper(t) && t.y == y
    ensures NthWeekday(y, m, weekday, n) == Some(t)
        <==> t.m == m && Weekday(t) == weekday && CountWeekday(y, m, weekday, t.d) == n
  {
    hide DaysBeforeYear;
    var first := Ord(Date(y, m, 1));
    var delta := (weekday - WeekdayAt(first)) % 7;
    if t.m == m {
      NthIs(y, m, weekday, n, t, first, delta);
      CountIs(y, m, weekday, t.d, first, delta);
      NthArithmetic(first, weekday, delta, t.d - 1, n);
    }
  }

  lemma YearOn(y: int, m: int)
    requires 1 <= y && 1 <= m <= 12
    ensures Ord(Date(y + 1, m, 1)) >= Ord(Date(y, m, 1)) + 365
  {
    hide DaysBeforeYear;
    YearLength(y);
  }

  /** The code compares months only; for counts from 1 to 52 the result is in the asked year all the same. */
  lemma NthInYear(y: int, m: int, weekday: int, n: int)
    requires 1 <= y <= LAST_YEAR && 1 <= m <= 12 && 1 <= n <= 52
    ensures NthWeekday(y, m, weekday, n).Some? ==> NthWeekday(y, m, weekday, n).value.y == y
  {
    hide Ord, Shift;
    var first := Date(y, m, 1);
    var r := NthWeekday(y, m, weekday, n);
    if r.Some? {
      var t := r.value;
      assert Ord(first) <= Ord(t) <= Ord(first) + 363;
      SameMonth(Date(t.y, m, 1), t);
      if t.y > y {
        YearOn(y, m);
        LaterYear(y + 1, t.y, m);
      } else if t.y < y {
        LaterYear(t.y, y, m);
        YearOn(t.y, m);
        LaterYear(t.y + 1, y, m);
      }
    }
  }

  lemma {:induction false} LaterYear(y: int, z: int, m: int)
    requires 1 <= y <= z && 1 <= m <= 12
    ensures Ord(Date(y, m, 1)) <= Ord(Date(z, m, 1))
    decreases z - y
  {
    hide Ord;
    if y < z {
      LaterYear(y, z - 1, m);
      YearOn(z - 1, m);
    }
  }

  /** An occurrence counted from 1 to 4 always exists, in the `n`-th seven days of the month. */
  lemma NthWeekdayExists(y: int, m: int, weekday: int, n: int) returns (t: Date)
    requires 1 <= y <= LAST_YEAR && 1 <= m <= 12 && 0 <= weekday < 7 && 1 <= n <= 4
    ensures NthWeekday(y, m, weekday, n) == Some(t)
    ensures t.y == y && t.m == m && 7 * n - 6 <= t.d <= 7 * n && Weekday(t) == weekday
  {
    hide DaysBeforeYear;
    var first := Ord(Date(y, m, 1));
    var delta := (weekday - WeekdayAt(first)) % 7;
    t := Date(y, m, 1 + delta + (n - 1) * 7);
    NthIs(y, m, weekday, n, t, first, delta);
    NthArithmetic(first, weekday, delta, t.d - 1, n);
  }

  /** The result is the date of that month and weekday with no later one in the month. */
  lemma LastWeekdayCorrect(y: int, m: int, weekday: int, t: Date)
    requires 1 <= y <= LAST_YEAR && 1 <= m <= 12 && 0 <= weekday < 7
    requires Proper(t) && t.y == y && t.m == m && (y < LAST_YEAR || m < 12)
    ensures LastWeekday(y, m, weekday) == Some(t) <==> (
      Weekday(t) == weekday
      && forall k :: t.d < k <= DaysInMonth(y, m) ==> Weekday(Date(y, m, k)) != weekday)
  {
    hide Ord, LastWeekday;
    LastIs(y, m, weekday, t);
    var last := Date(y, m, DaysInMonth(y, m));
    var delta := (Weekday(last) - weekday) % 7;
    forall k | 1 <= k <= last.d
      ensures Weekday(Date(y, m, k)) == weekday <==> (last.d - k - delta) % 7 == 0
    {
      BackFromLast(last, weekday, k);
    }
    assert Weekday(Date(y, m, last.d - delta)) == weekday;
  }

  lemma BackFromLast(last: Date, weekday: int, k: int)
    requires Proper(last) && 1 <= k <= last.d && 0 <= weekday < 7
    ensures Weekday(Date(last.y, last.m, k)) == weekday
       <==> (last.d - k - (Weekday(last) - weekday) % 7) % 7 == 0
  {
    hide Ord;
    SameMonth(Date(last.y, last.m, k), last);
    RecursBack(Ord(last), weekday, last.d - k);
  }

  lemma SameMonth(s: Date, t: Date)
    requires Proper(s) && Proper(t) && s.y == t.y && s.m == t.m
    ensures Ord(t) - Ord(s) == t.d - s.d
  {
    hide DaysBeforeYear, DaysBeforeMonth;
  }

  lemma RecursBack(last: int, weekday: int, k: int)
    requires 0 <= weekday < 7
    ensures WeekdayAt(last - k) == weekday <==> (k - (WeekdayAt(last) - weekday) % 7) % 7 == 0
  {
  }

  lemma LastIs(y: int, m: int, weekday: int, t: Date)
    requires 1 <= y <= LAST_YEAR && 1 <= m <= 12
    requires Proper(t) && t.y == y && t.m == m && (y < LAST_YEAR || m < 12)
    ensures var last := Date(y, m, DaysInMonth(y, m));
      LastWeekday(y, m, weekday) == Some(t) <==> t.d == last.d - (Weekday(last) - weekday) % 7
  {
    hide Ord, Shift;
    var last := Date(y, m, DaysInMonth(y, m));
    OrdSucc(last);
    ShiftIs(Succ(last), -1, last);
    ShiftIs(last, -((Weekday(last) - weekday) % 7), t);
    SameMonth(t, last);
  }

  lemma LastWeekdayExists(y: int, m: int, weekday: int) returns (t: Date)
    requires 1 <= y <= LAST_YEAR && 1 <= m < 12 && 0 <= weekday < 7
    ensures LastWeekday(y, m, weekday) == Some(t)
    ensures t.y == y && t.m == m && DaysInMonth(y, m) - 6 <= t.d <= DaysInMonth(y, m)
    ensures Weekday(t) == weekday
  {
    hide Ord, LastWeekday;
    var last := Date(y, m, DaysInMonth(y, m));
    t := Date(y, m, last.d - (Weekday(last) - weekday) % 7);
    LastIs(y, m, weekday, t);
    BackFromLast(last, weekday, t.d);
  }

  lemma BeforeLastDay(t: Date)
    requires Proper(t) && t.y <= LAST_YEAR && t != Date(LAST_YEAR, 12, 31)
    ensures 1 <= Ord(t) < Ord(Date(LAST_YEAR, 12, 31))
  {
    hide Ord;
    OrdPositive(t);
    YearByOrd(t, 1, LAST_YEAR);
    if Ord(t) == Ord(Date(LAST_YEAR, 12, 31)) {
      OrdInjective(t, Date(LAST_YEAR, 12, 31));
    }
  }

  /** A fixed date moves by at most one day, always onto a weekday, and only from a weekend. */
  lemma ObservedNear(t: Date)
    requires Proper(t) && t.y <= LAST_YEAR && t != Date(LAST_YEAR, 12, 31)
    ensures Observed(t).Some? && Proper(Observed(t).value)
    ensures Weekday(Observed(t).value) < 5
    ensures Ord(Observed(t).value) - Ord(t)
         == if Weekday(t) == 5 then -1 else if Weekday(t) == 6 then 1 else 0
  {
    hide Ord, Shift;
    BeforeLastDay(t);
    if Ord(t) == 1 {
      OrdPositive(t);
    }
  }
}
