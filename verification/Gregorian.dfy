/** Proleptic Gregorian dates and their day ordinals, day 1 being 1 January of year 1, as Python's
    `datetime.date` numbers them. */
module Gregorian {

  datatype Date = Date(y: int, m: int, d: int)

  predicate Leap(y: int) {
    y % 4 == 0 && (y % 100 != 0 || y % 400 == 0)
  }

  function DaysInMonth(y: int, m: int): int {
    if m == 2 then if Leap(y) then 29 else 28
    else if m == 4 || m == 6 || m == 9 || m == 11 then 30
    else 31
  }

  predicate Proper(t: Date) {
    1 <= t.y && 1 <= t.m <= 12 && 1 <= t.d <= DaysInMonth(t.y, t.m)
  }

  function DaysBeforeYear(y: int): int {
    (y - 1) * 365 + (y - 1) / 4 - (y - 1) / 100 + (y - 1) / 400
  }

  function DaysBeforeMonth(y: int, m: int): int {
    var leap := if Leap(y) then 1 else 0;
    if m <= 1 then 0
    else if m == 2 then 31
    else if m == 3 then 59 + leap
    else if m == 4 then 90 + leap
    else if m == 5 then 120 + leap
    else if m == 6 then 151 + leap
    else if m == 7 then 181 + leap
    else if m == 8 then 212 + leap
    else if m == 9 then 243 + leap
    else if m == 10 then 273 + leap
    else if m == 11 then 304 + leap
    else 334 + leap
  }

  function Ord(t: Date): int {
    DaysBeforeYear(t.y) + DaysBeforeMonth(t.y, t.m) + t.d
  }

  /** 0 is Monday, 6 is Sunday. */
  function WeekdayAt(o: int): int {
    (o + 6) % 7
  }

  function Weekday(t: Date): int {
    WeekdayAt(Ord(t))
  }

  /** The next calendar day. */
  function Succ(t: Date): Date {
    if t.d < DaysInMonth(t.y, t.m) then Date(t.y, t.m, t.d + 1)
    else if t.m < 12 then Date(t.y, t.m + 1, 1)
    else Date(t.y + 1, 1, 1)
  }

  function Pred(t: Date): Date {
    if t.d > 1 then Date(t.y, t.m, t.d - 1)
    else if t.m > 1 then Date(t.y, t.m - 1, DaysInMonth(t.y, t.m - 1))
    else Date(t.y - 1, 12, 31)
  }

  /** The date with ordinal `o`, counted day by day from 1 January of year 1. */
  function FromOrd(o: int): Date
    requires o >= 1
    decreases o
  {
    if o == 1 then Date(1, 1, 1) else Succ(FromOrd(o - 1))
  }

  lemma Quotients(y: int)
    requires y >= 1
    ensures y / 4 == (y - 1) / 4 + if y % 4 == 0 then 1 else 0
    ensures y / 100 == (y - 1) / 100 + if y % 100 == 0 then 1 else 0
    ensures y / 400 == (y - 1) / 400 + if y % 400 == 0 then 1 else 0
  {
  }

  lemma Hundreds(y: int, q: int)
    requires y == 100 * q
    ensures y % 100 == 0
  {
  }

  lemma Fours(y: int, q: int)
    requires y == 4 * q
    ensures y % 4 == 0
  {
  }

  lemma YearLength(y: int)
    requires y >= 1
    ensures DaysBeforeYear(y + 1) == DaysBeforeYear(y) + if Leap(y) then 366 else 365
  {
    Quotients(y);
    if y % 400 == 0 {
      Hundreds(y, 4 * (y / 400));
    }
    if y % 100 == 0 {
      Fours(y, 25 * (y / 100));
    }
  }

  lemma MonthLength(y: int, m: int)
    requires 1 <= m < 12
    ensures DaysBeforeMonth(y, m + 1) == DaysBeforeMonth(y, m) + DaysInMonth(y, m)
  {
  }

  /** The calendar's successor and the ordinal arithmetic agree. */
  lemma OrdSucc(t: Date)
    requires Proper(t)
    ensures Proper(Succ(t)) && Ord(Succ(t)) == Ord(t) + 1 && Pred(Succ(t)) == t
  {
    hide DaysBeforeYear;
    if t.d == DaysInMonth(t.y, t.m) {
      if t.m < 12 {
        MonthLength(t.y, t.m);
      } else {
        YearLength(t.y);
      }
    }
  }

  lemma {:induction false} OrdPositive(t: Date)
    requires Proper(t)
    ensures Ord(t) >= 1 && (Ord(t) == 1 ==> t == Date(1, 1, 1))
  {
    assert (t.y - 1) / 100 <= (t.y - 1) / 4;
  }

  lemma PredProper(t: Date)
    requires Proper(t) && t != Date(1, 1, 1)
    ensures Proper(Pred(t)) && Succ(Pred(t)) == t && Ord(Pred(t)) == Ord(t) - 1
  {
    hide Ord;
    assert Proper(Pred(t));
    OrdSucc(Pred(t));
  }

  lemma DayOne()
    ensures Ord(Date(1, 1, 1)) == 1
  {
  }

  lemma DayOneIsMonday()
    ensures Weekday(Date(1, 1, 1)) == 0
  {
    hide Ord;
    DayOne();
  }

  lemma {:induction false} OrdFromOrd(o: int)
    requires o >= 1
    ensures Proper(FromOrd(o)) && Ord(FromOrd(o)) == o
    decreases o
  {
    hide Ord, Succ;
    DayOne();
    if o > 1 {
      OrdFromOrd(o - 1);
      OrdSucc(FromOrd(o - 1));
    }
  }

  /** Dates and positive ordinals correspond one to one. */
  lemma {:induction false} FromOrdOrd(t: Date)
    requires Proper(t)
    ensures Ord(t) >= 1 && FromOrd(Ord(t)) == t
    decreases Ord(t)
  {
    hide Ord, Pred;
    DayOne();
    OrdPositive(t);
    if t != Date(1, 1, 1) {
      PredProper(t);
      OrdPositive(Pred(t));
      FromOrdOrd(Pred(t));
    }
  }

  lemma OrdInjective(s: Date, t: Date)
    requires Proper(s) && Proper(t) && Ord(s) == Ord(t)
    ensures s == t
  {
    hide Ord;
    FromOrdOrd(s);
    FromOrdOrd(t);
  }

  /** A later date has a later year, or the same year and a later month, and so on. */
  lemma {:induction false} YearMonotone(y: int, z: int)
    requires 1 <= y <= z
    ensures DaysBeforeYear(y) + 365 * (z - y) <= DaysBeforeYear(z)
    decreases z - y
  {
    hide DaysBeforeYear;
    if y < z {
      YearMonotone(y, z - 1);
      YearLength(z - 1);
    }
  }

  lemma WithinYear(t: Date)
    requires Proper(t)
    ensures DaysBeforeYear(t.y) < Ord(t) <= DaysBeforeYear(t.y + 1)
  {
    hide DaysBeforeYear;
    YearLength(t.y);
  }

  /** The year of a date lies in a range of years exactly when its ordinal lies between the ends. */
  lemma YearByOrd(t: Date, first: int, last: int)
    requires Proper(t) && 1 <= first <= last
    ensures first <= t.y <= last <==> Ord(Date(first, 1, 1)) <= Ord(t) <= Ord(Date(last, 12, 31))
  {
    hide DaysBeforeYear;
    WithinYear(t);
    YearLength(last);
    if t.y < first {
      YearMonotone(t.y + 1, first);
    } else {
      YearMonotone(first, t.y);
    }
    if t.y <= last {
      YearMonotone(t.y + 1, last + 1);
    } else {
      YearMonotone(last + 1, t.y);
    }
  }
}
