/** The business-day calendar of the deadline engine: holiday data for the years 2020 to 2040, and
    day-by-day walks that stop at the first weekday without data. `None` stands for the error the
    walk raises. */
module Calendar {
  import opened Wrappers
  import opened Gregorian
  import opened Holidays
  import opened HolidayTable
  import opened BusinessDays

  const FIRST_SUPPORTED := 2020
  const LAST_SUPPORTED := 2040

  /** A date as the source's date type holds it. */
  predicate Calendrical(t: Date) {
    Proper(t) && t.y <= LAST_YEAR
  }

  function IsBusinessDay(t: Date): (r: Option<bool>)
    requires Calendrical(t)
  {
    if Weekday(t) >= 5 then Some(false)
    else if FIRST_SUPPORTED <= t.y <= LAST_SUPPORTED then Some(t !in FederalHolidays(t.y))
    else None
  }

  predicate Supported(o: int) {
    Ord(Date(FIRST_SUPPORTED, 1, 1)) <= o <= Ord(Date(LAST_SUPPORTED, 12, 31))
  }

  /** Every weekday stepped on in walking from `o` to `r` has holiday data; `o` itself is not
      stepped on. */
  ghost predicate Covered(o: int, r: int) {
    forall p :: (o < p <= r || r <= p < o) && WeekdayAt(p) < 5 ==> Supported(p)
  }

  /** `t` plus `n` business days, where the whole walk is covered. */
  ghost function Added(t: Date, n: int): (r: Option<Date>)
    requires Calendrical(t)
  {
    var target := Add(Ord(t), n);
    if Covered(Ord(t), target) then
      OrdRange(t);
      CoveredPositive(Ord(t), n);
      Some(FromOrd(target))
    else None
  }

  // ----- facts about one day -------------------------------------------------------------------

  lemma OrdRange(t: Date)
    requires Calendrical(t)
    ensures 1 <= Ord(t) <= Ord(Date(LAST_YEAR, 12, 31))
  {
    hide Ord;
    OrdPositive(t);
    YearByOrd(t, 1, LAST_YEAR);
  }

  lemma SupportedRange(o: int)
    requires Supported(o)
    ensures 1 < o < Ord(Date(LAST_YEAR, 12, 31))
  {
  }

  lemma SupportedYear(t: Date)
    requires Calendrical(t)
    ensures Supported(Ord(t)) <==> FIRST_SUPPORTED <= t.y <= LAST_SUPPORTED
  {
    hide Ord;
    YearByOrd(t, FIRST_SUPPORTED, LAST_SUPPORTED);
  }

  /** The answer is right whenever one is given, and none is given exactly on a weekday without
      holiday data. */
  lemma IsBusinessDayCorrect(t: Date)
    requires Calendrical(t)
    ensures IsBusinessDay(t).Some? ==> IsBusinessDay(t).value == Business(Ord(t))
    ensures IsBusinessDay(t).None? <==> WeekdayAt(Ord(t)) < 5 && !Supported(Ord(t))
  {
    hide Ord, FederalHolidays, Supported;
    FromOrdOrd(t);
    SupportedYear(t);
  }

  /** The answer by what the day is: a weekend day is none; a weekday of the years 2020 to 2040 is one unless
      it is a holiday of its year; any other weekday has no answer. */
  lemma IsBusinessDayIs(t: Date)
    requires Calendrical(t)
    ensures IsBusinessDay(t) ==
      if Weekday(t) == 5 || Weekday(t) == 6 then Some(false)
      else if 2020 <= t.y <= 2040 then Some(!exists i: nat :: i < 11 && HolidayIs(t.y, i, t))
      else None
  {
    hide FederalHolidays, HolidayIs, Ord;
    HolidaysAre(t.y, t);
  }

  /** So the calendar calls that observed holiday a business day. */
  lemma BusinessOnMissedHoliday()
    ensures HolidayOfSomeYear(Date(2021, 12, 31)) && IsBusinessDay(Date(2021, 12, 31)) == Some(true)
  {
    hide FederalHolidays, Ord;
    MissedNewYear2022();
  }

  /** Stepping onto the next day brings the walk's end no further and no nearer than the code counts. */
  lemma Forward(o: int, n: nat)
    requires n > 0
    ensures Add(o, n) == if Business(o + 1) then Add(o + 1, n - 1) else Add(o + 1, n)
    ensures o < Add(o, n)
  {
    hide Business;
    NextIsFirst(o);
    NextIsFirst(o + 1);
    AddForward(o, n);
  }

  lemma Backward(o: int, n: int)
    requires n > 0
    ensures Add(o, -n) == if Business(o - 1) then Add(o - 1, -(n - 1)) else Add(o - 1, -n)
    ensures Add(o, -n) < o
  {
    hide Business;
    PreviousIsLast(o);
    PreviousIsLast(o - 1);
    AddBackward(o, n);
  }

  /** A covered walk ends on a supported day, so it never leaves the date range. */
  lemma CoveredEnd(o: int, n: int)
    requires n != 0 && Covered(o, Add(o, n))
    ensures Supported(Add(o, n)) && Business(Add(o, n))
  {
    hide Supported, Ord;
    if n > 0 {
      AddForward(o, n);
    } else {
      AddBackward(o, -n);
    }
  }

  lemma CoveredPositive(o: int, n: int)
    requires o >= 1 && Covered(o, Add(o, n))
    ensures Add(o, n) >= 1
  {
    hide Covered, Supported, Ord;
    if n != 0 {
      CoveredEnd(o, n);
      SupportedRange(Add(o, n));
    }
  }

  function Signed(direction: int, k: nat): int {
    if direction == 1 then k else -(k as int)
  }

  /** Where a walk of `k` more business days from `o` stands after one step of the loop. */
  lemma Step(o: int, direction: int, k: nat)
    requires (direction == 1 || direction == -1) && k > 0
    ensures Add(o, Signed(direction, k))
         == Add(o + direction, Signed(direction, if Business(o + direction) then k - 1 else k))
    ensures if direction == 1 then o < Add(o, Signed(direction, k)) else Add(o, Signed(direction, k)) < o
  {
    hide Business, Add;
    if direction == 1 {
      Forward(o, k);
    } else {
      Backward(o, k);
    }
  }

  /** A day the walk must step on: if it has no data, or is out of the date range, the walk fails. */
  lemma Blocked(o: int, n: int, p: int)
    requires n != 0 && (o < p <= Add(o, n) || Add(o, n) <= p < o)
    requires p < 1 || p > Ord(Date(LAST_YEAR, 12, 31)) || (WeekdayAt(p) < 5 && !Supported(p))
    requires 1 <= o <= Ord(Date(LAST_YEAR, 12, 31))
    ensures !Covered(o, Add(o, n))
  {
    hide Supported, Ord, Add, Business;
    if Covered(o, Add(o, n)) {
      CoveredEnd(o, n);
      SupportedRange(Add(o, n));
    }
  }

  // ----- the calendar's operations -------------------------------------------------------------

  method AddBusinessDays(t: Date, n: int) returns (r: Option<Date>)
    requires Calendrical(t)
    ensures r == Added(t, n)
    ensures forall d :: BusinessOn(t, n, d) <==> r == Some(d)
  {
    hide BusinessOn, Ord, Supported, Add, Business, Shift, IsBusinessDay, WeekdayAt;
    forall d
      ensures BusinessOn(t, n, d) <==> Added(t, n) == Some(d)
    {
      AddedIff(t, n, d);
    }
    var direction := if n >= 0 then 1 else -1;
    var remaining: nat := if n >= 0 then n else -n;
    var current := t;
    ghost var o, target := Ord(t), Add(Ord(t), n);
    OrdRange(t);
    AddBounded(o, n);
    while remaining > 0
      invariant Calendrical(current) && (direction == 1 || direction == -1)
      invariant Add(Ord(current), Signed(direction, remaining)) == target
      invariant if direction == 1 then o <= Ord(current) <= target else target <= Ord(current) <= o
      invariant Covered(o, Ord(current))
      invariant n == 0 ==> remaining == 0
      decreases if direction == 1 then target - Ord(current) else Ord(current) - target
    {
      ghost var p := Ord(current) + direction;
      Step(Ord(current), direction, remaining);
      var moved := Shift(current, direction);
      if moved.None? {
        Blocked(o, n, p);
        return None;
      }
      current := moved.value;
      WithinDates(current);
      var business := IsBusinessDay(current);
      IsBusinessDayCorrect(current);
      if business.None? {
        Blocked(o, n, p);
        return None;
      }
      if business.value {
        remaining := remaining - 1;
      }
    }
    AddNothing(Ord(current));
    FromOrdOrd(current);
    r := Some(current);
  }

  lemma AddNothing(o: int)
    ensures Add(o, 0) == o
  {
  }

  lemma WithinDates(t: Date)
    requires Proper(t) && Ord(t) <= Ord(Date(LAST_YEAR, 12, 31))
    ensures Calendrical(t)
  {
    hide Ord;
    OrdPositive(t);
    OrdPositive(Date(1, 1, 1));
    YearByOrd(t, 1, LAST_YEAR);
    DayOne();
  }

  method NextBusinessDay(t: Date) returns (r: Option<Date>)
    requires Calendrical(t)
    ensures r == Added(t, 1)
  {
    r := FirstFrom(t, 1);
  }

  method PreviousBusinessDay(t: Date) returns (r: Option<Date>)
    requires Calendrical(t)
    ensures r == Added(t, -1)
  {
    r := FirstFrom(t, -1);
  }

  /** The shared shape of the two searches: step once, then on until a business day. */
  method FirstFrom(t: Date, direction: int) returns (r: Option<Date>)
    requires Calendrical(t) && (direction == 1 || direction == -1)
    ensures r == Added(t, direction)
  {
    hide Ord, Supported, Add, Business, Shift, IsBusinessDay, WeekdayAt;
    ghost var o, target := Ord(t), Add(Ord(t), direction);
    OrdRange(t);
    Step(o, direction, 1);
    var moved := Shift(t, direction);
    if moved.None? {
      Blocked(o, direction, o + direction);
      return None;
    }
    var current := moved.value;
    WithinDates(current);
    var business := IsBusinessDay(current);
    IsBusinessDayCorrect(current);
    while business != Some(true)
      invariant Calendrical(current) && Covered(o, Ord(current) - direction)
      invariant if direction == 1 then o < Ord(current) <= target else target <= Ord(current) < o
      invariant target == Add(Ord(current) - direction, direction)
      invariant business.Some? ==> business.value == Business(Ord(current))
      invariant business.None? <==> WeekdayAt(Ord(current)) < 5 && !Supported(Ord(current))
      decreases if direction == 1 then target - Ord(current) else Ord(current) - target
    {
      if business.None? {
        Blocked(o, direction, Ord(current));
        return None;
      }
      Step(Ord(current) - direction, direction, 1);
      Step(Ord(current), direction, 1);
      moved := Shift(current, direction);
      if moved.None? {
        Blocked(o, direction, Ord(current) + direction);
        return None;
      }
      current := moved.value;
      WithinDates(current);
      business := IsBusinessDay(current);
      IsBusinessDayCorrect(current);
    }
    Step(Ord(current) - direction, direction, 1);
    AddNothing(Ord(current));
    FromOrdOrd(current);
    r := Some(current);
  }

  datatype Mode = NextBusiness | PreviousBusiness | Unadjusted | Unknown(name: string)

  function ParseMode(s: string): Mode {
    if s == "next_business_day" then NextBusiness
    else if s == "previous_business_day" then PreviousBusiness
    else if s == "none" then Unadjusted
    else Unknown(s)
  }

  ghost function Adjusted(t: Date, mode: Mode): (r: Option<Date>)
    requires Calendrical(t)
  {
    match mode
    case Unadjusted => Some(t)
    case Unknown(_) => None
    case _ =>
      var here := IsBusinessDay(t);
      if here.None? then None
      else if here.value then Some(t)
      else Added(t, if mode == NextBusiness then 1 else -1)
  }

  method Adjust(t: Date, mode: string) returns (r: Option<Date>)
    requires Calendrical(t)
    ensures r == Adjusted(t, ParseMode(mode))
    ensures forall d :: AdjustedTo(t, mode, d) <==> r == Some(d)
  {
    hide AdjustedTo;
    forall d
      ensures AdjustedTo(t, mode, d) <==> Adjusted(t, ParseMode(mode)) == Some(d)
    {
      AdjustedIff(t, mode, d);
    }
    if mode == "next_business_day" {
      var here := IsBusinessDay(t);
      if here == Some(false) {
        r := NextBusinessDay(t);
      } else {
        r := if here.None? then None else Some(t);
      }
    } else if mode == "previous_business_day" {
      var here := IsBusinessDay(t);
      if here == Some(false) {
        r := PreviousBusinessDay(t);
      } else {
        r := if here.None? then None else Some(t);
      }
    } else if mode == "none" {
      r := Some(t);
    } else {
      r := None;
    }
  }

  // ----- where a move in business days ends ----------------------------------------------------

  /** `r` is the `n`-th business day after `t`, or before it when `n` is negative, counted day by day; every
      weekday passed over has holiday data. */
  ghost predicate BusinessOn(t: Date, n: int, r: Date)
    requires Calendrical(t)
  {
    var a, b := Ord(t), Ord(r);
    Calendrical(r) && Covered(a, b) && CountedTo(a, n, b)
  }

  /** Day `b` is where `n` business days from day `a` lead, counted day by day. */
  ghost predicate CountedTo(a: int, n: int, b: int) {
    if n >= 0 then a <= b && Count(a, b) == n && forall p :: a <= p < b ==> Count(a, p) != n
    else b <= a && CountFrom(b, a) == -n && forall p :: b < p <= a ==> CountFrom(p, a) != -n
  }

  lemma CountedIff(a: int, n: int, b: int)
    ensures CountedTo(a, n, b) <==> b == Add(a, n)
  {
    hide Add, Count, CountFrom;
    if n >= 0 {
      AddForward(a, n);
      if a <= b {
        AddIsLeast(a, n, b);
        assert b == Add(a, n) <==> Count(a, b) == n && forall p :: a <= p < b ==> Count(a, p) != n;
      }
    } else {
      AddBackward(a, -n);
      if b <= a {
        SubtractIsGreatest(a, -n, b);
      }
    }
  }

  /** A move in business days ends where counting them day by day ends. */
  lemma AddedIff(t: Date, n: int, r: Date)
    requires Calendrical(t)
    ensures Added(t, n) == Some(r) <==> BusinessOn(t, n, r)
  {
    hide Added, CountedTo, Ord, Covered, Add;
    AddedIs(t, n);
    if Added(t, n).Some? {
      CountedIff(Ord(t), n, Ord(Added(t, n).value));
    }
    if BusinessOn(t, n, r) {
      CountedIff(Ord(t), n, Ord(r));
      OrdInjective(r, Added(t, n).value);
    }
  }

  /** `r` is the date `t` adjusted: itself for `none`; under a business-day mode the nearest business day at or
      after it, or at or before it, with holiday data for every weekday looked at; nothing for other modes. */
  ghost predicate AdjustedTo(t: Date, mode: string, r: Date)
    requires Calendrical(t)
  {
    var a, b := Ord(t), Ord(r);
    Calendrical(r) &&
    if mode == "none" then r == t
    else if mode == "next_business_day" then
      && a <= b && Business(b)
      && forall p :: a <= p <= b ==> (WeekdayAt(p) < 5 ==> Supported(p)) && (Business(p) ==> p == b)
    else if mode == "previous_business_day" then
      && b <= a && Business(b)
      && forall p :: b <= p <= a ==> (WeekdayAt(p) < 5 ==> Supported(p)) && (Business(p) ==> p == b)
    else false
  }

  lemma NearestStays(a: int, b: int)
    requires a <= b && Business(b) && forall p :: a <= p < b ==> !Business(p)
    ensures if Business(a) then b == a else b == Add(a, 1)
  {
    hide Business, Add, Next;
    NextIsFirst(a);
    AddOne(a);
  }

  lemma NearestBack(a: int, b: int)
    requires b <= a && Business(b) && forall p :: b < p <= a ==> !Business(p)
    ensures if Business(a) then b == a else b == Add(a, -1)
  {
    hide Business, Add, Previous;
    PreviousIsLast(a);
    AddOne(a);
  }

  lemma AdjustedGives(t: Date, mode: string)
    requires Calendrical(t) && Adjusted(t, ParseMode(mode)).Some?
    ensures AdjustedTo(t, mode, Adjusted(t, ParseMode(mode)).value)
  {
    hide Ord, Supported, Business, Added, IsBusinessDay;
    var m := ParseMode(mode);
    if m == NextBusiness || m == PreviousBusiness {
      AdjustedIsNearest(t, m);
      IsBusinessDayCorrect(t);
      AddedIs(t, 1);
      AddedIs(t, -1);
    }
  }

  lemma AdjustedOnly(t: Date, mode: string, r: Date)
    requires Calendrical(t) && AdjustedTo(t, mode, r)
    ensures Adjusted(t, ParseMode(mode)) == Some(r)
  {
    hide Ord, Supported, Business, Added, IsBusinessDay, Add;
    var m := ParseMode(mode);
    if m == NextBusiness || m == PreviousBusiness {
      IsBusinessDayCorrect(t);
      var n := if m == NextBusiness then 1 else -1;
      AddedIs(t, n);
      if m == NextBusiness {
        NearestStays(Ord(t), Ord(r));
      } else {
        NearestBack(Ord(t), Ord(r));
      }
      if Business(Ord(t)) {
        OrdInjective(t, r);
      } else {
        OrdInjective(r, Added(t, n).value);
      }
    }
  }

  /** Adjusting leads to exactly that date, and fails if there is none. */
  lemma AdjustedIff(t: Date, mode: string, r: Date)
    requires Calendrical(t)
    ensures Adjusted(t, ParseMode(mode)) == Some(r) <==> AdjustedTo(t, mode, r)
  {
    hide AdjustedTo, Adjusted;
    if Adjusted(t, ParseMode(mode)) == Some(r) {
      AdjustedGives(t, mode);
    }
    if AdjustedTo(t, mode, r) {
      AdjustedOnly(t, mode, r);
    }
  }

  // ----- what the operations promise -----------------------------------------------------------

  /** A result is the ordinal arithmetic's, is a date, and leaves every weekday passed over with
      holiday data. */
  lemma AddedIs(t: Date, n: int)
    requires Calendrical(t)
    ensures Added(t, n).Some? <==> Covered(Ord(t), Add(Ord(t), n))
    ensures Added(t, n).Some? ==>
      Calendrical(Added(t, n).value) && Ord(Added(t, n).value) == Add(Ord(t), n)
  {
    hide Ord, Supported, Business;
    OrdRange(t);
    AddNothing(Ord(t));
    if Added(t, n).Some? {
      var target := Add(Ord(t), n);
      CoveredPositive(Ord(t), n);
      OrdFromOrd(target);
      if n != 0 {
        CoveredEnd(Ord(t), n);
        SupportedRange(target);
      }
      WithinDates(FromOrd(target));
    }
  }

  /** The nearest business day at or after the date, or at or before it, at most four days off. */
  lemma AdjustedIsNearest(t: Date, mode: Mode)
    requires Calendrical(t) && (mode == NextBusiness || mode == PreviousBusiness)
    requires Adjusted(t, mode).Some?
    ensures var r := Adjusted(t, mode).value;
      Calendrical(r) && Business(Ord(r))
      && (mode == NextBusiness ==>
        Ord(t) <= Ord(r) <= Ord(t) + 4 && forall p :: Ord(t) <= p < Ord(r) ==> !Business(p))
      && (mode == PreviousBusiness ==>
        Ord(t) - 4 <= Ord(r) <= Ord(t) && forall p :: Ord(r) < p <= Ord(t) ==> !Business(p))
  {
    hide Ord, Supported, Business, Added, IsBusinessDay, Next, Previous;
    IsBusinessDayCorrect(t);
    AddedIs(t, 1);
    AddedIs(t, -1);
    NextIsFirst(Ord(t));
    PreviousIsLast(Ord(t));
    AddOne(Ord(t));
  }

  lemma AddOne(o: int)
    ensures Add(o, 1) == Next(o) && Add(o, -1) == Previous(o)
  {
    hide Next, Previous;
    AddNothing(Next(o));
    AddNothing(Previous(o));
  }

  /** Adjusting an adjusted date changes nothing. */
  lemma AdjustedTwice(t: Date, mode: Mode)
    requires Calendrical(t) && Adjusted(t, mode).Some?
    ensures Calendrical(Adjusted(t, mode).value)
    ensures Adjusted(Adjusted(t, mode).value, mode) == Adjusted(t, mode)
  {
    hide Ord, Business, Added, IsBusinessDay, Supported;
    if mode == NextBusiness || mode == PreviousBusiness {
      var r := Adjusted(t, mode).value;
      AdjustedIsNearest(t, mode);
      if IsBusinessDay(t) == Some(false) {
        var n := if mode == NextBusiness then 1 else -1;
        AddedIs(t, n);
        CoveredEnd(Ord(t), n);
      }
      IsBusinessDayCorrect(t);
      IsBusinessDayCorrect(r);
    }
  }
}
