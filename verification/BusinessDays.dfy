/** Business days as a set of day ordinals, and what it means to move along it. */
module BusinessDays {
  import opened Gregorian
  import opened HolidayTable

  predicate Holiday(o: int) {
    o >= 1 && Recognised(FromOrd(o))
  }

  predicate Business(o: int) {
    WeekdayAt(o) < 5 && !Holiday(o)
  }

  /** The business days after `a` up to and including `b`. */
  function Count(a: int, b: int): (n: nat)
    decreases b - a
  {
    if b <= a then 0 else Count(a, b - 1) + if Business(b) then 1 else 0
  }

  /** The business days from `a` on that are before `b`. */
  function CountFrom(a: int, b: int): (n: nat) {
    Count(a - 1, b - 1)
  }

  function Next(o: int): int {
    if Business(o + 1) then o + 1
    else if Business(o + 2) then o + 2
    else if Business(o + 3) then o + 3
    else o + 4
  }

  function Previous(o: int): int {
    if Business(o - 1) then o - 1
    else if Business(o - 2) then o - 2
    else if Business(o - 3) then o - 3
    else o - 4
  }

  /** The `n`-th business day after `o`, or before it when `n` is negative. */
  function Add(o: int, n: int): int
    decreases if n < 0 then -n else n
  {
    if n == 0 then o
    else if n > 0 then Add(Next(o), n - 1)
    else Add(Previous(o), n + 1)
  }

  // ----- density -------------------------------------------------------------------------------

  lemma HolidaysApart(o: int, p: int)
    requires Holiday(o) && Holiday(p) && o < p
    ensures o + 7 <= p
  {
    hide Recognised, Ord;
    OrdFromOrd(o);
    OrdFromOrd(p);
    RecognisedApart(FromOrd(o), FromOrd(p));
  }

  /** Of any seven days in a row, at most one is a recognised holiday. */
  lemma OneHolidayAWeek(a: int)
    ensures forall o, p :: a < o < p <= a + 7 ==> !(Holiday(o) && Holiday(p))
  {
    hide Holiday;
    forall o, p | a < o < p <= a + 7
      ensures !(Holiday(o) && Holiday(p))
    {
      if Holiday(o) && Holiday(p) {
        HolidaysApart(o, p);
      }
    }
  }

  lemma WeekdayStep(o: int)
    ensures 0 <= WeekdayAt(o) < 7
    ensures WeekdayAt(o + 1) == if WeekdayAt(o) == 6 then 0 else WeekdayAt(o) + 1
  {
  }

  lemma WeekdaySteps(o: int)
    ensures forall k :: o <= k <= o + 7 ==>
      0 <= WeekdayAt(k) < 7 && WeekdayAt(k + 1) == if WeekdayAt(k) == 6 then 0 else WeekdayAt(k) + 1
  {
    hide WeekdayAt;
    forall k | o <= k <= o + 7
      ensures 0 <= WeekdayAt(k) < 7
      ensures WeekdayAt(k + 1) == if WeekdayAt(k) == 6 then 0 else WeekdayAt(k) + 1
    {
      WeekdayStep(k);
    }
  }

  /** Any seven consecutive days hold at least four business days. */
  lemma FourInSeven(a: int)
    ensures Count(a, a + 7) >= 4
  {
    hide Holiday, WeekdayAt;
    OneHolidayAWeek(a);
    WeekdaySteps(a);
    SplitCount(a, a + 1, a + 7);
    SplitCount(a + 1, a + 2, a + 7);
    SplitCount(a + 2, a + 3, a + 7);
    SplitCount(a + 3, a + 4, a + 7);
    SplitCount(a + 4, a + 5, a + 7);
    SplitCount(a + 5, a + 6, a + 7);
  }

  lemma {:induction false} SplitCount(a: int, b: int, c: int)
    requires a <= b <= c
    ensures Count(a, c) == Count(a, b) + Count(b, c)
    decreases c - b
  {
    hide Business;
    if b < c {
      SplitCount(a, b, c - 1);
    }
  }

  /** The next business day is the first one after `o`, and never more than four days on. */
  lemma NextIsFirst(o: int)
    ensures o < Next(o) <= o + 4 && Business(Next(o))
    ensures forall p :: o < p < Next(o) ==> !Business(p)
  {
    hide Holiday, WeekdayAt;
    OneHolidayAWeek(o);
    WeekdaySteps(o);
  }

  lemma PreviousIsLast(o: int)
    ensures o - 4 <= Previous(o) < o && Business(Previous(o))
    ensures forall p :: Previous(o) < p < o ==> !Business(p)
  {
    hide Holiday, WeekdayAt;
    OneHolidayAWeek(o - 5);
    WeekdaySteps(o - 5);
  }

  lemma {:induction false} EmptyCount(a: int, b: int)
    requires forall p :: a < p <= b ==> !Business(p)
    ensures Count(a, b) == 0
    decreases b - a
  {
    hide Business;
    if a < b {
      EmptyCount(a, b - 1);
    }
  }

  lemma OneStep(a: int, b: int)
    requires a < b && Business(b) && forall p :: a < p < b ==> !Business(p)
    ensures Count(a, b) == 1
  {
    hide Business;
    EmptyCount(a, b - 1);
  }

  lemma CountPositive(a: int, b: int)
    requires a < b && Business(b)
    ensures Count(a, b) > 0
  {
    hide Business;
  }

  // ----- what adding business days means -------------------------------------------------------

  lemma {:induction false} AddForward(o: int, n: nat)
    ensures o <= Add(o, n) && Count(o, Add(o, n)) == n
    ensures if n == 0 then Add(o, n) == o else o < Add(o, n) && Business(Add(o, n))
    decreases n
  {
    hide Business, Next;
    if n > 0 {
      NextIsFirst(o);
      OneStep(o, Next(o));
      AddForward(Next(o), n - 1);
      SplitCount(o, Next(o), Add(o, n));
    }
  }

  lemma {:induction false} AddBackward(o: int, n: int)
    requires n >= 0
    ensures Add(o, -n) <= o && CountFrom(Add(o, -n), o) == n
    ensures if n == 0 then Add(o, -n) == o else Add(o, -n) < o && Business(Add(o, -n))
    decreases n
  {
    hide Business, Previous;
    if n > 0 {
      var p := Previous(o);
      PreviousIsLast(o);
      AddBackward(p, n - 1);
      assert Add(o, -n) == Add(p, -(n - 1));
      EmptyCount(p, o - 1);
      SplitCount(p - 1, p, o - 1);
      SplitCount(Add(o, -n) - 1, p - 1, o - 1);
    }
  }

  /** Adding `n` business days gives the least day with exactly `n` business days after `o`. */
  lemma AddIsLeast(o: int, n: nat, r: int)
    requires o <= r
    ensures r == Add(o, n) <==> Count(o, r) == n && forall p :: o <= p < r ==> Count(o, p) != n
  {
    hide Business, Next;
    var t := Add(o, n);
    AddForward(o, n);
    forall p | o <= p < t
      ensures Count(o, p) != n
    {
      SplitCount(o, p, t);
      CountPositive(p, t);
    }
  }

  /** Taking `n` away gives the greatest day with exactly `n` business days from it up to `o`. */
  lemma SubtractIsGreatest(o: int, n: int, r: int)
    requires n >= 0 && r <= o
    ensures r == Add(o, -n)
       <==> CountFrom(r, o) == n && forall p :: r < p <= o ==> CountFrom(p, o) != n
  {
    hide Business, Previous;
    var t := Add(o, -n);
    AddBackward(o, n);
    forall p | t < p <= o
      ensures CountFrom(p, o) != n
    {
      SplitCount(t - 1, t, o - 1);
      SplitCount(t, p - 1, o - 1);
    }
  }

  /** Moves in the same direction add up. */
  lemma {:induction false} AddComposes(o: int, m: int, n: int)
    requires (m >= 0 && n >= 0) || (m <= 0 && n <= 0)
    ensures Add(Add(o, m), n) == Add(o, m + n)
    decreases if m < 0 then -m else m
  {
    hide Next, Previous;
    if m > 0 {
      AddComposes(Next(o), m - 1, n);
    } else if m < 0 {
      AddComposes(Previous(o), m + 1, n);
    }
  }

  lemma StepsMonotone(o: int, p: int)
    requires o <= p
    ensures Next(o) <= Next(p) && Previous(o) <= Previous(p)
  {
    hide Business, Next, Previous;
    NextIsFirst(o);
    NextIsFirst(p);
    PreviousIsLast(o);
    PreviousIsLast(p);
  }

  lemma {:induction false} AddMonotone(o: int, p: int, n: int)
    requires o <= p
    ensures Add(o, n) <= Add(p, n)
    decreases if n < 0 then -n else n
  {
    hide Next, Previous;
    StepsMonotone(o, p);
    if n > 0 {
      AddMonotone(Next(o), Next(p), n - 1);
    } else if n < 0 {
      AddMonotone(Previous(o), Previous(p), n + 1);
    }
  }

  lemma StepsInvert(o: int)
    requires Business(o)
    ensures Previous(Next(o)) == o && Next(Previous(o)) == o
  {
    hide Business, Next, Previous;
    NextIsFirst(o);
    PreviousIsLast(o);
    PreviousIsLast(Next(o));
    NextIsFirst(Previous(o));
  }

  /** From a business day, moving `n` and back returns to it; the start must be a business day. */
  lemma {:induction false} AddInverts(o: int, n: int)
    requires Business(o)
    ensures Add(Add(o, n), -n) == o
    decreases if n < 0 then -n else n
  {
    hide Business, Next, Previous;
    StepsInvert(o);
    if n > 0 {
      NextIsFirst(o);
      AddInverts(Next(o), n - 1);
      assert Add(Add(o, n), -(n - 1)) == Next(o);
      AddComposes(Add(o, n), -(n - 1), -1);
      assert Add(Next(o), -1) == Add(Previous(Next(o)), 0);
    } else if n < 0 {
      PreviousIsLast(o);
      AddInverts(Previous(o), n + 1);
      assert Add(Add(o, n), -(n + 1)) == Previous(o);
      AddComposes(Add(o, n), -(n + 1), 1);
      assert Add(Previous(o), 1) == Add(Next(Previous(o)), 0);
    }
  }

  /** The start being a business day is also necessary. */
  lemma AddInvertsOnlyFromBusinessDays(o: int, n: int)
    requires n != 0
    ensures Add(Add(o, n), -n) == o <==> Business(o)
  {
    hide Business, Next, Previous;
    if Business(o) {
      AddInverts(o, n);
    } else if n > 0 {
      AddBackward(Add(o, n), n);
    } else {
      AddForward(Add(o, n), -n);
    }
  }

  lemma {:induction false} FourPerWeek(a: int, weeks: nat)
    ensures Count(a, a + 7 * weeks) >= 4 * weeks
    decreases weeks
  {
    hide Business;
    if weeks > 0 {
      FourPerWeek(a, weeks - 1);
      FourInSeven(a + 7 * (weeks - 1));
      SplitCount(a, a + 7 * (weeks - 1), a + 7 * weeks);
    }
  }

  /** `n` business days never take more than seven days for every four of them, rounded up. */
  lemma AddBounded(o: int, n: int)
    ensures n >= 0 ==> n <= Add(o, n) - o <= 7 * ((n + 3) / 4)
    ensures n <= 0 ==> -n <= o - Add(o, n) <= 7 * ((-n + 3) / 4)
  {
    hide Add;
    if n >= 0 {
      ForwardBound(o, n, (n + 3) / 4);
    }
    if n <= 0 {
      BackwardBound(o, -n, (-n + 3) / 4);
    }
  }

  lemma ForwardBound(o: int, n: nat, weeks: nat)
    requires n <= 4 * weeks
    ensures n <= Add(o, n) - o <= 7 * weeks
  {
    hide Business, Add;
    var t := Add(o, n);
    AddForward(o, n);
    CountAtMost(o, t);
    FourPerWeek(o, weeks);
    if t > o + 7 * weeks {
      SplitCount(o, o + 7 * weeks, t);
      CountPositive(o + 7 * weeks, t);
    }
  }

  lemma BackwardBound(o: int, n: int, weeks: nat)
    requires 0 <= n <= 4 * weeks
    ensures n <= o - Add(o, -n) <= 7 * weeks
  {
    hide Business, Add;
    var t := Add(o, -n);
    AddBackward(o, n);
    CountAtMost(t - 1, o - 1);
    FourPerWeek(o - 1 - 7 * weeks, weeks);
    if t < o - 7 * weeks {
      CountPositive(t - 1, t);
      SplitCount(t - 1, t, o - 1);
      SplitCount(t, o - 1 - 7 * weeks, o - 1);
    }
  }

  lemma {:induction false} CountAtMost(a: int, b: int)
    requires a <= b
    ensures Count(a, b) <= b - a
    decreases b - a
  {
    hide Business;
    if a < b {
      CountAtMost(a, b - 1);
    }
  }
}
