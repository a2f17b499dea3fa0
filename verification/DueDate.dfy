/** Due dates: a rule's offset applied stage by stage to a trigger date, moved to a business day, and
    the reminder times around it. */
module DueDate {
  import opened Wrappers
  import opened Gregorian
  import opened Holidays
  import opened BusinessDays
  import opened Calendar

  /** Microseconds in a day. */
  const DAY := 86400000000

  /** A wall-clock time with a fixed offset from UTC, both in microseconds. */
  datatype DateTime = DateTime(date: Date, time: int, zone: int)

  predicate ValidTime(x: DateTime) {
    Calendrical(x.date) && 0 <= x.time < DAY
  }

  /** The point in time, for comparing values from different zones. */
  function Instant(x: DateTime): int {
    Ord(x.date) * DAY + x.time - x.zone
  }

  datatype Offset = Offset(days: int, businessDays: int, weeks: int, months: int, years: int)

  datatype TimeUnit = Days | BusinessDaysUnit

  datatype ReminderOffset = ReminderOffset(amount: int, timeUnit: TimeUnit)

  datatype Rule = Rule(trigger: string, offset: Offset, adjust: string, calendarId: string,
                       reminders: seq<ReminderOffset>)

  datatype Trace = Trace(triggerField: string, triggerValue: DateTime, offset: Offset,
                         rawDue: DateTime, calendarId: string, adjustment: string, dueAt: DateTime)

  datatype Error = MissingTrigger(field: string) | UnknownCalendar(id: string) | NoSuchDate

  // ----- the stages of an offset ---------------------------------------------------------------

  /** `replace(year, month)`, and on an invalid date once more with day 28. */
  function Replace(t: Date, y: int, m: int): (r: Option<Date>) {
    if Calendrical(Date(y, m, t.d)) then Some(Date(y, m, t.d))
    else if Calendrical(Date(y, m, 28)) then Some(Date(y, m, 28))
    else None
  }

  function AddYears(t: Date, years: int): (r: Option<Date>) {
    if years == 0 then Some(t) else Replace(t, t.y + years, t.m)
  }

  function AddMonths(t: Date, months: int): (r: Option<Date>) {
    if months == 0 then Some(t)
    else
      var month := t.m + months;
      Replace(t, t.y + (month - 1) / 12, (month - 1) % 12 + 1)
  }

  function AddDays(t: Option<Date>, days: int): (r: Option<Date>)
    requires t.Some? ==> Calendrical(t.value)
    ensures r.Some? ==> Calendrical(r.value)
  {
    if t.None? || days == 0 then t
    else
      var r := Shift(t.value, days);
      if r.Some? then
        WithinDates(r.value);
        r
      else None
  }

  ghost function Landed(t: Date, o: Offset): (r: Option<Date>)
    requires Calendrical(t)
  {
    var a := AddYears(t, o.years);
    if a.None? then None
    else
      var b := AddMonths(a.value, o.months);
      var c := AddDays(AddDays(b, 7 * o.weeks), o.days);
      if c.None? || o.businessDays == 0 then c
      else Added(c.value, o.businessDays)
  }

  ghost function At(x: DateTime, t: Option<Date>): (r: Option<DateTime>) {
    if t.None? then None else Some(x.(date := t.value))
  }

  // ----- where an offset leads -----------------------------------------------------------------

  /** `s` is `t` moved by `n` months: the day is kept if the month has it and is 28 otherwise. */
  predicate MonthsOn(t: Date, n: int, s: Date) {
    && Calendrical(s) && 12 * s.y + s.m == 12 * t.y + t.m + n
    && s.d == if t.d <= DaysInMonth(s.y, s.m) then t.d else 28
  }

  predicate DaysOn(t: Date, n: int, s: Date) {
    Calendrical(s) && Ord(s) == Ord(t) + n
  }

  /** The dates an offset passes: by its years, then its months, then its weeks, then its days, then its
      business days, each stage a date of the years 1 to 9999. */
  ghost predicate Passes(t: Date, o: Offset, y: Date, m: Date, w: Date, d: Date, r: Date) {
    && MonthsOn(t, 12 * o.years, y) && MonthsOn(y, o.months, m)
    && DaysOn(m, 7 * o.weeks, w) && DaysOn(w, o.days, d) && BusinessOn(d, o.businessDays, r)
  }

  /** The offset leads from `t` to `r`. */
  ghost predicate Leads(t: Date, o: Offset, r: Date) {
    exists y, m, w, d :: Passes(t, o, y, m, w, d, r)
  }

  lemma MonthsIff(t: Date, n: int, s: Date)
    requires Calendrical(t)
    ensures AddMonths(t, n) == Some(s) <==> MonthsOn(t, n, s)
  {
    hide AddMonths, DaysInMonth;
    AddMonthsIs(t, n, s);
  }

  lemma YearsIff(t: Date, n: int, s: Date)
    requires Calendrical(t)
    ensures AddYears(t, n) == Some(s) <==> MonthsOn(t, 12 * n, s)
  {
    hide AddYears, AddMonths, MonthsOn;
    YearsAreMonths(t, n);
    MonthsIff(t, 12 * n, s);
  }

  lemma DaysIff(t: Date, n: int, s: Date)
    requires Calendrical(t)
    ensures AddDays(Some(t), n) == Some(s) <==> DaysOn(t, n, s)
  {
    hide Ord, Shift;
    if DaysOn(t, n, s) {
      ShiftIs(t, n, s);
      if n == 0 {
        OrdInjective(t, s);
      }
    }
  }

  lemma NoneOn(days: int)
    ensures AddDays(None, days) == None
  {
  }

  /** An offset leads exactly where its stages do, and fails if one of them leaves the years 1 to 9999 or needs
      holiday data there is none of. */
  lemma LandedIff(t: Date, o: Offset, r: Date)
    requires Calendrical(t)
    ensures Landed(t, o) == Some(r) <==> Leads(t, o, r)
  {
    hide Leads;
    if Landed(t, o) == Some(r) {
      LandedLeads(t, o, r);
    }
    if Leads(t, o, r) {
      LeadsLanded(t, o, r);
    }
  }

  lemma LandedLeads(t: Date, o: Offset, r: Date)
    requires Calendrical(t) && Landed(t, o) == Some(r)
    ensures Leads(t, o, r)
  {
    hide AddYears, AddMonths, AddDays, MonthsOn, DaysOn, BusinessOn, Added;
    var y := AddYears(t, o.years).value;
    YearsIff(t, o.years, y);
    MonthsOnDate(t, 12 * o.years, y);
    NoneOn(7 * o.weeks);
    NoneOn(o.days);
    var m := AddMonths(y, o.months).value;
    MonthsIff(y, o.months, m);
    MonthsOnDate(y, o.months, m);
    var w := AddDays(Some(m), 7 * o.weeks).value;
    DaysIff(m, 7 * o.weeks, w);
    var d := AddDays(Some(w), o.days).value;
    DaysIff(w, o.days, d);
    NoBusinessDays(d);
    AddedIff(d, o.businessDays, r);
    assert Passes(t, o, y, m, w, d, r);
  }

  lemma MonthsOnDate(t: Date, n: int, s: Date)
    ensures MonthsOn(t, n, s) ==> Calendrical(s)
  {
  }

  lemma DaysOnDate(t: Date, n: int, s: Date)
    ensures DaysOn(t, n, s) ==> Calendrical(s)
  {
  }

  lemma NoBusinessDays(t: Date)
    requires Calendrical(t)
    ensures Added(t, 0) == Some(t)
  {
    hide Ord;
    AddNothing(Ord(t));
    FromOrdOrd(t);
  }

  lemma LeadsLanded(t: Date, o: Offset, r: Date)
    requires Calendrical(t) && Leads(t, o, r)
    ensures Landed(t, o) == Some(r)
  {
    hide AddYears, AddMonths, AddDays, MonthsOn, DaysOn, BusinessOn, Added;
    var y, m, w, d :| Passes(t, o, y, m, w, d, r);
    MonthsOnDate(t, 12 * o.years, y);
    MonthsOnDate(y, o.months, m);
    DaysOnDate(m, 7 * o.weeks, w);
    DaysOnDate(w, o.days, d);
    YearsIff(t, o.years, y);
    MonthsIff(y, o.months, m);
    DaysIff(m, 7 * o.weeks, w);
    DaysIff(w, o.days, d);
    NoBusinessDays(d);
    AddedIff(d, o.businessDays, r);
  }

  method ApplyOffset(base: DateTime, o: Offset) returns (r: Option<DateTime>)
    requires ValidTime(base)
    ensures r == At(base, Landed(base.date, o))
    ensures forall d :: Leads(base.date, o, d) <==> r == Some(base.(date := d))
  {
    hide Added, Shift, Proper, Leads;
    forall d
      ensures Leads(base.date, o, d) <==> Landed(base.date, o) == Some(d)
    {
      LandedIff(base.date, o, d);
    }
    var result := base.date;
    if o.years != 0 {
      var y := AddYears(result, o.years);
      if y.None? {
        return None;
      }
      result := y.value;
    }
    if o.months != 0 {
      var m := AddMonths(result, o.months);
      if m.None? {
        return None;
      }
      result := m.value;
    }
    if o.weeks != 0 {
      var w := AddDays(Some(result), 7 * o.weeks);
      if w.None? {
        return None;
      }
      result := w.value;
    }
    if o.days != 0 {
      var d := AddDays(Some(result), o.days);
      if d.None? {
        return None;
      }
      result := d.value;
    }
    if o.businessDays != 0 {
      var b := AddBusinessDays(result, o.businessDays);
      if b.None? {
        return None;
      }
      result := b.value;
    }
    r := Some(base.(date := result));
  }

  /** An offset of weeks and days alone moves the ordinal by seven times the weeks plus the days, and succeeds
      exactly if the date the weeks lead to and the final one both lie in the years 1 to 9999. */
  lemma DaysOnly(t: Date, o: Offset)
    requires Calendrical(t) && o.years == 0 && o.months == 0 && o.businessDays == 0
    ensures var last := Ord(Date(9999, 12, 31));
      && (Landed(t, o).Some? ==> Ord(Landed(t, o).value) == Ord(t) + 7 * o.weeks + o.days)
      && (Landed(t, o).Some? <==>
            1 <= Ord(t) + 7 * o.weeks <= last && 1 <= Ord(t) + 7 * o.weeks + o.days <= last)
  {
    hide Ord, Shift;
    OrdRange(t);
  }

  /** A final date in range does not suffice: a week on and seven days back from the last day there is fails. */
  lemma StageOutOfRange()
    ensures Landed(Date(9999, 12, 31), Offset(-7, 0, 1, 0, 0)) == None
  {
    hide Ord;
    DaysOnly(Date(9999, 12, 31), Offset(-7, 0, 1, 0, 0));
  }

  // ----- month arithmetic ----------------------------------------------------------------------

  function MonthIndex(t: Date): int {
    12 * t.y + t.m
  }

  /** The month index moves by exactly the offset; the day is kept if the month has it and is 28
      otherwise; and only leaving the years 1 to 9999 fails. */
  lemma AddMonthsIs(t: Date, months: int, r: Date)
    requires Calendrical(t)
    ensures AddMonths(t, months) == Some(r) <==> (
      Calendrical(r) && MonthIndex(r) == MonthIndex(t) + months
      && r.d == if t.d <= DaysInMonth(r.y, r.m) then t.d else 28)
    ensures AddMonths(t, months).None? <==> !(13 <= MonthIndex(t) + months < 12 * LAST_YEAR + 13)
  {
    hide Leap;
  }

  /** A year is twelve months, for every day including 29 February. */
  lemma YearsAreMonths(t: Date, years: int)
    requires Calendrical(t)
    ensures AddYears(t, years) == AddMonths(t, 12 * years)
  {
    hide Leap;
  }

  /** Going `months` on and back returns to the date exactly when the month landed in has its day;
      for days up to the 28th it always has. */
  lemma MonthsRoundTrip(t: Date, months: int)
    requires Calendrical(t) && AddMonths(t, months).Some?
    ensures AddMonths(AddMonths(t, months).value, -months) == Some(t)
       <==> t.d <= DaysInMonth(AddMonths(t, months).value.y, AddMonths(t, months).value.m)
    ensures t.d <= 28 ==> AddMonths(AddMonths(t, months).value, -months) == Some(t)
  {
    hide AddMonths;
    var r := AddMonths(t, months).value;
    AddMonthsIs(t, months, r);
    AddMonthsIs(r, -months, t);
  }

  /** Two month offsets in a row add up when the day is at most the 28th. */
  lemma MonthsCompose(t: Date, a: int, b: int)
    requires Calendrical(t) && t.d <= 28 && AddMonths(t, a).Some?
    ensures AddMonths(AddMonths(t, a).value, b) == AddMonths(t, a + b)
  {
    hide AddMonths;
    var s := AddMonths(t, a).value;
    AddMonthsIs(t, a, s);
    var r := AddMonths(t, a + b);
    AddMonthsIs(s, b, s);
    AddMonthsIs(t, a + b, t);
    if r.Some? {
      AddMonthsIs(t, a + b, r.value);
      AddMonthsIs(s, b, r.value);
    }
  }

  // ----- the due date --------------------------------------------------------------------------

  lemma LandedIsDate(t: Date, o: Offset)
    requires Calendrical(t)
    ensures Landed(t, o).Some? ==> Calendrical(Landed(t, o).value)
  {
    hide Added, AddDays, Ord, Shift;
    if Landed(t, o).Some? && o.businessDays != 0 {
      var c := AddDays(AddDays(AddMonths(AddYears(t, o.years).value, o.months), 7 * o.weeks), o.days);
      AddedIs(c.value, o.businessDays);
    }
  }

  ghost predicate ValidInputs(inputs: map<string, DateTime>) {
    forall k <- inputs :: ValidTime(inputs[k])
  }

  /** The due date as a value: trigger, then offset, then adjustment. */
  ghost function Due(rule: Rule, inputs: map<string, DateTime>): (r: Result<Trace, Error>)
    requires ValidInputs(inputs)
  {
    if rule.trigger !in inputs then Err(MissingTrigger(rule.trigger))
    else if rule.calendarId != "us_federal" then Err(UnknownCalendar(rule.calendarId))
    else
      assert ValidTime(inputs[rule.trigger]);
      var start := inputs[rule.trigger];
      var raw := Landed(start.date, rule.offset);
      if raw.None? then Err(NoSuchDate)
      else
        LandedIsDate(start.date, rule.offset);
        var due := Adjusted(raw.value, ParseMode(rule.adjust));
        if due.None? then Err(NoSuchDate)
        else Ok(Trace(rule.trigger, start, rule.offset, start.(date := raw.value), rule.calendarId,
                      rule.adjust, start.(date := due.value)))
  }

  /** What computing a due date answers: a trace that says where the offset leads from the trigger value and
      where that date is adjusted to, at the trigger's clock time; an error that names a missing trigger or an
      unknown calendar; and otherwise that there is no such date, only if there is none. */
  ghost predicate DueIs(rule: Rule, inputs: map<string, DateTime>, r: Result<Trace, Error>)
    requires ValidInputs(inputs)
  {
    match r
    case Ok(trace) =>
      rule.trigger in inputs && rule.calendarId == "us_federal" && DueFrom(rule, inputs[rule.trigger], trace)
    case Err(MissingTrigger(field)) => field == rule.trigger && rule.trigger !in inputs
    case Err(UnknownCalendar(id)) => rule.trigger in inputs && id == rule.calendarId && id != "us_federal"
    case Err(NoSuchDate) =>
      && rule.trigger in inputs && rule.calendarId == "us_federal"
      && forall trace :: !DueFrom(rule, inputs[rule.trigger], trace)
  }

  ghost predicate DueFrom(rule: Rule, start: DateTime, trace: Trace)
    requires ValidTime(start)
  {
    && trace == Trace(rule.trigger, start, rule.offset, trace.rawDue, rule.calendarId, rule.adjust, trace.dueAt)
    && trace.rawDue == start.(date := trace.rawDue.date) && trace.dueAt == start.(date := trace.dueAt.date)
    && Calendrical(trace.rawDue.date) && Leads(start.date, rule.offset, trace.rawDue.date)
    && AdjustedTo(trace.rawDue.date, rule.adjust, trace.dueAt.date)
  }

  lemma DueFromIff(rule: Rule, inputs: map<string, DateTime>, trace: Trace)
    requires ValidInputs(inputs) && rule.trigger in inputs && rule.calendarId == "us_federal"
    ensures Due(rule, inputs) == Ok(trace) <==> DueFrom(rule, inputs[rule.trigger], trace)
  {
    hide Landed, Adjusted, Proper, ParseMode, Leads, AdjustedTo;
    assert ValidTime(inputs[rule.trigger]);
    var start := inputs[rule.trigger];
    LandedIsDate(start.date, rule.offset);
    LandedIff(start.date, rule.offset, trace.rawDue.date);
    if Calendrical(trace.rawDue.date) {
      AdjustedIff(trace.rawDue.date, rule.adjust, trace.dueAt.date);
    }
  }

  /** The description holds of exactly one answer. */
  lemma DueIff(rule: Rule, inputs: map<string, DateTime>, r: Result<Trace, Error>)
    requires ValidInputs(inputs)
    ensures DueIs(rule, inputs, r) <==> Due(rule, inputs) == r
  {
    hide Landed, Adjusted, ParseMode, DueFrom;
    if rule.trigger in inputs && rule.calendarId == "us_federal" {
      forall trace
        ensures Due(rule, inputs) == Ok(trace) <==> DueFrom(rule, inputs[rule.trigger], trace)
      {
        DueFromIff(rule, inputs, trace);
      }
    }
  }

  method ComputeDueDate(rule: Rule, inputs: map<string, DateTime>) returns (r: Result<Trace, Error>)
    requires ValidInputs(inputs)
    ensures r == Due(rule, inputs) && DueIs(rule, inputs, r)
  {
    hide DueIs;
    DueIff(rule, inputs, Due(rule, inputs));
    hide Landed, Adjusted, Proper, ParseMode;
    if rule.trigger !in inputs {
      return Err(MissingTrigger(rule.trigger));
    }
    var start := inputs[rule.trigger];
    if rule.calendarId != "us_federal" {
      return Err(UnknownCalendar(rule.calendarId));
    }
    LandedIsDate(start.date, rule.offset);
    var raw := ApplyOffset(start, rule.offset);
    if raw.None? {
      return Err(NoSuchDate);
    }
    var due := Adjust(raw.value.date, rule.adjust);
    if due.None? {
      return Err(NoSuchDate);
    }
    r := Ok(Trace(rule.trigger, start, rule.offset, raw.value, rule.calendarId, rule.adjust,
                  raw.value.(date := due.value)));
  }

  /** A rule put together from nothing but a stored trace. */
  function RuleOf(trace: Trace): Rule {
    Rule(trace.triggerField, trace.offset, trace.adjustment, trace.calendarId, [])
  }

  /** The trace alone reproduces itself, the raw and the adjusted due date included. */
  lemma TraceReproduces(rule: Rule, inputs: map<string, DateTime>)
    requires ValidInputs(inputs)
    requires Due(rule, inputs).Ok?
    ensures var trace := Due(rule, inputs).value;
      ValidTime(trace.triggerValue)
      && Due(RuleOf(trace), map[trace.triggerField := trace.triggerValue]) == Ok(trace)
  {
    hide Landed, Adjusted, Proper, ParseMode;
  }

  /** What a computed trace says: the clock time and zone are the trigger's, and under a business-day
      mode the due date is the nearest business day on that side of the raw one, which adjusting
      again would not move. */
  lemma DueIsAdjusted(rule: Rule, inputs: map<string, DateTime>)
    requires ValidInputs(inputs)
    requires Due(rule, inputs).Ok?
    ensures var trace := Due(rule, inputs).value;
      var raw, due := Ord(trace.rawDue.date), Ord(trace.dueAt.date);
      && ValidTime(trace.dueAt) && ValidTime(trace.rawDue)
      && trace.dueAt.time == trace.rawDue.time == trace.triggerValue.time
      && trace.dueAt.zone == trace.rawDue.zone == trace.triggerValue.zone
      && (rule.adjust == "none" ==> due == raw)
      && (rule.adjust == "next_business_day" ==>
        Business(due) && raw <= due <= raw + 4 && forall p :: raw <= p < due ==> !Business(p))
      && (rule.adjust == "previous_business_day" ==>
        Business(due) && raw - 4 <= due <= raw && forall p :: due < p <= raw ==> !Business(p))
      && Adjusted(trace.dueAt.date, ParseMode(rule.adjust)) == Some(trace.dueAt.date)
  {
    hide Landed, Adjusted, Proper, Ord, Business;
    var start := inputs[rule.trigger];
    var raw := Landed(start.date, rule.offset).value;
    LandedIsDate(start.date, rule.offset);
    var mode := ParseMode(rule.adjust);
    AdjustedTwice(raw, mode);
    if mode == NextBusiness || mode == PreviousBusiness {
      AdjustedIsNearest(raw, mode);
    } else if mode == Unadjusted {
      Unmoved(raw, mode);
    }
  }

  lemma Unmoved(t: Date, mode: Mode)
    requires Calendrical(t) && mode == Unadjusted
    ensures Adjusted(t, mode) == Some(t)
  {
  }

  // ----- reminder times ------------------------------------------------------------------------

  ghost function FireDate(due: Date, rem: ReminderOffset): (r: Option<Date>)
    requires Calendrical(due)
  {
    if rem.timeUnit == BusinessDaysUnit then Added(due, rem.amount) else Shift(due, rem.amount)
  }

  ghost function FireAt(due: DateTime, rem: ReminderOffset): (r: Option<DateTime>)
    requires ValidTime(due)
  {
    At(due, FireDate(due.date, rem))
  }

  /** Where a reminder offset leads: that many days from the due date, or the so many-th business day after or
      before it. */
  ghost predicate Reminds(due: Date, rem: ReminderOffset, fire: Date)
    requires Calendrical(due)
  {
    match rem.timeUnit
    case Days => DaysOn(due, rem.amount, fire)
    case BusinessDaysUnit => BusinessOn(due, rem.amount, fire)
  }

  /** A reminder fires there, at the due time's clock time, and has no date if there is none. */
  lemma FiresAt(due: DateTime, rem: ReminderOffset, fire: DateTime)
    requires ValidTime(due)
    ensures FireAt(due, rem) == Some(fire) <==> fire == due.(date := fire.date) && Reminds(due.date, rem, fire.date)
  {
    hide Added, BusinessOn, Shift, Ord;
    AddedIff(due.date, rem.amount, fire.date);
    if rem.timeUnit == Days {
      if FireAt(due, rem) == Some(fire) {
        WithinDates(fire.date);
      }
      if DaysOn(due.date, rem.amount, fire.date) {
        ShiftIs(due.date, rem.amount, fire.date);
      }
    }
  }

  method ResolveReminder(due: DateTime, rem: ReminderOffset) returns (r: Option<DateTime>)
    requires ValidTime(due)
    ensures r == FireAt(due, rem)
    ensures forall d :: Reminds(due.date, rem, d) <==> r == Some(due.(date := d))
  {
    hide Added, Shift, Proper, Reminds;
    forall d
      ensures Reminds(due.date, rem, d) <==> FireAt(due, rem) == Some(due.(date := d))
    {
      FiresAt(due, rem, due.(date := d));
    }
    var fire: Option<Date>;
    if rem.timeUnit == BusinessDaysUnit {
      fire := AddBusinessDays(due.date, rem.amount);
    } else {
      fire := Shift(due.date, rem.amount);
    }
    r := if fire.None? then None else Some(due.(date := fire.value));
  }

  /** A reminder fires strictly before the due time exactly when its offset is negative, in either
      unit, at the same time of day, and not further away than the unit allows. */
  lemma ReminderSide(due: DateTime, rem: ReminderOffset)
    requires ValidTime(due) && FireAt(due, rem).Some?
    ensures var fire := FireAt(due, rem).value;
      && ValidTime(fire) && fire.time == due.time && fire.zone == due.zone
      && (Instant(fire) < Instant(due) <==> rem.amount < 0)
      && (rem.timeUnit == Days ==> Instant(fire) == Instant(due) + rem.amount * DAY)
      && (rem.timeUnit == BusinessDaysUnit && rem.amount < 0 ==>
        -rem.amount <= Ord(due.date) - Ord(fire.date) <= 7 * ((-rem.amount + 3) / 4))
      && (rem.timeUnit == BusinessDaysUnit && rem.amount != 0 ==> Business(Ord(fire.date)))
  {
    hide Added, Shift, Ord, Business, Add;
    var fire := FireAt(due, rem).value;
    if rem.timeUnit == BusinessDaysUnit {
      AddedIs(due.date, rem.amount);
      AddBounded(Ord(due.date), rem.amount);
      if rem.amount != 0 {
        CoveredEnd(Ord(due.date), rem.amount);
      }
      Scaled(Ord(fire.date) - Ord(due.date));
    } else {
      WithinDates(fire.date);
      Scaled(rem.amount);
    }
  }

  lemma Scaled(n: int)
    ensures n * DAY < 0 <==> n < 0
  {
  }

  datatype Preview = Preview(rem: ReminderOffset, fireAt: DateTime, beforeDue: bool)

  ghost predicate PreviewOf(due: DateTime, rem: ReminderOffset, p: Preview)
    requires ValidTime(due)
  {
    p.rem == rem && FireAt(due, rem) == Some(p.fireAt) && (p.beforeDue <==> rem.amount < 0)
  }

  /** Either every reminder has a preview, in the rule's order, flagged as before the due time exactly
      when its offset is negative, or some reminder has no date. */
  method PreviewReminders(rule: Rule, due: DateTime) returns (r: Result<seq<Preview>, Error>)
    requires ValidTime(due)
    ensures r.Ok? <==> (rule.calendarId == "us_federal"
      && forall i :: 0 <= i < |rule.reminders| ==> FireAt(due, rule.reminders[i]).Some?)
    ensures r.Ok? ==> |r.value| == |rule.reminders|
    ensures r.Ok? ==>
      forall i :: 0 <= i < |r.value| ==> PreviewOf(due, rule.reminders[i], r.value[i])
  {
    hide FireAt, Ord, Proper;
    if rule.calendarId != "us_federal" {
      return Err(UnknownCalendar(rule.calendarId));
    }
    var previews: seq<Preview> := [];
    for i := 0 to |rule.reminders|
      invariant |previews| == i
      invariant forall j :: 0 <= j < i ==> PreviewOf(due, rule.reminders[j], previews[j])
    {
      var rem := rule.reminders[i];
      var fire := ResolveReminder(due, rem);
      if fire.None? {
        return Err(NoSuchDate);
      }
      ReminderSide(due, rem);
      previews := previews + [Preview(rem, fire.value, Instant(fire.value) < Instant(due))];
    }
    r := Ok(previews);
  }
}
