/** Concrete histories that show why the promises carry their conditions. */
module ReminderWitnesses {
  import opened Wrappers
  import opened Gregorian
  import opened Holidays
  import opened BusinessDays
  import opened Calendar
  import opened DueDate
  import opened Reminders
  import opened ReminderLifecycle
  import opened ReminderHistory
  import opened ReminderTheorems
  import opened ReminderArms

  /** Midnight on 20 December 2040, the last year with holiday data. */
  const FILED := DateTime(Date(2040, 12, 20), 0, 0)

  const INPUTS: map<string, DateTime> := map["filed" := FILED]

  function SameDay(reminders: seq<ReminderOffset>): Rule {
    Rule("filed", Offset(0, 0, 0, 0, 0), "none", "us_federal", reminders)
  }

  lemma SampleDue(reminders: seq<ReminderOffset>)
    ensures ValidInputs(INPUTS) && ValidTime(FILED)
    ensures Due(SameDay(reminders), INPUTS).Ok? && Due(SameDay(reminders), INPUTS).value.dueAt == FILED
  {
    hide Ord, Added, Shift;
    assert ValidTime(FILED);
    assert Landed(FILED.date, Offset(0, 0, 0, 0, 0)) == Some(FILED.date);
    assert ParseMode("none") == Unadjusted;
  }

  lemma OnTheDay()
    ensures ValidTime(FILED) && FireAt(FILED, ReminderOffset(0, Days)) == Some(FILED)
  {
    hide Ord, Added;
    assert ValidTime(FILED);
    ShiftIs(FILED.date, 0, FILED.date);
  }

  /** A hundred business days later there is no holiday data any more. */
  lemma BeyondData()
    ensures ValidTime(FILED) && FireAt(FILED, ReminderOffset(100, BusinessDaysUnit)) == None
  {
    hide Business, Add;
    assert ValidTime(FILED);
    var o := Ord(FILED.date);
    assert Ord(Date(2040, 12, 31)) == o + 11;
    AddBounded(o, 100);
    if Covered(o, Add(o, 100)) {
      CoveredEnd(o, 100);
    }
  }

  lemma FiledAhead()
    ensures Instant(FILED) >= 0
  {
    OrdPositive(FILED.date);
  }

  lemma RunOne(e: Event)
    requires ValidEvent(e)
    ensures ValidHistory([e]) && Run([e]) == Reminders.Step(EMPTY_DESK, e)
    ensures SomeCallLeaks([e]) <==> LeaksOn(EMPTY_DESK, e)
  {
    hide Reminders.Step, LeaksOn, ValidEvent, EMPTY_DESK;
    assert [e][..0] == [];
    assert Run([]) == EMPTY_DESK;
  }

  /** One scheduling call with a reminder on the day and one beyond the data fails, and leaves live
      arms that belong to no deadline. */
  lemma FailedScheduleLeaksArms()
    ensures ValidInputs(INPUTS)
    ensures var e := ScheduleCall(
        SameDay([ReminderOffset(0, Days), ReminderOffset(100, BusinessDaysUnit)]), INPUTS, "k", 0);
      ValidHistory([e]) && !LiveExact(Run([e])) && Run([e]).book.deadlines == map[]
  {
    hide Due, FireAt, Instant, Made, LiveExact, Run, SomeCallLeaks, ArmAll, ValidInputs, ValidTime, FILED, INPUTS,
         ValidHistory, SameDay, Sort;
    var offsets := [ReminderOffset(0, Days), ReminderOffset(100, BusinessDaysUnit)];
    var rule := SameDay(offsets);
    var e := ScheduleCall(rule, INPUTS, "k", 0);
    assert rule.reminders == offsets by {
      SameDayReminders(offsets);
    }
    SampleDue(offsets);
    OnTheDay();
    BeyondData();
    FiledAhead();
    RunOne(e);
    ArmsExactIffNoLeak([e]);
    assert ResolvableTo(FILED, offsets, 0);
    assert FireAt(FILED, offsets[1]).None?;
    assert Leaks(EMPTY_DESK, rule, INPUTS, "k", 0);
    StopsShort(0, FILED, offsets, "k", 0);
  }

  lemma SameDayReminders(offsets: seq<ReminderOffset>)
    ensures SameDay(offsets).reminders == offsets
  {
  }

  const ON_THE_DAY := [ReminderOffset(0, Days)]

  const SHARED_KEY := Key("", 0, Days)

  /** Scheduling without an idempotency key always makes another deadline, with one armed reminder. */
  lemma ScheduleUnkeyed(s: Desk)
    requires Inv(s)
    ensures ValidInputs(INPUTS)
    ensures var t := Schedule(s, SameDay(ON_THE_DAY), INPUTS, "", 0).0;
      && ArmedWith(t, s.book.calls, SHARED_KEY) && t.book.calls == s.book.calls + 1
      && t.seen == s.seen && Inv(t)
      && forall id <- s.book.deadlines :: id in t.book.deadlines && t.book.deadlines[id] == s.book.deadlines[id]
  {
    hide Due, FireAt, Instant, Made, ArmAll, ValidInputs, ValidTime, FILED, INPUTS, ArmsInv, DeliveryInv, SeenInv,
         SameDay, Sort, Good;
    var rule := SameDay(ON_THE_DAY);
    SameDayReminders(ON_THE_DAY);
    SampleDue(ON_THE_DAY);
    OnTheDay();
    FiledAhead();
    ScheduleInv(s, rule, INPUTS, "", 0);
    SchedulePreserves(s, rule, INPUTS, "", 0);
    assert Find(s.book, "").None? by {
      assert "" in s.book.byIdem ==> Indexed(s.book, "");
    }
    var call := s.book.calls;
    var made := Made(call, FILED, ON_THE_DAY, "", 0);
    MadeIs(call, FILED, ON_THE_DAY, "", 0);
    assert FireAt(FILED, ON_THE_DAY[0]).Some?;
    assert |made| == 1 && MadeAt(made[0], call, 0, FILED, ON_THE_DAY[0], "", 0);
    SortIs(made);
    var j := Members(made, Sort(made), 0);
    assert KeyArmed(Sort(made), SHARED_KEY);
  }

  /** Two deadlines scheduled without a key share reminder keys: delivering the first one's reminder
      makes the dedup key decline the second one's, which was never delivered. */
  lemma SharedKeySuppressesReminder()
    ensures ValidInputs(INPUTS)
    ensures var e := ScheduleCall(SameDay(ON_THE_DAY), INPUTS, "", 0);
      var h := [e, e, FireCall(0, SHARED_KEY, true, true)];
      ValidHistory(h) && ArmedWith(Run(h), 1, SHARED_KEY)
      && Fire(Run(h), 1, SHARED_KEY, true, true) == (Run(h), Declined)
  {
    hide Schedule, ArmedWith, SameDay, Inv, Fire, ValidInputs, INPUTS, EMPTY_DESK;
    EmptyInv();
    ScheduleUnkeyed(EMPTY_DESK);
    var e := ScheduleCall(SameDay(ON_THE_DAY), INPUTS, "", 0);
    var a := Reminders.Step(EMPTY_DESK, e);
    ScheduleUnkeyed(a);
    var b := Reminders.Step(a, e);
    assert b.book.calls == 2 && ArmedWith(b, 0, SHARED_KEY) && ArmedWith(b, 1, SHARED_KEY) && b.seen == {} by {
      FirstCalls(a, b);
    }
    FireArmed(b, 0, SHARED_KEY, true, true);
    var c := Fire(b, 0, SHARED_KEY, true, true).0;
    KeepsArmed(b, c, 1);
    var h := [e, e, FireCall(0, SHARED_KEY, true, true)];
    assert h[..2] == [e, e] && [e, e][..1] == [e] && [e][..0] == [];
    assert ValidHistory([]) && Run([]) == EMPTY_DESK;
    RunOne(e);
    assert Run([e, e]) == b;
    assert Run(h) == c;
    SeenDeclines(c, 1, SHARED_KEY);
  }

  lemma FirstCalls(a: Desk, b: Desk)
    requires a.book.calls == EMPTY_DESK.book.calls + 1 && a.seen == EMPTY_DESK.seen
    requires ArmedWith(a, EMPTY_DESK.book.calls, SHARED_KEY) && ArmedWith(b, a.book.calls, SHARED_KEY)
    requires b.book.calls == a.book.calls + 1 && b.seen == a.seen
    requires forall id <- a.book.deadlines :: id in b.book.deadlines && b.book.deadlines[id] == a.book.deadlines[id]
    ensures b.book.calls == 2 && ArmedWith(b, 0, SHARED_KEY) && ArmedWith(b, 1, SHARED_KEY) && b.seen == {}
  {
  }

  lemma KeepsArmed(b: Desk, c: Desk, id: nat)
    requires ArmedWith(b, id, SHARED_KEY) && id != 0
    requires forall other <- b.book.deadlines :: other != 0 ==>
      other in c.book.deadlines && c.book.deadlines[other] == b.book.deadlines[other]
    ensures ArmedWith(c, id, SHARED_KEY)
  {
  }

  lemma SeenDeclines(s: Desk, id: nat, key: Key)
    requires key in s.seen
    ensures Fire(s, id, key, true, true) == (s, Declined)
  {
  }
}
