/** The promises of the reminder service, over every history of calls. */
module ReminderTheorems {
  import opened Wrappers
  import opened DueDate
  import opened Reminders
  import opened ReminderLifecycle
  import opened ReminderHistory

  // ----- scheduling ----------------------------------------------------------------------------

  lemma DueTime(rule: Rule, inputs: map<string, DateTime>)
    requires ValidInputs(inputs) && Due(rule, inputs).Ok?
    ensures ValidTime(Due(rule, inputs).value.dueAt)
  {
    hide *;
    DueIsAdjusted(rule, inputs);
  }

  lemma ArmNew(b: Book, arms: map<ArmId, Arm>, made: seq<Reminder>, c: Book, d: Option<Deadline>)
    requires BookInv(b) && ArmsInv(b, arms)
    requires forall i :: 0 <= i < |made| ==> made[i].id.call == b.calls
    requires c.calls == b.calls + 1
    requires c.deadlines == if d.None? then b.deadlines else b.deadlines[b.calls := d.value]
    requires d.Some? ==> forall id :: LiveIn(d.value, id) <==> ArmedIn(made, id)
    ensures ArmsInv(c, ArmAll(arms, made))
  {
    hide Good, LiveIn, ArmAll;
    FreshCall(b);
    forall a: ArmId
      ensures ArmOk(c, ArmAll(arms, made), a)
    {
      assert ArmOk(b, arms, a);
      ArmAllIs(arms, made, a);
    }
  }

  lemma DeliveryNew(b: Book, c: Book, d: Deadline, log: seq<Delivery>)
    requires BookInv(b) && DeliveryInv(b, log)
    requires c.deadlines == b.deadlines[b.calls := d] && forall k :: !FiredIn(d, k)
    ensures DeliveryInv(c, log)
  {
    hide Good, FiredIn;
    FreshCall(b);
    forall x: Delivery
      ensures DeliveryOk(c, log, x)
    {
      assert DeliveryOk(b, log, x);
    }
  }

  lemma ScheduleInv(s: Desk, rule: Rule, inputs: map<string, DateTime>, idem: string, now: int)
    requires Inv(s) && ValidInputs(inputs)
    ensures Inv(Schedule(s, rule, inputs, idem, now).0)
  {
    hide Good, LiveIn, FiredIn, ArmAll, ArmsInv, DeliveryInv, SeenInv, Due, Made, FireAt, Sort, Save, BookInv,
         Instant, ValidTime, MadeAt;
    var call := s.book.calls;
    if Find(s.book, idem).None? && Due(rule, inputs).Ok? {
      var trace := Due(rule, inputs).value;
      DueTime(rule, inputs);
      if Instant(trace.dueAt) < now {
        FlaggedInv(s, Deadline(call, idem, trace, [], true, 0));
      } else {
        var made := Made(call, trace.dueAt, rule.reminders, idem, now);
        MadeIs(call, trace.dueAt, rule.reminders, idem, now);
        MadeCalls(call, trace.dueAt, rule.reminders, idem, now, made);
        if |made| < |rule.reminders| {
          MoreCalls(s.book);
          ArmNew(s.book, s.arms, made, s.book.(calls := call + 1), None);
          MoreCallsDelivery(s.book, s.delivered);
        } else {
          CreatedInv(s, Deadline(call, idem, trace, Sort(made), false, 0), rule.reminders, now, made);
        }
      }
    }
  }

  lemma MadeCalls(call: nat, due: DateTime, offsets: seq<ReminderOffset>, idem: string, now: int, made: seq<Reminder>)
    requires ValidTime(due) && |made| <= |offsets|
    requires forall i :: 0 <= i < |made| ==> MadeAt(made[i], call, i, due, offsets[i], idem, now)
    ensures forall i :: 0 <= i < |made| ==> made[i].id.call == call
  {
    hide FireAt, ValidTime, Instant;
  }

  lemma MoreCallsDelivery(b: Book, log: seq<Delivery>)
    requires DeliveryInv(b, log)
    ensures DeliveryInv(b.(calls := b.calls + 1), log)
  {
    hide FiredIn;
    var c := b.(calls := b.calls + 1);
    forall x: Delivery
      ensures DeliveryOk(c, log, x)
    {
      assert DeliveryOk(b, log, x);
    }
  }

  lemma SavedDeadlines(b: Book, d: Deadline)
    ensures Save(b, d).deadlines == b.deadlines[d.id := d] && Save(b, d).calls == b.calls
  {
  }

  lemma FlaggedInv(s: Desk, d: Deadline)
    requires Inv(s) && d.id == s.book.calls && Find(s.book, d.idem).None?
    requires d.reminders == [] && ValidTime(d.trace.dueAt)
    ensures Inv(s.(book := Save(s.book.(calls := s.book.calls + 1), d)))
  {
    hide ArmAll, ArmsInv, DeliveryInv, SeenInv, Save, BookInv, ValidTime, Find;
    var c := Save(s.book.(calls := s.book.calls + 1), d);
    SavedDeadlines(s.book.(calls := s.book.calls + 1), d);
    SaveNew(s.book, d);
    NoArms(s.arms);
    ArmNew(s.book, s.arms, [], c, Some(d));
    DeliveryNew(s.book, c, d, s.delivered);
  }

  lemma NoArms(arms: map<ArmId, Arm>)
    ensures ArmAll(arms, []) == arms
  {
  }

  lemma CreatedInv(s: Desk, d: Deadline, offsets: seq<ReminderOffset>, now: int, made: seq<Reminder>)
    requires Inv(s) && d.id == s.book.calls && Find(s.book, d.idem).None?
    requires ValidTime(d.trace.dueAt) && |made| <= |offsets| && d.reminders == Sort(made)
    requires forall i :: 0 <= i < |made| ==>
      MadeAt(made[i], d.id, i, d.trace.dueAt, offsets[i], d.idem, now)
    ensures Inv(s.(book := Save(s.book.(calls := s.book.calls + 1), d), arms := ArmAll(s.arms, made)))
  {
    hide ArmAll, ArmsInv, DeliveryInv, SeenInv, Save, BookInv, ValidTime, Find, Good, LiveIn, FiredIn, MadeAt, Sort,
         ArmedIn;
    var c := Save(s.book.(calls := s.book.calls + 1), d);
    SavedDeadlines(s.book.(calls := s.book.calls + 1), d);
    NewDeadline(d, offsets, now, made);
    SaveNew(s.book, d);
    MadeCalls(d.id, d.trace.dueAt, offsets, d.idem, now, made);
    ArmNew(s.book, s.arms, made, c, Some(d));
    DeliveryNew(s.book, c, d, s.delivered);
  }

  // ----- every history -------------------------------------------------------------------------

  lemma StepInv(s: Desk, e: Event)
    requires Inv(s) && ValidEvent(e)
    ensures Inv(Step(s, e))
  {
    hide Inv, Schedule, Fire, Escalate, Done, ValidInputs;
    match e {
      case ScheduleCall(rule, inputs, idem, now) => ScheduleInv(s, rule, inputs, idem, now);
      case FireCall(id, key, redis, delivers) => FireInv(s, id, key, redis, delivers);
      case EscalateCall(id) => EscalateInv(s, id);
      case DoneCall(id) => DoneInv(s, id);
      case Expire(key) => ExpireInv(s, key);
    }
  }

  lemma ExpireInv(s: Desk, key: Key)
    requires Inv(s)
    ensures Inv(s.(seen := s.seen - {key}))
  {
    hide BookInv, ArmsInv, DeliveryInv;
  }

  lemma EmptyInv()
    ensures Inv(EMPTY_DESK)
  {
    var s := EMPTY_DESK;
    assert forall a: ArmId :: ArmOk(s.book, s.arms, a);
    assert forall x: Delivery :: DeliveryOk(s.book, s.delivered, x);
  }

  /** Every history of calls keeps the desk in order; in particular no delivery is repeated, and a
      reminder has been delivered exactly if it is marked fired. */
  lemma {:induction false} HistoryInv(h: seq<Event>)
    requires ValidHistory(h)
    ensures Inv(Run(h))
  {
    hide Inv, Step, ValidEvent, EMPTY_DESK;
    if h == [] {
      EmptyInv();
    } else {
      var n := |h| - 1;
      assert forall e <- h[..n] :: e in h;
      HistoryInv(h[..n]);
      assert h[n] in h;
      StepInv(Run(h[..n]), h[n]);
    }
  }

  /** Each reminder of each deadline is delivered at most once. */
  lemma DeliveredAtMostOnce(h: seq<Event>, i: nat, j: nat)
    requires ValidHistory(h) && i < j < |Run(h).delivered|
    ensures Run(h).delivered[i] != Run(h).delivered[j]
  {
    hide Run, BookInv, ArmsInv, SeenInv, ValidHistory, DeliveryOk;
    HistoryInv(h);
  }

  // ----- what one call does to the records -----------------------------------------------------

  ghost predicate Preserves(b: Book, c: Book) {
    forall id <- b.deadlines :: id in c.deadlines && Evolves(b.deadlines[id], c.deadlines[id])
  }

  lemma SaveOther(b: Book, d: Deadline)
    requires d.id in b.deadlines ==> Evolves(b.deadlines[d.id], d)
    ensures Preserves(b, Save(b, d)) && Preserves(b.(calls := b.calls + 1), Save(b.(calls := b.calls + 1), d))
  {
  }

  lemma SchedulePreserves(s: Desk, rule: Rule, inputs: map<string, DateTime>, idem: string, now: int)
    requires Inv(s) && ValidInputs(inputs)
    ensures Preserves(s.book, Schedule(s, rule, inputs, idem, now).0.book)
    ensures forall id <- s.book.deadlines ::
      Schedule(s, rule, inputs, idem, now).0.book.deadlines[id] == s.book.deadlines[id]
  {
    hide Good, ArmAll, ArmsInv, DeliveryInv, SeenInv, Due, Made, FireAt, Sort, BookInv, Instant, ValidTime, Find;
    FreshCall(s.book);
  }

  /** No call loses a deadline; the record only changes in its level, upwards, and in statuses that
      move from armed to fired or to skipped. */
  lemma StepPreserves(s: Desk, e: Event)
    requires Inv(s) && ValidEvent(e)
    ensures Preserves(s.book, Step(s, e).book)
  {
    hide Good, Schedule, ArmsInv, DeliveryInv, SeenInv, FirstWith, MarkFired, MarkSkipped, Save, CancelAll;
    match e {
      case ScheduleCall(rule, inputs, idem, now) =>
        SchedulePreserves(s, rule, inputs, idem, now);
      case FireCall(id, key, redis, delivers) =>
        if Fire(s, id, key, redis, delivers).1 == Delivered {
          var d := s.book.deadlines[id];
          assert Kept(s.book, id);
          MarkFiredEvolves(d, key);
          SaveOther(s.book, MarkFired(d, key));
        }
      case EscalateCall(id) =>
        if id in s.book.deadlines {
          var d := s.book.deadlines[id];
          assert Kept(s.book, id);
          SaveOther(s.book, d.(level := d.level + 1));
        }
      case DoneCall(id) =>
        if id in s.book.deadlines {
          var d := s.book.deadlines[id];
          assert Kept(s.book, id);
          MarkSkippedEvolves(d);
          SaveOther(s.book, MarkSkipped(d));
        }
      case Expire(_) =>
    }
  }

  lemma EvolvesOn(d: Deadline, e: Deadline, f: Deadline)
    requires Evolves(d, e) && Evolves(e, f)
    ensures Evolves(d, f)
  {
  }

  /** A deadline stored at some point of a history is still there at its end, and has only evolved:
      what was fired or skipped stays so. */
  lemma {:induction false} HistoryPreserves(h: seq<Event>, n: nat)
    requires ValidHistory(h) && n <= |h|
    ensures ValidHistory(h[..n]) && Preserves(Run(h[..n]).book, Run(h).book)
    decreases |h| - n
  {
    hide Inv, Step, ValidEvent, Evolves;
    PrefixValid(h, n);
    if n == |h| {
      assert h[..n] == h;
      SelfPreserves(Run(h).book);
    } else {
      HistoryPreserves(h, n + 1);
      var before, after := h[..n], h[..n + 1];
      assert after[..n] == before;
      HistoryInv(before);
      StepPreserves(Run(before), h[n]);
      assert Run(after) == Step(Run(before), h[n]);
      PreservesOn(Run(before).book, Run(after).book, Run(h).book);
    }
  }

  lemma PrefixValid(h: seq<Event>, n: nat)
    requires ValidHistory(h) && n <= |h|
    ensures ValidHistory(h[..n])
    ensures n < |h| ==> ValidEvent(h[n])
  {
    hide ValidEvent;
    assert forall e <- h[..n] :: e in h;
    assert n < |h| ==> h[n] in h;
  }

  lemma SelfPreserves(b: Book)
    ensures Preserves(b, b)
  {
  }

  lemma PreservesOn(a: Book, b: Book, c: Book)
    requires Preserves(a, b) && Preserves(b, c)
    ensures Preserves(a, c)
  {
    hide Evolves;
    forall id | id in a.deadlines
      ensures id in c.deadlines && Evolves(a.deadlines[id], c.deadlines[id])
    {
      EvolvesOn(a.deadlines[id], b.deadlines[id], c.deadlines[id]);
    }
  }

  // ----- escalation ----------------------------------------------------------------------------

  /** The escalation calls in the history that found the deadline. */
  ghost function Escalations(h: seq<Event>, id: nat): nat
    requires ValidHistory(h)
  {
    if h == [] then 0
    else
      var n := |h| - 1;
      PrefixValid(h, n);
      Escalations(h[..n], id)
      + if h[n] == EscalateCall(id) && id in Run(h[..n]).book.deadlines then 1 else 0
  }

  lemma StepLevel(s: Desk, e: Event, id: nat)
    requires Inv(s) && ValidEvent(e) && id in Step(s, e).book.deadlines
    ensures id in s.book.deadlines ==>
      Step(s, e).book.deadlines[id].level == s.book.deadlines[id].level + if e == EscalateCall(id) then 1 else 0
    ensures id !in s.book.deadlines ==> Step(s, e).book.deadlines[id].level == 0
  {
    hide Good, ArmsInv, DeliveryInv, SeenInv, FirstWith, CancelAll, Due, Made, FireAt, Sort, Instant, ValidTime, Find,
         ArmAll;
    if e.ScheduleCall? {
      SchedulePreserves(s, e.rule, e.inputs, e.idem, e.now);
    }
    assert forall k <- s.book.deadlines :: Kept(s.book, k);
  }

  /** A deadline's escalation level is the number of times it was escalated. */
  lemma {:induction false} LevelCountsEscalations(h: seq<Event>, id: nat)
    requires ValidHistory(h)
    ensures id in Run(h).book.deadlines ==> Run(h).book.deadlines[id].level == Escalations(h, id)
    ensures id !in Run(h).book.deadlines ==> Escalations(h, id) == 0
  {
    hide Inv, Step, ValidEvent, Evolves;
    if h != [] {
      var n := |h| - 1;
      PrefixValid(h, n);
      LevelCountsEscalations(h[..n], id);
      var s := Run(h[..n]);
      HistoryInv(h[..n]);
      StepPreserves(s, h[n]);
      if id in Run(h).book.deadlines {
        StepLevel(s, h[n], id);
      }
    }
  }
}
