/** The deadline tools as they run: a store, a scheduler, a notification port and dedup keys that the
    calls update in place. */
module ReminderService {
  import opened Wrappers
  import opened DueDate
  import opened Reminders
  import opened ReminderTheorems
  import opened ReminderCalls

  class InMemoryScheduler {
    var arms: map<ArmId, Arm>

    constructor ()
      ensures arms == map[]
    {
      arms := map[];
    }

    method ArmJob(id: ArmId, fireAt: DateTime, key: Key)
      modifies this
      ensures arms == old(arms)[id := Arm(fireAt, key)]
    {
      arms := arms[id := Arm(fireAt, key)];
    }

    /** Cancelling an arm that is not there does nothing. */
    method Cancel(id: ArmId)
      modifies this
      ensures arms == old(arms) - {id}
    {
      arms := arms - {id};
    }
  }

  class DeadlineStore {
    var deadlines: map<nat, Deadline>
    var byIdem: map<string, nat>
    /** The number of the next scheduling call, from which fresh identifiers are drawn. */
    var calls: nat

    constructor ()
      ensures View() == EMPTY_DESK.book
    {
      deadlines, byIdem, calls := map[], map[], 0;
    }

    function View(): Book
      reads this
    {
      Book(deadlines, byIdem, calls)
    }

    method Store(d: Deadline)
      modifies this
      ensures View() == Save(old(View()), d) && Filed(old(View()), View(), d)
    {
      deadlines := deadlines[d.id := d];
      if d.idem != "" {
        byIdem := byIdem[d.idem := d.id];
      }
    }

    method NextCall() returns (call: nat)
      modifies this
      ensures call == old(calls) && View() == old(View()).(calls := call + 1)
    {
      call := calls;
      calls := calls + 1;
    }
  }

  class NotificationPort {
    var sent: seq<Delivery>

    constructor ()
      ensures sent == []
    {
      sent := [];
    }

    /** Whether the delivery succeeds is up to the network. */
    method Notify(d: Delivery, succeeds: bool)
      modifies this
      ensures sent == if succeeds then old(sent) + [d] else old(sent)
    {
      if succeeds {
        sent := sent + [d];
      }
    }
  }

  class DedupKeys {
    var keys: set<Key>

    constructor ()
      ensures keys == {}
    {
      keys := {};
    }

    method Put(k: Key)
      modifies this
      ensures keys == old(keys) + {k}
    {
      keys := keys + {k};
    }
  }

  /** Making stops at the first offset without a date. */
  lemma {:induction false} MadeStops(call: nat, due: DateTime, offsets: seq<ReminderOffset>, idem: string, now: int,
                                     i: nat)
    requires ValidTime(due) && i < |offsets| && FireAt(due, offsets[i]).None?
    requires |Made(call, due, offsets[..i], idem, now)| == i
    ensures Made(call, due, offsets, idem, now) == Made(call, due, offsets[..i], idem, now)
    decreases |offsets|
  {
    hide FireAt, ValidTime, NewReminder;
    var n := |offsets| - 1;
    if i < n {
      assert offsets[..n][..i] == offsets[..i];
      MadeStops(call, due, offsets[..n], idem, now, i);
    }
  }

  lemma MadeNext(call: nat, due: DateTime, offsets: seq<ReminderOffset>, idem: string, now: int, i: nat)
    requires ValidTime(due) && i < |offsets| && FireAt(due, offsets[i]).Some?
    requires |Made(call, due, offsets[..i], idem, now)| == i
    ensures Made(call, due, offsets[..i + 1], idem, now)
         == Made(call, due, offsets[..i], idem, now)
          + [NewReminder(ReminderId(call, i), FireAt(due, offsets[i]).value, offsets[i], idem, now)]
  {
    hide FireAt, ValidTime, NewReminder;
    assert offsets[..i + 1][..i] == offsets[..i];
  }

  lemma ArmNext(arms: map<ArmId, Arm>, rs: seq<Reminder>, r: Reminder)
    ensures ArmAll(arms, rs + [r]) == if r.status != Armed then ArmAll(arms, rs)
      else ArmAll(arms, rs)[ArmId(r.id, false) := Arm(r.fireAt, r.key)][ArmId(r.id, true) := Arm(r.fireAt, r.key)]
  {
    assert (rs + [r])[..|rs|] == rs;
  }

  /** The reminder loop: arms as it goes, and stops where an offset has no date. */
  method ArmReminders(call: nat, due: DateTime, offsets: seq<ReminderOffset>, idem: string, now: int,
                      scheduler: InMemoryScheduler)
    returns (made: seq<Reminder>)
    requires ValidTime(due)
    modifies scheduler
    ensures made == Made(call, due, offsets, idem, now)
    ensures scheduler.arms == ArmAll(old(scheduler.arms), made)
    ensures MadeUpTo(made, call, due, offsets, idem, now) && ArmedOnBoth(old(scheduler.arms), scheduler.arms, made)
  {
    hide FireAt, ValidTime, Made, ArmAll, Instant, MadeUpTo, ArmedOnBoth;
    ghost var all := Made(call, due, offsets, idem, now);
    MadeIsUpTo(call, due, offsets, idem, now);
    Numbered(all, call, due, offsets, idem, now);
    ArmAllArms(scheduler.arms, all);
    made := [];
    assert offsets[..0] == [];
    MadeEmpty(call, due, idem, now, scheduler.arms);
    for i := 0 to |offsets|
      invariant |made| == i && made == Made(call, due, offsets[..i], idem, now)
      invariant scheduler.arms == ArmAll(old(scheduler.arms), made)
    {
      var fire := ResolveReminder(due, offsets[i]);
      if fire.None? {
        MadeStops(call, due, offsets, idem, now, i);
        return;
      }
      MadeNext(call, due, offsets, idem, now, i);
      var id, key := ReminderId(call, i), KeyOf(idem, offsets[i]);
      var r: Reminder;
      if Instant(fire.value) >= now {
        scheduler.ArmJob(ArmId(id, false), fire.value, key);
        scheduler.ArmJob(ArmId(id, true), fire.value, key);
        r := Reminder(id, fire.value, offsets[i], Armed, key, [ArmId(id, false), ArmId(id, true)]);
      } else {
        r := Reminder(id, fire.value, offsets[i], SkippedPast, key, []);
      }
      ArmNext(old(scheduler.arms), made, r);
      made := made + [r];
    }
    assert offsets[..|offsets|] == offsets;
  }

  lemma MadeEmpty(call: nat, due: DateTime, idem: string, now: int, arms: map<ArmId, Arm>)
    requires ValidTime(due)
    ensures Made(call, due, [], idem, now) == [] && ArmAll(arms, []) == arms
  {
  }

  method ToolDeadlineSchedule(rule: Rule, inputs: map<string, DateTime>, idem: string, now: int,
                              store: DeadlineStore, scheduler: InMemoryScheduler)
    returns (r: Scheduling)
    requires ValidInputs(inputs)
    modifies store, scheduler
    ensures (Desk(store.View(), scheduler.arms, [], {}), r)
         == Schedule(Desk(old(store.View()), old(scheduler.arms), [], {}), rule, inputs, idem, now)
    ensures Schedules(Desk(old(store.View()), old(scheduler.arms), [], {}), rule, inputs, idem, now,
                      Desk(store.View(), scheduler.arms, [], {}), r)
  {
    hide Due, Made, ArmAll, Instant, ValidTime, ValidInputs, Save, Sort, Schedules, MadeUpTo, ArmedOnBoth, Filed, DueIs;
    ScheduleIs(Desk(store.View(), scheduler.arms, [], {}), rule, inputs, idem, now);
    if idem in store.byIdem && store.byIdem[idem] in store.deadlines {
      return Existing(store.deadlines[store.byIdem[idem]].id);
    }
    var computed := ComputeDueDate(rule, inputs);
    if computed.Err? {
      return Failed(computed.error);
    }
    var trace := computed.value;
    DueTime(rule, inputs);
    var call := store.NextCall();
    if Instant(trace.dueAt) < now {
      store.Store(Deadline(call, idem, trace, [], true, 0));
      return PastDue(call);
    }
    var made := ArmReminders(call, trace.dueAt, rule.reminders, idem, now, scheduler);
    if |made| < |rule.reminders| {
      return Failed(NoSuchDate);
    }
    store.Store(Deadline(call, idem, trace, Sort(made), false, 0));
    r := Created(call);
  }

  method FireReminder(id: nat, key: Key, store: DeadlineStore, port: NotificationPort, succeeds: bool,
                      redis: Option<DedupKeys>, ghost arms: map<ArmId, Arm>, ghost seen: set<Key>)
    returns (r: Firing)
    requires redis.Some? ==> redis.value.keys == seen
    modifies store, port, if redis.Some? then {redis.value} else {}
    ensures var after := Fire(Desk(old(store.View()), arms, old(port.sent), seen), id, key, redis.Some?, succeeds);
      && r == after.1 && store.View() == after.0.book && port.sent == after.0.delivered
      && (redis.Some? ==> redis.value.keys == after.0.seen)
    ensures Fires(Desk(old(store.View()), arms, old(port.sent), seen), id, key, redis.Some?, succeeds,
                  Desk(store.View(), arms, port.sent, if redis.Some? then redis.value.keys else seen), r)
  {
    hide Save, FirstWith, MarkFired, Fires, Filed;
    FireIs(Desk(store.View(), arms, port.sent, seen), id, key, redis.Some?, succeeds);
    if redis.Some? && key in redis.value.keys {
      return Declined;
    }
    if id !in store.deadlines {
      return Declined;
    }
    var d := store.deadlines[id];
    var found := FirstWith(d.reminders, key);
    if found.None? || found.value.status != Armed {
      return Declined;
    }
    port.Notify(Delivery(id, key), succeeds);
    if !succeeds {
      return NotifyFailed;
    }
    store.Store(MarkFired(d, key));
    if redis.Some? {
      redis.value.Put(key);
    }
    r := Delivered;
  }

  method EscalateDeadline(id: nat, store: DeadlineStore, ghost rest: Desk) returns (level: nat)
    modifies store
    ensures (rest.(book := store.View()), level) == Escalate(rest.(book := old(store.View())), id)
    ensures Escalates(rest.(book := old(store.View())), id, rest.(book := store.View()), level)
  {
    if id !in store.deadlines {
      return 0;
    }
    var d := store.deadlines[id];
    level := d.level + 1;
    store.Store(d.(level := if d.level > level then d.level else level));
  }

  lemma CancelNext(arms: map<ArmId, Arm>, rs: seq<Reminder>, i: nat)
    requires i < |rs|
    ensures CancelAll(arms, rs[..i + 1]) == if rs[i].status != Armed then CancelAll(arms, rs[..i])
      else CancelAll(arms, rs[..i]) - (set a | a in rs[i].arms)
  {
    assert rs[..i + 1][..i] == rs[..i];
  }

  method CancelArms(ids: seq<ArmId>, scheduler: InMemoryScheduler)
    modifies scheduler
    ensures scheduler.arms == old(scheduler.arms) - (set a | a in ids)
  {
    for j := 0 to |ids|
      invariant scheduler.arms == old(scheduler.arms) - (set a | a in ids[..j])
    {
      scheduler.Cancel(ids[j]);
      assert ids[..j + 1] == ids[..j] + [ids[j]];
    }
    assert ids[..|ids|] == ids;
  }

  method MarkDone(id: nat, store: DeadlineStore, scheduler: InMemoryScheduler, ghost log: seq<Delivery>,
                  ghost seen: set<Key>)
    modifies store, scheduler
    ensures Desk(store.View(), scheduler.arms, log, seen)
         == Done(Desk(old(store.View()), old(scheduler.arms), log, seen), id)
    ensures Finishes(Desk(old(store.View()), old(scheduler.arms), log, seen), id,
                     Desk(store.View(), scheduler.arms, log, seen))
  {
    hide Save, MarkSkipped, CancelAll, Finishes, Filed;
    DoneIs(Desk(store.View(), scheduler.arms, log, seen), id);
    if id !in store.deadlines {
      return;
    }
    var d := store.deadlines[id];
    var rs := d.reminders;
    assert rs[..0] == [];
    CancelNone(scheduler.arms);
    for i := 0 to |rs|
      invariant scheduler.arms == CancelAll(old(scheduler.arms), rs[..i])
      invariant store.View() == old(store.View())
    {
      CancelNext(old(scheduler.arms), rs, i);
      if rs[i].status == Armed {
        CancelArms(rs[i].arms, scheduler);
      }
    }
    assert rs[..|rs|] == rs;
    store.Store(MarkSkipped(d));
  }

  lemma CancelNone(arms: map<ArmId, Arm>)
    ensures CancelAll(arms, []) == arms
  {
  }
}
