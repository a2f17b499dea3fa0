/** Every sequential history, seen from one deadline, is one of the interleavings of calls on it. */
module FiringRefinement {
  import opened Wrappers
  import opened Reminders
  import opened ReminderLifecycle
  import opened ReminderHistory
  import opened ReminderTheorems
  import DueDate
  import F = FiringProtocol

  // ----- One deadline as a record -----

  function Keys(rs: seq<Reminder>): set<Key> {
    set i | 0 <= i < |rs| :: rs[i].key
  }

  lemma KeyFound(rs: seq<Reminder>, k: Key)
    ensures k in Keys(rs) <==> FirstWith(rs, k).Some?
  {
    hide FirstWith;
  }

  function Statuses(rs: seq<Reminder>): map<Key, Status> {
    map k | k in Keys(rs) :: (KeyFound(rs, k); FirstWith(rs, k).value.status)
  }

  function RecordOf(d: Deadline): F.Record {
    F.Record(Statuses(d.reminders), d.level)
  }

  /** The status of a key is that of any reminder with it. */
  lemma StatusOf(rs: seq<Reminder>, i: nat)
    requires SameKeySameStatus(rs) && i < |rs|
    ensures rs[i].key in Statuses(rs) && Statuses(rs)[rs[i].key] == rs[i].status
  {
    hide FirstWith;
    KeyFound(rs, rs[i].key);
    assert rs[i].key in Keys(rs);
  }

  /** Reminders changed one by one, with their keys kept, change the record key by key. */
  lemma StatusesChange(a: seq<Reminder>, b: seq<Reminder>, after: map<Key, Status>)
    requires SameKeySameStatus(a) && SameKeySameStatus(b) && |a| == |b|
    requires forall i :: 0 <= i < |a| ==> b[i].key == a[i].key
    requires after.Keys == Keys(a) && forall i :: 0 <= i < |b| ==> after[b[i].key] == b[i].status
    ensures Statuses(b) == after
  {
    hide FirstWith, SameKeySameStatus;
    assert Keys(b) == Keys(a);
    forall k | k in Keys(b)
      ensures Statuses(b)[k] == after[k]
    {
      var i :| 0 <= i < |b| && b[i].key == k;
      StatusOf(b, i);
    }
  }

  lemma FiredRecord(d: Deadline, key: Key)
    requires Good(d) && FirstWith(d.reminders, key).Some? && FirstWith(d.reminders, key).value.status == Armed
    ensures key in Statuses(d.reminders)
    ensures RecordOf(MarkFired(d, key)) == F.Record(Statuses(d.reminders)[key := Fired], d.level)
  {
    hide FirstWith, Formed, Sorted, DistinctIds, SameKeySameStatus;
    MarkFiredEvolves(d, key);
    KeyFound(d.reminders, key);
    var a, b := d.reminders, MarkFired(d, key).reminders;
    forall i | 0 <= i < |b|
      ensures Statuses(a)[key := Fired][b[i].key] == b[i].status
    {
      StatusOf(a, i);
    }
    assert key in Keys(a);
    StatusesChange(a, b, Statuses(a)[key := Fired]);
  }

  lemma SkippedRecord(d: Deadline)
    requires Good(d)
    ensures RecordOf(MarkSkipped(d)) == F.Record(F.Skip(Statuses(d.reminders)), d.level)
  {
    hide FirstWith, Formed, Sorted, DistinctIds, SameKeySameStatus;
    MarkSkippedEvolves(d);
    var a, b := d.reminders, MarkSkipped(d).reminders;
    var after := F.Skip(Statuses(a));
    forall i | 0 <= i < |b|
      ensures b[i].key in after && after[b[i].key] == b[i].status
    {
      StatusOf(a, i);
    }
    assert after.Keys == Keys(a);
    StatusesChange(a, b, after);
  }

  /** The deliveries of the deadline, by key. */
  function DeliveredOf(log: seq<Delivery>, id: nat): seq<Key> {
    if log == [] then []
    else
      var last := log[|log| - 1];
      DeliveredOf(log[..|log| - 1], id) + if last.deadline == id then [last.key] else []
  }

  lemma DeliveredSnoc(log: seq<Delivery>, x: Delivery, id: nat)
    ensures DeliveredOf(log + [x], id) == DeliveredOf(log, id) + if x.deadline == id then [x.key] else []
  {
    assert (log + [x])[..|log|] == log;
  }

  function ViewOf(s: Desk, id: nat, calls: map<nat, F.Phase>): F.State
    requires id in s.book.deadlines
  {
    F.State(RecordOf(s.book.deadlines[id]), s.seen, DeliveredOf(s.delivered, id), calls)
  }

  // ----- One call, from its start to its end -----

  /** What a fire call does to the record, alone. */
  lemma FireAlone(f: F.State, c: nat, key: Key, redis: bool, ok: bool)
    requires c !in f.calls
    ensures var events := [F.StartFire(c, key, redis), F.Tick(c, ok), F.Tick(c, ok)] + [F.Tick(c, ok), F.Tick(c, ok)];
      var g := F.Exec(f, events);
      && g.calls == f.calls[c := F.Over]
      && if (redis && key in f.seen) || !F.IsArmed(f.record, key) || !ok
         then g == f.(calls := g.calls)
         else g == F.State(f.record.(statuses := f.record.statuses[key := Fired]),
                           if redis then f.seen + {key} else f.seen, f.delivered + [key], g.calls)
  {
    var tick := F.Tick(c, ok);
    var a := F.Next(f, F.StartFire(c, key, redis));
    var b := F.Next(a, tick);
    var d := F.Next(b, tick);
    var e := F.Next(d, tick);
    var g := F.Next(e, tick);
    FiveEvents(f, F.StartFire(c, key, redis), tick);
    assert g.calls == f.calls[c := F.Over];
  }

  lemma FiveEvents(f: F.State, start: F.Event, tick: F.Event)
    ensures F.Exec(f, [start, tick, tick] + [tick, tick])
         == F.Next(F.Next(F.Next(F.Next(F.Next(f, start), tick), tick), tick), tick)
  {
    hide F.Next;
    assert [start, tick, tick] == [start] + [tick, tick];
    F.ExecConcat(f, [start, tick, tick], [tick, tick]);
    F.ExecConcat(f, [start], [tick, tick]);
    assert [start][1..] == [] && F.Exec(F.Next(f, start), []) == F.Next(f, start);
    var a := F.Next(f, start);
    F.ExecTwo(a, tick, tick);
    F.ExecTwo(F.Next(F.Next(a, tick), tick), tick, tick);
  }

  lemma DoneAlone(f: F.State, c: nat)
    requires c !in f.calls
    ensures var g := F.Exec(f, [F.StartDone(c), F.Tick(c, true)]);
      && g == f.(record := f.record.(statuses := F.Skip(f.record.statuses)), calls := g.calls)
      && g.calls == f.calls[c := F.Over]
  {
    F.ExecTwo(f, F.StartDone(c), F.Tick(c, true));
  }

  lemma OneEvent(f: F.State, e: F.Event)
    ensures F.Exec(f, [e]) == F.Next(f, e)
  {
    hide F.Next;
    assert [e][1..] == [];
  }

  /** Some events of the interleaving model take `f` to `g`. */
  ghost predicate Leads(f: F.State, g: F.State) {
    exists events :: g == F.Exec(f, events)
  }

  lemma LeadsSelf(f: F.State)
    ensures Leads(f, f)
  {
    assert f == F.Exec(f, []);
  }

  lemma LeadsOn(f: F.State, g: F.State, h: F.State)
    requires Leads(f, g) && Leads(g, h)
    ensures Leads(f, h)
  {
    hide F.Exec;
    var a :| g == F.Exec(f, a);
    var b :| h == F.Exec(g, b);
    F.ExecConcat(f, a, b);
    assert h == F.Exec(f, a + b);
  }

  // ----- Every call on the desk -----

  lemma ArmedAgrees(d: Deadline, key: Key)
    ensures F.IsArmed(RecordOf(d), key)
       <==> FirstWith(d.reminders, key).Some? && FirstWith(d.reminders, key).value.status == Armed
  {
    hide FirstWith;
    KeyFound(d.reminders, key);
  }

  lemma FireOwn(s: Desk, id: nat, key: Key, redis: bool, ok: bool, calls: map<nat, F.Phase>)
    returns (after: map<nat, F.Phase>)
    requires Inv(s) && id in s.book.deadlines
    ensures var t := Fire(s, id, key, redis, ok).0;
      id in t.book.deadlines && Leads(ViewOf(s, id, calls), ViewOf(t, id, after))
  {
    hide FirstWith, MarkFired, Good, ArmsInv, DeliveryInv, SeenInv, F.Exec, DeliveredOf, Statuses;
    var c := Above(calls.Keys);
    var f, d := ViewOf(s, id, calls), s.book.deadlines[id];
    assert Kept(s.book, id);
    ArmedAgrees(d, key);
    FireAlone(f, c, key, redis, ok);
    var events := [F.StartFire(c, key, redis), F.Tick(c, ok), F.Tick(c, ok)] + [F.Tick(c, ok), F.Tick(c, ok)];
    after := calls[c := F.Over];
    var t := Fire(s, id, key, redis, ok).0;
    if F.IsArmed(f.record, key) && ok && !(redis && key in s.seen) {
      FiredRecord(d, key);
      MarkFiredEvolves(d, key);
      DeliveredSnoc(s.delivered, Delivery(id, key), id);
    }
    assert F.Exec(f, events) == ViewOf(t, id, after);
  }

  lemma FireOther(s: Desk, id: nat, x: nat, key: Key, redis: bool, ok: bool, calls: map<nat, F.Phase>)
    requires Inv(s) && id in s.book.deadlines && x != id
    ensures var t := Fire(s, x, key, redis, ok).0;
      id in t.book.deadlines && Leads(ViewOf(s, id, calls), ViewOf(t, id, calls))
  {
    hide FirstWith, MarkFired, Good, ArmsInv, DeliveryInv, SeenInv, F.Exec, DeliveredOf, RecordOf, Leads;
    var f := ViewOf(s, id, calls);
    var outcome := Fire(s, x, key, redis, ok).1;
    if outcome == Delivered {
      assert Kept(s.book, x);
      MarkFiredEvolves(s.book.deadlines[x], key);
      DeliveredSnoc(s.delivered, Delivery(x, key), id);
      assert DeliveredOf(s.delivered, id) + [] == DeliveredOf(s.delivered, id);
      assert ViewOf(Fire(s, x, key, redis, ok).0, id, calls) == f.(seen := if redis then f.seen + {key} else f.seen);
      if redis {
        OneEvent(f, F.Noted(key));
        LeadsBy(f, [F.Noted(key)]);
      } else {
        LeadsSelf(f);
      }
    } else {
      LeadsSelf(f);
    }
  }

  lemma LeadsBy(f: F.State, events: seq<F.Event>)
    ensures Leads(f, F.Exec(f, events))
  {
    hide F.Exec;
  }

  lemma EscalateStep(s: Desk, id: nat, x: nat, calls: map<nat, F.Phase>)
    requires Inv(s) && id in s.book.deadlines
    ensures var t := Escalate(s, x).0;
      id in t.book.deadlines && Leads(ViewOf(s, id, calls), ViewOf(t, id, calls))
  {
    hide Good, ArmsInv, DeliveryInv, SeenInv, F.Exec, DeliveredOf, Statuses, Leads;
    var f := ViewOf(s, id, calls);
    if x == id {
      assert Kept(s.book, id);
      OneEvent(f, F.Escalated);
      LeadsBy(f, [F.Escalated]);
    } else {
      if x in s.book.deadlines {
        assert Kept(s.book, x);
      }
      LeadsSelf(f);
    }
  }

  lemma DoneStep(s: Desk, id: nat, x: nat, calls: map<nat, F.Phase>) returns (after: map<nat, F.Phase>)
    requires Inv(s) && id in s.book.deadlines
    ensures var t := Done(s, x);
      id in t.book.deadlines && Leads(ViewOf(s, id, calls), ViewOf(t, id, after))
  {
    hide Good, ArmsInv, DeliveryInv, SeenInv, F.Exec, DeliveredOf, Statuses, Leads, MarkSkipped, CancelAll;
    var f := ViewOf(s, id, calls);
    if x == id {
      var c := Above(calls.Keys);
      assert Kept(s.book, id);
      var d := s.book.deadlines[id];
      MarkSkippedEvolves(d);
      SkippedRecord(d);
      DoneAlone(f, c);
      after := calls[c := F.Over];
      LeadsBy(f, [F.StartDone(c), F.Tick(c, true)]);
    } else {
      if x in s.book.deadlines {
        assert Kept(s.book, x);
        MarkSkippedEvolves(s.book.deadlines[x]);
      }
      after := calls;
      LeadsSelf(f);
    }
  }

  lemma ScheduleStep(s: Desk, id: nat, e: Event, calls: map<nat, F.Phase>)
    requires Inv(s) && id in s.book.deadlines && ValidEvent(e) && e.ScheduleCall?
    ensures var t := Step(s, e);
      id in t.book.deadlines && ViewOf(t, id, calls) == ViewOf(s, id, calls)
  {
    hide RecordOf, DeliveredOf, Inv, DueDate.Due, Made, ArmAll, Sort, Find, Save;
    SchedulePreserves(s, e.rule, e.inputs, e.idem, e.now);
  }

  /** Every call on the desk is, for the deadline, some events of the interleaving model. */
  lemma StepRefines(s: Desk, id: nat, e: Event, calls: map<nat, F.Phase>) returns (after: map<nat, F.Phase>)
    requires Inv(s) && id in s.book.deadlines && ValidEvent(e)
    ensures id in Step(s, e).book.deadlines && Leads(ViewOf(s, id, calls), ViewOf(Step(s, e), id, after))
  {
    hide Inv, Schedule, Fire, Escalate, Done, Leads, RecordOf, DeliveredOf, F.Exec;
    after := calls;
    match e {
      case ScheduleCall(_, _, _, _) =>
        ScheduleStep(s, id, e, calls);
        LeadsSelf(ViewOf(s, id, calls));
      case FireCall(x, key, redis, delivers) =>
        if x == id {
          after := FireOwn(s, id, key, redis, delivers, calls);
        } else {
          FireOther(s, id, x, key, redis, delivers, calls);
        }
      case EscalateCall(x) => EscalateStep(s, id, x, calls);
      case DoneCall(x) => after := DoneStep(s, id, x, calls);
      case Expire(key) =>
        var f := ViewOf(s, id, calls);
        OneEvent(f, F.Expire(key));
        LeadsBy(f, [F.Expire(key)]);
    }
  }

  /** From any point of a history at which the deadline is stored, what the rest of the history makes of its
      record, its deliveries and the dedup keys is what some interleaving of calls on it reaches; so what
      holds of every interleaving holds of every history. */
  lemma {:induction false} HistoryIsInterleaving(h: seq<Event>, n: nat, id: nat) returns (calls: map<nat, F.Phase>)
    requires ValidHistory(h) && n <= |h| && ValidHistory(h[..n]) && id in Run(h[..n]).book.deadlines
    ensures id in Run(h).book.deadlines
    ensures Leads(ViewOf(Run(h[..n]), id, map[]), ViewOf(Run(h), id, calls))
    decreases |h|
  {
    hide Inv, Step, Leads, ValidEvent, RecordOf, DeliveredOf;
    if n == |h| {
      assert h[..n] == h;
      calls := map[];
      LeadsSelf(ViewOf(Run(h), id, calls));
    } else {
      var m := |h| - 1;
      PrefixValid(h, m);
      assert h[..m][..n] == h[..n];
      var before := HistoryIsInterleaving(h[..m], n, id);
      HistoryInv(h[..m]);
      calls := StepRefines(Run(h[..m]), id, h[m], before);
      LeadsOn(ViewOf(Run(h[..n]), id, map[]), ViewOf(Run(h[..m]), id, before), ViewOf(Run(h), id, calls));
    }
  }
}
