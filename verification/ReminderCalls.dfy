/** What each reminder call answers and leaves behind, said field by field
    (src/cam/core/services/deadline/schedule.py, firing.py). */
module ReminderCalls {
  import opened Wrappers
  import opened DueDate
  import opened Reminders
  import opened ReminderLifecycle

  /** `c` is `b` with the deadline filed under its number and, unless it is empty, its key. */
  predicate Filed(b: Book, c: Book, d: Deadline) {
    && c.deadlines == b.deadlines[d.id := d] && c.calls == b.calls
    && c.byIdem == if d.idem != "" then b.byIdem[d.idem := d.id] else b.byIdem
  }

  // ----- firing --------------------------------------------------------------------------------

  /** The first reminder with the key is armed. */
  ghost predicate FirstArmed(rs: seq<Reminder>, key: Key) {
    exists i: nat :: FirstAt(rs, key, i) && rs[i].status == Armed
  }

  ghost predicate FirstAt(rs: seq<Reminder>, key: Key, i: nat) {
    i < |rs| && rs[i].key == key && forall j :: 0 <= j < i ==> rs[j].key != key
  }

  /** `e` is `d` with every reminder of the key fired. */
  ghost predicate KeyFired(d: Deadline, e: Deadline, key: Key) {
    && e == d.(reminders := e.reminders) && |e.reminders| == |d.reminders|
    && forall i :: 0 <= i < |d.reminders| ==>
         e.reminders[i] == if d.reminders[i].key == key then d.reminders[i].(status := Fired) else d.reminders[i]
  }

  /** Firing is declined, without effect, if the key was seen, there is no such deadline or its first reminder
      with the key is not armed; it fails without effect if the notification fails; and otherwise the delivery is
      logged, every reminder of the key is fired and the key is seen where Redis is present. */
  ghost predicate Fires(s: Desk, id: nat, key: Key, redis: bool, delivers: bool, t: Desk, outcome: Firing) {
    if (redis && key in s.seen) || id !in s.book.deadlines || !FirstArmed(s.book.deadlines[id].reminders, key) then
      t == s && outcome == Declined
    else if !delivers then t == s && outcome == NotifyFailed
    else
      && outcome == Delivered && t == s.(book := t.book, delivered := s.delivered + [Delivery(id, key)], seen := t.seen)
      && t.seen == (if redis then s.seen + {key} else s.seen)
      && exists e: Deadline :: KeyFired(s.book.deadlines[id], e, key) && Filed(s.book, t.book, e)
  }

  ghost predicate HasKey(rs: seq<Reminder>, key: Key) {
    exists i :: 0 <= i < |rs| && rs[i].key == key
  }

  lemma FirstArmedSnoc(rs: seq<Reminder>, r: Reminder, key: Key)
    ensures HasKey(rs + [r], key) <==> HasKey(rs, key) || r.key == key
    ensures FirstArmed(rs + [r], key) <==>
      if HasKey(rs, key) then FirstArmed(rs, key) else r.key == key && r.status == Armed
  {
    var all := rs + [r];
    assert all[|rs|] == r;
    assert forall j :: 0 <= j < |rs| ==> all[j] == rs[j];
    if HasKey(rs, key) {
      var i :| 0 <= i < |rs| && rs[i].key == key;
      assert all[i].key == key;
    } else {
      assert r.key == key ==> FirstAt(all, key, |rs|);
    }
    forall i: nat | i < |rs|
      ensures FirstAt(all, key, i) <==> FirstAt(rs, key, i)
    {
    }
  }

  lemma {:induction false} FirstWithIs(rs: seq<Reminder>, key: Key)
    ensures FirstArmed(rs, key) <==> FirstWith(rs, key).Some? && FirstWith(rs, key).value.status == Armed
    ensures FirstWith(rs, key).Some? <==> HasKey(rs, key)
    decreases |rs|
  {
    if rs != [] {
      hide HasKey, FirstArmed;
      var n := |rs| - 1;
      assert rs == rs[..n] + [rs[n]];
      FirstWithIs(rs[..n], key);
      FirstArmedSnoc(rs[..n], rs[n], key);
    }
  }

  lemma FireIs(s: Desk, id: nat, key: Key, redis: bool, delivers: bool)
    ensures var x := Fire(s, id, key, redis, delivers); Fires(s, id, key, redis, delivers, x.0, x.1)
  {
    hide FirstWith, FirstArmed;
    if id in s.book.deadlines {
      var d := s.book.deadlines[id];
      FirstWithIs(d.reminders, key);
      assert KeyFired(d, MarkFired(d, key), key);
    }
  }

  lemma FiredOnce(d: Deadline, a: Deadline, b: Deadline, key: Key)
    requires KeyFired(d, a, key) && KeyFired(d, b, key)
    ensures a == b
  {
    assert a.reminders == b.reminders;
  }

  /** The description holds of exactly one answer and one outcome, those of the firing. */
  lemma FireIff(s: Desk, id: nat, key: Key, redis: bool, delivers: bool, t: Desk, outcome: Firing)
    ensures Fires(s, id, key, redis, delivers, t, outcome) <==> Fire(s, id, key, redis, delivers) == (t, outcome)
  {
    hide FirstArmed, KeyFired, Fire;
    FireIs(s, id, key, redis, delivers);
    var x := Fire(s, id, key, redis, delivers);
    if Fires(s, id, key, redis, delivers, t, outcome) && outcome == Delivered {
      var d := s.book.deadlines[id];
      var a: Deadline :| KeyFired(d, a, key) && Filed(s.book, t.book, a);
      var b: Deadline :| KeyFired(d, b, key) && Filed(s.book, x.0.book, b);
      FiredOnce(d, a, b, key);
    }
  }

  // ----- escalating and finishing --------------------------------------------------------------

  /** Escalation of a stored deadline answers and stores the next level; there is nothing else to it. */
  predicate Escalates(s: Desk, id: nat, t: Desk, level: nat) {
    if id !in s.book.deadlines then t == s && level == 0
    else
      var d := s.book.deadlines[id];
      level == d.level + 1 && t == s.(book := t.book) && Filed(s.book, t.book, d.(level := d.level + 1))
  }

  /** The description holds of exactly one answer and one outcome, those of the escalation. */
  lemma EscalateIff(s: Desk, id: nat, t: Desk, level: nat)
    ensures Escalates(s, id, t, level) <==> Escalate(s, id) == (t, level)
  {
  }

  /** The scheduler no longer holds the arms of the armed reminders; it holds every other one as before. */
  ghost predicate Disarmed(before: map<ArmId, Arm>, after: map<ArmId, Arm>, rs: seq<Reminder>) {
    forall a: ArmId ::
      && (a in after <==> a in before && !ArmOfArmed(rs, a))
      && (a in after ==> after[a] == before[a])
  }

  ghost predicate ArmOfArmed(rs: seq<Reminder>, a: ArmId) {
    exists i :: 0 <= i < |rs| && rs[i].status == Armed && a in rs[i].arms
  }

  /** `e` is `d` with every armed reminder skipped, so that none is armed. */
  ghost predicate Skipped(d: Deadline, e: Deadline) {
    && e == d.(reminders := e.reminders) && |e.reminders| == |d.reminders|
    && forall i :: 0 <= i < |d.reminders| ==>
         && e.reminders[i].status != Armed
         && e.reminders[i] == if d.reminders[i].status == Armed then d.reminders[i].(status := SkippedPast)
                              else d.reminders[i]
  }

  /** Finishing a stored deadline skips its armed reminders and cancels their arms. */
  ghost predicate Finishes(s: Desk, id: nat, t: Desk) {
    if id !in s.book.deadlines then t == s
    else
      var d := s.book.deadlines[id];
      && t == s.(book := t.book, arms := t.arms) && Disarmed(s.arms, t.arms, d.reminders)
      && exists e: Deadline :: Skipped(d, e) && Filed(s.book, t.book, e)
  }

  lemma {:induction false} CancelAllDisarms(arms: map<ArmId, Arm>, rs: seq<Reminder>)
    ensures Disarmed(arms, CancelAll(arms, rs), rs)
    decreases |rs|
  {
    if rs != [] {
      var n := |rs| - 1;
      CancelAllDisarms(arms, rs[..n]);
      forall a: ArmId
        ensures ArmOfArmed(rs, a) <==> ArmOfArmed(rs[..n], a) || (rs[n].status == Armed && a in rs[n].arms)
      {
        OfArmedSnoc(rs, n, a);
      }
    }
  }

  lemma OfArmedSnoc(rs: seq<Reminder>, n: nat, a: ArmId)
    requires |rs| == n + 1
    ensures ArmOfArmed(rs, a) <==> ArmOfArmed(rs[..n], a) || (rs[n].status == Armed && a in rs[n].arms)
  {
    if ArmOfArmed(rs[..n], a) {
      var i :| 0 <= i < n && rs[..n][i].status == Armed && a in rs[..n][i].arms;
      assert rs[i].status == Armed;
    }
    if ArmOfArmed(rs, a) {
      var i :| 0 <= i <= n && rs[i].status == Armed && a in rs[i].arms;
      if i < n {
        assert rs[..n][i].status == Armed;
      }
    }
  }

  lemma DoneIs(s: Desk, id: nat)
    ensures Finishes(s, id, Done(s, id))
  {
    hide Disarmed, CancelAll;
    if id in s.book.deadlines {
      var d := s.book.deadlines[id];
      CancelAllDisarms(s.arms, d.reminders);
      assert Skipped(d, MarkSkipped(d));
    }
  }

  lemma SkippedOnce(d: Deadline, a: Deadline, b: Deadline)
    requires Skipped(d, a) && Skipped(d, b)
    ensures a == b
  {
    assert a.reminders == b.reminders;
  }

  lemma DisarmedOnce(before: map<ArmId, Arm>, a: map<ArmId, Arm>, b: map<ArmId, Arm>, rs: seq<Reminder>)
    requires Disarmed(before, a, rs) && Disarmed(before, b, rs)
    ensures a == b
  {
    hide ArmOfArmed;
    assert forall x: ArmId :: x in a <==> x in b;
  }

  /** The description holds of exactly one outcome, that of finishing. */
  lemma DoneIff(s: Desk, id: nat, t: Desk)
    ensures Finishes(s, id, t) <==> Done(s, id) == t
  {
    hide Skipped, Disarmed, Done;
    DoneIs(s, id);
    var x := Done(s, id);
    if Finishes(s, id, t) && id in s.book.deadlines {
      var d := s.book.deadlines[id];
      var a: Deadline :| Skipped(d, a) && Filed(s.book, t.book, a);
      var b: Deadline :| Skipped(d, b) && Filed(s.book, x.book, b);
      SkippedOnce(d, a, b);
      DisarmedOnce(s.arms, t.arms, x.arms, d.reminders);
    }
  }

  // ----- scheduling ----------------------------------------------------------------------------

  /** Reminder number `i` of a call's rule as it is first stored: at its fire time, under the key of the
      deadline and its offset, armed on two paths if that time is not past and skipped without arms otherwise. */
  ghost predicate FirstStored(r: Reminder, call: nat, i: nat, due: DateTime, offset: ReminderOffset, idem: string,
                              now: int)
    requires ValidTime(due)
  {
    var id := ReminderId(call, i);
    var key := Key(idem, offset.amount, offset.timeUnit);
    && FiresThen(due, offset, r.fireAt)
    && r == if Instant(r.fireAt) >= now
            then Reminder(id, r.fireAt, offset, Armed, key, [ArmId(id, false), ArmId(id, true)])
            else Reminder(id, r.fireAt, offset, SkippedPast, key, [])
  }

  /** The offset's reminder fires at `fire`. */
  ghost predicate FiresThen(due: DateTime, offset: ReminderOffset, fire: DateTime)
    requires ValidTime(due)
  {
    fire == due.(date := fire.date) && Reminds(due.date, offset, fire.date)
  }

  /** `made` are the reminders of the rule up to the first whose offset leads nowhere. */
  ghost predicate MadeUpTo(made: seq<Reminder>, call: nat, due: DateTime, offsets: seq<ReminderOffset>, idem: string,
                           now: int)
    requires ValidTime(due)
  {
    && |made| <= |offsets|
    && (forall i :: 0 <= i < |made| ==> FirstStored(made[i], call, i, due, offsets[i], idem, now))
    && (|made| < |offsets| ==> forall fire :: !FiresThen(due, offsets[|made|], fire))
  }

  /** The scheduler holds both arms of every armed reminder, at its fire time and with its key, and every
      other arm as before. */
  ghost predicate ArmedOnBoth(before: map<ArmId, Arm>, after: map<ArmId, Arm>, rs: seq<Reminder>) {
    && (forall i :: 0 <= i < |rs| && rs[i].status == Armed ==>
          && HoldsArm(after, ArmId(rs[i].id, false), rs[i]) && HoldsArm(after, ArmId(rs[i].id, true), rs[i]))
    && (forall a: ArmId :: !ArmedIn(rs, a.reminder) ==>
          (a in after <==> a in before) && (a in before ==> after[a] == before[a]))
  }

  predicate HoldsArm(arms: map<ArmId, Arm>, a: ArmId, r: Reminder) {
    a in arms && arms[a] == Arm(r.fireAt, r.key)
  }

  /** Earlier fire times come first, and at one time the rule's order decides. */
  ghost predicate FiringOrder(rs: seq<Reminder>) {
    forall i, j :: 0 <= i < j < |rs| ==> Before(rs[i], rs[j])
  }

  predicate Before(a: Reminder, b: Reminder) {
    Instant(a.fireAt) < Instant(b.fireAt) || (Instant(a.fireAt) == Instant(b.fireAt) && a.id.index < b.id.index)
  }

  /** What scheduling answers and leaves behind: the deadline on file under the key, without effect; the error of
      computing the due date, without effect; a flagged deadline without reminders if the due time is past; and
      otherwise the reminders armed up to the first whose offset leads nowhere, which is an error, or, if there is
      no such, the deadline filed with all of them in firing order. */
  ghost predicate Schedules(s: Desk, rule: Rule, inputs: map<string, DateTime>, idem: string, now: int, t: Desk,
                            outcome: Scheduling)
    requires ValidInputs(inputs)
  {
    if idem in s.book.byIdem && s.book.byIdem[idem] in s.book.deadlines then
      t == s && outcome == Existing(s.book.deadlines[s.book.byIdem[idem]].id)
    else
      exists computed: Result<Trace, Error> ::
        && DueIs(rule, inputs, computed)
        && match computed
           case Err(error) => t == s && outcome == Failed(error)
           case Ok(trace) => ValidTime(trace.dueAt) && SchedulesDue(s, trace, rule.reminders, idem, now, t, outcome)
  }

  ghost predicate SchedulesDue(s: Desk, trace: Trace, offsets: seq<ReminderOffset>, idem: string, now: int, t: Desk,
                               outcome: Scheduling)
    requires ValidTime(trace.dueAt)
  {
    var call := s.book.calls;
    var counted := s.book.(calls := call + 1);
    && t == s.(book := t.book, arms := t.arms)
    && if Instant(trace.dueAt) < now then
         && t.arms == s.arms && outcome == PastDue(call)
         && Filed(counted, t.book, Deadline(call, idem, trace, [], true, 0))
       else
         exists made: seq<Reminder> ::
           && MadeUpTo(made, call, trace.dueAt, offsets, idem, now) && ArmedOnBoth(s.arms, t.arms, made)
           && if |made| < |offsets| then t.book == counted && outcome == Failed(NoSuchDate)
              else outcome == Created(call) && FiledInOrder(counted, t.book, call, idem, trace, made)
  }

  ghost predicate FiledInOrder(b: Book, c: Book, call: nat, idem: string, trace: Trace, made: seq<Reminder>) {
    exists rs: seq<Reminder> ::
      multiset(rs) == multiset(made) && FiringOrder(rs) && Filed(b, c, Deadline(call, idem, trace, rs, false, 0))
  }

  lemma FirstStoredIs(r: Reminder, call: nat, i: nat, due: DateTime, offset: ReminderOffset, idem: string, now: int)
    requires ValidTime(due) && MadeAt(r, call, i, due, offset, idem, now)
    ensures FirstStored(r, call, i, due, offset, idem, now)
  {
    hide FireAt, Reminds, Instant;
    FiresAt(due, offset, r.fireAt);
  }

  lemma MadeIsUpTo(call: nat, due: DateTime, offsets: seq<ReminderOffset>, idem: string, now: int)
    requires ValidTime(due)
    ensures MadeUpTo(Made(call, due, offsets, idem, now), call, due, offsets, idem, now)
  {
    hide FireAt, Reminds, Instant, Made, FirstStored, MadeAt, ValidTime;
    var made := Made(call, due, offsets, idem, now);
    MadeIs(call, due, offsets, idem, now);
    forall i | 0 <= i < |made|
      ensures FirstStored(made[i], call, i, due, offsets[i], idem, now)
    {
      FirstStoredIs(made[i], call, i, due, offsets[i], idem, now);
    }
    if |made| < |offsets| {
      forall fire
        ensures !FiresThen(due, offsets[|made|], fire)
      {
        FiresAt(due, offsets[|made|], fire);
      }
    }
  }

  lemma ArmedInSnoc(rs: seq<Reminder>, r: Reminder, id: ReminderId)
    ensures ArmedIn(rs + [r], id) <==> ArmedIn(rs, id) || (r.id == id && r.status == Armed)
  {
    var all := rs + [r];
    if ArmedIn(rs, id) {
      var i :| 0 <= i < |rs| && rs[i].id == id && rs[i].status == Armed;
      assert all[i].id == id;
    }
    if r.id == id && r.status == Armed {
      assert all[|rs|].id == id;
    }
  }

  lemma ArmedOneMore(arms: map<ArmId, Arm>, before: map<ArmId, Arm>, after: map<ArmId, Arm>, rs: seq<Reminder>,
                     r: Reminder)
    requires ArmedOnBoth(arms, before, rs) && DistinctIds(rs + [r])
    requires after == if r.status != Armed then before
      else before[ArmId(r.id, false) := Arm(r.fireAt, r.key)][ArmId(r.id, true) := Arm(r.fireAt, r.key)]
    ensures ArmedOnBoth(arms, after, rs + [r])
  {
    hide ArmedIn;
    var all := rs + [r];
    forall i | 0 <= i < |rs|
      ensures rs[i].id != r.id
    {
      assert all[i].id != all[|rs|].id;
    }
    forall a: ArmId | !ArmedIn(all, a.reminder)
      ensures (a in after <==> a in arms) && (a in arms ==> after[a] == arms[a])
    {
      ArmedInSnoc(rs, r, a.reminder);
    }
  }

  lemma {:induction false} ArmAllArms(arms: map<ArmId, Arm>, rs: seq<Reminder>)
    requires DistinctIds(rs)
    ensures ArmedOnBoth(arms, ArmAll(arms, rs), rs)
    decreases |rs|
  {
    hide ArmedOnBoth;
    if rs == [] {
      NothingArmed(arms, rs);
    } else {
      var n := |rs| - 1;
      assert rs == rs[..n] + [rs[n]];
      ArmAllArms(arms, rs[..n]);
      ArmedOneMore(arms, ArmAll(arms, rs[..n]), ArmAll(arms, rs), rs[..n], rs[n]);
    }
  }

  lemma NothingArmed(arms: map<ArmId, Arm>, rs: seq<Reminder>)
    requires rs == []
    ensures ArmedOnBoth(arms, arms, rs)
  {
  }

  lemma {:induction false} InsertOrdered(r: Reminder, s: seq<Reminder>)
    requires FiringOrder(s) && forall i :: 0 <= i < |s| ==> s[i].id.index < r.id.index
    ensures FiringOrder(Insert(r, s)) && multiset(Insert(r, s)) == multiset(s) + multiset{r}
    decreases |s|
  {
    hide Instant;
    if s != [] && Instant(s[|s| - 1].fireAt) > Instant(r.fireAt) {
      var n := |s| - 1;
      assert s == s[..n] + [s[n]];
      InsertOrdered(r, s[..n]);
      var front := Insert(r, s[..n]);
      forall i | 0 <= i < |front|
        ensures Before(front[i], s[n])
      {
        assert front[i] in multiset(front);
      }
    }
  }

  /** Sorting puts reminders numbered in order into firing order. */
  lemma {:induction false} SortOrdered(s: seq<Reminder>)
    requires forall i :: 0 <= i < |s| ==> s[i].id.index == i
    ensures FiringOrder(Sort(s)) && multiset(Sort(s)) == multiset(s)
    decreases |s|
  {
    hide Insert, Before;
    if s != [] {
      var n := |s| - 1;
      assert s == s[..n] + [s[n]];
      SortOrdered(s[..n]);
      forall i | 0 <= i < |Sort(s[..n])|
        ensures Sort(s[..n])[i].id.index < n
      {
        assert Sort(s[..n])[i] in multiset(s[..n]);
      }
      InsertOrdered(s[n], Sort(s[..n]));
    }
  }

  lemma Numbered(made: seq<Reminder>, call: nat, due: DateTime, offsets: seq<ReminderOffset>, idem: string, now: int)
    requires ValidTime(due) && MadeUpTo(made, call, due, offsets, idem, now)
    ensures forall i :: 0 <= i < |made| ==> made[i].id.index == i
    ensures DistinctIds(made)
  {
    hide FiresThen, Instant, ValidTime;
    assert forall i :: 0 <= i < |made| ==> FirstStored(made[i], call, i, due, offsets[i], idem, now);
  }

  lemma ScheduleDueIs(s: Desk, rule: Rule, inputs: map<string, DateTime>, idem: string, now: int, trace: Trace)
    requires ValidInputs(inputs) && Find(s.book, idem).None? && Due(rule, inputs) == Ok(trace)
    ensures var x := Schedule(s, rule, inputs, idem, now);
      ValidTime(trace.dueAt) && SchedulesDue(s, trace, rule.reminders, idem, now, x.0, x.1)
  {
    hide Due, Made, ArmAll, Sort, Instant, Find, ValidTime, MadeUpTo, ArmedOnBoth, FiringOrder, ValidInputs;
    DueIsAdjusted(rule, inputs);
    if Instant(trace.dueAt) >= now {
      var made := Made(s.book.calls, trace.dueAt, rule.reminders, idem, now);
      MadeIsUpTo(s.book.calls, trace.dueAt, rule.reminders, idem, now);
      MadeIs(s.book.calls, trace.dueAt, rule.reminders, idem, now);
      Numbered(made, s.book.calls, trace.dueAt, rule.reminders, idem, now);
      ArmAllArms(s.arms, made);
      SortOrdered(made);
      if |made| == |rule.reminders| {
        var counted := s.book.(calls := s.book.calls + 1);
        var d := Deadline(s.book.calls, idem, trace, Sort(made), false, 0);
        assert Filed(counted, Save(counted, d), d);
        assert FiledInOrder(counted, Save(counted, d), s.book.calls, idem, trace, made);
      }
    }
  }

  lemma ScheduleIs(s: Desk, rule: Rule, inputs: map<string, DateTime>, idem: string, now: int)
    requires ValidInputs(inputs)
    ensures var x := Schedule(s, rule, inputs, idem, now); Schedules(s, rule, inputs, idem, now, x.0, x.1)
  {
    hide Due, DueIs, Made, ArmAll, Sort, Save, Instant, ValidTime, SchedulesDue, ValidInputs;
    if Find(s.book, idem).None? {
      var computed := Due(rule, inputs);
      DueIff(rule, inputs, computed);
      if computed.Ok? {
        ScheduleDueIs(s, rule, inputs, idem, now, computed.value);
      }
    }
  }

  lemma StoredOnce(a: Reminder, b: Reminder, call: nat, i: nat, due: DateTime, offset: ReminderOffset, idem: string,
                   now: int)
    requires ValidTime(due)
    requires FirstStored(a, call, i, due, offset, idem, now) && FirstStored(b, call, i, due, offset, idem, now)
    ensures a == b
  {
    hide Reminds, Instant, FireAt;
    FiresAt(due, offset, a.fireAt);
    FiresAt(due, offset, b.fireAt);
  }

  lemma MadeOnce(a: seq<Reminder>, b: seq<Reminder>, call: nat, due: DateTime, offsets: seq<ReminderOffset>,
                 idem: string, now: int)
    requires ValidTime(due)
    requires MadeUpTo(a, call, due, offsets, idem, now) && MadeUpTo(b, call, due, offsets, idem, now)
    ensures a == b
  {
    hide FirstStored, FiresThen, ValidTime;
    if |a| < |b| {
      StoredFires(b[|a|], call, |a|, due, offsets[|a|], idem, now);
    }
    if |b| < |a| {
      StoredFires(a[|b|], call, |b|, due, offsets[|b|], idem, now);
    }
    forall i | 0 <= i < |a|
      ensures a[i] == b[i]
    {
      StoredOnce(a[i], b[i], call, i, due, offsets[i], idem, now);
    }
  }

  lemma StoredFires(r: Reminder, call: nat, i: nat, due: DateTime, offset: ReminderOffset, idem: string, now: int)
    requires ValidTime(due) && FirstStored(r, call, i, due, offset, idem, now)
    ensures FiresThen(due, offset, r.fireAt)
  {
  }

  lemma ArmedOnce(before: map<ArmId, Arm>, a: map<ArmId, Arm>, b: map<ArmId, Arm>, rs: seq<Reminder>)
    requires ArmedOnBoth(before, a, rs) && ArmedOnBoth(before, b, rs)
    ensures a == b
  {
    forall x: ArmId
      ensures (x in a <==> x in b) && (x in a ==> a[x] == b[x])
    {
      if ArmedIn(rs, x.reminder) {
        var i :| 0 <= i < |rs| && rs[i].id == x.reminder && rs[i].status == Armed;
        assert x == ArmId(rs[i].id, false) || x == ArmId(rs[i].id, true);
      }
    }
  }

  lemma SameFirst(a: seq<Reminder>, b: seq<Reminder>)
    requires multiset(a) == multiset(b) && FiringOrder(a) && FiringOrder(b) && a != [] && b != []
    ensures a[0] == b[0]
  {
    hide Before;
    var i := Members(a, b, 0);
    var j := Members(b, a, 0);
    NeverBoth(a[0], b[0]);
  }

  lemma Tail(a: seq<Reminder>)
    requires a != [] && FiringOrder(a)
    ensures multiset(a[1..]) == multiset(a) - multiset{a[0]} && FiringOrder(a[1..])
  {
    hide Before;
    assert a == [a[0]] + a[1..];
  }

  lemma {:induction false} OrderedOnce(a: seq<Reminder>, b: seq<Reminder>)
    requires multiset(a) == multiset(b) && FiringOrder(a) && FiringOrder(b)
    ensures a == b
    decreases |a|
  {
    hide FiringOrder;
    assert |a| == |multiset(a)| == |b|;
    if a != [] {
      SameFirst(a, b);
      Tail(a);
      Tail(b);
      OrderedOnce(a[1..], b[1..]);
      assert a == [a[0]] + a[1..] && b == [b[0]] + b[1..];
    }
  }

  lemma NeverBoth(x: Reminder, y: Reminder)
    ensures !(Before(x, y) && Before(y, x))
  {
  }

  lemma FiledOnce(b: Book, c: Book, e: Book, call: nat, idem: string, trace: Trace, made: seq<Reminder>)
    requires FiledInOrder(b, c, call, idem, trace, made) && FiledInOrder(b, e, call, idem, trace, made)
    ensures c == e
  {
    hide FiringOrder;
    var rs: seq<Reminder> :| multiset(rs) == multiset(made) && FiringOrder(rs)
      && Filed(b, c, Deadline(call, idem, trace, rs, false, 0));
    var qs: seq<Reminder> :| multiset(qs) == multiset(made) && FiringOrder(qs)
      && Filed(b, e, Deadline(call, idem, trace, qs, false, 0));
    OrderedOnce(rs, qs);
  }

  lemma DueOnce(s: Desk, trace: Trace, offsets: seq<ReminderOffset>, idem: string, now: int, t: Desk, u: Desk,
                x: Scheduling, y: Scheduling)
    requires ValidTime(trace.dueAt)
    requires SchedulesDue(s, trace, offsets, idem, now, t, x) && SchedulesDue(s, trace, offsets, idem, now, u, y)
    ensures t == u && x == y
  {
    hide ValidTime, Instant, MadeUpTo, ArmedOnBoth, FiledInOrder;
    var call := s.book.calls;
    var counted := s.book.(calls := call + 1);
    if Instant(trace.dueAt) >= now {
      var made: seq<Reminder> :| MadeUpTo(made, call, trace.dueAt, offsets, idem, now)
        && ArmedOnBoth(s.arms, t.arms, made)
        && if |made| < |offsets| then t.book == counted && x == Failed(NoSuchDate)
           else x == Created(call) && FiledInOrder(counted, t.book, call, idem, trace, made);
      var other: seq<Reminder> :| MadeUpTo(other, call, trace.dueAt, offsets, idem, now)
        && ArmedOnBoth(s.arms, u.arms, other)
        && if |other| < |offsets| then u.book == counted && y == Failed(NoSuchDate)
           else y == Created(call) && FiledInOrder(counted, u.book, call, idem, trace, other);
      MadeOnce(made, other, call, trace.dueAt, offsets, idem, now);
      ArmedOnce(s.arms, t.arms, u.arms, made);
      if |made| >= |offsets| {
        FiledOnce(counted, t.book, u.book, call, idem, trace, made);
      }
    }
  }

  /** The description holds of exactly one answer and one outcome, those of the scheduling call. */
  lemma ScheduleIff(s: Desk, rule: Rule, inputs: map<string, DateTime>, idem: string, now: int, t: Desk,
                    outcome: Scheduling)
    requires ValidInputs(inputs)
    ensures Schedules(s, rule, inputs, idem, now, t, outcome) <==>
      Schedule(s, rule, inputs, idem, now) == (t, outcome)
  {
    hide Due, DueIs, Schedule, ValidTime, SchedulesDue, ValidInputs;
    ScheduleIs(s, rule, inputs, idem, now);
    var x := Schedule(s, rule, inputs, idem, now);
    if Schedules(s, rule, inputs, idem, now, t, outcome) {
      forall computed: Result<Trace, Error>
        ensures DueIs(rule, inputs, computed) <==> Due(rule, inputs) == computed
      {
        DueIff(rule, inputs, computed);
      }
      if Find(s.book, idem).None? && Due(rule, inputs).Ok? {
        DueOnce(s, Due(rule, inputs).value, rule.reminders, idem, now, t, x.0, outcome, x.1);
      }
    }
  }
}
