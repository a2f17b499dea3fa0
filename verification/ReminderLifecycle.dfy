/** What every sequence of schedule, fire, escalate and done calls keeps. */
module ReminderLifecycle {
  import opened Wrappers
  import opened Gregorian
  import opened DueDate
  import opened Reminders

  // ----- one deadline --------------------------------------------------------------------------

  ghost predicate Formed(d: Deadline, r: Reminder)
    requires ValidTime(d.trace.dueAt)
  {
    && r.id.call == d.id
    && r.key == KeyOf(d.idem, r.offset)
    && FireAt(d.trace.dueAt, r.offset) == Some(r.fireAt)
    && (r.arms == Pair(r.id) || (r.arms == [] && r.status == SkippedPast))
  }

  ghost predicate SameKeySameStatus(rs: seq<Reminder>) {
    forall i, j :: 0 <= i < |rs| && 0 <= j < |rs| && rs[i].key == rs[j].key ==> rs[i].status == rs[j].status
  }

  predicate DistinctIds(rs: seq<Reminder>) {
    forall i, j :: 0 <= i < j < |rs| ==> rs[i].id != rs[j].id
  }

  predicate Sorted(rs: seq<Reminder>) {
    forall i, j :: 0 <= i < j < |rs| ==> Instant(rs[i].fireAt) <= Instant(rs[j].fireAt)
  }

  ghost predicate Good(d: Deadline) {
    && ValidTime(d.trace.dueAt)
    && (forall i :: 0 <= i < |d.reminders| ==> Formed(d, d.reminders[i]))
    && SameKeySameStatus(d.reminders)
    && DistinctIds(d.reminders)
    && Sorted(d.reminders)
  }

  predicate Moves(from: Status, to: Status) {
    from == to || from == Armed
  }

  /** Only statuses and the level differ, and a status only leaves `Armed`. */
  predicate Evolves(d: Deadline, e: Deadline) {
    && e == d.(reminders := e.reminders, level := e.level)
    && d.level <= e.level && |e.reminders| == |d.reminders|
    && forall i :: 0 <= i < |d.reminders| ==>
      e.reminders[i] == d.reminders[i].(status := e.reminders[i].status)
      && Moves(d.reminders[i].status, e.reminders[i].status)
  }

  /** A reminder whose arms the scheduler should hold. */
  ghost predicate LiveIn(d: Deadline, id: ReminderId) {
    exists i :: 0 <= i < |d.reminders| && d.reminders[i].id == id && d.reminders[i].status != SkippedPast
  }

  ghost predicate ArmedIn(rs: seq<Reminder>, id: ReminderId) {
    exists i :: 0 <= i < |rs| && rs[i].id == id && rs[i].status == Armed
  }

  ghost predicate FiredIn(d: Deadline, key: Key) {
    exists i :: 0 <= i < |d.reminders| && d.reminders[i].key == key && d.reminders[i].status == Fired
  }

  lemma EvolvedGood(d: Deadline, e: Deadline)
    requires Good(d) && Evolves(d, e)
    requires SameKeySameStatus(e.reminders)
    requires forall i :: 0 <= i < |e.reminders| && e.reminders[i].status != d.reminders[i].status ==>
      e.reminders[i].arms == Pair(e.reminders[i].id) || e.reminders[i].status == SkippedPast
    ensures Good(e)
  {
    hide FireAt, Instant, ValidTime;
    forall i | 0 <= i < |e.reminders|
      ensures Formed(e, e.reminders[i])
    {
      assert Formed(d, d.reminders[i]);
    }
  }

  /** Firing moves exactly the reminders with the key, all of them armed, to fired. */
  lemma MarkFiredEvolves(d: Deadline, key: Key)
    requires Good(d) && FirstWith(d.reminders, key).Some?
    requires FirstWith(d.reminders, key).value.status == Armed
    ensures Good(MarkFired(d, key)) && Evolves(d, MarkFired(d, key))
    ensures !FiredIn(d, key)
    ensures forall i :: 0 <= i < |d.reminders| && d.reminders[i].key == key ==> d.reminders[i].status == Armed
  {
    hide FireAt, Instant, ValidTime;
    var e := MarkFired(d, key);
    assert forall i :: 0 <= i < |d.reminders| ==> e.reminders[i] == FiredOne(d.reminders[i], key);
    assert forall i :: 0 <= i < |d.reminders| ==> Formed(d, d.reminders[i]);
    EvolvedGood(d, e);
  }

  lemma MarkFiredParts(d: Deadline, key: Key, id: ReminderId, k: Key)
    requires Good(d) && FirstWith(d.reminders, key).Some?
    requires FirstWith(d.reminders, key).value.status == Armed
    ensures LiveIn(MarkFired(d, key), id) <==> LiveIn(d, id)
    ensures FiredIn(MarkFired(d, key), k) <==> k == key || FiredIn(d, k)
  {
    hide Good, FirstWith;
    var e := MarkFired(d, key);
    MarkFiredEvolves(d, key);
    var j :| 0 <= j < |d.reminders| && d.reminders[j] == FirstWith(d.reminders, key).value;
    assert forall i :: 0 <= i < |d.reminders| ==> e.reminders[i] == FiredOne(d.reminders[i], key);
    assert e.reminders[j].key == key;
  }

  /** Finishing moves every armed reminder to skipped and leaves the fired ones. */
  lemma MarkSkippedEvolves(d: Deadline)
    requires Good(d)
    ensures Good(MarkSkipped(d)) && Evolves(d, MarkSkipped(d))
  {
    hide FireAt, Instant, ValidTime, Formed;
    var e := MarkSkipped(d);
    assert forall i :: 0 <= i < |d.reminders| ==> e.reminders[i] == SkippedOne(d.reminders[i]);
    EvolvedGood(d, e);
  }

  lemma MarkSkippedParts(d: Deadline, id: ReminderId, k: Key)
    ensures LiveIn(MarkSkipped(d), id)
       <==> exists i :: 0 <= i < |d.reminders| && d.reminders[i].id == id && d.reminders[i].status == Fired
    ensures FiredIn(MarkSkipped(d), k) <==> FiredIn(d, k)
  {
    var e := MarkSkipped(d);
    assert forall i :: 0 <= i < |d.reminders| ==> e.reminders[i] == SkippedOne(d.reminders[i]);
  }

  // ----- making, sorting and arming ------------------------------------------------------------

  ghost predicate MadeAt(r: Reminder, call: nat, i: nat, due: DateTime, offset: ReminderOffset, idem: string, now: int)
    requires ValidTime(due)
  {
    var fire := FireAt(due, offset);
    fire.Some? && r == NewReminder(ReminderId(call, i), fire.value, offset, idem, now)
  }

  /** Each reminder made is the one for its position in the rule, and making stops exactly at the
      first offset without a date. */
  lemma {:induction false} MadeIs(call: nat, due: DateTime, offsets: seq<ReminderOffset>, idem: string, now: int)
    requires ValidTime(due)
    ensures var made := Made(call, due, offsets, idem, now);
      && |made| <= |offsets|
      && (forall i :: 0 <= i < |made| ==> MadeAt(made[i], call, i, due, offsets[i], idem, now))
      && (|made| < |offsets| ==> FireAt(due, offsets[|made|]).None?)
    decreases |offsets|
  {
    hide FireAt, ValidTime, NewReminder;
    if offsets != [] {
      MadeIs(call, due, offsets[..|offsets| - 1], idem, now);
    }
  }

  lemma {:induction false} InsertIs(r: Reminder, s: seq<Reminder>)
    requires Sorted(s)
    ensures Sorted(Insert(r, s)) && multiset(Insert(r, s)) == multiset(s) + multiset{r}
    decreases |s|
  {
    hide Instant;
    if s != [] && Instant(s[|s| - 1].fireAt) > Instant(r.fireAt) {
      var n := |s| - 1;
      assert s == s[..n] + [s[n]];
      InsertIs(r, s[..n]);
      var front := Insert(r, s[..n]);
      forall i | 0 <= i < |front|
        ensures Instant(front[i].fireAt) <= Instant(s[n].fireAt)
      {
        assert front[i] in multiset(front);
      }
    }
  }

  /** Sorting permutes the reminders into firing order. */
  lemma {:induction false} SortIs(s: seq<Reminder>)
    ensures Sorted(Sort(s)) && multiset(Sort(s)) == multiset(s) && |Sort(s)| == |s|
    decreases |s|
  {
    hide Instant, Insert;
    if s != [] {
      var n := |s| - 1;
      assert s == s[..n] + [s[n]];
      SortIs(s[..n]);
      InsertIs(s[n], Sort(s[..n]));
    }
    assert |Sort(s)| == |multiset(Sort(s))|;
  }

  lemma {:induction false} ArmAllIs(arms: map<ArmId, Arm>, rs: seq<Reminder>, a: ArmId)
    ensures a in ArmAll(arms, rs)
       <==> a in arms || ArmedIn(rs, a.reminder)
    decreases |rs|
  {
    if rs != [] {
      var n := |rs| - 1;
      assert rs == rs[..n] + [rs[n]];
      ArmAllIs(arms, rs[..n], a);
      if rs[n].status == Armed && rs[n].id == a.reminder {
        assert a == ArmId(rs[n].id, false) || a == ArmId(rs[n].id, true);
      }
    }
  }

  lemma {:induction false} CancelAllIs(arms: map<ArmId, Arm>, rs: seq<Reminder>, a: ArmId)
    requires forall i :: 0 <= i < |rs| && rs[i].status == Armed ==> rs[i].arms == Pair(rs[i].id)
    ensures a in CancelAll(arms, rs)
       <==> a in arms && !ArmedIn(rs, a.reminder)
    decreases |rs|
  {
    if rs != [] {
      var n := |rs| - 1;
      assert rs == rs[..n] + [rs[n]];
      CancelAllIs(arms, rs[..n], a);
      if rs[n].status == Armed {
        assert a in Pair(rs[n].id) <==> a.reminder == rs[n].id;
      }
    }
  }

  lemma Members(a: seq<Reminder>, b: seq<Reminder>, i: nat) returns (j: nat)
    requires multiset(a) == multiset(b) && i < |a|
    ensures j < |b| && b[j] == a[i]
  {
    assert a[i] in multiset(b);
    j :| j < |b| && b[j] == a[i];
  }

  lemma {:induction false} PermutedIds(a: seq<Reminder>, b: seq<Reminder>)
    requires multiset(a) == multiset(b) && DistinctIds(a)
    ensures DistinctIds(b)
  {
    forall i, j | 0 <= i < j < |b|
      ensures b[i].id != b[j].id
    {
      if b[i].id == b[j].id {
        var k := Members(b, a, i);
        var l := Members(b, a, j);
        assert k == l;
        Twice(b, i, j);
        Once(a, k);
      }
    }
  }

  lemma Twice(b: seq<Reminder>, i: int, j: int)
    requires 0 <= i < j < |b| && b[i] == b[j]
    ensures multiset(b)[b[i]] >= 2
  {
    assert b == b[..i] + [b[i]] + b[i + 1..j] + [b[j]] + b[j + 1..];
  }

  lemma Once(a: seq<Reminder>, k: int)
    requires 0 <= k < |a| && DistinctIds(a)
    ensures multiset(a)[a[k]] == 1
  {
    assert a == a[..k] + [a[k]] + a[k + 1..];
    assert a[k] !in a[..k] && a[k] !in a[k + 1..];
  }

  lemma MadeFormed(d: Deadline, offsets: seq<ReminderOffset>, now: int, made: seq<Reminder>)
    requires ValidTime(d.trace.dueAt) && |made| <= |offsets|
    requires forall i :: 0 <= i < |made| ==>
      MadeAt(made[i], d.id, i, d.trace.dueAt, offsets[i], d.idem, now)
    ensures forall i :: 0 <= i < |made| ==> Formed(d, made[i]) && made[i].status != Fired
    ensures SameKeySameStatus(made) && DistinctIds(made)
  {
    hide FireAt, ValidTime, Instant;
  }

  /** A deadline put together from all its reminders is good, and its live reminders are the armed
      ones. */
  lemma NewDeadline(d: Deadline, offsets: seq<ReminderOffset>, now: int, made: seq<Reminder>)
    requires ValidTime(d.trace.dueAt) && |made| <= |offsets|
    requires forall i :: 0 <= i < |made| ==>
      MadeAt(made[i], d.id, i, d.trace.dueAt, offsets[i], d.idem, now)
    requires d.reminders == Sort(made)
    ensures Good(d)
    ensures forall id :: LiveIn(d, id) <==> ArmedIn(made, id)
    ensures forall k :: !FiredIn(d, k)
  {
    hide *;
    MadeFormed(d, offsets, now, made);
    SortIs(made);
    PermutedGood(d, made);
    PermutedLive(d, made);
  }

  lemma PermutedGood(d: Deadline, made: seq<Reminder>)
    requires ValidTime(d.trace.dueAt) && multiset(d.reminders) == multiset(made) && Sorted(d.reminders)
    requires SameKeySameStatus(made) && DistinctIds(made)
    requires forall i :: 0 <= i < |made| ==> Formed(d, made[i])
    ensures Good(d)
  {
    hide ValidTime, Formed, Sorted, DistinctIds;
    var rs := d.reminders;
    PermutedIds(made, rs);
    forall i | 0 <= i < |rs|
      ensures Formed(d, rs[i])
    {
      var j := Members(rs, made, i);
    }
    forall i, j | 0 <= i < |rs| && 0 <= j < |rs| && rs[i].key == rs[j].key
      ensures rs[i].status == rs[j].status
    {
      var k := Members(rs, made, i);
      var l := Members(rs, made, j);
    }
  }

  lemma PermutedLive(d: Deadline, made: seq<Reminder>)
    requires multiset(d.reminders) == multiset(made)
    requires forall i :: 0 <= i < |made| ==> made[i].status != Fired
    ensures forall id :: LiveIn(d, id) <==> ArmedIn(made, id)
    ensures forall k :: !FiredIn(d, k)
  {
    var rs := d.reminders;
    forall i | 0 <= i < |rs|
      ensures exists j :: 0 <= j < |made| && made[j] == rs[i]
    {
      var j := Members(rs, made, i);
    }
    forall id
      ensures LiveIn(d, id) <==> ArmedIn(made, id)
    {
      if ArmedIn(made, id) {
        var j :| 0 <= j < |made| && made[j].id == id && made[j].status == Armed;
        var i := Members(made, rs, j);
      }
    }
  }
}
