/** The scheduler's arms against the stored reminders, and what a scheduling call returns. */
module ReminderArms {
  import opened Wrappers
  import opened DueDate
  import opened Reminders
  import opened ReminderLifecycle
  import opened ReminderHistory
  import opened ReminderTheorems

  /** An arm that no stored reminder, armed or fired, accounts for. */
  ghost predicate Orphan(s: Desk, a: ArmId) {
    a in s.arms
    && !(a.reminder.call in s.book.deadlines && LiveIn(s.book.deadlines[a.reminder.call], a.reminder))
  }

  /** The live arms are exactly the arms of reminders still armed or fired. */
  ghost predicate LiveExact(s: Desk) {
    forall a: ArmId :: a in s.arms <==>
      (a.reminder.call in s.book.deadlines && LiveIn(s.book.deadlines[a.reminder.call], a.reminder))
  }

  lemma ExactIffNoOrphan(s: Desk)
    requires Inv(s)
    ensures LiveExact(s) <==> !exists a :: Orphan(s, a)
    ensures forall a <- s.arms :: Orphan(s, a) <==> a.reminder.call !in s.book.deadlines
  {
    hide LiveIn, BookInv, DeliveryInv, SeenInv;
    forall a: ArmId
      ensures Orphan(s, a) <==> a in s.arms && a.reminder.call !in s.book.deadlines
    {
      assert ArmOk(s.book, s.arms, a);
    }
    if !exists a :: Orphan(s, a) {
      forall a: ArmId
        ensures a in s.arms <==>
          (a.reminder.call in s.book.deadlines && LiveIn(s.book.deadlines[a.reminder.call], a.reminder))
      {
        assert ArmOk(s.book, s.arms, a) && !Orphan(s, a);
      }
    }
  }

  /** A new deadline whose due date is not past, some reminder of which has no date, though one that
      comes earlier in the rule has a date that is not past. */
  ghost predicate Leaks(s: Desk, rule: Rule, inputs: map<string, DateTime>, idem: string, now: int)
    requires ValidInputs(inputs)
  {
    && Find(s.book, idem).None?
    && Due(rule, inputs).Ok?
    && var due := Due(rule, inputs).value.dueAt;
    && ValidTime(due) && Instant(due) >= now
    && PartlyResolvable(due, rule.reminders, now)
  }

  ghost predicate PartlyResolvable(due: DateTime, offsets: seq<ReminderOffset>, now: int)
    requires ValidTime(due)
  {
    && (exists j :: 0 <= j < |offsets| && FireAt(due, offsets[j]).None?)
    && exists i :: 0 <= i < |offsets| && ResolvableTo(due, offsets, i) && Instant(FireAt(due, offsets[i]).value) >= now
  }

  ghost predicate ResolvableTo(due: DateTime, offsets: seq<ReminderOffset>, i: nat)
    requires ValidTime(due) && i < |offsets|
  {
    forall k :: 0 <= k <= i ==> FireAt(due, offsets[k]).Some?
  }

  /** Making the reminders stops short, with something armed, exactly in that case. */
  lemma StopsShort(call: nat, due: DateTime, offsets: seq<ReminderOffset>, idem: string, now: int)
    requires ValidTime(due)
    ensures var made := Made(call, due, offsets, idem, now);
      PartlyResolvable(due, offsets, now)
      <==> |made| < |offsets| && exists i :: 0 <= i < |made| && made[i].status == Armed
  {
    hide FireAt, ValidTime, Instant, Made;
    var made := Made(call, due, offsets, idem, now);
    MadeIs(call, due, offsets, idem, now);
    forall i | 0 <= i < |made|
      ensures ResolvableTo(due, offsets, i)
      ensures made[i].status == Armed <==> Instant(FireAt(due, offsets[i]).value) >= now
    {
      assert forall k :: 0 <= k < |made| ==> MadeAt(made[k], call, k, due, offsets[k], idem, now);
    }
    if |made| < |offsets| {
      assert forall i :: 0 <= i < |offsets| && ResolvableTo(due, offsets, i) ==> i < |made|;
    } else {
      assert forall k :: 0 <= k < |made| ==> MadeAt(made[k], call, k, due, offsets[k], idem, now);
    }
  }

  ghost predicate LeaksOn(s: Desk, e: Event)
    requires ValidEvent(e)
  {
    e.ScheduleCall? && Leaks(s, e.rule, e.inputs, e.idem, e.now)
  }

  /** An arm is stray if its scheduling call stored no deadline. */
  predicate Stray(s: Desk, a: ArmId) {
    a in s.arms && a.reminder.call !in s.book.deadlines
  }

  /** A scheduling call adds stray arms exactly when it leaks, and never removes one. */
  lemma ScheduleStrays(s: Desk, rule: Rule, inputs: map<string, DateTime>, idem: string, now: int)
    requires Inv(s) && ValidInputs(inputs)
    ensures var t := Schedule(s, rule, inputs, idem, now).0;
      && (forall a :: Stray(s, a) ==> Stray(t, a))
      && (Leaks(s, rule, inputs, idem, now) ==> exists a :: Stray(t, a))
      && (!Leaks(s, rule, inputs, idem, now) ==> forall a :: Stray(t, a) ==> Stray(s, a))
  {
    hide Good, ArmAll, DeliveryInv, SeenInv, Due, Made, FireAt, Sort, Instant, ValidTime, Find, LiveIn, BookInv,
         PartlyResolvable, MadeAt;
    var call := s.book.calls;
    var t := Schedule(s, rule, inputs, idem, now).0;
    FreshCall(s.book);
    forall a: ArmId
      ensures a in s.arms ==> a.reminder.call < call
    {
      assert ArmOk(s.book, s.arms, a);
    }
    if Find(s.book, idem).None? && Due(rule, inputs).Ok? {
      var due := Due(rule, inputs).value.dueAt;
      DueTime(rule, inputs);
      if Instant(due) >= now {
        var made := Made(call, due, rule.reminders, idem, now);
        MadeIs(call, due, rule.reminders, idem, now);
        MadeCalls(call, due, rule.reminders, idem, now, made);
        StopsShort(call, due, rule.reminders, idem, now);
        MadeArms(s.arms, made, call);
        if Leaks(s, rule, inputs, idem, now) {
          var a: ArmId :| a in ArmAll(s.arms, made) && a.reminder.call == call;
          assert Stray(t, a);
        }
      }
    }
  }

  lemma MadeArms(arms: map<ArmId, Arm>, made: seq<Reminder>, call: nat)
    requires forall i :: 0 <= i < |made| ==> made[i].id.call == call
    requires forall a: ArmId :: a in arms ==> a.reminder.call < call
    ensures forall a: ArmId :: a in ArmAll(arms, made) ==> a in arms || a.reminder.call == call
    ensures forall a: ArmId :: a in arms ==> a in ArmAll(arms, made)
    ensures (exists i :: 0 <= i < |made| && made[i].status == Armed)
       <==> exists a: ArmId :: a in ArmAll(arms, made) && a.reminder.call == call
  {
    hide ArmAll;
    forall a: ArmId
      ensures a in ArmAll(arms, made) <==> a in arms || ArmedIn(made, a.reminder)
    {
      ArmAllIs(arms, made, a);
    }
    if i :| 0 <= i < |made| && made[i].status == Armed {
      assert ArmedIn(made, made[i].id);
      assert ArmId(made[i].id, false) in ArmAll(arms, made);
    }
  }

  lemma StepStrays(s: Desk, e: Event)
    requires Inv(s) && ValidEvent(e)
    ensures (exists a :: Stray(Step(s, e), a)) <==> (exists a :: Stray(s, a)) || LeaksOn(s, e)
  {
    hide Good, Schedule, Leaks, DeliveryInv, SeenInv, FirstWith, CancelAll, ArmsInv, Moves;
    var t := Step(s, e);
    match e {
      case ScheduleCall(rule, inputs, idem, now) =>
        ScheduleStrays(s, rule, inputs, idem, now);
        if a :| Stray(s, a) {
          assert Stray(t, a);
        }
      case DoneCall(id) =>
        DoneStrays(s, id);
        if a :| Stray(s, a) {
          assert Stray(t, a);
        }
      case _ =>
        assert forall k <- s.book.deadlines :: Kept(s.book, k);
        assert t.arms == s.arms && t.book.deadlines.Keys == s.book.deadlines.Keys;
        assert forall a :: Stray(t, a) <==> Stray(s, a);
    }
  }

  lemma DoneStrays(s: Desk, id: nat)
    requires Inv(s)
    ensures forall a :: Stray(Done(s, id), a) <==> Stray(s, a)
  {
    hide Good, DeliveryInv, SeenInv, CancelAll, ArmsInv;
    if id in s.book.deadlines {
      var d := s.book.deadlines[id];
      assert Kept(s.book, id);
      PairedArms(d);
      forall a
        ensures Stray(Done(s, id), a) <==> Stray(s, a)
      {
        CancelAllIs(s.arms, d.reminders, a);
        LiveSplits(d, a.reminder);
      }
    }
  }

  /** Some scheduling call of the history leaks where it is made. */
  ghost predicate SomeCallLeaks(h: seq<Event>)
    requires ValidHistory(h)
  {
    h != []
    && (PrefixValid(h, |h| - 1);
        SomeCallLeaks(h[..|h| - 1]) || LeaksOn(Run(h[..|h| - 1]), h[|h| - 1]))
  }

  lemma {:induction false} HistoryStrays(h: seq<Event>)
    requires ValidHistory(h)
    ensures (exists a :: Stray(Run(h), a)) <==> SomeCallLeaks(h)
  {
    hide Inv, Step, ValidEvent, LeaksOn;
    if h != [] {
      var n := |h| - 1;
      PrefixValid(h, n);
      HistoryStrays(h[..n]);
      HistoryInv(h[..n]);
      StepStrays(Run(h[..n]), h[n]);
      assert Run(h) == Step(Run(h[..n]), h[n]);
    } else {
      assert Run(h).arms == map[];
    }
  }

  /** After a history, the scheduler's live arms are exactly those of reminders still armed or fired
      if and only if no scheduling call in it leaked; a leaked arm is never cancelled. */
  lemma ArmsExactIffNoLeak(h: seq<Event>)
    requires ValidHistory(h)
    ensures LiveExact(Run(h)) <==> !SomeCallLeaks(h)
  {
    hide *;
    HistoryStrays(h);
    HistoryInv(h);
    ExactIffNoOrphan(Run(h));
    OrphansAreStrays(Run(h));
  }

  lemma OrphansAreStrays(s: Desk)
    requires Inv(s)
    ensures (exists a :: Orphan(s, a)) <==> exists a :: Stray(s, a)
  {
    hide LiveIn, BookInv, DeliveryInv, SeenInv;
    ExactIffNoOrphan(s);
    if a :| Stray(s, a) {
      assert Orphan(s, a);
    }
    if a :| Orphan(s, a) {
      assert Stray(s, a);
    }
  }

  // ----- idempotence and delivery --------------------------------------------------------------

  /** A call that reports a new deadline has stored it under its key. */
  lemma ScheduleStores(s: Desk, rule: Rule, inputs: map<string, DateTime>, idem: string, now: int)
    requires Inv(s) && ValidInputs(inputs)
    ensures var (t, outcome) := Schedule(s, rule, inputs, idem, now);
      outcome.Created? || outcome.PastDue? ==>
        outcome.id in t.book.deadlines && t.book.deadlines[outcome.id].idem == idem
        && t.book.deadlines[outcome.id].flagged == outcome.PastDue?
  {
    hide Good, ArmAll, ArmsInv, DeliveryInv, SeenInv, Due, Made, FireAt, Sort, BookInv, Instant, ValidTime, Find;
  }

  /** Once a deadline is stored under a key that is not empty, every later scheduling call with that
      key, whatever its rule and whatever happened in between, returns it and changes nothing. So a
      past-due deadline is reported as an error only by the call that stored it. */
  lemma ScheduleIdempotent(h: seq<Event>, n: nat, id: nat, rule: Rule, inputs: map<string, DateTime>, now: int)
    requires ValidHistory(h) && n <= |h| && ValidInputs(inputs) && ValidHistory(h[..n])
    requires id in Run(h[..n]).book.deadlines && Run(h[..n]).book.deadlines[id].idem != ""
    ensures Schedule(Run(h), rule, inputs, Run(h[..n]).book.deadlines[id].idem, now) == (Run(h), Existing(id))
  {
    hide Run, Good, ArmsInv, DeliveryInv, SeenInv, ValidHistory, ValidInputs, Due, Made, Save;
    HistoryPreserves(h, n);
    HistoryInv(h);
    var b := Run(h).book;
    assert Evolves(Run(h[..n]).book.deadlines[id], b.deadlines[id]);
    assert Kept(b, id);
  }

  ghost predicate KeyArmed(rs: seq<Reminder>, key: Key) {
    exists i :: 0 <= i < |rs| && rs[i].key == key && rs[i].status == Armed
  }

  ghost predicate ArmedWith(s: Desk, id: nat, key: Key) {
    id in s.book.deadlines && KeyArmed(s.book.deadlines[id].reminders, key)
  }

  /** Firing an armed reminder delivers it, unless the notification fails, and then it stays armed;
      the dedup key is what can stop it otherwise. */
  lemma FireArmed(s: Desk, id: nat, key: Key, redis: bool, delivers: bool)
    requires Inv(s) && ArmedWith(s, id, key)
    ensures var (t, outcome) := Fire(s, id, key, redis, delivers);
      && outcome == (if redis && key in s.seen then Declined else if delivers then Delivered else NotifyFailed)
      && (outcome != Delivered ==> t == s)
      && (outcome == Delivered ==> !ArmedWith(t, id, key) && t.delivered == s.delivered + [Delivery(id, key)])
      && (outcome == Delivered && redis ==> key in t.seen)
      && (forall other <- s.book.deadlines :: other != id ==>
        other in t.book.deadlines && t.book.deadlines[other] == s.book.deadlines[other])
  {
    hide ArmsInv, DeliveryInv, SeenInv, Formed, Sorted, FirstWith, ValidTime;
    assert Kept(s.book, id);
    var d := s.book.deadlines[id];
    assert FirstWith(d.reminders, key).Some?;
    assert FirstWith(d.reminders, key).value.status == Armed;
  }

  lemma KeyIdem(d: Deadline, key: Key)
    requires Good(d) && FiredIn(d, key)
    ensures key.idem == d.idem
  {
    hide FireAt, ValidTime, Instant;
    var i :| 0 <= i < |d.reminders| && d.reminders[i].key == key;
    assert Formed(d, d.reminders[i]);
  }

  /** For a deadline with a key of its own, the dedup key never stands in the way of an armed
      reminder. */
  lemma NeverSuppressed(h: seq<Event>, id: nat, key: Key)
    requires ValidHistory(h) && ArmedWith(Run(h), id, key) && Run(h).book.deadlines[id].idem != ""
    ensures key !in Run(h).seen
  {
    hide Run, ArmsInv, FireAt, Sorted, ValidTime, ValidHistory, Instant;
    HistoryInv(h);
    var s := Run(h);
    if key in s.seen {
      assert DeliveredKey(s.delivered, key);
      var i :| 0 <= i < |s.delivered| && s.delivered[i].key == key;
      var x := s.delivered[i];
      assert DeliveryOk(s.book, s.delivered, x);
      assert Kept(s.book, id) && Kept(s.book, x.deadline);
      KeyIdem(s.book.deadlines[x.deadline], key);
    }
  }

  /** The last call or expiry in the history that concerns the dedup key left it set: a delivery of the key
      with Redis present, for whichever deadline, that has not expired since. */
  ghost predicate KeySet(h: seq<Event>, key: Key)
    requires ValidHistory(h)
  {
    h != []
    && (PrefixValid(h, |h| - 1);
        var before := h[..|h| - 1];
        match h[|h| - 1]
        case Expire(k) => k != key && KeySet(before, key)
        case FireCall(id, k, redis, delivers) =>
          (redis && k == key && Fire(Run(before), id, k, redis, delivers).1 == Delivered) || KeySet(before, key)
        case _ => KeySet(before, key))
  }

  lemma StepSeen(s: Desk, e: Event, key: Key)
    requires ValidEvent(e)
    ensures key in Step(s, e).seen <==>
      match e
      case Expire(k) => k != key && key in s.seen
      case FireCall(id, k, redis, delivers) => (redis && k == key && Fire(s, id, k, redis,
            delivers).1 == Delivered) || key in s.seen
      case _ => key in s.seen
  {
    hide Due, Made, ArmAll, Sort, Save, FirstWith, MarkFired, Instant, ValidTime, CancelAll, MarkSkipped, Find;
  }

  lemma {:induction false} SeenIff(h: seq<Event>, key: Key)
    requires ValidHistory(h)
    ensures key in Run(h).seen <==> KeySet(h, key)
  {
    hide Step, ValidEvent, Fire;
    if h != [] {
      var n := |h| - 1;
      PrefixValid(h, n);
      SeenIff(h[..n], key);
      StepSeen(Run(h[..n]), h[n], key);
    }
  }

  /** Firing an armed reminder with Redis present is declined, over every history, exactly if its key was
      delivered with Redis present, for this or another deadline, and has not expired since; for a deadline
      with a key of its own that is never so. */
  lemma SuppressedIff(h: seq<Event>, id: nat, key: Key, delivers: bool)
    requires ValidHistory(h) && ArmedWith(Run(h), id, key)
    ensures Fire(Run(h), id, key, true, delivers).1 == Declined <==> KeySet(h, key)
    ensures KeySet(h, key) ==> Run(h).book.deadlines[id].idem == ""
  {
    hide Run, Inv, Fire, KeySet, ValidHistory;
    HistoryInv(h);
    FireArmed(Run(h), id, key, true, delivers);
    SeenIff(h, key);
    if Run(h).book.deadlines[id].idem != "" {
      NeverSuppressed(h, id, key);
    }
  }

  // ----- what a created deadline holds ---------------------------------------------------------

  datatype Timing = Timing(offset: ReminderOffset, fireAt: DateTime)

  function Timings(rs: seq<Reminder>): seq<Timing> {
    seq(|rs|, i requires 0 <= i < |rs| => Timing(rs[i].offset, rs[i].fireAt))
  }

  function PreviewTimings(ps: seq<Preview>): seq<Timing> {
    seq(|ps|, i requires 0 <= i < |ps| => Timing(ps[i].rem, ps[i].fireAt))
  }

  lemma TimingsGrow(s: seq<Reminder>, r: Reminder)
    ensures Timings(s + [r]) == Timings(s) + [Timing(r.offset, r.fireAt)]
  {
  }

  lemma {:induction false} InsertTimings(r: Reminder, s: seq<Reminder>)
    ensures multiset(Timings(Insert(r, s))) == multiset(Timings(s)) + multiset{Timing(r.offset, r.fireAt)}
    decreases |s|
  {
    hide Instant, Timings;
    if s == [] || Instant(s[|s| - 1].fireAt) <= Instant(r.fireAt) {
      TimingsGrow(s, r);
    } else {
      var n := |s| - 1;
      assert s == s[..n] + [s[n]];
      InsertTimings(r, s[..n]);
      TimingsGrow(Insert(r, s[..n]), s[n]);
      TimingsGrow(s[..n], s[n]);
    }
  }

  lemma {:induction false} SortTimings(s: seq<Reminder>)
    ensures multiset(Timings(Sort(s))) == multiset(Timings(s))
    decreases |s|
  {
    hide Insert, Timings;
    if s != [] {
      var n := |s| - 1;
      assert s == s[..n] + [s[n]];
      SortTimings(s[..n]);
      InsertTimings(s[n], Sort(s[..n]));
      TimingsGrow(s[..n], s[n]);
    }
  }

  /** A reminder of a new deadline is armed on both paths exactly when its time is not past. */
  predicate ArmedIffAhead(r: Reminder, now: int) {
    if Instant(r.fireAt) >= now then r.status == Armed && r.arms == Pair(r.id)
    else r.status == SkippedPast && r.arms == []
  }

  /** A created deadline holds its reminders in firing order, armed twice exactly when ahead of now,
      with the same offsets and fire times, each as often, as the preview of the same rule. */
  lemma CreatedMatchesPreview(s: Desk, rule: Rule, inputs: map<string, DateTime>, idem: string, now: int,
                              previews: seq<Preview>)
    requires Inv(s) && ValidInputs(inputs) && Schedule(s, rule, inputs, idem, now).1.Created?
    requires Due(rule, inputs).Ok? && ValidTime(Due(rule, inputs).value.dueAt)
    requires |previews| == |rule.reminders|
    requires forall i :: 0 <= i < |previews| ==>
      PreviewOf(Due(rule, inputs).value.dueAt, rule.reminders[i], previews[i])
    ensures var (t, outcome) := Schedule(s, rule, inputs, idem, now);
      outcome.id in t.book.deadlines
      && var d := t.book.deadlines[outcome.id];
      && d.trace == Due(rule, inputs).value
      && Sorted(d.reminders)
      && (forall i :: 0 <= i < |d.reminders| ==> ArmedIffAhead(d.reminders[i], now))
      && multiset(Timings(d.reminders)) == multiset(PreviewTimings(previews))
  {
    hide Good, ArmAll, ArmsInv, DeliveryInv, SeenInv, Due, Made, FireAt, Sort, BookInv, ValidTime, Find, Sorted;
    var call := s.book.calls;
    var due := Due(rule, inputs).value.dueAt;
    var made := Made(call, due, rule.reminders, idem, now);
    MadeIs(call, due, rule.reminders, idem, now);
    SortIs(made);
    SortTimings(made);
    forall i | 0 <= i < |made|
      ensures Timings(made)[i] == PreviewTimings(previews)[i] && ArmedIffAhead(made[i], now)
    {
      assert MadeAt(made[i], call, i, due, rule.reminders[i], idem, now);
      assert PreviewOf(due, rule.reminders[i], previews[i]);
    }
    assert Timings(made) == PreviewTimings(previews);
    forall i | 0 <= i < |Sort(made)|
      ensures ArmedIffAhead(Sort(made)[i], now)
    {
      var j := Members(Sort(made), made, i);
    }
  }
}
