/** The desk as a whole, over every history of calls. */
module ReminderHistory {
  import opened Wrappers
  import opened DueDate
  import opened Reminders
  import opened ReminderLifecycle

  // ----- the invariant -------------------------------------------------------------------------

  ghost predicate Kept(b: Book, id: nat)
    requires id in b.deadlines
  {
    var d := b.deadlines[id];
    && id < b.calls && d.id == id && Good(d)
    && (d.idem != "" ==> d.idem in b.byIdem && b.byIdem[d.idem] == id)
  }

  ghost predicate Indexed(b: Book, idem: string)
    requires idem in b.byIdem
  {
    idem != "" && b.byIdem[idem] in b.deadlines && b.deadlines[b.byIdem[idem]].idem == idem
  }

  /** Deadlines are good and filed under their own number; a key, unless empty, names one deadline. */
  ghost predicate BookInv(b: Book) {
    && (forall id <- b.deadlines :: Kept(b, id))
    && (forall k <- b.byIdem :: Indexed(b, k))
  }

  /** An arm of a stored deadline is live exactly while its reminder is armed or fired. */
  ghost predicate ArmOk(b: Book, arms: map<ArmId, Arm>, a: ArmId) {
    var call := a.reminder.call;
    && (a in arms ==> call < b.calls)
    && (call in b.deadlines ==> (a in arms <==> LiveIn(b.deadlines[call], a.reminder)))
  }

  ghost predicate ArmsInv(b: Book, arms: map<ArmId, Arm>) {
    forall a: ArmId :: ArmOk(b, arms, a)
  }

  /** A reminder has been delivered exactly if it is marked fired. */
  ghost predicate DeliveryOk(b: Book, delivered: seq<Delivery>, x: Delivery) {
    x in delivered <==> x.deadline in b.deadlines && FiredIn(b.deadlines[x.deadline], x.key)
  }

  predicate NoRepeat(log: seq<Delivery>) {
    forall i, j :: 0 <= i < j < |log| ==> log[i] != log[j]
  }

  ghost predicate DeliveryInv(b: Book, delivered: seq<Delivery>) {
    NoRepeat(delivered) && forall x: Delivery :: DeliveryOk(b, delivered, x)
  }

  ghost predicate DeliveredKey(delivered: seq<Delivery>, key: Key) {
    exists i :: 0 <= i < |delivered| && delivered[i].key == key
  }

  ghost predicate SeenInv(delivered: seq<Delivery>, seen: set<Key>) {
    forall k <- seen :: DeliveredKey(delivered, k)
  }

  ghost predicate Inv(s: Desk) {
    BookInv(s.book) && ArmsInv(s.book, s.arms) && DeliveryInv(s.book, s.delivered)
    && SeenInv(s.delivered, s.seen)
  }

  // ----- filing a deadline ---------------------------------------------------------------------

  lemma SaveUpdate(b: Book, d: Deadline)
    requires BookInv(b) && d.id in b.deadlines && Evolves(b.deadlines[d.id], d) && Good(d)
    ensures BookInv(Save(b, d)) && Save(b, d) == b.(deadlines := b.deadlines[d.id := d])
  {
    hide Good;
    var c := Save(b, d);
    assert Kept(b, d.id);
    assert c.byIdem == b.byIdem;
    forall id | id in c.deadlines
      ensures Kept(c, id)
    {
      assert id != d.id ==> Kept(b, id);
    }
    forall k | k in c.byIdem
      ensures Indexed(c, k)
    {
      assert Indexed(b, k);
    }
  }

  lemma SaveNew(b: Book, d: Deadline)
    requires BookInv(b) && d.id == b.calls && Good(d) && Find(b, d.idem).None?
    ensures BookInv(Save(b.(calls := b.calls + 1), d))
  {
    hide Good;
    var c := Save(b.(calls := b.calls + 1), d);
    forall id | id in c.deadlines
      ensures Kept(c, id)
    {
      if id != d.id {
        assert Kept(b, id);
        assert b.deadlines[id].idem == d.idem ==> d.idem == "";
      }
    }
    FreshCall(b);
    forall k | k in c.byIdem
      ensures Indexed(c, k)
    {
      if k != d.idem || d.idem == "" {
        assert Indexed(b, k);
      }
    }
  }

  lemma MoreCalls(b: Book)
    requires BookInv(b)
    ensures BookInv(b.(calls := b.calls + 1))
  {
    hide Good;
    var c := b.(calls := b.calls + 1);
    forall id | id in c.deadlines
      ensures Kept(c, id)
    {
      assert Kept(b, id);
    }
    forall k | k in c.byIdem
      ensures Indexed(c, k)
    {
      assert Indexed(b, k);
    }
  }

  lemma FreshCall(b: Book)
    requires BookInv(b)
    ensures b.calls !in b.deadlines
  {
    hide Good;
    assert forall id <- b.deadlines :: Kept(b, id) && id < b.calls;
  }

  // ----- every call keeps the invariant --------------------------------------------------------

  /** Storing a changed record of one deadline, described by what it does to that deadline alone. */
  lemma ArmsUpdate(b: Book, c: Book, d: Deadline, arms: map<ArmId, Arm>, after: map<ArmId, Arm>)
    requires ArmsInv(b, arms) && c == b.(deadlines := b.deadlines[d.id := d]) && d.id < b.calls
    requires forall a: ArmId :: a.reminder.call == d.id ==> (a in after <==> LiveIn(d, a.reminder))
    requires forall a: ArmId :: a.reminder.call != d.id ==> (a in after <==> a in arms)
    ensures ArmsInv(c, after)
  {
    hide LiveIn;
    forall a: ArmId
      ensures ArmOk(c, after, a)
    {
      assert ArmOk(b, arms, a);
    }
  }

  lemma FireArms(b: Book, arms: map<ArmId, Arm>, id: nat, key: Key)
    requires BookInv(b) && ArmsInv(b, arms) && id in b.deadlines
    requires FirstWith(b.deadlines[id].reminders, key).Some?
    requires FirstWith(b.deadlines[id].reminders, key).value.status == Armed
    ensures ArmsInv(b.(deadlines := b.deadlines[id := MarkFired(b.deadlines[id], key)]), arms)
  {
    hide LiveIn, Good, FirstWith, MarkFired;
    var d := b.deadlines[id];
    var e := MarkFired(d, key);
    assert Kept(b, id);
    MarkFiredEvolves(d, key);
    forall a: ArmId | a.reminder.call == id
      ensures a in arms <==> LiveIn(e, a.reminder)
    {
      assert ArmOk(b, arms, a);
      MarkFiredParts(d, key, a.reminder, key);
    }
    ArmsUpdate(b, b.(deadlines := b.deadlines[id := e]), e, arms, arms);
  }

  lemma FireDelivery(b: Book, log: seq<Delivery>, id: nat, key: Key)
    requires BookInv(b) && DeliveryInv(b, log) && id in b.deadlines
    requires FirstWith(b.deadlines[id].reminders, key).Some?
    requires FirstWith(b.deadlines[id].reminders, key).value.status == Armed
    ensures DeliveryInv(b.(deadlines := b.deadlines[id := MarkFired(b.deadlines[id], key)]),
                        log + [Delivery(id, key)])
  {
    hide FiredIn, Good, FirstWith, MarkFired;
    var d := b.deadlines[id];
    var c := b.(deadlines := b.deadlines[id := MarkFired(d, key)]);
    assert Kept(b, id);
    MarkFiredEvolves(d, key);
    assert DeliveryOk(b, log, Delivery(id, key));
    forall x: Delivery
      ensures DeliveryOk(c, log + [Delivery(id, key)], x)
    {
      assert DeliveryOk(b, log, x);
      MarkFiredParts(d, key, ReminderId(0, 0), x.key);
    }
  }

  lemma SeenGrows(log: seq<Delivery>, seen: set<Key>, x: Delivery, after: set<Key>)
    requires SeenInv(log, seen) && (after == seen || after == seen + {x.key})
    ensures SeenInv(log + [x], after)
  {
    var more := log + [x];
    forall k | k in after
      ensures DeliveredKey(more, k)
    {
      if k in seen {
        assert DeliveredKey(log, k);
        var i :| 0 <= i < |log| && log[i].key == k;
        assert more[i].key == k;
      } else {
        assert more[|log|].key == k;
      }
    }
  }

  lemma FireInv(s: Desk, id: nat, key: Key, redis: bool, delivers: bool)
    requires Inv(s)
    ensures Inv(Fire(s, id, key, redis, delivers).0)
  {
    hide Good, FirstWith, MarkFired, Save, ArmsInv, DeliveryInv, SeenInv;
    var (t, outcome) := Fire(s, id, key, redis, delivers);
    if outcome == Delivered {
      var d := s.book.deadlines[id];
      assert Kept(s.book, id);
      MarkFiredEvolves(d, key);
      SaveUpdate(s.book, MarkFired(d, key));
      FireArms(s.book, s.arms, id, key);
      FireDelivery(s.book, s.delivered, id, key);
      SeenGrows(s.delivered, s.seen, Delivery(id, key), t.seen);
    }
  }

  lemma EscalateInv(s: Desk, id: nat)
    requires Inv(s)
    ensures Inv(Escalate(s, id).0)
  {
    hide Good, Save, SeenInv;
    if id in s.book.deadlines {
      var d := s.book.deadlines[id];
      var e := d.(level := d.level + 1);
      assert Kept(s.book, id);
      LevelOnly(d, e);
      SaveUpdate(s.book, e);
      var c := s.book.(deadlines := s.book.deadlines[id := e]);
      forall a: ArmId
        ensures ArmOk(c, s.arms, a)
      {
        assert ArmOk(s.book, s.arms, a);
      }
      forall x: Delivery
        ensures DeliveryOk(c, s.delivered, x)
      {
        assert DeliveryOk(s.book, s.delivered, x);
      }
    }
  }

  lemma LevelOnly(d: Deadline, e: Deadline)
    requires Good(d) && e == d.(level := d.level + 1)
    ensures Good(e) && Evolves(d, e)
  {
    hide FireAt, Instant, ValidTime;
    forall i | 0 <= i < |e.reminders|
      ensures Formed(e, e.reminders[i])
    {
      assert Formed(d, d.reminders[i]);
    }
  }

  lemma DoneArms(b: Book, arms: map<ArmId, Arm>, id: nat)
    requires BookInv(b) && ArmsInv(b, arms) && id in b.deadlines
    ensures ArmsInv(b.(deadlines := b.deadlines[id := MarkSkipped(b.deadlines[id])]),
                    CancelAll(arms, b.deadlines[id].reminders))
  {
    hide MarkSkipped, CancelAll;
    var d := b.deadlines[id];
    var after := CancelAll(arms, d.reminders);
    assert Kept(b, id);
    PairedArms(d);
    forall a: ArmId
      ensures a.reminder.call == id ==> (a in after <==> LiveIn(MarkSkipped(d), a.reminder))
      ensures a.reminder.call != id ==> (a in after <==> a in arms)
    {
      assert ArmOk(b, arms, a);
      CancelAllIs(arms, d.reminders, a);
      MarkSkippedParts(d, a.reminder, Key("", 0, Days));
      LiveSplits(d, a.reminder);
    }
    MarkSkippedEvolves(d);
    ArmsUpdate(b, b.(deadlines := b.deadlines[id := MarkSkipped(d)]), MarkSkipped(d), arms, after);
  }

  lemma PairedArms(d: Deadline)
    requires Good(d)
    ensures forall i :: 0 <= i < |d.reminders| && d.reminders[i].status == Armed ==>
      d.reminders[i].arms == Pair(d.reminders[i].id)
  {
    hide FireAt, ValidTime;
    assert forall i :: 0 <= i < |d.reminders| ==> Formed(d, d.reminders[i]);
  }

  /** A reminder is live as an armed one or as a fired one, never both. */
  lemma LiveSplits(d: Deadline, id: ReminderId)
    requires Good(d)
    ensures ArmedIn(d.reminders, id) ==> LiveIn(d, id) && id.call == d.id
    ensures (LiveIn(d, id) && !ArmedIn(d.reminders, id))
       <==> exists i :: 0 <= i < |d.reminders| && d.reminders[i].id == id && d.reminders[i].status == Fired
  {
    hide FireAt, ValidTime, Instant;
    assert forall i :: 0 <= i < |d.reminders| ==> Formed(d, d.reminders[i]);
  }

  lemma DoneInv(s: Desk, id: nat)
    requires Inv(s)
    ensures Inv(Done(s, id))
  {
    hide Good, MarkSkipped, Save, ArmsInv, SeenInv, CancelAll, FiredIn;
    if id in s.book.deadlines {
      var d := s.book.deadlines[id];
      var c := s.book.(deadlines := s.book.deadlines[id := MarkSkipped(d)]);
      assert Kept(s.book, id);
      MarkSkippedEvolves(d);
      SaveUpdate(s.book, MarkSkipped(d));
      DoneArms(s.book, s.arms, id);
      forall x: Delivery
        ensures DeliveryOk(c, s.delivered, x)
      {
        assert DeliveryOk(s.book, s.delivered, x);
        MarkSkippedParts(d, ReminderId(0, 0), x.key);
      }
    }
  }
}
