/** Calls on one stored deadline, interleaved at every await: firing its reminders, finishing it and
    escalating it. A call saves the whole record it read, so overlapping calls can undo each other. */
module FiringProtocol {
  import opened Wrappers
  import opened Reminders

  /** The stored record: the status of each reminder key, and the escalation level. */
  datatype Record = Record(statuses: map<Key, Status>, level: nat)

  /** Where a call stands: the await it is at, with the record it read. */
  datatype Phase =
    | Dedup(key: Key)
    | Notifying(key: Key, redis: bool, snap: Record)
    | Saving(key: Key, redis: bool, snap: Record)
    | Setting(key: Key)
    | Cancelling(snap: Record)
    | Over

  datatype State = State(record: Record, seen: set<Key>, delivered: seq<Key>, calls: map<nat, Phase>)

  /** What happens next; `Noted` is a call on another deadline setting a dedup key that both share. */
  datatype Event =
    | StartFire(c: nat, key: Key, redis: bool)
    | StartDone(c: nat)
    | Escalated
    | Tick(c: nat, ok: bool)
    | Crash(c: nat)
    | Noted(key: Key)
    | Expire(key: Key)

  predicate IsArmed(r: Record, k: Key) {
    k in r.statuses && r.statuses[k] == Armed
  }

  function Skip(statuses: map<Key, Status>): map<Key, Status> {
    map k | k in statuses :: if statuses[k] == Armed then SkippedPast else statuses[k]
  }

  /** Without an await in between: read the record and go on to notify if the key is armed. */
  function Read(r: Record, key: Key, redis: bool): Phase {
    if IsArmed(r, key) then Notifying(key, redis, r) else Over
  }

  /** One await of a call; `ok` is whether a notification goes through. */
  function Move(s: State, c: nat, ok: bool): State
    requires c in s.calls
  {
    match s.calls[c]
    case Dedup(key) => s.(calls := s.calls[c := if key in s.seen then Over else Read(s.record, key, true)])
    case Notifying(key, redis, snap) =>
      if ok then s.(delivered := s.delivered + [key], calls := s.calls[c := Saving(key, redis, snap)])
      else s.(calls := s.calls[c := Over])
    case Saving(key, redis, snap) =>
      s.(record := snap.(statuses := snap.statuses[key := Fired]),
         calls := s.calls[c := if redis then Setting(key) else Over])
    case Setting(key) => s.(seen := s.seen + {key}, calls := s.calls[c := Over])
    case Cancelling(snap) => s.(record := snap.(statuses := Skip(snap.statuses)), calls := s.calls[c := Over])
    case Over => s
  }

  function Next(s: State, e: Event): State {
    match e
    case StartFire(c, key, redis) =>
      if c in s.calls then s else s.(calls := s.calls[c := if redis then Dedup(key) else Read(s.record, key, false)])
    case StartDone(c) => if c in s.calls then s else s.(calls := s.calls[c := Cancelling(s.record)])
    case Escalated => s.(record := s.record.(level := s.record.level + 1))
    case Tick(c, ok) => if c in s.calls then Move(s, c, ok) else s
    case Crash(c) => if c in s.calls then s.(calls := s.calls[c := Over]) else s
    case Noted(key) => s.(seen := s.seen + {key})
    case Expire(key) => s.(seen := s.seen - {key})
  }

  function Exec(s: State, events: seq<Event>): State
    decreases |events|
  {
    if events == [] then s else Exec(Next(s, events[0]), events[1..])
  }

  function Fresh(record: Record): State {
    State(record, {}, [], map[])
  }

  // ----- When a reminder can still be delivered -----

  /** The call's next await delivers the key. */
  predicate Delivers(p: Phase, k: Key) {
    p.Notifying? && p.key == k
  }

  /** The call can still save a record in which the key is armed. */
  predicate Rearms(p: Phase, k: Key) {
    (p.Notifying? || p.Saving?) && p.key != k && IsArmed(p.snap, k)
  }

  ghost predicate CanDeliver(s: State, k: Key) {
    exists events, c :: DeliversAt(Exec(s, events), c, k)
  }

  predicate DeliversAt(s: State, c: nat, k: Key) {
    c in s.calls && Delivers(s.calls[c], k)
  }

  /** The key is stored as armed, or a call under way is about to deliver it or can put it back to armed. */
  ghost predicate Live(s: State, k: Key) {
    IsArmed(s.record, k) || exists c <- s.calls :: Delivers(s.calls[c], k) || Rearms(s.calls[c], k)
  }

  lemma MoveBack(s: State, c: nat, ok: bool, k: Key)
    requires c in s.calls && Live(Move(s, c, ok), k)
    ensures Live(s, k)
  {
    var t := Move(s, c, ok);
    if IsArmed(t.record, k) && !IsArmed(s.record, k) {
      assert Rearms(s.calls[c], k);
    } else if !IsArmed(t.record, k) {
      var d :| d in t.calls && (Delivers(t.calls[d], k) || Rearms(t.calls[d], k));
      if d != c {
        assert t.calls[d] == s.calls[d];
      } else if !s.calls[c].Dedup? {
        assert Delivers(s.calls[c], k) || Rearms(s.calls[c], k);
      }
    }
  }

  lemma NextBack(s: State, e: Event, k: Key)
    requires Live(Next(s, e), k)
    ensures Live(s, k)
  {
    hide Move;
    if e.Tick? && e.c in s.calls {
      MoveBack(s, e.c, e.ok, k);
    } else if !IsArmed(s.record, k) {
      var t := Next(s, e);
      var d :| d in t.calls && (Delivers(t.calls[d], k) || Rearms(t.calls[d], k));
      assert d in s.calls && t.calls[d] == s.calls[d];
    }
  }

  lemma {:induction false} ExecBack(s: State, events: seq<Event>, k: Key)
    requires Live(Exec(s, events), k)
    ensures Live(s, k)
    decreases |events|
  {
    hide Live, Next;
    if events != [] {
      ExecBack(Next(s, events[0]), events[1..], k);
      NextBack(s, events[0], k);
    }
  }

  lemma {:induction false} ExecConcat(s: State, a: seq<Event>, b: seq<Event>)
    ensures Exec(s, a + b) == Exec(Exec(s, a), b)
    decreases |a|
  {
    hide Next;
    if a == [] {
      assert a + b == b;
    } else {
      assert (a + b)[1..] == a[1..] + b;
      ExecConcat(Next(s, a[0]), a[1..], b);
    }
  }

  lemma ExecTwo(s: State, a: Event, b: Event)
    ensures Exec(s, [a, b]) == Next(Next(s, a), b)
  {
    hide Next;
    assert [a, b][1..] == [b] && [b][1..] == [];
    assert Exec(Next(Next(s, a), b), []) == Next(Next(s, a), b);
  }

  lemma ArmedDelivers(s: State, k: Key)
    requires IsArmed(s.record, k)
    ensures CanDeliver(s, k)
  {
    var c := Above(s.calls.Keys);
    var e := StartFire(c, k, false);
    assert [e][1..] == [] && Exec(Next(s, e), []) == Next(s, e);
    assert DeliversAt(Exec(s, [e]), c, k);
  }

  lemma RearmedDelivers(s: State, c: nat, k: Key)
    requires c in s.calls && Rearms(s.calls[c], k)
    ensures CanDeliver(s, k)
  {
    var events := [Tick(c, true), Tick(c, true)];
    ExecTwo(s, events[0], events[1]);
    var t := if s.calls[c].Notifying? then Exec(s, events) else Next(s, events[0]);
    assert IsArmed(t.record, k);
    ArmedDelivers(t, k);
    var more, d :| DeliversAt(Exec(t, more), d, k);
    if s.calls[c].Notifying? {
      ExecConcat(s, events, more);
      assert DeliversAt(Exec(s, events + more), d, k);
    } else {
      assert ([events[0]] + more)[1..] == more;
      assert DeliversAt(Exec(s, [events[0]] + more), d, k);
    }
  }

  /** In every state of every interleaving, a delivery of the key can still come exactly if the key is stored
      as armed, or a call under way is about to deliver it, or one holds a record in which it is armed. */
  lemma DeliveryPossibleIff(s: State, k: Key)
    ensures CanDeliver(s, k) <==> Live(s, k)
  {
    if CanDeliver(s, k) {
      var events, c :| DeliversAt(Exec(s, events), c, k);
      assert Live(Exec(s, events), k);
      ExecBack(s, events, k);
    }
    if Live(s, k) {
      if IsArmed(s.record, k) {
        ArmedDelivers(s, k);
      } else {
        var c :| c in s.calls && (Delivers(s.calls[c], k) || Rearms(s.calls[c], k));
        if Delivers(s.calls[c], k) {
          assert Exec(s, []) == s;
          assert DeliversAt(Exec(s, []), c, k);
        } else {
          RearmedDelivers(s, c, k);
        }
      }
    }
  }

  // ----- Calls one after another -----

  /** Calls start only when none is under way, and none crashes between its delivery and its save. */
  predicate Orderly(s: State, e: Event) {
    match e
    case StartFire(_, _, _) => forall c <- s.calls :: s.calls[c] == Over
    case StartDone(_) => forall c <- s.calls :: s.calls[c] == Over
    case Crash(c) => c in s.calls ==> !s.calls[c].Saving?
    case _ => true
  }

  predicate Serial(s: State, events: seq<Event>)
    decreases |events|
  {
    events == [] || (Orderly(s, events[0]) && Serial(Next(s, events[0]), events[1..]))
  }

  predicate Solo(s: State) {
    forall c <- s.calls, d <- s.calls :: s.calls[c] != Over && s.calls[d] != Over ==> c == d
  }

  /** The key has been delivered at most once, and if it has, only its own save is outstanding. */
  predicate Settled(s: State, k: Key) {
    && multiset(s.delivered)[k] <= 1
    && (multiset(s.delivered)[k] == 1 ==>
      && (forall c <- s.calls :: !Delivers(s.calls[c], k) && !Rearms(s.calls[c], k))
      && (IsArmed(s.record, k) ==> exists c <- s.calls :: s.calls[c].Saving? && s.calls[c].key == k))
  }

  lemma MoveSettled(s: State, c: nat, ok: bool, k: Key)
    requires Solo(s) && Settled(s, k) && c in s.calls
    ensures Solo(Move(s, c, ok)) && Settled(Move(s, c, ok), k)
  {
    var t := Move(s, c, ok);
    if s.calls[c] != Over {
      assert forall d <- s.calls :: d != c ==> s.calls[d] == Over && t.calls[d] == Over;
    }
    if s.calls[c].Notifying? && ok {
      assert t.calls[c].Saving?;
      assert multiset(t.delivered)[k] == multiset(s.delivered)[k] + if s.calls[c].key == k then 1 else 0;
    }
  }

  lemma NextSettled(s: State, e: Event, k: Key)
    requires Solo(s) && Settled(s, k) && Orderly(s, e)
    ensures Solo(Next(s, e)) && Settled(Next(s, e), k)
  {
    hide Move;
    if e.Tick? && e.c in s.calls {
      MoveSettled(s, e.c, e.ok, k);
    } else {
      var t := Next(s, e);
      if exists c <- s.calls :: s.calls[c].Saving? && s.calls[c].key == k {
        var c :| c in s.calls && s.calls[c].Saving? && s.calls[c].key == k;
        assert c in t.calls && t.calls[c] == s.calls[c];
      }
    }
  }

  lemma {:induction false} SerialSettled(s: State, events: seq<Event>, k: Key)
    requires Solo(s) && Settled(s, k) && Serial(s, events)
    ensures Settled(Exec(s, events), k)
    decreases |events|
  {
    hide Solo, Settled, Next, Orderly;
    if events != [] {
      NextSettled(s, events[0], k);
      SerialSettled(Next(s, events[0]), events[1..], k);
    }
  }

  /** Calls that do not overlap deliver each key at most once, even with failing notifications, expiring
      dedup keys and crashes other than right after a delivery. */
  lemma SerialDeliversOnce(record: Record, events: seq<Event>, k: Key)
    requires Serial(Fresh(record), events)
    ensures multiset(Exec(Fresh(record), events).delivered)[k] <= 1
  {
    hide Exec, Serial;
    SerialSettled(Fresh(record), events, k);
  }

  // ----- Overlapping calls -----

  function Both(k: Key, l: Key): Record {
    Record(map[k := Armed, l := Armed], 0)
  }

  /** The two redundant arms of one reminder fire at the same time: it is delivered twice. */
  lemma RedundantArmsDeliverTwice(k: Key)
    ensures var events := [StartFire(0, k, true), StartFire(1, k, true), Tick(0, true), Tick(1, true), Tick(0, true),
                           Tick(1, true)];
      Exec(Fresh(Both(k, k)), events).delivered == [k, k]
  {
    var s := Fresh(Both(k, k));
    var r := s.record;
    var s2 := State(r, {}, [], map[0 := Dedup(k), 1 := Dedup(k)]);
    assert Next(Next(s, StartFire(0, k, true)), StartFire(1, k, true)) == s2;
    var s4 := State(r, {}, [], map[0 := Notifying(k, true, r), 1 := Notifying(k, true, r)]);
    assert Next(Next(s2, Tick(0, true)), Tick(1, true)) == s4;
    var s6 := State(r, {}, [k, k], map[0 := Saving(k, true, r), 1 := Saving(k, true, r)]);
    assert Next(Next(s4, Tick(0, true)), Tick(1, true)) == s6;
    Six(s, StartFire(0, k, true), StartFire(1, k, true), Tick(0, true), Tick(1, true), Tick(0, true), Tick(1, true));
  }

  lemma Six(s: State, a: Event, b: Event, c: Event, d: Event, e: Event, f: Event)
    ensures Exec(s, [a, b, c, d, e, f]) == Next(Next(Next(Next(Next(Next(s, a), b), c), d), e), f)
  {
    hide Next;
    assert [a, b, c, d, e, f] == [a, b] + ([c, d] + [e, f]);
    ExecConcat(s, [a, b], [c, d] + [e, f]);
    ExecTwo(s, a, b);
    var t := Next(Next(s, a), b);
    ExecConcat(t, [c, d], [e, f]);
    ExecTwo(t, c, d);
    ExecTwo(Next(Next(t, c), d), e, f);
  }

  /** Firing two different reminders of the deadline at once loses one of the saves: a reminder that was
      delivered and marked fired is armed again, with no call under way, and an escalation is forgotten. */
  lemma OverlapRearms(k: Key, l: Key)
    requires k != l
    ensures var events := [StartFire(0, k, false), StartFire(1, l, false), Tick(0, true), Tick(0, true), Escalated,
                           Tick(1, true)]
        + [Tick(1, true)];
      var s := Exec(Fresh(Both(k, l)), events);
      && s.delivered == [k, l] && (forall c <- s.calls :: s.calls[c] == Over)
      && IsArmed(s.record, k) && s.record.level == 0 && CanDeliver(s, k)
  {
    var r := Both(k, l);
    var s := Fresh(r);
    var s2 := State(r, {}, [], map[0 := Notifying(k, false, r), 1 := Notifying(l, false, r)]);
    assert Next(Next(s, StartFire(0, k, false)), StartFire(1, l, false)) == s2;
    var fired := r.(statuses := r.statuses[k := Fired]);
    var s4 := State(fired, {}, [k], map[0 := Over, 1 := Notifying(l, false, r)]);
    assert Next(Next(s2, Tick(0, true)), Tick(0, true)) == s4;
    var s6 := State(fired.(level := 1), {}, [k, l], map[0 := Over, 1 := Saving(l, false, r)]);
    assert Next(Next(s4, Escalated), Tick(1, true)) == s6;
    var events := [StartFire(0, k, false), StartFire(1, l, false), Tick(0, true), Tick(0, true), Escalated, Tick(1,
          true)];
    Six(s, StartFire(0, k, false), StartFire(1, l, false), Tick(0, true), Tick(0, true), Escalated, Tick(1, true));
    ExecConcat(s, events, [Tick(1, true)]);
    var t := Next(s6, Tick(1, true));
    assert [Tick(1, true)][1..] == [] && Exec(t, []) == t;
    assert Exec(s, events + [Tick(1, true)]) == t;
    assert t.calls == map[0 := Over, 1 := Over];
    ArmedDelivers(t, k);
  }
}
