/** Scheduled deadlines and their reminders as values: what scheduling, firing, escalating and
    finishing do to the store, the scheduler's arms, the delivery log and the dedup keys. */
module Reminders {
  import opened Wrappers
  import opened Gregorian
  import opened DueDate

  /** The idempotency key of a reminder: the deadline's key with the reminder's amount and unit. */
  datatype Key = Key(idem: string, amount: int, timeUnit: TimeUnit)

  datatype Status = Armed | Fired | SkippedPast

  /** Fresh identifiers are numbered by the scheduling call that drew them. */
  datatype ReminderId = ReminderId(call: nat, index: nat)

  /** The two scheduler paths a reminder is armed on. */
  datatype ArmId = ArmId(reminder: ReminderId, backup: bool)

  datatype Arm = Arm(fireAt: DateTime, key: Key)

  datatype Reminder = Reminder(id: ReminderId, fireAt: DateTime, offset: ReminderOffset,
                               status: Status, key: Key, arms: seq<ArmId>)

  datatype Deadline = Deadline(id: nat, idem: string, trace: Trace, reminders: seq<Reminder>,
                               flagged: bool, level: nat)

  datatype Book = Book(deadlines: map<nat, Deadline>, byIdem: map<string, nat>, calls: nat)

  datatype Delivery = Delivery(deadline: nat, key: Key)

  datatype Desk = Desk(book: Book, arms: map<ArmId, Arm>, delivered: seq<Delivery>, seen: set<Key>)

  const EMPTY_DESK := Desk(Book(map[], map[], 0), map[], [], {})

  datatype Scheduling = Existing(id: nat) | Failed(error: Error) | PastDue(id: nat) | Created(id: nat)

  datatype Firing = Delivered | Declined | NotifyFailed

  // ----- the store -----------------------------------------------------------------------------

  function Save(b: Book, d: Deadline): Book {
    b.(deadlines := b.deadlines[d.id := d],
       byIdem := if d.idem != "" then b.byIdem[d.idem := d.id] else b.byIdem)
  }

  function Find(b: Book, idem: string): (r: Option<Deadline>) {
    if idem in b.byIdem && b.byIdem[idem] in b.deadlines then Some(b.deadlines[b.byIdem[idem]]) else None
  }

  // ----- scheduling ----------------------------------------------------------------------------

  function Pair(id: ReminderId): seq<ArmId> {
    [ArmId(id, false), ArmId(id, true)]
  }

  function KeyOf(idem: string, offset: ReminderOffset): Key {
    Key(idem, offset.amount, offset.timeUnit)
  }

  /** The reminder for a resolved fire time: armed on two paths when it is not in the past. */
  function NewReminder(id: ReminderId, fire: DateTime, offset: ReminderOffset, idem: string, now: int): Reminder {
    if Instant(fire) >= now then Reminder(id, fire, offset, Armed, KeyOf(idem, offset), Pair(id))
    else Reminder(id, fire, offset, SkippedPast, KeyOf(idem, offset), [])
  }

  /** The reminders made before the first offset without a date, in the rule's order. */
  ghost function Made(call: nat, due: DateTime, offsets: seq<ReminderOffset>, idem: string, now: int): seq<Reminder>
    requires ValidTime(due)
    decreases |offsets|
  {
    if offsets == [] then []
    else
      var n := |offsets| - 1;
      var before := Made(call, due, offsets[..n], idem, now);
      var fire := FireAt(due, offsets[n]);
      if |before| < n || fire.None? then before
      else before + [NewReminder(ReminderId(call, n), fire.value, offsets[n], idem, now)]
  }

  function ArmAll(arms: map<ArmId, Arm>, reminders: seq<Reminder>): map<ArmId, Arm> {
    if reminders == [] then arms
    else
      var r := reminders[|reminders| - 1];
      var before := ArmAll(arms, reminders[..|reminders| - 1]);
      if r.status != Armed then before
      else before[ArmId(r.id, false) := Arm(r.fireAt, r.key)][ArmId(r.id, true) := Arm(r.fireAt, r.key)]
  }

  /** Stable insertion: after everything that fires no later. */
  function Insert(r: Reminder, s: seq<Reminder>): seq<Reminder> {
    if s == [] || Instant(s[|s| - 1].fireAt) <= Instant(r.fireAt) then s + [r]
    else Insert(r, s[..|s| - 1]) + [s[|s| - 1]]
  }

  function Sort(s: seq<Reminder>): seq<Reminder> {
    if s == [] then [] else Insert(s[|s| - 1], Sort(s[..|s| - 1]))
  }

  ghost function Schedule(s: Desk, rule: Rule, inputs: map<string, DateTime>, idem: string, now: int)
    : (r: (Desk, Scheduling))
    requires ValidInputs(inputs)
  {
    var call := s.book.calls;
    var existing := Find(s.book, idem);
    if existing.Some? then (s, Existing(existing.value.id))
    else
      var computed := Due(rule, inputs);
      if computed.Err? then (s, Failed(computed.error))
      else
        var trace := computed.value;
        DueIsAdjusted(rule, inputs);
        if Instant(trace.dueAt) < now then
          var flagged := Deadline(call, idem, trace, [], true, 0);
          (s.(book := Save(s.book.(calls := call + 1), flagged)), PastDue(call))
        else
          var made := Made(call, trace.dueAt, rule.reminders, idem, now);
          var armed := s.(book := s.book.(calls := call + 1), arms := ArmAll(s.arms, made));
          if |made| < |rule.reminders| then (armed, Failed(NoSuchDate))
          else
            var d := Deadline(call, idem, trace, Sort(made), false, 0);
            (armed.(book := Save(armed.book, d)), Created(call))
  }

  // ----- firing, escalating, finishing ---------------------------------------------------------

  function FirstWith(rs: seq<Reminder>, key: Key): (r: Option<Reminder>)
    ensures r.Some? ==> r.value.key == key && exists i :: 0 <= i < |rs| && rs[i] == r.value
    ensures r.None? ==> forall i :: 0 <= i < |rs| ==> rs[i].key != key
  {
    if rs == [] then None
    else
      var n := |rs| - 1;
      var before := FirstWith(rs[..n], key);
      if before.Some? then before
      else if rs[n].key == key then Some(rs[n])
      else None
  }


  /** Every reminder with the key becomes fired. */
  function FiredOne(r: Reminder, key: Key): Reminder {
    if r.key == key then r.(status := Fired) else r
  }

  /** A reminder still armed when the deadline is finished is skipped. */
  function SkippedOne(r: Reminder): Reminder {
    if r.status == Armed then r.(status := SkippedPast) else r
  }

  function MarkFired(d: Deadline, key: Key): Deadline {
    d.(reminders := seq(|d.reminders|, i requires 0 <= i < |d.reminders| => FiredOne(d.reminders[i], key)))
  }

  function MarkSkipped(d: Deadline): Deadline {
    d.(reminders := seq(|d.reminders|, i requires 0 <= i < |d.reminders| => SkippedOne(d.reminders[i])))
  }

  function Fire(s: Desk, id: nat, key: Key, redis: bool, delivers: bool): (r: (Desk, Firing)) {
    if redis && key in s.seen then (s, Declined)
    else if id !in s.book.deadlines then (s, Declined)
    else
      var d := s.book.deadlines[id];
      var found := FirstWith(d.reminders, key);
      if found.None? || found.value.status != Armed then (s, Declined)
      else if !delivers then (s, NotifyFailed)
      else
        (Desk(Save(s.book, MarkFired(d, key)), s.arms, s.delivered + [Delivery(id, key)],
              if redis then s.seen + {key} else s.seen),
         Delivered)
  }

  /** The level is stored before the notification goes out, so whether that succeeds is immaterial. */
  function Escalate(s: Desk, id: nat): (r: (Desk, nat)) {
    if id !in s.book.deadlines then (s, 0)
    else
      var d := s.book.deadlines[id];
      var level := d.level + 1;
      (s.(book := Save(s.book, d.(level := if d.level > level then d.level else level))), level)
  }

  function CancelAll(arms: map<ArmId, Arm>, reminders: seq<Reminder>): map<ArmId, Arm> {
    if reminders == [] then arms
    else
      var r := reminders[|reminders| - 1];
      var before := CancelAll(arms, reminders[..|reminders| - 1]);
      if r.status != Armed then before else before - (set a | a in r.arms)
  }

  function Done(s: Desk, id: nat): (r: Desk) {
    if id !in s.book.deadlines then s
    else
      var d := s.book.deadlines[id];
      s.(book := Save(s.book, MarkSkipped(d)), arms := CancelAll(s.arms, d.reminders))
  }

  // ----- histories -----------------------------------------------------------------------------

  datatype Event =
    | ScheduleCall(rule: Rule, inputs: map<string, DateTime>, idem: string, now: int)
    | FireCall(id: nat, key: Key, redis: bool, delivers: bool)
    | EscalateCall(id: nat)
    | DoneCall(id: nat)
    | Expire(key: Key)

  ghost predicate ValidEvent(e: Event) {
    e.ScheduleCall? ==> ValidInputs(e.inputs)
  }

  ghost function Step(s: Desk, e: Event): (r: Desk)
    requires ValidEvent(e)
  {
    match e
    case ScheduleCall(rule, inputs, idem, now) => Schedule(s, rule, inputs, idem, now).0
    case FireCall(id, key, redis, delivers) => Fire(s, id, key, redis, delivers).0
    case EscalateCall(id) => Escalate(s, id).0
    case DoneCall(id) => Done(s, id)
    case Expire(key) => s.(seen := s.seen - {key})
  }

  ghost predicate ValidHistory(h: seq<Event>) {
    forall e <- h :: ValidEvent(e)
  }

  ghost function Run(h: seq<Event>): (r: Desk)
    requires ValidHistory(h)
  {
    if h == [] then EMPTY_DESK else Step(Run(h[..|h| - 1]), h[|h| - 1])
  }
}
