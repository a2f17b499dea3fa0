/** Outbound requests: fail fast on an open breaker, replay completed writes, retry within bounds. */
module OutboundClient {
  import opened Wrappers
  import opened Breaker

  /** What one HTTP attempt gives: a response body, or a classified error. */
  datatype Attempt = Responds(body: string) | Fails(error: Fault)

  /** The clock readings one request takes, by attempt number. */
  datatype Clock = Clock(guard: real, start: real, top: nat -> real, failed: nat -> real, mid: nat -> real)

  datatype Policy = Policy(maxAttempts: int, totalDeadline: real)

  /** One request and everything outside the client that it meets: the vendor's answers and the clock. */
  datatype Call = Call(isWrite: bool, idemKey: Option<string>, derivedKey: string, policy: Policy,
                       vendor: nat -> Attempt, clock: Clock)

  datatype Failing =
    | CircuitOpen(last: Option<Fault>)
    | DeadlineExceeded
    | DeadlineMidRetry
    | Exhausted(cause: Fault)
    | Rejected(cause: Fault)

  datatype Reply = Replayed(body: string) | Answered(body: string) | Raised(error: Failing)

  const DEADLINE_FAULT := Fault("fatal", false)

  // ----- the retry loop ------------------------------------------------------------------------

  /** What the retry loop leaves: the answer, the number of HTTP attempts and the breaker. */
  datatype Retried = Retried(reply: Reply, attempts: nat, breaker: Breaker)

  /** The loop as it stands before attempt `n + 1`. */
  function Retry(c: Settings, q: Call, b: Breaker, n: nat): (r: Retried)
    decreases Max(1, q.policy.maxAttempts) - n
  {
    var deadline := q.clock.start + q.policy.totalDeadline;
    if q.clock.top(n) >= deadline then
      Retried(Raised(DeadlineExceeded), n, Fail(c, b, q.clock.top(n), DEADLINE_FAULT))
    else
      match q.vendor(n)
      case Responds(body) => Retried(Answered(body), n + 1, b)
      case Fails(error) =>
        var failed := Fail(c, b, q.clock.failed(n), error);
        if !error.retryable then Retried(Raised(Rejected(error)), n + 1, failed)
        else if n + 1 >= q.policy.maxAttempts then Retried(Raised(Exhausted(error)), n + 1, failed)
        else if deadline - q.clock.mid(n) <= 0.0 then Retried(Raised(DeadlineMidRetry), n + 1, failed)
        else Retry(c, q, failed, n + 1)
  }

  method ExecuteWithRetry(q: Call, health: ConnectorHealth) returns (reply: Reply, attempts: nat)
    modifies health
    ensures Retried(reply, attempts, health.View()) == Retry(health.settings, q, old(health.View()), 0)
    ensures RetryEnds(health.settings, q, old(health.View()), Retried(reply, attempts, health.View()))
  {
    hide RetryEnds;
    RetryIff(health.settings, q, health.View(), Retry(health.settings, q, health.View(), 0));
    var deadline := q.clock.start + q.policy.totalDeadline;
    attempts := 0;
    while true
      invariant Retry(health.settings, q, old(health.View()), 0) == Retry(health.settings, q, health.View(), attempts)
      decreases Max(1, q.policy.maxAttempts) - attempts
    {
      var n := attempts;
      if q.clock.top(n) >= deadline {
        health.RecordFailure(q.clock.top(n), DEADLINE_FAULT);
        reply := Raised(DeadlineExceeded);
        return;
      }
      attempts := attempts + 1;
      var attempt := q.vendor(n);
      if attempt.Responds? {
        reply := Answered(attempt.body);
        return;
      }
      health.RecordFailure(q.clock.failed(n), attempt.error);
      if !attempt.error.retryable || attempts >= q.policy.maxAttempts {
        if attempt.error.retryable && attempts >= q.policy.maxAttempts {
          reply := Raised(Exhausted(attempt.error));
        } else {
          reply := Raised(Rejected(attempt.error));
        }
        return;
      }
      if deadline - q.clock.mid(n) <= 0.0 {
        reply := Raised(DeadlineMidRetry);
        return;
      }
    }
  }

  // ----- the request ---------------------------------------------------------------------------

  /** The completed writes on record, when a Redis connection is configured. */
  type Records = Option<map<string, string>>

  datatype Client = Client(breaker: Breaker, records: Records)

  function EffectiveKey(q: Call, records: Records): (r: Option<string>) {
    if !q.isWrite || records.None? then None
    else if q.idemKey.Some? then q.idemKey
    else Some(q.derivedKey)
  }

  function Request(c: Settings, s: Client, q: Call): (r: (Client, Reply, nat)) {
    var b := Look(c, s.breaker, q.clock.guard);
    if b.state == Open then (s.(breaker := b), Raised(CircuitOpen(b.lastError)), 0)
    else
      var key := EffectiveKey(q, s.records);
      if key.Some? && key.value in s.records.value then
        (s.(breaker := b), Replayed(s.records.value[key.value]), 0)
      else
        var done := Retry(c, q, b, 0);
        if done.reply.Raised? then (s.(breaker := done.breaker), done.reply, done.attempts)
        else
          (Client(Succeed(done.breaker),
                  if key.Some? && key.value != "" then Some(s.records.value[key.value := done.reply.body])
                  else s.records),
           done.reply, done.attempts)
  }

  class OutboundClient {
    const health: ConnectorHealth
    var records: Records

    constructor (health: ConnectorHealth, records: Records)
      ensures this.health == health && this.records == records
    {
      this.health := health;
      this.records := records;
    }

    function View(): Client
      reads this, health
    {
      Client(health.View(), records)
    }

    method Send(q: Call) returns (reply: Reply, attempts: nat)
      modifies this, health
      ensures (View(), reply, attempts) == Request(health.settings, old(View()), q)
      ensures Sends(health.settings, old(View()), q, View(), reply, attempts)
    {
      hide Sends, RetryEnds;
      ghost var (t, answer, made) := Request(health.settings, View(), q);
      RequestIff(health.settings, View(), q, t, answer, made);
      var state := health.ReadState(q.clock.guard);
      if state == Open {
        return Raised(CircuitOpen(health.lastError)), 0;
      }
      var key := EffectiveKey(q, records);
      if key.Some? && key.value in records.value {
        return Replayed(records.value[key.value]), 0;
      }
      reply, attempts := ExecuteWithRetry(q, health);
      if !reply.Raised? {
        health.RecordSuccess();
        if key.Some? && key.value != "" {
          records := Some(records.value[key.value := reply.body]);
        }
      }
    }
  }

  // ----- what a request answers and leaves behind ----------------------------------------------

  predicate OutOfTime(q: Call, at: real) {
    at >= q.clock.start + q.policy.totalDeadline
  }

  /** Attempt `i + 1` is made in time, fails retryably, and another is allowed and in time. */
  predicate TriesOn(q: Call, i: nat) {
    && !OutOfTime(q, q.clock.top(i)) && q.vendor(i).Fails? && q.vendor(i).error.retryable
    && i + 1 < q.policy.maxAttempts && !OutOfTime(q, q.clock.mid(i))
  }

  /** The loop ends when attempt `n + 1` is due or made. */
  ghost predicate EndsAt(q: Call, n: nat) {
    !TriesOn(q, n) && forall i: nat :: i < n ==> TriesOn(q, i)
  }

  /** The failures recorded for the first `n` attempts. */
  function Failures(q: Call, n: nat): (h: seq<Event>)
    ensures |h| == n
  {
    seq(n, i requires 0 <= i < n => Failure(q.clock.failed(i), Cause(q, i)))
  }

  function Cause(q: Call, i: nat): Fault {
    match q.vendor(i)
    case Fails(error) => error
    case Responds(_) => Fault("fatal", false)
  }

  /** How a loop ends at its attempt `n + 1`: not made if the deadline has passed, with one fatal failure more;
      otherwise with the vendor's answer, or with its error, as it is if it is not retryable, as the cause of
      giving up if no attempt is left, and as a deadline passed on the way to the next otherwise. */
  predicate EndedAt(c: Settings, q: Call, b: Breaker, n: nat, r: Retried) {
    if OutOfTime(q, q.clock.top(n)) then
      r == Retried(Raised(DeadlineExceeded), n,
                   Fold(c, b, Failures(q, n) + [Failure(q.clock.top(n), Fault("fatal", false))]))
    else
      match q.vendor(n)
      case Responds(body) => r == Retried(Answered(body), n + 1, Fold(c, b, Failures(q, n)))
      case Fails(error) =>
        && r.attempts == n + 1 && r.breaker == Fold(c, b, Failures(q, n + 1))
        && r.reply == Raised(if !error.retryable then Rejected(error)
                             else if n + 1 >= q.policy.maxAttempts then Exhausted(error)
                             else DeadlineMidRetry)
  }

  /** What the retry loop answers and leaves of the breaker. */
  ghost predicate RetryEnds(c: Settings, q: Call, b: Breaker, r: Retried) {
    exists n: nat :: EndsAt(q, n) && EndedAt(c, q, b, n, r)
  }

  lemma FailuresOn(q: Call, n: nat)
    ensures Failures(q, n + 1) == Failures(q, n) + [Failure(q.clock.failed(n), Cause(q, n))]
  {
  }

  lemma FoldSnoc(c: Settings, b: Breaker, h: seq<Event>, e: Event)
    ensures Fold(c, b, h + [e]) == Step(c, Fold(c, b, h), e)
  {
    assert (h + [e])[..|h|] == h;
  }

  lemma {:induction false} RetryFrom(c: Settings, q: Call, b: Breaker, n: nat)
    requires forall i: nat :: i < n ==> TriesOn(q, i)
    ensures RetryEnds(c, q, b, Retry(c, q, Fold(c, b, Failures(q, n)), n))
    decreases Max(1, q.policy.maxAttempts) - n
  {
    hide Fold, Fail, Failures, EndsAt;
    FailuresOn(q, n);
    FoldSnoc(c, b, Failures(q, n), Failure(q.clock.failed(n), Cause(q, n)));
    FoldSnoc(c, b, Failures(q, n), Failure(q.clock.top(n), DEADLINE_FAULT));
    if TriesOn(q, n) {
      RetryFrom(c, q, b, n + 1);
    } else {
      EndsHere(q, n);
      assert EndedAt(c, q, b, n, Retry(c, q, Fold(c, b, Failures(q, n)), n));
    }
  }

  lemma EndsHere(q: Call, n: nat)
    requires !TriesOn(q, n) && forall i: nat :: i < n ==> TriesOn(q, i)
    ensures EndsAt(q, n)
  {
  }

  lemma EndsOnce(q: Call, m: nat, n: nat)
    requires EndsAt(q, m) && EndsAt(q, n)
    ensures m == n
  {
  }

  /** The description holds of exactly one outcome, that of the loop. */
  lemma RetryIff(c: Settings, q: Call, b: Breaker, r: Retried)
    ensures RetryEnds(c, q, b, r) <==> Retry(c, q, b, 0) == r
  {
    hide Retry, EndsAt;
    var none := 0;
    assert Failures(q, none) == [];
    RetryFrom(c, q, b, none);
    var x := Retry(c, q, b, 0);
    if RetryEnds(c, q, b, r) {
      var m: nat :| EndsAt(q, m) && EndedAt(c, q, b, m, r);
      var n: nat :| EndsAt(q, n) && EndedAt(c, q, b, n, x);
      EndsOnce(q, m, n);
    }
  }

  /** What a request does: refused with the breaker's last error while it is open and has not cooled down;
      answered from the record of a completed write under the key given, or else the derived one; and otherwise
      sent, where an answer alone clears the breaker and is recorded, for a write under a key that is not empty. */
  ghost predicate Sends(c: Settings, s: Client, q: Call, t: Client, reply: Reply, attempts: nat) {
    var b := Look(c, s.breaker, q.clock.guard);
    var key := if q.idemKey.Some? then q.idemKey.value else q.derivedKey;
    if b.state == Open then
      t == Client(b, s.records) && reply == Raised(CircuitOpen(s.breaker.lastError)) && attempts == 0
    else if q.isWrite && s.records.Some? && key in s.records.value then
      t == Client(b, s.records) && reply == Replayed(s.records.value[key]) && attempts == 0
    else
      exists r: Retried ::
        && RetryEnds(c, q, b, r) && reply == r.reply && attempts == r.attempts
        && if r.reply.Answered? then
             && t.breaker.state == Healthy && t.breaker.failures == 0 && t.breaker.lastError == None
             && t.breaker.openedAt == (if r.breaker.state == Healthy then r.breaker.openedAt else None)
             && t.records == if q.isWrite && s.records.Some? && key != ""
                             then Some(s.records.value[key := r.reply.body]) else s.records
           else t == Client(r.breaker, s.records)
  }

  /** The description holds of exactly one outcome, that of the request. */
  lemma RequestIff(c: Settings, s: Client, q: Call, t: Client, reply: Reply, attempts: nat)
    ensures Sends(c, s, q, t, reply, attempts) <==> Request(c, s, q) == (t, reply, attempts)
  {
    hide Retry, RetryEnds, Fold;
    var b := Look(c, s.breaker, q.clock.guard);
    var x := Retry(c, q, b, 0);
    forall r: Retried
      ensures RetryEnds(c, q, b, r) <==> x == r
    {
      RetryIff(c, q, b, r);
    }
    NeverReplays(c, q, b, 0);
  }

  lemma {:induction false} NeverReplays(c: Settings, q: Call, b: Breaker, n: nat)
    ensures !Retry(c, q, b, n).reply.Replayed?
    decreases Max(1, q.policy.maxAttempts) - n
  {
    hide Fail;
    if q.vendor(n).Fails? && n + 1 < q.policy.maxAttempts {
      NeverReplays(c, q, Fail(c, b, q.clock.failed(n), q.vendor(n).error), n + 1);
    }
  }

  // ----- bounds on one request -----------------------------------------------------------------

  /** The breaker events of the retry loop: one failure for each failed attempt, and one more if the
      deadline had passed when an attempt was due. */
  function RetryLog(q: Call, n: nat): seq<Event>
    decreases Max(1, q.policy.maxAttempts) - n
  {
    var deadline := q.clock.start + q.policy.totalDeadline;
    if q.clock.top(n) >= deadline then [Failure(q.clock.top(n), DEADLINE_FAULT)]
    else if q.vendor(n).Responds? then []
    else
      [Failure(q.clock.failed(n), q.vendor(n).error)]
      + if q.vendor(n).error.retryable && n + 1 < q.policy.maxAttempts && deadline - q.clock.mid(n) > 0.0
        then RetryLog(q, n + 1) else []
  }

  function Fold(c: Settings, b: Breaker, h: seq<Event>): Breaker {
    if h == [] then b else Step(c, Fold(c, b, h[..|h| - 1]), h[|h| - 1])
  }

  lemma {:induction false} FoldConcat(c: Settings, b: Breaker, g: seq<Event>, h: seq<Event>)
    ensures Fold(c, b, g + h) == Fold(c, Fold(c, b, g), h)
    decreases |h|
  {
    hide Step;
    if h == [] {
      assert g + h == g;
    } else {
      var n := |h| - 1;
      assert (g + h)[..|g + h| - 1] == g + h[..n];
      FoldConcat(c, b, g, h[..n]);
    }
  }

  lemma {:induction false} RunIsFold(c: Settings, h: seq<Event>)
    ensures Run(c, h) == Fold(c, FRESH, h)
  {
    hide Step;
    if h != [] {
      RunIsFold(c, h[..|h| - 1]);
    }
  }

  lemma FoldOne(c: Settings, b: Breaker, e: Event)
    ensures Fold(c, b, [e]) == Step(c, b, e)
  {
    assert [e][..0] == [];
  }

  /** The breaker events of a request beyond its attempts: an answer is none, a deadline that had passed
      when an attempt was due is one more. */
  function Unmatched(reply: Reply): int {
    if !reply.Raised? then -1 else if reply.error.DeadlineExceeded? then 1 else 0
  }

  /** The loop's outcome in terms of the vendor and the log: at most the allowed attempts; every
      attempt but the last failed retryably; an answer is the last attempt's. */
  lemma {:induction false} RetryIs(c: Settings, q: Call, b: Breaker, n: nat)
    requires n < Max(1, q.policy.maxAttempts)
    ensures var r := Retry(c, q, b, n);
      && n <= r.attempts <= Max(1, q.policy.maxAttempts)
      && !r.reply.Replayed?
      && (forall i :: n <= i < r.attempts - 1 ==> q.vendor(i).Fails? && q.vendor(i).error.retryable)
      && (r.reply.Answered? ==> r.attempts > n && q.vendor(r.attempts - 1) == Responds(r.reply.body))
      && (r.reply.Raised? && r.attempts > n ==> q.vendor(r.attempts - 1).Fails?)
      && r.breaker == Fold(c, b, RetryLog(q, n))
      && |RetryLog(q, n)| == r.attempts - n + Unmatched(r.reply)
    decreases Max(1, q.policy.maxAttempts) - n
  {
    hide Fail, Fold;
    var deadline := q.clock.start + q.policy.totalDeadline;
    if q.clock.top(n) >= deadline {
      FoldOne(c, b, Failure(q.clock.top(n), DEADLINE_FAULT));
    } else if q.vendor(n).Responds? {
      FoldNone(c, b);
    } else {
      var e := Failure(q.clock.failed(n), q.vendor(n).error);
      FoldOne(c, b, e);
      if e.error.retryable && n + 1 < q.policy.maxAttempts && deadline - q.clock.mid(n) > 0.0 {
        RetryIs(c, q, Step(c, b, e), n + 1);
        FoldConcat(c, b, [e], RetryLog(q, n + 1));
      } else {
        assert RetryLog(q, n) == [e];
      }
    }
  }

  lemma FoldNone(c: Settings, b: Breaker)
    ensures Fold(c, b, []) == b
  {
  }

  /** A request makes at most the allowed attempts, none at all when it finds the breaker open, and
      none when the write is on record; the open breaker comes first. */
  lemma RequestBounded(c: Settings, s: Client, q: Call)
    ensures var (t, reply, attempts) := Request(c, s, q);
      var b := Look(c, s.breaker, q.clock.guard);
      var key := EffectiveKey(q, s.records);
      && attempts <= Max(1, q.policy.maxAttempts)
      && (b.state == Open <==> reply.Raised? && reply.error.CircuitOpen?)
      && (b.state == Open ==> attempts == 0 && t.records == s.records)
      && (reply.Replayed? <==> b.state != Open && key.Some? && key.value in s.records.value)
      && (reply.Replayed? ==> attempts == 0 && reply.body == s.records.value[key.value])
      && (reply.Answered? ==> attempts > 0 && q.vendor(attempts - 1) == Responds(reply.body)
                              && t.breaker == Succeed(t.breaker) && t.breaker.state == Healthy)
  {
    hide Fail, Retry;
    RetryIs(c, q, Look(c, s.breaker, q.clock.guard), 0);
    NotCircuitOpen(c, q, Look(c, s.breaker, q.clock.guard), 0);
  }

  lemma {:induction false} NotCircuitOpen(c: Settings, q: Call, b: Breaker, n: nat)
    ensures Retry(c, q, b, n).reply.Raised? ==> !Retry(c, q, b, n).reply.error.CircuitOpen?
    decreases Max(1, q.policy.maxAttempts) - n
  {
    hide Fail;
    if q.vendor(n).Fails? && n + 1 < q.policy.maxAttempts {
      NotCircuitOpen(c, q, Fail(c, b, q.clock.failed(n), q.vendor(n).error), n + 1);
    }
  }

  // ----- every sequence of requests ------------------------------------------------------------

  function After(c: Settings, start: Records, calls: seq<Call>): (s: Client) {
    if calls == [] then Client(FRESH, start)
    else Request(c, After(c, start, calls[..|calls| - 1]), calls[|calls| - 1]).0
  }

  /** The reply to the call at position `i`. */
  function ReplyAt(c: Settings, start: Records, calls: seq<Call>, i: nat): Reply
    requires i < |calls|
  {
    Request(c, After(c, start, calls[..i]), calls[i]).1
  }

  function RequestLog(c: Settings, s: Client, q: Call): seq<Event> {
    var reply := Request(c, s, q).1;
    [Read(q.clock.guard)]
    + if reply.Replayed? || (reply.Raised? && reply.error.CircuitOpen?) then []
      else RetryLog(q, 0) + if reply.Answered? then [Success] else []
  }

  /** The breaker's whole event history, one stretch per request. */
  function Log(c: Settings, start: Records, calls: seq<Call>): seq<Event> {
    if calls == [] then []
    else
      var before := calls[..|calls| - 1];
      Log(c, start, before) + RequestLog(c, After(c, start, before), calls[|calls| - 1])
  }

  lemma RequestBreaker(c: Settings, s: Client, q: Call)
    ensures Request(c, s, q).0.breaker == Fold(c, s.breaker, RequestLog(c, s, q))
  {
    hide Fail, Retry, Fold, RetryLog;
    var b := Look(c, s.breaker, q.clock.guard);
    var reply := Request(c, s, q).1;
    RetryIs(c, q, b, 0);
    NotCircuitOpen(c, q, b, 0);
    var read := Read(q.clock.guard);
    FoldOne(c, s.breaker, read);
    if reply.Replayed? || (reply.Raised? && reply.error.CircuitOpen?) {
      assert RequestLog(c, s, q) == [read];
    } else {
      var tail := if reply.Answered? then [Success] else [];
      FoldConcat(c, s.breaker, [read], RetryLog(q, 0) + tail);
      FoldConcat(c, b, RetryLog(q, 0), tail);
      FoldOne(c, Fold(c, b, RetryLog(q, 0)), Success);
      FoldNone(c, Fold(c, b, RetryLog(q, 0)));
    }
  }

  lemma {:induction false} BreakerIsLogged(c: Settings, start: Records, calls: seq<Call>)
    ensures After(c, start, calls).breaker == Run(c, Log(c, start, calls))
  {
    hide Request, RequestLog, Fold, Run;
    RunIsFold(c, Log(c, start, calls));
    if calls == [] {
      FoldNone(c, FRESH);
    } else {
      var before := calls[..|calls| - 1];
      var q := calls[|calls| - 1];
      BreakerIsLogged(c, start, before);
      RunIsFold(c, Log(c, start, before));
      RequestBreaker(c, After(c, start, before), q);
      FoldConcat(c, FRESH, Log(c, start, before), RequestLog(c, After(c, start, before), q));
    }
  }

  /** After any sequence of requests, the next one is refused by the breaker exactly when the failures
      since the last success have reached the threshold, nobody has found the breaker cooled down, and
      the cool-down since the opening still runs. */
  lemma RefusedIff(c: Settings, start: Records, calls: seq<Call>, q: Call)
    ensures var s := After(c, start, calls);
      var reply := Request(c, s, q).1;
      (reply.Raised? && reply.error.CircuitOpen?) <==> (
        Streak(Log(c, start, calls)) >= Max(1, c.threshold) && s.breaker.state != HalfOpen
        && s.breaker.openedAt.Some? && q.clock.guard - s.breaker.openedAt.value < c.coolDown)
  {
    hide Request, Log, Run, Streak, After;
    BreakerIsLogged(c, start, calls);
    StateFollowsStreak(c, Log(c, start, calls));
    RequestBounded(c, After(c, start, calls), q);
  }

  /** Once past the guard, a request retries without looking at the breaker again, so a half-open
      breaker lets through as many attempts as a healthy one, not a single probe. */
  lemma {:induction false} RetryIgnoresBreaker(c: Settings, q: Call, a: Breaker, b: Breaker, n: nat)
    ensures Retry(c, q, a, n).attempts == Retry(c, q, b, n).attempts
    ensures Retry(c, q, a, n).reply == Retry(c, q, b, n).reply
    decreases Max(1, q.policy.maxAttempts) - n
  {
    hide Fail;
    if q.vendor(n).Fails? && n + 1 < q.policy.maxAttempts {
      var at, error := q.clock.failed(n), q.vendor(n).error;
      RetryIgnoresBreaker(c, q, Fail(c, a, at, error), Fail(c, b, at, error), n + 1);
    }
  }

  // ----- probes of a half-open breaker ---------------------------------------------------------

  /** The first attempt fails retryably, another is allowed, and the deadline has passed neither then nor
      when the second attempt is due. */
  predicate TriesAgain(q: Call) {
    var deadline := q.clock.start + q.policy.totalDeadline;
    && q.clock.top(0) < deadline
    && q.vendor(0).Fails? && q.vendor(0).error.retryable
    && q.policy.maxAttempts >= 2
    && q.clock.mid(0) < deadline && q.clock.top(1) < deadline
  }

  lemma {:induction false} AttemptsGrow(c: Settings, q: Call, b: Breaker, n: nat)
    ensures Retry(c, q, b, n).attempts >= n
    ensures q.clock.top(n) < q.clock.start + q.policy.totalDeadline ==> Retry(c, q, b, n).attempts > n
    decreases Max(1, q.policy.maxAttempts) - n
  {
    hide Fail;
    if q.vendor(n).Fails? && n + 1 < q.policy.maxAttempts {
      AttemptsGrow(c, q, Fail(c, b, q.clock.failed(n), q.vendor(n).error), n + 1);
    }
  }

  lemma TwoAttemptsIff(c: Settings, q: Call, b: Breaker)
    ensures Retry(c, q, b, 0).attempts >= 2 <==> TriesAgain(q)
  {
    hide Fail;
    if q.vendor(0).Fails? {
      var failed := Fail(c, b, q.clock.failed(0), q.vendor(0).error);
      AttemptsGrow(c, q, failed, 1);
      if q.clock.top(1) >= q.clock.start + q.policy.totalDeadline {
        assert Retry(c, q, failed, 1).attempts == 1;
      }
    }
  }

  /** The request finds the breaker half-open and its write is not on record. */
  predicate Probes(c: Settings, s: Client, q: Call) {
    var key := EffectiveKey(q, s.records);
    Look(c, s.breaker, q.clock.guard).state == HalfOpen && !(key.Some? && key.value in s.records.value)
  }

  /** A request that finds the breaker half-open makes a second attempt exactly if the first fails
      retryably, the policy allows another and the deadline has not passed. */
  lemma SecondProbeIff(c: Settings, s: Client, q: Call)
    requires Probes(c, s, q)
    ensures Request(c, s, q).2 >= 2 <==> TriesAgain(q)
  {
    hide Retry, TriesAgain;
    TwoAttemptsIff(c, q, Look(c, s.breaker, q.clock.guard));
  }

  /** The readings of one request do not go back in time. */
  ghost predicate Forward(clock: Clock) {
    && clock.guard <= clock.start <= clock.top(0)
    && forall n: nat :: clock.top(n) <= clock.failed(n) <= clock.mid(n) <= clock.top(n + 1)
  }

  /** A read whose first attempts all fail retryably, with every clock reading the same. */
  function StubbornRead(policy: Policy, at: real): Call {
    Call(false, None, "", policy, _ => Fails(Fault("server", true)), Clock(at, at, _ => at, _ => at, _ => at))
  }

  /** The half-open breaker keeps every request of a policy to a single probe, whatever the vendor
      answers and the clock reads, exactly if the policy allows one attempt or no time. */
  lemma SingleProbeIff(c: Settings, s: Client, policy: Policy)
    requires s.breaker.state == HalfOpen || (s.breaker.state == Open && s.breaker.openedAt.Some?)
    ensures (forall q: Call :: q.policy == policy && Forward(q.clock) && Probes(c, s, q) ==> Request(c, s, q).2 <= 1)
       <==> policy.maxAttempts <= 1 || policy.totalDeadline <= 0.0
  {
    hide Request, Look;
    if policy.maxAttempts <= 1 || policy.totalDeadline <= 0.0 {
      forall q: Call | q.policy == policy && Forward(q.clock) && Probes(c, s, q)
        ensures Request(c, s, q).2 <= 1
      {
        SecondProbeIff(c, s, q);
      }
    } else {
      var at := if s.breaker.state == HalfOpen then 0.0 else s.breaker.openedAt.value + c.coolDown;
      var q := StubbornRead(policy, at);
      StubbornProbes(c, s, policy, at);
      SecondProbeIff(c, s, q);
      assert Request(c, s, q).2 >= 2;
    }
  }

  lemma StubbornProbes(c: Settings, s: Client, policy: Policy, at: real)
    requires s.breaker.state == HalfOpen
      || (s.breaker.state == Open && s.breaker.openedAt.Some? && at - s.breaker.openedAt.value >= c.coolDown)
    ensures Probes(c, s, StubbornRead(policy, at)) && Forward(StubbornRead(policy, at).clock)
  {
  }

  /** A read that fails for good at the first attempt. */
  function FatalRead(at: real): Call {
    Call(false, None, "", Policy(1, 1.0), _ => Fails(Fault("fatal", false)), Clock(at, at, _ => at, _ => at, _ => at))
  }

  /** One fatal failure opens a breaker of threshold 1; two seconds later a request finds it half-open and
      makes two attempts, not the one probe that is documented. */
  lemma HalfOpenProbedTwice()
    ensures var c := Settings(1, 1.0);
      var s := After(c, None, [FatalRead(0.0)]);
      var q := StubbornRead(Policy(2, 1.0), 2.0);
      Look(c, s.breaker, 2.0).state == HalfOpen && Request(c, s, q).2 == 2
  {
    var c := Settings(1, 1.0);
    var first := FatalRead(0.0);
    var s := After(c, None, [first]);
    assert s == Request(c, Client(FRESH, None), first).0 by {
      hide Request;
      AfterNext(c, None, [first], 0);
      assert [first][..1] == [first] && [first][..0] == [];
    }
    assert s.breaker.state == Open && s.breaker.openedAt == Some(0.0);
    var q := StubbornRead(Policy(2, 1.0), 2.0);
    StubbornProbes(c, s, q.policy, 2.0);
    SecondProbeIff(c, s, q);
    RequestBounded(c, s, q);
  }

  // ----- overlapping probes --------------------------------------------------------------------

  /** Each request that read the state at a position of the log was let through. */
  ghost predicate AllLetThrough(c: Settings, b: Breaker, h: seq<Event>) {
    forall j :: 0 <= j < |h| && h[j].Read? ==> StateAfter(c, b, h, j) != Open
  }

  /** The state that event `j` of the log leaves. */
  function StateAfter(c: Settings, b: Breaker, h: seq<Event>, j: nat): Health
    requires j < |h|
  {
    Fold(c, b, h[..j + 1]).state
  }

  /** Guard reads and failures of overlapping requests, all reads within the cool-down of the failures before. */
  ghost predicate OneWindow(c: Settings, h: seq<Event>) {
    && (forall j :: 0 <= j < |h| ==> !h[j].Success?)
    && forall i, j :: 0 <= i < j < |h| && h[i].Failure? && h[j].Read? ==> h[j].at - h[i].at < c.coolDown
  }

  /** From half-open, the breaker is half-open until the first failure and open, since a failure of the log,
      from then on. */
  lemma {:induction false} WindowState(c: Settings, b: Breaker, h: seq<Event>)
    requires b.state == HalfOpen && OneWindow(c, h)
    ensures var t := Fold(c, b, h);
      if exists i :: 0 <= i < |h| && h[i].Failure?
      then t.state == Open && exists i :: 0 <= i < |h| && h[i].Failure? && t.openedAt == Some(h[i].at)
      else t.state == HalfOpen
    decreases |h|
  {
    if h != [] {
      var n := |h| - 1;
      WindowState(c, b, h[..n]);
      if i :| 0 <= i < n && h[i].Failure? {
        assert h[..n][i].Failure?;
        var k :| 0 <= k < n && h[..n][k].Failure? && Fold(c, b, h[..n]).openedAt == Some(h[..n][k].at);
        assert h[k] == h[..n][k];
      } else if h[n].Failure? {
        assert Fold(c, b, h).openedAt == Some(h[n].at);
      }
    }
  }

  /** Any number of requests that find the breaker half-open are let through to a probe, exactly as long as
      none reads the state after another has recorded its failure. */
  lemma OverlappingProbesIff(c: Settings, b: Breaker, h: seq<Event>)
    requires b.state == HalfOpen && OneWindow(c, h)
    ensures AllLetThrough(c, b, h) <==> !exists i, j :: 0 <= i < j < |h| && h[i].Failure? && h[j].Read?
  {
    hide Fold;
    forall j | 0 <= j < |h|
      ensures StateAfter(c, b, h, j) == Open <==> exists i :: 0 <= i <= j && h[i].Failure?
    {
      var upTo := h[..j + 1];
      WindowState(c, b, upTo);
      if i :| 0 <= i <= j && h[i].Failure? {
        assert upTo[i].Failure?;
      }
    }
    if i, j :| 0 <= i < j < |h| && h[i].Failure? && h[j].Read? {
      assert StateAfter(c, b, h, j) == Open;
    }
  }

  // ----- writes --------------------------------------------------------------------------------

  predicate WriteWith(q: Call, key: string) {
    q.isWrite && (q.idemKey == Some(key) || (q.idemKey.None? && q.derivedKey == key))
  }

  lemma RecordsGrow(c: Settings, s: Client, q: Call, key: string)
    requires s.records.Some? && key != ""
    ensures var (t, reply, _) := Request(c, s, q);
      && t.records.Some?
      && (key in s.records.value ==> key in t.records.value && t.records.value[key] == s.records.value[key])
      && (WriteWith(q, key) && reply.Answered? ==>
        key !in s.records.value && key in t.records.value && t.records.value[key] == reply.body)
  {
    hide Retry, Look;
  }

  lemma {:induction false} RecordsKeep(c: Settings, start: Records, calls: seq<Call>, n: nat, key: string)
    requires start.Some? && key != "" && n <= |calls|
    ensures After(c, start, calls).records.Some? && After(c, start, calls[..n]).records.Some?
    ensures var before := After(c, start, calls[..n]).records.value;
      key in before ==>
        key in After(c, start, calls).records.value && After(c, start, calls).records.value[key] == before[key]
    decreases |calls|
  {
    hide Request;
    if n == |calls| {
      assert calls[..n] == calls;
      if n > 0 {
        RecordsKeep(c, start, calls[..n - 1], n - 1, key);
        RecordsGrow(c, After(c, start, calls[..n - 1]), calls[n - 1], key);
      }
    } else {
      var last := |calls| - 1;
      RecordsKeep(c, start, calls[..last], n, key);
      assert calls[..last][..n] == calls[..n];
      RecordsGrow(c, After(c, start, calls[..last]), calls[last], key);
    }
  }

  /** With a Redis connection, the vendor answers at most one write per key that is not empty, in any
      sequence of requests; each later write with the key is refused by the breaker or gets the first
      answer back without an HTTP attempt. */
  lemma OneAnswerPerKey(c: Settings, start: Records, calls: seq<Call>, i: nat, j: nat, key: string)
    requires start.Some? && key != "" && i < j < |calls|
    requires WriteWith(calls[i], key) && WriteWith(calls[j], key)
    requires ReplyAt(c, start, calls, i).Answered?
    ensures var later := Request(c, After(c, start, calls[..j]), calls[j]);
      && later.2 == 0
      && (later.1 == Replayed(ReplyAt(c, start, calls, i).body)
        || (later.1.Raised? && later.1.error.CircuitOpen?))
  {
    hide Request, After;
    var s := After(c, start, calls[..i]);
    RecordsKeep(c, start, calls[..i], 0, key);
    RecordsGrow(c, s, calls[i], key);
    AfterNext(c, start, calls, i);
    assert calls[..j][..i + 1] == calls[..i + 1];
    RecordsKeep(c, start, calls[..j], i + 1, key);
    RequestBounded(c, After(c, start, calls[..j]), calls[j]);
  }

  lemma AfterNext(c: Settings, start: Records, calls: seq<Call>, i: nat)
    requires i < |calls|
    ensures After(c, start, calls[..i + 1]) == Request(c, After(c, start, calls[..i]), calls[i]).0
  {
    hide Request;
    assert calls[..i + 1][..i] == calls[..i];
  }
}
