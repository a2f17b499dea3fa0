/** The circuit breaker of a connector: a machine driven by successes, failures and timed reads, and
    what its state says about the history of those events. */
module Breaker {
  import opened Wrappers

  datatype Health = Healthy | Degraded | Open | HalfOpen

  /** A classified connector error. */
  datatype Fault = Fault(kind: string, retryable: bool)

  datatype Breaker = Breaker(state: Health, failures: nat, openedAt: Option<real>, lastError: Option<Fault>)

  datatype Settings = Settings(threshold: int, coolDown: real)

  const FRESH := Breaker(Healthy, 0, None, None)

  datatype Event = Success | Failure(at: real, error: Fault) | Read(at: real)

  function Max(a: int, b: int): int {
    if a > b then a else b
  }

  // ----- the machine ---------------------------------------------------------------------------

  function Succeed(b: Breaker): Breaker {
    Breaker(Healthy, 0, if b.state == Healthy then b.openedAt else None, None)
  }

  function Fail(c: Settings, b: Breaker, at: real, error: Fault): Breaker {
    var n := b.failures + 1;
    var counted := b.(failures := n, lastError := Some(error));
    match b.state
    case HalfOpen => counted.(state := Open, openedAt := Some(at))
    case Open => counted
    case _ =>
      if n >= c.threshold then counted.(state := Open, openedAt := Some(at))
      else if n >= Max(1, c.threshold / 2) then counted.(state := Degraded)
      else counted
  }

  /** Reading the state moves an open breaker to half-open once the cool-down has passed. */
  function Look(c: Settings, b: Breaker, at: real): Breaker {
    if b.state == Open && b.openedAt.Some? && at - b.openedAt.value >= c.coolDown then b.(state := HalfOpen) else b
  }

  function Step(c: Settings, b: Breaker, e: Event): Breaker {
    match e
    case Success => Succeed(b)
    case Failure(at, error) => Fail(c, b, at, error)
    case Read(at) => Look(c, b, at)
  }

  function Run(c: Settings, h: seq<Event>): Breaker {
    if h == [] then FRESH else Step(c, Run(c, h[..|h| - 1]), h[|h| - 1])
  }

  class ConnectorHealth {
    const settings: Settings
    var state: Health
    var failures: nat
    var openedAt: Option<real>
    var lastError: Option<Fault>

    constructor (settings: Settings)
      ensures View() == FRESH && this.settings == settings
    {
      this.settings := settings;
      state, failures, openedAt, lastError := Healthy, 0, None, None;
    }

    function View(): Breaker
      reads this
    {
      Breaker(state, failures, openedAt, lastError)
    }

    method RecordSuccess()
      modifies this
      ensures View() == Succeed(old(View()))
    {
      failures := 0;
      lastError := None;
      if state == HalfOpen || state == Open || state == Degraded {
        state := Healthy;
        openedAt := None;
      }
    }

    method RecordFailure(at: real, error: Fault)
      modifies this
      ensures View() == Fail(settings, old(View()), at, error)
    {
      lastError := Some(error);
      failures := failures + 1;
      if state == HalfOpen {
        state := Open;
        openedAt := Some(at);
      } else if state == Healthy || state == Degraded {
        if failures >= settings.threshold {
          state := Open;
          openedAt := Some(at);
        } else if failures >= Max(1, settings.threshold / 2) {
          state := Degraded;
        }
      }
    }

    method ReadState(at: real) returns (s: Health)
      modifies this
      ensures View() == Look(settings, old(View()), at) && s == View().state
    {
      if state == Open && openedAt.Some? && at - openedAt.value >= settings.coolDown {
        state := HalfOpen;
      }
      s := state;
    }
  }

  // ----- the history ---------------------------------------------------------------------------

  /** How many failures the history ends with since its last success. */
  function Streak(h: seq<Event>): nat {
    if h == [] then 0
    else
      var before := Streak(h[..|h| - 1]);
      match h[|h| - 1]
      case Success => 0
      case Failure(_, _) => before + 1
      case Read(_) => before
  }

  /** The state is a function of the failures since the last success, up to whether an open breaker
      has cooled down. */
  lemma {:induction false} StateFollowsStreak(c: Settings, h: seq<Event>)
    ensures var s := Run(c, h).state; var n := Streak(h);
      && Run(c, h).failures == n
      && (s == Open || s == HalfOpen <==> n >= Max(1, c.threshold))
      && (s == Degraded <==> Max(1, c.threshold / 2) <= n < Max(1, c.threshold))
      && (s == Healthy <==> n < Max(1, c.threshold) && n < Max(1, c.threshold / 2))
      && (s == Open || s == HalfOpen <==> Run(c, h).openedAt.Some?)
  {
    if h != [] {
      StateFollowsStreak(c, h[..|h| - 1]);
    }
  }

  /** From position `i` on the history holds nothing but reads. */
  ghost predicate OnlyReads(h: seq<Event>, i: nat) {
    forall j :: i <= j < |h| ==> h[j].Read?
  }

  lemma StepError(c: Settings, b: Breaker, e: Event)
    ensures Step(c, b, e).lastError == match e
      case Success => None
      case Failure(_, error) => Some(error)
      case Read(_) => b.lastError
  {
  }

  /** The remembered error is that of the last failure, unless a success came after it. */
  lemma {:induction false} LastErrorIs(c: Settings, h: seq<Event>)
    ensures OnlyReads(h, 0) ==> Run(c, h).lastError == None
    ensures forall i: nat :: i < |h| && OnlyReads(h, i + 1) ==>
      match h[i]
      case Success => Run(c, h).lastError == None
      case Failure(_, error) => Run(c, h).lastError == Some(error)
      case Read(_) => true
    decreases |h|
  {
    hide Step;
    if h != [] {
      var n := |h| - 1;
      LastErrorIs(c, h[..n]);
      StepError(c, Run(c, h[..n]), h[n]);
      forall i: nat | i <= n && OnlyReads(h, i)
        ensures OnlyReads(h[..n], i)
      {
      }
    }
  }

  /** The failure at `i` opened the breaker, which has stayed open through the first `n` events. */
  ghost predicate OpenedBy(c: Settings, h: seq<Event>, i: int, n: int) {
    && 0 <= i < n <= |h| && h[i].Failure?
    && Run(c, h[..i]).state != Open
    && forall k :: i < k <= n ==> StateAt(c, h, k) == Open
  }

  function StateAt(c: Settings, h: seq<Event>, k: int): Health
    requires 0 <= k <= |h|
  {
    Run(c, h[..k]).state
  }

  lemma Extend(c: Settings, g: seq<Event>, e: Event, i: int, n: int)
    requires OpenedBy(c, g, i, n)
    ensures OpenedBy(c, g + [e], i, n) && (g + [e])[i] == g[i]
  {
    var h := g + [e];
    assert h[..i] == g[..i];
    forall k | i < k <= n
      ensures StateAt(c, h, k) == Open
    {
      assert h[..k] == g[..k];
      assert StateAt(c, g, k) == Open;
    }
  }

  /** An open breaker was opened by a failure, at the time it remembers, and has been open since. */
  lemma {:induction false} OpenRemembersOpening(c: Settings, h: seq<Event>) returns (i: int)
    requires Run(c, h).state == Open
    ensures OpenedBy(c, h, i, |h|) && Run(c, h).openedAt == Some(h[i].at)
    decreases |h|
  {
    var n := |h| - 1;
    var g := h[..n];
    assert h == g + [h[n]];
    assert h[..|h|] == h;
    if Run(c, g).state == Open {
      i := OpenRemembersOpening(c, g);
      Extend(c, g, h[n], i, n);
      assert StateAt(c, h, |h|) == Open;
    } else {
      i := n;
    }
  }

  /** A half-open breaker was read after the cool-down: some failure opened it, it stayed open until a
      read at least the cool-down later, and nothing but reads has come since. */
  lemma {:induction false} HalfOpenHasCooledDown(c: Settings, h: seq<Event>) returns (i: int, j: int)
    requires Run(c, h).state == HalfOpen
    ensures 0 <= i < j < |h| && OpenedBy(c, h, i, j) && h[j].Read? && h[j].at - h[i].at >= c.coolDown
    ensures forall k :: j <= k < |h| ==> h[k].Read?
    decreases |h|
  {
    var n := |h| - 1;
    var g := h[..n];
    assert h == g + [h[n]];
    if Run(c, g).state == HalfOpen {
      i, j := HalfOpenHasCooledDown(c, g);
      Extend(c, g, h[n], i, j);
    } else {
      i := OpenRemembersOpening(c, g);
      j := n;
      Extend(c, g, h[n], i, n);
    }
  }

  /** A read finds the breaker open exactly while the cool-down since the remembered opening runs. */
  lemma OpenUntilCooledDown(c: Settings, h: seq<Event>, at: real)
    requires Run(c, h).state == Open
    ensures Run(c, h).openedAt.Some?
    ensures Run(c, h + [Read(at)]).state
         == if at - Run(c, h).openedAt.value >= c.coolDown then HalfOpen else Open
  {
    StateFollowsStreak(c, h);
    assert (h + [Read(at)])[..|h|] == h;
  }
}
