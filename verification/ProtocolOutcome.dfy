/** Exactly when a run that nobody is driving can still succeed. */
module ProtocolOutcome {
  import opened Wrappers
  import opened States
  import opened Protocol
  import opened ProtocolSafety
  import opened ProtocolTheorems
  import opened ProtocolRuns
  import opened ProtocolResolving
  import opened ProtocolRejection
  import opened ProtocolOverrun
  import opened ProtocolStranded
  import opened ProtocolCompletion

  // ----- A run that waits for nothing -----

  function CopyOf(p: Phase): seq<Step> {
    match p
    case Visit(_, snap) => snap
    case Claim(_, snap) => snap
    case Handling(_, snap) => snap
    case Reserve(_, snap, _) => snap
    case Record(_, snap, _) => snap
    case Commit(_, snap, _) => snap
    case Fail(_, snap, _) => snap
    case Retry(_, snap) => snap
    case _ => []
  }

  /** The snapshot shows every gate behind it. */
  predicate GatesBehind(snap: seq<Step>) {
    forall k :: 0 <= k < |snap| && IsGate(snap[k].name) ==> Finished(snap[k].status)
  }

  /** The worker will ask for no approval, and is not about to promote the run. */
  predicate AsksNothing(p: Phase) {
    !p.OpenGate? && !p.IssueTokens? && !p.Promote? && GatesBehind(CopyOf(p))
  }

  predicate Idle(status: RunStatus) {
    status == AwaitingApproval || status == Rejected || status == Cancelled
  }

  /** The run waits, or is over, every gate is behind it, and nobody can approve or ask for anything. */
  ghost predicate Stuck(s: State) {
    && Idle(s.core.status) && GatesBehind(s.core.steps)
    && (forall t <- s.desk.tokens :: !Usable(s.desk, t))
    && (forall r <- s.resolvers :: !Approving(s.desk, s.resolvers[r]))
    && (forall w <- s.workers :: AsksNothing(s.workers[w]))
  }

  ghost predicate StuckMove(c: Core, d: Desk, m: Move) {
    m.desk == d && Idle(m.core.status) && GatesBehind(m.core.steps) && AsksNothing(m.phase)
  }

  lemma BehindKept(snap: seq<Step>, i: nat, step: Step)
    requires GatesBehind(snap) && i < |snap| && !IsGate(step.name)
    ensures GatesBehind(snap[i := step])
  {
  }

  lemma BehindNone()
    ensures GatesBehind([])
  {
  }

  lemma StuckInside(c: Core, d: Desk, p: Phase, choice: Choice)
    requires Shaped(c) && PhaseFits(c, d, p) && Inside(p) && AsksNothing(p) && Idle(c.status) && GatesBehind(c.steps)
    ensures StuckMove(c, d, TickWorker(c, d, p, choice))
  {
    hide StatusFits, Complete, Bump, GatesBehind, Recorded;
    var i, snap := p.i, CopyOf(p);
    assert GatesBehind([]) by {
      BehindNone();
    }
    CompleteQuiet(c, i);
    assert i < |snap| && !IsGate(snap[i].name);
    var running := snap[i].(status := StepStatus.Running);
    var failed := snap[i].(status := Failed, attempt := snap[i].attempt + 1);
    BehindKept(snap, i, running);
    BehindKept(snap, i, failed);
    BehindKept(c.steps, i, running);
    BehindKept(c.steps, i, failed);
    if p.Commit? {
      BehindKept(c.steps, i, snap[i].(status := StepStatus.Succeeded, output := Some(p.out),
                                      attempt := snap[i].attempt + 1));
    }
  }

  lemma StuckOutside(c: Core, d: Desk, p: Phase, choice: Choice)
    requires Shaped(c) && !Inside(p) && AsksNothing(p) && Idle(c.status) && GatesBehind(c.steps)
    ensures StuckMove(c, d, TickWorker(c, d, p, choice))
  {
    hide AddGate, AddToken, Recorded, MayWrite;
    NoPending(c);
    assert TickWorker(c, d, p, choice).core == c;
  }

  lemma StuckResolve(c: Core, d: Desk, q: Resolution)
    requires Idle(c.status) && GatesBehind(c.steps) && !Approving(d, q) && ResolutionFits(d, q)
    requires forall t <- d.tokens :: !Usable(d, t)
    ensures var m := TickResolver(c, d, q);
      && Idle(m.core.status) && GatesBehind(m.core.steps) && !Approving(m.desk, m.next)
      && (forall t <- m.desk.tokens :: !Usable(m.desk, t))
      && m.desk.tokens.Keys == d.tokens.Keys
  {
    hide Complete;
    if q.Advance? && q.token in d.tokens && d.tokens[q.token].step < |c.steps| {
      var i := d.tokens[q.token].step;
      CompleteQuiet(WriteStep(c, i, c.steps[i].(status := StepStatus.Succeeded)), i);
    }
  }

  lemma StuckNext(s: State, e: Event)
    requires Inv(s) && Stuck(s)
    ensures Stuck(Next(s, e))
  {
    hide TickWorker, TickResolver, AsksNothing, GatesBehind, Usable, Approving, DeskOk, Exclusive, Ordered, StepsFit,
         CountsFit, IdemFits;
    if e.Tick? && e.w in s.workers {
      var p := s.workers[e.w];
      assert PhaseFits(s.core, s.desk, p);
      if Inside(p) {
        StuckInside(s.core, s.desk, p, e.choice);
      } else {
        StuckOutside(s.core, s.desk, p, e.choice);
      }
    } else if e.Resolve? && e.r in s.resolvers {
      StuckRuling(s, e.r);
    } else {
      StuckIdle(s.desk);
    }
  }

  lemma StuckIdle(d: Desk)
    ensures AsksNothing(Gone) && AsksNothing(Fetch) && !Approving(d, Closed)
    ensures forall t: nat, approve: bool, actor: Standing :: !Approving(d, Spend(t, approve, actor))
  {
  }

  lemma StuckRuling(s: State, r: nat)
    requires Inv(s) && Stuck(s) && r in s.resolvers
    ensures Stuck(MoveResolver(s, r))
  {
    hide TickResolver, AsksNothing, GatesBehind, Usable, CoreOk, Exclusive, PhaseFits, DeskOk;
    var q := s.resolvers[r];
    assert ResolutionFits(s.desk, q);
    StuckResolve(s.core, s.desk, q);
    var m := TickResolver(s.core, s.desk, q);
    forall v | v in s.resolvers && v != r
      ensures !Approving(m.desk, s.resolvers[v])
    {
      assert ResolutionFits(s.desk, s.resolvers[v]);
      ApprovingKept(s.core, s.desk, q, s.resolvers[v]);
    }
  }

  /** No resolver gains an approval by what another one does. */
  lemma ApprovingKept(c: Core, d: Desk, q: Resolution, other: Resolution)
    requires ResolutionFits(d, q) && ResolutionFits(d, other) && !Approving(d, other)
    ensures !Approving(TickResolver(c, d, q).desk, other)
  {
    hide MayDecide, Complete, WriteStep;
  }

  lemma {:induction false} StuckExec(s: State, events: seq<Event>)
    requires Inv(s) && Stuck(s)
    ensures Stuck(Exec(s, events))
    decreases |events|
  {
    hide Inv, Stuck, Next;
    if events != [] {
      NextInv(s, events[0]);
      StuckNext(s, events[0]);
      StuckExec(Next(s, events[0]), events[1..]);
    }
  }

  // ----- A run that is over -----

  lemma OverStays(s: State, e: Event)
    requires s.core.status == Rejected || s.core.status == Cancelled
    ensures Next(s, e).core.status == s.core.status
  {
    hide VisitStep, MayWrite, AddGate, AddToken, Bump, MayDecide;
  }

  lemma {:induction false} OverForGood(s: State, events: seq<Event>)
    requires s.core.status == Rejected || s.core.status == Cancelled
    ensures Exec(s, events).core.status == s.core.status
    decreases |events|
  {
    hide Next;
    if events != [] {
      OverStays(s, events[0]);
      OverForGood(Next(s, events[0]), events[1..]);
    }
  }

  // ----- Exactly when -----

  /** What stands in the way of a run that nobody drives, read off the stores and the resolvers. */
  ghost predicate WayOut(s: State)
    requires Shaped(s.core)
  {
    NoneUnreturned(s.core)
    && match s.core.status
       case Queued => true
       case Running => true
       case Parked => true
       case AwaitingApproval => CanResume(s)
       case _ => false
  }

  lemma QuietStuck(s: State)
    requires Inv(s) && Quiet(s) && Shaped(s.core) && s.core.status == AwaitingApproval && !CanResume(s)
    ensures Stuck(s)
  {
    hide DeskOk, Exclusive, CoreOk, Usable, Approving;
    forall k | 0 <= k < |s.core.steps| && IsGate(s.core.steps[k].name)
      ensures Finished(s.core.steps[k].status)
    {
      assert s.core.steps[k].name == s.core.names[k] && !GateAhead(s.core, k);
    }
    forall w | w in s.workers
      ensures AsksNothing(s.workers[w])
    {
      assert s.workers[w] == Gone;
    }
  }

  lemma QuietBlocked(s: State, i: nat)
    requires Inv(s) && Quiet(s) && i < |s.core.steps| && Unreturned(s.core, i) && s.core.status != RunStatus.Succeeded
    ensures Blocked(s, i)
  {
    hide DeskOk, Exclusive, CountsFit, StepsFit, IdemFits, Ordered, Recorded;
  }

  /** For every run that nobody is driving: some continuation marks it succeeded exactly if it is, or no step
      is left running without an output on record and the run is queued, running or parked, or waits and
      can go on: a gate is ahead, or an unspent token or a resolver can approve. */
  lemma SucceedsIff(names: seq<StepName>, s: State)
    requires Reachable(names, s) && Quiet(s)
    ensures Shaped(s.core) && (CanSucceed(s) <==> s.core.status == RunStatus.Succeeded || WayOut(s))
  {
    hide Reachable, Inv, Exec, NoneUnreturned, CanResume, Quiet;
    ReachableInv(names, s);
    ShapedInv(s);
    if s.core.status == RunStatus.Succeeded {
      LeadsSelf(s);
    } else if WayOut(s) {
      WayOutTaken(s);
    } else if CanSucceed(s) {
      var t :| Leads(s, t) && t.core.status == RunStatus.Succeeded;
      var events :| t == Exec(s, events);
      NoWayOut(s, events);
    }
  }

  lemma WayOutTaken(s: State)
    requires Inv(s) && Shaped(s.core) && WayOut(s)
    ensures CanSucceed(s)
  {
    hide Inv, CanSucceed, NoneUnreturned, CanResume;
    match s.core.status
    case Running => RunningSucceeds(s);
    case AwaitingApproval => WaitingSucceeds(s);
    case _ => QueuedOrParkedSucceeds(s);
  }

  lemma NoWayOut(s: State, events: seq<Event>)
    requires Inv(s) && Quiet(s) && Shaped(s.core) && s.core.status != RunStatus.Succeeded && !WayOut(s)
    ensures Exec(s, events).core.status != RunStatus.Succeeded
  {
    hide Inv, Exec, CanResume, Quiet, Unreturned, Blocked;
    if !NoneUnreturned(s.core) {
      var i :| 0 <= i < |s.core.steps| && Unreturned(s.core, i);
      QuietBlocked(s, i);
      StrandedUnrecorded(s, events, i);
    } else if s.core.status == AwaitingApproval {
      QuietStuck(s);
      StuckExec(s, events);
    } else {
      OverForGood(s, events);
    }
  }
}
