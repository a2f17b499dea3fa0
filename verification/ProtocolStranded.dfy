/** A step left running by a crashed worker, with nothing on record, ends its run for good. */
module ProtocolStranded {
  import opened Wrappers
  import opened States
  import opened Protocol
  import opened ProtocolSafety
  import opened ProtocolTheorems
  import opened ProtocolRejection

  /** The worker is past step `i`, or will pass it by its snapshot. */
  predicate Beyond(p: Phase, i: nat) {
    || (p.Claim? && (p.i > i || |p.snap| <= i || Finished(p.snap[i].status)))
    || (p.Fail? && p.i > i)
    || p.Finish?
    || (Position(p).Some? && (Position(p).value > i || |SnapOf(p)| <= i || Finished(SnapOf(p)[i].status)))
  }

  /** Step `i` is running with nobody in it and no output on record, and nobody is past it. */
  ghost predicate Blocked(s: State, i: nat) {
    && Stranded(s, i) && i < |s.core.names| && !Recorded(s.core, i)
    && (forall w <- s.workers :: !Beyond(s.workers[w], i)) && s.core.status != RunStatus.Succeeded
  }

  /** Nothing about step `i` changes for the better. */
  ghost predicate StaysBlocked(c: Core, m: Move, i: nat) {
    !Beyond(m.phase, i) && !Recorded(m.core, i) && m.core.status != RunStatus.Succeeded && m.core.names == c.names
  }

  lemma BlockedInside(c: Core, d: Desk, p: Phase, choice: Choice, i: nat)
    requires Shaped(c) && PhaseFits(c, d, p) && Inside(p) && !Owns(p, i) && !Beyond(p, i)
    requires i < |c.names| && c.steps[i].status == StepStatus.Running && !Recorded(c, i)
    requires c.status != RunStatus.Succeeded
    ensures StaysBlocked(c, TickWorker(c, d, p, choice), i)
  {
    hide StatusFits, Complete, Bump;
    CompleteQuiet(c, p.i);
  }

  lemma BlockedOutside(c: Core, d: Desk, p: Phase, choice: Choice, i: nat)
    requires Shaped(c) && PhaseFits(c, d, p) && !Inside(p) && !Beyond(p, i)
    requires i < |c.names| && c.steps[i].status == StepStatus.Running && !Recorded(c, i)
    requires c.status != RunStatus.Succeeded
    ensures StaysBlocked(c, TickWorker(c, d, p, choice), i)
  {
    hide StatusFits, AddGate, AddToken;
  }

  lemma BlockedTick(c: Core, d: Desk, p: Phase, choice: Choice, i: nat)
    requires Shaped(c) && PhaseFits(c, d, p) && !Owns(p, i) && !Beyond(p, i)
    requires i < |c.names| && c.steps[i].status == StepStatus.Running && !Recorded(c, i)
    requires c.status != RunStatus.Succeeded
    ensures StaysBlocked(c, TickWorker(c, d, p, choice), i)
  {
    hide *;
    if Inside(p) {
      BlockedInside(c, d, p, choice, i);
    } else {
      BlockedOutside(c, d, p, choice, i);
    }
  }

  lemma BlockedResolve(c: Core, d: Desk, q: Resolution)
    requires c.status != RunStatus.Succeeded
    ensures var m := TickResolver(c, d, q);
      m.core.status != RunStatus.Succeeded && m.core.idem == c.idem && m.core.names == c.names
  {
    hide MayDecide;
  }

  lemma BlockedNext(s: State, e: Event, i: nat)
    requires Inv(s) && Blocked(s, i)
    ensures Blocked(Next(s, e), i)
  {
    hide TickWorker, TickResolver, Beyond, Recorded, Owns, DeskOk, Exclusive, Ordered, StepsFit, CountsFit, IdemFits;
    StrandedNext(s, e, i);
    if e.Tick? && e.w in s.workers {
      assert PhaseFits(s.core, s.desk, s.workers[e.w]);
      BlockedTick(s.core, s.desk, s.workers[e.w], e.choice, i);
    } else if e.Resolve? && e.r in s.resolvers {
      BlockedResolve(s.core, s.desk, s.resolvers[e.r]);
      SameIdem(s.core, Next(s, e).core, i);
    } else {
      BlockedAmbient(s, e, i);
    }
  }

  lemma SameIdem(c: Core, c': Core, i: nat)
    requires c'.idem == c.idem
    ensures Recorded(c', i) == Recorded(c, i)
  {
  }

  lemma BlockedAmbient(s: State, e: Event, i: nat)
    requires Blocked(s, i) && !(e.Tick? && e.w in s.workers) && !(e.Resolve? && e.r in s.resolvers)
    ensures var t := Next(s, e);
      && !Recorded(t.core, i) && t.core.status != RunStatus.Succeeded && t.core.names == s.core.names
      && forall w <- t.workers :: !Beyond(t.workers[w], i)
  {
  }

  /** Once a step is stranded with no output on record that is not empty, and no worker is past it, the run
      never succeeds, whatever happens later, even if its handler had returned. */
  lemma {:induction false} StrandedUnrecorded(s: State, events: seq<Event>, i: nat)
    requires Inv(s) && Blocked(s, i)
    ensures Blocked(Exec(s, events), i) && Exec(s, events).core.status != RunStatus.Succeeded
    decreases |events|
  {
    hide Inv, Next, Stranded, Beyond, Recorded;
    if events != [] {
      NextInv(s, events[0]);
      BlockedNext(s, events[0], i);
      StrandedUnrecorded(Next(s, events[0]), events[1..], i);
    }
  }
}
