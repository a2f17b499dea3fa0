/** When a run can still succeed: the driving of a run, step by step, to its end. */
module ProtocolCompletion {
  import opened Wrappers
  import opened States
  import opened Protocol
  import opened ProtocolSafety
  import opened ProtocolTheorems
  import opened ProtocolRuns
  import opened ProtocolResolving
  import opened ProtocolRejection
  import opened ProtocolOverrun

  /** Step `i` is stored as running and has no output on record. */
  predicate Unreturned(c: Core, i: nat)
    requires i < |c.steps|
  {
    c.steps[i].status == StepStatus.Running && !Recorded(c, i)
  }

  ghost predicate NoneUnreturned(c: Core) {
    forall i :: 0 <= i < |c.steps| ==> !Unreturned(c, i)
  }

  /** All steps but `i` are as they were, with their records and counts. */
  ghost predicate KeptBut(c: Core, c': Core, i: nat) {
    && Shaped(c) && Shaped(c') && c'.names == c.names
    && forall k :: 0 <= k < |c.names| && k != i ==>
         && c'.steps[k] == c.steps[k] && (Recorded(c', k) <==> Recorded(c, k))
         && c'.successes[k] == c.successes[k] && c'.faults[k] == c.faults[k]
  }

  lemma KeptOn(a: Core, b: Core, c: Core, i: nat)
    requires KeptBut(a, b, i) && KeptBut(b, c, i)
    ensures KeptBut(a, c, i)
  {
    hide Recorded;
  }

  lemma TouchedKept(s: State, t: State, i: nat)
    requires Touched(s, t, i)
    ensures KeptBut(s.core, t.core, i) && t.core.status == s.core.status
  {
    hide Recorded, Owns, Advancing;
  }

  lemma KeptUnreturned(c: Core, c': Core, i: nat)
    requires KeptBut(c, c', i) && NoneUnreturned(c) && i < |c'.steps| && !Unreturned(c', i)
    ensures NoneUnreturned(c')
  {
    hide Recorded;
    forall k | 0 <= k < |c'.steps|
      ensures !Unreturned(c', k)
    {
      if k != i {
        assert !Unreturned(c, k);
      }
    }
  }

  // ----- A task -----

  /** A worker at a claimable task with no record claims it and is inside the handler. */
  lemma ClaimIn(s: State, w: nat, i: nat, snap: seq<Step>) returns (t: State)
    requires Inv(s) && w in s.workers && s.workers[w] == Visit(i, snap) && i < |snap| == |s.core.steps|
    requires snap[i] == s.core.steps[i] && !IsGate(snap[i].name) && !Recorded(s.core, i)
    requires LegalStep(snap[i].status, StepStatus.Running)
    ensures Leads(s, t) && Inv(t) && t.core.status == s.core.status && KeptBut(s.core, t.core, i)
    ensures t.core.successes == s.core.successes && t.core.faults == s.core.faults && t.core.idem == s.core.idem
    ensures w in t.workers && t.workers[w].Handling? && t.workers[w].i == i
  {
    hide Leads, Recorded, DeskOk, Exclusive, CountsFit, StepsFit, IdemFits, Ordered;
    var a := Next(s, Tick(w, Proceed));
    OneEvent(s, Tick(w, Proceed));
    NextInv(s, Tick(w, Proceed));
    assert a == s.(workers := s.workers[w := Claim(i, snap)]);
    t := Next(a, Tick(w, Proceed));
    OneEvent(a, Tick(w, Proceed));
    NextInv(a, Tick(w, Proceed));
    LeadsOn(s, a, t);
    RecordsQuiet(s.core, t.core);
  }

  /** A new worker walks past ready steps to step `i`. */
  lemma Arrives(s: State, i: nat) returns (t: State, w: nat)
    requires Inv(s) && Shaped(s.core) && i <= |s.core.names| && AllReady(s, i) && s.core.status != Queued
    ensures Leads(s, t) && Inv(t) && t.core == s.core && t.desk == s.desk && t.resolvers == s.resolvers
    ensures w in t.workers && t.workers[w] == Visit(i, s.core.steps)
  {
    hide Leads, Inv, AllReady, Walks;
    var b, v := Boots(s);
    w := v;
    ReadyWalks(s, 0, i);
    t := WalkTo(b, w, s.core.steps, 0, i);
    LeadsOn(s, b, t);
    LeadsInv(s, t);
  }

  /** The first step that is not ready, a task, is carried out. */
  lemma DoTask(s: State, i: nat) returns (t: State)
    requires Inv(s) && Shaped(s.core) && i < |s.core.names| && AllReady(s, i) && s.core.status != Queued
    requires !IsGate(s.core.names[i]) && !Ready(s, i) && !Unreturned(s.core, i)
    ensures Leads(s, t) && Inv(t) && t.core.status == s.core.status && KeptBut(s.core, t.core, i)
    ensures i < |t.core.steps| && t.core.steps[i].status == StepStatus.Succeeded
  {
    hide Leads, Inv, AllReady, KeptBut, Touched, Recorded;
    TaskClaimable(s, i);
    var a, w := Arrives(s, i);
    var b := ClaimIn(a, w, i, s.core.steps);
    LeadsOn(s, a, b);
    t := Finishes(b, w, i);
    LeadsOn(s, b, t);
    TouchedKept(b, t, i);
    KeptOn(s.core, b.core, t.core, i);
  }

  lemma TaskClaimable(s: State, i: nat)
    requires Inv(s) && i < |s.core.names| && !IsGate(s.core.names[i])
    requires s.core.steps[i].status != StepStatus.Succeeded && s.core.steps[i].status != StepStatus.Running
    ensures LegalStep(s.core.steps[i].status, StepStatus.Running) && s.core.steps[i].name == s.core.names[i]
  {
    hide CountsFit, IdemFits, Ordered, DeskOk, Exclusive, PhaseFits, ResolutionFits;
    assert StatusFits(|s.core.log|, s.core.steps[i], i);
  }

  // ----- A gate -----

  /** A worker at a gate opens a request over one channel for an attorney and leaves. */
  lemma OpenOne(s: State, w: nat, i: nat) returns (t: State)
    requires w in s.workers && s.workers[w] == OpenGate(i)
    ensures Leads(s, t) && t.resolvers == s.resolvers
    ensures t.core == s.core.(status := t.core.status)
    ensures t.core.status == if s.core.status == RunStatus.Running then AwaitingApproval else s.core.status
    ensures var g := s.desk.nextId;
      t.desk == s.desk.(gates := s.desk.gates[g := Gate(i, Some(Attorney), GatePending)],
                        tokens := s.desk.tokens[g + 1 := Token(g, i, false)], nextId := g + 2)
  {
    hide Leads, TickWorker;
    var a := IssueOne(s, w, i);
    t := LeaveGate(a, w, s.desk.nextId);
    LeadsOn(s, a, t);
  }

  lemma IssueOne(s: State, w: nat, i: nat) returns (t: State)
    requires w in s.workers && s.workers[w] == OpenGate(i)
    ensures Leads(s, t) && t.resolvers == s.resolvers && t.core == s.core
    ensures var g := s.desk.nextId;
      && w in t.workers && t.workers[w] == IssueTokens(g, 0)
      && t.desk == s.desk.(gates := s.desk.gates[g := Gate(i, Some(Attorney), GatePending)],
                           tokens := s.desk.tokens[g + 1 := Token(g, i, false)], nextId := g + 2)
  {
    hide Leads, VisitStep, MayWrite, Complete, Bump, ReserveKey, WriteStep, LegalRun;
    var g := s.desk.nextId;
    var a := Next(s, Tick(w, Channels(1, Some(Attorney))));
    OneEvent(s, Tick(w, Channels(1, Some(Attorney))));
    assert a.workers[w] == IssueTokens(g, 1);
    t := Next(a, Tick(w, Proceed));
    OneEvent(a, Tick(w, Proceed));
    LeadsOn(s, a, t);
  }

  lemma LeaveGate(s: State, w: nat, g: nat) returns (t: State)
    requires w in s.workers && s.workers[w] == IssueTokens(g, 0)
    ensures Leads(s, t) && t.resolvers == s.resolvers && t.desk == s.desk
    ensures t.core == s.core.(status := t.core.status)
    ensures t.core.status == if s.core.status == RunStatus.Running then AwaitingApproval else s.core.status
  {
    hide Leads, VisitStep, MayWrite, Complete, Bump, ReserveKey, WriteStep;
    var a := Next(s, Tick(w, Proceed));
    OneEvent(s, Tick(w, Proceed));
    assert a.workers[w] == Await;
    t := Next(a, Tick(w, Proceed));
    OneEvent(a, Tick(w, Proceed));
    LeadsOn(s, a, t);
  }

  /** The first step that is not ready, a gate, is opened and approved; the run is then running. */
  lemma PassGate(s: State, i: nat) returns (t: State)
    requires Inv(s) && Shaped(s.core) && i < |s.core.names| && AllReady(s, i)
    requires s.core.status == RunStatus.Running || s.core.status == AwaitingApproval
    requires IsGate(s.core.names[i]) && !Ready(s, i)
    ensures Leads(s, t) && Inv(t) && t.core.status == RunStatus.Running && KeptBut(s.core, t.core, i)
    ensures i < |t.core.steps| && t.core.steps[i].status == StepStatus.Succeeded
  {
    hide Leads, Inv, AllReady, KeptBut, Recorded, Complete;
    GateUnfinished(s, i);
    var a, w := Arrives(s, i);
    var b := Next(a, Tick(w, Proceed));
    OneEvent(a, Tick(w, Proceed));
    LeadsOn(s, a, b);
    assert b.workers[w] == OpenGate(i) && b.core == s.core;
    var c := OpenOne(b, w, i);
    LeadsOn(s, b, c);
    var token := b.desk.nextId + 1;
    t := ResolveCall(c, token, true, Some(Attorney));
    LeadsOn(s, c, t);
    LeadsInv(s, t);
    ApprovedCore(s.core, c.core, i);
  }

  lemma GateUnfinished(s: State, i: nat)
    requires Inv(s) && i < |s.core.names| && IsGate(s.core.names[i]) && s.core.steps[i].status != StepStatus.Succeeded
    ensures !Finished(s.core.steps[i].status) && s.core.steps[i].name == s.core.names[i]
  {
    hide CountsFit, IdemFits, Ordered, DeskOk, Exclusive, PhaseFits, ResolutionFits;
    assert StatusFits(|s.core.log|, s.core.steps[i], i);
  }

  lemma ApprovedCore(c: Core, d: Core, i: nat)
    requires Shaped(c) && i < |c.names| && d == c.(status := AwaitingApproval)
    ensures var e := RuledCore(d, i, true);
      e.status == RunStatus.Running && KeptBut(c, e, i) && i < |e.steps| && e.steps[i].status == StepStatus.Succeeded
  {
    hide Recorded, Complete;
    CompleteQuiet(WriteStep(d.(status := RunStatus.Running), i, d.steps[i].(status := StepStatus.Succeeded)), i);
    RecordsQuiet(c, RuledCore(d, i, true));
  }

  // ----- The whole run -----

  /** A run under way: running, every step before `i` ready, and no step unreturned. */
  ghost predicate Driven(s: State, i: nat) {
    && Inv(s) && Shaped(s.core) && i <= |s.core.names| && AllReady(s, i) && NoneUnreturned(s.core)
  }

  lemma ReadyAfter(s: State, t: State, i: nat)
    requires Driven(s, i) && i < |s.core.names| && Inv(t) && KeptBut(s.core, t.core, i)
    requires i < |t.core.steps| && t.core.steps[i].status == StepStatus.Succeeded
    ensures Driven(t, i + 1) && t.core.names == s.core.names
  {
    hide Inv, Recorded;
    assert !Unreturned(t.core, i);
    KeptUnreturned(s.core, t.core, i);
    forall k | 0 <= k < i + 1
      ensures Ready(t, k)
    {
      assert k < i ==> Ready(s, k);
    }
  }

  /** A running run is carried one step further. */
  lemma DoStep(s: State, i: nat) returns (t: State)
    requires Driven(s, i) && i < |s.core.names| && s.core.status == RunStatus.Running
    ensures Leads(s, t) && Driven(t, i + 1) && t.core.names == s.core.names && t.core.status == RunStatus.Running
    ensures KeptBut(s.core, t.core, i)
  {
    hide Leads, Inv, KeptBut, Recorded;
    if Ready(s, i) {
      t := s;
      LeadsSelf(s);
      KeptSelf(s.core, i);
    } else {
      if IsGate(s.core.names[i]) {
        t := PassGate(s, i);
      } else {
        t := DoTask(s, i);
      }
      ReadyAfter(s, t, i);
    }
  }

  lemma KeptSelf(c: Core, i: nat)
    requires Shaped(c)
    ensures KeptBut(c, c, i)
  {
  }

  lemma {:induction false} DoSteps(s: State, i: nat, j: nat) returns (t: State)
    requires Driven(s, i) && i <= j <= |s.core.names| && s.core.status == RunStatus.Running
    ensures Leads(s, t) && Driven(t, j) && t.core.names == s.core.names && t.core.status == RunStatus.Running
    ensures forall k :: j <= k < |s.core.names| ==> SameAt(s.core, t.core, k)
    decreases j - i
  {
    hide Leads, Driven, KeptBut, Recorded, SameAt;
    if i == j {
      t := s;
      LeadsSelf(s);
      forall k | j <= k < |s.core.names|
        ensures SameAt(s.core, t.core, k)
      {
        SameSelf(s, i, k);
      }
    } else {
      var u := DoStep(s, i);
      t := DoSteps(u, i + 1, j);
      LeadsOn(s, u, t);
      forall k | j <= k < |s.core.names|
        ensures SameAt(s.core, t.core, k)
      {
        SameOn(s.core, u.core, t.core, i, k);
      }
    }
  }

  /** Step `k` is as it was. */
  predicate SameAt(c: Core, c': Core, k: nat) {
    && k < |c.steps| == |c'.steps| && k < |c.successes| == |c'.successes| && k < |c.faults| == |c'.faults|
    && c'.steps[k] == c.steps[k] && (Recorded(c', k) <==> Recorded(c, k))
    && c'.successes[k] == c.successes[k] && c'.faults[k] == c.faults[k]
  }

  lemma SameSelf(s: State, i: nat, k: nat)
    requires Driven(s, i) && k < |s.core.names|
    ensures SameAt(s.core, s.core, k)
  {
    hide Inv, AllReady, NoneUnreturned;
  }

  lemma SameOn(a: Core, b: Core, c: Core, i: nat, k: nat)
    requires KeptBut(a, b, i) && k != i && k < |a.names| && SameAt(b, c, k)
    ensures SameAt(a, c, k)
  {
    hide Recorded;
  }

  ghost predicate CanSucceed(s: State) {
    exists t :: Leads(s, t) && t.core.status == RunStatus.Succeeded
  }

  lemma SucceedLater(s: State, t: State)
    requires Leads(s, t) && CanSucceed(t)
    ensures CanSucceed(s)
  {
    hide Leads;
    var u :| Leads(t, u) && u.core.status == RunStatus.Succeeded;
    LeadsOn(s, t, u);
  }

  /** With every step ready a new worker walks to the end and marks the running run succeeded. */
  lemma Concludes(s: State)
    requires Inv(s) && Shaped(s.core) && AllReady(s, |s.core.names|) && s.core.status == RunStatus.Running
    ensures CanSucceed(s)
  {
    hide Leads, Inv, AllReady, MayWrite, Complete, Bump, ReserveKey, WriteStep, Recorded;
    var n := |s.core.names|;
    var a, w := Arrives(s, n);
    var b := Next(a, Tick(w, Proceed));
    OneEvent(a, Tick(w, Proceed));
    LeadsOn(s, a, b);
    assert b.workers[w] == Finish && b.core == s.core;
    var t := Next(b, Tick(w, Proceed));
    OneEvent(b, Tick(w, Proceed));
    LeadsOn(s, b, t);
    assert t.core.status == RunStatus.Succeeded;
  }

  lemma RunningSucceeds(s: State)
    requires Inv(s) && s.core.status == RunStatus.Running && NoneUnreturned(s.core)
    ensures CanSucceed(s)
  {
    hide Leads, Inv, Recorded, CanSucceed, NoneUnreturned;
    ShapedInv(s);
    assert AllReady(s, 0);
    var t := DoSteps(s, 0, |s.core.names|);
    Concludes(t);
    SucceedLater(s, t);
  }

  /** A queued run is promoted by its first worker. */
  lemma Promoted(s: State) returns (t: State)
    requires s.core.status == Queued
    ensures Leads(s, t) && t.core == s.core.(status := RunStatus.Running)
  {
    hide Leads, MayWrite, Complete, Bump, ReserveKey, WriteStep, VisitStep;
    var w := Above(s.workers.Keys);
    var a := Next(s, Spawn(w));
    OneEvent(s, Spawn(w));
    var b := Next(a, Tick(w, Proceed));
    OneEvent(a, Tick(w, Proceed));
    LeadsOn(s, a, b);
    assert b.workers[w] == Promote;
    t := Next(b, Tick(w, Proceed));
    OneEvent(b, Tick(w, Proceed));
    LeadsOn(s, b, t);
  }

  /** A queued run is promoted by its first worker, a parked one re-driven by an operator. */
  lemma QueuedOrParkedSucceeds(s: State)
    requires Inv(s) && (s.core.status == Queued || s.core.status == Parked) && NoneUnreturned(s.core)
    ensures CanSucceed(s)
  {
    hide Leads, Inv, Recorded, CanSucceed;
    var t: State;
    if s.core.status == Parked {
      t := Next(s, Operator(RunStatus.Running));
      OneEvent(s, Operator(RunStatus.Running));
    } else {
      t := Promoted(s);
    }
    LeadsInv(s, t);
    assert t.core == s.core.(status := RunStatus.Running);
    RecordsQuiet(s.core, t.core);
    forall i | 0 <= i < |t.core.steps|
      ensures !Unreturned(t.core, i)
    {
      assert !Unreturned(s.core, i);
    }
    RunningSucceeds(t);
    SucceedLater(s, t);
  }

  // ----- A run that waits -----

  /** A waiting run with a gate ahead is carried up to the gate, which is opened and approved. */
  lemma {:induction false} WaitingReaches(s: State, i: nat, g: nat) returns (t: State)
    requires Driven(s, i) && s.core.status == AwaitingApproval && i <= g < |s.core.names|
    requires IsGate(s.core.names[g]) && s.core.steps[g].status != StepStatus.Succeeded
    ensures Leads(s, t) && Inv(t) && t.core.status == RunStatus.Running && NoneUnreturned(t.core)
    decreases g - i
  {
    hide Leads, Inv, Recorded, KeptBut;
    if IsGate(s.core.names[i]) && !Ready(s, i) {
      t := PassGate(s, i);
      ReadyAfter(s, t, i);
    } else if Ready(s, i) {
      t := WaitingReaches(s, i + 1, g);
    } else {
      var u := DoTask(s, i);
      ReadyAfter(s, u, i);
      KeptStep(s.core, u.core, i, g);
      t := WaitingReaches(u, i + 1, g);
      LeadsOn(s, u, t);
    }
  }

  lemma KeptStep(c: Core, c': Core, i: nat, k: nat)
    requires KeptBut(c, c', i) && k < |c.names| && k != i
    ensures c'.steps[k] == c.steps[k]
  {
    hide Recorded;
  }

  /** An unspent token of a pending request that somebody can decide. */
  predicate Usable(d: Desk, t: nat) {
    && t in d.tokens && !d.tokens[t].used && d.tokens[t].gate in d.gates
    && d.gates[d.tokens[t].gate].status == GatePending && Deciding(d.gates[d.tokens[t].gate].role)
  }

  /** A resolver past every check, or about to pass them, with an approval. */
  predicate Approving(d: Desk, q: Resolution) {
    match q
    case ReadGate(t, approve, actor) => approve && Admits(d, t, actor)
    case Decide(t, approve, _, _) => approve && t in d.tokens
    case Flip(t, approve, _) => approve && t in d.tokens
    case Move(t, approve) => approve && t in d.tokens
    case _ => false
  }

  lemma TokenStep(s: State, t: nat)
    requires Inv(s) && t in s.desk.tokens
    ensures s.desk.tokens[t].step < |s.core.names| && Shaped(s.core)
  {
    hide CountsFit, StepsFit, IdemFits, Ordered, GatesApproved, DecisionsFit, Exclusive, PhaseFits, ResolutionFits;
  }

  lemma ApprovedSucceeds(s: State, t: State, i: nat)
    requires Inv(s) && Shaped(s.core) && i < |s.core.names| && s.core.status == AwaitingApproval
    requires NoneUnreturned(s.core) && Leads(s, t) && t.core == RuledCore(s.core, i, true)
    ensures CanSucceed(s)
  {
    hide Leads, Inv, Recorded, CanSucceed, RuledCore, KeptBut;
    LeadsInv(s, t);
    ApprovedCore(s.core, s.core, i);
    KeptUnreturned(s.core, t.core, i);
    RunningSucceeds(t);
    SucceedLater(s, t);
  }

  lemma TokenResumes(s: State, t: nat)
    requires Inv(s) && s.core.status == AwaitingApproval && NoneUnreturned(s.core) && Usable(s.desk, t)
    ensures CanSucceed(s)
  {
    hide Leads, Inv, Recorded, CanSucceed, RuledCore, RuledDesk, NoneUnreturned;
    TokenStep(s, t);
    var u := ResolveCall(s, t, true, s.desk.gates[s.desk.tokens[t].gate].role);
    ApprovedSucceeds(s, u, s.desk.tokens[t].step);
  }

  function Remaining(q: Resolution): nat {
    match q
    case ReadGate(_, _, _) => 3
    case Decide(_, _, _, _) => 2
    case Flip(_, _, _) => 1
    case _ => 0
  }

  lemma {:induction false} ResolverApproves(s: State, r: nat) returns (t: State)
    requires r in s.resolvers && Approving(s.desk, s.resolvers[r]) && s.resolvers[r].token in s.desk.tokens
    requires s.desk.tokens[s.resolvers[r].token].step < |s.core.steps| && s.core.status == AwaitingApproval
    ensures Leads(s, t) && t.core == RuledCore(s.core, s.desk.tokens[s.resolvers[r].token].step, true)
    decreases Remaining(s.resolvers[r])
  {
    hide Leads, MayDecide, Complete;
    var u := Next(s, Resolve(r));
    OneEvent(s, Resolve(r));
    if s.resolvers[r].Move? {
      t := Next(u, Resolve(r));
      OneEvent(u, Resolve(r));
    } else {
      t := ResolverApproves(u, r);
    }
    LeadsOn(s, u, t);
  }

  lemma ResolverResumes(s: State, r: nat)
    requires Inv(s) && s.core.status == AwaitingApproval && NoneUnreturned(s.core)
    requires r in s.resolvers && Approving(s.desk, s.resolvers[r])
    ensures CanSucceed(s)
  {
    hide Leads, Inv, Recorded, CanSucceed, RuledCore, NoneUnreturned;
    TokenStep(s, s.resolvers[r].token);
    var u := ResolverApproves(s, r);
    ApprovedSucceeds(s, u, s.desk.tokens[s.resolvers[r].token].step);
  }

  predicate GateAhead(c: Core, g: nat) {
    g < |c.names| && g < |c.steps| && IsGate(c.names[g]) && c.steps[g].status != StepStatus.Succeeded
  }

  /** A waiting run can go on: a gate ahead of it can be asked for again, or there is a token or a resolver
      that can approve. */
  ghost predicate CanResume(s: State)
    requires Shaped(s.core)
  {
    || (exists g :: 0 <= g < |s.core.names| && GateAhead(s.core, g))
    || (exists t <- s.desk.tokens :: Usable(s.desk, t))
    || (exists r <- s.resolvers :: Approving(s.desk, s.resolvers[r]))
  }

  lemma WaitingSucceeds(s: State)
    requires Inv(s) && Shaped(s.core) && s.core.status == AwaitingApproval && NoneUnreturned(s.core) && CanResume(s)
    ensures CanSucceed(s)
  {
    hide Leads, Inv, Recorded, CanSucceed, NoneUnreturned, Usable, Approving;
    if t :| t in s.desk.tokens && Usable(s.desk, t) {
      TokenResumes(s, t);
    } else if r :| r in s.resolvers && Approving(s.desk, s.resolvers[r]) {
      ResolverResumes(s, r);
    } else {
      var g :| 0 <= g < |s.core.names| && GateAhead(s.core, g);
      assert AllReady(s, 0);
      var t := WaitingReaches(s, 0, g);
      RunningSucceeds(t);
      SucceedLater(s, t);
    }
  }
}
