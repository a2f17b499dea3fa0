/** A way to a handler is always taken by some continuation, so a rejection is final exactly if there is
    none. */
module ProtocolOverrun {
  import opened Wrappers
  import opened States
  import opened Protocol
  import opened ProtocolSafety
  import opened ProtocolTheorems
  import opened ProtocolRuns
  import opened ProtocolRejection

  // ----- Events that concern one step only -----

  /** Only step `i`, the workers inside it and the resolvers about to advance it differ. */
  ghost predicate Touched(s: State, t: State, i: nat) {
    && Shaped(s.core) && Shaped(t.core) && t.core.names == s.core.names && t.core.status == s.core.status
    && t.desk == s.desk
    && (forall k :: 0 <= k < |s.core.names| && k != i ==>
          && t.core.steps[k] == s.core.steps[k] && (Recorded(t.core, k) <==> Recorded(s.core, k))
          && t.core.successes[k] == s.core.successes[k] && t.core.faults[k] == s.core.faults[k])
    && (forall v <- s.workers :: !Owns(s.workers[v], i) ==> v in t.workers && t.workers[v] == s.workers[v])
    && (forall r <- s.resolvers ::
          !Advancing(s.desk, s.resolvers[r], i) ==> r in t.resolvers && t.resolvers[r] == s.resolvers[r])
  }

  lemma TouchedOn(s: State, t: State, u: State, i: nat)
    requires Touched(s, t, i) && Touched(t, u, i)
    ensures Touched(s, u, i)
  {
    hide Recorded, Owns, Advancing;
  }

  /** Other steps are as passable and as claimable as before. */
  lemma TouchedKeeps(s: State, t: State, i: nat, k: nat)
    requires Touched(s, t, i) && k < |s.core.names| && k != i
    ensures Passable(s, k) ==> Passable(t, k)
    ensures Claimable(s, k) ==> Claimable(t, k)
    ensures Recorded(s.core, k) || CanRecord(s.workers, k) ==> Recorded(t.core, k) || CanRecord(t.workers, k)
  {
    hide Recorded;
    if w :| w in s.workers && Owns(s.workers[w], k) && !s.workers[w].Fail? {
      assert !Owns(s.workers[w], i) && t.workers[w] == s.workers[w];
    }
    if w :| w in s.workers && Owns(s.workers[w], k) && !s.workers[w].Commit? {
      assert !Owns(s.workers[w], i) && t.workers[w] == s.workers[w];
    }
    if w :| w in s.workers && Records(s.workers[w], k) {
      assert !Owns(s.workers[w], i) && t.workers[w] == s.workers[w];
    }
    if r :| r in s.resolvers && Advancing(s.desk, s.resolvers[r], k) {
      assert !Advancing(s.desk, s.resolvers[r], i) && t.resolvers[r] == s.resolvers[r];
    }
  }

  // ----- A worker inside a step, driven on -----

  lemma OwnerLocal(c: Core, d: Desk, p: Phase, choice: Choice, i: nat)
    requires Owns(p, i)
    ensures var m := TickWorker(c, d, p, choice);
      && m.desk == d && m.core.status == c.status && m.core.names == c.names
      && |m.core.steps| == |c.steps| && |m.core.successes| == |c.successes| && |m.core.faults| == |c.faults|
      && forall k: nat :: k != i ==>
           && (k < |c.steps| ==> m.core.steps[k] == c.steps[k]) && (Recorded(m.core, k) <==> Recorded(c, k))
           && (k < |c.successes| ==> m.core.successes[k] == c.successes[k])
           && (k < |c.faults| ==> m.core.faults[k] == c.faults[k])
  {
    hide Complete;
    CompleteQuiet(c, i);
  }

  lemma OwnerTick(s: State, w: nat, i: nat, choice: Choice) returns (t: State)
    requires Inv(s) && w in s.workers && Owns(s.workers[w], i)
    ensures t == MoveWorker(s, w, choice) && Leads(s, t) && Inv(t) && Touched(s, t, i)
  {
    hide TickWorker, DeskOk, Leads, CountsFit, StepsFit, IdemFits, Ordered, Exclusive, Recorded;
    var e := Tick(w, choice);
    t := Next(s, e);
    OneEvent(s, e);
    NextInv(s, e);
    OwnerLocal(s.core, s.desk, s.workers[w], choice, i);
  }

  function Rank(p: Phase): nat {
    match p
    case Handling(_, _) => 3
    case Reserve(_, _, _) => 2
    case Record(_, _, _) => 1
    case _ => 0
  }

  const SOME_OUTPUT: Output := map["done" := "yes"]

  /** What a tick of the owner does on the way to committing. */
  lemma OwnerAdvances(c: Core, d: Desk, p: Phase, i: nat)
    requires Shaped(c) && PhaseFits(c, d, p) && Owns(p, i) && !p.Fail?
    ensures var choice := if p.Handling? then Returned(SOME_OUTPUT) else Proceed;
      var m := TickWorker(c, d, p, choice);
      if p.Commit? then
        && m.phase == Visit(i + 1, SnapOf(p)) && i < |m.core.steps| && m.core.steps[i].status == StepStatus.Succeeded
        && (Recorded(c, i) ==> Recorded(m.core, i))
      else
        && Owns(m.phase, i) && !m.phase.Fail? && Rank(m.phase) < Rank(p) && SnapOf(m.phase) == SnapOf(p)
        && (Records(p, i) ==> Records(m.phase, i) || (m.phase.Commit? && Recorded(m.core, i)))
  {
    hide Complete, Bump, StatusFits;
    assert "done" in SOME_OUTPUT;
  }

  /** A worker inside a step that has not failed can commit it, recording its output if it has one. */
  lemma {:induction false} Finishes(s: State, w: nat, i: nat) returns (t: State)
    requires Inv(s) && w in s.workers && Owns(s.workers[w], i) && !s.workers[w].Fail?
    ensures Leads(s, t) && Inv(t) && Touched(s, t, i)
    ensures i < |t.core.steps| && t.core.steps[i].status == StepStatus.Succeeded
    ensures w in t.workers && t.workers[w] == Visit(i + 1, SnapOf(s.workers[w]))
    ensures Records(s.workers[w], i) || (s.workers[w].Commit? && Recorded(s.core, i)) ==> Recorded(t.core, i)
    decreases Rank(s.workers[w])
  {
    hide TickWorker, Leads, Touched, Inv, Recorded, Owns, Rank, SnapOf;
    var p := s.workers[w];
    InvFits(s, w);
    OwnerAdvances(s.core, s.desk, p, i);
    var u := OwnerTick(s, w, i, if p.Handling? then Returned(SOME_OUTPUT) else Proceed);
    if p.Commit? {
      t := u;
    } else {
      t := Finishes(u, w, i);
      LeadsOn(s, u, t);
      TouchedOn(s, u, t, i);
    }
  }

  lemma InvFits(s: State, w: nat)
    requires Inv(s) && w in s.workers
    ensures Shaped(s.core) && PhaseFits(s.core, s.desk, s.workers[w])
  {
  }

  lemma OwnerFails(c: Core, d: Desk, p: Phase, i: nat)
    requires Shaped(c) && PhaseFits(c, d, p) && Owns(p, i) && !p.Commit?
    ensures var choice := if p.Handling? then Raised(false) else IdemRaised;
      var m := TickWorker(c, d, p, choice);
      if p.Fail? then i < |m.core.steps| && m.core.steps[i].status == Failed else m.phase.Fail? && Owns(m.phase, i)
  {
    hide StatusFits;
  }

  /** A worker inside a step that is not yet committing can fail it. */
  lemma Fails(s: State, w: nat, i: nat) returns (t: State)
    requires Inv(s) && w in s.workers && Owns(s.workers[w], i) && !s.workers[w].Commit?
    ensures Leads(s, t) && Inv(t) && Touched(s, t, i)
    ensures i < |t.core.steps| && t.core.steps[i].status == Failed
  {
    hide TickWorker, Leads, Touched, Inv, Recorded, Owns;
    InvFits(s, w);
    OwnerFails(s.core, s.desk, s.workers[w], i);
    t := OwnerTick(s, w, i, if s.workers[w].Handling? then Raised(false) else IdemRaised);
    if !s.workers[w].Fail? {
      var u := t;
      InvFits(u, w);
      OwnerFails(u.core, u.desk, u.workers[w], i);
      t := OwnerTick(u, w, i, IdemRaised);
      LeadsOn(s, u, t);
      TouchedOn(s, u, t, i);
    }
  }

  /** A resolver about to advance a gate step does so. */
  lemma Advances(s: State, r: nat, i: nat) returns (t: State)
    requires Inv(s) && r in s.resolvers && Advancing(s.desk, s.resolvers[r], i)
    ensures Leads(s, t) && Inv(t) && Touched(s, t, i)
    ensures i < |t.core.steps| && t.core.steps[i].status == StepStatus.Succeeded
  {
    hide Leads, CountsFit, StepsFit, IdemFits, Ordered, Exclusive, Recorded, GatesApproved, DecisionsFit, TickResolver;
    t := Next(s, Resolve(r));
    OneEvent(s, Resolve(r));
    NextInv(s, Resolve(r));
    assert ResolutionFits(s.desk, s.resolvers[r]);
    AdvanceLocal(s.core, s.desk, s.resolvers[r], i);
    RecordsQuiet(s.core, t.core);
  }

  lemma AdvanceLocal(c: Core, d: Desk, q: Resolution, i: nat)
    requires Shaped(c) && Advancing(d, q, i) && i < |c.names|
    ensures var m := TickResolver(c, d, q);
      && m.desk == d && m.core == c.(log := m.core.log, steps := c.steps[i := m.core.steps[i]])
      && m.core.steps[i].status == StepStatus.Succeeded
  {
  }

  lemma RecordsQuiet(c: Core, c': Core)
    requires c'.idem == c.idem
    ensures forall k: nat :: Recorded(c', k) <==> Recorded(c, k)
  {
  }

  // ----- Clearing the way -----

  /** A worker that takes its snapshot now passes step `k`. */
  predicate Ready(s: State, k: nat)
    requires Shaped(s.core) && k < |s.core.names|
  {
    s.core.steps[k].status == StepStatus.Succeeded || (!IsGate(s.core.names[k]) && Recorded(s.core, k))
  }

  ghost predicate AllReady(s: State, j: nat)
    requires Shaped(s.core) && j <= |s.core.names|
  {
    forall k :: 0 <= k < j ==> Ready(s, k)
  }

  lemma ReadyKept(s: State, t: State, i: nat, k: nat)
    requires Touched(s, t, i) && k < |s.core.names| && k != i && Ready(s, k)
    ensures Ready(t, k)
  {
    hide Recorded, Owns, Advancing;
  }

  /** A passable step is made ready. */
  lemma MakeReady(s: State, i: nat) returns (t: State)
    requires Inv(s) && Shaped(s.core) && i < |s.core.names| && Passable(s, i)
    ensures Leads(s, t) && Inv(t) && Touched(s, t, i) && Ready(t, i)
  {
    hide Leads, Touched, Inv, Recorded;
    if Ready(s, i) {
      t := s;
      LeadsSelf(s);
      TouchedSelf(s, i);
    } else if IsGate(s.core.names[i]) {
      var r :| r in s.resolvers && Advancing(s.desk, s.resolvers[r], i);
      t := Advances(s, r, i);
      TouchedShape(s, t, i);
    } else {
      var w :| w in s.workers && Owns(s.workers[w], i) && !s.workers[w].Fail?;
      t := Finishes(s, w, i);
      TouchedShape(s, t, i);
    }
  }

  lemma TouchedSelf(s: State, i: nat)
    requires Shaped(s.core)
    ensures Touched(s, s, i)
  {
  }

  lemma TouchedShape(s: State, t: State, i: nat)
    requires Touched(s, t, i)
    ensures Shaped(s.core) && Shaped(t.core) && t.core.names == s.core.names && t.core.status == s.core.status
  {
    hide Recorded, Owns, Advancing;
  }

  /** With the steps before `i` ready, those up to `j` passable and `j` claimable, all before `j` are made
      ready and `j` stays claimable. */
  lemma {:induction false} ClearWay(s: State, i: nat, j: nat) returns (t: State)
    requires Inv(s) && Shaped(s.core) && i <= j < |s.core.names|
    requires AllReady(s, i) && Claimable(s, j) && forall k :: i <= k < j ==> Passable(s, k)
    ensures Leads(s, t) && Inv(t) && Shaped(t.core) && t.core.names == s.core.names && t.core.status == s.core.status
    ensures AllReady(t, j) && Claimable(t, j)
    decreases j - i
  {
    hide Leads, Touched, Inv, Passable, Claimable, Ready;
    if i == j {
      t := s;
      LeadsSelf(s);
    } else {
      var u := MakeReady(s, i);
      TouchedShape(s, u, i);
      forall k | 0 <= k < i
        ensures Ready(u, k)
      {
        ReadyKept(s, u, i, k);
      }
      forall k | i + 1 <= k < j
        ensures Passable(u, k)
      {
        TouchedKeeps(s, u, i, k);
      }
      TouchedKeeps(s, u, i, j);
      t := ClearWay(u, i + 1, j);
      LeadsOn(s, u, t);
    }
  }

  predicate ClaimableNow(s: State, j: nat)
    requires Shaped(s.core) && j < |s.core.names|
  {
    !IsGate(s.core.names[j]) && LegalStep(s.core.steps[j].status, StepStatus.Running)
  }

  /** A claimable step is made claimable at once. */
  lemma MakeClaimable(s: State, j: nat) returns (t: State)
    requires Inv(s) && Shaped(s.core) && j < |s.core.names| && Claimable(s, j)
    ensures Leads(s, t) && Inv(t) && Touched(s, t, j)
    ensures Shaped(t.core) && t.core.names == s.core.names && ClaimableNow(t, j)
  {
    hide Leads, Touched, Inv, Recorded;
    if LegalStep(s.core.steps[j].status, StepStatus.Running) {
      t := s;
      LeadsSelf(s);
      TouchedSelf(s, j);
    } else {
      var w :| w in s.workers && Owns(s.workers[w], j) && !s.workers[w].Commit?;
      t := Fails(s, w, j);
      TouchedShape(s, t, j);
    }
  }

  // ----- Walking it -----

  /** A worker at `Visit(i, snap)` passes the steps up to `j`. */
  predicate Walks(c: Core, snap: seq<Step>, i: nat, j: nat)
    requires j <= |snap|
  {
    forall k :: i <= k < j ==> Finished(snap[k].status) || (!IsGate(snap[k].name) && Recorded(c, k))
  }

  lemma {:induction false} WalkTo(s: State, w: nat, snap: seq<Step>, i: nat, j: nat) returns (t: State)
    requires w in s.workers && s.workers[w] == Visit(i, snap) && i <= j <= |snap| && Walks(s.core, snap, i, j)
    ensures Leads(s, t) && t == s.(workers := s.workers[w := Visit(j, snap)])
    decreases j - i
  {
    hide Leads, Recorded;
    if i == j {
      t := s;
      LeadsSelf(s);
      assert s.workers[w := s.workers[w]] == s.workers;
    } else {
      var u := Next(s, Tick(w, Proceed));
      OneEvent(s, Tick(w, Proceed));
      assert u == s.(workers := s.workers[w := Visit(i + 1, snap)]);
      t := WalkTo(u, w, snap, i + 1, j);
      LeadsOn(s, u, t);
      assert u.workers[w := Visit(j, snap)] == s.workers[w := Visit(j, snap)];
    }
  }

  /** At a claimable step that its snapshot does not show finished, the worker goes in; a record of it is
      lost first, if there is one. */
  lemma GoIn(s: State, w: nat, snap: seq<Step>, j: nat)
    requires w in s.workers && s.workers[w] == Visit(j, snap) && j < |snap|
    requires !Finished(snap[j].status) && !IsGate(snap[j].name) && MayWrite(s.core, j, StepStatus.Running)
    ensures CanEnter(s)
  {
    hide Leads;
    var a := Next(s, Forget(j));
    OneEvent(s, Forget(j));
    var t := Next(a, Tick(w, Proceed));
    OneEvent(a, Tick(w, Proceed));
    LeadsOn(s, a, t);
    assert t.workers[w] == Claim(j, snap);
    assert Enters(t, w);
  }

  lemma EnterLater(s: State, t: State)
    requires Leads(s, t) && CanEnter(t)
    ensures CanEnter(s)
  {
    hide Leads, Enters;
    var u, w :| Leads(t, u) && Enters(u, w);
    LeadsOn(s, t, u);
  }

  /** A new worker on a run that is not queued takes its snapshot. */
  lemma Boots(s: State) returns (t: State, w: nat)
    requires s.core.status != Queued
    ensures Leads(s, t) && t.core == s.core && t.desk == s.desk && t.resolvers == s.resolvers
    ensures w in t.workers && t.workers[w] == Visit(0, s.core.steps)
  {
    hide Leads;
    w := Above(s.workers.Keys);
    var a := Next(s, Spawn(w));
    OneEvent(s, Spawn(w));
    var b := Next(a, Tick(w, Proceed));
    OneEvent(a, Tick(w, Proceed));
    LeadsOn(s, a, b);
    t := Next(b, Tick(w, Proceed));
    OneEvent(b, Tick(w, Proceed));
    LeadsOn(s, b, t);
  }

  lemma ReadyWalks(s: State, i: nat, j: nat)
    requires Shaped(s.core) && j <= |s.core.names| && AllReady(s, j)
    ensures Walks(s.core, s.core.steps, i, j)
  {
    hide Recorded;
    forall k | i <= k < j
      ensures Finished(s.core.steps[k].status) || (!IsGate(s.core.steps[k].name) && Recorded(s.core, k))
    {
      assert Ready(s, k);
    }
  }

  lemma NewWayTaken(s: State)
    requires Inv(s) && s.core.status == Rejected && Shaped(s.core) && NewWay(s)
    ensures CanEnter(s)
  {
    hide Leads, Inv, Touched, Passable, Claimable, CanEnter, Recorded;
    var j :| 0 <= j < |s.core.names| && Claimable(s, j) && ClearTo(s, j);
    var a := ClearWay(s, 0, j);
    var b := MakeClaimable(a, j);
    TouchedShape(a, b, j);
    forall k | 0 <= k < j
      ensures Ready(b, k)
    {
      ReadyKept(a, b, j, k);
    }
    assert AllReady(b, j);
    LeadsOn(s, a, b);
    var c, w := Boots(b);
    LeadsOn(s, b, c);
    var snap := b.core.steps;
    ReadyWalks(b, 0, j);
    var t := WalkTo(c, w, snap, 0, j);
    LeadsOn(s, c, t);
    GoIn(t, w, snap, j);
    EnterLater(s, t);
  }

  // ----- The way of a worker under way -----

  /** By its snapshot or by a record, the worker passes step `k` now. */
  predicate ReadyWith(s: State, snap: seq<Step>, k: nat)
    requires Shaped(s.core) && k < |s.core.names| && |snap| == |s.core.names|
  {
    Finished(snap[k].status) || (!IsGate(s.core.names[k]) && Recorded(s.core, k))
  }

  lemma MakeReadyWith(s: State, snap: seq<Step>, k: nat) returns (t: State)
    requires Inv(s) && Shaped(s.core) && |snap| == |s.core.names| && k < |snap| && PassableWith(s, snap, k)
    ensures Leads(s, t) && Inv(t) && Touched(s, t, k)
    ensures Shaped(t.core) && t.core.names == s.core.names && ReadyWith(t, snap, k)
  {
    hide Leads, Touched, Inv, Recorded;
    if ReadyWith(s, snap, k) {
      t := s;
      LeadsSelf(s);
      TouchedSelf(s, k);
    } else {
      var w :| w in s.workers && Records(s.workers[w], k);
      t := Finishes(s, w, k);
      TouchedShape(s, t, k);
    }
  }

  lemma ReadyWithKept(s: State, t: State, snap: seq<Step>, i: nat, k: nat)
    requires Touched(s, t, i) && |snap| == |s.core.names| && k < |snap| && k != i
    ensures ReadyWith(s, snap, k) ==> ReadyWith(t, snap, k)
    ensures PassableWith(s, snap, k) ==> PassableWith(t, snap, k)
  {
    hide Touched, Recorded, CanRecord;
    TouchedShape(s, t, i);
    TouchedKeeps(s, t, i, k);
    if Recorded(s.core, k) {
      TouchedRecord(s, t, i, k);
    }
  }

  lemma TouchedRecord(s: State, t: State, i: nat, k: nat)
    requires Touched(s, t, i) && k < |s.core.names| && k != i && Recorded(s.core, k)
    ensures Recorded(t.core, k)
  {
    hide Recorded, Owns, Advancing;
  }

  lemma WorkerKept(s: State, t: State, i: nat, w: nat)
    requires Touched(s, t, i) && w in s.workers && !Owns(s.workers[w], i)
    ensures w in t.workers && t.workers[w] == s.workers[w]
  {
    hide Recorded, Owns, Advancing;
  }

  /** The steps from `p` to `i` ready for the worker, those on to `j` passable and `j` claimable: all up to
      `j` are made ready while the worker waits. */
  lemma {:induction false} ClearWayFor(s: State, w: nat, snap: seq<Step>, p: nat, i: nat, j: nat) returns (t: State)
    requires Inv(s) && Shaped(s.core) && |snap| == |s.core.names| && p <= i <= j < |snap|
    requires w in s.workers && s.workers[w] == Visit(p, snap) && Claimable(s, j)
    requires forall k :: p <= k < i ==> ReadyWith(s, snap, k)
    requires forall k :: i <= k < j ==> PassableWith(s, snap, k)
    ensures Leads(s, t) && Inv(t) && Shaped(t.core) && t.core.names == s.core.names
    ensures w in t.workers && t.workers[w] == Visit(p, snap) && Claimable(t, j)
    ensures forall k :: p <= k < j ==> ReadyWith(t, snap, k)
    decreases j - i
  {
    hide Leads, Touched, Inv, PassableWith, Claimable, ReadyWith;
    if i == j {
      t := s;
      LeadsSelf(s);
    } else {
      var u := MakeReadyWith(s, snap, i);
      WorkerKept(s, u, i, w);
      forall k | p <= k < i
        ensures ReadyWith(u, snap, k)
      {
        ReadyWithKept(s, u, snap, i, k);
      }
      forall k | i + 1 <= k < j
        ensures PassableWith(u, snap, k)
      {
        ReadyWithKept(s, u, snap, i, k);
      }
      TouchedKeeps(s, u, i, j);
      t := ClearWayFor(u, w, snap, p, i + 1, j);
      LeadsOn(s, u, t);
    }
  }

  lemma VisitTaken(s: State, w: nat, snap: seq<Step>, p: nat)
    requires Inv(s) && Shaped(s.core) && |snap| == |s.core.names|
    requires w in s.workers && s.workers[w] == Visit(p, snap) && WayFrom(s, snap, p)
    ensures CanEnter(s)
  {
    hide Leads, Touched, Inv, PassableWith, Claimable, CanEnter, ReadyWith;
    var j :| p <= j < |s.core.names| && Claimable(s, j) && !Finished(snap[j].status) && ClearFrom(s, snap, p, j);
    SnapNames(s, w);
    var a := ClearWayFor(s, w, snap, p, p, j);
    var b := MakeClaimable(a, j);
    LeadsOn(s, a, b);
    WorkerKept(a, b, j, w);
    forall k | p <= k < j
      ensures ReadyWith(b, snap, k)
    {
      ReadyWithKept(a, b, snap, j, k);
    }
    WalksBy(b, snap, p, j);
    var t := WalkTo(b, w, snap, p, j);
    LeadsOn(s, b, t);
    GoIn(t, w, snap, j);
    EnterLater(s, t);
  }

  lemma WalksBy(s: State, snap: seq<Step>, p: nat, j: nat)
    requires Shaped(s.core) && |snap| == |s.core.names| && j <= |snap|
    requires forall k :: 0 <= k < |snap| ==> snap[k].name == s.core.names[k]
    requires forall k :: p <= k < j ==> ReadyWith(s, snap, k)
    ensures Walks(s.core, snap, p, j)
  {
    hide Recorded;
    forall k | p <= k < j
      ensures Finished(snap[k].status) || (!IsGate(snap[k].name) && Recorded(s.core, k))
    {
      assert ReadyWith(s, snap, k);
    }
  }

  lemma SnapNames(s: State, w: nat)
    requires Inv(s) && w in s.workers && (s.workers[w].Visit? || Position(s.workers[w]).Some?)
    ensures |SnapOf(s.workers[w])| == |s.core.names|
    ensures forall k :: 0 <= k < |s.core.names| ==> SnapOf(s.workers[w])[k].name == s.core.names[k]
  {
    hide CountsFit, StepsFit, IdemFits, DeskOk, Exclusive, StatusFits;
    assert PhaseFits(s.core, s.desk, s.workers[w]);
  }

  /** A worker inside step `i` commits it first and then goes on from the next. */
  lemma InsiderTaken(s: State, w: nat, i: nat)
    requires Inv(s) && Shaped(s.core) && w in s.workers && Owns(s.workers[w], i) && !s.workers[w].Fail?
    requires |SnapOf(s.workers[w])| == |s.core.names| && WayFrom(s, SnapOf(s.workers[w]), i + 1)
    ensures CanEnter(s)
  {
    hide Leads, Touched, Inv, PassableWith, Claimable, CanEnter, Owns, SnapOf;
    var snap := SnapOf(s.workers[w]);
    var t := Finishes(s, w, i);
    TouchedShape(s, t, i);
    var j :| i + 1 <= j < |s.core.names| && Claimable(s, j) && !Finished(snap[j].status)
             && ClearFrom(s, snap, i + 1, j);
    TouchedKeeps(s, t, i, j);
    forall k | i + 1 <= k < j
      ensures PassableWith(t, snap, k)
    {
      ReadyWithKept(s, t, snap, i, k);
    }
    assert ClearFrom(t, snap, i + 1, j);
    VisitTaken(t, w, snap, i + 1);
    EnterLater(s, t);
  }

  /** A worker about to claim a step waits until it can. */
  lemma ClaimerTaken(s: State, w: nat)
    requires Inv(s) && Shaped(s.core) && w in s.workers && s.workers[w].Claim?
    requires s.workers[w].i < |s.core.names| && Claimable(s, s.workers[w].i)
    ensures CanEnter(s)
  {
    hide Leads, Touched, Inv, Claimable;
    var j := s.workers[w].i;
    var t := MakeClaimable(s, j);
    WorkerKept(s, t, j, w);
    InvFits(s, w);
    assert Enters(t, w);
  }

  lemma OldWayTaken(s: State, w: nat)
    requires Inv(s) && Shaped(s.core) && w in s.workers && OldWay(s, s.workers[w])
    ensures CanEnter(s)
  {
    hide Leads, Touched, Inv, PassableWith, Claimable, CanEnter, WayFrom;
    var p := s.workers[w];
    if p.Claim? {
      ClaimerTaken(s, w);
    } else if p.Visit? {
      VisitTaken(s, w, p.snap, p.i);
    } else {
      InsiderTaken(s, w, p.i);
    }
  }

  // ----- Exactly when -----

  /** In every reachable state of a rejected run, some continuation takes a worker into a handler exactly if
      there is a way: for a new worker, past steps that have succeeded, are on record, can still be
      committed or are gates about to be advanced, to a step that can be claimed; or for a worker under
      way, by its own snapshot. */
  lemma RejectedEntersIff(names: seq<StepName>, s: State)
    requires Reachable(names, s) && s.core.status == Rejected
    ensures Shaped(s.core) && (CanEnter(s) <==> WayIn(s))
  {
    hide Reachable, Inv, NewWay, OldWay, Enters, Exec;
    ReachableInv(names, s);
    ShapedInv(s);
    if CanEnter(s) {
      var t, w :| Leads(s, t) && Enters(t, w);
      var events :| t == Exec(s, events);
      ExecBack(s, events, w);
    }
    if WayIn(s) {
      if NewWay(s) {
        NewWayTaken(s);
      } else {
        var w :| w in s.workers && OldWay(s, s.workers[w]);
        OldWayTaken(s, w);
      }
    }
  }

  /** Nobody is under way and no resolver is about to advance a gate. */
  ghost predicate Quiet(s: State) {
    && (forall w <- s.workers :: s.workers[w] == Gone)
    && forall r <- s.resolvers :: !s.resolvers[r].Advance?
  }

  /** With nobody under way, a rejection is final exactly if the first step that has neither succeeded nor
      an output on record is a gate, or a step left running, or there is none. */
  lemma QuietRejectionFinalIff(names: seq<StepName>, s: State)
    requires Reachable(names, s) && s.core.status == Rejected && Quiet(s)
    ensures Shaped(s.core)
    ensures CanEnter(s) <==> exists j :: 0 <= j < |s.core.names| && ClaimableNow(s, j) && AllReady(s, j)
  {
    hide Reachable, CanEnter, Recorded, CoreOk, DeskOk, Exclusive;
    RejectedEntersIff(names, s);
    forall j | 0 <= j < |s.core.names|
      ensures Claimable(s, j) <==> ClaimableNow(s, j)
      ensures Passable(s, j) <==> Ready(s, j)
    {
    }
    QuietWay(s);
  }

  lemma QuietWay(s: State)
    requires Shaped(s.core) && Quiet(s)
    requires forall j :: 0 <= j < |s.core.names| ==> (Claimable(s, j) <==> ClaimableNow(s, j))
    requires forall j :: 0 <= j < |s.core.names| ==> (Passable(s, j) <==> Ready(s, j))
    ensures WayIn(s) <==> exists j :: 0 <= j < |s.core.names| && ClaimableNow(s, j) && AllReady(s, j)
  {
    hide Claimable, ClaimableNow, Passable, Ready;
    forall w | w in s.workers
      ensures !OldWay(s, s.workers[w])
    {
    }
    if NewWay(s) {
      var j :| 0 <= j < |s.core.names| && Claimable(s, j) && ClearTo(s, j);
      assert ClaimableNow(s, j) && AllReady(s, j);
    }
    if j :| 0 <= j < |s.core.names| && ClaimableNow(s, j) && AllReady(s, j) {
      assert Claimable(s, j) && ClearTo(s, j);
    }
  }
}
